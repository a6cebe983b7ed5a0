/**
  From spreadsheet rows to the normalised records the engine aggregates:
  the two-row grouped header of the daily-report sheet, records keyed by
  header, the prefixed-then-bare field lookup, the main and sub-product
  activities, the staff list, and the daily and deal records of the
  analysis and retention pipelines. The sheet reads themselves and the date
  parser (`safeDateConversion`) are inputs: rows arrive as cell sequences
  and the parser as a partial function from cells to dates.
*/
module Sheets {
  import opened Common
  import opened Dates
  import opened Cells
  import opened Tables

  // ---------------------------------------------------------------------
  // The grouped header (first row: group labels, second row: column names)
  // ---------------------------------------------------------------------

  /** The group label in force after the group cells `gs`: the last truthy one, or the initial `''`. */
  function ActiveGroup(gs: seq<Cell>): (g: Cell)
    ensures g == Text("") || Truthy(g)
  {
    if |gs| == 0 then Text("")
    else if Truthy(gs[|gs| - 1]) then gs[|gs| - 1]
    else ActiveGroup(gs[..|gs| - 1])
  }

  /** A blank group cell inherits the last non-blank group label before it; with none, no group is active. */
  lemma {:induction false} ActiveGroupIsLastLabel(gs: seq<Cell>)
    ensures Truthy(ActiveGroup(gs)) ==>
      exists j :: 0 <= j < |gs| && gs[j] == ActiveGroup(gs) &&
                  forall k :: j < k < |gs| ==> !Truthy(gs[k])
    ensures !Truthy(ActiveGroup(gs)) ==> forall k :: 0 <= k < |gs| ==> !Truthy(gs[k])
  {
    if |gs| > 0 {
      var n := |gs| - 1;
      if Truthy(gs[n]) {
        assert ActiveGroup(gs) == gs[n];
      } else {
        var init := gs[..n];
        assert ActiveGroup(gs) == ActiveGroup(init);
        ActiveGroupIsLastLabel(init);
        if Truthy(ActiveGroup(init)) {
          var j :| 0 <= j < |init| && init[j] == ActiveGroup(init) &&
                   forall k :: j < k < |init| ==> !Truthy(init[k]);
          assert gs[j] == init[j];
          forall k | j < k < |gs|
            ensures !Truthy(gs[k])
          {
            if k < n {
              assert gs[k] == init[k];
            }
          }
        } else {
          forall k | 0 <= k < |gs|
            ensures !Truthy(gs[k])
          {
            if k < n {
              assert gs[k] == init[k];
            }
          }
        }
      }
    }
  }

  /** `group_column` under an active group, the bare column otherwise, `''` for a blank column cell. */
  function HeaderName(group: Cell, column: Cell): string
  {
    if !Truthy(column) then ""
    else if Truthy(group) then Key(group) + "_" + Key(column)
    else Key(column)
  }

  /** The headers of the first `n` columns. */
  function HeadersUpTo(groupRow: seq<Cell>, columnRow: seq<Cell>, n: nat): (hs: seq<string>)
    requires n <= |groupRow| == |columnRow|
    ensures |hs| == n
  {
    if n == 0 then []
    else HeadersUpTo(groupRow, columnRow, n - 1) + [HeaderName(ActiveGroup(groupRow[..n]), columnRow[n - 1])]
  }

  /** Column `j` of the first `n` headers is named under the group in force at column `j`. */
  lemma {:induction false} HeadersUpToAt(groupRow: seq<Cell>, columnRow: seq<Cell>, n: nat, j: nat)
    requires j < n <= |groupRow| == |columnRow|
    ensures HeadersUpTo(groupRow, columnRow, n)[j] == HeaderName(ActiveGroup(groupRow[..j + 1]), columnRow[j])
  {
    if j < n - 1 {
      HeadersUpToAt(groupRow, columnRow, n - 1, j);
      var prev := HeadersUpTo(groupRow, columnRow, n - 1);
      assert HeadersUpTo(groupRow, columnRow, n)[j] == prev[j];
    } else {
      assert j + 1 == n;
      assert HeadersUpTo(groupRow, columnRow, n)[n - 1] == HeaderName(ActiveGroup(groupRow[..n]), columnRow[n - 1]);
    }
  }

  /** The header loop: one header per column, each named under the group in force at that column. */
  method BuildHeaders(groupRow: seq<Cell>, columnRow: seq<Cell>) returns (headers: seq<string>)
    requires |groupRow| == |columnRow|
    ensures |headers| == |columnRow|
    ensures forall i :: 0 <= i < |headers| ==>
      headers[i] == HeaderName(ActiveGroup(groupRow[..i + 1]), columnRow[i])
  {
    headers := [];
    var currentGroup := Text("");
    var i := 0;
    while i < |columnRow|
      invariant 0 <= i <= |columnRow|
      invariant currentGroup == ActiveGroup(groupRow[..i])
      invariant headers == HeadersUpTo(groupRow, columnRow, i)
    {
      ActiveGroupNext(groupRow, i);
      var group := Or(groupRow[i], currentGroup);
      var column := columnRow[i];
      if Truthy(group) && group != currentGroup {
        currentGroup := group;
      }
      headers := headers + [HeaderName(currentGroup, column)];
      i := i + 1;
    }
    HeadersUpToAll(groupRow, columnRow);
  }

  lemma HeadersUpToAll(groupRow: seq<Cell>, columnRow: seq<Cell>)
    requires |groupRow| == |columnRow|
    ensures forall j :: 0 <= j < |columnRow| ==>
      HeadersUpTo(groupRow, columnRow, |columnRow|)[j] == HeaderName(ActiveGroup(groupRow[..j + 1]), columnRow[j])
  {
    forall j | 0 <= j < |columnRow|
      ensures HeadersUpTo(groupRow, columnRow, |columnRow|)[j] == HeaderName(ActiveGroup(groupRow[..j + 1]), columnRow[j])
    {
      HeadersUpToAt(groupRow, columnRow, |columnRow|, j);
    }
  }

  lemma ActiveGroupNext(gs: seq<Cell>, i: nat)
    requires i < |gs|
    ensures ActiveGroup(gs[..i + 1]) == if Truthy(gs[i]) then gs[i] else ActiveGroup(gs[..i])
  {
    assert gs[..i + 1][..i] == gs[..i];
  }

  /** Every header is empty exactly when its column cell is blank. */
  lemma HeaderBlankIffColumnBlank(group: Cell, column: Cell)
    ensures HeaderName(group, column) == "" <==> !Truthy(column)
  {
    if Truthy(column) {
      TruthyKeyNonEmpty(column);
      if Truthy(group) {
        assert |HeaderName(group, column)| >= 1;
      }
    }
  }

  // ---------------------------------------------------------------------
  // Records keyed by header
  // ---------------------------------------------------------------------

  /** The record of one row: `rec[h] = row[i]` column by column; blank headers are skipped when `skipBlank`. */
  function RecordOf(headers: seq<string>, row: seq<Cell>, skipBlank: bool): map<string, Cell>
    requires |headers| == |row|
  {
    if |headers| == 0 then map[]
    else
      var n := |headers| - 1;
      var r := RecordOf(headers[..n], row[..n], skipBlank);
      if skipBlank && headers[n] == "" then r else r[headers[n] := row[n]]
  }

  /** `headers.forEach((h, i) => { if (h) rec[h] = row[i]; })` and its unfiltered variant. */
  method BuildRecord(headers: seq<string>, row: seq<Cell>, skipBlank: bool) returns (rec: map<string, Cell>)
    requires |headers| == |row|
    ensures rec == RecordOf(headers, row, skipBlank)
  {
    rec := map[];
    var i := 0;
    while i < |headers|
      invariant 0 <= i <= |headers|
      invariant rec == RecordOf(headers[..i], row[..i], skipBlank)
    {
      assert headers[..i + 1][..i] == headers[..i] && row[..i + 1][..i] == row[..i];
      if !(skipBlank && headers[i] == "") {
        rec := rec[headers[i] := row[i]];
      }
      i := i + 1;
    }
    assert headers[..i] == headers && row[..i] == row;
  }

  /**
    A header holds the cell of the LAST column carrying it (a duplicate
    header overwrites the earlier column), and no other key is present.
  */
  lemma {:induction false} RecordOfLastColumnWins(headers: seq<string>, row: seq<Cell>, skipBlank: bool, h: string)
    requires |headers| == |row|
    requires !(skipBlank && h == "")
    ensures h in RecordOf(headers, row, skipBlank) <==> h in headers
    ensures h in RecordOf(headers, row, skipBlank) ==>
      exists i :: 0 <= i < |headers| && headers[i] == h && RecordOf(headers, row, skipBlank)[h] == row[i] &&
                  forall i' :: i < i' < |headers| ==> headers[i'] != h
  {
    if |headers| > 0 {
      var n := |headers| - 1;
      var hs := headers[..n];
      var rs := row[..n];
      RecordOfLastColumnWins(hs, rs, skipBlank, h);
      assert headers == hs + [headers[n]];
      if headers[n] != h && h in RecordOf(headers, row, skipBlank) {
        var i :| 0 <= i < n && hs[i] == h && RecordOf(hs, rs, skipBlank)[h] == rs[i] &&
                 forall i' :: i < i' < n ==> hs[i'] != h;
        assert headers[i] == hs[i] && row[i] == rs[i];
      }
    }
  }

  /** `rec[k]`, `undefined` when the record has no such key. */
  function Get(rec: map<string, Cell>, k: string): Cell
  {
    if k in rec then rec[k] else Undefined
  }

  /**
    `rec[prefixed] || rec[bare]`: the grouped column when it holds a truthy
    value, else the bare column (so a grouped 0 or `''` falls back too).
  */
  function Field(rec: map<string, Cell>, prefixed: string, bare: string): (c: Cell)
    ensures Truthy(Get(rec, prefixed)) ==> c == rec[prefixed]
    ensures !Truthy(Get(rec, prefixed)) ==> c == Get(rec, bare)
  {
    Or(Get(rec, prefixed), Get(rec, bare))
  }

  // ---------------------------------------------------------------------
  // Product activities of one daily report
  // ---------------------------------------------------------------------

  datatype Activity = Activity(
    product: Cell,
    hours: real,
    calls: real,
    receptionBk: real,
    noOneInCharge: real,
    disconnect: real,
    chargeConnected: real,
    chargeBk: real,
    appointments: real)

  const MainPrefix: string := "メイン商材_"
  const ProductColumn: string := "新規架電：メイン商材"
  const HoursColumn: string := "総荷電時間(単位は●時間)"
  const CallsColumn: string := "架電数　※半角で入力"
  const ReceptionBkColumn: string := "受付BK　※半角で入力"
  const NoOneInChargeColumn: string := "担当不在　※半角で入力"
  const DisconnectColumn: string := "不通　※半角で入力"
  const ChargeConnectedColumn: string := "担当コネクト　※半角で入力"
  const ChargeBkColumn: string := "担当BK（見込みも含む）　※半角で入力"
  const AppointmentsColumn: string := "アポ獲得　※半角で入力"
  const SubProductColumn: string := "ルート架電：サブ商材"
  const SubChargeConnectedColumn: string := "担当コネクト（担当BK＋アポ獲得）　※半角で入力"
  /** The sub-product name that marks an unused slot. */
  const EndMarker: string := "終了"
  const SubSlots: nat := 3

  /** A count read with the grouped-then-bare fallback and `safeNumber`. */
  function MainNumber(rec: map<string, Cell>, column: string): real
  {
    SafeNumber(Field(rec, MainPrefix + column, column))
  }

  function MainActivity(rec: map<string, Cell>): (a: Activity)
    ensures a.product == Field(rec, MainPrefix + ProductColumn, ProductColumn)
  {
    Activity(
      Field(rec, MainPrefix + ProductColumn, ProductColumn),
      MainNumber(rec, HoursColumn),
      MainNumber(rec, CallsColumn),
      MainNumber(rec, ReceptionBkColumn),
      MainNumber(rec, NoOneInChargeColumn),
      MainNumber(rec, DisconnectColumn),
      MainNumber(rec, ChargeConnectedColumn),
      MainNumber(rec, ChargeBkColumn),
      MainNumber(rec, AppointmentsColumn))
  }

  /** `'サブ商材' + i + '_'`, the group label of sub-product slot `i`. */
  function SubPrefix(i: nat): string
  {
    "サブ商材" + NatText(i) + "_"
  }

  function SubActivity(rec: map<string, Cell>, i: nat): Activity
  {
    var p := SubPrefix(i);
    Activity(
      Get(rec, p + SubProductColumn),
      SafeNumber(Get(rec, p + HoursColumn)),
      SafeNumber(Get(rec, p + CallsColumn)),
      SafeNumber(Get(rec, p + ReceptionBkColumn)),
      SafeNumber(Get(rec, p + NoOneInChargeColumn)),
      SafeNumber(Get(rec, p + DisconnectColumn)),
      SafeNumber(Get(rec, p + SubChargeConnectedColumn)),
      SafeNumber(Get(rec, p + ChargeBkColumn)),
      SafeNumber(Get(rec, p + AppointmentsColumn)))
  }

  /** Slot `i` is used when its product name is truthy and not the end marker. */
  predicate SlotUsed(rec: map<string, Cell>, i: nat)
  {
    var name := Get(rec, SubPrefix(i) + SubProductColumn);
    Truthy(name) && name != Text(EndMarker)
  }

  /** The used slots among 1..k, in slot order. */
  function UsedSlots(rec: map<string, Cell>, k: nat): (subs: seq<Activity>)
    ensures |subs| <= k
    ensures forall a :: a in subs ==> Truthy(a.product) && a.product != Text(EndMarker)
    ensures forall i :: 1 <= i <= k && SlotUsed(rec, i) ==> SubActivity(rec, i) in subs
    ensures forall a :: a in subs ==> exists i :: 1 <= i <= k && SlotUsed(rec, i) && a == SubActivity(rec, i)
  {
    if k == 0 then []
    else UsedSlots(rec, k - 1) + (if SlotUsed(rec, k) then [SubActivity(rec, k)] else [])
  }

  /** The sub-product loop `for (i = 1; i <= 3; i++)`: at most three activities, `終了` and blank slots skipped. */
  method ExtractSubProducts(rec: map<string, Cell>) returns (subs: seq<Activity>)
    ensures subs == UsedSlots(rec, SubSlots)
  {
    subs := [];
    var i := 1;
    while i <= SubSlots
      invariant 1 <= i <= SubSlots + 1
      invariant subs == UsedSlots(rec, i - 1)
    {
      var name := Get(rec, SubPrefix(i) + SubProductColumn);
      if Truthy(name) && name != Text(EndMarker) {
        subs := subs + [SubActivity(rec, i)];
      }
      i := i + 1;
    }
  }

  // ---------------------------------------------------------------------
  // Staff list and normalised records
  // ---------------------------------------------------------------------

  /** `safeDateConversion`: a falsy cell is no date; anything else goes to the parser. */
  function SafeDate(parse: Cell -> Option<Date>, c: Cell): (d: Option<Date>)
    ensures !Truthy(c) ==> d.None?
  {
    if !Truthy(c) then None else parse(c)
  }

  /** One row of the staff sheet: column B name, C join date, D branch. */
  datatype StaffEntry = StaffEntry(join: Option<Date>, branch: Cell)

  function CellAt(row: seq<Cell>, i: nat): Cell
  {
    if i < |row| then row[i] else Undefined
  }

  function StaffPair(row: seq<Cell>, parse: Cell -> Option<Date>): (string, StaffEntry)
  {
    (Key(CellAt(row, 1)), StaffEntry(SafeDate(parse, CellAt(row, 2)), CellAt(row, 3)))
  }

  /** The assignments `staffMap[row[1]] = {join_date, branch}`, one per row. */
  function StaffPairs(rows: seq<seq<Cell>>, parse: Cell -> Option<Date>): (ps: seq<(string, StaffEntry)>)
    ensures |ps| == |rows|
  {
    if |rows| == 0 then []
    else StaffPairs(rows[..|rows| - 1], parse) + [StaffPair(rows[|rows| - 1], parse)]
  }

  lemma {:induction false} StaffPairsAt(rows: seq<seq<Cell>>, parse: Cell -> Option<Date>, i: nat)
    requires i < |rows|
    ensures StaffPairs(rows, parse)[i] == StaffPair(rows[i], parse)
  {
    var n := |rows| - 1;
    if i < n {
      StaffPairsAt(rows[..n], parse, i);
    }
  }

  /** The staff list of a staff sheet: every row after the title row. */
  function StaffMapOf(sheet: seq<seq<Cell>>, parse: Cell -> Option<Date>): map<string, StaffEntry>
  {
    if |sheet| == 0 then map[] else Assigned(StaffPairs(sheet[1..], parse))
  }

  /** The staff-sheet loop: the title row is skipped, and a later row for the same name replaces an earlier one. */
  method BuildStaffMap(sheet: seq<seq<Cell>>, parse: Cell -> Option<Date>) returns (staffMap: map<string, StaffEntry>)
    ensures staffMap == StaffMapOf(sheet, parse)
  {
    staffMap := map[];
    if |sheet| == 0 {
      return;
    }
    var rows := sheet[1..];
    var i := 0;
    while i < |rows|
      invariant 0 <= i <= |rows|
      invariant staffMap == Assigned(StaffPairs(rows[..i], parse))
    {
      var p := StaffPair(rows[i], parse);
      assert rows[..i + 1][..i] == rows[..i];
      assert StaffPairs(rows[..i + 1], parse) == StaffPairs(rows[..i], parse) + [p];
      assert (StaffPairs(rows[..i], parse) + [p])[..i] == StaffPairs(rows[..i], parse);
      staffMap := staffMap[p.0 := p.1];
      i := i + 1;
    }
    assert rows[..i] == rows;
  }

  /** A name is listed exactly when some staff row after the title carries it, with the data of its last row. */
  lemma StaffMapLastRowWins(sheet: seq<seq<Cell>>, parse: Cell -> Option<Date>, name: string)
    requires |sheet| > 0
    ensures name in StaffMapOf(sheet, parse) <==> exists i :: 1 <= i < |sheet| && Key(CellAt(sheet[i], 1)) == name
    ensures name in StaffMapOf(sheet, parse) ==>
      exists i :: 1 <= i < |sheet| && Key(CellAt(sheet[i], 1)) == name &&
        StaffMapOf(sheet, parse)[name] == StaffPair(sheet[i], parse).1 &&
        forall i' :: i < i' < |sheet| ==> Key(CellAt(sheet[i'], 1)) != name
  {
    StaffMapNames(sheet, parse, name);
    StaffMapLastRow(sheet, parse, name);
  }

  lemma StaffMapNames(sheet: seq<seq<Cell>>, parse: Cell -> Option<Date>, name: string)
    requires |sheet| > 0
    ensures name in StaffMapOf(sheet, parse) <==> exists i :: 1 <= i < |sheet| && Key(CellAt(sheet[i], 1)) == name
  {
    var rows := sheet[1..];
    var ps := StaffPairs(rows, parse);
    assert StaffMapOf(sheet, parse) == Assigned(ps);
    AssignedLastWins(ps, name);
    if exists i :: 1 <= i < |sheet| && Key(CellAt(sheet[i], 1)) == name {
      var i :| 1 <= i < |sheet| && Key(CellAt(sheet[i], 1)) == name;
      StaffPairsAt(rows, parse, i - 1);
      assert sheet[i] == rows[i - 1];
      assert ps[i - 1].0 == name;
    }
    if name in StaffMapOf(sheet, parse) {
      var j :| 0 <= j < |ps| && ps[j].0 == name;
      StaffPairsAt(rows, parse, j);
      assert sheet[j + 1] == rows[j];
      assert Key(CellAt(sheet[j + 1], 1)) == name;
    }
  }

  lemma StaffMapLastRow(sheet: seq<seq<Cell>>, parse: Cell -> Option<Date>, name: string)
    requires |sheet| > 0
    ensures name in StaffMapOf(sheet, parse) ==>
      exists i :: 1 <= i < |sheet| && Key(CellAt(sheet[i], 1)) == name &&
        StaffMapOf(sheet, parse)[name] == StaffPair(sheet[i], parse).1 &&
        forall i' :: i < i' < |sheet| ==> Key(CellAt(sheet[i'], 1)) != name
  {
    var rows := sheet[1..];
    var ps := StaffPairs(rows, parse);
    assert StaffMapOf(sheet, parse) == Assigned(ps);
    AssignedLastWins(ps, name);
    if name in StaffMapOf(sheet, parse) {
      var j :| 0 <= j < |ps| && ps[j].0 == name && Assigned(ps)[name] == ps[j].1 &&
               forall j' :: j < j' < |ps| ==> ps[j'].0 != name;
      StaffPairsAt(rows, parse, j);
      assert sheet[j + 1] == rows[j];
      forall i' | j + 1 < i' < |sheet|
        ensures Key(CellAt(sheet[i'], 1)) != name
      {
        StaffPairsAt(rows, parse, i' - 1);
        assert sheet[i'] == rows[i' - 1];
      }
      assert Key(CellAt(sheet[j + 1], 1)) == name;
    }
  }

  /** A daily report after normalisation. */
  datatype DailyRecord = DailyRecord(
    date: Option<Date>,
    month: Option<string>,
    staff: Cell,
    branch: Cell,
    join: Option<Date>,
    main: Activity,
    subs: seq<Activity>)

  const DateColumn: string := "今日の日付"
  const NameColumn: string := "名前"

  /** The staff-list entry of a report's author, if the list has one. */
  function Lookup(staffMap: map<string, StaffEntry>, staff: Cell): Option<StaffEntry>
  {
    if Key(staff) in staffMap then Some(staffMap[Key(staff)]) else None
  }

  /**
    A daily report of the analysis pipeline: the date is repaired with
    `fixOutlierDate`, the month is cut from it, branch and join date come from
    the staff list (null when the author is not listed), and the used
    sub-product slots are attached.
  */
  function AnalysisDaily(rec: map<string, Cell>, staffMap: map<string, StaffEntry>,
                         parse: Cell -> Option<Date>, nowYear: int): (d: DailyRecord)
    requires MinYear <= nowYear <= MaxYear
    ensures d.date == FixOutlierDate(SafeDate(parse, Get(rec, DateColumn)), nowYear)
    ensures d.month == MonthKey(d.date)
    ensures d.staff == Get(rec, NameColumn)
    ensures Key(d.staff) in staffMap ==> d.branch == staffMap[Key(d.staff)].branch && d.join == staffMap[Key(d.staff)].join
    ensures Key(d.staff) !in staffMap ==> d.branch == Null && d.join.None?
    ensures d.main == MainActivity(rec) && d.subs == UsedSlots(rec, SubSlots)
  {
    var date := FixOutlierDate(SafeDate(parse, Get(rec, DateColumn)), nowYear);
    var staff := Get(rec, NameColumn);
    var entry := Lookup(staffMap, staff);
    DailyRecord(
      date, MonthKey(date), staff,
      if entry.Some? then entry.value.branch else Null,
      if entry.Some? then entry.value.join else None,
      MainActivity(rec), UsedSlots(rec, SubSlots))
  }

  /** A daily report of the retention pipeline: the date is NOT repaired and no sub-products are read. */
  function RetentionDaily(rec: map<string, Cell>, staffMap: map<string, StaffEntry>,
                          parse: Cell -> Option<Date>): (d: DailyRecord)
    ensures d.date == SafeDate(parse, Get(rec, DateColumn)) && d.month == MonthKey(d.date)
    ensures d.staff == Get(rec, NameColumn)
    ensures Key(d.staff) in staffMap ==> d.branch == staffMap[Key(d.staff)].branch && d.join == staffMap[Key(d.staff)].join
    ensures Key(d.staff) !in staffMap ==> d.branch == Null && d.join.None?
    ensures d.main == MainActivity(rec) && d.subs == []
  {
    var date := SafeDate(parse, Get(rec, DateColumn));
    var staff := Get(rec, NameColumn);
    var entry := Lookup(staffMap, staff);
    DailyRecord(
      date, MonthKey(date), staff,
      if entry.Some? then entry.value.branch else Null,
      if entry.Some? then entry.value.join else None,
      MainActivity(rec), [])
  }

  /** A deal of the TAAAN sheet as the analysis pipeline reads it. */
  datatype Deal = Deal(date: Option<Date>, staff: Cell, product: Cell, commission: real, status: Cell)

  /** Deal dates come from the meeting start; the commission goes through `safeNumber`; the status is the raw cell. */
  function AnalysisDeal(rec: map<string, Cell>, parse: Cell -> Option<Date>): (d: Deal)
    ensures d.date == SafeDate(parse, Get(rec, "商談開始日時"))
    ensures d.staff == Get(rec, "パートナー担当者") && d.product == Get(rec, "プロダクト名")
    ensures d.commission == SafeNumber(Get(rec, "報酬")) && d.status == Get(rec, "商談ステータス")
  {
    Deal(
      SafeDate(parse, Get(rec, "商談開始日時")),
      Get(rec, "パートナー担当者"),
      Get(rec, "プロダクト名"),
      SafeNumber(Get(rec, "報酬")),
      Get(rec, "商談ステータス"))
  }
}

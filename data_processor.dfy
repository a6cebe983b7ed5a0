/**
  The dashboard's data-processing helpers (utils/data_processor.py): the
  months found among the loaded report files, the lookup of a month's
  analysis and retention reports, the flattening of the staff's daily
  activity into per-product rows, and the list of months ending with a
  given month.

  The loaded archive is the dictionary `json_data` from file name to parsed
  content, kept here as its entries in the dictionary's iteration order;
  the content itself is left abstract (`D`).
*/
module DataProcessor {
  import opened Common
  import opened PyText

  /** One loaded file: its name and its parsed content. */
  type Entry<D> = (string, D)

  // ---------------------------------------------------------------------
  // get_available_months_from_data
  // ---------------------------------------------------------------------

  /**
    The month a file name offers: the last `_`-separated piece with every
    `.json` removed, when the name holds a `_` and `.json` and that piece
    is seven characters long with a dash at index 4.
  */
  function MonthOfName(name: string): (r: Option<string>)
    ensures r.Some? ==> |r.value| == 7 && r.value[4] == '-'
  {
    if '_' in name && Contains(name, ".json") then
      var parts := Split(name, '_');
      if |parts| >= 2 then
        var part := RemoveAll(parts[|parts| - 1], ".json");
        if |part| == 7 && part[4] == '-' then Some(part) else None
      else None
    else None
  }

  /** A report named `<prefix>_<month>.json` offers its month. */
  lemma MonthOfReportName(prefix: string, month: string)
    requires |month| == 7 && month[4] == '-' && '_' !in month && '.' !in month
    ensures MonthOfName(prefix + "_" + month + ".json") == Some(month)
  {
    var name := prefix + "_" + month + ".json";
    assert name == prefix + ['_'] + (month + ".json");
    assert '_' in name by { assert name[|prefix|] == '_'; }
    assert name[|prefix| + 8..] == ".json";
    ContainsAt(name, ".json", |prefix| + 8);
    SplitLast(prefix, month + ".json", '_');
    RemoveAllTrailing(month, ".json");
  }

  /** The values `f` offers for the names of `entries`. */
  function Offered<D>(entries: seq<Entry<D>>, f: string -> Option<string>): set<string>
  {
    if entries == [] then {}
    else
      var m := f(entries[|entries| - 1].0);
      Offered(entries[..|entries| - 1], f) + (if m.Some? then {m.value} else {})
  }

  lemma {:induction false} OfferedMembers<D>(entries: seq<Entry<D>>, f: string -> Option<string>, x: string)
    ensures x in Offered(entries, f) <==> exists i :: 0 <= i < |entries| && f(entries[i].0) == Some(x)
  {
    if entries != [] {
      var init := entries[..|entries| - 1];
      OfferedMembers(init, f, x);
      if exists i :: 0 <= i < |init| && f(init[i].0) == Some(x) {
        var i :| 0 <= i < |init| && f(init[i].0) == Some(x);
        assert entries[i] == init[i];
      }
      if exists i :: 0 <= i < |entries| && f(entries[i].0) == Some(x) {
        var i :| 0 <= i < |entries| && f(entries[i].0) == Some(x);
        if i < |init| {
          assert init[i] == entries[i];
        }
      }
    }
  }

  /** The months offered by the names of `entries`. */
  function MonthsIn<D>(entries: seq<Entry<D>>): set<string>
  {
    Offered(entries, MonthOfName)
  }

  /** A month is found exactly when some file name offers it. */
  lemma MonthsInMembers<D>(entries: seq<Entry<D>>, month: string)
    ensures month in MonthsIn(entries) <==>
      exists i :: 0 <= i < |entries| && MonthOfName(entries[i].0) == Some(month)
  {
    OfferedMembers(entries, MonthOfName, month);
  }

  /** The months as a list, each once, in no particular order (`list(months)`). */
  method ListOf(s: set<string>) returns (r: seq<string>)
    ensures Distinct(r)
    ensures forall x :: x in r <==> x in s
  {
    r := [];
    var rest := s;
    while rest != {}
      invariant Distinct(r)
      invariant forall x :: x in r ==> x !in rest
      invariant forall x :: x in s <==> x in r || x in rest
      decreases |rest|
    {
      var x :| x in rest;
      r := r + [x];
      rest := rest - {x};
    }
  }

  /**
    `get_available_months_from_data`: every month some file name offers,
    each once, newest first (`sorted(..., reverse=True)`).
  */
  method GetAvailableMonths<D>(entries: seq<Entry<D>>) returns (r: seq<string>)
    ensures forall x :: x in r <==> x in MonthsIn(entries)
    ensures forall i, j :: 0 <= i < j < |r| ==> LexLess(r[j], r[i])
  {
    var months: set<string> := {};
    var i := 0;
    while i < |entries|
      invariant 0 <= i <= |entries|
      invariant months == MonthsIn(entries[..i])
    {
      assert entries[..i + 1][..i] == entries[..i];
      var m := MonthOfName(entries[i].0);
      if m.Some? {
        months := months + {m.value};
      }
      i := i + 1;
    }
    assert entries[..i] == entries;
    var list := ListOf(months);
    SortStringsStrict(list);
    var sorted := SortStrings(list);
    assert forall x :: x in sorted <==> x in list by {
      assert multiset(sorted) == multiset(list);
      forall x ensures x in sorted <==> x in list {
        assert x in sorted <==> x in multiset(sorted);
        assert x in list <==> x in multiset(list);
      }
    }
    r := Reverse(sorted);
    assert forall x :: x in r <==> x in sorted by {
      forall x ensures x in r <==> x in sorted {
        if x in sorted {
          var k :| 0 <= k < |sorted| && sorted[k] == x;
          assert r[|sorted| - 1 - k] == x;
        }
      }
    }
  }

  // ---------------------------------------------------------------------
  // load_analysis_data_from_json, load_retention_data_from_json
  // ---------------------------------------------------------------------

  /** The three monthly analysis reports. */
  datatype Kind = Basic | Detail | Summary

  /** The file-name fragment that marks report `kind` of `month`. */
  function Pattern(kind: Kind, month: string): string
  {
    match kind
    case Basic => "基本分析_" + month + ".json"
    case Detail => "詳細分析_" + month + ".json"
    case Summary => "月次サマリー_" + month + ".json"
  }

  /**
    The report a file name is taken for by the `if`/`elif` chain: the basic
    pattern is tried first, then the detail one, then the summary one.
  */
  function Classify(name: string, month: string): (r: Option<Kind>)
    ensures r.None? <==> forall k: Kind :: !Contains(name, Pattern(k, month))
    ensures r.Some? ==> Contains(name, Pattern(r.value, month))
    ensures r == Some(Detail) ==> !Contains(name, Pattern(Basic, month))
    ensures r == Some(Summary) ==> !Contains(name, Pattern(Basic, month)) && !Contains(name, Pattern(Detail, month))
  {
    if Contains(name, Pattern(Basic, month)) then Some(Basic)
    else if Contains(name, Pattern(Detail, month)) then Some(Detail)
    else if Contains(name, Pattern(Summary, month)) then Some(Summary)
    else None
  }

  /** The content of the last entry whose name satisfies `p`, or `None`. */
  function LastWhere<D>(entries: seq<Entry<D>>, p: string -> bool): Option<D>
  {
    if entries == [] then None
    else if p(entries[|entries| - 1].0) then Some(entries[|entries| - 1].1)
    else LastWhere(entries[..|entries| - 1], p)
  }

  lemma {:induction false} LastWhereSpec<D>(entries: seq<Entry<D>>, p: string -> bool)
    ensures LastWhere(entries, p).None? <==> forall i :: 0 <= i < |entries| ==> !p(entries[i].0)
    ensures LastWhere(entries, p).Some? ==>
      exists i :: 0 <= i < |entries| && p(entries[i].0) && LastWhere(entries, p) == Some(entries[i].1) &&
        forall j :: i < j < |entries| ==> !p(entries[j].0)
  {
    if entries != [] {
      var n := |entries|;
      var init := entries[..n - 1];
      LastWhereSpec(init, p);
      if p(entries[n - 1].0) {
        assert LastWhere(entries, p) == Some(entries[n - 1].1);
      } else {
        assert LastWhere(entries, p) == LastWhere(init, p);
        InitMatches(entries, p);
        if LastWhere(init, p).Some? {
          var i :| 0 <= i < |init| && p(init[i].0) && LastWhere(init, p) == Some(init[i].1) &&
            forall j :: i < j < |init| ==> !p(init[j].0);
          assert init[i] == entries[i];
          forall j | i < j < n
            ensures !p(entries[j].0)
          {
            if j < n - 1 {
              assert init[j] == entries[j];
            }
          }
        }
      }
    }
  }

  /** When the last entry fails `p`, some entry satisfies `p` exactly when some entry before it does. */
  lemma InitMatches<D>(entries: seq<Entry<D>>, p: string -> bool)
    requires |entries| > 0 && !p(entries[|entries| - 1].0)
    ensures var init := entries[..|entries| - 1];
      (forall i :: 0 <= i < |entries| ==> !p(entries[i].0)) <==> (forall i :: 0 <= i < |init| ==> !p(init[i].0))
  {
    var init := entries[..|entries| - 1];
    assert forall i :: 0 <= i < |init| ==> init[i] == entries[i];
  }

  /** The content of the last entry taken for report `kind`, or `None`. */
  function LastOf<D>(entries: seq<Entry<D>>, month: string, kind: Kind): Option<D>
  {
    LastWhere(entries, name => Classify(name, month) == Some(kind))
  }

  /**
    The report found for `kind` is the content of an entry taken for it
    after which no entry is taken for it; there is none exactly when no
    entry is taken for it.
  */
  lemma LastOfSpec<D>(entries: seq<Entry<D>>, month: string, kind: Kind)
    ensures LastOf(entries, month, kind).None? <==>
      forall i :: 0 <= i < |entries| ==> Classify(entries[i].0, month) != Some(kind)
    ensures LastOf(entries, month, kind).Some? ==>
      exists i :: 0 <= i < |entries| && Classify(entries[i].0, month) == Some(kind) &&
        LastOf(entries, month, kind) == Some(entries[i].1) &&
        forall j :: i < j < |entries| ==> Classify(entries[j].0, month) != Some(kind)
  {
    LastWhereSpec(entries, name => Classify(name, month) == Some(kind));
  }

  /**
    `load_analysis_data_from_json`: for each of the three reports, the
    content of the last file taken for it, or `None`.
  */
  method LoadAnalysisData<D>(entries: seq<Entry<D>>, month: string)
    returns (basic: Option<D>, detail: Option<D>, summary: Option<D>)
    ensures basic == LastOf(entries, month, Basic)
    ensures detail == LastOf(entries, month, Detail)
    ensures summary == LastOf(entries, month, Summary)
  {
    basic, detail, summary := None, None, None;
    var i := 0;
    while i < |entries|
      invariant 0 <= i <= |entries|
      invariant basic == LastOf(entries[..i], month, Basic)
      invariant detail == LastOf(entries[..i], month, Detail)
      invariant summary == LastOf(entries[..i], month, Summary)
    {
      assert entries[..i + 1][..i] == entries[..i];
      var (name, data) := entries[i];
      if Contains(name, Pattern(Basic, month)) {
        basic := Some(data);
      } else if Contains(name, Pattern(Detail, month)) {
        detail := Some(data);
      } else if Contains(name, Pattern(Summary, month)) {
        summary := Some(data);
      }
      i := i + 1;
    }
    assert entries[..i] == entries;
  }

  /** The file-name fragment of `month`'s retention report. */
  function RetentionPattern(month: string): string
  {
    "定着率分析_" + month + ".json"
  }

  /**
    `load_retention_data_from_json`: the content of the first file whose
    name holds the retention pattern, or `None` when no name does.
  */
  method LoadRetentionData<D>(entries: seq<Entry<D>>, month: string) returns (r: Option<D>)
    ensures r.None? <==> forall i :: 0 <= i < |entries| ==> !Contains(entries[i].0, RetentionPattern(month))
    ensures r.Some? ==>
      exists i :: 0 <= i < |entries| && Contains(entries[i].0, RetentionPattern(month)) &&
        r == Some(entries[i].1) &&
        forall j :: 0 <= j < i ==> !Contains(entries[j].0, RetentionPattern(month))
  {
    var i := 0;
    while i < |entries|
      invariant 0 <= i <= |entries|
      invariant forall j :: 0 <= j < i ==> !Contains(entries[j].0, RetentionPattern(month))
    {
      if Contains(entries[i].0, RetentionPattern(month)) {
        return Some(entries[i].1);
      }
      i := i + 1;
    }
    return None;
  }

  // ---------------------------------------------------------------------
  // extract_daily_activity_from_staff
  // ---------------------------------------------------------------------

  /**
    One product's figures in a day's activity (`main_product` or an entry
    of `sub_products`); a key the file lacks is `None`, and a missing
    `main_product` is a product with every key missing.
  */
  datatype ProductDay = ProductDay(
    product: Option<string>,
    callHours: Option<real>,
    callCount: Option<real>,
    receptionBk: Option<real>,
    noOneInCharge: Option<real>,
    disconnect: Option<real>,
    chargeConnected: Option<real>,
    chargeBk: Option<real>,
    getAppointment: Option<real>)

  /** One day of a staff member's `daily_activity`. */
  datatype Activity = Activity(date: Option<string>, main: ProductDay, subs: seq<ProductDay>)

  /** A staff entry of the analysis report: its branch, its join date and its days. */
  datatype StaffEntry = StaffEntry(branch: Option<string>, joinDate: Option<string>, days: seq<Activity>)

  /** Which of a day's products a row comes from. */
  datatype ProductType = MainProduct | SubProduct

  /** The text the row's `product_type` column carries. */
  function ProductTypeText(t: ProductType): string
  {
    match t
    case MainProduct => "メイン商材"
    case SubProduct => "サブ商材"
  }

  /** One row of the flattened frame: the product's nine figures copied as they are, plus the day and the staff member. */
  datatype Row = Row(
    date: Option<string>,
    figures: ProductDay,
    staffName: string,
    branch: Option<string>,
    joinDate: Option<string>,
    productType: ProductType)

  /** `get("call_count", 0)`. */
  function Calls(p: ProductDay): real
  {
    if p.callCount.Some? then p.callCount.value else 0.0
  }

  /**
    The date a row carries: a non-empty date is converted to its day in
    Japan (`toJst`, the pandas conversion, which may fail); a failed
    conversion, an empty date and a missing one are kept as they are.
  */
  function RowDate(date: Option<string>, toJst: string -> Option<string>): Option<string>
  {
    if date.Some? && date.value != "" && toJst(date.value).Some? then toJst(date.value) else date
  }

  /** The rows of one staff member's sub-products with calls, in order. */
  function SubRows(subs: seq<ProductDay>, date: Option<string>, name: string, s: StaffEntry): seq<Row>
  {
    if subs == [] then []
    else
      var p := subs[|subs| - 1];
      SubRows(subs[..|subs| - 1], date, name, s) +
        (if Calls(p) > 0.0 then [Row(date, p, name, s.branch, s.joinDate, SubProduct)] else [])
  }

  /** The rows of one day: the main product's first when it has calls, then the sub-products'. */
  function DayRows(a: Activity, name: string, s: StaffEntry, toJst: string -> Option<string>): seq<Row>
  {
    var date := RowDate(a.date, toJst);
    (if Calls(a.main) > 0.0 then [Row(date, a.main, name, s.branch, s.joinDate, MainProduct)] else []) +
      SubRows(a.subs, date, name, s)
  }

  /** The rows of a staff member's days, in order. */
  function StaffRows(days: seq<Activity>, name: string, s: StaffEntry, toJst: string -> Option<string>): seq<Row>
  {
    if days == [] then []
    else StaffRows(days[..|days| - 1], name, s, toJst) + DayRows(days[|days| - 1], name, s, toJst)
  }

  /** The rows of every staff member, in the dictionary's order. */
  function AllRows(staff: seq<(string, StaffEntry)>, toJst: string -> Option<string>): seq<Row>
  {
    if staff == [] then []
    else
      var (name, s) := staff[|staff| - 1];
      AllRows(staff[..|staff| - 1], toJst) + StaffRows(s.days, name, s, toJst)
  }

  /** A row belongs to staff member `name` with entry `s`: the staff columns are copied from the entry, and the product had calls. */
  predicate RowOf(r: Row, name: string, s: StaffEntry)
  {
    r.staffName == name && r.branch == s.branch && r.joinDate == s.joinDate && Calls(r.figures) > 0.0
  }

  /** The sub-product rows are exactly the sub-products with calls, each tagged as a sub-product and dated with the day. */
  lemma {:induction false} SubRowsShape(subs: seq<ProductDay>, date: Option<string>, name: string, s: StaffEntry)
    ensures forall r :: r in SubRows(subs, date, name, s) ==>
      RowOf(r, name, s) && r.productType == SubProduct && r.date == date && r.figures in subs
    ensures forall p :: p in subs && Calls(p) > 0.0 ==> Row(date, p, name, s.branch, s.joinDate, SubProduct) in SubRows(subs, date, name, s)
  {
    if subs != [] {
      var init := subs[..|subs| - 1];
      SubRowsShape(init, date, name, s);
      assert forall p :: p in subs ==> p in init || p == subs[|subs| - 1];
    }
  }

  /**
    A day's rows: the main product's row comes first exactly when it had
    calls, every later row is a sub-product's, every row carries the
    converted date and the staff columns, and every sub-product with calls
    has its row.
  */
  lemma DayRowsShape(a: Activity, name: string, s: StaffEntry, toJst: string -> Option<string>)
    ensures var rs := DayRows(a, name, s, toJst);
      (Calls(a.main) > 0.0 <==> |rs| > 0 && rs[0].productType == MainProduct) &&
      (Calls(a.main) > 0.0 ==> rs[0] == Row(RowDate(a.date, toJst), a.main, name, s.branch, s.joinDate, MainProduct)) &&
      (forall k :: 1 <= k < |rs| ==> rs[k].productType == SubProduct) &&
      (forall r :: r in rs ==> RowOf(r, name, s) && r.date == RowDate(a.date, toJst)) &&
      (forall p :: p in a.subs && Calls(p) > 0.0 ==>
        Row(RowDate(a.date, toJst), p, name, s.branch, s.joinDate, SubProduct) in rs)
  {
    var date := RowDate(a.date, toJst);
    var subRows := SubRows(a.subs, date, name, s);
    SubRowsShape(a.subs, date, name, s);
    if Calls(a.main) > 0.0 {
      assert forall k :: 1 <= k < |DayRows(a, name, s, toJst)| ==> DayRows(a, name, s, toJst)[k] == subRows[k - 1];
    } else {
      assert DayRows(a, name, s, toJst) == subRows;
      if |subRows| > 0 {
        assert subRows[0] in subRows;
      }
    }
  }

  /** Every row of a staff member carries that member's columns. */
  lemma {:induction false} StaffRowsOwner(days: seq<Activity>, name: string, s: StaffEntry, toJst: string -> Option<string>)
    ensures forall r :: r in StaffRows(days, name, s, toJst) ==> RowOf(r, name, s)
  {
    if days != [] {
      StaffRowsOwner(days[..|days| - 1], name, s, toJst);
      DayRowsShape(days[|days| - 1], name, s, toJst);
    }
  }

  /**
    Every row of the flattened frame comes from a staff entry: it carries
    that entry's name, branch and join date, and its product had calls.
  */
  lemma {:induction false} AllRowsOwners(staff: seq<(string, StaffEntry)>, toJst: string -> Option<string>)
    ensures forall r :: r in AllRows(staff, toJst) ==>
      exists i :: 0 <= i < |staff| && RowOf(r, staff[i].0, staff[i].1)
  {
    if staff != [] {
      var n := |staff|;
      var init := staff[..n - 1];
      AllRowsOwners(init, toJst);
      StaffRowsOwner(staff[n - 1].1.days, staff[n - 1].0, staff[n - 1].1, toJst);
      forall r | r in AllRows(staff, toJst)
        ensures exists i :: 0 <= i < n && RowOf(r, staff[i].0, staff[i].1)
      {
        if r in AllRows(init, toJst) {
          var i :| 0 <= i < |init| && RowOf(r, init[i].0, init[i].1);
          assert staff[i] == init[i];
        } else {
          assert RowOf(r, staff[n - 1].0, staff[n - 1].1);
        }
      }
    }
  }

  /** The sub-product loop of one day. */
  method AppendSubRows(rows0: seq<Row>, subs: seq<ProductDay>, date: Option<string>, name: string, s: StaffEntry)
    returns (rows: seq<Row>)
    ensures rows == rows0 + SubRows(subs, date, name, s)
  {
    rows := rows0;
    var k := 0;
    while k < |subs|
      invariant 0 <= k <= |subs|
      invariant rows == rows0 + SubRows(subs[..k], date, name, s)
    {
      assert subs[..k + 1][..k] == subs[..k];
      var p := subs[k];
      if Calls(p) > 0.0 {
        rows := rows + [Row(date, p, name, s.branch, s.joinDate, SubProduct)];
      }
      k := k + 1;
    }
    assert subs[..k] == subs;
  }

  /** The pandas conversion of a day's date, kept as it is when empty, missing or unconvertible. */
  method ConvertDate(date: Option<string>, toJst: string -> Option<string>) returns (d: Option<string>)
    ensures d == RowDate(date, toJst)
  {
    d := date;
    if date.Some? && date.value != "" {
      var converted := toJst(date.value);
      if converted.Some? {
        d := converted;
      }
    }
  }

  /** The body of the loop over a staff member's days. */
  method AppendDayRows(rows0: seq<Row>, a: Activity, name: string, s: StaffEntry, toJst: string -> Option<string>)
    returns (rows: seq<Row>)
    ensures rows == rows0 + DayRows(a, name, s, toJst)
  {
    var date := ConvertDate(a.date, toJst);
    rows := rows0;
    var main: seq<Row> := [];
    if Calls(a.main) > 0.0 {
      main := [Row(date, a.main, name, s.branch, s.joinDate, MainProduct)];
      rows := rows + main;
    }
    rows := AppendSubRows(rows, a.subs, date, name, s);
    assert rows0 + main + SubRows(a.subs, date, name, s) == rows0 + (main + SubRows(a.subs, date, name, s));
  }

  /** The loop over one staff member's days. */
  method AppendStaffRows(rows0: seq<Row>, name: string, s: StaffEntry, toJst: string -> Option<string>)
    returns (rows: seq<Row>)
    ensures rows == rows0 + StaffRows(s.days, name, s, toJst)
  {
    rows := rows0;
    var j := 0;
    while j < |s.days|
      invariant 0 <= j <= |s.days|
      invariant rows == rows0 + StaffRows(s.days[..j], name, s, toJst)
    {
      assert s.days[..j + 1][..j] == s.days[..j];
      rows := AppendDayRows(rows, s.days[j], name, s, toJst);
      assert rows0 + StaffRows(s.days[..j], name, s, toJst) + DayRows(s.days[j], name, s, toJst)
        == rows0 + StaffRows(s.days[..j + 1], name, s, toJst);
      j := j + 1;
    }
    assert s.days[..j] == s.days;
  }

  /**
    `extract_daily_activity_from_staff`: one row per product with calls,
    staff member by staff member, day by day, the main product before the
    sub-products.
  */
  method ExtractDailyActivity(staff: seq<(string, StaffEntry)>, toJst: string -> Option<string>)
    returns (rows: seq<Row>)
    ensures rows == AllRows(staff, toJst)
  {
    rows := [];
    var i := 0;
    while i < |staff|
      invariant 0 <= i <= |staff|
      invariant rows == AllRows(staff[..i], toJst)
    {
      assert staff[..i + 1][..i] == staff[..i];
      var (name, s) := staff[i];
      rows := AppendStaffRows(rows, name, s, toJst);
      i := i + 1;
    }
    assert staff[..i] == staff;
  }

  // ---------------------------------------------------------------------
  // get_prev_months (utils/data_processor.py)
  // ---------------------------------------------------------------------

  /** `f"{y:04d}-{m:02d}"`. */
  function Format(y: int, m: int): string
  {
    PyZeroPad(y, 4) + "-" + PyZeroPad(m, 2)
  }

  /** `year, month = map(int, month_str.split('-'))`; `None` where Python raises (a value that is not a string, or text without exactly one dash or with a side that is not an integer). */
  function ParseYearMonth(arg: Option<string>): Option<(int, int)>
  {
    if arg.None? then None
    else
      var parts := Split(arg.value, '-');
      if |parts| != 2 then None
      else
        var y := PyInt(parts[0]);
        var m := PyInt(parts[1]);
        if y.Some? && m.Some? then Some((y.value, m.value)) else None
  }

  /** The year and month of the `i`-th month the loop appends: `i` months back, borrowing one year when the month drops to zero or below. */
  function StepBack(y: int, m: int, i: nat): (int, int)
  {
    if m - i <= 0 then (y - 1, 12 + (m - i)) else (y, m - i)
  }

  /** The text a year and month are appended as. */
  function FormatPair(p: (int, int)): string
  {
    Format(p.0, p.1)
  }

  /** The first `k` months the loop appends, newest first. */
  function Steps(y: int, m: int, k: nat): (r: seq<(int, int)>)
    ensures |r| == k
  {
    if k == 0 then [] else Steps(y, m, k - 1) + [StepBack(y, m, k - 1)]
  }

  /** `get_prev_months` of utils/data_processor.py: the `n` appended months, oldest first, or `[]` when the argument does not parse. */
  function PrevMonthsIncluding(arg: Option<string>, n: nat): seq<string>
  {
    var ym := ParseYearMonth(arg);
    if ym.None? then [] else IncludingFrom(ym.value.0, ym.value.1, n)
  }

  /** The list for year `y` and month `m`: the appended months, reversed. */
  function IncludingFrom(y: int, m: int, n: nat): seq<string>
  {
    Reverse(MapSeq(FormatPair, Steps(y, m, n)))
  }

  /** `get_prev_months` of utils/data_processor.py. */
  method GetPrevMonthsIncluding(arg: Option<string>, n: nat) returns (r: seq<string>)
    ensures r == PrevMonthsIncluding(arg, n)
  {
    var ym := ParseYearMonth(arg);
    if ym.None? {
      return [];
    }
    var months := IncludingLoop(ym.value.0, ym.value.1, n);
    r := Reverse(months);
    assert r == IncludingFrom(ym.value.0, ym.value.1, n);
  }

  /** The loop of `get_prev_months`: the months appended, newest first. */
  method IncludingLoop(year: int, month: int, n: nat) returns (months: seq<string>)
    ensures months == MapSeq(FormatPair, Steps(year, month, n))
  {
    months := [];
    var i := 0;
    while i < n
      invariant 0 <= i <= n
      invariant months == MapSeq(FormatPair, Steps(year, month, i))
    {
      var text := AppendedText(year, month, i);
      MapSeqAppend(FormatPair, Steps(year, month, i), StepBack(year, month, i));
      months := months + [text];
      i := i + 1;
    }
  }

  /** One round of the loop: the month `i` months back, as text. */
  method AppendedText(year: int, month: int, i: nat) returns (text: string)
    ensures text == FormatPair(StepBack(year, month, i))
  {
    if month - i <= 0 {
      text := Format(year - 1, 12 + (month - i));
    } else {
      text := Format(year, month - i);
    }
  }

  /** The year and month (1..12) of month number `k`. */
  function CalendarPair(k: int): (int, int)
  {
    (k / 12, k % 12 + 1)
  }

  /** The `n` calendar months ending with month number `k`, oldest first. */
  function CalendarMonths(k: int, n: nat): seq<(int, int)>
  {
    seq(n, i => CalendarPair(k - n + 1 + i))
  }

  /** For a month 1..12, each of the first m + 12 steps back is the calendar month that many months earlier. */
  lemma StepBackCalendar(y: int, m: int, i: nat)
    requires 1 <= m <= 12 && i < m + 12
    ensures StepBack(y, m, i) == CalendarPair(y * 12 + m - 1 - i)
  {
    var k := y * 12 + m - 1 - i;
    if m - i <= 0 {
      assert k == (y - 1) * 12 + (11 + m - i);
      assert k / 12 == y - 1 && k % 12 == 11 + m - i;
    } else {
      assert k / 12 == y && k % 12 == m - 1 - i;
    }
  }

  lemma {:induction false} StepsCalendar(y: int, m: int, k: nat)
    requires 1 <= m <= 12 && k <= m + 12
    ensures forall i :: 0 <= i < k ==> Steps(y, m, k)[i] == CalendarPair(y * 12 + m - 1 - i)
  {
    if k > 0 {
      StepsCalendar(y, m, k - 1);
      StepBackCalendar(y, m, k - 1);
    }
  }

  lemma StepsEndingAt(y: int, m: int, n: nat)
    requires 1 <= m <= 12 && n <= m + 12
    ensures Reverse(Steps(y, m, n)) == CalendarMonths(MonthIndexOf(y, m), n)
  {
    StepsCalendar(y, m, n);
  }

  /**
    For a month 1..12 and at most m + 12 months, the list is the `n`
    consecutive calendar months ending with the given month itself, oldest
    first, the year borrowed where the months cross January.
  */
  lemma PrevMonthsIncludingConsecutive(y: int, m: int, n: nat)
    requires 1 <= m <= 12 && n <= m + 12
    ensures IncludingFrom(y, m, n) == MapSeq(FormatPair, CalendarMonths(MonthIndexOf(y, m), n))
    ensures n >= 1 ==> IncludingFrom(y, m, n)[n - 1] == Format(y, m)
  {
    StepsEndingAt(y, m, n);
    MapReverse(FormatPair, Steps(y, m, n));
    if n >= 1 {
      CalendarMonthsLast(MonthIndexOf(y, m), n);
      CalendarPairOf(y, m);
    }
  }

  lemma CalendarMonthsLast(k: int, n: nat)
    requires n >= 1
    ensures CalendarMonths(k, n)[n - 1] == CalendarPair(k)
  {
    assert k - n + 1 + (n - 1) == k;
  }

  lemma CalendarPairOf(y: int, m: int)
    requires 1 <= m <= 12
    ensures CalendarPair(MonthIndexOf(y, m)) == (y, m)
  {
    var k := y * 12 + m - 1;
    assert k / 12 == y && k % 12 == m - 1;
  }

  /** Month `m` of year `y`, numbered consecutively. */
  function MonthIndexOf(y: int, m: int): int
  {
    y * 12 + m - 1
  }

  /** A zero-padded month of years 0..9999 parses back to its year and month. */
  lemma ParseFormat(y: nat, m: nat)
    requires y <= 9999 && 1 <= m <= 12
    ensures ParseYearMonth(Some(Format(y, m))) == Some((y, m))
  {
    var ys := PadNat(y, 4);
    var ms := PadNat(m, 2);
    assert Format(y, m) == ys + ['-'] + ms;
    DigitsHaveNoPunctuation(ys);
    DigitsHaveNoPunctuation(ms);
    SplitPair(ys, ms, '-');
    PyIntPadNat(y, 4);
    PyIntPadNat(m, 2);
  }
}

/**
  The merge pipeline: each daily report is matched to the first deal and the
  first Sansan rejection with the same calendar day and the same staff
  name, and a company report is composed from the matches.
*/
module Join {
  import opened Common
  import opened Dates
  import opened Cells
  import opened Sheets

  /** A deal of the TAAAN sheet as the merge pipeline reads it. */
  datatype MergeDeal = MergeDeal(
    date: Option<Date>,
    staff: Cell,
    company: Cell,
    product: Cell,
    commission: Cell,
    dealStart: Option<Date>,
    dealEnd: Option<Date>,
    corporateNumber: Cell,
    corporateName: Cell,
    status: Cell,
    inlineReason: Cell)

  /** A row of the Sansan rejection sheet. It carries no staff column. */
  datatype Rejection = Rejection(date: Option<Date>, company: Cell, product: Cell, reason: Cell, detail: Cell)

  /** A daily report as the merge pipeline reads it. */
  datatype MergeDaily = MergeDaily(id: nat, date: Option<Date>, staff: Cell, join: Option<Date>, main: Activity, subs: seq<Activity>)

  /** Deal dates come from the creation time; product and commission fall back with `||`. */
  function MergeDealOf(rec: map<string, Cell>, parse: Cell -> Option<Date>): (d: MergeDeal)
    ensures d.date == SafeDate(parse, Get(rec, "作成日時"))
    ensures d.product == Or(Get(rec, "プロダクト名"), Get(rec, "サービス名"))
    ensures Truthy(d.commission) <==> Truthy(Get(rec, "報酬"))
    ensures Truthy(d.inlineReason) <==> Truthy(Get(rec, "却下理由"))
  {
    MergeDeal(
      SafeDate(parse, Get(rec, "作成日時")),
      Get(rec, "パートナー担当者"),
      Get(rec, "メーカー名"),
      Or(Get(rec, "プロダクト名"), Get(rec, "サービス名")),
      Or(Get(rec, "報酬"), Null),
      SafeDate(parse, Get(rec, "商談開始日時")),
      SafeDate(parse, Get(rec, "商談終了日時")),
      Get(rec, "法人番号"),
      Get(rec, "会社名"),
      Get(rec, "商談ステータス"),
      Or(Get(rec, "却下理由"), Null))
  }

  function RejectionOf(rec: map<string, Cell>, parse: Cell -> Option<Date>): (r: Rejection)
    ensures r.date == SafeDate(parse, Get(rec, "発生年月"))
    ensures r.detail == Or(Get(rec, "FB詳細"), Get(rec, "却下理由"))
  {
    Rejection(
      SafeDate(parse, Get(rec, "発生年月")),
      Get(rec, "会社名"),
      Get(rec, "プロダクト"),
      Get(rec, "理由"),
      Or(Get(rec, "FB詳細"), Get(rec, "却下理由")))
  }

  /** A daily report of the merge pipeline: repaired date and the join date of the staff list, or null. */
  function MergeDailyOf(idx: nat, rec: map<string, Cell>, staffMap: map<string, StaffEntry>,
                        parse: Cell -> Option<Date>, nowYear: int): (d: MergeDaily)
    requires MinYear <= nowYear <= MaxYear
    ensures d.id == idx + 1
    ensures d.date == FixOutlierDate(SafeDate(parse, Get(rec, DateColumn)), nowYear)
    ensures Key(d.staff) in staffMap ==> d.join == staffMap[Key(d.staff)].join
    ensures Key(d.staff) !in staffMap ==> d.join.None?
  {
    var staff := Get(rec, NameColumn);
    MergeDaily(
      idx + 1,
      FixOutlierDate(SafeDate(parse, Get(rec, DateColumn)), nowYear),
      staff,
      if Key(staff) in staffMap then staffMap[Key(staff)].join else None,
      MainActivity(rec),
      UsedSlots(rec, SubSlots))
  }

  // ---------------------------------------------------------------------
  // findMatch
  // ---------------------------------------------------------------------

  /** What `findMatch` compares: the date part before `T` (null for no date) and `String(staff)`. */
  type MatchKey = (Option<string>, string)

  function DailyKey(d: MergeDaily): MatchKey { (DayKey(d.date), Key(d.staff)) }

  function DealKeys(deals: seq<MergeDeal>): (ks: seq<MatchKey>)
    ensures |ks| == |deals|
    ensures forall i :: 0 <= i < |deals| ==> ks[i] == (DayKey(deals[i].date), Key(deals[i].staff))
  {
    seq(|deals|, i requires 0 <= i < |deals| => (DayKey(deals[i].date), Key(deals[i].staff)))
  }

  /** A rejection row has no staff field, so its staff compares as `String(undefined)`. */
  function RejectionKeys(rs: seq<Rejection>): (ks: seq<MatchKey>)
    ensures |ks| == |rs|
    ensures forall i :: 0 <= i < |rs| ==> ks[i] == (DayKey(rs[i].date), Key(Undefined))
  {
    seq(|rs|, i requires 0 <= i < |rs| => (DayKey(rs[i].date), Key(Undefined)))
  }

  /** `arr.find(...)`: the index of the first element with the given key, or none when no element has it. */
  function FindFirst(ks: seq<MatchKey>, k: MatchKey): (r: Option<nat>)
    ensures r.None? <==> k !in ks
    ensures r.Some? ==> r.value < |ks| && ks[r.value] == k && forall j :: 0 <= j < r.value ==> ks[j] != k
  {
    if |ks| == 0 then None
    else if ks[0] == k then Some(0)
    else match FindFirst(ks[1..], k)
      case None => None
      case Some(i) => Some(i + 1)
  }

  /** Sansan rejections only ever match reports whose author renders as `"undefined"`. */
  lemma RejectionMatchNeedsUndefinedStaff(d: MergeDaily, rs: seq<Rejection>)
    requires Key(d.staff) != "undefined"
    ensures FindFirst(RejectionKeys(rs), DailyKey(d)).None?
  {
  }

  // ---------------------------------------------------------------------
  // The company report
  // ---------------------------------------------------------------------

  const Approved: string := "承認"
  const Rejected: string := "却下"

  datatype ReasonOfStatus =
    | NoReason                                   // `{}`
    | FromRejectionLog(reason: Cell, detail: Cell)
    | Inline(reason: Cell)

  datatype DealInfo = DealInfo(
    commission: Cell, dealStart: Option<Date>, dealEnd: Option<Date>,
    corporateNumber: Cell, corporateName: Cell, status: Cell)

  datatype CompanyReport = CompanyReport(
    productName: Cell,
    dealStatus: Option<string>,
    reason: ReasonOfStatus,
    dealInfo: Option<DealInfo>)

  predicate IsBillOne(product: Cell)
  {
    product == Text("Bill One") || product == Text("Bill One経費")
  }

  /**
    The company report of one daily report: the matched deal decides the
    status (`承認` when its commission is truthy, else `却下`); Bill One
    products take their reason from the matched Sansan rejection, other
    products from the matched deal's inline reason.
  */
  function CompanyReportOf(d: MergeDaily, deals: seq<MergeDeal>, rejections: seq<Rejection>): (c: CompanyReport)
    ensures c.productName == d.main.product
    ensures FindFirst(DealKeys(deals), DailyKey(d)).None? ==> c.dealStatus.None? && c.dealInfo.None?
    ensures FindFirst(DealKeys(deals), DailyKey(d)).Some? ==>
      var m := deals[FindFirst(DealKeys(deals), DailyKey(d)).value];
      && c.dealStatus == Some(if Truthy(m.commission) then Approved else Rejected)
      && c.dealInfo == Some(DealInfo(m.commission, m.dealStart, m.dealEnd, m.corporateNumber, m.corporateName, m.status))
    ensures IsBillOne(d.main.product) ==>
      match FindFirst(RejectionKeys(rejections), DailyKey(d))
      case None => c.reason == NoReason
      case Some(j) => c.reason == FromRejectionLog(rejections[j].reason, rejections[j].detail)
    ensures !IsBillOne(d.main.product) ==>
      match FindFirst(DealKeys(deals), DailyKey(d))
      case None => c.reason == NoReason
      case Some(i) => c.reason == (if Truthy(deals[i].inlineReason) then Inline(deals[i].inlineReason) else NoReason)
  {
    var k := DailyKey(d);
    var dealMatch := FindFirst(DealKeys(deals), k);
    var rejectionMatch := FindFirst(RejectionKeys(rejections), k);
    var status :=
      if dealMatch.None? then None
      else if Truthy(deals[dealMatch.value].commission) then Some(Approved)
      else Some(Rejected);
    var info :=
      if dealMatch.None? then None
      else
        var m := deals[dealMatch.value];
        Some(DealInfo(m.commission, m.dealStart, m.dealEnd, m.corporateNumber, m.corporateName, m.status));
    var reason :=
      if IsBillOne(d.main.product) then
        (if rejectionMatch.Some? then
           FromRejectionLog(rejections[rejectionMatch.value].reason, rejections[rejectionMatch.value].detail)
         else NoReason)
      else if dealMatch.Some? && Truthy(deals[dealMatch.value].inlineReason) then
        Inline(deals[dealMatch.value].inlineReason)
      else NoReason;
    CompanyReport(d.main.product, status, reason, info)
  }

  /** A deal on the report's calendar day by the report's author. */
  predicate SameDayAndStaff(d: MergeDaily, deal: MergeDeal)
  {
    DayKey(deal.date) == DayKey(d.date) && Key(deal.staff) == Key(d.staff)
  }

  /**
    The status is set exactly when some deal shares the report's day and
    staff, and it is `承認` exactly when the FIRST such deal has a truthy
    commission.
  */
  lemma DealStatusIffMatch(d: MergeDaily, deals: seq<MergeDeal>, rejections: seq<Rejection>)
    ensures CompanyReportOf(d, deals, rejections).dealStatus.Some? <==>
      exists i :: 0 <= i < |deals| && SameDayAndStaff(d, deals[i])
    ensures CompanyReportOf(d, deals, rejections).dealStatus == Some(Approved) <==>
      exists i :: 0 <= i < |deals| && SameDayAndStaff(d, deals[i]) && Truthy(deals[i].commission) &&
                  forall j :: 0 <= j < i ==> !SameDayAndStaff(d, deals[j])
  {
    var ks := DealKeys(deals);
    var k := DailyKey(d);
    assert forall i :: 0 <= i < |deals| ==> (SameDayAndStaff(d, deals[i]) <==> ks[i] == k);
    var m := FindFirst(ks, k);
    if exists i :: 0 <= i < |deals| && SameDayAndStaff(d, deals[i]) && Truthy(deals[i].commission) &&
                   forall j :: 0 <= j < i ==> !SameDayAndStaff(d, deals[j]) {
      var i :| 0 <= i < |deals| && SameDayAndStaff(d, deals[i]) && Truthy(deals[i].commission) &&
               forall j :: 0 <= j < i ==> !SameDayAndStaff(d, deals[j]);
      assert ks[i] == k;
      assert m.Some? && m.value == i;
    }
  }

  /** Because rejection rows carry no staff, a Bill One report by a named worker never gets a reason. */
  lemma BillOneReasonNeverAttaches(d: MergeDaily, deals: seq<MergeDeal>, rejections: seq<Rejection>)
    requires IsBillOne(d.main.product) && Key(d.staff) != "undefined"
    ensures CompanyReportOf(d, deals, rejections).reason == NoReason
  {
    RejectionMatchNeedsUndefinedStaff(d, rejections);
  }

  /** The merged output record of one daily report. */
  datatype MergedReport = MergedReport(
    id: nat, staffName: Cell, joinDate: Option<Date>,
    callCount: real, callTime: real, company: CompanyReport, subs: seq<Activity>)

  /** `daily.map(...)`: one merged record per daily report, in report order. */
  function MergeAll(daily: seq<MergeDaily>, deals: seq<MergeDeal>, rejections: seq<Rejection>): (out: seq<MergedReport>)
    ensures |out| == |daily|
    ensures forall i :: 0 <= i < |daily| ==>
      && out[i].id == daily[i].id && out[i].staffName == daily[i].staff
      && out[i].callCount == daily[i].main.calls && out[i].callTime == daily[i].main.hours
      && out[i].company == CompanyReportOf(daily[i], deals, rejections)
  {
    seq(|daily|, i requires 0 <= i < |daily| =>
      var d := daily[i];
      MergedReport(d.id, d.staff, d.join, d.main.calls, d.main.hours, CompanyReportOf(d, deals, rejections), d.subs))
  }
}

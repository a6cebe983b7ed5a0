/**
  The monthly rollup of the analysis pipeline: the activity fold over the
  daily reports creates a bucket per month with branch, product and staff
  tables; the deal fold counts each deal of an existing month into the
  summary and into one branch, one product and one staff bucket; the rate
  pass sets approval rates; the period totals add the months up.
*/
module Rollup {
  import opened Common
  import opened Dates
  import opened Cells
  import opened Tables
  import opened Sheets

  /** The sentinel key of deals without a branch, product or known staff member. */
  const Unset: string := "未設定"

  datatype Totals = Totals(
    calls: real,
    hours: real,
    appointments: real,
    deals: nat,
    approved: nat,
    rejected: nat,
    revenue: real,
    potential: real)

  const NoTotals: Totals := Totals(0.0, 0.0, 0.0, 0, 0, 0, 0.0, 0.0)

  /** An `approval_rate` field: absent, the initial numeric 0, or a `toFixed(2)` percentage. */
  datatype Rate = Missing | Zero | Percent(p: real)

  datatype BranchData = BranchData(name: Cell, staffList: seq<Cell>, totals: Totals, rate: Rate)
  datatype ProductData = ProductData(name: Cell, totals: Totals, rate: Rate)
  datatype DayActivity = DayActivity(date: Option<Date>, main: Activity, subs: seq<Activity>)
  datatype StaffData = StaffData(name: Cell, branch: Cell, join: Option<Date>, totals: Totals, rate: Rate, daily: seq<DayActivity>)
  datatype MonthData = MonthData(
    month: string,
    branches: Table<BranchData>,
    products: Table<ProductData>,
    staff: Table<StaffData>,
    summary: Totals,
    rate: Rate)

  function NewBranch(name: Cell): BranchData { BranchData(name, [], NoTotals, Zero) }
  function NewProduct(name: Cell): ProductData { ProductData(name, NoTotals, Zero) }
  function NewStaff(name: Cell, branch: Cell, join: Option<Date>): StaffData { StaffData(name, branch, join, NoTotals, Zero, []) }
  function NewMonth(month: string): MonthData { MonthData(month, Empty(), Empty(), Empty(), NoTotals, Missing) }

  // ---------------------------------------------------------------------
  // The activity fold
  // ---------------------------------------------------------------------

  function SumSubs(subs: seq<Activity>, f: Activity -> real): real
  {
    if |subs| == 0 then 0.0 else SumSubs(subs[..|subs| - 1], f) + f(subs[|subs| - 1])
  }

  function ActivityCalls(a: Activity): real { a.calls }
  function ActivityHours(a: Activity): real { a.hours }
  function ActivityAppointments(a: Activity): real { a.appointments }

  /** The calls of one report: its main product's and every sub-product's. */
  function ReportCalls(r: DailyRecord): real { r.main.calls + SumSubs(r.subs, ActivityCalls) }

  function AddWork(t: Totals, calls: real, hours: real, appointments: real): (r: Totals)
    ensures r.deals == t.deals && r.approved == t.approved && r.rejected == t.rejected
    ensures r.calls == t.calls + calls
  {
    t.(calls := t.calls + calls, hours := t.hours + hours, appointments := t.appointments + appointments)
  }

  /** The calls, hours and appointments of a report added to a bucket. */
  function ReportWork(t: Totals, r: DailyRecord): (w: Totals)
    ensures w.deals == t.deals && w.approved == t.approved && w.rejected == t.rejected
    ensures w.calls == t.calls + ReportCalls(r)
  {
    AddWork(t, ReportCalls(r),
      r.main.hours + SumSubs(r.subs, ActivityHours),
      r.main.appointments + SumSubs(r.subs, ActivityAppointments))
  }

  function AddToBranch(b: BranchData, r: DailyRecord): BranchData
  {
    b.(totals := ReportWork(b.totals, r),
       staffList := if r.staff in b.staffList then b.staffList else b.staffList + [r.staff])
  }

  function AddToProduct(p: ProductData, a: Activity): ProductData
  {
    p.(totals := AddWork(p.totals, a.calls, a.hours, a.appointments))
  }

  function AddToStaff(s: StaffData, r: DailyRecord): StaffData
  {
    s.(totals := ReportWork(s.totals, r), daily := s.daily + [DayActivity(r.date, r.main, r.subs)])
  }

  /** The branch table after a report: the author's branch bucket, created if needed, takes its work. */
  function DailyBranches(bs: Table<BranchData>, r: DailyRecord): (t: Table<BranchData>)
    requires bs.Valid()
    ensures t.Valid()
  {
    if !Truthy(r.branch) then bs
    else
      var k := Key(r.branch);
      Put(bs, k, AddToBranch(if k in bs.vals then bs.vals[k] else NewBranch(r.branch), r))
  }

  /** A product bucket, created if needed, takes the work of one named activity. */
  function ProductWork(ps: Table<ProductData>, a: Activity): (t: Table<ProductData>)
    requires ps.Valid()
    ensures t.Valid()
  {
    if !Truthy(a.product) then ps
    else
      var k := Key(a.product);
      Put(ps, k, AddToProduct(if k in ps.vals then ps.vals[k] else NewProduct(a.product), a))
  }

  /** The sub-product loop of the product table: each named sub-product adds its own work to its bucket. */
  function SubProductsWork(ps: Table<ProductData>, subs: seq<Activity>): (t: Table<ProductData>)
    requires ps.Valid()
    ensures t.Valid()
  {
    if |subs| == 0 then ps
    else
      var before := SubProductsWork(ps, subs[..|subs| - 1]);
      ProductWork(before, subs[|subs| - 1])
  }

  /** The product table after a report: the main product first, then the sub-products in slot order. */
  function DailyProducts(ps: Table<ProductData>, r: DailyRecord): (t: Table<ProductData>)
    requires ps.Valid()
    ensures t.Valid()
  {
    SubProductsWork(ProductWork(ps, r.main), r.subs)
  }

  /** The staff table after a report: the author's bucket, created with the author's branch and join date, takes the work and a daily entry. */
  function DailyStaff(ss: Table<StaffData>, r: DailyRecord): (t: Table<StaffData>)
    requires ss.Valid()
    ensures t.Valid()
  {
    var k := Key(r.staff);
    Put(ss, k, AddToStaff(if k in ss.vals then ss.vals[k] else NewStaff(r.staff, r.branch, r.join), r))
  }

  /** One daily report added to its month bucket. */
  function AddDaily(m: MonthData, r: DailyRecord): (m': MonthData)
    requires m.branches.Valid() && m.products.Valid() && m.staff.Valid()
    ensures m'.branches.Valid() && m'.products.Valid() && m'.staff.Valid()
  {
    m.(branches := DailyBranches(m.branches, r),
       products := DailyProducts(m.products, r),
       staff := DailyStaff(m.staff, r),
       summary := ReportWork(m.summary, r))
  }

  /** Every table of every month bucket lists each key once. */
  ghost predicate TablesValid(monthly: Table<MonthData>)
  {
    && monthly.Valid()
    && forall k :: k in monthly.vals ==>
         monthly.vals[k].branches.Valid() && monthly.vals[k].products.Valid() && monthly.vals[k].staff.Valid()
  }

  /** One step of `daily.forEach`: a report without a month is skipped; otherwise its month bucket is created if needed and updated. */
  function ActivityStep(monthly: Table<MonthData>, r: DailyRecord): (m: Table<MonthData>)
    requires TablesValid(monthly)
    ensures TablesValid(m)
  {
    if r.month.None? then monthly
    else
      var key := r.month.value;
      var m := AddDaily(if key in monthly.vals then monthly.vals[key] else NewMonth(key), r);
      PutTablesValid(monthly, key, m);
      Put(monthly, key, m)
  }

  lemma PutTablesValid(monthly: Table<MonthData>, key: string, m: MonthData)
    requires TablesValid(monthly)
    requires m.branches.Valid() && m.products.Valid() && m.staff.Valid()
    ensures TablesValid(Put(monthly, key, m))
  {
  }

  // ---------------------------------------------------------------------
  // The deal fold
  // ---------------------------------------------------------------------

  datatype Outcome = Approval | Rejection | Pending | Other

  /** `deal_status || '未設定'`, then `承認`, `却下`, or `承認待ち`/`要対応` (pending). */
  function Classify(status: Cell): Outcome
  {
    var s := Or(status, Text(Unset));
    if s == Text("承認") then Approval
    else if s == Text("却下") then Rejection
    else if s == Text("承認待ち") || s == Text("要対応") then Pending
    else Other
  }

  /** One deal counted into a bucket: approved deals earn revenue, pending ones potential revenue. */
  function CountDeal(t: Totals, o: Outcome, commission: real): (r: Totals)
    ensures r.deals == t.deals + 1
    ensures r.approved == t.approved + (if o == Approval then 1 else 0)
    ensures r.rejected == t.rejected + (if o == Rejection then 1 else 0)
    ensures r.revenue == t.revenue + (if o == Approval then commission else 0.0)
    ensures r.potential == t.potential + (if o == Pending then commission else 0.0)
    ensures r.calls == t.calls && r.hours == t.hours && r.appointments == t.appointments
  {
    match o
    case Approval => t.(deals := t.deals + 1, approved := t.approved + 1, revenue := t.revenue + commission)
    case Rejection => t.(deals := t.deals + 1, rejected := t.rejected + 1)
    case Pending => t.(deals := t.deals + 1, potential := t.potential + commission)
    case Other => t.(deals := t.deals + 1)
  }

  /** The branch a deal is booked under: its author's listed branch when the author is listed with a truthy branch. */
  function DealBranch(deal: Deal, staffMap: map<string, StaffEntry>): Option<Cell>
  {
    if Truthy(deal.staff) && Key(deal.staff) in staffMap && Truthy(staffMap[Key(deal.staff)].branch)
    then Some(staffMap[Key(deal.staff)].branch)
    else None
  }

  /** The product key a deal is booked under: its product, or `未設定`. */
  function ProductKey(deal: Deal): string
  {
    if Truthy(deal.product) then Key(deal.product) else Unset
  }

  /** The staff key a deal is booked under: its author when the author has a bucket that month, else `未設定`. */
  function StaffKey(ss: Table<StaffData>, deal: Deal): string
  {
    if Truthy(deal.staff) && Key(deal.staff) in ss.vals then Key(deal.staff) else Unset
  }

  /**
    The branch table after a deal: a listed branch with a bucket counts it,
    a listed branch without a bucket ignores it, and a deal without a listed
    branch goes to the `未設定` bucket, created if needed.
  */
  function DealBranches(bs: Table<BranchData>, deal: Deal, staffMap: map<string, StaffEntry>, o: Outcome, c: real): (t: Table<BranchData>)
    requires bs.Valid()
    ensures t.Valid()
  {
    match DealBranch(deal, staffMap)
    case Some(b) =>
      if Key(b) in bs.vals then Put(bs, Key(b), bs.vals[Key(b)].(totals := CountDeal(bs.vals[Key(b)].totals, o, c)))
      else bs
    case None =>
      var u := if Unset in bs.vals then bs.vals[Unset] else NewBranch(Text(Unset));
      Put(bs, Unset, u.(totals := CountDeal(u.totals, o, c)))
  }

  function DealProducts(ps: Table<ProductData>, deal: Deal, o: Outcome, c: real): (t: Table<ProductData>)
    requires ps.Valid()
    ensures t.Valid()
  {
    var k := ProductKey(deal);
    var p := if k in ps.vals then ps.vals[k] else NewProduct(if Truthy(deal.product) then deal.product else Text(Unset));
    Put(ps, k, p.(totals := CountDeal(p.totals, o, c)))
  }

  function DealStaff(ss: Table<StaffData>, deal: Deal, o: Outcome, c: real): (t: Table<StaffData>)
    requires ss.Valid()
    ensures t.Valid()
  {
    var k := StaffKey(ss, deal);
    var s := if k in ss.vals then ss.vals[k] else NewStaff(Text(Unset), Text(Unset), None);
    Put(ss, k, s.(totals := CountDeal(s.totals, o, c)))
  }

  /** One deal added to its month bucket: the summary, one branch bucket at most, one product bucket and one staff bucket. */
  function AddDeal(m: MonthData, deal: Deal, staffMap: map<string, StaffEntry>): (m': MonthData)
    requires m.branches.Valid() && m.products.Valid() && m.staff.Valid()
    ensures m'.branches.Valid() && m'.products.Valid() && m'.staff.Valid()
  {
    var o := Classify(deal.status);
    var c := deal.commission;
    m.(branches := DealBranches(m.branches, deal, staffMap, o, c),
       products := DealProducts(m.products, deal, o, c),
       staff := DealStaff(m.staff, deal, o, c),
       summary := CountDeal(m.summary, o, c))
  }

  /** One step of `deals.forEach`: deals without a date or without a month bucket are skipped. */
  function DealStep(monthly: Table<MonthData>, deal: Deal, staffMap: map<string, StaffEntry>): (r: Table<MonthData>)
    requires TablesValid(monthly)
    ensures TablesValid(r)
  {
    if deal.date.None? then monthly
    else
      var key := MonthKey(deal.date).value;
      if key !in monthly.vals then monthly
      else
        var m := AddDeal(monthly.vals[key], deal, staffMap);
        PutTablesValid(monthly, key, m);
        Put(monthly, key, m)
  }

  // ---------------------------------------------------------------------
  // Bucket invariants
  // ---------------------------------------------------------------------

  /** No bucket counts more approved and rejected deals than deals. */
  predicate Consistent(t: Totals)
  {
    t.approved + t.rejected <= t.deals
  }

  function BranchDeals(b: BranchData): real { b.totals.deals as real }
  function ProductDeals(p: ProductData): real { p.totals.deals as real }
  function StaffDeals(s: StaffData): real { s.totals.deals as real }
  function StaffCalls(s: StaffData): real { s.totals.calls }

  ghost predicate BranchesOk(t: Table<BranchData>)
  {
    t.Valid() && forall k :: k in t.vals ==> Consistent(t.vals[k].totals)
  }

  ghost predicate ProductsOk(t: Table<ProductData>)
  {
    t.Valid() && forall k :: k in t.vals ==> Consistent(t.vals[k].totals)
  }

  ghost predicate StaffOk(t: Table<StaffData>)
  {
    t.Valid() && forall k :: k in t.vals ==> Consistent(t.vals[k].totals)
  }

  /**
    The invariant of a month bucket: every bucket is consistent, each
    counted deal sits in exactly one product bucket and exactly one staff
    bucket and in at most one branch bucket, and the staff buckets account
    for all calls of the month.
  */
  ghost predicate MonthOk(m: MonthData)
  {
    && BranchesOk(m.branches) && ProductsOk(m.products) && StaffOk(m.staff)
    && Consistent(m.summary)
    && Sum(m.products, ProductDeals) == m.summary.deals as real
    && Sum(m.staff, StaffDeals) == m.summary.deals as real
    && Sum(m.branches, BranchDeals) <= m.summary.deals as real
    && Sum(m.staff, StaffCalls) == m.summary.calls
  }

  ghost predicate AllMonthsOk(monthly: Table<MonthData>)
  {
    monthly.Valid() && forall k :: k in monthly.vals ==> MonthOk(monthly.vals[k])
  }

  lemma AllMonthsOkTablesValid(monthly: Table<MonthData>)
    requires AllMonthsOk(monthly)
    ensures TablesValid(monthly)
  {
  }

  lemma PutMonthOk(monthly: Table<MonthData>, key: string, m: MonthData)
    requires AllMonthsOk(monthly) && MonthOk(m)
    ensures AllMonthsOk(Put(monthly, key, m))
  {
  }

  lemma NewMonthOk(key: string)
    ensures MonthOk(NewMonth(key))
  {
  }

  // Activity-fold lemmas: work moves no deal and keeps every bucket consistent.

  lemma DailyBranchesOk(bs: Table<BranchData>, r: DailyRecord)
    requires BranchesOk(bs)
    ensures BranchesOk(DailyBranches(bs, r))
    ensures Sum(DailyBranches(bs, r), BranchDeals) == Sum(bs, BranchDeals)
  {
    if Truthy(r.branch) {
      var k := Key(r.branch);
      SumPut(bs, k, AddToBranch(if k in bs.vals then bs.vals[k] else NewBranch(r.branch), r), BranchDeals);
    }
  }

  lemma ProductsOkWork(ps: Table<ProductData>, a: Activity)
    requires ProductsOk(ps)
    ensures ProductsOk(ProductWork(ps, a))
    ensures Sum(ProductWork(ps, a), ProductDeals) == Sum(ps, ProductDeals)
  {
    if Truthy(a.product) {
      var k := Key(a.product);
      SumPut(ps, k, AddToProduct(if k in ps.vals then ps.vals[k] else NewProduct(a.product), a), ProductDeals);
    }
  }

  lemma {:induction false} SubProductsWorkOk(ps: Table<ProductData>, subs: seq<Activity>)
    requires ProductsOk(ps)
    ensures ProductsOk(SubProductsWork(ps, subs))
    ensures Sum(SubProductsWork(ps, subs), ProductDeals) == Sum(ps, ProductDeals)
  {
    if |subs| > 0 {
      SubProductsWorkOk(ps, subs[..|subs| - 1]);
      ProductsOkWork(SubProductsWork(ps, subs[..|subs| - 1]), subs[|subs| - 1]);
    }
  }

  lemma DailyProductsOk(ps: Table<ProductData>, r: DailyRecord)
    requires ProductsOk(ps)
    ensures ProductsOk(DailyProducts(ps, r))
    ensures Sum(DailyProducts(ps, r), ProductDeals) == Sum(ps, ProductDeals)
  {
    var afterMain := ProductWork(ps, r.main);
    ProductsOkWork(ps, r.main);
    SubProductsWorkOk(afterMain, r.subs);
    assert DailyProducts(ps, r) == SubProductsWork(afterMain, r.subs);
  }

  lemma DailyStaffOk(ss: Table<StaffData>, r: DailyRecord)
    requires StaffOk(ss)
    ensures StaffOk(DailyStaff(ss, r))
    ensures Sum(DailyStaff(ss, r), StaffDeals) == Sum(ss, StaffDeals)
    ensures Sum(DailyStaff(ss, r), StaffCalls) == Sum(ss, StaffCalls) + ReportCalls(r)
  {
    var k := Key(r.staff);
    var s := AddToStaff(if k in ss.vals then ss.vals[k] else NewStaff(r.staff, r.branch, r.join), r);
    SumPut(ss, k, s, StaffDeals);
    SumPut(ss, k, s, StaffCalls);
  }

  /** A daily report keeps its month bucket sound: it moves no deal, and its calls reach the summary and its author's bucket alike. */
  lemma AddDailyOk(m: MonthData, r: DailyRecord)
    requires MonthOk(m)
    ensures MonthOk(AddDaily(m, r))
  {
    DailyBranchesOk(m.branches, r);
    DailyProductsOk(m.products, r);
    DailyStaffOk(m.staff, r);
  }

  /** The activity fold keeps every month bucket sound. */
  lemma ActivityStepOk(monthly: Table<MonthData>, r: DailyRecord)
    requires AllMonthsOk(monthly)
    ensures TablesValid(monthly) && AllMonthsOk(ActivityStep(monthly, r))
  {
    if r.month.Some? {
      var key := r.month.value;
      var m := if key in monthly.vals then monthly.vals[key] else NewMonth(key);
      NewMonthOk(key);
      AddDailyOk(m, r);
    }
  }

  // Deal-fold lemmas: a counted deal adds one to exactly one product and one staff bucket.

  lemma DealBranchesOk(bs: Table<BranchData>, deal: Deal, staffMap: map<string, StaffEntry>, o: Outcome, c: real)
    requires BranchesOk(bs)
    ensures BranchesOk(DealBranches(bs, deal, staffMap, o, c))
    ensures Sum(DealBranches(bs, deal, staffMap, o, c), BranchDeals) ==
      Sum(bs, BranchDeals) +
      (if DealBranch(deal, staffMap).Some? && Key(DealBranch(deal, staffMap).value) !in bs.vals then 0.0 else 1.0)
  {
    match DealBranch(deal, staffMap)
    case Some(b) =>
      if Key(b) in bs.vals {
        var u := bs.vals[Key(b)];
        var u' := u.(totals := CountDeal(u.totals, o, c));
        assert Consistent(u'.totals);
        assert DealBranches(bs, deal, staffMap, o, c) == Put(bs, Key(b), u');
        PutConsistentBranch(bs, Key(b), u');
        SumPut(bs, Key(b), u', BranchDeals);
      }
    case None =>
      var u := if Unset in bs.vals then bs.vals[Unset] else NewBranch(Text(Unset));
      var u' := u.(totals := CountDeal(u.totals, o, c));
      assert Consistent(u'.totals);
      assert DealBranches(bs, deal, staffMap, o, c) == Put(bs, Unset, u');
      PutConsistentBranch(bs, Unset, u');
      SumPut(bs, Unset, u', BranchDeals);
  }

  lemma PutConsistentBranch(bs: Table<BranchData>, k: string, b: BranchData)
    requires BranchesOk(bs) && Consistent(b.totals)
    ensures BranchesOk(Put(bs, k, b))
  {
  }

  lemma DealProductsOk(ps: Table<ProductData>, deal: Deal, o: Outcome, c: real)
    requires ProductsOk(ps)
    ensures ProductsOk(DealProducts(ps, deal, o, c))
    ensures Sum(DealProducts(ps, deal, o, c), ProductDeals) == Sum(ps, ProductDeals) + 1.0
  {
    var k := ProductKey(deal);
    var p := if k in ps.vals then ps.vals[k] else NewProduct(if Truthy(deal.product) then deal.product else Text(Unset));
    var p' := p.(totals := CountDeal(p.totals, o, c));
    assert Consistent(p'.totals);
    assert DealProducts(ps, deal, o, c) == Put(ps, k, p');
    PutConsistentProduct(ps, k, p');
    SumPut(ps, k, p', ProductDeals);
  }

  lemma PutConsistentProduct(ps: Table<ProductData>, k: string, p: ProductData)
    requires ProductsOk(ps) && Consistent(p.totals)
    ensures ProductsOk(Put(ps, k, p))
  {
  }

  lemma DealStaffOk(ss: Table<StaffData>, deal: Deal, o: Outcome, c: real)
    requires StaffOk(ss)
    ensures StaffOk(DealStaff(ss, deal, o, c))
    ensures Sum(DealStaff(ss, deal, o, c), StaffDeals) == Sum(ss, StaffDeals) + 1.0
    ensures Sum(DealStaff(ss, deal, o, c), StaffCalls) == Sum(ss, StaffCalls)
  {
    var k := StaffKey(ss, deal);
    var s := if k in ss.vals then ss.vals[k] else NewStaff(Text(Unset), Text(Unset), None);
    var s' := s.(totals := CountDeal(s.totals, o, c));
    assert Consistent(s'.totals);
    assert DealStaff(ss, deal, o, c) == Put(ss, k, s');
    PutConsistentStaff(ss, k, s');
    SumPut(ss, k, s', StaffDeals);
    SumPut(ss, k, s', StaffCalls);
  }

  lemma PutConsistentStaff(ss: Table<StaffData>, k: string, s: StaffData)
    requires StaffOk(ss) && Consistent(s.totals)
    ensures StaffOk(Put(ss, k, s))
  {
  }

  /**
    A counted deal adds one to the month's deals, to exactly one product
    bucket's deals and to exactly one staff bucket's deals, and to at most
    one branch bucket's deals — none when its author's branch has no bucket
    that month.
  */
  lemma AddDealOk(m: MonthData, deal: Deal, staffMap: map<string, StaffEntry>)
    requires MonthOk(m)
    ensures var m' := AddDeal(m, deal, staffMap);
      && MonthOk(m')
      && m'.summary.deals == m.summary.deals + 1
      && Sum(m'.products, ProductDeals) == Sum(m.products, ProductDeals) + 1.0
      && Sum(m'.staff, StaffDeals) == Sum(m.staff, StaffDeals) + 1.0
      && Sum(m'.branches, BranchDeals) ==
           Sum(m.branches, BranchDeals) +
           (if DealBranch(deal, staffMap).Some? && Key(DealBranch(deal, staffMap).value) !in m.branches.vals then 0.0 else 1.0)
  {
    var o := Classify(deal.status);
    DealBranchesOk(m.branches, deal, staffMap, o, deal.commission);
    DealProductsOk(m.products, deal, o, deal.commission);
    DealStaffOk(m.staff, deal, o, deal.commission);
  }

  lemma DealStepOk(monthly: Table<MonthData>, deal: Deal, staffMap: map<string, StaffEntry>)
    requires AllMonthsOk(monthly)
    ensures TablesValid(monthly) && AllMonthsOk(DealStep(monthly, deal, staffMap))
  {
    if deal.date.Some? && MonthKey(deal.date).value in monthly.vals {
      var key := MonthKey(deal.date).value;
      AddDealOk(monthly.vals[key], deal, staffMap);
      PutMonthOk(monthly, key, AddDeal(monthly.vals[key], deal, staffMap));
      assert DealStep(monthly, deal, staffMap) == Put(monthly, key, AddDeal(monthly.vals[key], deal, staffMap));
    } else {
      assert DealStep(monthly, deal, staffMap) == monthly;
    }
  }

  // ---------------------------------------------------------------------
  // The folds
  // ---------------------------------------------------------------------

  function FoldActivities(daily: seq<DailyRecord>): (monthly: Table<MonthData>)
    ensures TablesValid(monthly)
  {
    if |daily| == 0 then Empty() else ActivityStep(FoldActivities(daily[..|daily| - 1]), daily[|daily| - 1])
  }

  function FoldDeals(monthly: Table<MonthData>, deals: seq<Deal>, staffMap: map<string, StaffEntry>): (r: Table<MonthData>)
    requires TablesValid(monthly)
    ensures TablesValid(r)
  {
    if |deals| == 0 then monthly else DealStep(FoldDeals(monthly, deals[..|deals| - 1], staffMap), deals[|deals| - 1], staffMap)
  }

  /** A deal without a date, or whose month has no bucket, changes nothing; any other deal changes only its month's bucket. */
  lemma DealStepTouchesOneMonth(monthly: Table<MonthData>, deal: Deal, staffMap: map<string, StaffEntry>)
    requires TablesValid(monthly)
    ensures deal.date.None? || MonthKey(deal.date).value !in monthly.vals ==> DealStep(monthly, deal, staffMap) == monthly
    ensures DealStep(monthly, deal, staffMap).keys == monthly.keys
    ensures forall k :: k in monthly.vals && (deal.date.None? || k != MonthKey(deal.date).value) ==>
      k in DealStep(monthly, deal, staffMap).vals && DealStep(monthly, deal, staffMap).vals[k] == monthly.vals[k]
  {
  }

  /** The deal fold never creates a month: the month keys and their order stay those of the activity fold. */
  lemma {:induction false} FoldDealsKeepsMonths(monthly: Table<MonthData>, deals: seq<Deal>, staffMap: map<string, StaffEntry>)
    requires TablesValid(monthly)
    ensures FoldDeals(monthly, deals, staffMap).keys == monthly.keys
  {
    if |deals| > 0 {
      FoldDealsKeepsMonths(monthly, deals[..|deals| - 1], staffMap);
      DealStepTouchesOneMonth(FoldDeals(monthly, deals[..|deals| - 1], staffMap), deals[|deals| - 1], staffMap);
    }
  }

  /** Every month bucket the activity fold builds is sound. */
  lemma {:induction false} FoldActivitiesOk(daily: seq<DailyRecord>)
    ensures AllMonthsOk(FoldActivities(daily))
  {
    if |daily| > 0 {
      FoldActivitiesOk(daily[..|daily| - 1]);
      ActivityStepOk(FoldActivities(daily[..|daily| - 1]), daily[|daily| - 1]);
    }
  }

  /** The deal fold keeps every month bucket sound. */
  lemma {:induction false} FoldDealsOk(monthly: Table<MonthData>, deals: seq<Deal>, staffMap: map<string, StaffEntry>)
    requires AllMonthsOk(monthly)
    ensures AllMonthsOk(FoldDeals(monthly, deals, staffMap))
  {
    AllMonthsOkTablesValid(monthly);
    if |deals| > 0 {
      FoldDealsOk(monthly, deals[..|deals| - 1], staffMap);
      DealStepOk(FoldDeals(monthly, deals[..|deals| - 1], staffMap), deals[|deals| - 1], staffMap);
    }
  }

  /** `daily.forEach(...)` building `monthlyData`. */
  method ActivityFold(daily: seq<DailyRecord>) returns (monthly: Table<MonthData>)
    ensures monthly == FoldActivities(daily)
  {
    monthly := Empty();
    var i := 0;
    while i < |daily|
      invariant 0 <= i <= |daily|
      invariant monthly == FoldActivities(daily[..i])
    {
      assert daily[..i + 1][..i] == daily[..i];
      monthly := ActivityStep(monthly, daily[i]);
      i := i + 1;
    }
    assert daily[..i] == daily;
  }

  /** `deals.forEach(...)` counting deals into the existing month buckets; it never creates a month. */
  method DealFold(monthly0: Table<MonthData>, deals: seq<Deal>, staffMap: map<string, StaffEntry>) returns (monthly: Table<MonthData>)
    requires TablesValid(monthly0)
    ensures monthly == FoldDeals(monthly0, deals, staffMap)
  {
    monthly := monthly0;
    var i := 0;
    while i < |deals|
      invariant 0 <= i <= |deals|
      invariant monthly == FoldDeals(monthly0, deals[..i], staffMap)
    {
      assert deals[..i + 1][..i] == deals[..i];
      monthly := DealStep(monthly, deals[i], staffMap);
      i := i + 1;
    }
    assert deals[..i] == deals;
  }

  // ---------------------------------------------------------------------
  // The rate pass
  // ---------------------------------------------------------------------

  /** `x.toFixed(2)` read back as a number: the nearest hundredth, halves rounded up. */
  function Round2(x: real): real
  {
    ((x * 100.0 + 0.5).Floor as real) / 100.0
  }

  lemma Round2Bounds(x: real)
    ensures x - 0.005 < Round2(x) <= x + 0.005
    ensures 0.0 <= x ==> 0.0 <= Round2(x)
    ensures x <= 100.0 ==> Round2(x) <= 100.0
  {
    var n := (x * 100.0 + 0.5).Floor;
    assert n as real <= x * 100.0 + 0.5 < n as real + 1.0;
    if x <= 100.0 {
      assert n as real <= 10000.5;
      assert n <= 10000;
    }
  }

  /** `(approved / deals * 100).toFixed(2)` when there are deals; otherwise the field keeps its prior value. */
  function RateOf(t: Totals, prior: Rate): (r: Rate)
    ensures t.deals > 0 ==> r.Percent?
    ensures t.deals == 0 ==> r == prior
  {
    if t.deals > 0 then Percent(Round2(t.approved as real / t.deals as real * 100.0)) else prior
  }

  /** A set rate is a percentage between 0 and 100. */
  lemma RateOfBounds(t: Totals, prior: Rate)
    requires Consistent(t) && t.deals > 0
    ensures 0.0 <= RateOf(t, prior).p <= 100.0
  {
    var q := t.approved as real / t.deals as real;
    assert t.approved as real <= t.deals as real;
    assert q <= 1.0 by {
      assert q * t.deals as real == t.approved as real;
    }
    Round2Bounds(q * 100.0);
  }

  function BranchWithRate(b: BranchData): BranchData { b.(rate := RateOf(b.totals, b.rate)) }
  function ProductWithRate(p: ProductData): ProductData { p.(rate := RateOf(p.totals, p.rate)) }
  function StaffWithRate(s: StaffData): StaffData { s.(rate := RateOf(s.totals, s.rate)) }

  /** The rates of one month: the summary's and every branch, product and staff bucket's. */
  function WithRates(m: MonthData): MonthData
    requires m.branches.Valid() && m.products.Valid() && m.staff.Valid()
  {
    m.(rate := RateOf(m.summary, m.rate),
       branches := MapValues(m.branches, BranchWithRate),
       products := MapValues(m.products, ProductWithRate),
       staff := MapValues(m.staff, StaffWithRate))
  }

  /** Step 8: every month gets its rates. */
  method RatePass(monthly: Table<MonthData>) returns (r: Table<MonthData>)
    requires TablesValid(monthly)
    ensures r.Valid() && r.keys == monthly.keys
    ensures forall k :: k in monthly.vals ==> k in r.vals && r.vals[k] == WithRates(monthly.vals[k])
  {
    r := Table(monthly.keys, map[]);
    var i := 0;
    while i < |monthly.keys|
      invariant 0 <= i <= |monthly.keys|
      invariant r.keys == monthly.keys
      invariant forall k :: k in r.vals <==> k in monthly.keys[..i]
      invariant forall k :: k in r.vals ==> k in monthly.vals && r.vals[k] == WithRates(monthly.vals[k])
    {
      var k := monthly.keys[i];
      assert monthly.keys[..i + 1] == monthly.keys[..i] + [k];
      var m := WithRates(monthly.vals[k]);
      r := r.(vals := r.vals[k := m]);
      i := i + 1;
    }
    assert monthly.keys[..i] == monthly.keys;
  }

  /**
    After the rate pass a bucket's rate is a percentage in [0, 100] exactly
    when it has deals; a bucket without deals keeps numeric 0, and the month
    summary, which starts without a rate, stays without one.
  */
  lemma RatesAfterPass(m: MonthData)
    requires MonthOk(m) && m.rate == Missing
    requires forall k :: k in m.products.vals ==> m.products.vals[k].rate == Zero
    ensures var w := WithRates(m);
      && (m.summary.deals > 0 ==> w.rate.Percent? && 0.0 <= w.rate.p <= 100.0)
      && (m.summary.deals == 0 ==> w.rate == Missing)
      && forall k :: k in w.products.vals ==>
           if m.products.vals[k].totals.deals > 0
           then w.products.vals[k].rate.Percent? && 0.0 <= w.products.vals[k].rate.p <= 100.0
           else w.products.vals[k].rate == Zero
  {
    if m.summary.deals > 0 {
      RateOfBounds(m.summary, m.rate);
    }
    forall k | k in m.products.vals && m.products.vals[k].totals.deals > 0
      ensures 0.0 <= RateOf(m.products.vals[k].totals, m.products.vals[k].rate).p <= 100.0
    {
      RateOfBounds(m.products.vals[k].totals, m.products.vals[k].rate);
    }
  }

  // ---------------------------------------------------------------------
  // Period totals
  // ---------------------------------------------------------------------

  function AddTotals(a: Totals, b: Totals): Totals
  {
    Totals(a.calls + b.calls, a.hours + b.hours, a.appointments + b.appointments,
           a.deals + b.deals, a.approved + b.approved, a.rejected + b.rejected,
           a.revenue + b.revenue, a.potential + b.potential)
  }

  /** The month summaries added up, in month-key order. */
  function PeriodTotalsOf(keys: seq<string>, months: map<string, MonthData>): (t: Totals)
    requires forall k :: k in keys ==> k in months
  {
    if |keys| == 0 then NoTotals
    else AddTotals(PeriodTotalsOf(keys[..|keys| - 1], months), months[keys[|keys| - 1]].summary)
  }

  lemma {:induction false} PeriodTotalsConsistent(keys: seq<string>, months: map<string, MonthData>)
    requires forall k :: k in keys ==> k in months && Consistent(months[k].summary)
    ensures Consistent(PeriodTotalsOf(keys, months))
  {
    if |keys| > 0 {
      PeriodTotalsConsistent(keys[..|keys| - 1], months);
    }
  }

  /** `summary_by_period`: the summed month summaries and the overall approval rate (numeric 0 without deals). */
  method PeriodSummary(monthly: Table<MonthData>) returns (total: Totals, overall: Rate)
    requires monthly.Valid()
    ensures total == PeriodTotalsOf(monthly.keys, monthly.vals)
    ensures overall == RateOf(total, Zero)
  {
    total := NoTotals;
    var i := 0;
    while i < |monthly.keys|
      invariant 0 <= i <= |monthly.keys|
      invariant total == PeriodTotalsOf(monthly.keys[..i], monthly.vals)
    {
      assert monthly.keys[..i + 1][..i] == monthly.keys[..i];
      total := AddTotals(total, monthly.vals[monthly.keys[i]].summary);
      i := i + 1;
    }
    assert monthly.keys[..i] == monthly.keys;
    overall := if total.deals > 0 then Percent(Round2(total.approved as real / total.deals as real * 100.0)) else Zero;
  }

  /** Over sound months the overall approval rate is a percentage in [0, 100] when there are deals, and numeric 0 otherwise. */
  lemma PeriodRateBounds(monthly: Table<MonthData>)
    requires AllMonthsOk(monthly)
    ensures var total := PeriodTotalsOf(monthly.keys, monthly.vals);
      && Consistent(total)
      && (total.deals > 0 ==> RateOf(total, Zero).Percent? && 0.0 <= RateOf(total, Zero).p <= 100.0)
      && (total.deals == 0 ==> RateOf(total, Zero) == Zero)
  {
    PeriodTotalsConsistent(monthly.keys, monthly.vals);
    var total := PeriodTotalsOf(monthly.keys, monthly.vals);
    if total.deals > 0 {
      RateOfBounds(total, Zero);
    }
  }

  // ---------------------------------------------------------------------
  // The product bucket as written: a bucket opened by a main product has no
  // `total_rejected`, and `undefined++` is NaN
  // ---------------------------------------------------------------------

  /** A numeric field of a bucket: absent, a count, or NaN. */
  datatype Counter = Absent | Count(n: nat) | NotANumber

  /** `field++`: `undefined` and NaN become NaN. */
  function Increment(c: Counter): Counter
  {
    match c
    case Count(n) => Count(n + 1)
    case _ => NotANumber
  }

  /** The `total_rejected` field of a product bucket as written: absent when the main-product branch opened it, 0 otherwise. */
  function RejectedFieldAsWritten(openedByMainProduct: bool, rejections: nat): Counter
  {
    if rejections == 0 then (if openedByMainProduct then Absent else Count(0))
    else Increment(RejectedFieldAsWritten(openedByMainProduct, rejections - 1))
  }

  /** A product first seen as a main product and later rejected reports NaN (`null` in the JSON) instead of its count. */
  lemma {:induction false} RejectedFieldAsWrittenIsNaN(rejections: nat)
    requires rejections >= 1
    ensures RejectedFieldAsWritten(true, rejections) == NotANumber
  {
    if rejections > 1 {
      RejectedFieldAsWrittenIsNaN(rejections - 1);
    }
  }

  /** In the model every product bucket starts its rejected count at 0, so the field counts every rejection. */
  lemma {:induction false} RejectedCountedFromZero(p: ProductData, deals: seq<Outcome>, c: real)
    requires p == NewProduct(p.name)
    ensures CountAll(p.totals, deals, c).rejected == |set i | 0 <= i < |deals| && deals[i] == Rejection|
  {
    RejectedCount(deals, c);
  }

  function CountAll(t: Totals, os: seq<Outcome>, c: real): Totals
  {
    if |os| == 0 then t else CountDeal(CountAll(t, os[..|os| - 1], c), os[|os| - 1], c)
  }

  lemma {:induction false} RejectedCount(os: seq<Outcome>, c: real)
    ensures CountAll(NoTotals, os, c).rejected == |set i | 0 <= i < |os| && os[i] == Rejection|
  {
    if |os| > 0 {
      var n := |os| - 1;
      RejectedCount(os[..n], c);
      var before := set i | 0 <= i < n && os[..n][i] == Rejection;
      var after := set i | 0 <= i < |os| && os[i] == Rejection;
      assert before == set i | 0 <= i < n && os[i] == Rejection;
      if os[n] == Rejection {
        assert after == before + {n};
      } else {
        assert after == before;
      }
    }
  }
}

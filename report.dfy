/**
  The report composer: the monthly summary of one month (key metrics, the
  deal status breakdown, the per-branch, per-product and top staff tables,
  the retention metrics and the threshold alerts) and the branch × product
  cross analysis that spreads each worker's deals over the month's products
  in proportion to the products' deal counts.
*/
module Report {
  import opened Common
  import opened Cells
  import opened Tables
  import opened ConfigTree
  import opened Rollup
  import Retention

  // ---------------------------------------------------------------------
  // Alert thresholds
  // ---------------------------------------------------------------------

  datatype AlertThresholds = AlertThresholds(
    approvalWarning: real,
    approvalCritical: real,
    highRiskWarning: real,
    highRiskCritical: real,
    retentionWarning: real,
    retentionCritical: real)

  const ApprovalPath: seq<string> := ["alerts", "approval_rate"]
  const HighRiskPath: seq<string> := ["alerts", "high_risk_staff"]
  const RetentionPath: seq<string> := ["alerts", "retention"]

  function ThresholdsIn(approval: Json, highRisk: Json, retention: Json): AlertThresholds
  {
    AlertThresholds(
      Retention.Setting(approval, "warning_threshold", 60.0),
      Retention.Setting(approval, "critical_threshold", 50.0),
      Retention.Setting(highRisk, "warning_threshold", 3.0),
      Retention.Setting(highRisk, "critical_threshold", 5.0),
      Retention.Setting(retention, "warning_threshold", 70.0),
      Retention.Setting(retention, "critical_threshold", 60.0))
  }

  /** The six `getConfig('alerts.…') || default` reads of the summary. */
  function AlertThresholdsOf(root: Json): AlertThresholds
  {
    ThresholdsIn(GetPath(root, ApprovalPath), GetPath(root, HighRiskPath), GetPath(root, RetentionPath))
  }

  /** The shipped configuration replaces the code's 3/5 high-risk and 70/60 retention defaults by 10/15 and 30/20. */
  lemma ShippedAlertThresholds()
    ensures AlertThresholdsOf(DefaultConfig()) == AlertThresholds(60.0, 50.0, 10.0, 15.0, 30.0, 20.0)
  {
    ShippedApprovalSection();
    ShippedHighRiskSection();
    ShippedRetentionSection();
    ShippedAlertValues();
    ThresholdsOfValues(ApprovalRateDefault(), HighRiskStaffDefault(), RetentionAlertDefault());
  }

  lemma ThresholdsOfValues(a: Json, h: Json, r: Json)
    requires Retention.Setting(a, "warning_threshold", 60.0) == 60.0
    requires Retention.Setting(a, "critical_threshold", 50.0) == 50.0
    requires Retention.Setting(h, "warning_threshold", 3.0) == 10.0
    requires Retention.Setting(h, "critical_threshold", 5.0) == 15.0
    requires Retention.Setting(r, "warning_threshold", 70.0) == 30.0
    requires Retention.Setting(r, "critical_threshold", 60.0) == 20.0
    ensures ThresholdsIn(a, h, r) == AlertThresholds(60.0, 50.0, 10.0, 15.0, 30.0, 20.0)
  {
  }

  lemma ShippedAlerts()
    ensures DefaultConfig().JObj? && "alerts" in DefaultConfig().fields.vals
    ensures DefaultConfig().fields.vals["alerts"] == AlertsDefault()
  {
  }

  lemma ShippedApprovalSection()
    ensures GetPath(DefaultConfig(), ApprovalPath) == ApprovalRateDefault()
  {
    ShippedAlerts();
    assert Walk(AlertsDefault(), ["approval_rate"]) == Some(ApprovalRateDefault());
  }

  lemma ShippedHighRiskSection()
    ensures GetPath(DefaultConfig(), HighRiskPath) == HighRiskStaffDefault()
  {
    ShippedAlerts();
    assert Walk(AlertsDefault(), ["high_risk_staff"]) == Some(HighRiskStaffDefault());
  }

  lemma ShippedRetentionSection()
    ensures GetPath(DefaultConfig(), RetentionPath) == RetentionAlertDefault()
  {
    ShippedAlerts();
    assert Walk(AlertsDefault(), ["retention"]) == Some(RetentionAlertDefault());
  }

  lemma ShippedAlertValues()
    ensures Retention.Setting(ApprovalRateDefault(), "warning_threshold", 60.0) == 60.0
    ensures Retention.Setting(ApprovalRateDefault(), "critical_threshold", 50.0) == 50.0
    ensures Retention.Setting(HighRiskStaffDefault(), "warning_threshold", 3.0) == 10.0
    ensures Retention.Setting(HighRiskStaffDefault(), "critical_threshold", 5.0) == 15.0
    ensures Retention.Setting(RetentionAlertDefault(), "warning_threshold", 70.0) == 30.0
    ensures Retention.Setting(RetentionAlertDefault(), "critical_threshold", 60.0) == 20.0
  {
  }

  // ---------------------------------------------------------------------
  // Alerts
  // ---------------------------------------------------------------------

  datatype AlertKind = ApprovalAlert | HighRiskAlert | RetentionAlert
  datatype Severity = Critical | Warning
  datatype Alert = Alert(kind: AlertKind, severity: Severity, value: real, threshold: real)

  /**
    A "falls below" alert: critical under the critical threshold, else a
    warning under the warning threshold. `None` is a value `parseFloat`
    turns into NaN, which no comparison holds for.
  */
  function BelowAlert(kind: AlertKind, x: Option<real>, critical: real, warning: real): (r: seq<Alert>)
    ensures |r| <= 1 && forall a :: a in r ==> a.kind == kind
    ensures (|r| == 1 && r[0].severity == Critical) <==> (x.Some? && x.value < critical)
    ensures (|r| == 1 && r[0].severity == Warning) <==> (x.Some? && critical <= x.value < warning)
    ensures |r| == 1 ==> x.Some? && r[0].value == x.value
  {
    if x.Some? && x.value < critical then [Alert(kind, Critical, x.value, critical)]
    else if x.Some? && x.value < warning then [Alert(kind, Warning, x.value, warning)]
    else []
  }

  /** An "exceeds" alert: critical at or above the critical threshold, else a warning at or above the warning threshold. */
  function AtLeastAlert(kind: AlertKind, x: real, critical: real, warning: real): (r: seq<Alert>)
    ensures |r| <= 1 && forall a :: a in r ==> a.kind == kind && a.value == x
    ensures (|r| == 1 && r[0].severity == Critical) <==> x >= critical
    ensures (|r| == 1 && r[0].severity == Warning) <==> warning <= x < critical
  {
    if x >= critical then [Alert(kind, Critical, x, critical)]
    else if x >= warning then [Alert(kind, Warning, x, warning)]
    else []
  }

  /** `parseFloat(approval_rate)`: a month without deals has no rate, which reads as NaN. */
  function RateValue(r: Rate): (x: Option<real>)
    ensures x.None? <==> r.Missing?
  {
    match r
    case Missing => None
    case Zero => Some(0.0)
    case Percent(p) => Some(p)
  }

  /** The three alert checks, in the order approval rate, high-risk workers, retention rate. */
  function AlertsOf(rate: Rate, highRisk: nat, retentionRate: real, t: AlertThresholds): seq<Alert>
  {
    BelowAlert(ApprovalAlert, RateValue(rate), t.approvalCritical, t.approvalWarning)
    + AtLeastAlert(HighRiskAlert, highRisk as real, t.highRiskCritical, t.highRiskWarning)
    + BelowAlert(RetentionAlert, Some(retentionRate), t.retentionCritical, t.retentionWarning)
  }

  /**
    At most one alert per check, in the fixed order of the checks, and a
    month whose summary has no approval rate (no deals) never raises the
    approval alert.
  */
  lemma AlertsOrdered(rate: Rate, highRisk: nat, retentionRate: real, t: AlertThresholds)
    ensures var al := AlertsOf(rate, highRisk, retentionRate, t);
      && |al| <= 3
      && (forall i, j :: 0 <= i < j < |al| ==> al[i].kind != al[j].kind)
      && (forall i, j :: 0 <= i < j < |al| ==> KindRank(al[i].kind) < KindRank(al[j].kind))
      && (rate.Missing? ==> forall a :: a in al ==> a.kind != ApprovalAlert)
  {
    var a := BelowAlert(ApprovalAlert, RateValue(rate), t.approvalCritical, t.approvalWarning);
    var h := AtLeastAlert(HighRiskAlert, highRisk as real, t.highRiskCritical, t.highRiskWarning);
    var r := BelowAlert(RetentionAlert, Some(retentionRate), t.retentionCritical, t.retentionWarning);
    var al := a + h + r;
    forall i, j | 0 <= i < j < |al|
      ensures KindRank(al[i].kind) < KindRank(al[j].kind)
    {
      if i < |a| {
        assert al[i] == a[i];
      }
      if j >= |a| + |h| {
        assert al[j] == r[j - |a| - |h|];
      }
      if |a| <= i < |a| + |h| {
        assert al[i] == h[i - |a|];
      }
      if |a| <= j < |a| + |h| {
        assert al[j] == h[j - |a|];
      }
    }
  }

  function KindRank(k: AlertKind): nat
  {
    match k
    case ApprovalAlert => 0
    case HighRiskAlert => 1
    case RetentionAlert => 2
  }

  // ---------------------------------------------------------------------
  // Top staff by calls
  // ---------------------------------------------------------------------

  /** The fields the summary copies from a branch, product or staff bucket (the per-staff and per-hour fields the rollup never sets are left out). */
  datatype Performance = Performance(
    calls: real,
    hours: real,
    appointments: real,
    deals: nat,
    approved: nat,
    revenue: real,
    potential: real,
    rate: Rate)

  function PerformanceOf(t: Totals, rate: Rate): Performance
  {
    Performance(t.calls, t.hours, t.appointments, t.deals, t.approved, t.revenue, t.potential, rate)
  }

  function BranchPerformance(b: BranchData): Performance { PerformanceOf(b.totals, b.rate) }
  function ProductPerformance(p: ProductData): Performance { PerformanceOf(p.totals, p.rate) }

  datatype StaffRow = StaffRow(name: string, branch: Cell, perf: Performance)

  function RowCalls(r: StaffRow): real { r.perf.calls }

  /** One row per staff bucket of the month, in key order (`staffArray.push`). */
  function StaffRows(keys: seq<string>, staff: map<string, StaffData>): (rows: seq<StaffRow>)
    requires forall k :: k in keys ==> k in staff
    ensures |rows| == |keys|
    ensures forall i :: 0 <= i < |keys| ==> rows[i].name == keys[i]
  {
    if keys == [] then []
    else StaffRows(keys[..|keys| - 1], staff) + [RowOf(keys[|keys| - 1], staff[keys[|keys| - 1]])]
  }

  function RowOf(name: string, s: StaffData): StaffRow
  {
    StaffRow(name, s.branch, PerformanceOf(s.totals, s.rate))
  }

  /**
    `x` inserted into a list sorted by calls, after every row with at least
    as many calls: the place a stable sort gives a row that came later.
  */
  function InsertByCalls(x: StaffRow, s: seq<StaffRow>): seq<StaffRow>
  {
    if s == [] then [x]
    else if RowCalls(s[0]) >= RowCalls(x) then [s[0]] + InsertByCalls(x, s[1..])
    else [x] + s
  }

  /** `staffArray.sort((a, b) => b.total_calls - a.total_calls)`, a stable sort. */
  function SortByCalls(rows: seq<StaffRow>): seq<StaffRow>
  {
    if rows == [] then []
    else InsertByCalls(rows[|rows| - 1], SortByCalls(rows[..|rows| - 1]))
  }

  lemma {:induction false} InsertByCallsPermutes(x: StaffRow, s: seq<StaffRow>)
    ensures multiset(InsertByCalls(x, s)) == multiset(s) + multiset{x}
  {
    if s != [] && RowCalls(s[0]) >= RowCalls(x) {
      InsertByCallsPermutes(x, s[1..]);
      assert s == [s[0]] + s[1..];
    }
  }

  lemma {:induction false} InsertByCallsLength(x: StaffRow, s: seq<StaffRow>)
    ensures |InsertByCalls(x, s)| == |s| + 1
  {
    if s != [] && RowCalls(s[0]) >= RowCalls(x) {
      InsertByCallsLength(x, s[1..]);
    }
  }

  lemma {:induction false} SortByCallsLength(rows: seq<StaffRow>)
    ensures |SortByCalls(rows)| == |rows|
  {
    if rows != [] {
      SortByCallsLength(rows[..|rows| - 1]);
      InsertByCallsLength(rows[|rows| - 1], SortByCalls(rows[..|rows| - 1]));
    }
  }

  /** The sort neither loses nor duplicates a row. */
  lemma {:induction false} SortByCallsPermutes(rows: seq<StaffRow>)
    ensures multiset(SortByCalls(rows)) == multiset(rows)
    ensures |SortByCalls(rows)| == |rows|
  {
    SortByCallsLength(rows);
    if rows != [] {
      var init := rows[..|rows| - 1];
      var last := rows[|rows| - 1];
      var sorted := SortByCalls(init);
      assert multiset(sorted) == multiset(init) by {
        SortByCallsPermutes(init);
      }
      assert multiset(SortByCalls(rows)) == multiset(sorted) + multiset{last} by {
        InsertByCallsPermutes(last, sorted);
      }
      assert multiset(rows) == multiset(init) + multiset{last} by {
        assert rows == init + [last];
      }
    }
  }

  predicate ByCallsDescending(s: seq<StaffRow>)
  {
    forall i, j :: 0 <= i < j < |s| ==> RowCalls(s[i]) >= RowCalls(s[j])
  }

  /** The rows with exactly `c` calls, in their order. */
  function WithCalls(s: seq<StaffRow>, c: real): seq<StaffRow>
  {
    if s == [] then []
    else WithCalls(s[..|s| - 1], c) + (if RowCalls(s[|s| - 1]) == c then [s[|s| - 1]] else [])
  }

  lemma {:induction false} WithCallsFront(x: StaffRow, s: seq<StaffRow>, c: real)
    ensures WithCalls([x] + s, c) == (if RowCalls(x) == c then [x] else []) + WithCalls(s, c)
  {
    if s != [] {
      WithCallsFront(x, s[..|s| - 1], c);
      assert ([x] + s)[..|[x] + s| - 1] == [x] + s[..|s| - 1];
    }
  }

  lemma {:induction false} WithCallsNone(s: seq<StaffRow>, c: real)
    requires forall i :: 0 <= i < |s| ==> RowCalls(s[i]) < c
    ensures WithCalls(s, c) == []
  {
    if s != [] {
      WithCallsNone(s[..|s| - 1], c);
    }
  }

  lemma {:induction false} InsertByCallsSorted(x: StaffRow, s: seq<StaffRow>)
    requires ByCallsDescending(s)
    ensures ByCallsDescending(InsertByCalls(x, s))
  {
    if s != [] && RowCalls(s[0]) >= RowCalls(x) {
      InsertByCallsSorted(x, s[1..]);
      InsertByCallsPermutes(x, s[1..]);
      InsertAfterFirstSorted(x, s, InsertByCalls(x, s[1..]));
    } else if s != [] {
      ConsSorted(x, s);
    }
  }

  lemma InsertAfterFirstSorted(x: StaffRow, s: seq<StaffRow>, rest: seq<StaffRow>)
    requires s != [] && ByCallsDescending(s) && RowCalls(s[0]) >= RowCalls(x)
    requires ByCallsDescending(rest) && multiset(rest) == multiset(s[1..]) + multiset{x}
    ensures ByCallsDescending([s[0]] + rest)
  {
    forall v | v in rest
      ensures RowCalls(s[0]) >= RowCalls(v)
    {
      assert v in multiset(rest);
      if v != x {
        assert v in multiset(s[1..]);
        var i :| 0 <= i < |s[1..]| && s[1..][i] == v;
        assert s[i + 1] == v;
      }
    }
    ConsSorted(s[0], rest);
  }

  lemma ConsSorted(x: StaffRow, s: seq<StaffRow>)
    requires ByCallsDescending(s) && forall v :: v in s ==> RowCalls(x) >= RowCalls(v)
    ensures ByCallsDescending([x] + s)
  {
    var r := [x] + s;
    forall i, j | 0 <= i < j < |r|
      ensures RowCalls(r[i]) >= RowCalls(r[j])
    {
      assert r[j] == s[j - 1];
      if i > 0 {
        assert r[i] == s[i - 1];
      }
    }
  }

  lemma {:induction false} InsertByCallsKeepsTies(x: StaffRow, s: seq<StaffRow>, c: real)
    requires ByCallsDescending(s)
    ensures WithCalls(InsertByCalls(x, s), c) == WithCalls(s, c) + (if RowCalls(x) == c then [x] else [])
  {
    if s == [] {
      assert InsertByCalls(x, s) == [] + [x];
    } else if RowCalls(s[0]) >= RowCalls(x) {
      DescendingTail(s);
      InsertByCallsKeepsTies(x, s[1..], c);
      KeepTiesBehindHead(x, s, c);
    } else {
      InsertBeforeSmaller(x, s, c);
    }
  }

  /** Inserting behind the head: the head's tie list is extended as the tail's is. */
  lemma KeepTiesBehindHead(x: StaffRow, s: seq<StaffRow>, c: real)
    requires s != [] && RowCalls(s[0]) >= RowCalls(x)
    requires WithCalls(InsertByCalls(x, s[1..]), c) == WithCalls(s[1..], c) + (if RowCalls(x) == c then [x] else [])
    ensures WithCalls(InsertByCalls(x, s), c) == WithCalls(s, c) + (if RowCalls(x) == c then [x] else [])
  {
    var t := s[1..];
    assert InsertByCalls(x, s) == [s[0]] + InsertByCalls(x, t);
    InsertAfterFirstTies(x, s[0], t, InsertByCalls(x, t), c);
    assert [s[0]] + t == s;
  }

  lemma DescendingTail(s: seq<StaffRow>)
    requires s != [] && ByCallsDescending(s)
    ensures ByCallsDescending(s[1..])
  {
    forall i, j | 0 <= i < j < |s| - 1
      ensures RowCalls(s[1..][i]) >= RowCalls(s[1..][j])
    {
      assert s[1..][i] == s[i + 1] && s[1..][j] == s[j + 1];
    }
  }

  lemma InsertAfterFirstTies(x: StaffRow, h: StaffRow, t: seq<StaffRow>, rest: seq<StaffRow>, c: real)
    requires WithCalls(rest, c) == WithCalls(t, c) + (if RowCalls(x) == c then [x] else [])
    ensures WithCalls([h] + rest, c) == WithCalls([h] + t, c) + (if RowCalls(x) == c then [x] else [])
  {
    var front := if RowCalls(h) == c then [h] else [];
    var added := if RowCalls(x) == c then [x] else [];
    var w := WithCalls(t, c);
    WithCallsFront(h, rest, c);
    WithCallsFront(h, t, c);
    calc {
      WithCalls([h] + rest, c);
      front + (w + added);
      (front + w) + added;
      WithCalls([h] + t, c) + added;
    }
  }

  lemma InsertBeforeSmaller(x: StaffRow, s: seq<StaffRow>, c: real)
    requires ByCallsDescending(s) && s != [] && RowCalls(s[0]) < RowCalls(x)
    ensures WithCalls([x] + s, c) == WithCalls(s, c) + (if RowCalls(x) == c then [x] else [])
  {
    WithCallsFront(x, s, c);
    if RowCalls(x) == c {
      WithCallsNone(s, c);
    }
  }

  /**
    The sort orders by calls, most first, and is stable: for every call
    count the rows with that count keep their original order (which, with
    `SortByCallsPermutes`, also makes it a permutation).
  */
  lemma {:induction false} SortByCallsStable(rows: seq<StaffRow>, c: real)
    ensures ByCallsDescending(SortByCalls(rows))
    ensures WithCalls(SortByCalls(rows), c) == WithCalls(rows, c)
  {
    if rows != [] {
      var init := rows[..|rows| - 1];
      SortByCallsStable(init, c);
      InsertByCallsSorted(rows[|rows| - 1], SortByCalls(init));
      InsertByCallsKeepsTies(rows[|rows| - 1], SortByCalls(init), c);
    }
  }

  /** `slice(0, n)` after `ToIntegerOrInfinity`: a negative `n` counts back from the end. */
  function SliceEnd(n: real, len: nat): (e: nat)
    ensures e <= len
    ensures n >= 0.0 ==> e == if n.Floor <= len then n.Floor else len
  {
    var k := if n >= 0.0 then n.Floor else -((-n).Floor);
    if k >= 0 then (if k <= len then k else len)
    else if len + k >= 0 then len + k else 0
  }

  /** `getConfig('monthly_summary.top_staff_count') || 10`. */
  function TopCount(root: Json): real
  {
    Retention.Setting(GetPath(root, ["monthly_summary"]), "top_staff_count", 10.0)
  }

  lemma ShippedTopCount()
    ensures TopCount(DefaultConfig()) == 10.0
  {
    DefaultTopStaffCount();
    GetPathAppend(DefaultConfig(), ["monthly_summary"], ["top_staff_count"]);
    assert ["monthly_summary"] + ["top_staff_count"] == ["monthly_summary", "top_staff_count"];
  }

  /** `summary.staff_performance[row.staff_name] = row` for each selected row. */
  function RowsByName(rows: seq<StaffRow>): (t: Table<StaffRow>)
    ensures t.Valid()
  {
    if rows == [] then Empty()
    else Put(RowsByName(rows[..|rows| - 1]), rows[|rows| - 1].name, rows[|rows| - 1])
  }

  /** The month's staff rows sorted by calls, most first. */
  function SortedStaff(m: MonthData): seq<StaffRow>
    requires m.staff.Valid()
  {
    SortByCalls(StaffRows(m.staff.keys, m.staff.vals))
  }

  function TopStaff(m: MonthData, n: real): Table<StaffRow>
    requires m.staff.Valid()
  {
    var sorted := SortedStaff(m);
    RowsByName(sorted[..SliceEnd(n, |sorted|)])
  }

  /**
    The staff table keeps the selected rows in sorted order, one per name;
    no worker left out has more calls than a worker kept, and the shipped
    setting keeps the ten busiest (all of them when there are fewer).
  */
  lemma TopStaffBusiest(m: MonthData, n: real)
    requires m.staff.Valid()
    ensures TopStaff(m, n).keys == NamesOf(SortedStaff(m)[..SliceEnd(n, |SortedStaff(m)|)])
    ensures forall i, j :: 0 <= i < SliceEnd(n, |SortedStaff(m)|) <= j < |SortedStaff(m)| ==>
      RowCalls(SortedStaff(m)[i]) >= RowCalls(SortedStaff(m)[j])
    ensures n == 10.0 ==> |TopStaff(m, n).keys| == if |m.staff.keys| <= 10 then |m.staff.keys| else 10
  {
    TopStaffKeys(m, n);
    TopStaffOrder(m, n);
    SortedStaffLength(m);
  }

  lemma TopStaffKeys(m: MonthData, n: real)
    requires m.staff.Valid()
    ensures TopStaff(m, n).keys == NamesOf(SortedStaff(m)[..SliceEnd(n, |SortedStaff(m)|)])
  {
    var sorted := SortedStaff(m);
    var e := SliceEnd(n, |sorted|);
    SortedNamesDistinct(m.staff.keys, m.staff.vals);
    assert DistinctNames(sorted[..e]);
    RowsByNameKeys(sorted[..e]);
  }

  lemma TopStaffOrder(m: MonthData, n: real)
    requires m.staff.Valid()
    ensures forall i, j :: 0 <= i < SliceEnd(n, |SortedStaff(m)|) <= j < |SortedStaff(m)| ==>
      RowCalls(SortedStaff(m)[i]) >= RowCalls(SortedStaff(m)[j])
  {
    SortByCallsStable(StaffRows(m.staff.keys, m.staff.vals), 0.0);
  }

  lemma SortedStaffLength(m: MonthData)
    requires m.staff.Valid()
    ensures |SortedStaff(m)| == |m.staff.keys|
  {
    SortByCallsLength(StaffRows(m.staff.keys, m.staff.vals));
  }

  function NamesOf(rows: seq<StaffRow>): (ns: seq<string>)
    ensures |ns| == |rows| && forall i :: 0 <= i < |rows| ==> ns[i] == rows[i].name
  {
    if rows == [] then [] else NamesOf(rows[..|rows| - 1]) + [rows[|rows| - 1].name]
  }

  predicate DistinctNames(rows: seq<StaffRow>)
  {
    forall i, j :: 0 <= i < j < |rows| ==> rows[i].name != rows[j].name
  }

  lemma {:induction false} RowsByNameKeys(rows: seq<StaffRow>)
    requires DistinctNames(rows)
    ensures RowsByName(rows).keys == NamesOf(rows)
  {
    if rows != [] {
      var init := rows[..|rows| - 1];
      RowsByNameKeys(init);
      assert rows[|rows| - 1].name !in NamesOf(init) by {
        forall i | 0 <= i < |init|
          ensures NamesOf(init)[i] != rows[|rows| - 1].name
        {
          assert init[i] == rows[i];
        }
      }
    }
  }

  /** The staff keys are distinct, so the rows built from them, in any order, carry distinct names. */
  lemma SortedNamesDistinct(keys: seq<string>, staff: map<string, StaffData>)
    requires forall k :: k in keys ==> k in staff
    requires forall i, j :: 0 <= i < j < |keys| ==> keys[i] != keys[j]
    ensures DistinctNames(SortByCalls(StaffRows(keys, staff)))
  {
    var rows := StaffRows(keys, staff);
    SortByCallsPermutes(rows);
    assert DistinctNames(rows);
    PermutedNamesDistinct(rows, SortByCalls(rows));
  }

  lemma PermutedNamesDistinct(rows: seq<StaffRow>, sorted: seq<StaffRow>)
    requires DistinctNames(rows) && multiset(sorted) == multiset(rows)
    ensures DistinctNames(sorted)
  {
    assert Distinct(rows);
    DistinctPermutation(rows, sorted);
    forall i, j | 0 <= i < j < |sorted|
      ensures sorted[i].name != sorted[j].name
    {
      assert sorted[i] in multiset(rows) && sorted[j] in multiset(rows);
      var a :| 0 <= a < |rows| && rows[a] == sorted[i];
      var b :| 0 <= b < |rows| && rows[b] == sorted[j];
      assert a != b;
    }
  }

  // ---------------------------------------------------------------------
  // Branch × product cross analysis
  // ---------------------------------------------------------------------

  /** `Math.round`: the nearest integer, halves rounded up. */
  function JsRound(x: real): int
  {
    (x + 0.5).Floor
  }

  lemma JsRoundBounds(x: real)
    ensures x - 0.5 < JsRound(x) as real <= x + 0.5
  {
  }

  /** Branch → product → amount. */
  type Grid = Table<Table<int>>

  ghost predicate GridValid(g: Grid)
  {
    g.Valid() && forall b :: b in g.vals ==> g.vals[b].Valid()
  }

  datatype Measure = DealsMeasure | ApprovedMeasure | RevenueMeasure

  datatype Cross = Cross(deals: Grid, approved: Grid, revenue: Grid)

  function GridOf(c: Cross, w: Measure): Grid
  {
    match w
    case DealsMeasure => c.deals
    case ApprovedMeasure => c.approved
    case RevenueMeasure => c.revenue
  }

  ghost predicate CrossValid(c: Cross)
  {
    GridValid(c.deals) && GridValid(c.approved) && GridValid(c.revenue)
  }

  const EmptyCross: Cross := Cross(Empty(), Empty(), Empty())

  /** `total_deals || 0`, `total_approved || 0`, `total_revenue || 0` of a staff bucket. */
  function AmountOf(s: StaffData, w: Measure): real
  {
    match w
    case DealsMeasure => s.totals.deals as real
    case ApprovedMeasure => s.totals.approved as real
    case RevenueMeasure => s.totals.revenue
  }

  /** `staffData.branch || '未設定'`. */
  function BranchKey(s: StaffData): string
  {
    if Truthy(s.branch) then Key(s.branch) else Unset
  }

  /** The row of a branch, `{}` when the branch has none yet. */
  function RowBefore(g: Grid, b: string): Table<int>
  {
    if b in g.vals then g.vals[b] else Empty()
  }

  /** A cell, read as 0 when absent (`if (!row[p]) row[p] = 0`). */
  function CellBefore(row: Table<int>, p: string): int
  {
    if p in row.vals then row.vals[p] else 0
  }

  function AddedCell(row: Table<int>, p: string, x: int): (r: Table<int>)
    requires row.Valid()
    ensures r.Valid()
  {
    Put(row, p, CellBefore(row, p) + x)
  }

  /** `grid[b][p] += x`, creating the row and the cell first when they are missing. */
  function AddCell(g: Grid, b: string, p: string, x: int): (r: Grid)
    requires GridValid(g)
    ensures GridValid(r)
  {
    Put(g, b, AddedCell(RowBefore(g, b), p, x))
  }

  function ProductDealCount(p: ProductData): nat { p.totals.deals }

  /** `totalProductDeals`: the deals of the month's products, summed in key order. */
  function ProductDealSum(ps: seq<string>, products: map<string, ProductData>): nat
    requires forall p :: p in ps ==> p in products
  {
    if ps == [] then 0 else ProductDealSum(ps[..|ps| - 1], products) + ProductDealCount(products[ps[|ps| - 1]])
  }

  /** `Math.round(amount * (productDeals / totalProductDeals))`. */
  function ShareOf(amount: real, deals: nat, total: nat): int
    requires total > 0
  {
    JsRound(amount * (deals as real / total as real))
  }

  /** One product's three cells for one worker. */
  function AllocateOne(c: Cross, b: string, p: string, pd: nat, s: StaffData, total: nat): (r: Cross)
    requires CrossValid(c) && total > 0
    ensures CrossValid(r)
  {
    Cross(
      AddCell(c.deals, b, p, ShareOf(AmountOf(s, DealsMeasure), pd, total)),
      AddCell(c.approved, b, p, ShareOf(AmountOf(s, ApprovedMeasure), pd, total)),
      AddCell(c.revenue, b, p, ShareOf(AmountOf(s, RevenueMeasure), pd, total)))
  }

  /** The allocation loop over the products for one worker. */
  function AllocateProducts(c: Cross, b: string, ps: seq<string>, products: map<string, ProductData>, s: StaffData, total: nat): (r: Cross)
    requires CrossValid(c) && total > 0 && forall p :: p in ps ==> p in products
    ensures CrossValid(r)
  {
    if ps == [] then c
    else
      var p := ps[|ps| - 1];
      AllocateOne(AllocateProducts(c, b, ps[..|ps| - 1], products, s, total), b, p, ProductDealCount(products[p]), s, total)
  }

  /** One worker: nothing unless the worker has deals and the month's products have deals. */
  function StaffStep(c: Cross, s: StaffData, products: Table<ProductData>): (r: Cross)
    requires CrossValid(c) && products.Valid()
    ensures CrossValid(r)
  {
    var total := ProductDealSum(products.keys, products.vals);
    if s.totals.deals > 0 && total > 0 then AllocateProducts(c, BranchKey(s), products.keys, products.vals, s, total)
    else c
  }

  function CrossFold(keys: seq<string>, staff: map<string, StaffData>, products: Table<ProductData>): (r: Cross)
    requires products.Valid() && forall k :: k in keys ==> k in staff
    ensures CrossValid(r)
  {
    if keys == [] then EmptyCross
    else StaffStep(CrossFold(keys[..|keys| - 1], staff, products), staff[keys[|keys| - 1]], products)
  }

  /** The cross analysis of a month, empty when the month has no data. */
  function CrossAnalysisOf(monthly: Table<MonthData>, month: string): Cross
    requires TablesValid(monthly)
  {
    if month in monthly.vals then
      var m := monthly.vals[month];
      CrossFold(m.staff.keys, m.staff.vals, m.products)
    else EmptyCross
  }

  // ---------------------------------------------------------------------
  // What the cross analysis adds up to
  // ---------------------------------------------------------------------

  function CellValue(x: int): real { x as real }

  ghost function RowTotal(row: Table<int>): real
  {
    if row.Valid() then Sum(row, CellValue) else 0.0
  }

  /** The sum of every cell of a grid. */
  ghost function GridTotal(g: Grid): real
    requires g.Valid()
  {
    Sum(g, RowTotal)
  }

  lemma AddedCellTotal(row: Table<int>, p: string, x: int)
    requires row.Valid()
    ensures RowTotal(AddedCell(row, p, x)) == RowTotal(row) + x as real
  {
    var r := AddedCell(row, p, x);
    var before := CellBefore(row, p);
    assert Sum(r, CellValue) == Sum(row, CellValue) + x as real by {
      SumPut(row, p, before + x, CellValue);
      if p in row.vals {
        assert CellValue(row.vals[p]) == before as real;
      }
      assert CellValue(before + x) == before as real + x as real;
    }
    assert RowTotal(r) == Sum(r, CellValue);
    assert RowTotal(row) == Sum(row, CellValue);
  }

  /** Adding to one cell moves the grid's total by exactly that amount. */
  lemma AddCellTotal(g: Grid, b: string, p: string, x: int)
    requires GridValid(g)
    ensures GridTotal(AddCell(g, b, p, x)) == GridTotal(g) + x as real
  {
    AddedCellTotal(RowBefore(g, b), p, x);
    SumPut(g, b, AddedCell(RowBefore(g, b), p, x), RowTotal);
    assert RowTotal(Empty()) == 0.0;
  }

  lemma AllocateOneGrid(c: Cross, b: string, p: string, pd: nat, s: StaffData, total: nat, w: Measure)
    requires CrossValid(c) && total > 0
    ensures GridOf(AllocateOne(c, b, p, pd, s, total), w) == AddCell(GridOf(c, w), b, p, ShareOf(AmountOf(s, w), pd, total))
  {
  }

  /** A worker's rounded shares over a list of products. */
  function ShareSum(amount: real, ps: seq<string>, products: map<string, ProductData>, total: nat): int
    requires total > 0 && forall p :: p in ps ==> p in products
  {
    if ps == [] then 0
    else ShareSum(amount, ps[..|ps| - 1], products, total) + ShareOf(amount, ProductDealCount(products[ps[|ps| - 1]]), total)
  }

  lemma {:induction false} AllocateProductsTotal(c: Cross, b: string, ps: seq<string>, products: map<string, ProductData>, s: StaffData, total: nat, w: Measure)
    requires CrossValid(c) && total > 0 && forall p :: p in ps ==> p in products
    ensures GridTotal(GridOf(AllocateProducts(c, b, ps, products, s, total), w))
      == GridTotal(GridOf(c, w)) + ShareSum(AmountOf(s, w), ps, products, total) as real
  {
    if ps != [] {
      var init := ps[..|ps| - 1];
      var p := ps[|ps| - 1];
      var c' := AllocateProducts(c, b, init, products, s, total);
      AllocateProductsTotal(c, b, init, products, s, total, w);
      AllocateOneGrid(c', b, p, ProductDealCount(products[p]), s, total, w);
      AddCellTotal(GridOf(c', w), b, p, ShareOf(AmountOf(s, w), ProductDealCount(products[p]), total));
    }
  }

  /** What one worker adds to a grid: the rounded shares of the worker's amount, or nothing. */
  function StaffAllocated(s: StaffData, products: Table<ProductData>, w: Measure): int
    requires products.Valid()
  {
    var total := ProductDealSum(products.keys, products.vals);
    if s.totals.deals > 0 && total > 0 then ShareSum(AmountOf(s, w), products.keys, products.vals, total) else 0
  }

  function AllocatedSum(keys: seq<string>, staff: map<string, StaffData>, products: Table<ProductData>, w: Measure): int
    requires products.Valid() && forall k :: k in keys ==> k in staff
  {
    if keys == [] then 0
    else AllocatedSum(keys[..|keys| - 1], staff, products, w) + StaffAllocated(staff[keys[|keys| - 1]], products, w)
  }

  lemma StaffStepTotal(c: Cross, s: StaffData, products: Table<ProductData>, w: Measure)
    requires CrossValid(c) && products.Valid()
    ensures GridTotal(GridOf(StaffStep(c, s, products), w)) == GridTotal(GridOf(c, w)) + StaffAllocated(s, products, w) as real
  {
    var total := ProductDealSum(products.keys, products.vals);
    if s.totals.deals > 0 && total > 0 {
      AllocateProductsTotal(c, BranchKey(s), products.keys, products.vals, s, total, w);
    }
  }

  /** Every grid of the cross analysis sums to the workers' rounded shares, worker by worker. */
  lemma {:induction false} CrossFoldTotal(keys: seq<string>, staff: map<string, StaffData>, products: Table<ProductData>, w: Measure)
    requires products.Valid() && forall k :: k in keys ==> k in staff
    ensures GridTotal(GridOf(CrossFold(keys, staff, products), w)) == AllocatedSum(keys, staff, products, w) as real
  {
    if keys != [] {
      var init := keys[..|keys| - 1];
      CrossFoldTotal(init, staff, products, w);
      StaffStepTotal(CrossFold(init, staff, products), staff[keys[|keys| - 1]], products, w);
    }
  }

  // ---------------------------------------------------------------------
  // Rounding drift of the proportional allocation
  // ---------------------------------------------------------------------

  /** The unrounded shares `amount * (productDeals / totalProductDeals)`, summed. */
  function ExactShares(amount: real, ps: seq<string>, products: map<string, ProductData>, total: nat): real
    requires total > 0 && forall p :: p in ps ==> p in products
  {
    if ps == [] then 0.0
    else
      var share := amount * (ProductDealCount(products[ps[|ps| - 1]]) as real / total as real);
      ExactShares(amount, ps[..|ps| - 1], products, total) + share
  }

  lemma ShareStep(a: real, sum: real, x: real, t: real)
    requires t > 0.0
    ensures a * (sum / t) + a * (x / t) == a * ((sum + x) / t)
  {
    assert (sum + x) / t == sum / t + x / t;
  }

  lemma {:induction false} ExactSharesValue(amount: real, ps: seq<string>, products: map<string, ProductData>, total: nat)
    requires total > 0 && forall p :: p in ps ==> p in products
    ensures ExactShares(amount, ps, products, total) == amount * (ProductDealSum(ps, products) as real / total as real)
  {
    if ps != [] {
      var init := ps[..|ps| - 1];
      ExactSharesValue(amount, init, products, total);
      ShareStep(amount, ProductDealSum(init, products) as real, ProductDealCount(products[ps[|ps| - 1]]) as real, total as real);
    }
  }

  /** Each rounded share is within half a unit of its exact share, so the sum drifts by at most half a unit per product. */
  lemma {:induction false} RoundedShares(amount: real, ps: seq<string>, products: map<string, ProductData>, total: nat)
    requires total > 0 && forall p :: p in ps ==> p in products
    ensures var exact := ExactShares(amount, ps, products, total);
      exact - 0.5 * |ps| as real <= ShareSum(amount, ps, products, total) as real <= exact + 0.5 * |ps| as real
  {
    if ps != [] {
      var init := ps[..|ps| - 1];
      var share := amount * (ProductDealCount(products[ps[|ps| - 1]]) as real / total as real);
      RoundedShares(amount, init, products, total);
      JsRoundBounds(share);
      assert ShareOf(amount, ProductDealCount(products[ps[|ps| - 1]]), total) == JsRound(share);
      DriftStep(ExactShares(amount, init, products, total), ShareSum(amount, init, products, total),
        share, JsRound(share), |init|);
    }
  }

  /** Adding one rounded share to a sum drifts it by at most half a unit more. */
  lemma DriftStep(e: real, r: int, x: real, rx: int, n: nat)
    requires e - 0.5 * n as real <= r as real <= e + 0.5 * n as real
    requires x - 0.5 < rx as real <= x + 0.5
    ensures (e + x) - 0.5 * (n + 1) as real <= (r + rx) as real <= (e + x) + 0.5 * (n + 1) as real
  {
  }

  lemma WholeShare(a: real, t: real)
    requires t > 0.0
    ensures a * (t / t) == a
  {
  }

  /**
    Over all the month's products the shares of a worker's amount add up to
    the amount itself up to the rounding: the allocated total is within
    half a unit per product of the worker's deals, approvals or revenue.
  */
  lemma StaffAllocationDrift(s: StaffData, products: Table<ProductData>, w: Measure)
    requires products.Valid()
    requires s.totals.deals > 0 && ProductDealSum(products.keys, products.vals) > 0
    ensures var n := |products.keys| as real;
      AmountOf(s, w) - 0.5 * n <= StaffAllocated(s, products, w) as real <= AmountOf(s, w) + 0.5 * n
  {
    var total := ProductDealSum(products.keys, products.vals);
    RoundedShares(AmountOf(s, w), products.keys, products.vals, total);
    ExactSharesValue(AmountOf(s, w), products.keys, products.vals, total);
    WholeShare(AmountOf(s, w), total as real);
  }

  lemma {:induction false} ProductDealSumIsSum(ps: seq<string>, products: map<string, ProductData>)
    requires forall p :: p in ps ==> p in products
    ensures ProductDealSum(ps, products) as real == SumOver(ps, products, Rollup.ProductDeals)
  {
    if ps != [] {
      ProductDealSumIsSum(ps[..|ps| - 1], products);
    }
  }

  /** In a consistent month the allocation's denominator is the month's deal count. */
  lemma AllocationBase(m: MonthData)
    requires MonthOk(m)
    ensures ProductDealSum(m.products.keys, m.products.vals) == m.summary.deals
  {
    ProductDealSumIsSum(m.products.keys, m.products.vals);
  }

  // ---------------------------------------------------------------------
  // The cross analysis as the code runs it
  // ---------------------------------------------------------------------

  lemma ProductDealSumNext(ps: seq<string>, products: map<string, ProductData>, i: nat)
    requires i < |ps| && forall p :: p in ps ==> p in products
    ensures ProductDealSum(ps[..i + 1], products) == ProductDealSum(ps[..i], products) + ProductDealCount(products[ps[i]])
  {
    assert ps[..i + 1][..i] == ps[..i];
  }

  lemma AllocateProductsNext(c: Cross, b: string, ps: seq<string>, products: map<string, ProductData>, s: StaffData, total: nat, i: nat)
    requires CrossValid(c) && total > 0 && i < |ps| && forall p :: p in ps ==> p in products
    ensures AllocateProducts(c, b, ps[..i + 1], products, s, total)
      == AllocateOne(AllocateProducts(c, b, ps[..i], products, s, total), b, ps[i], ProductDealCount(products[ps[i]]), s, total)
  {
    var q := ps[..i + 1];
    assert |q| - 1 == i;
    assert q[|q| - 1] == ps[i];
    assert q[..|q| - 1] == ps[..i];
  }

  lemma CrossFoldNext(keys: seq<string>, staff: map<string, StaffData>, products: Table<ProductData>, i: nat)
    requires products.Valid() && i < |keys| && forall k :: k in keys ==> k in staff
    ensures CrossFold(keys[..i + 1], staff, products) == StaffStep(CrossFold(keys[..i], staff, products), staff[keys[i]], products)
  {
    assert keys[..i + 1][..i] == keys[..i];
  }

  /** The loop summing `totalProductDeals`. */
  method ProductTotal(products: Table<ProductData>) returns (total: nat)
    requires products.Valid()
    ensures total == ProductDealSum(products.keys, products.vals)
  {
    var ps := products.keys;
    total := 0;
    var j := 0;
    while j < |ps|
      invariant 0 <= j <= |ps|
      invariant total == ProductDealSum(ps[..j], products.vals)
    {
      ProductDealSumNext(ps, products.vals, j);
      total := total + products.vals[ps[j]].totals.deals;
      j := j + 1;
    }
    assert ps[..j] == ps;
  }

  /** The loop over the products for one worker, adding a rounded share to each of the three grids. */
  method AllocateStaff(c0: Cross, s: StaffData, products: Table<ProductData>, total: nat) returns (c: Cross)
    requires CrossValid(c0) && products.Valid() && total > 0
    ensures c == AllocateProducts(c0, BranchKey(s), products.keys, products.vals, s, total)
  {
    var b := BranchKey(s);
    var ps := products.keys;
    c := c0;
    var j := 0;
    while j < |ps|
      invariant 0 <= j <= |ps|
      invariant c == AllocateProducts(c0, b, ps[..j], products.vals, s, total)
    {
      AllocateProductsNext(c0, b, ps, products.vals, s, total, j);
      c := AllocateOne(c, b, ps[j], products.vals[ps[j]].totals.deals, s, total);
      j := j + 1;
    }
    assert ps[..j] == ps;
  }

  /** `generateBranchProductCrossAnalysis`: every worker of the month, in key order. */
  method CrossAnalysis(monthly: Table<MonthData>, month: string) returns (c: Cross)
    requires TablesValid(monthly)
    ensures c == CrossAnalysisOf(monthly, month)
  {
    c := EmptyCross;
    if month !in monthly.vals {
      return;
    }
    var m := monthly.vals[month];
    var keys := m.staff.keys;
    var i := 0;
    while i < |keys|
      invariant 0 <= i <= |keys|
      invariant c == CrossFold(keys[..i], m.staff.vals, m.products)
    {
      CrossFoldNext(keys, m.staff.vals, m.products, i);
      var s := m.staff.vals[keys[i]];
      if s.totals.deals > 0 {
        var total := ProductTotal(m.products);
        if total > 0 {
          c := AllocateStaff(c, s, m.products, total);
        }
      }
      i := i + 1;
    }
    assert keys[..i] == keys;
  }

  // ---------------------------------------------------------------------
  // The monthly summary
  // ---------------------------------------------------------------------

  datatype KeyMetrics = KeyMetrics(calls: real, hours: real, appointments: real, deals: nat, approved: nat, rejected: nat, rate: Rate)

  /** `pending` is what is left of the deals after the approved and rejected ones. */
  datatype Breakdown = Breakdown(approved: nat, rejected: nat, pending: int, total: nat)

  datatype RetentionMetrics = RetentionMetrics(total: nat, active: nat, high: nat, medium: nat, low: nat, rate: real)

  /** The parts of the retention analysis the summary reads. */
  datatype RetentionData = RetentionData(
    analysis: Table<Retention.Assessment>,
    tiers: Retention.Tiers,
    rates: Table<Retention.RetentionRow>)

  datatype Summary = Summary(
    period: string,
    metrics: KeyMetrics,
    breakdown: Breakdown,
    branches: Table<Performance>,
    products: Table<Performance>,
    staff: Table<StaffRow>,
    retention: RetentionMetrics,
    alerts: seq<Alert>,
    cross: Cross)

  function MetricsOf(t: Totals, rate: Rate): KeyMetrics
  {
    KeyMetrics(t.calls, t.hours, t.appointments, t.deals, t.approved, t.rejected, rate)
  }

  function BreakdownOf(t: Totals): Breakdown
  {
    Breakdown(t.approved, t.rejected, t.deals - t.approved - t.rejected, t.deals)
  }

  /** The workers whose activity rate is above the threshold (`filter(...).length`). */
  function ActiveStaffCount(keys: seq<string>, analysis: map<string, Retention.Assessment>, threshold: real): (n: nat)
    requires forall k :: k in keys ==> k in analysis
    ensures n <= |keys|
  {
    if keys == [] then 0
    else ActiveStaffCount(keys[..|keys| - 1], analysis, threshold) + (if analysis[keys[|keys| - 1]].activityRate > threshold then 1 else 0)
  }

  /** The month's retention rate, 0 when the month has no retention row. */
  function RetentionRateOf(rd: RetentionData, month: string): real
  {
    if month in rd.rates.vals then rd.rates.vals[month].rate else 0.0
  }

  function RetentionMetricsOf(rd: RetentionData, month: string, root: Json): RetentionMetrics
    requires rd.analysis.Valid()
  {
    RetentionMetrics(
      |rd.analysis.keys|,
      ActiveStaffCount(rd.analysis.keys, rd.analysis.vals, Retention.SettingsOf(root).activityRateThreshold),
      |rd.tiers.high|, |rd.tiers.medium|, |rd.tiers.low|,
      RetentionRateOf(rd, month))
  }

  /** `generateMonthlySummary`: nothing when the month has no data. */
  function SummaryOf(monthly: Table<MonthData>, rd: RetentionData, month: string, root: Json): Option<Summary>
    requires TablesValid(monthly) && rd.analysis.Valid()
  {
    if month !in monthly.vals then None
    else
      var m := monthly.vals[month];
      var rm := RetentionMetricsOf(rd, month, root);
      Some(Summary(
        month,
        MetricsOf(m.summary, m.rate),
        BreakdownOf(m.summary),
        MapValues(m.branches, BranchPerformance),
        MapValues(m.products, ProductPerformance),
        TopStaff(m, TopCount(root)),
        rm,
        AlertsOf(m.rate, rm.high, rm.rate, AlertThresholdsOf(root)),
        CrossAnalysisOf(monthly, month)))
  }

  lemma StaffRowsNext(keys: seq<string>, staff: map<string, StaffData>, i: nat)
    requires i < |keys| && forall k :: k in keys ==> k in staff
    ensures StaffRows(keys[..i + 1], staff) == StaffRows(keys[..i], staff) + [RowOf(keys[i], staff[keys[i]])]
  {
    assert keys[..i + 1][..i] == keys[..i];
  }

  /** The `staffArray` loop: one row per worker, pushed in key order. */
  method StaffArray(staff: Table<StaffData>) returns (rows: seq<StaffRow>)
    requires staff.Valid()
    ensures rows == StaffRows(staff.keys, staff.vals)
  {
    var keys := staff.keys;
    rows := [];
    var i := 0;
    while i < |keys|
      invariant 0 <= i <= |keys|
      invariant rows == StaffRows(keys[..i], staff.vals)
    {
      StaffRowsNext(keys, staff.vals, i);
      rows := rows + [RowOf(keys[i], staff.vals[keys[i]])];
      i := i + 1;
    }
    assert keys[..i] == keys;
  }

  /** The alerts pushed one check after the other. */
  method MonthAlerts(rate: Rate, highRisk: nat, retentionRate: real, t: AlertThresholds) returns (alerts: seq<Alert>)
    ensures alerts == AlertsOf(rate, highRisk, retentionRate, t)
  {
    alerts := [];
    alerts := alerts + BelowAlert(ApprovalAlert, RateValue(rate), t.approvalCritical, t.approvalWarning);
    alerts := alerts + AtLeastAlert(HighRiskAlert, highRisk as real, t.highRiskCritical, t.highRiskWarning);
    alerts := alerts + BelowAlert(RetentionAlert, Some(retentionRate), t.retentionCritical, t.retentionWarning);
  }

  /** The summary as the code builds it: the staff array pushed row by row, sorted and cut, then the alerts and the cross analysis. */
  method MonthlySummary(monthly: Table<MonthData>, rd: RetentionData, month: string, root: Json) returns (r: Option<Summary>)
    requires TablesValid(monthly) && rd.analysis.Valid()
    ensures r == SummaryOf(monthly, rd, month, root)
  {
    if month !in monthly.vals {
      return None;
    }
    var m := monthly.vals[month];
    var rows := StaffArray(m.staff);
    var sorted := SortByCalls(rows);
    var top := RowsByName(sorted[..SliceEnd(TopCount(root), |sorted|)]);
    assert top == TopStaff(m, TopCount(root));
    var rm := RetentionMetricsOf(rd, month, root);
    var alerts := MonthAlerts(m.rate, rm.high, rm.rate, AlertThresholdsOf(root));
    var cross := CrossAnalysis(monthly, month);
    r := Some(Summary(month, MetricsOf(m.summary, m.rate), BreakdownOf(m.summary),
      MapValues(m.branches, BranchPerformance), MapValues(m.products, ProductPerformance),
      top, rm, alerts, cross));
  }

  /** In a consistent month the deal breakdown adds up: approved, rejected and pending partition the deals. */
  lemma SummaryBreakdown(monthly: Table<MonthData>, rd: RetentionData, month: string, root: Json)
    requires TablesValid(monthly) && AllMonthsOk(monthly) && rd.analysis.Valid() && month in monthly.vals
    ensures SummaryOf(monthly, rd, month, root).Some?
    ensures var b := SummaryOf(monthly, rd, month, root).value.breakdown;
      b.pending >= 0 && b.approved + b.rejected + b.pending == b.total &&
      b.total == monthly.vals[month].summary.deals
  {
    assert MonthOk(monthly.vals[month]);
  }

  /**
    When the risk lists come from the risk pass over the same analysis,
    the three risk counts add up to the number of workers, and the active
    workers are among them.
  */
  lemma SummaryRiskCounts(rd: RetentionData, month: string, root: Json)
    requires rd.analysis.Valid()
    requires rd.tiers == Retention.TiersOf(rd.analysis.keys, rd.analysis.vals)
    ensures var rm := RetentionMetricsOf(rd, month, root);
      rm.high + rm.medium + rm.low == rm.total && rm.active <= rm.total
  {
    Retention.TiersPartition(rd.analysis.keys, rd.analysis.vals);
  }
}

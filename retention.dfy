/**
  The retention and churn-risk engine of generateJson.js: per-worker monthly
  activity histories built from the daily reports, five weighted risk
  factors, the high / medium / low tiers, the monthly retention rate and the
  per-branch rollup. Risk weights and thresholds are read from the
  configuration tree with the code's own defaults.
*/
module Retention {
  import opened Common
  import opened Dates
  import opened Cells
  import opened Tables
  import opened Sheets
  import opened ConfigTree
  import Rollup

  // ---------------------------------------------------------------------
  // Settings read from the configuration
  // ---------------------------------------------------------------------

  datatype RiskSettings = RiskSettings(
    lowActivityWeight: real,
    recentInactivityWeight: real,
    lowPerformanceWeight: real,
    shortTenureWeight: real,
    unstableWeight: real,
    activityRateThreshold: real,
    recentDaysThreshold: real,
    appointmentRateThreshold: real,
    shortTenureMonths: real,
    minDaysShortTenure: real,
    varianceThreshold: real,
    highRisk: real,
    mediumRisk: real)

  /** `section.name || fallback`: a configured number other than 0, else the code's default. */
  function Setting(section: Json, name: string, fallback: real): real
  {
    var v := GetPath(section, [name]);
    if v.JNum? && v.x != 0.0 then v.x else fallback
  }

  const WeightsPath: seq<string> := ["risk_scoring", "weights"]
  const FactorsPath: seq<string> := ["risk_scoring", "factors"]
  const ThresholdsPath: seq<string> := ["risk_scoring", "thresholds"]

  function WeightSettings(w: Json, f: Json, t: Json): RiskSettings
  {
    RiskSettings(
      Setting(w, "low_activity_rate", 30.0),
      Setting(w, "recent_inactivity", 25.0),
      Setting(w, "low_performance", 20.0),
      Setting(w, "short_tenure_low_activity", 15.0),
      Setting(w, "unstable_activity", 10.0),
      Setting(f, "activity_rate_threshold", 50.0),
      Setting(f, "recent_activity_days_threshold", 5.0),
      Setting(f, "appointment_rate_threshold", 2.0),
      Setting(f, "short_tenure_months", 3.0),
      Setting(f, "min_activity_days_short_tenure", 10.0),
      Setting(f, "activity_variance_threshold", 10.0),
      Setting(t, "high_risk", 50.0),
      Setting(t, "medium_risk", 30.0))
  }

  /**
    The settings the engine uses: `getConfig('risk_scoring.weights') || {}`
    and its two siblings, each field then defaulted with `||`.
  */
  function SettingsOf(root: Json): RiskSettings
  {
    WeightSettings(GetPath(root, WeightsPath), GetPath(root, FactorsPath), GetPath(root, ThresholdsPath))
  }

  /** The defaults written in the code, used for every setting that is absent, null or 0. */
  const CodeDefaults: RiskSettings :=
    RiskSettings(30.0, 25.0, 20.0, 15.0, 10.0, 50.0, 5.0, 2.0, 3.0, 10.0, 10.0, 50.0, 30.0)

  /** A configured 0 falls back to the code's default, because the code reads settings with `||`. */
  lemma ZeroSettingFallsBack(section: Json, name: string, fallback: real)
    requires GetPath(section, [name]) == JNum(0.0)
    ensures Setting(section, name, fallback) == fallback
  {
  }

  /** A configuration without a `risk_scoring` object gets the code's defaults throughout. */
  lemma NoRiskScoringUsesDefaults(root: Json)
    requires !GetPath(root, ["risk_scoring"]).JObj?
    ensures SettingsOf(root) == CodeDefaults
  {
    GetPathAppend(root, ["risk_scoring"], ["weights"]);
    GetPathAppend(root, ["risk_scoring"], ["factors"]);
    GetPathAppend(root, ["risk_scoring"], ["thresholds"]);
    assert ["risk_scoring"] + ["weights"] == WeightsPath;
    assert ["risk_scoring"] + ["factors"] == FactorsPath;
    assert ["risk_scoring"] + ["thresholds"] == ThresholdsPath;
  }

  /** The shipped weights replace the code's defaults (50/10/40/15/10 instead of 30/25/20/15/10). */
  lemma ShippedSettings()
    ensures SettingsOf(DefaultConfig()) ==
      RiskSettings(50.0, 10.0, 40.0, 15.0, 10.0, 50.0, 5.0, 2.0, 3.0, 10.0, 10.0, 50.0, 30.0)
  {
    ShippedWeightsSection();
    ShippedFactorsSection();
    ShippedThresholdsSection();
    SettingsFromSections(DefaultConfig(), WeightsDefault(), FactorsDefault(), ThresholdsDefault());
    ShippedSectionSettings();
  }

  lemma SettingsFromSections(root: Json, w: Json, f: Json, t: Json)
    requires GetPath(root, WeightsPath) == w
    requires GetPath(root, FactorsPath) == f
    requires GetPath(root, ThresholdsPath) == t
    ensures SettingsOf(root) == WeightSettings(w, f, t)
  {
  }

  lemma ShippedSectionSettings()
    ensures WeightSettings(WeightsDefault(), FactorsDefault(), ThresholdsDefault()) ==
      RiskSettings(50.0, 10.0, 40.0, 15.0, 10.0, 50.0, 5.0, 2.0, 3.0, 10.0, 10.0, 50.0, 30.0)
  {
    ShippedWeights();
    ShippedFactors();
    ShippedThresholds();
    SettingsOfValues(WeightsDefault(), FactorsDefault(), ThresholdsDefault());
  }

  lemma SettingsOfValues(w: Json, f: Json, t: Json)
    requires Setting(w, "low_activity_rate", 30.0) == 50.0
    requires Setting(w, "recent_inactivity", 25.0) == 10.0
    requires Setting(w, "low_performance", 20.0) == 40.0
    requires Setting(w, "short_tenure_low_activity", 15.0) == 15.0
    requires Setting(w, "unstable_activity", 10.0) == 10.0
    requires Setting(f, "activity_rate_threshold", 50.0) == 50.0
    requires Setting(f, "recent_activity_days_threshold", 5.0) == 5.0
    requires Setting(f, "appointment_rate_threshold", 2.0) == 2.0
    requires Setting(f, "short_tenure_months", 3.0) == 3.0
    requires Setting(f, "min_activity_days_short_tenure", 10.0) == 10.0
    requires Setting(f, "activity_variance_threshold", 10.0) == 10.0
    requires Setting(t, "high_risk", 50.0) == 50.0
    requires Setting(t, "medium_risk", 30.0) == 30.0
    ensures WeightSettings(w, f, t) ==
      RiskSettings(50.0, 10.0, 40.0, 15.0, 10.0, 50.0, 5.0, 2.0, 3.0, 10.0, 10.0, 50.0, 30.0)
  {
  }

  lemma ShippedRiskScoring()
    ensures DefaultConfig().JObj? && "risk_scoring" in DefaultConfig().fields.vals
    ensures DefaultConfig().fields.vals["risk_scoring"] == RiskScoringDefault()
  {
  }

  lemma ShippedWeightsSection()
    ensures GetPath(DefaultConfig(), WeightsPath) == WeightsDefault()
  {
    ShippedRiskScoring();
    assert Walk(RiskScoringDefault(), ["weights"]) == Some(WeightsDefault());
  }

  lemma ShippedFactorsSection()
    ensures GetPath(DefaultConfig(), FactorsPath) == FactorsDefault()
  {
    ShippedRiskScoring();
    assert Walk(RiskScoringDefault(), ["factors"]) == Some(FactorsDefault());
  }

  lemma ShippedThresholdsSection()
    ensures GetPath(DefaultConfig(), ThresholdsPath) == ThresholdsDefault()
  {
    ShippedRiskScoring();
    assert Walk(RiskScoringDefault(), ["thresholds"]) == Some(ThresholdsDefault());
  }

  lemma ShippedWeights()
    ensures var w := WeightsDefault();
      && Setting(w, "low_activity_rate", 30.0) == 50.0
      && Setting(w, "recent_inactivity", 25.0) == 10.0
      && Setting(w, "low_performance", 20.0) == 40.0
      && Setting(w, "short_tenure_low_activity", 15.0) == 15.0
      && Setting(w, "unstable_activity", 10.0) == 10.0
  {
  }

  lemma ShippedFactors()
    ensures var f := FactorsDefault();
      && Setting(f, "activity_rate_threshold", 50.0) == 50.0
      && Setting(f, "recent_activity_days_threshold", 5.0) == 5.0
      && Setting(f, "appointment_rate_threshold", 2.0) == 2.0
      && Setting(f, "short_tenure_months", 3.0) == 3.0
      && Setting(f, "min_activity_days_short_tenure", 10.0) == 10.0
      && Setting(f, "activity_variance_threshold", 10.0) == 10.0
  {
  }

  lemma ShippedThresholds()
    ensures var t := ThresholdsDefault();
      && Setting(t, "high_risk", 50.0) == 50.0
      && Setting(t, "medium_risk", 30.0) == 30.0
  {
  }

  // ---------------------------------------------------------------------
  // Activity histories
  // ---------------------------------------------------------------------

  datatype MonthActivity = MonthActivity(days: nat, calls: real, hours: real, appointments: real)

  /** One worker's history: identity from the first report, dates of the first and last report, months and totals. */
  datatype History = History(
    name: Cell,
    branch: Cell,
    join: Option<Date>,
    first: Date,
    last: Date,
    months: Table<MonthActivity>,
    days: nat,
    calls: real,
    hours: real,
    appointments: real)

  /** All histories keyed by `String(staff)`, and every month seen, in first-seen order (a JavaScript `Set`). */
  datatype Histories = Histories(staff: Table<History>, allMonths: seq<string>)

  /** A report enters the histories only when it has an author and a date. */
  predicate Counted(r: DailyRecord)
  {
    Truthy(r.staff) && r.date.Some?
  }

  /** The month key of a report (`"null"` if it had none, which a dated retention report never has). */
  function MonthOf(r: DailyRecord): string
  {
    if r.month.Some? then r.month.value else "null"
  }

  function NewHistory(r: DailyRecord): History
    requires r.date.Some?
  {
    History(r.staff, r.branch, r.join, r.date.value, r.date.value, Empty(), 0, 0.0, 0.0, 0.0)
  }

  /** One more active day in a month, with the main product's calls, hours and appointments. */
  function AddMonth(t: Table<MonthActivity>, month: string, a: Activity): (r: Table<MonthActivity>)
    requires t.Valid()
    ensures r.Valid()
  {
    Put(t, month, AddedDay(MonthBefore(t, month), a))
  }

  /** A report added to its author's history; the last-activity date becomes the report's date. */
  function Record(h: History, r: DailyRecord): (h': History)
    requires h.months.Valid() && r.date.Some?
    ensures h'.months.Valid()
  {
    History(h.name, h.branch, h.join, h.first, r.date.value, AddMonth(h.months, MonthOf(r), r.main),
            h.days + 1, h.calls + r.main.calls, h.hours + r.main.hours, h.appointments + r.main.appointments)
  }

  ghost predicate HistoriesValid(hs: Histories)
  {
    hs.staff.Valid() && forall k :: k in hs.staff.vals ==> hs.staff.vals[k].months.Valid()
  }

  /** One step of the history fold. */
  function HistoryStep(hs: Histories, r: DailyRecord): (r': Histories)
    requires HistoriesValid(hs)
    ensures HistoriesValid(r')
  {
    if !Counted(r) then hs
    else
      Histories(Put(hs.staff, Key(r.staff), Record(Current(hs, r), r)), AddMonthKey(hs.allMonths, MonthOf(r)))
  }

  /** The author's history so far, or a fresh one started from this report. */
  function Current(hs: Histories, r: DailyRecord): History
    requires r.date.Some?
  {
    if Key(r.staff) in hs.staff.vals then hs.staff.vals[Key(r.staff)] else NewHistory(r)
  }

  /** `allMonths.add(month)`. */
  function AddMonthKey(months: seq<string>, month: string): seq<string>
  {
    if month in months then months else months + [month]
  }

  function FoldHistories(records: seq<DailyRecord>): (hs: Histories)
    ensures HistoriesValid(hs)
  {
    if records == [] then Histories(Empty(), [])
    else HistoryStep(FoldHistories(records[..|records| - 1]), records[|records| - 1])
  }

  /** The history fold over the daily reports, in sheet order. */
  method BuildHistories(records: seq<DailyRecord>) returns (hs: Histories)
    ensures hs == FoldHistories(records)
  {
    hs := Histories(Empty(), []);
    var i := 0;
    while i < |records|
      invariant 0 <= i <= |records|
      invariant hs == FoldHistories(records[..i])
    {
      assert records[..i + 1][..i] == records[..i];
      hs := HistoryStep(hs, records[i]);
      i := i + 1;
    }
    assert records[..i] == records;
  }

  function MonthDays(m: MonthActivity): real { m.days as real }
  function MonthCalls(m: MonthActivity): real { m.calls }
  function MonthHours(m: MonthActivity): real { m.hours }
  function MonthAppointments(m: MonthActivity): real { m.appointments }

  /** A history's totals are the sums of its months, and every listed month has an active day. */
  ghost predicate Totalled(h: History)
  {
    && h.months.Valid()
    && (forall m :: m in h.months.vals ==> h.months.vals[m].days >= 1)
    && Sum(h.months, MonthDays) == h.days as real
    && Sum(h.months, MonthCalls) == h.calls
    && Sum(h.months, MonthHours) == h.hours
    && Sum(h.months, MonthAppointments) == h.appointments
  }

  ghost predicate HistoryOk(h: History)
  {
    Totalled(h) && |h.months.keys| >= 1
  }

  /** Every history is totalled, and every month of every history is among the months seen. */
  ghost predicate HistoriesOk(hs: Histories)
  {
    && HistoriesValid(hs)
    && Distinct(hs.allMonths)
    && forall k :: k in hs.staff.vals ==> StaffOk(hs.staff.vals[k], hs.allMonths)
  }

  /** A history is consistent with its months, and its months are among those seen. */
  ghost predicate StaffOk(h: History, allMonths: seq<string>)
  {
    HistoryOk(h) && forall m :: m in h.months.vals ==> m in allMonths
  }

  lemma StaffOkGrows(h: History, allMonths: seq<string>, month: string)
    requires StaffOk(h, allMonths)
    ensures StaffOk(h, AddMonthKey(allMonths, month))
  {
  }

  lemma RecordStaffOk(h: History, r: DailyRecord, allMonths: seq<string>)
    requires Totalled(h) && r.date.Some?
    requires forall m :: m in h.months.vals ==> m in allMonths
    ensures StaffOk(Record(h, r), AddMonthKey(allMonths, MonthOf(r)))
  {
    RecordOk(h, r);
    var months' := AddMonthKey(allMonths, MonthOf(r));
    forall m | m in Record(h, r).months.vals
      ensures m in months'
    {
      assert m == MonthOf(r) || m in h.months.vals;
    }
  }

  lemma AddMonthKeyDistinct(months: seq<string>, month: string)
    requires Distinct(months)
    ensures Distinct(AddMonthKey(months, month))
  {
  }

  /** A month with one more active day and one more report's figures. */
  function AddedDay(m: MonthActivity, a: Activity): MonthActivity
  {
    MonthActivity(m.days + 1, m.calls + a.calls, m.hours + a.hours, m.appointments + a.appointments)
  }

  /** The month an added report lands in, before it is added. */
  function MonthBefore(t: Table<MonthActivity>, month: string): MonthActivity
  {
    if month in t.vals then t.vals[month] else MonthActivity(0, 0.0, 0.0, 0.0)
  }

  lemma AddMonthDays(t: Table<MonthActivity>, month: string, a: Activity)
    requires t.Valid()
    ensures Sum(AddMonth(t, month, a), MonthDays) == Sum(t, MonthDays) + 1.0
  {
    SumPut(t, month, AddedDay(MonthBefore(t, month), a), MonthDays);
  }

  lemma AddMonthCalls(t: Table<MonthActivity>, month: string, a: Activity)
    requires t.Valid()
    ensures Sum(AddMonth(t, month, a), MonthCalls) == Sum(t, MonthCalls) + a.calls
  {
    SumPut(t, month, AddedDay(MonthBefore(t, month), a), MonthCalls);
  }

  lemma AddMonthHours(t: Table<MonthActivity>, month: string, a: Activity)
    requires t.Valid()
    ensures Sum(AddMonth(t, month, a), MonthHours) == Sum(t, MonthHours) + a.hours
  {
    SumPut(t, month, AddedDay(MonthBefore(t, month), a), MonthHours);
  }

  lemma AddMonthAppointments(t: Table<MonthActivity>, month: string, a: Activity)
    requires t.Valid()
    ensures Sum(AddMonth(t, month, a), MonthAppointments) == Sum(t, MonthAppointments) + a.appointments
  {
    SumPut(t, month, AddedDay(MonthBefore(t, month), a), MonthAppointments);
  }

  /** Recording a report keeps the totals equal to the month sums and leaves at least one month. */
  lemma RecordOk(h: History, r: DailyRecord)
    requires Totalled(h) && r.date.Some?
    ensures HistoryOk(Record(h, r))
    ensures MonthOf(r) in Record(h, r).months.vals
  {
    AddMonthDays(h.months, MonthOf(r), r.main);
    AddMonthCalls(h.months, MonthOf(r), r.main);
    AddMonthHours(h.months, MonthOf(r), r.main);
    AddMonthAppointments(h.months, MonthOf(r), r.main);
  }

  lemma NewHistoryTotalled(r: DailyRecord)
    requires r.date.Some?
    ensures Totalled(NewHistory(r))
  {
  }

  lemma HistoryStepOk(hs: Histories, r: DailyRecord)
    requires HistoriesOk(hs)
    ensures HistoriesOk(HistoryStep(hs, r))
  {
    if Counted(r) {
      var key := Key(r.staff);
      var h := Current(hs, r);
      if key !in hs.staff.vals {
        NewHistoryTotalled(r);
      }
      RecordStaffOk(h, r, hs.allMonths);
      AddMonthKeyDistinct(hs.allMonths, MonthOf(r));
      var r' := HistoryStep(hs, r);
      forall k | k in r'.staff.vals
        ensures StaffOk(r'.staff.vals[k], r'.allMonths)
      {
        if k != key {
          StaffOkGrows(hs.staff.vals[k], hs.allMonths, MonthOf(r));
        }
      }
    }
  }

  /** Days, summed over all workers. */
  function HistoryDays(h: History): real { h.days as real }

  function CountedReports(records: seq<DailyRecord>): nat
  {
    if records == [] then 0
    else CountedReports(records[..|records| - 1]) + (if Counted(records[|records| - 1]) then 1 else 0)
  }

  lemma HistoryStepDays(hs: Histories, r: DailyRecord)
    requires HistoriesValid(hs)
    ensures Sum(HistoryStep(hs, r).staff, HistoryDays) == Sum(hs.staff, HistoryDays) + (if Counted(r) then 1.0 else 0.0)
  {
    if Counted(r) {
      SumPut(hs.staff, Key(r.staff), Record(Current(hs, r), r), HistoryDays);
    }
  }

  /**
    The histories account for every report with an author and a date exactly
    once: the active days of all workers add up to the number of such reports,
    and every history is consistent with its months.
  */
  lemma {:induction false} FoldHistoriesOk(records: seq<DailyRecord>)
    ensures HistoriesOk(FoldHistories(records))
    ensures Sum(FoldHistories(records).staff, HistoryDays) == CountedReports(records) as real
  {
    if records != [] {
      var init := records[..|records| - 1];
      FoldHistoriesOk(init);
      HistoryStepOk(FoldHistories(init), records[|records| - 1]);
      HistoryStepDays(FoldHistories(init), records[|records| - 1]);
    }
  }

  /** Every worker's active months are among the months seen, so there are at most as many. */
  lemma ActiveMonthsBound(hs: Histories, k: string)
    requires HistoriesOk(hs) && k in hs.staff.vals
    ensures |hs.staff.vals[k].months.keys| <= |hs.allMonths|
  {
    var ks := hs.staff.vals[k].months.keys;
    assert forall m :: m in ks ==> m in hs.allMonths;
    DistinctSubset(ks, hs.allMonths);
  }

  lemma {:induction false} DistinctSubset(a: seq<string>, b: seq<string>)
    requires Distinct(a)
    requires forall x :: x in a ==> x in b
    ensures |a| <= |b|
  {
    if |a| > 0 {
      var x := a[|a| - 1];
      assert x in a;
      var i :| 0 <= i < |b| && b[i] == x;
      var b' := b[..i] + b[i + 1..];
      forall y | y in a[..|a| - 1]
        ensures y in b'
      {
        var j :| 0 <= j < |a| - 1 && a[j] == y;
        assert y != x;
        assert y in a;
        var l :| 0 <= l < |b| && b[l] == y;
        if l < i {
          assert b'[l] == y;
        } else {
          assert b'[l - 1] == y;
        }
      }
      DistinctSubset(a[..|a| - 1], b');
    }
  }

  // ---------------------------------------------------------------------
  // Measures of one worker
  // ---------------------------------------------------------------------

  /** `(active / all * 100).toFixed(2)` when any month was seen, else 0. */
  function ActivityRate(active: nat, all: nat): real
  {
    if all > 0 then Rollup.Round2(active as real / all as real * 100.0) else 0.0
  }

  lemma ActivityRateBounds(active: nat, all: nat)
    requires active <= all
    ensures 0.0 <= ActivityRate(active, all) <= 100.0
  {
    if all > 0 {
      RatioAtMostOne(active as real, all as real);
      Rollup.Round2Bounds(active as real / all as real * 100.0);
    }
  }

  lemma RatioAtMostOne(a: real, b: real)
    requires 0.0 <= a <= b && b > 0.0
    ensures 0.0 <= a / b <= 1.0
  {
  }

  /** `(days / active).toFixed(2)` when the worker has a month, else 0. */
  function AverageDays(days: nat, active: nat): real
  {
    if active > 0 then Rollup.Round2(days as real / active as real) else 0.0
  }

  /** `.slice(-3)`: the last three elements, or all of them when there are fewer. */
  function LastThree(s: seq<string>): (r: seq<string>)
    ensures |r| == if |s| <= 3 then |s| else 3
    ensures r == s[|s| - |r|..]
  {
    if |s| <= 3 then s else s[|s| - 3..]
  }

  /** The three latest month keys of a history (`Object.keys(months).sort().slice(-3)`). */
  function RecentMonths(h: History): seq<string>
  {
    LastThree(SortStrings(h.months.keys))
  }

  function DaysIn(months: seq<string>, t: Table<MonthActivity>): nat
  {
    if months == [] then 0
    else DaysIn(months[..|months| - 1], t) + (var m := months[|months| - 1]; if m in t.vals then t.vals[m].days else 0)
  }

  function RecentDays(h: History): nat
  {
    DaysIn(RecentMonths(h), h.months)
  }

  /** The recent months are the latest ones: every other month of the worker is strictly earlier than each of them. */
  lemma RecentAreLatest(h: History)
    requires h.months.Valid()
    ensures |RecentMonths(h)| == if |h.months.keys| <= 3 then |h.months.keys| else 3
    ensures forall m :: m in RecentMonths(h) ==> m in h.months.vals
    ensures forall m, m' :: m in h.months.vals && m !in RecentMonths(h) && m' in RecentMonths(h) ==> LexLess(m, m')
  {
    var s := SortStrings(h.months.keys);
    SortStringsStrict(h.months.keys);
    SameMembers(h.months.keys, s);
    SuffixIsLatest(s, |RecentMonths(h)|);
  }

  lemma SameMembers(a: seq<string>, b: seq<string>)
    requires multiset(a) == multiset(b)
    ensures forall m :: m in a <==> m in b
  {
    forall m
      ensures m in a <==> m in b
    {
      assert m in a <==> m in multiset(a);
      assert m in b <==> m in multiset(b);
    }
  }

  lemma SuffixIsLatest(s: seq<string>, n: nat)
    requires n <= |s|
    requires forall i, j :: 0 <= i < j < |s| ==> LexLess(s[i], s[j])
    ensures forall m, m' :: m in s && m !in s[|s| - n..] && m' in s[|s| - n..] ==> LexLess(m, m')
  {
    var r := s[|s| - n..];
    forall m, m' | m in s && m !in r && m' in r
      ensures LexLess(m, m')
    {
      var i :| 0 <= i < |s| && s[i] == m;
      var j :| 0 <= j < |r| && r[j] == m';
      assert s[|s| - n + j] == m';
      if i >= |s| - n {
        assert r[i - (|s| - n)] == m;
      }
    }
  }

  /** `total_calls > 0 ? appointments / calls * 100 : 0`. */
  function AppointmentRate(calls: real, appointments: real): real
  {
    if calls > 0.0 then appointments / calls * 100.0 else 0.0
  }

  /** The active days of each month, in key order. */
  function DaysList(keys: seq<string>, t: Table<MonthActivity>): (ds: seq<nat>)
    ensures |ds| == |keys|
  {
    if keys == [] then []
    else DaysList(keys[..|keys| - 1], t) + [var m := keys[|keys| - 1]; if m in t.vals then t.vals[m].days else 0]
  }

  // ---------------------------------------------------------------------
  // Variance of the monthly active days
  // ---------------------------------------------------------------------

  function SumOf(ds: seq<nat>): real
  {
    if ds == [] then 0.0 else SumOf(ds[..|ds| - 1]) + ds[|ds| - 1] as real
  }

  function Deviation(ds: seq<nat>, mean: real): real
  {
    if ds == [] then 0.0
    else Deviation(ds[..|ds| - 1], mean) + (ds[|ds| - 1] as real - mean) * (ds[|ds| - 1] as real - mean)
  }

  function Mean(ds: seq<nat>): real
    requires |ds| > 0
  {
    SumOf(ds) / |ds| as real
  }

  /** The population variance the code computes, and 0 for fewer than two months. */
  function Variance(ds: seq<nat>): real
  {
    if |ds| > 1 then Deviation(ds, Mean(ds)) / |ds| as real else 0.0
  }

  lemma SquareNonNegative(x: real)
    ensures x * x >= 0.0
  {
  }

  lemma QuotientNonNegative(x: real, n: real)
    requires x >= 0.0 && n > 0.0
    ensures x / n >= 0.0
  {
  }

  lemma {:induction false} DeviationNonNegative(ds: seq<nat>, a: real)
    ensures Deviation(ds, a) >= 0.0
  {
    if ds != [] {
      DeviationNonNegative(ds[..|ds| - 1], a);
      SquareNonNegative(ds[|ds| - 1] as real - a);
    }
  }

  /** The variance is never negative, so a negative threshold marks every worker with two or more months unstable. */
  lemma VarianceNonNegative(ds: seq<nat>)
    ensures Variance(ds) >= 0.0
  {
    if |ds| > 1 {
      DeviationNonNegative(ds, Mean(ds));
      QuotientNonNegative(Deviation(ds, Mean(ds)), |ds| as real);
    }
  }

  lemma {:induction false} ConstantSum(ds: seq<nat>, d: nat)
    requires forall i :: 0 <= i < |ds| ==> ds[i] == d
    ensures SumOf(ds) == (|ds| as real) * (d as real)
  {
    if ds != [] {
      ConstantSum(ds[..|ds| - 1], d);
      assert (|ds| as real) * (d as real) == ((|ds| - 1) as real) * (d as real) + d as real;
    }
  }

  lemma {:induction false} ConstantDeviation(ds: seq<nat>, d: nat)
    requires forall i :: 0 <= i < |ds| ==> ds[i] == d
    ensures Deviation(ds, d as real) == 0.0
  {
    if ds != [] {
      ConstantDeviation(ds[..|ds| - 1], d);
    }
  }

  lemma CancelCount(n: real, x: real, m: real)
    requires n > 0.0 && m == (n * x) / n
    ensures m == x
  {
  }

  /** Equal activity in every month has mean equal to that activity and variance 0, so it never counts as unstable for a non-negative threshold. */
  lemma ConstantDaysStable(ds: seq<nat>, d: nat)
    requires |ds| > 1
    requires forall i :: 0 <= i < |ds| ==> ds[i] == d
    ensures Mean(ds) == d as real
    ensures Variance(ds) == 0.0
  {
    ConstantSum(ds, d);
    CancelCount(|ds| as real, d as real, Mean(ds));
    ConstantDeviation(ds, d);
  }

  // ---------------------------------------------------------------------
  // Risk factors, score and tier
  // ---------------------------------------------------------------------

  datatype Factors = Factors(
    lowActivity: bool,
    recentInactivity: bool,
    lowPerformance: bool,
    shortTenure: bool,
    unstable: bool)

  datatype Level = High | Medium | Low

  /** The five factor tests of one worker, given how many months were seen overall. */
  function FactorsOf(h: History, allMonths: nat, s: RiskSettings): Factors
  {
    Factors(
      ActivityRate(|h.months.keys|, allMonths) < s.activityRateThreshold,
      (RecentDays(h) as real) < s.recentDaysThreshold,
      AppointmentRate(h.calls, h.appointments) < s.appointmentRateThreshold,
      (MonthsBetween(h.join, Some(h.last)) as real) < s.shortTenureMonths && (h.days as real) < s.minDaysShortTenure,
      Variance(DaysList(h.months.keys, h.months)) > s.varianceThreshold)
  }

  /** The weight a factor adds when it fires. */
  function Weight(fired: bool, w: real): real
  {
    if fired then w else 0.0
  }

  /** `riskScore`: the weights of the factors that fire, added up. */
  function Score(f: Factors, s: RiskSettings): real
  {
    Weight(f.lowActivity, s.lowActivityWeight) + Weight(f.recentInactivity, s.recentInactivityWeight)
    + Weight(f.lowPerformance, s.lowPerformanceWeight) + Weight(f.shortTenure, s.shortTenureWeight)
    + Weight(f.unstable, s.unstableWeight)
  }

  predicate WeightsPositive(s: RiskSettings)
  {
    s.lowActivityWeight > 0.0 && s.recentInactivityWeight > 0.0 && s.lowPerformanceWeight > 0.0
    && s.shortTenureWeight > 0.0 && s.unstableWeight > 0.0
  }

  function AllWeights(s: RiskSettings): real
  {
    s.lowActivityWeight + s.recentInactivityWeight + s.lowPerformanceWeight + s.shortTenureWeight + s.unstableWeight
  }

  predicate NoneFired(f: Factors)
  {
    !f.lowActivity && !f.recentInactivity && !f.lowPerformance && !f.shortTenure && !f.unstable
  }

  /** Every factor of `f` also fires in `g`. */
  predicate FiredWithin(f: Factors, g: Factors)
  {
    (f.lowActivity ==> g.lowActivity) && (f.recentInactivity ==> g.recentInactivity)
    && (f.lowPerformance ==> g.lowPerformance) && (f.shortTenure ==> g.shortTenure) && (f.unstable ==> g.unstable)
  }

  /** With positive weights the score lies between 0 and the sum of all weights, and is 0 exactly when no factor fires. */
  lemma ScoreBounds(f: Factors, s: RiskSettings)
    requires WeightsPositive(s)
    ensures 0.0 <= Score(f, s) <= AllWeights(s)
    ensures Score(f, s) == 0.0 <==> NoneFired(f)
  {
  }

  /** More fired factors never lower the score. */
  lemma ScoreMonotone(f: Factors, g: Factors, s: RiskSettings)
    requires WeightsPositive(s) && FiredWithin(f, g)
    ensures Score(f, s) <= Score(g, s)
  {
  }

  /** The tier of a score: high from `high_risk` up, medium from `medium_risk` up, low below. */
  function LevelOf(score: real, s: RiskSettings): (l: Level)
    ensures l == High <==> score >= s.highRisk
    ensures l == Medium <==> score < s.highRisk && score >= s.mediumRisk
    ensures l == Low <==> score < s.highRisk && score < s.mediumRisk
  {
    if score >= s.highRisk then High else if score >= s.mediumRisk then Medium else Low
  }

  /** With the shipped settings a worker whose only problem is a low activity rate is already high risk. */
  lemma ShippedLowActivityAloneIsHigh()
    ensures var s := SettingsOf(DefaultConfig());
      LevelOf(Score(Factors(true, false, false, false, false), s), s) == High
  {
    ShippedSettings();
  }

  /** What the engine reports for one worker. */
  datatype Assessment = Assessment(
    monthsSinceJoin: int,
    monthsSinceFirst: int,
    activeMonths: nat,
    days: nat,
    activityRate: real,
    averageDays: real,
    appointmentRate: real,
    factors: Factors,
    score: real,
    level: Level)

  function Assess(h: History, allMonths: nat, s: RiskSettings): (a: Assessment)
    ensures a.level == LevelOf(a.score, s)
    ensures a.score == Score(a.factors, s) && a.factors == FactorsOf(h, allMonths, s)
  {
    var f := FactorsOf(h, allMonths, s);
    var score := Score(f, s);
    Assessment(
      MonthsBetween(h.join, Some(h.last)),
      MonthsBetween(Some(h.first), Some(h.last)),
      |h.months.keys|,
      h.days,
      ActivityRate(|h.months.keys|, allMonths),
      AverageDays(h.days, |h.months.keys|),
      AppointmentRate(h.calls, h.appointments),
      f, score, LevelOf(score, s))
  }

  // ---------------------------------------------------------------------
  // The risk pass over all workers
  // ---------------------------------------------------------------------

  datatype Tiers = Tiers(high: seq<string>, medium: seq<string>, low: seq<string>)

  function Push(t: Tiers, name: string, l: Level): Tiers
  {
    match l
    case High => t.(high := t.high + [name])
    case Medium => t.(medium := t.medium + [name])
    case Low => t.(low := t.low + [name])
  }

  /** The three risk lists, names pushed in key order. */
  function TiersOf(keys: seq<string>, a: map<string, Assessment>): Tiers
    requires forall k :: k in keys ==> k in a
  {
    if keys == [] then Tiers([], [], [])
    else Push(TiersOf(keys[..|keys| - 1], a), keys[|keys| - 1], a[keys[|keys| - 1]].level)
  }

  /** Every worker appears in exactly one risk list, the one of its tier, and the lists hold nobody else. */
  lemma {:induction false} TiersPartition(keys: seq<string>, a: map<string, Assessment>)
    requires forall k :: k in keys ==> k in a
    ensures var t := TiersOf(keys, a);
      && (forall k :: k in keys ==> (k in t.high <==> a[k].level == High))
      && (forall k :: k in keys ==> (k in t.medium <==> a[k].level == Medium))
      && (forall k :: k in keys ==> (k in t.low <==> a[k].level == Low))
      && (forall k :: k in t.high || k in t.medium || k in t.low ==> k in keys)
      && |t.high| + |t.medium| + |t.low| == |keys|
  {
    if keys != [] {
      var init := keys[..|keys| - 1];
      var last := keys[|keys| - 1];
      TiersPartition(init, a);
      forall k | k in keys
        ensures k == last || k in init
      {
        var i :| 0 <= i < |keys| && keys[i] == k;
        if i < |keys| - 1 {
          assert init[i] == k;
        }
      }
    }
  }

  lemma TiersOfNext(keys: seq<string>, a: map<string, Assessment>, i: nat)
    requires i < |keys| && forall k :: k in keys ==> k in a
    ensures TiersOf(keys[..i + 1], a) == Push(TiersOf(keys[..i], a), keys[i], a[keys[i]].level)
  {
    assert keys[..i + 1][..i] == keys[..i];
  }

  function AssessAll(hs: Histories, s: RiskSettings): (t: Table<Assessment>)
    requires hs.staff.Valid()
    ensures t.Valid() && t.keys == hs.staff.keys
    ensures forall k :: k in hs.staff.vals ==> k in t.vals && t.vals[k] == Assess(hs.staff.vals[k], |hs.allMonths|, s)
  {
    MapValues(hs.staff, (h: History) => Assess(h, |hs.allMonths|, s))
  }

  /** The per-worker loop: every worker assessed and pushed onto the list of its tier. */
  method RiskPass(hs: Histories, s: RiskSettings) returns (analysis: Table<Assessment>, tiers: Tiers)
    requires hs.staff.Valid()
    ensures analysis == AssessAll(hs, s)
    ensures tiers == TiersOf(hs.staff.keys, analysis.vals)
  {
    analysis := AssessAll(hs, s);
    tiers := PushAll(analysis.keys, analysis.vals);
  }

  /** The pushes of the per-worker loop, in key order. */
  method PushAll(keys: seq<string>, a: map<string, Assessment>) returns (tiers: Tiers)
    requires forall k :: k in keys ==> k in a
    ensures tiers == TiersOf(keys, a)
  {
    tiers := Tiers([], [], []);
    var i := 0;
    while i < |keys|
      invariant 0 <= i <= |keys|
      invariant tiers == TiersOf(keys[..i], a)
    {
      TiersOfNext(keys, a, i);
      tiers := Push(tiers, keys[i], a[keys[i]].level);
      i := i + 1;
    }
    assert keys[..i] == keys;
  }

  // ---------------------------------------------------------------------
  // Monthly retention
  // ---------------------------------------------------------------------

  /** A worker counts for a month from the month of joining on, or always when no join date is known. */
  predicate Enrolled(h: History, month: string)
  {
    h.join.None? || LexLessEq(MonthKey(h.join).value, month)
  }

  predicate ActiveIn(h: History, month: string)
  {
    month in h.months.vals
  }

  function EnrolledCount(keys: seq<string>, staff: map<string, History>, month: string): nat
    requires forall k :: k in keys ==> k in staff
  {
    if keys == [] then 0
    else EnrolledCount(keys[..|keys| - 1], staff, month) + (if Enrolled(staff[keys[|keys| - 1]], month) then 1 else 0)
  }

  function ActiveCount(keys: seq<string>, staff: map<string, History>, month: string): nat
    requires forall k :: k in keys ==> k in staff
  {
    if keys == [] then 0
    else
      var h := staff[keys[|keys| - 1]];
      ActiveCount(keys[..|keys| - 1], staff, month) + (if Enrolled(h, month) && ActiveIn(h, month) then 1 else 0)
  }

  /** Active workers of a month are among the enrolled ones. */
  lemma {:induction false} ActiveWithinEnrolled(keys: seq<string>, staff: map<string, History>, month: string)
    requires forall k :: k in keys ==> k in staff
    ensures ActiveCount(keys, staff, month) <= EnrolledCount(keys, staff, month) <= |keys|
  {
    if keys != [] {
      ActiveWithinEnrolled(keys[..|keys| - 1], staff, month);
    }
  }

  datatype RetentionRow = RetentionRow(active: nat, total: nat, rate: real)

  function RowOf(active: nat, total: nat): RetentionRow
  {
    RetentionRow(active, total, if total > 0 then Rollup.Round2(active as real / total as real * 100.0) else 0.0)
  }

  function RetentionOf(hs: Histories, month: string): (row: RetentionRow)
    requires hs.staff.Valid()
  {
    RowOf(ActiveCount(hs.staff.keys, hs.staff.vals, month), EnrolledCount(hs.staff.keys, hs.staff.vals, month))
  }

  /** A month's retention rate is a percentage of the enrolled workers: active ≤ total ≤ workers, rate in [0, 100]. */
  lemma RetentionBounds(hs: Histories, month: string)
    requires hs.staff.Valid()
    ensures var row := RetentionOf(hs, month);
      row.active <= row.total <= |hs.staff.keys| && 0.0 <= row.rate <= 100.0
  {
    ActiveWithinEnrolled(hs.staff.keys, hs.staff.vals, month);
    RowBounds(ActiveCount(hs.staff.keys, hs.staff.vals, month), EnrolledCount(hs.staff.keys, hs.staff.vals, month));
  }

  lemma RowBounds(active: nat, total: nat)
    requires active <= total
    ensures 0.0 <= RowOf(active, total).rate <= 100.0
  {
    if total > 0 {
      RatioAtMostOne(active as real, total as real);
      Rollup.Round2Bounds(active as real / total as real * 100.0);
    }
  }

  function RetentionTable(hs: Histories, months: seq<string>): (t: Table<RetentionRow>)
    requires hs.staff.Valid()
    ensures t.Valid()
  {
    PutEach(months, (m: string) => RetentionOf(hs, m))
  }

  /** The monthly table lists the months seen, in ascending order, each with its own retention row. */
  lemma RetentionTableRows(hs: Histories, months: seq<string>)
    requires hs.staff.Valid() && Distinct(months)
    ensures RetentionTable(hs, months).keys == months
    ensures forall m :: m in months ==> RetentionTable(hs, months).vals[m] == RetentionOf(hs, m)
  {
    PutEachKeys(months, (m: string) => RetentionOf(hs, m));
    PutEachRows(months, (m: string) => RetentionOf(hs, m));
  }

  /** The loop over the workers for one month: how many are enrolled, and how many of those were active. */
  method CountMonth(hs: Histories, month: string) returns (row: RetentionRow)
    requires hs.staff.Valid()
    ensures row == RetentionOf(hs, month)
  {
    var keys := hs.staff.keys;
    var active, total := 0, 0;
    var j := 0;
    while j < |keys|
      invariant 0 <= j <= |keys|
      invariant total == EnrolledCount(keys[..j], hs.staff.vals, month)
      invariant active == ActiveCount(keys[..j], hs.staff.vals, month)
    {
      assert keys[..j + 1][..j] == keys[..j];
      var h := hs.staff.vals[keys[j]];
      if Enrolled(h, month) {
        total := total + 1;
        if ActiveIn(h, month) {
          active := active + 1;
        }
      }
      j := j + 1;
    }
    assert keys[..j] == keys;
    row := RowOf(active, total);
  }

  /** The month loop over the months seen, in ascending order. */
  method MonthlyRetention(hs: Histories) returns (rates: Table<RetentionRow>)
    requires hs.staff.Valid()
    ensures rates == RetentionTable(hs, SortStrings(hs.allMonths))
  {
    var sorted := SortStrings(hs.allMonths);
    rates := Empty();
    var i := 0;
    while i < |sorted|
      invariant 0 <= i <= |sorted|
      invariant rates == RetentionTable(hs, sorted[..i])
    {
      PutEachNext(sorted, (m: string) => RetentionOf(hs, m), i);
      var row := CountMonth(hs, sorted[i]);
      rates := Put(rates, sorted[i], row);
      i := i + 1;
    }
    assert sorted[..i] == sorted;
  }

  // ---------------------------------------------------------------------
  // Branch rollup
  // ---------------------------------------------------------------------

  const Unclassified: string := "未分類"

  datatype BranchStats = BranchStats(
    total: nat, active: nat, high: nat, medium: nat, low: nat, rateSum: real, scoreSum: real)

  /** `branch || "未分類"`, as an object key. */
  function BranchOf(h: History): string
  {
    if Truthy(h.branch) then Key(h.branch) else Unclassified
  }

  function AddWorker(b: BranchStats, a: Assessment): BranchStats
  {
    BranchStats(
      b.total + 1,
      b.active + (if a.activityRate > 50.0 then 1 else 0),
      b.high + (if a.level == High then 1 else 0),
      b.medium + (if a.level == Medium then 1 else 0),
      b.low + (if a.level == Low then 1 else 0),
      b.rateSum + a.activityRate,
      b.scoreSum + a.score)
  }

  function BranchStep(t: Table<BranchStats>, h: History, a: Assessment): (r: Table<BranchStats>)
    requires t.Valid()
    ensures r.Valid()
  {
    Put(t, BranchOf(h), AddWorker(BranchBefore(t, BranchOf(h)), a))
  }

  function BranchBefore(t: Table<BranchStats>, name: string): BranchStats
  {
    if name in t.vals then t.vals[name] else BranchStats(0, 0, 0, 0, 0, 0.0, 0.0)
  }

  function BranchFold(keys: seq<string>, staff: map<string, History>, analysis: map<string, Assessment>): (r: Table<BranchStats>)
    requires forall k :: k in keys ==> k in staff && k in analysis
    ensures r.Valid()
  {
    if keys == [] then Empty()
    else
      var k := keys[|keys| - 1];
      BranchStep(BranchFold(keys[..|keys| - 1], staff, analysis), staff[k], analysis[k])
  }

  lemma BranchFoldNext(keys: seq<string>, staff: map<string, History>, analysis: map<string, Assessment>, i: nat)
    requires i < |keys| && forall k :: k in keys ==> k in staff && k in analysis
    ensures BranchFold(keys[..i + 1], staff, analysis) ==
      BranchStep(BranchFold(keys[..i], staff, analysis), staff[keys[i]], analysis[keys[i]])
  {
    assert keys[..i + 1][..i] == keys[..i];
  }

  /** Each branch's tier counts add up to its workers, and its active workers are among them. */
  ghost predicate BranchOk(b: BranchStats)
  {
    b.high + b.medium + b.low == b.total && b.active <= b.total
  }

  function BranchTotal(b: BranchStats): real { b.total as real }

  lemma BranchBeforeOk(t: Table<BranchStats>, name: string)
    requires forall n :: n in t.vals ==> BranchOk(t.vals[n])
    ensures BranchOk(BranchBefore(t, name))
  {
  }

  /** Storing a consistent bucket under `name` keeps every bucket of the table consistent. */
  lemma PutKeepsOk(t: Table<BranchStats>, name: string, v: BranchStats)
    requires t.Valid() && forall n :: n in t.vals ==> BranchOk(t.vals[n])
    requires BranchOk(v)
    ensures forall n :: n in Put(t, name, v).vals ==> BranchOk(Put(t, name, v).vals[n])
  {
    var r := Put(t, name, v);
    forall n | n in r.vals
      ensures BranchOk(r.vals[n])
    {
      if n != name {
        assert n in t.vals && r.vals[n] == t.vals[n];
      }
    }
  }

  /** Counting one more worker into any bucket adds one to the sum of the bucket totals. */
  lemma BranchStepTotal(t: Table<BranchStats>, name: string, a: Assessment)
    requires t.Valid()
    ensures Sum(Put(t, name, AddWorker(BranchBefore(t, name), a)), BranchTotal) == Sum(t, BranchTotal) + 1.0
  {
    var b := BranchBefore(t, name);
    var r := Put(t, name, AddWorker(b, a));
    SumPut(t, name, AddWorker(b, a), BranchTotal);
    BranchBeforeTotal(t, name);
    AddWorkerTotal(b, a);
    var before := if name in t.vals then BranchTotal(t.vals[name]) else 0.0;
    OneMore(Sum(t, BranchTotal), Sum(r, BranchTotal), before, BranchTotal(b), BranchTotal(AddWorker(b, a)));
  }

  lemma AddWorkerTotal(b: BranchStats, a: Assessment)
    ensures BranchTotal(AddWorker(b, a)) == BranchTotal(b) + 1.0
  {
  }

  lemma OneMore(total: real, total': real, removed: real, was: real, now: real)
    requires total' == total - removed + now && removed == was && now == was + 1.0
    ensures total' == total + 1.0
  {
  }

  lemma BranchBeforeTotal(t: Table<BranchStats>, name: string)
    ensures (if name in t.vals then BranchTotal(t.vals[name]) else 0.0) == BranchTotal(BranchBefore(t, name))
  {
    if name !in t.vals {
      assert BranchBefore(t, name).total == 0;
    }
  }

  lemma AddWorkerOk(b: BranchStats, a: Assessment)
    requires BranchOk(b)
    ensures BranchOk(AddWorker(b, a))
  {
  }

  /** Every branch's tier counts add up to its workers, and its active workers are among them. */
  lemma {:induction false} BranchFoldOk(keys: seq<string>, staff: map<string, History>, analysis: map<string, Assessment>)
    requires forall k :: k in keys ==> k in staff && k in analysis
    ensures forall n :: n in BranchFold(keys, staff, analysis).vals ==> BranchOk(BranchFold(keys, staff, analysis).vals[n])
  {
    if keys != [] {
      var k := keys[|keys| - 1];
      BranchFoldOk(keys[..|keys| - 1], staff, analysis);
      var t := BranchFold(keys[..|keys| - 1], staff, analysis);
      var name := BranchOf(staff[k]);
      BranchBeforeOk(t, name);
      AddWorkerOk(BranchBefore(t, name), analysis[k]);
      PutKeepsOk(t, name, AddWorker(BranchBefore(t, name), analysis[k]));
    }
  }

  /** Every worker lands in exactly one branch: the branch totals add up to the number of workers. */
  lemma {:induction false} BranchFoldTotal(keys: seq<string>, staff: map<string, History>, analysis: map<string, Assessment>)
    requires forall k :: k in keys ==> k in staff && k in analysis
    ensures Sum(BranchFold(keys, staff, analysis), BranchTotal) == |keys| as real
  {
    if keys != [] {
      var k := keys[|keys| - 1];
      BranchFoldTotal(keys[..|keys| - 1], staff, analysis);
      BranchStepTotal(BranchFold(keys[..|keys| - 1], staff, analysis), BranchOf(staff[k]), analysis[k]);
    }
  }

  datatype BranchReport = BranchReport(stats: BranchStats, averageRate: real, averageScore: real)

  /** The averaging pass: `(sum / total).toFixed(2)` for a branch with workers. */
  function Averaged(b: BranchStats): BranchReport
  {
    if b.total > 0 then
      BranchReport(b, Rollup.Round2(b.rateSum / b.total as real), Rollup.Round2(b.scoreSum / b.total as real))
    else BranchReport(b, b.rateSum, b.scoreSum)
  }

  /** The branch loop over the workers in key order, then the averaging pass. */
  method BranchRollup(hs: Histories, analysis: Table<Assessment>) returns (branches: Table<BranchReport>)
    requires hs.staff.Valid() && forall k :: k in hs.staff.keys ==> k in analysis.vals
    ensures branches == MapValues(BranchFold(hs.staff.keys, hs.staff.vals, analysis.vals), Averaged)
  {
    var keys := hs.staff.keys;
    var t := Empty();
    var i := 0;
    while i < |keys|
      invariant 0 <= i <= |keys|
      invariant t == BranchFold(keys[..i], hs.staff.vals, analysis.vals)
    {
      BranchFoldNext(keys, hs.staff.vals, analysis.vals, i);
      t := BranchStep(t, hs.staff.vals[keys[i]], analysis.vals[keys[i]]);
      i := i + 1;
    }
    assert keys[..i] == keys;
    branches := MapValues(t, Averaged);
  }

  /** A branch's average activity rate is a percentage when every worker's rate is. */
  lemma AverageRateBounds(b: BranchStats)
    requires b.total > 0 && 0.0 <= b.rateSum <= 100.0 * b.total as real
    ensures 0.0 <= Averaged(b).averageRate <= 100.0
  {
    var q := b.rateSum / b.total as real;
    assert q * b.total as real == b.rateSum;
    Rollup.Round2Bounds(q);
  }

  // ---------------------------------------------------------------------
  // The fold as written reads fields the reports do not have
  // ---------------------------------------------------------------------

  /** A JavaScript number where it matters here: adding `undefined` gives NaN. */
  datatype JsNumber = Finite(x: real) | NaN

  /** `total += record.call_count` as written, `k` times from 0: the field is undefined on every report. */
  function UndefinedSum(k: nat): JsNumber
  {
    if k == 0 then Finite(0.0) else NaN
  }

  /** The appointment rate as written: `NaN > 0` is false, so the rate is 0. */
  function AppointmentRateAsWritten(calls: JsNumber, appointments: JsNumber): real
  {
    if calls.Finite? && calls.x > 0.0 && appointments.Finite? then appointments.x / calls.x * 100.0 else 0.0
  }

  /**
    As written, every worker with at least one report gets NaN call and
    appointment totals, a rate of 0 and the low-performance weight, whatever
    the reports say, as long as the threshold is positive (as its default 2 is).
  */
  lemma LowPerformanceAlwaysFiresAsWritten(h: History, s: RiskSettings)
    requires h.days >= 1 && s.appointmentRateThreshold > 0.0
    ensures AppointmentRateAsWritten(UndefinedSum(h.days), UndefinedSum(h.days)) < s.appointmentRateThreshold
  {
  }

  /** With the main product's fields, a worker with 100 calls and 5 appointments does not fire the factor. */
  lemma LowPerformanceFromMainProduct(s: RiskSettings)
    requires s == CodeDefaults
    ensures !(AppointmentRate(100.0, 5.0) < s.appointmentRateThreshold)
    ensures AppointmentRateAsWritten(UndefinedSum(1), UndefinedSum(1)) < s.appointmentRateThreshold
  {
  }
}

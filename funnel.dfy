/**
  The conversion funnel (`monthly_conversion`): per month, the appointments
  the staff reported in their daily reports, the deals entered in TAAAN and
  the approved deals, in total and by staff, branch and product, followed by
  the three null-safe ratios between them.
*/
module Funnel {
  import opened Common
  import opened Dates
  import opened Cells
  import opened Tables
  import opened Sheets
  import opened Rollup

  /** One funnel bucket: self-reported appointments, TAAAN entries, approved deals. */
  datatype Counts = Counts(appointments: real, entries: nat, approved: nat)

  const NoCounts: Counts := Counts(0.0, 0, 0)

  datatype Conversion = Conversion(total: Counts, byStaff: Table<Counts>, byBranch: Table<Counts>, byProduct: Table<Counts>)

  function NewConversion(): Conversion { Conversion(NoCounts, Empty(), Empty(), Empty()) }

  /** `x || '未設定'` used as an object key. */
  function KeyOr(c: Cell): string
  {
    if Truthy(c) then Key(c) else Unset
  }

  /** `main.get_appointment || 0` plus every sub-product's `get_appointment || 0`. */
  function ReportAppointments(r: DailyRecord): real
  {
    r.main.appointments + SumSubs(r.subs, ActivityAppointments)
  }

  function Bucket(t: Table<Counts>, k: string): Counts
  {
    if k in t.vals then t.vals[k] else NoCounts
  }

  /** Appointments added to a bucket. */
  function CountAppointments(c: Counts, x: real): (r: Counts)
    ensures r.appointments == c.appointments + x && r.entries == c.entries && r.approved == c.approved
  {
    c.(appointments := c.appointments + x)
  }

  /** A bucket, created at zero if needed, gains appointments. */
  function AddAppointments(t: Table<Counts>, k: string, x: real): (r: Table<Counts>)
    requires t.Valid()
    ensures r.Valid()
  {
    Put(t, k, CountAppointments(Bucket(t, k), x))
  }

  /** One TAAAN entry counted into a bucket: an approved deal also counts as approved. */
  function CountEntry(c: Counts, approved: bool): (r: Counts)
    ensures r.entries == c.entries + 1 && r.appointments == c.appointments
    ensures r.approved == c.approved + (if approved then 1 else 0)
  {
    c.(entries := c.entries + 1, approved := if approved then c.approved + 1 else c.approved)
  }

  function AddEntry(t: Table<Counts>, k: string, approved: bool): (r: Table<Counts>)
    requires t.Valid()
    ensures r.Valid()
  {
    Put(t, k, CountEntry(Bucket(t, k), approved))
  }

  /** A daily report's appointments go to the total and to one staff, one branch and one product bucket (`未設定` when blank). */
  function FunnelDaily(c: Conversion, r: DailyRecord): (c': Conversion)
    requires c.byStaff.Valid() && c.byBranch.Valid() && c.byProduct.Valid()
    ensures c'.byStaff.Valid() && c'.byBranch.Valid() && c'.byProduct.Valid()
  {
    var x := ReportAppointments(r);
    Conversion(
      CountAppointments(c.total, x),
      AddAppointments(c.byStaff, KeyOr(r.staff), x),
      AddAppointments(c.byBranch, KeyOr(r.branch), x),
      AddAppointments(c.byProduct, KeyOr(r.main.product), x))
  }

  /** The funnel branch of a deal: the listed branch of `String(deal.staff)` when it is truthy, else `未設定`. */
  function FunnelBranch(deal: Deal, staffMap: map<string, StaffEntry>): string
  {
    if Key(deal.staff) in staffMap && Truthy(staffMap[Key(deal.staff)].branch)
    then Key(staffMap[Key(deal.staff)].branch)
    else Unset
  }

  /** A deal is approved in the funnel exactly when its status is the text `承認`. */
  predicate FunnelApproved(deal: Deal)
  {
    deal.status == Text("承認")
  }

  /** A deal counts as one TAAAN entry in the total and in one staff, one branch and one product bucket. */
  function FunnelDeal(c: Conversion, deal: Deal, staffMap: map<string, StaffEntry>): (c': Conversion)
    requires c.byStaff.Valid() && c.byBranch.Valid() && c.byProduct.Valid()
    ensures c'.byStaff.Valid() && c'.byBranch.Valid() && c'.byProduct.Valid()
  {
    var a := FunnelApproved(deal);
    Conversion(
      CountEntry(c.total, a),
      AddEntry(c.byStaff, KeyOr(deal.staff), a),
      AddEntry(c.byBranch, FunnelBranch(deal, staffMap), a),
      AddEntry(c.byProduct, KeyOr(deal.product), a))
  }

  /** Every table of every month lists each key once. */
  ghost predicate ConversionTablesValid(conv: Table<Conversion>)
  {
    && conv.Valid()
    && forall k :: k in conv.vals ==>
         conv.vals[k].byStaff.Valid() && conv.vals[k].byBranch.Valid() && conv.vals[k].byProduct.Valid()
  }

  /** A daily report without a month is skipped; otherwise its month is created if needed. */
  function FunnelDailyStep(conv: Table<Conversion>, r: DailyRecord): (c: Table<Conversion>)
    requires ConversionTablesValid(conv)
    ensures ConversionTablesValid(c)
  {
    if r.month.None? then conv
    else
      var key := r.month.value;
      var c := FunnelDaily(if key in conv.vals then conv.vals[key] else NewConversion(), r);
      PutConversionValid(conv, key, c);
      Put(conv, key, c)
  }

  /** A deal without a month, or whose month has no funnel yet, is skipped. */
  function FunnelDealStep(conv: Table<Conversion>, deal: Deal, staffMap: map<string, StaffEntry>): (c: Table<Conversion>)
    requires ConversionTablesValid(conv)
    ensures ConversionTablesValid(c)
  {
    var month := MonthKey(deal.date);
    if month.None? || month.value !in conv.vals then conv
    else
      var c := FunnelDeal(conv.vals[month.value], deal, staffMap);
      PutConversionValid(conv, month.value, c);
      Put(conv, month.value, c)
  }

  lemma PutConversionValid(conv: Table<Conversion>, key: string, c: Conversion)
    requires ConversionTablesValid(conv)
    requires c.byStaff.Valid() && c.byBranch.Valid() && c.byProduct.Valid()
    ensures ConversionTablesValid(Put(conv, key, c))
  {
    var r := Put(conv, key, c);
    forall k | k in r.vals
      ensures r.vals[k].byStaff.Valid() && r.vals[k].byBranch.Valid() && r.vals[k].byProduct.Valid()
    {
      if k != key {
        assert r.vals[k] == conv.vals[k];
      }
    }
  }

  function FunnelDailyFold(daily: seq<DailyRecord>): (conv: Table<Conversion>)
    ensures ConversionTablesValid(conv)
  {
    if |daily| == 0 then Empty() else FunnelDailyStep(FunnelDailyFold(daily[..|daily| - 1]), daily[|daily| - 1])
  }

  function FunnelDealFold(conv: Table<Conversion>, deals: seq<Deal>, staffMap: map<string, StaffEntry>): (r: Table<Conversion>)
    requires ConversionTablesValid(conv)
    ensures ConversionTablesValid(r)
  {
    if |deals| == 0 then conv else FunnelDealStep(FunnelDealFold(conv, deals[..|deals| - 1], staffMap), deals[|deals| - 1], staffMap)
  }

  /** `daily.forEach(...)` of the funnel. */
  method FunnelDailyLoop(daily: seq<DailyRecord>) returns (conv: Table<Conversion>)
    ensures conv == FunnelDailyFold(daily)
  {
    conv := Empty();
    var i := 0;
    while i < |daily|
      invariant 0 <= i <= |daily|
      invariant conv == FunnelDailyFold(daily[..i])
    {
      assert daily[..i + 1][..i] == daily[..i];
      conv := FunnelDailyStep(conv, daily[i]);
      i := i + 1;
    }
    assert daily[..i] == daily;
  }

  /** `deals.forEach(...)` of the funnel. */
  method FunnelDealLoop(conv0: Table<Conversion>, deals: seq<Deal>, staffMap: map<string, StaffEntry>) returns (conv: Table<Conversion>)
    requires ConversionTablesValid(conv0)
    ensures conv == FunnelDealFold(conv0, deals, staffMap)
  {
    conv := conv0;
    var i := 0;
    while i < |deals|
      invariant 0 <= i <= |deals|
      invariant conv == FunnelDealFold(conv0, deals[..i], staffMap)
    {
      assert deals[..i + 1][..i] == deals[..i];
      conv := FunnelDealStep(conv, deals[i], staffMap);
      i := i + 1;
    }
    assert deals[..i] == deals;
  }

  // ---------------------------------------------------------------------
  // The funnel invariant: every breakdown adds up to the total
  // ---------------------------------------------------------------------

  function Appointments(c: Counts): real { c.appointments }
  function Entries(c: Counts): real { c.entries as real }
  function ApprovedDeals(c: Counts): real { c.approved as real }

  /** A breakdown table is sound against a total: no bucket approves more than it entered, and each measure adds up to the total. */
  ghost predicate BreakdownOk(t: Table<Counts>, total: Counts)
  {
    && t.Valid()
    && (forall k :: k in t.vals ==> t.vals[k].approved <= t.vals[k].entries)
    && Sum(t, Appointments) == total.appointments
    && Sum(t, Entries) == total.entries as real
    && Sum(t, ApprovedDeals) == total.approved as real
  }

  ghost predicate ConversionOk(c: Conversion)
  {
    && c.total.approved <= c.total.entries
    && BreakdownOk(c.byStaff, c.total) && BreakdownOk(c.byBranch, c.total) && BreakdownOk(c.byProduct, c.total)
  }

  ghost predicate AllConversionsOk(conv: Table<Conversion>)
  {
    conv.Valid() && forall k :: k in conv.vals ==> ConversionOk(conv.vals[k])
  }

  /** Replacing one bucket moves every measure's sum by the bucket's change. */
  lemma PutBucketOk(t: Table<Counts>, total: Counts, k: string, b: Counts, total': Counts)
    requires BreakdownOk(t, total)
    requires Bucket(t, k).approved <= Bucket(t, k).entries ==> b.approved <= b.entries
    requires total'.appointments == total.appointments - Bucket(t, k).appointments + b.appointments
    requires total'.entries as real == total.entries as real - Bucket(t, k).entries as real + b.entries as real
    requires total'.approved as real == total.approved as real - Bucket(t, k).approved as real + b.approved as real
    ensures BreakdownOk(Put(t, k, b), total')
  {
    SumPut(t, k, b, Appointments);
    SumPut(t, k, b, Entries);
    SumPut(t, k, b, ApprovedDeals);
  }

  lemma AddAppointmentsOk(t: Table<Counts>, total: Counts, k: string, x: real)
    requires BreakdownOk(t, total)
    ensures BreakdownOk(AddAppointments(t, k, x), CountAppointments(total, x))
  {
    PutBucketOk(t, total, k, CountAppointments(Bucket(t, k), x), CountAppointments(total, x));
  }

  lemma AddEntryOk(t: Table<Counts>, total: Counts, k: string, a: bool)
    requires BreakdownOk(t, total)
    ensures BreakdownOk(AddEntry(t, k, a), CountEntry(total, a))
  {
    PutBucketOk(t, total, k, CountEntry(Bucket(t, k), a), CountEntry(total, a));
  }

  /** A daily report keeps every breakdown adding up to the total. */
  lemma FunnelDailyOk(c: Conversion, r: DailyRecord)
    requires ConversionOk(c)
    ensures ConversionOk(FunnelDaily(c, r))
  {
    var x := ReportAppointments(r);
    AddAppointmentsOk(c.byStaff, c.total, KeyOr(r.staff), x);
    AddAppointmentsOk(c.byBranch, c.total, KeyOr(r.branch), x);
    AddAppointmentsOk(c.byProduct, c.total, KeyOr(r.main.product), x);
  }

  /** A deal keeps every breakdown adding up to the total, and approved deals never outnumber entries. */
  lemma FunnelDealOk(c: Conversion, deal: Deal, staffMap: map<string, StaffEntry>)
    requires ConversionOk(c)
    ensures ConversionOk(FunnelDeal(c, deal, staffMap))
  {
    var a := FunnelApproved(deal);
    AddEntryOk(c.byStaff, c.total, KeyOr(deal.staff), a);
    AddEntryOk(c.byBranch, c.total, FunnelBranch(deal, staffMap), a);
    AddEntryOk(c.byProduct, c.total, KeyOr(deal.product), a);
  }

  lemma PutConversionOk(conv: Table<Conversion>, key: string, c: Conversion)
    requires AllConversionsOk(conv) && ConversionOk(c)
    ensures AllConversionsOk(Put(conv, key, c))
  {
  }

  lemma AllConversionsOkValid(conv: Table<Conversion>)
    requires AllConversionsOk(conv)
    ensures ConversionTablesValid(conv)
  {
  }

  /** Every month of the funnel after the daily fold is sound. */
  lemma {:induction false} FunnelDailyFoldOk(daily: seq<DailyRecord>)
    ensures AllConversionsOk(FunnelDailyFold(daily))
  {
    if |daily| > 0 {
      var before := FunnelDailyFold(daily[..|daily| - 1]);
      FunnelDailyFoldOk(daily[..|daily| - 1]);
      var r := daily[|daily| - 1];
      if r.month.Some? {
        var key := r.month.value;
        var c := if key in before.vals then before.vals[key] else NewConversion();
        FunnelDailyOk(c, r);
        PutConversionOk(before, key, FunnelDaily(c, r));
      }
    }
  }

  /** The deal fold keeps every month of the funnel sound. */
  lemma {:induction false} FunnelDealFoldOk(conv: Table<Conversion>, deals: seq<Deal>, staffMap: map<string, StaffEntry>)
    requires AllConversionsOk(conv)
    ensures AllConversionsOk(FunnelDealFold(conv, deals, staffMap))
  {
    AllConversionsOkValid(conv);
    if |deals| > 0 {
      var before := FunnelDealFold(conv, deals[..|deals| - 1], staffMap);
      FunnelDealFoldOk(conv, deals[..|deals| - 1], staffMap);
      var deal := deals[|deals| - 1];
      var month := MonthKey(deal.date);
      assert FunnelDealFold(conv, deals, staffMap) == FunnelDealStep(before, deal, staffMap);
      if month.Some? && month.value in before.vals {
        FunnelDealOk(before.vals[month.value], deal, staffMap);
        PutConversionOk(before, month.value, FunnelDeal(before.vals[month.value], deal, staffMap));
      }
    }
  }

  // ---------------------------------------------------------------------
  // Ratios
  // ---------------------------------------------------------------------

  /** `taaan_rate`, `approval_rate` and `true_approval_rate`; `None` is `null`. */
  datatype Ratios = Ratios(taaan: Option<real>, approval: Option<real>, trueApproval: Option<real>)

  /** Each ratio is null exactly when its denominator is not positive. */
  function RatiosOf(c: Counts): (r: Ratios)
    ensures r.taaan.None? <==> c.appointments <= 0.0
    ensures r.approval.None? <==> c.entries == 0
    ensures r.trueApproval.None? <==> c.appointments <= 0.0
  {
    Ratios(
      if c.appointments > 0.0 then Some(c.entries as real / c.appointments) else None,
      if c.entries > 0 then Some(c.approved as real / c.entries as real) else None,
      if c.appointments > 0.0 then Some(c.approved as real / c.appointments) else None)
  }

  /**
    In a sound bucket the approval ratio lies in [0, 1], and the true
    approval ratio is the TAAAN ratio times the approval ratio whenever both
    are defined (and 0 when there are appointments but no entries).
  */
  lemma RatiosOfSoundBucket(c: Counts)
    requires c.approved <= c.entries
    ensures var r := RatiosOf(c);
      && (r.approval.Some? ==> 0.0 <= r.approval.value <= 1.0)
      && (r.taaan.Some? && r.approval.Some? ==> r.trueApproval == Some(r.taaan.value * r.approval.value))
      && (c.appointments > 0.0 && c.entries == 0 ==> r.trueApproval == Some(0.0))
  {
    if c.entries > 0 {
      DivAtMostOne(c.approved as real, c.entries as real);
      if c.appointments > 0.0 {
        TrueApprovalIsProduct(c);
      }
    }
  }

  lemma TrueApprovalIsProduct(c: Counts)
    requires c.appointments > 0.0 && c.entries > 0
    ensures RatiosOf(c).trueApproval.value == RatiosOf(c).taaan.value * RatiosOf(c).approval.value
  {
    DivChain(c.appointments, c.entries as real, c.approved as real);
  }

  lemma DivAtMostOne(a: real, b: real)
    requires 0.0 <= a <= b && b > 0.0
    ensures 0.0 <= a / b <= 1.0
  {
    var q := a / b;
    assert q * b == a;
  }

  lemma DivChain(a: real, e: real, p: real)
    requires a > 0.0 && e > 0.0
    ensures (e / a) * (p / e) == p / a
  {
    var x := e / a;
    var y := p / e;
    assert x * a == e;
    assert y * e == p;
    assert (x * y) * a == p;
  }

  datatype RatedCounts = RatedCounts(counts: Counts, ratios: Ratios)

  datatype RatedConversion = RatedConversion(
    total: RatedCounts, byStaff: Table<RatedCounts>, byBranch: Table<RatedCounts>, byProduct: Table<RatedCounts>)

  function Rated(c: Counts): RatedCounts { RatedCounts(c, RatiosOf(c)) }

  /** The ratios of one month: its total and every bucket of every breakdown. */
  function ConversionRates(c: Conversion): RatedConversion
    requires c.byStaff.Valid() && c.byBranch.Valid() && c.byProduct.Valid()
  {
    RatedConversion(Rated(c.total), MapValues(c.byStaff, Rated), MapValues(c.byBranch, Rated), MapValues(c.byProduct, Rated))
  }

  /** The ratio pass over every month. */
  method FunnelRatePass(conv: Table<Conversion>) returns (r: Table<RatedConversion>)
    requires ConversionTablesValid(conv)
    ensures r.Valid() && r.keys == conv.keys
    ensures forall k :: k in conv.vals ==> k in r.vals && r.vals[k] == ConversionRates(conv.vals[k])
  {
    r := Table(conv.keys, map[]);
    var i := 0;
    while i < |conv.keys|
      invariant 0 <= i <= |conv.keys|
      invariant r.keys == conv.keys
      invariant forall k :: k in r.vals <==> k in conv.keys[..i]
      invariant forall k :: k in r.vals ==> k in conv.vals && r.vals[k] == ConversionRates(conv.vals[k])
    {
      var k := conv.keys[i];
      r := r.(vals := r.vals[k := ConversionRates(conv.vals[k])]);
      i := i + 1;
    }
    assert conv.keys[..i] == conv.keys;
  }

  /** In a sound month every defined approval ratio, in the total and in each bucket, lies in [0, 1]. */
  lemma ConversionRatesBounded(c: Conversion)
    requires ConversionOk(c)
    ensures var rc := ConversionRates(c);
      && (rc.total.ratios.approval.Some? ==> 0.0 <= rc.total.ratios.approval.value <= 1.0)
      && (forall k :: k in rc.byStaff.vals && rc.byStaff.vals[k].ratios.approval.Some? ==>
           0.0 <= rc.byStaff.vals[k].ratios.approval.value <= 1.0)
      && (forall k :: k in rc.byBranch.vals && rc.byBranch.vals[k].ratios.approval.Some? ==>
           0.0 <= rc.byBranch.vals[k].ratios.approval.value <= 1.0)
      && (forall k :: k in rc.byProduct.vals && rc.byProduct.vals[k].ratios.approval.Some? ==>
           0.0 <= rc.byProduct.vals[k].ratios.approval.value <= 1.0)
  {
    RatiosOfSoundBucket(c.total);
    forall k | k in c.byStaff.vals
      ensures var q := RatiosOf(c.byStaff.vals[k]).approval; q.Some? ==> 0.0 <= q.value <= 1.0
    {
      RatiosOfSoundBucket(c.byStaff.vals[k]);
    }
    forall k | k in c.byBranch.vals
      ensures var q := RatiosOf(c.byBranch.vals[k]).approval; q.Some? ==> 0.0 <= q.value <= 1.0
    {
      RatiosOfSoundBucket(c.byBranch.vals[k]);
    }
    forall k | k in c.byProduct.vals
      ensures var q := RatiosOf(c.byProduct.vals[k]).approval; q.Some? ==> 0.0 <= q.value <= 1.0
    {
      RatiosOfSoundBucket(c.byProduct.vals[k]);
    }
  }
}

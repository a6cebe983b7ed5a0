/**
  Calendar dates as the engine sees them: a JavaScript `Date` broken into
  year, month, day of month and milliseconds into the day, its
  `toISOString()` rendering, and the helpers that cut month and day keys out
  of that rendering. Time zones are not modelled: every component is read in
  the one zone the script runs in.
*/
module Dates {
  import opened Common

  /** The years a JavaScript `Date` can hold in full. */
  const MinYear: int := -271820
  const MaxYear: int := 275759
  const MsPerDay: int := 86400000

  datatype DateParts = DateParts(year: int, month: int, day: int, ms: int)

  predicate Leap(y: int)
  {
    y % 4 == 0 && (y % 100 != 0 || y % 400 == 0)
  }

  function DaysInMonth(y: int, m: int): (n: int)
    ensures 28 <= n <= 31
  {
    if m == 2 then (if Leap(y) then 29 else 28)
    else if m == 4 || m == 6 || m == 9 || m == 11 then 30
    else 31
  }

  predicate ValidDate(d: DateParts)
  {
    && MinYear <= d.year <= MaxYear
    && 1 <= d.month <= 12
    && 1 <= d.day <= DaysInMonth(d.year, d.month)
    && 0 <= d.ms < MsPerDay
  }

  /** A valid JavaScript `Date` (an invalid one is never produced by the parser). */
  type Date = d: DateParts | ValidDate(d) witness DateParts(2024, 1, 1, 0)

  // ---------------------------------------------------------------------
  // toISOString()
  // ---------------------------------------------------------------------

  /** Four digits for years 0..9999, otherwise a sign and six digits. */
  function YearText(y: int): string
  {
    if 0 <= y <= 9999 then PadNat(y, 4)
    else if y < 0 then "-" + PadNat(-y, 6)
    else "+" + PadNat(y, 6)
  }

  function TimeText(ms: nat): string
  {
    PadNat(ms / 3600000, 2) + ":" + PadNat(ms / 60000 % 60, 2) + ":"
      + PadNat(ms / 1000 % 60, 2) + "." + PadNat(ms % 1000, 3) + "Z"
  }

  /** The `YYYY-MM` part of the ISO rendering. */
  function MonthText(y: int, m: nat): (s: string)
    ensures |s| >= 7
  {
    YearText(y) + "-" + PadNat(m, 2)
  }

  /** The calendar-date part `YYYY-MM-DD` of the ISO rendering. */
  function DateText(d: Date): (s: string)
    ensures |s| >= 10
  {
    MonthText(d.year, d.month) + "-" + PadNat(d.day, 2)
  }

  function Iso(d: Date): (s: string)
    ensures |s| >= 11
  {
    DateText(d) + "T" + TimeText(d.ms)
  }

  // ---------------------------------------------------------------------
  // Keys cut out of the ISO rendering
  // ---------------------------------------------------------------------

  /** `getMonthFromDate`: the first seven characters of the ISO text, or null for no date. */
  function MonthKey(d: Option<Date>): (r: Option<string>)
    ensures r.None? <==> d.None?
    ensures d.Some? ==> |r.value| == 7
  {
    match d
    case None => None
    case Some(t) => Some(Iso(t)[..7])
  }

  /** `s.split('T')[0]`: everything before the first `T`. */
  function BeforeT(s: string): (r: string)
    ensures |r| <= |s| && r == s[..|r|]
    ensures 'T' !in r
    ensures |r| < |s| ==> s[|r|] == 'T'
  {
    if |s| == 0 then ""
    else if s[0] == 'T' then ""
    else [s[0]] + BeforeT(s[1..])
  }

  /** The key `findMatch` compares dates by: the date part, or null for no date. */
  function DayKey(d: Option<Date>): Option<string>
  {
    match d
    case None => None
    case Some(t) => Some(BeforeT(Iso(t)))
  }

  lemma {:induction false} BeforeTOfPrefix(a: string, b: string)
    requires 'T' !in a
    requires |b| > 0 && b[0] == 'T'
    ensures BeforeT(a + b) == a
  {
    if |a| == 0 {
      assert a + b == b;
    } else {
      assert (a + b)[1..] == a[1..] + b;
      BeforeTOfPrefix(a[1..], b);
    }
  }

  lemma DigitsHaveNoT(s: string)
    requires AllDigits(s)
    ensures 'T' !in s
  {
  }

  lemma PrefixOfAppend(a: string, b: string, k: nat)
    requires k <= |a|
    ensures (a + b)[..k] == a[..k]
  {
  }

  /** The day key of a date is its `YYYY-MM-DD` text. */
  lemma DayKeyIsDateText(t: Date)
    ensures DayKey(Some(t)) == Some(DateText(t))
  {
    var y := YearText(t.year);
    DigitsHaveNoT(PadNat(t.month, 2));
    DigitsHaveNoT(PadNat(t.day, 2));
    if 0 <= t.year <= 9999 {
      DigitsHaveNoT(y);
    } else if t.year < 0 {
      DigitsHaveNoT(PadNat(-t.year, 6));
    } else {
      DigitsHaveNoT(PadNat(t.year, 6));
    }
    var dt := DateText(t);
    assert 'T' !in dt;
    BeforeTOfPrefix(dt, "T" + TimeText(t.ms));
    assert Iso(t) == dt + ("T" + TimeText(t.ms));
  }

  /** For four-digit years, the `YYYY-MM` text determines year and month. */
  lemma MonthTextInjective(y1: int, m1: nat, y2: int, m2: nat)
    requires 0 <= y1 <= 9999 && 0 <= y2 <= 9999 && m1 < 100 && m2 < 100
    requires MonthText(y1, m1) == MonthText(y2, m2)
    ensures y1 == y2 && m1 == m2
  {
    PadNatWidth(y1, 4);
    PadNatWidth(y2, 4);
    PadNatWidth(m1, 2);
    PadNatWidth(m2, 2);
    var s1 := MonthText(y1, m1);
    var s2 := MonthText(y2, m2);
    assert s1[..4] == PadNat(y1, 4);
    assert s2[..4] == PadNat(y2, 4);
    PadNatInjective(y1, y2, 4);
    assert s1[5..] == PadNat(m1, 2);
    assert s2[5..] == PadNat(m2, 2);
    PadNatInjective(m1, m2, 2);
  }

  /** For four-digit years the month key is `YYYY-MM`. */
  lemma MonthKeyText(t: Date)
    requires 0 <= t.year <= 9999
    ensures MonthKey(Some(t)) == Some(MonthText(t.year, t.month))
  {
    PadNatWidth(t.year, 4);
    PadNatWidth(t.month, 2);
    var mt := MonthText(t.year, t.month);
    var dt := DateText(t);
    assert |mt| == 7;
    PrefixOfAppend(dt + "T", TimeText(t.ms), 7);
    PrefixOfAppend(dt, "T", 7);
    PrefixOfAppend(mt + "-", PadNat(t.day, 2), 7);
    PrefixOfAppend(mt, "-", 7);
  }

  /** For four-digit years, two dates share a month key exactly when they fall in the same calendar month. */
  lemma MonthKeySameMonth(a: Date, b: Date)
    requires 0 <= a.year <= 9999 && 0 <= b.year <= 9999
    ensures MonthKey(Some(a)) == MonthKey(Some(b)) <==> (a.year == b.year && a.month == b.month)
  {
    MonthKeyText(a);
    MonthKeyText(b);
    if MonthKey(Some(a)) == MonthKey(Some(b)) {
      MonthTextInjective(a.year, a.month, b.year, b.month);
    }
  }

  /** For four-digit years, two dates share a day key exactly when they fall on the same calendar day. */
  lemma DayKeySameDay(a: Date, b: Date)
    requires 0 <= a.year <= 9999 && 0 <= b.year <= 9999
    ensures DayKey(Some(a)) == DayKey(Some(b)) <==>
            (a.year == b.year && a.month == b.month && a.day == b.day)
  {
    DayKeyIsDateText(a);
    DayKeyIsDateText(b);
    if DateText(a) == DateText(b) {
      var da := DateText(a);
      var db := DateText(b);
      PadNatWidth(a.year, 4);
      PadNatWidth(b.year, 4);
      PadNatWidth(a.month, 2);
      PadNatWidth(b.month, 2);
      PadNatWidth(a.day, 2);
      PadNatWidth(b.day, 2);
      var ma := MonthText(a.year, a.month);
      var mb := MonthText(b.year, b.month);
      PrefixOfAppend(ma + "-", PadNat(a.day, 2), 7);
      PrefixOfAppend(ma, "-", 7);
      PrefixOfAppend(mb + "-", PadNat(b.day, 2), 7);
      PrefixOfAppend(mb, "-", 7);
      assert ma == da[..7] && mb == db[..7];
      MonthTextInjective(a.year, a.month, b.year, b.month);
      assert da[8..] == PadNat(a.day, 2);
      assert db[8..] == PadNat(b.day, 2);
      PadNatInjective(a.day, b.day, 2);
    }
  }

  // ---------------------------------------------------------------------
  // fixOutlierDate and getMonthsBetween
  // ---------------------------------------------------------------------

  /**
    `Date.prototype.setFullYear(y)`: month, day and time are kept; a 29 February
    moved into a common year becomes 1 March, as the day overflows its month.
  */
  function SetFullYear(d: Date, y: int): (r: Date)
    requires MinYear <= y <= MaxYear
    ensures r.year == y && r.ms == d.ms
  {
    if d.day > DaysInMonth(y, d.month) then DateParts(y, d.month + 1, 1, d.ms)
    else DateParts(y, d.month, d.day, d.ms)
  }

  /**
    `fixOutlierDate`: a date before 2010 is moved into the current year
    (`nowYear`, read from the clock by the caller); no date and every other
    date pass through unchanged.
  */
  function FixOutlierDate(d: Option<Date>, nowYear: int): (r: Option<Date>)
    requires MinYear <= nowYear <= MaxYear
    ensures d.None? ==> r.None?
    ensures d.Some? && d.value.year >= 2010 ==> r == d
    ensures d.Some? && d.value.year < 2010 ==>
      && r.Some? && r.value.year == nowYear && r.value.ms == d.value.ms
      && (if d.value.month == 2 && d.value.day == 29 && !Leap(nowYear)
          then r.value.month == 3 && r.value.day == 1
          else r.value.month == d.value.month && r.value.day == d.value.day)
  {
    match d
    case None => None
    case Some(t) => if t.year < 2010 then Some(SetFullYear(t, nowYear)) else d
  }

  /** A repaired date is never an outlier any more when the current year is 2010 or later. */
  lemma FixOutlierDateIdempotent(d: Option<Date>, nowYear: int)
    requires 2010 <= nowYear <= MaxYear
    ensures FixOutlierDate(FixOutlierDate(d, nowYear), nowYear) == FixOutlierDate(d, nowYear)
  {
  }

  /** Months since year 0, the quantity `getMonthsBetween` takes differences of. */
  function MonthIndex(d: Date): int
  {
    d.year * 12 + (d.month - 1)
  }

  /** `getMonthsBetween(date1, date2)`: calendar months from the first to the second, 0 when either is missing. */
  function MonthsBetween(d1: Option<Date>, d2: Option<Date>): (r: int)
    ensures d1.None? || d2.None? ==> r == 0
    ensures d1.Some? && d2.Some? ==> r == MonthIndex(d2.value) - MonthIndex(d1.value)
  {
    if d1.None? || d2.None? then 0
    else (d2.value.year - d1.value.year) * 12 + (d2.value.month - d1.value.month)
  }

  /** Month distances are antisymmetric and add up along a chain of dates. */
  lemma MonthsBetweenChain(a: Date, b: Date, c: Date)
    ensures MonthsBetween(Some(a), Some(b)) == -MonthsBetween(Some(b), Some(a))
    ensures MonthsBetween(Some(a), Some(b)) + MonthsBetween(Some(b), Some(c)) == MonthsBetween(Some(a), Some(c))
    ensures MonthsBetween(Some(a), Some(b)) == 0 <==> (a.year == b.year && a.month == b.month)
  {
  }
}

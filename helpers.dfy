/**
  The dashboard's shared helpers (common/helpers.py): the months before a
  given month, the month-format and file-name checks, the count of working
  days, and the guarded arithmetic.
*/
module Helpers {
  import opened Common
  import opened PyText
  import Dates

  // ---------------------------------------------------------------------
  // Months as numbers
  // ---------------------------------------------------------------------

  /** Month `m` (1..12) of year `y`, numbered consecutively. */
  function MonthIndex(y: int, m: int): int
  {
    y * 12 + m - 1
  }

  /** January of year 1 and December of year 9999, the first and last months a `datetime` holds. */
  const FirstIndex: int := 12
  const LastIndex: int := 9999 * 12 + 11

  /** `strftime('%Y-%m')` of the first day of month number `k`. */
  function Label(k: int): string
  {
    Dates.MonthText(k / 12, k % 12 + 1)
  }

  /**
    `datetime(int(year), int(month), 1)` after `year, month =
    month_str.split('-')`, as a month number; `None` where the code returns
    `[]`: a value that is not a string (`None` here), text that is not 7
    characters long, text without exactly one dash, a side that is not an
    integer, or a year or month out of range.
  */
  function ParseStart(arg: Option<string>): (r: Option<int>)
    ensures r.Some? ==> FirstIndex <= r.value <= LastIndex
    ensures r.Some? ==>
      && arg.Some? && |arg.value| == 7
      && var parts := Split(arg.value, '-');
      && |parts| == 2 && PyInt(parts[0]).Some? && PyInt(parts[1]).Some?
      && 1 <= PyInt(parts[1]).value <= 12
      && r.value == MonthIndex(PyInt(parts[0]).value, PyInt(parts[1]).value)
  {
    if arg.None? || |arg.value| != 7 then None
    else
      var parts := Split(arg.value, '-');
      if |parts| != 2 then None
      else
        var y := PyInt(parts[0]);
        var m := PyInt(parts[1]);
        if y.Some? && m.Some? && 1 <= y.value <= 9999 && 1 <= m.value <= 12 then Some(MonthIndex(y.value, m.value))
        else None
  }

  /** Every month label is seven characters long and reads back as its own month. */
  lemma ParseLabel(k: int)
    requires FirstIndex <= k <= LastIndex
    ensures |Label(k)| == 7
    ensures ParseStart(Some(Label(k))) == Some(k)
  {
    var y := k / 12;
    var m := k % 12 + 1;
    assert Pow10Nat(2) == 100;
    assert Pow10Nat(4) == 10000;
    PadNatWidth(y, 4);
    PadNatWidth(m, 2);
    var ys := PadNat(y, 4);
    var ms := PadNat(m, 2);
    assert Label(k) == ys + ['-'] + ms;
    DigitsHaveNoPunctuation(ys);
    DigitsHaveNoPunctuation(ms);
    SplitPair(ys, ms, '-');
    PyIntPadNat(y, 4);
    PyIntPadNat(m, 2);
    ParseParts(Label(k), ys, ms, y, m);
    assert MonthIndex(y, m) == k;
  }

  lemma ParseParts(s: string, ys: string, ms: string, y: int, m: int)
    requires |s| == 7 && Split(s, '-') == [ys, ms]
    requires PyInt(ys) == Some(y) && PyInt(ms) == Some(m)
    requires 1 <= y <= 9999 && 1 <= m <= 12
    ensures ParseStart(Some(s)) == Some(MonthIndex(y, m))
  {
  }

  /**
    The check is looser than `YYYY-MM`: `int()` takes a sign and short
    fields, so `202-003` and `+202-03` both name March of year 202.
  */
  lemma ParseStartLoose()
    ensures ParseStart(Some("202-003")) == Some(MonthIndex(202, 3))
    ensures ParseStart(Some("+202-03")) == Some(MonthIndex(202, 3))
  {
    ReadLongMonth();
    ReadSignedYear();
  }

  lemma ReadLongMonth()
    ensures ParseStart(Some("202-003")) == Some(MonthIndex(202, 3))
  {
    assert "202-003" == "202" + ['-'] + "003";
    SplitPair("202", "003", '-');
    ReadDigits202();
    ReadDigits003();
    ParseParts("202-003", "202", "003", 202, 3);
  }

  lemma ReadSignedYear()
    ensures ParseStart(Some("+202-03")) == Some(MonthIndex(202, 3))
  {
    assert "+202-03" == "+202" + ['-'] + "03";
    SplitPair("+202", "03", '-');
    ReadDigits202();
    assert Unsigned("+202") == "202";
    ReadDigits03();
    ParseParts("+202-03", "+202", "03", 202, 3);
  }

  lemma ReadDigits202()
    ensures PyInt("202") == Some(202)
  {
    assert "202"[..2] == "20" && "20"[..1] == "2" && "2"[..0] == "";
  }

  lemma ReadDigits003()
    ensures PyInt("003") == Some(3)
  {
    assert "003"[..2] == "00" && "00"[..1] == "0" && "0"[..0] == "";
  }

  lemma ReadDigits03()
    ensures PyInt("03") == Some(3)
  {
    assert "03"[..1] == "0" && "0"[..0] == "";
  }

  /** Different months have different labels. */
  lemma LabelInjective(a: int, b: int)
    requires FirstIndex <= a <= LastIndex && FirstIndex <= b <= LastIndex
    requires Label(a) == Label(b)
    ensures a == b
  {
    ParseLabel(a);
    ParseLabel(b);
  }

  // ---------------------------------------------------------------------
  // get_prev_months, as written
  // ---------------------------------------------------------------------

  /**
    The month holding the day 32 days before the first day of month `k`
    (`current_date - timedelta(days=32)`): no month has 32 days and any two
    consecutive months have more, so it is always two months back.
  */
  function Back32(k: int): (r: int)
    ensures r == k - 2
  {
    var l1 := Dates.DaysInMonth((k - 1) / 12, (k - 1) % 12 + 1);
    var l2 := Dates.DaysInMonth((k - 2) / 12, (k - 2) % 12 + 1);
    if 32 <= l1 then k - 1 else if 32 <= l1 + l2 then k - 2 else k - 3
  }

  /** What `get_prev_months` ends in: a list of month labels, or the `OverflowError` it lets through below year 1. */
  datatype Months = Months(list: seq<string>) | Overflow

  /** The months listed for a walk: the overflow, or the months walked, formatted and put oldest first. */
  function Listed(walk: Option<seq<int>>, format: int -> string): Months
  {
    if walk.None? then Overflow else Months(Reverse(MapSeq(format, walk.value)))
  }

  /** The month numbers the loop appends in `n` more rounds from month `current`, newest first, stepping two months a round; `None` when a round runs below year 1. */
  function Walk2(current: int, n: nat): (r: Option<seq<int>>)
    requires FirstIndex <= current
    ensures r.Some? ==> forall i :: 0 <= i < |r.value| ==> FirstIndex <= r.value[i]
  {
    if n == 0 then Some([])
    else
      var prev := current - 2;
      if prev < FirstIndex then None
      else
        var rest := Walk2(prev, n - 1);
        if rest.None? then None else Some([prev] + rest.value)
  }

  /** A walk with the month numbers `front` in front of it. */
  function Prefixed(front: seq<int>, walk: Option<seq<int>>): Option<seq<int>>
  {
    if walk.None? then None else Some(front + walk.value)
  }

  /** The months listed from month number `k` as written: the appended months, reversed. */
  function AsWrittenFrom(k: int, n: nat): Months
    requires FirstIndex <= k
  {
    Listed(Walk2(k, n), Label)
  }

  /** `get_prev_months` of common/helpers.py as written. */
  function PrevMonthsAsWritten(arg: Option<string>, n: nat): Months
  {
    var start := ParseStart(arg);
    if start.None? then Months([]) else AsWrittenFrom(start.value, n)
  }

  /** `get_prev_months` of common/helpers.py: `[]` for an unreadable argument, else the loop. */
  method GetPrevMonthsAsWritten(arg: Option<string>, n: nat) returns (r: Months)
    ensures r == PrevMonthsAsWritten(arg, n)
  {
    var start := ParseStart(arg);
    if start.None? {
      return Months([]);
    }
    r := PrevMonthsLoop(start.value, n, Label);
  }

  /**
    The loop of `get_prev_months`: per round one `timedelta(days=32)` step,
    one `replace(day=1)` and one `strftime` (passed in as `format`).
  */
  method PrevMonthsLoop(start: int, n: nat, format: int -> string) returns (r: Months)
    requires FirstIndex <= start
    ensures r == Listed(Walk2(start, n), format)
  {
    var current := start;
    var months: seq<string> := [];
    ghost var taken: seq<int> := [];
    var i := 0;
    assert Walk2(current, n).Some? ==> [] + Walk2(current, n).value == Walk2(current, n).value;
    while i < n
      invariant 0 <= i <= n && FirstIndex <= current
      invariant months == MapSeq(format, taken)
      invariant Walk2(start, n) == Prefixed(taken, Walk2(current, n - i))
    {
      var prev := MonthBefore32Days(current);
      if prev < FirstIndex {
        assert Walk2(current, n - i) == None;
        return Overflow;
      }
      var rest := Walk2(prev, n - i - 1);
      assert Walk2(current, n - i) == Prefixed([prev], rest);
      if rest.Some? {
        assert taken + ([prev] + rest.value) == (taken + [prev]) + rest.value;
      }
      MapSeqAppend(format, taken, prev);
      months := months + [format(prev)];
      taken := taken + [prev];
      current := prev;
      i := i + 1;
    }
    assert Walk2(current, 0) == Some([]);
    assert taken + [] == taken;
    r := Months(Reverse(months));
  }

  /** `(current_date - timedelta(days=32)).replace(day=1)` as a month number. */
  method MonthBefore32Days(current: int) returns (prev: int)
    ensures prev == current - 2
  {
    prev := Back32(current);
  }

  /** Month numbers `k - 2n`, `k - 2n + 2`, …, `k - 2`. */
  function EveryOther(k: int, n: nat): seq<int>
  {
    seq(n, i => k - 2 * (n - i))
  }

  /** Month numbers `k - n`, `k - n + 1`, …, `k - 1`. */
  function Consecutive(k: int, n: nat): seq<int>
  {
    seq(n, i => k - n + i)
  }

  /** `n` rounds from month `c` list `c - 2`, `c - 4`, …, `c - 2n`, unless that runs below year 1. */
  lemma {:induction false} Walk2Shape(c: int, n: nat)
    requires FirstIndex <= c
    ensures Walk2(c, n).None? <==> c - 2 * n < FirstIndex
    ensures Walk2(c, n).Some? ==>
      |Walk2(c, n).value| == n && forall j :: 0 <= j < n ==> Walk2(c, n).value[j] == c - 2 * (j + 1)
  {
    if n > 0 && c - 2 >= FirstIndex {
      Walk2Shape(c - 2, n - 1);
    }
  }

  /** A month label other than the argument's own month is never the argument. */
  lemma OtherLabelsDiffer(arg: Option<string>, ks: seq<int>)
    requires ParseStart(arg).Some?
    requires forall i :: 0 <= i < |ks| ==> FirstIndex <= ks[i] <= LastIndex && ks[i] != ParseStart(arg).value
    ensures arg.value !in MapSeq(Label, ks)
  {
    var r := MapSeq(Label, ks);
    forall i | 0 <= i < |ks|
      ensures r[i] != arg.value
    {
      var x := ks[i];
      ParseLabel(x);
      assert Some(Label(x)) != arg;
    }
  }

  /** As written, the i-th of the `n` listed months is `2 * (n - i)` months before `k`. */
  lemma AsWrittenList(k: int, n: nat)
    requires FirstIndex <= k - 2 * n
    ensures AsWrittenFrom(k, n) == Months(MapSeq(Label, EveryOther(k, n)))
  {
    Walk2Shape(k, n);
    var w := Walk2(k, n).value;
    assert Reverse(w) == EveryOther(k, n);
    MapReverse(Label, w);
  }

  /** Months an even number of months before month `k` never carry the label of the month before `k`. */
  lemma PreviousNotListed(k: int, n: nat)
    requires n >= 1 && FirstIndex <= k - 2 * n && k <= LastIndex
    ensures Label(k - 1) !in MapSeq(Label, EveryOther(k, n))
  {
    ParseLabel(k - 1);
    OtherLabelsDiffer(Some(Label(k - 1)), EveryOther(k, n));
  }

  /**
    As written, the list holds every other month: the i-th of `n` is
    `2 * (n - i)` months before `k`, so the month just before `k` is never
    listed; and a walk reaching below year 1 ends in the overflow.
  */
  lemma AsWrittenSkipsMonths(k: int, n: nat)
    requires FirstIndex <= k <= LastIndex
    ensures k - 2 * n < FirstIndex ==> AsWrittenFrom(k, n) == Overflow
    ensures k - 2 * n >= FirstIndex ==>
      var r := AsWrittenFrom(k, n);
      r == Months(MapSeq(Label, EveryOther(k, n))) &&
      Label(k - 1) !in r.list
  {
    Walk2Shape(k, n);
    if k - 2 * n >= FirstIndex {
      AsWrittenList(k, n);
      if n >= 1 {
        PreviousNotListed(k, n);
      }
    }
  }

  // ---------------------------------------------------------------------
  // get_prev_months, as intended
  // ---------------------------------------------------------------------

  /** The month numbers of the intended loop, stepping one month a round. */
  function Walk1(current: int, n: nat): (r: Option<seq<int>>)
    requires FirstIndex <= current
    ensures r.Some? ==> forall i :: 0 <= i < |r.value| ==> FirstIndex <= r.value[i]
  {
    if n == 0 then Some([])
    else
      var prev := current - 1;
      if prev < FirstIndex then None
      else
        var rest := Walk1(prev, n - 1);
        if rest.None? then None else Some([prev] + rest.value)
  }

  /** The months listed from month number `k` as intended: the `n` months walked back one at a time, reversed. */
  function BeforeFrom(k: int, n: nat): Months
    requires FirstIndex <= k
  {
    Listed(Walk1(k, n), Label)
  }

  /** The `n` months before `m`, oldest first, `m` excluded. */
  function PrevMonthsBefore(arg: Option<string>, n: nat): Months
  {
    var start := ParseStart(arg);
    if start.None? then Months([]) else BeforeFrom(start.value, n)
  }

  lemma {:induction false} Walk1Shape(c: int, n: nat)
    requires FirstIndex <= c
    ensures Walk1(c, n).None? <==> c - n < FirstIndex
    ensures Walk1(c, n).Some? ==>
      |Walk1(c, n).value| == n && forall j :: 0 <= j < n ==> Walk1(c, n).value[j] == c - (j + 1)
  {
    if n > 0 && c - 1 >= FirstIndex {
      Walk1Shape(c - 1, n - 1);
    }
  }

  /** As intended, the list from month `k` is the `n` consecutive months ending with `k - 1`. */
  lemma BeforeFromShape(k: int, n: nat)
    requires FirstIndex <= k
    ensures k - n < FirstIndex <==> BeforeFrom(k, n).Overflow?
    ensures k - n >= FirstIndex ==> BeforeFrom(k, n) == Months(MapSeq(Label, Consecutive(k, n)))
    ensures k - n >= FirstIndex && n >= 1 ==> BeforeFrom(k, n).list[n - 1] == Label(k - 1)
  {
    Walk1Shape(k, n);
    if k - n >= FirstIndex {
      var w := Walk1(k, n).value;
      assert Reverse(w) == Consecutive(k, n);
      MapReverse(Label, w);
    }
  }

  /**
    The intended list: the `n` consecutive months ending with the month
    before `m`, oldest first, never `m` itself; `[]` for an unreadable
    argument, and the overflow when it would reach below year 1.
  */
  lemma PrevMonthsBeforeShape(arg: Option<string>, n: nat)
    ensures ParseStart(arg).None? ==> PrevMonthsBefore(arg, n) == Months([])
    ensures ParseStart(arg).Some? ==>
      var k := ParseStart(arg).value;
      var r := PrevMonthsBefore(arg, n);
      (k - n < FirstIndex <==> r.Overflow?) &&
      (k - n >= FirstIndex ==>
        r == Months(MapSeq(Label, Consecutive(k, n))) &&
        (n >= 1 ==> r.list[n - 1] == Label(k - 1)) &&
        arg.value !in r.list)
  {
    if ParseStart(arg).Some? {
      var k := ParseStart(arg).value;
      BeforeFromShape(k, n);
      if k - n >= FirstIndex {
        OtherLabelsDiffer(arg, Consecutive(k, n));
      }
    }
  }

  // ---------------------------------------------------------------------
  // Month format and file names
  // ---------------------------------------------------------------------

  /** Four ASCII digits, a dash, two ASCII digits. */
  predicate MonthShaped(s: string)
  {
    |s| == 7 && AllDigits(s[..4]) && s[4] == '-' && AllDigits(s[5..])
  }

  /** What `$` lets through: the text itself, or the text less one final newline. */
  function DropFinalNewline(s: string): string
  {
    if |s| >= 1 && s[|s| - 1] == '\n' then s[..|s| - 1] else s
  }

  /** `validate_month_format`: `re.match(r'^\d{4}-\d{2}$', s)` on a string, false for any other value. */
  function ValidateMonthFormat(arg: Option<string>): bool
  {
    arg.Some? && MonthShaped(DropFinalNewline(arg.value))
  }

  /** Every label of a real month passes the format check, and so does a month number out of range, such as 13. */
  lemma ValidateMonthFormatLabels(k: int, y: nat, m: nat)
    requires FirstIndex <= k <= LastIndex
    requires y <= 9999 && m <= 99
    ensures ValidateMonthFormat(Some(Label(k)))
    ensures ValidateMonthFormat(Some(Dates.MonthText(y, m)))
  {
    assert Pow10Nat(2) == 100;
    assert Pow10Nat(4) == 10000;
    ParseLabel(k);
    PadNatWidth(k / 12, 4);
    PadNatWidth(k % 12 + 1, 2);
    assert Label(k)[..4] == PadNat(k / 12, 4);
    assert Label(k)[5..] == PadNat(k % 12 + 1, 2);
    PadNatWidth(y, 4);
    PadNatWidth(m, 2);
    var t := Dates.MonthText(y, m);
    assert t[..4] == PadNat(y, 4);
    assert t[5..] == PadNat(m, 2);
  }

  /** The text after `_` and before `.json` at the end of a name (one final newline allowed), when it is month-shaped. */
  function ExtractMonth(arg: Option<string>): (r: Option<string>)
    ensures r.Some? ==> ValidateMonthFormat(r)
    ensures r.Some? ==> arg.Some? && EndsWith(DropFinalNewline(arg.value), "_" + r.value + ".json")
  {
    if arg.None? then None
    else
      var s := DropFinalNewline(arg.value);
      if |s| >= 13 && s[|s| - 13] == '_' && s[|s| - 5..] == ".json" && MonthShaped(s[|s| - 12..|s| - 5]) then
        var m := s[|s| - 12..|s| - 5];
        assert s[|s| - 13..] == "_" + m + ".json";
        Some(m)
      else None
  }

  /** A name ending in `_YYYY-MM.json`, with or without one final newline, gives back its month. */
  lemma ExtractMonthRoundTrip(prefix: string, m: string, newline: bool)
    requires MonthShaped(m)
    ensures ExtractMonth(Some(prefix + "_" + m + ".json" + (if newline then "\n" else ""))) == Some(m)
  {
    var s := prefix + "_" + m + ".json";
    var t := s + (if newline then "\n" else "");
    assert DropFinalNewline(t) == s;
    assert s[|s| - 13] == '_';
    assert s[|s| - 5..] == ".json";
    assert s[|s| - 12..|s| - 5] == m;
  }

  /** A name that does not end in `.json` (after one final newline) has no month. */
  lemma ExtractMonthNeedsJson(s: string)
    requires !EndsWith(DropFinalNewline(s), ".json")
    ensures ExtractMonth(Some(s)) == None
  {
  }

  // ---------------------------------------------------------------------
  // Working days
  // ---------------------------------------------------------------------

  /** One entry of `daily_activity`: the call counts of its main product and of its sub products (a missing count reads as 0). */
  datatype ActivityDay = ActivityDay(mainCalls: real, subCalls: seq<real>)

  /** A day counts when the main product or any sub product has calls. */
  predicate Worked(d: ActivityDay)
  {
    d.mainCalls > 0.0 || exists j :: 0 <= j < |d.subCalls| && d.subCalls[j] > 0.0
  }

  function CountWorked(days: seq<ActivityDay>): nat
  {
    if days == [] then 0
    else CountWorked(days[..|days| - 1]) + (if Worked(days[|days| - 1]) then 1 else 0)
  }

  /** No day is counted twice, every day is counted when all were worked, and none when none was. */
  lemma {:induction false} CountWorkedBounds(days: seq<ActivityDay>)
    ensures CountWorked(days) <= |days|
    ensures CountWorked(days) == |days| <==> forall i :: 0 <= i < |days| ==> Worked(days[i])
    ensures CountWorked(days) == 0 <==> forall i :: 0 <= i < |days| ==> !Worked(days[i])
  {
    if days != [] {
      var init := days[..|days| - 1];
      CountWorkedBounds(init);
      assert forall i :: 0 <= i < |init| ==> init[i] == days[i];
    }
  }

  /**
    `calculate_working_days`: 0 for a worker absent from `basic_data`,
    otherwise the number of activity entries with calls (`daily_activity`
    missing reads as an empty list).
  */
  method CalculateWorkingDays(staffName: string, basic: map<string, seq<ActivityDay>>) returns (n: nat)
    ensures staffName !in basic ==> n == 0
    ensures staffName in basic ==> n == CountWorked(basic[staffName]) && n <= |basic[staffName]|
  {
    if staffName !in basic {
      return 0;
    }
    var days := basic[staffName];
    n := 0;
    var i := 0;
    while i < |days|
      invariant 0 <= i <= |days|
      invariant n == CountWorked(days[..i])
    {
      assert days[..i + 1][..i] == days[..i];
      var day := days[i];
      if day.mainCalls > 0.0 {
        n := n + 1;
      } else {
        var j := 0;
        while j < |day.subCalls|
          invariant 0 <= j <= |day.subCalls|
          invariant n == CountWorked(days[..i])
          invariant forall j' :: 0 <= j' < j ==> day.subCalls[j'] <= 0.0
        {
          if day.subCalls[j] > 0.0 {
            n := n + 1;
            break;
          }
          j := j + 1;
        }
      }
      i := i + 1;
    }
    assert days[..i] == days;
    CountWorkedBounds(days);
  }

  // ---------------------------------------------------------------------
  // Guarded arithmetic
  // ---------------------------------------------------------------------

  /** `safe_divide`: the default when the denominator is 0 or either side is missing (`None` or NaN), otherwise the quotient. */
  function SafeDivide(numerator: Option<real>, denominator: Option<real>, default: real): (r: real)
    ensures denominator == Some(0.0) || denominator.None? || numerator.None? ==> r == default
    ensures numerator.Some? && denominator.Some? && denominator.value != 0.0 ==> r * denominator.value == numerator.value
  {
    if denominator == Some(0.0) || denominator.None? || numerator.None? then default
    else numerator.value / denominator.value
  }

  /** `x` rounded to the nearest integer, an exact half going to the even neighbour (Python's `round`). */
  function RoundHalfEven(x: real): (k: int)
    ensures x - 0.5 <= k as real <= x + 0.5
    ensures k as real - x == 0.5 || x - k as real == 0.5 ==> k % 2 == 0
  {
    var f := x.Floor;
    var d := x - f as real;
    if d < 0.5 then f
    else if d > 0.5 then f + 1
    else if f % 2 == 0 then f
    else f + 1
  }

  /** `round(x, 1)`: the nearest tenth, an exact tie going to the even tenth. */
  function Round1(x: real): (r: real)
    ensures (r * 10.0).Floor as real == r * 10.0
    ensures x * 10.0 - 0.5 <= r * 10.0 <= x * 10.0 + 0.5
    ensures r * 10.0 - x * 10.0 == 0.5 || x * 10.0 - r * 10.0 == 0.5 ==> (r * 10.0).Floor % 2 == 0
  {
    var k := RoundHalfEven(x * 10.0);
    assert (k as real / 10.0) * 10.0 == k as real;
    k as real / 10.0
  }

  /** The three clauses of `Round1` single out one tenth: any tenth meeting them is the rounded value. */
  lemma Round1Unique(x: real, r: real)
    requires (r * 10.0).Floor as real == r * 10.0
    requires x * 10.0 - 0.5 <= r * 10.0 <= x * 10.0 + 0.5
    requires r * 10.0 - x * 10.0 == 0.5 || x * 10.0 - r * 10.0 == 0.5 ==> (r * 10.0).Floor % 2 == 0
    ensures r == Round1(x)
  {
    var q := Round1(x);
    var a := (r * 10.0).Floor;
    var b := (q * 10.0).Floor;
    assert -1 <= a - b <= 1;
    assert a == b;
  }

  /** `calculate_percentage_change`: 0 when either side is missing or the previous value is 0, else the change in percent rounded to one decimal. */
  function PercentageChange(current: Option<real>, previous: Option<real>): (r: real)
    ensures current.None? || previous.None? || previous == Some(0.0) ==> r == 0.0
    ensures current.Some? && previous.Some? && previous.value != 0.0 ==>
      r == Round1((current.value - previous.value) / previous.value * 100.0)
    ensures current.Some? && previous.Some? && previous.value != 0.0 ==>
      var change := (current.value - previous.value) / previous.value * 100.0;
      change - 0.05 <= r <= change + 0.05
  {
    if current.None? || previous.None? || previous.value == 0.0 then 0.0
    else Round1((current.value - previous.value) / previous.value * 100.0)
  }

  /** 17 against 16 is a change of exactly 6.25 %, which rounds to the even tenth 6.2. */
  lemma PercentageChangeTie()
    ensures PercentageChange(Some(17.0), Some(16.0)) == 6.2
  {
    assert (17.0 - 16.0) / 16.0 * 100.0 == 6.25;
    Round1Unique(6.25, 6.2);
  }

  /** No change gives 0; growth never shows as a decline, nor a decline as growth (for a positive previous value). */
  lemma PercentageChangeSign(c: real, p: real)
    requires p > 0.0
    ensures c == p ==> PercentageChange(Some(c), Some(p)) == 0.0
    ensures c >= p ==> PercentageChange(Some(c), Some(p)) >= 0.0
    ensures c <= p ==> PercentageChange(Some(c), Some(p)) <= 0.0
  {
    var q := (c - p) / p;
    assert q * p == c - p;
  }

  /** `get_latest_month`: `None` for no months, else the first of them sorted in descending order. */
  function LatestMonth(months: seq<string>): (r: Option<string>)
  {
    if |months| == 0 then None else Some(SortStrings(months)[|months| - 1])
  }

  /** The latest month is one of the months and no month comes after it. */
  lemma LatestMonthIsMaximum(months: seq<string>)
    ensures LatestMonth(months).Some? <==> |months| > 0
    ensures LatestMonth(months).Some? ==>
      LatestMonth(months).value in months &&
      forall i :: 0 <= i < |months| ==> LexLessEq(months[i], LatestMonth(months).value)
  {
    if |months| > 0 {
      var s := SortStrings(months);
      SortStringsSorted(months);
      var top := s[|s| - 1];
      assert top in multiset(s);
      forall i | 0 <= i < |months|
        ensures LexLessEq(months[i], top)
      {
        assert months[i] in multiset(months);
        var j :| 0 <= j < |s| && s[j] == months[i];
        assert j == |s| - 1 || LexLessEq(s[j], s[|s| - 1]);
      }
    }
  }
}

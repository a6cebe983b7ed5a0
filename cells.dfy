/**
  Spreadsheet cell values as JavaScript sees them once they are read into a
  record: text, numbers, booleans, dates, plus `undefined` for a key the
  record does not have and `null` for an explicit "no value". The module
  gives JavaScript's truthiness, the `a || b` default, `String(v)` for the
  object keys the engine builds, `parseFloat` and `safeNumber`.
*/
module Cells {
  import opened Common
  import opened Dates

  datatype Cell =
    | Undefined
    | Null
    | Text(s: string)
    | Num(x: real)
    | Bool(b: bool)
    | When(t: Date)

  /** JavaScript truthiness (a sheet never yields NaN, and every `Date` is an object). */
  predicate Truthy(c: Cell)
  {
    match c
    case Undefined => false
    case Null => false
    case Text(s) => s != ""
    case Num(x) => x != 0.0
    case Bool(b) => b
    case When(_) => true
  }

  /** `a || b`: the first operand when it is truthy, otherwise the second. */
  function Or(a: Cell, b: Cell): (r: Cell)
    ensures Truthy(a) ==> r == a
    ensures !Truthy(a) ==> r == b
    ensures Truthy(r) <==> Truthy(a) || Truthy(b)
  {
    if Truthy(a) then a else b
  }

  /** Integer rendering with a leading minus sign for negative numbers. */
  function IntText(n: int): string
  {
    if n < 0 then "-" + NatText(-n) else NatText(n)
  }

  /**
    `String(v)`, the key under which a value is stored in a JavaScript
    object. Integers and text are rendered as JavaScript renders them;
    fractions get six decimals and dates their ISO text instead of
    JavaScript's shortest round-trip digits and `Date.prototype.toString`.
  */
  function Key(c: Cell): string
  {
    match c
    case Undefined => "undefined"
    case Null => "null"
    case Text(s) => s
    case Num(x) =>
      if x == x.Floor as real then IntText(x.Floor)
      else IntText(x.Floor) + "." + PadNat(((x - x.Floor as real) * 1000000.0).Floor as nat, 6)
    case Bool(b) => if b then "true" else "false"
    case When(t) => Iso(t)
  }

  /** A truthy value never has the empty string as its key, so `if (h)` on a header tests the cell. */
  lemma TruthyKeyNonEmpty(c: Cell)
    requires Truthy(c)
    ensures Key(c) != ""
  {
    match c
    case Num(x) =>
      if x == x.Floor as real {
        assert |NatText(if x.Floor < 0 then -x.Floor else x.Floor)| >= 1;
      }
    case _ =>
  }

  // ---------------------------------------------------------------------
  // parseFloat
  // ---------------------------------------------------------------------

  /** The white space and line terminators `parseFloat` skips before the number. */
  predicate IsJsSpace(c: char)
  {
    || c == '\t' || c == '\n' || c == '\U{000B}' || c == '\U{000C}' || c == '\r'
    || c == ' ' || c == '\U{00A0}' || c == '\U{1680}' || ('\U{2000}' <= c <= '\U{200A}')
    || c == '\U{2028}' || c == '\U{2029}' || c == '\U{202F}' || c == '\U{205F}'
    || c == '\U{3000}' || c == '\U{FEFF}'
  }

  /** Length of the run of leading white space. */
  function SpaceRun(s: string): (n: nat)
    ensures n <= |s|
    ensures forall i :: 0 <= i < n ==> IsJsSpace(s[i])
    ensures n < |s| ==> !IsJsSpace(s[n])
  {
    if |s| == 0 || !IsJsSpace(s[0]) then 0 else 1 + SpaceRun(s[1..])
  }

  /** Length of the run of leading decimal digits. */
  function DigitRun(s: string): (n: nat)
    ensures n <= |s|
    ensures forall i :: 0 <= i < n ==> IsDigit(s[i])
    ensures n < |s| ==> !IsDigit(s[n])
  {
    if |s| == 0 || !IsDigit(s[0]) then 0 else 1 + DigitRun(s[1..])
  }

  function Pow10(e: int): (r: real)
    ensures r > 0.0
  {
    if e >= 0 then Pow10Nat(e) as real else 1.0 / Pow10Nat(-e) as real
  }

  /** The value of the leading run of decimal digits of `s`, read after the digits already worth `acc`. */
  function LeadingValue(s: string, acc: nat): nat
  {
    if |s| == 0 || !IsDigit(s[0]) then acc else LeadingValue(s[1..], acc * 10 + DigitValue(s[0]))
  }

  /** An exponent part `e12`, `E-3`, `e+4` at the start of `s`, if there is a complete one. */
  function ExponentAt(s: string): Option<int>
  {
    if |s| < 2 || (s[0] != 'e' && s[0] != 'E') then None
    else if s[1] == '+' || s[1] == '-' then
      if |s| < 3 || !IsDigit(s[2]) then None
      else if s[1] == '-' then Some(-(LeadingValue(s[2..], 0) as int))
      else Some(LeadingValue(s[2..], 0))
    else if IsDigit(s[1]) then Some(LeadingValue(s[1..], 0))
    else None
  }

  /** The value of an unsigned decimal literal at the start of `u`: digits, an optional fraction, an optional exponent. */
  function UnsignedPrefix(u: string): Option<real>
  {
    var i := DigitRun(u);
    var dot := i < |u| && u[i] == '.';
    var f := if dot then DigitRun(u[i + 1..]) else 0;
    if i == 0 && f == 0 then None
    else
      var mantissa := DigitsValue(u[..i]) as real
        + (if dot then DigitsValue(u[i + 1..i + 1 + f]) as real / Pow10(f) else 0.0);
      var next := if dot then i + 1 + f else i;
      match ExponentAt(u[next..])
      case None => Some(mantissa)
      case Some(e) => Some(mantissa * Pow10(e))
  }

  /**
    `parseFloat(s)`: skip leading white space, read an optional sign and the
    longest decimal literal that follows, ignore the rest; no literal is NaN,
    here `None`.
  */
  function ParseFloat(s: string): Option<real>
  {
    SignedPrefix(s[SpaceRun(s)..])
  }

  /** An optional sign, then an unsigned decimal literal. */
  function SignedPrefix(t: string): Option<real>
  {
    if |t| > 0 && (t[0] == '+' || t[0] == '-') then
      match UnsignedPrefix(t[1..])
      case None => None
      case Some(v) => Some(if t[0] == '-' then -v else v)
    else UnsignedPrefix(t)
  }

  lemma {:induction false} DigitRunOfDigits(d: string, rest: string)
    requires AllDigits(d)
    requires rest == [] || !IsDigit(rest[0])
    ensures DigitRun(d + rest) == |d|
  {
    if |d| > 0 {
      assert (d + rest)[1..] == d[1..] + rest;
      DigitRunOfDigits(d[1..], rest);
    } else {
      assert d + rest == rest;
    }
  }

  lemma {:induction false} SpaceRunOfSpaces(w: string, s: string)
    requires forall i :: 0 <= i < |w| ==> IsJsSpace(w[i])
    ensures SpaceRun(w + s) == |w| + SpaceRun(s)
  {
    if |w| > 0 {
      assert (w + s)[1..] == w[1..] + s;
      SpaceRunOfSpaces(w[1..], s);
    } else {
      assert w + s == s;
    }
  }

  lemma ParseFloatStart(s: string, k: nat)
    requires k == SpaceRun(s)
    ensures ParseFloat(s) == SignedPrefix(s[k..])
  {
  }

  /** Leading white space does not change what `parseFloat` reads. */
  lemma ParseFloatSkipsSpace(w: string, s: string)
    requires forall i :: 0 <= i < |w| ==> IsJsSpace(w[i])
    ensures ParseFloat(w + s) == ParseFloat(s)
  {
    var k := SpaceRun(s);
    SpaceRunOfSpaces(w, s);
    assert (w + s)[|w| + k..] == s[k..];
    ParseFloatStart(w + s, |w| + k);
    ParseFloatStart(s, k);
  }

  /** The unsigned decimal text of a number, followed by anything that cannot continue a literal, reads back as that number. */
  lemma UnsignedPrefixOfNatText(n: nat, rest: string)
    requires rest == [] || (!IsDigit(rest[0]) && rest[0] != '.' && rest[0] != 'e' && rest[0] != 'E')
    ensures UnsignedPrefix(NatText(n) + rest) == Some(n as real)
  {
    var d := NatText(n);
    var u := d + rest;
    DigitRunOfDigits(d, rest);
    NatTextValue(n);
    assert u[..|d|] == d;
    assert u[|d|..] == rest;
  }

  lemma SignedPrefixUnsigned(t: string)
    requires |t| > 0 && t[0] != '+' && t[0] != '-'
    ensures SignedPrefix(t) == UnsignedPrefix(t)
  {
  }

  lemma SignedPrefixMinus(t: string, v: real)
    requires |t| > 0 && t[0] == '-' && UnsignedPrefix(t[1..]) == Some(v)
    ensures SignedPrefix(t) == Some(-v)
  {
  }

  lemma SignedPrefixOfNatText(n: nat, rest: string)
    requires rest == [] || (!IsDigit(rest[0]) && rest[0] != '.' && rest[0] != 'e' && rest[0] != 'E')
    ensures SignedPrefix(NatText(n) + rest) == Some(n as real)
  {
    var s := NatText(n) + rest;
    UnsignedPrefixOfNatText(n, rest);
    assert IsDigit(s[0]);
    SignedPrefixUnsigned(s);
  }

  lemma SignedPrefixOfNegNatText(n: nat, rest: string)
    requires rest == [] || (!IsDigit(rest[0]) && rest[0] != '.' && rest[0] != 'e' && rest[0] != 'E')
    ensures SignedPrefix("-" + (NatText(n) + rest)) == Some(-(n as real))
  {
    var s := NatText(n) + rest;
    var t := "-" + s;
    UnsignedPrefixOfNatText(n, rest);
    assert t[1..] == s;
    SignedPrefixMinus(t, n as real);
  }

  /** `parseFloat` reads the longest numeric prefix: `"120件"` gives 120. */
  lemma ParseFloatNatPrefix(n: nat, rest: string)
    requires rest == [] || (!IsDigit(rest[0]) && rest[0] != '.' && rest[0] != 'e' && rest[0] != 'E')
    ensures ParseFloat(NatText(n) + rest) == Some(n as real)
    ensures ParseFloat("-" + (NatText(n) + rest)) == Some(-(n as real))
  {
    var s := NatText(n) + rest;
    var t := "-" + s;
    assert IsDigit(s[0]) && !IsJsSpace(s[0]);
    assert t[0] == '-' && !IsJsSpace(t[0]);
    ParseFloatStart(s, 0);
    ParseFloatStart(t, 0);
    assert s[0..] == s && t[0..] == t;
    SignedPrefixOfNatText(n, rest);
    SignedPrefixOfNegNatText(n, rest);
  }

  /** Text that starts with neither a sign, a digit nor a point after white space is NaN. */
  lemma ParseFloatNoNumber(s: string)
    requires var t := s[SpaceRun(s)..];
             |t| == 0 || (t[0] != '+' && t[0] != '-' && t[0] != '.' && !IsDigit(t[0]))
    ensures ParseFloat(s) == None
  {
  }

  // ---------------------------------------------------------------------
  // Number(s): the whole text as a number
  // ---------------------------------------------------------------------

  /** Length of the exponent part `ExponentAt` reads, 0 when there is none. */
  function ExponentLength(s: string): (n: nat)
    ensures n <= |s|
  {
    if ExponentAt(s).None? then 0
    else if s[1] == '+' || s[1] == '-' then 2 + DigitRun(s[2..])
    else 1 + DigitRun(s[1..])
  }

  /** Length of the unsigned decimal literal `UnsignedPrefix` reads. */
  function UnsignedLength(u: string): (n: nat)
    ensures n <= |u|
  {
    var i := DigitRun(u);
    var dot := i < |u| && u[i] == '.';
    var f := if dot then DigitRun(u[i + 1..]) else 0;
    var next := if dot then i + 1 + f else i;
    next + ExponentLength(u[next..])
  }

  /** Length of the signed decimal literal `SignedPrefix` reads. */
  function SignedLength(t: string): (n: nat)
    ensures n <= |t|
  {
    if |t| > 0 && (t[0] == '+' || t[0] == '-') then 1 + UnsignedLength(t[1..]) else UnsignedLength(t)
  }

  /**
    JavaScript's `ToNumber` on text, as `<` applies it to text compared with
    a number: white space around one decimal literal is ignored, text of
    white space alone is 0, anything else is NaN (`None`).
  */
  function TextToNumber(s: string): (r: Option<real>)
    ensures SpaceRun(s) == |s| ==> r == Some(0.0)
    ensures SpaceRun(s) < |s| && r.Some? ==> r == ParseFloat(s)
  {
    var t := s[SpaceRun(s)..];
    if |t| == 0 then Some(0.0)
    else
      var n := SignedLength(t);
      if SignedPrefix(t).Some? && SpaceRun(t[n..]) == |t| - n then SignedPrefix(t) else None
  }

  lemma UnsignedLengthOfNatText(n: nat)
    ensures UnsignedLength(NatText(n)) == |NatText(n)|
  {
    var d := NatText(n);
    DigitRunOfDigits(d, []);
    assert d + [] == d;
    assert d[|d|..] == [];
  }

  /** The decimal text of a natural number, as a whole, is that number. */
  lemma TextToNumberOfNatText(n: nat)
    ensures TextToNumber(NatText(n)) == Some(n as real)
  {
    var d := NatText(n);
    NatTextValue(n);
    assert IsDigit(d[0]) && !IsJsSpace(d[0]);
    assert d[SpaceRun(d)..] == d;
    UnsignedLengthOfNatText(n);
    SignedPrefixOfNatText(n, []);
    assert d + [] == d;
    assert d[|d|..] == [];
  }

  /** Digits followed by text that cannot continue a literal: the literal is the digits. */
  lemma SignedLengthOfDigits(d: string, rest: string)
    requires |d| >= 1 && AllDigits(d)
    requires rest == [] || (!IsDigit(rest[0]) && rest[0] != '.' && rest[0] != 'e' && rest[0] != 'E')
    ensures SignedLength(d + rest) == |d|
  {
    var s := d + rest;
    DigitRunOfDigits(d, rest);
    assert s[|d|..] == rest;
    assert ExponentLength(rest) == 0;
    assert IsDigit(s[0]);
  }

  /** Digits followed by a letter are not a number as a whole. */
  lemma TextToNumberDigitsThenLetter(d: string, rest: string)
    requires |d| >= 1 && AllDigits(d)
    requires |rest| >= 1 && 'a' <= rest[0] <= 'z' && rest[0] != 'e'
    ensures TextToNumber(d + rest) == None
  {
    var s := d + rest;
    SignedLengthOfDigits(d, rest);
    assert IsDigit(s[0]);
    assert s[0..] == s;
    assert s[|d|..] == rest;
  }

  /** Unlike `parseFloat`, `Number` refuses trailing text: `"45px"` is NaN, though `parseFloat` reads 45. */
  lemma TextToNumberWhole(n: nat)
    ensures TextToNumber(NatText(n) + "px") == None
    ensures ParseFloat(NatText(n) + "px") == Some(n as real)
  {
    NatTextValue(n);
    ParseFloatNatPrefix(n, "px");
    TextToNumberDigitsThenLetter(NatText(n), "px");
  }

  // ---------------------------------------------------------------------
  // safeNumber
  // ---------------------------------------------------------------------

  /**
    `safeNumber(v)`: 0 for null, undefined and the empty string; otherwise
    `parseFloat(String(v))`, with NaN turned into 0. A number reads back as
    itself; `String` of a boolean or a date starts with a letter, so those
    give 0. It never fails.
  */
  function SafeNumber(c: Cell): (r: real)
    ensures c.Undefined? || c.Null? || c == Text("") ==> r == 0.0
    ensures c.Num? ==> r == c.x
    ensures c.Bool? || c.When? ==> r == 0.0
    ensures c.Text? ==> r == (match ParseFloat(c.s) case None => 0.0 case Some(v) => v)
  {
    match c
    case Undefined => 0.0
    case Null => 0.0
    case Text(s) => if s == "" then 0.0 else (match ParseFloat(s) case None => 0.0 case Some(v) => v)
    case Num(x) => x
    case Bool(_) => 0.0
    case When(_) => 0.0
  }

  /** Text holding a count, with or without a unit after it, gives that count. */
  lemma SafeNumberOfCount(n: nat, unit: string)
    requires unit == [] || (!IsDigit(unit[0]) && unit[0] != '.' && unit[0] != 'e' && unit[0] != 'E')
    ensures SafeNumber(Text(NatText(n) + unit)) == n as real
  {
    ParseFloatNatPrefix(n, unit);
  }

  /** Text that holds no number counts as 0. */
  lemma SafeNumberOfWord(s: string)
    requires |s| > 0 && !IsJsSpace(s[0]) && s[0] != '+' && s[0] != '-' && s[0] != '.' && !IsDigit(s[0])
    ensures SafeNumber(Text(s)) == 0.0
  {
    assert SpaceRun(s) == 0;
    ParseFloatNoNumber(s);
  }
}

/**
  The few Python text primitives the dashboard helpers rely on:
  `str.split` with a one-character separator, `int()` on a string, reversal
  of a list (`xs[::-1]`, `reversed`), `str.replace(pat, '')` and the
  `pathlib` suffix of a file name.
*/
module PyText {
  import opened Common

  // ---------------------------------------------------------------------
  // str.split(sep)
  // ---------------------------------------------------------------------

  /** `s.split(sep)`: the pieces between the separators, empty pieces included. */
  function Split(s: string, sep: char): (parts: seq<string>)
    ensures |parts| >= 1
    ensures forall i :: 0 <= i < |parts| ==> sep !in parts[i]
  {
    if s == [] then [""]
    else
      var init := Split(s[..|s| - 1], sep);
      var c := s[|s| - 1];
      if c == sep then init + [""]
      else init[..|init| - 1] + [init[|init| - 1] + [c]]
  }

  /** `sep.join(parts)`. */
  function Join(parts: seq<string>, sep: char): string
  {
    if |parts| == 0 then ""
    else if |parts| == 1 then parts[0]
    else Join(parts[..|parts| - 1], sep) + [sep] + parts[|parts| - 1]
  }

  /** Splitting loses nothing: joining the pieces back gives the original text. */
  lemma {:induction false} SplitJoin(s: string, sep: char)
    ensures Join(Split(s, sep), sep) == s
  {
    if s != [] {
      var init := s[..|s| - 1];
      var parts := Split(init, sep);
      SplitJoin(init, sep);
      var c := s[|s| - 1];
      if c != sep {
        JoinLastChar(parts, sep, c);
      }
      assert init + [c] == s;
    }
  }

  lemma JoinLastChar(parts: seq<string>, sep: char, c: char)
    requires |parts| >= 1
    ensures Join(parts[..|parts| - 1] + [parts[|parts| - 1] + [c]], sep) == Join(parts, sep) + [c]
  {
    var q := parts[..|parts| - 1] + [parts[|parts| - 1] + [c]];
    assert q[..|q| - 1] == parts[..|parts| - 1];
  }

  lemma {:induction false} SplitWhole(s: string, sep: char)
    requires sep !in s
    ensures Split(s, sep) == [s]
  {
    if s != [] {
      var init := s[..|s| - 1];
      assert sep !in init by {
        forall i | 0 <= i < |init| ensures init[i] != sep { assert init[i] == s[i]; }
      }
      SplitWhole(init, sep);
      var c := s[|s| - 1];
      assert c != sep;
      assert Split(s, sep) == [init + [c]];
      assert init + [c] == s;
    }
  }

  /** Text with exactly one separator splits into the two sides. */
  lemma {:induction false} SplitPair(a: string, b: string, sep: char)
    requires sep !in a && sep !in b
    ensures Split(a + [sep] + b, sep) == [a, b]
  {
    if b == [] {
      SplitWhole(a, sep);
      assert (a + [sep] + b)[..|a + [sep] + b| - 1] == a;
    } else {
      var b' := b[..|b| - 1];
      assert sep !in b' by {
        forall i | 0 <= i < |b'| ensures b'[i] != sep { assert b'[i] == b[i]; }
      }
      SplitPair(a, b', sep);
      var s := a + [sep] + b;
      assert s[..|s| - 1] == a + [sep] + b';
      assert b' + [b[|b| - 1]] == b;
    }
  }

  /** The last piece of a split is whatever follows the last separator. */
  lemma {:induction false} SplitLast(a: string, b: string, sep: char)
    requires sep !in b
    ensures var p := Split(a + [sep] + b, sep); |p| >= 2 && p[|p| - 1] == b
  {
    var s := a + [sep] + b;
    if b == [] {
      assert s[..|s| - 1] == a;
    } else {
      var b' := b[..|b| - 1];
      assert sep !in b' by {
        forall i | 0 <= i < |b'| ensures b'[i] != sep { assert b'[i] == b[i]; }
      }
      SplitLast(a, b', sep);
      assert s[..|s| - 1] == a + [sep] + b';
      var init := Split(a + [sep] + b', sep);
      var c := s[|s| - 1];
      assert c == b[|b| - 1] && c != sep;
      assert Split(s, sep) == init[..|init| - 1] + [init[|init| - 1] + [c]];
      assert b' + [c] == b;
    }
  }

  // ---------------------------------------------------------------------
  // int(s)
  // ---------------------------------------------------------------------

  /** The digits of a numeral once an optional leading sign is removed. */
  function Unsigned(s: string): string
  {
    if |s| > 0 && (s[0] == '+' || s[0] == '-') then s[1..] else s
  }

  /** `int(s)` on ASCII text: an optional sign followed by at least one decimal digit; `None` where Python raises `ValueError`. */
  function PyInt(s: string): (r: Option<int>)
    ensures r.Some? <==> |Unsigned(s)| >= 1 && AllDigits(Unsigned(s))
    ensures r.Some? && |s| > 0 && s[0] == '-' ==> r.value <= 0
    ensures r.Some? && (|s| == 0 || s[0] != '-') ==> r.value >= 0
  {
    var body := Unsigned(s);
    if |body| >= 1 && AllDigits(body) then
      Some(if s[0] == '-' then -(DigitsValue(body) as int) else DigitsValue(body))
    else None
  }

  /** Reading back a zero-padded number gives the number. */
  lemma PyIntPadNat(n: nat, width: nat)
    ensures PyInt(PadNat(n, width)) == Some(n)
  {
    var s := PadNat(n, width);
    PadNatValue(n, width);
    assert |s| >= |NatText(n)| >= 1;
    assert IsDigit(s[0]);
    assert Unsigned(s) == s;
  }

  // ---------------------------------------------------------------------
  // Lists
  // ---------------------------------------------------------------------

  /** `xs[::-1]` and `list(reversed(xs))`. */
  function Reverse<T>(s: seq<T>): (r: seq<T>)
    ensures |r| == |s|
    ensures forall i :: 0 <= i < |s| ==> r[i] == s[|s| - 1 - i]
  {
    if s == [] then [] else [s[|s| - 1]] + Reverse(s[..|s| - 1])
  }

  /** `[f(x) for x in s]`. */
  function MapSeq<A, B>(f: A -> B, s: seq<A>): (r: seq<B>)
    ensures |r| == |s| && forall i :: 0 <= i < |s| ==> r[i] == f(s[i])
  {
    if s == [] then [] else MapSeq(f, s[..|s| - 1]) + [f(s[|s| - 1])]
  }

  lemma MapSeqAppend<A, B>(f: A -> B, s: seq<A>, x: A)
    ensures MapSeq(f, s + [x]) == MapSeq(f, s) + [f(x)]
  {
    assert (s + [x])[..|s|] == s;
  }

  /** Mapping and reversing can be done in either order. */
  lemma MapReverse<A, B>(f: A -> B, s: seq<A>)
    ensures Reverse(MapSeq(f, s)) == MapSeq(f, Reverse(s))
  {
  }

  // ---------------------------------------------------------------------
  // str.replace(pat, '')
  // ---------------------------------------------------------------------

  /** `s.replace(pat, '')`: every occurrence of `pat` removed, scanning from the left without overlaps. */
  function RemoveAll(s: string, pat: string): (r: string)
    requires |pat| > 0
    ensures |r| <= |s|
    decreases |s|
  {
    if |s| == 0 then ""
    else if StartsWith(s, pat) then RemoveAll(s[|pat|..], pat)
    else [s[0]] + RemoveAll(s[1..], pat)
  }

  /** Text in which `pat` never starts is left as it is. */
  lemma {:induction false} RemoveAllAbsent(s: string, pat: string)
    requires |pat| > 0
    requires forall i :: 0 <= i <= |s| ==> !StartsWith(s[i..], pat)
    ensures RemoveAll(s, pat) == s
    decreases |s|
  {
    if |s| > 0 {
      assert s[0..] == s;
      forall i | 0 <= i <= |s[1..]|
        ensures !StartsWith(s[1..][i..], pat)
      {
        assert s[1..][i..] == s[i + 1..];
      }
      RemoveAllAbsent(s[1..], pat);
    }
  }

  /** Removing `pat` from text followed by one `pat` gives the text back, when the text never holds the first character of `pat`. */
  lemma {:induction false} RemoveAllTrailing(s: string, pat: string)
    requires |pat| > 0 && pat[0] !in s
    ensures RemoveAll(s + pat, pat) == s
    decreases |s|
  {
    if |s| == 0 {
      assert pat[|pat|..] == [];
    } else {
      assert (s + pat)[1..] == s[1..] + pat;
      assert pat[0] !in s[1..] by {
        forall i | 0 <= i < |s[1..]| ensures s[1..][i] != pat[0] { assert s[1..][i] == s[i + 1]; }
      }
      RemoveAllTrailing(s[1..], pat);
      assert [s[0]] + s[1..] == s;
    }
  }

  // ---------------------------------------------------------------------
  // pathlib: the final component and its suffix
  // ---------------------------------------------------------------------

  /** The text after the last `/` once trailing slashes are dropped (`PurePosixPath(s).name`). */
  function BaseName(s: string): (r: string)
    ensures '/' !in r
    decreases |s|
  {
    if |s| == 0 then ""
    else if s[|s| - 1] == '/' then BaseName(s[..|s| - 1])
    else AfterLast(s, '/')
  }

  /** The text after the last occurrence of `c`, all of `s` when there is none. */
  function AfterLast(s: string, c: char): (r: string)
    ensures c !in r && |r| <= |s|
  {
    if |s| == 0 then ""
    else if s[|s| - 1] == c then ""
    else AfterLast(s[..|s| - 1], c) + [s[|s| - 1]]
  }

  /** The text after the last `c` is a tail of `s`, and a `c` stands just before it unless it is all of `s`. */
  lemma {:induction false} AfterLastTail(s: string, c: char)
    ensures var r := AfterLast(s, c);
      r == s[|s| - |r|..] && (|r| < |s| ==> s[|s| - |r| - 1] == c)
  {
    if |s| > 0 && s[|s| - 1] != c {
      AfterLastTail(s[..|s| - 1], c);
    }
  }

  /** Text without `c` is all that follows its last `c`. */
  lemma {:induction false} AfterLastPlain(s: string, c: char)
    requires c !in s
    ensures AfterLast(s, c) == s
  {
    if |s| > 0 {
      assert c !in s[..|s| - 1];
      AfterLastPlain(s[..|s| - 1], c);
    }
  }

  /** What follows the last `c` of `a + c + b` is `b`, when `b` holds no `c`. */
  lemma {:induction false} AfterLastAfter(a: string, b: string, c: char)
    requires c !in b
    ensures AfterLast(a + [c] + b, c) == b
  {
    var s := a + [c] + b;
    if |b| > 0 {
      var b' := b[..|b| - 1];
      assert s[..|s| - 1] == a + [c] + b';
      assert c !in b';
      AfterLastAfter(a, b', c);
    }
  }

  /**
    `PurePath(s).suffix`: from the last dot of the name to its end, or
    nothing when the name has no dot, starts with its only dot, or ends
    with a dot.
  */
  function Suffix(s: string): (r: string)
    ensures r == "" || (|r| >= 2 && r[0] == '.' && r[1..] == AfterLast(BaseName(s), '.'))
  {
    var name := BaseName(s);
    var ext := AfterLast(name, '.');
    if 1 <= |ext| < |name| - 1 then ['.'] + ext else ""
  }

  /** The suffix is the end of the file name, starting at its last dot. */
  lemma SuffixEndsName(s: string)
    ensures EndsWith(BaseName(s), Suffix(s))
  {
    DotTail(BaseName(s));
  }

  lemma DotTail(name: string)
    ensures var ext := AfterLast(name, '.');
      |ext| < |name| ==> EndsWith(name, ['.'] + ext)
  {
    var ext := AfterLast(name, '.');
    AfterLastTail(name, '.');
    if |ext| < |name| {
      var i := |name| - |ext| - 1;
      assert name[i..] == [name[i]] + name[i + 1..];
    }
  }
}

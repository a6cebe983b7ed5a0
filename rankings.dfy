/**
  The staff rankings of the dashboard (components/rankings.py): competition
  ranking with ties (`rank(method='min', ascending=False)`), the order by
  ranking value descending and staff name ascending, and the cut-off at a
  maximum rank, shared by `create_ranking_dataframe` and
  `display_ranking_with_ties`.

  A frame row is its staff name, its value in the ranking column and its
  branch (`None` when the frame has no branch column). The frame is a
  value here, so ranking it cannot change it, as the copy in the source
  ensures.
*/
module Rankings {
  import opened Common

  /** One staff row of the frame. */
  datatype Row = Row(name: string, value: real, branch: Option<string>)

  /** A row with the rank it was given. */
  datatype Ranked = Ranked(rank: nat, row: Row)

  // ---------------------------------------------------------------------
  // Ranks
  // ---------------------------------------------------------------------

  /** How many rows have a value strictly above `v`. */
  function CountAbove(rows: seq<Row>, v: real): (c: nat)
    ensures c <= |rows|
  {
    if rows == [] then 0
    else CountAbove(rows[..|rows| - 1], v) + (if rows[|rows| - 1].value > v then 1 else 0)
  }

  /** The `min` rank of value `v` in descending order: one more than the number of rows above it. */
  function Rank(rows: seq<Row>, v: real): nat
  {
    1 + CountAbove(rows, v)
  }

  lemma {:induction false} CountAboveAppend(a: seq<Row>, b: seq<Row>, v: real)
    ensures CountAbove(a + b, v) == CountAbove(a, v) + CountAbove(b, v)
  {
    if b != [] {
      assert (a + b)[..|a + b| - 1] == a + b[..|b| - 1];
      assert (a + b)[|a + b| - 1] == b[|b| - 1];
      CountAboveAppend(a, b[..|b| - 1], v);
    } else {
      assert a + b == a;
    }
  }

  /** No row lies above `v` exactly when every row is at most `v`. */
  lemma {:induction false} CountAboveZero(rows: seq<Row>, v: real)
    ensures CountAbove(rows, v) == 0 <==> forall i :: 0 <= i < |rows| ==> rows[i].value <= v
  {
    if rows != [] {
      var init := rows[..|rows| - 1];
      CountAboveZero(init, v);
      assert forall i :: 0 <= i < |init| ==> init[i] == rows[i];
    }
  }

  /** A higher value never has more rows above it, and strictly fewer when some row lies in between. */
  lemma {:induction false} CountAboveMonotone(rows: seq<Row>, u: real, v: real)
    requires v <= u
    ensures CountAbove(rows, u) <= CountAbove(rows, v)
    ensures (exists i :: 0 <= i < |rows| && v < rows[i].value <= u) ==> CountAbove(rows, u) < CountAbove(rows, v)
  {
    if rows != [] {
      var init := rows[..|rows| - 1];
      CountAboveMonotone(init, u, v);
      if exists i :: 0 <= i < |rows| && v < rows[i].value <= u {
        var i :| 0 <= i < |rows| && v < rows[i].value <= u;
        if i < |init| {
          assert init[i] == rows[i];
        }
      }
    }
  }

  /**
    Competition ranking: rows with equal values share a rank, a row of the
    frame with a higher value has a strictly smaller rank, and every rank
    of a row lies between 1 and the number of rows.
  */
  lemma RankOrder(rows: seq<Row>, a: Row, b: Row)
    requires a in rows
    ensures a.value == b.value ==> Rank(rows, a.value) == Rank(rows, b.value)
    ensures a.value > b.value ==> Rank(rows, a.value) < Rank(rows, b.value)
    ensures 1 <= Rank(rows, a.value) <= |rows|
  {
    var i :| 0 <= i < |rows| && rows[i] == a;
    if a.value > b.value {
      CountAboveMonotone(rows, a.value, b.value);
    }
    CountAboveMonotone(rows, a.value, a.value - 1.0);
    assert a.value - 1.0 < rows[i].value <= a.value;
  }

  // ---------------------------------------------------------------------
  // Order: value descending, then staff name ascending
  // ---------------------------------------------------------------------

  /** `a` sorts strictly before `b`. */
  predicate Before(a: Row, b: Row)
  {
    a.value > b.value || (a.value == b.value && LexLess(a.name, b.name))
  }

  /** `a` may stand before `b` in the sorted frame. */
  predicate InOrder(a: Row, b: Row)
  {
    !Before(b, a)
  }

  predicate Ordered(s: seq<Ranked>)
  {
    forall i, j :: 0 <= i < j < |s| ==> InOrder(s[i].row, s[j].row)
  }

  /** Insertion of `x` before the first row that does not sort strictly before it. */
  function InsertRanked(x: Ranked, s: seq<Ranked>): (r: seq<Ranked>)
    ensures multiset(r) == multiset(s) + multiset{x}
    ensures |r| == |s| + 1
  {
    if s == [] || !Before(s[0].row, x.row) then [x] + s
    else
      assert s == [s[0]] + s[1..];
      [s[0]] + InsertRanked(x, s[1..])
  }

  /** `sort_values([ranking_column, 'staff_name'], ascending=[False, True])`, keeping the frame's order among rows equal on both. */
  function SortRanked(s: seq<Ranked>): (r: seq<Ranked>)
    ensures multiset(r) == multiset(s)
    ensures |r| == |s|
  {
    if s == [] then []
    else
      assert s == [s[0]] + s[1..];
      InsertRanked(s[0], SortRanked(s[1..]))
  }

  lemma InOrderTotal(a: Row, b: Row)
    ensures InOrder(a, b) || InOrder(b, a)
  {
    if Before(a, b) {
      if a.value == b.value {
        LexLessAsymmetric(a.name, b.name);
      }
    }
  }

  lemma InOrderTransitive(a: Row, b: Row, c: Row)
    requires InOrder(a, b) && InOrder(b, c)
    ensures InOrder(a, c)
  {
    if a.value == c.value {
      assert a.value == b.value;
      LexLessTotal(a.name, b.name);
      LexLessTotal(b.name, c.name);
      LexLessEqTransitive(a.name, b.name, c.name);
      LexLessAsymmetric(a.name, c.name);
      LexLessIrreflexive(a.name);
    }
  }

  lemma {:induction false} InsertOrdered(x: Ranked, s: seq<Ranked>)
    requires Ordered(s)
    ensures Ordered(InsertRanked(x, s))
  {
    if s != [] && Before(s[0].row, x.row) {
      InsertOrdered(x, s[1..]);
      var r := InsertRanked(x, s);
      var tail := InsertRanked(x, s[1..]);
      assert multiset(tail) == multiset(s[1..]) + multiset{x};
      forall j | 0 <= j < |tail|
        ensures InOrder(s[0].row, tail[j].row)
      {
        assert tail[j] in multiset(tail);
        if tail[j] != x {
          assert tail[j] in multiset(s[1..]);
          var k :| 0 <= k < |s[1..]| && s[1..][k] == tail[j];
          assert s[k + 1] == tail[j];
        } else {
          InOrderTotal(s[0].row, x.row);
        }
      }
    } else if s != [] {
      InOrderTotal(s[0].row, x.row);
      forall j | 0 <= j < |s| ensures InOrder(x.row, s[j].row) {
        if j > 0 {
          InOrderTransitive(x.row, s[0].row, s[j].row);
        }
      }
    }
  }

  lemma {:induction false} SortRankedOrdered(s: seq<Ranked>)
    ensures Ordered(SortRanked(s))
  {
    if s != [] {
      SortRankedOrdered(s[1..]);
      InsertOrdered(s[0], SortRanked(s[1..]));
    }
  }

  // ---------------------------------------------------------------------
  // The ranking pipeline: rank, sort, cut off
  // ---------------------------------------------------------------------

  /** The rows of `s`, each with its rank among all the rows `all`. */
  function WithRanks(all: seq<Row>, s: seq<Row>): (r: seq<Ranked>)
    ensures |r| == |s|
  {
    if s == [] then [] else [Ranked(Rank(all, s[0].value), s[0])] + WithRanks(all, s[1..])
  }

  lemma {:induction false} WithRanksAt(all: seq<Row>, s: seq<Row>)
    ensures forall i :: 0 <= i < |s| ==> WithRanks(all, s)[i] == Ranked(Rank(all, s[i].value), s[i])
  {
    if s != [] {
      WithRanksAt(all, s[1..]);
    }
  }

  /** The rows whose rank is at most `maxRank`, in order (`df_sorted[df_sorted['順位'] <= max_rank]`). */
  function KeepUpTo(s: seq<Ranked>, maxRank: int): (r: seq<Ranked>)
    ensures |r| <= |s|
  {
    if s == [] then []
    else (if s[0].rank <= maxRank then [s[0]] else []) + KeepUpTo(s[1..], maxRank)
  }

  /** The rows of the frame, ranked, sorted, and cut off at `maxRank`. */
  function Ranking(rows: seq<Row>, maxRank: int): seq<Ranked>
  {
    KeepUpTo(SortRanked(WithRanks(rows, rows)), maxRank)
  }

  /** `['順位', 'staff_name'] + display_columns`, with `'branch'` inserted at index 2 when the frame has a branch column. */
  function ResultColumns(display: seq<string>, hasBranch: bool): (cols: seq<string>)
    ensures var d := if hasBranch then 3 else 2;
      |cols| == d + |display| && cols[0] == "順位" && cols[1] == "staff_name" &&
      (hasBranch ==> cols[2] == "branch") && cols[d..] == display
  {
    var cols := ["順位", "staff_name"] + display;
    if hasBranch then cols[..2] + ["branch"] + cols[2..] else cols
  }

  /** The frame `create_ranking_dataframe` returns: its columns and its ranked rows. */
  datatype RankingFrame = RankingFrame(columns: seq<string>, rows: seq<Ranked>)

  /** `create_ranking_dataframe`. */
  function CreateRankingFrame(rows: seq<Row>, hasBranch: bool, display: seq<string>, maxRank: int): (f: RankingFrame)
    ensures f.columns == ResultColumns(display, hasBranch)
    ensures forall x :: x in f.rows <==> x.row in rows && x.rank == Rank(rows, x.row.value) && x.rank <= maxRank
    ensures Ordered(f.rows) && RanksNonDecreasing(f.rows)
  {
    RankingMembers(rows, maxRank);
    RankingOrder(rows, maxRank);
    RankingFrame(ResultColumns(display, hasBranch), Ranking(rows, maxRank))
  }

  /** The rows of the ranked frame. */
  function RowsOf(s: seq<Ranked>): (r: seq<Row>)
    ensures |r| == |s| && forall i :: 0 <= i < |s| ==> r[i] == s[i].row
  {
    if s == [] then [] else [s[0].row] + RowsOf(s[1..])
  }

  lemma {:induction false} CountAboveInsert(x: Ranked, t: seq<Ranked>, v: real)
    ensures CountAbove(RowsOf(InsertRanked(x, t)), v) == CountAbove(RowsOf(t), v) + (if x.row.value > v then 1 else 0)
  {
    if t == [] || !Before(t[0].row, x.row) {
      assert RowsOf([x] + t) == [x.row] + RowsOf(t);
      CountAboveAppend([x.row], RowsOf(t), v);
    } else {
      CountAboveInsert(x, t[1..], v);
      assert RowsOf(InsertRanked(x, t)) == [t[0].row] + RowsOf(InsertRanked(x, t[1..]));
      assert RowsOf(t) == [t[0].row] + RowsOf(t[1..]);
      CountAboveAppend([t[0].row], RowsOf(InsertRanked(x, t[1..])), v);
      CountAboveAppend([t[0].row], RowsOf(t[1..]), v);
    }
  }

  /** Sorting keeps the number of rows above any value. */
  lemma CountAboveSorted(all: seq<Row>, s: seq<Row>, v: real)
    ensures CountAbove(RowsOf(SortRanked(WithRanks(all, s))), v) == CountAbove(s, v)
  {
    CountAboveSortRanked(WithRanks(all, s), v);
    RowsOfWithRanks(all, s);
  }

  lemma {:induction false} CountAboveSortRanked(w: seq<Ranked>, v: real)
    ensures CountAbove(RowsOf(SortRanked(w)), v) == CountAbove(RowsOf(w), v)
  {
    if w != [] {
      CountAboveSortRanked(w[1..], v);
      CountAboveInsert(w[0], SortRanked(w[1..]), v);
      assert RowsOf(w) == [w[0].row] + RowsOf(w[1..]);
      CountAboveAppend([w[0].row], RowsOf(w[1..]), v);
    }
  }

  lemma {:induction false} RowsOfWithRanks(all: seq<Row>, s: seq<Row>)
    ensures RowsOf(WithRanks(all, s)) == s
  {
    if s != [] {
      RowsOfWithRanks(all, s[1..]);
      assert s == [s[0]] + s[1..];
    }
  }

  /** Every row of the sorted frame is a row of the frame with its own rank. */
  lemma SortedRanks(rows: seq<Row>)
    ensures forall x :: x in SortRanked(WithRanks(rows, rows)) ==> x.row in rows && x.rank == Rank(rows, x.row.value)
  {
    var w := WithRanks(rows, rows);
    WithRanksAt(rows, rows);
    forall x | x in SortRanked(w)
      ensures x.row in rows && x.rank == Rank(rows, x.row.value)
    {
      assert x in multiset(SortRanked(w));
      assert x in multiset(w);
      var i :| 0 <= i < |w| && w[i] == x;
    }
  }

  predicate RanksNonDecreasing(s: seq<Ranked>)
  {
    forall i, j :: 0 <= i < j < |s| ==> s[i].rank <= s[j].rank
  }

  predicate ValuesNonIncreasing(s: seq<Ranked>)
  {
    forall i, j :: 0 <= i < j < |s| ==> s[i].row.value >= s[j].row.value
  }

  /** In the sorted frame values never increase, and so ranks never decrease. */
  lemma SortedRanksNonDecreasing(rows: seq<Row>)
    ensures ValuesNonIncreasing(SortRanked(WithRanks(rows, rows)))
    ensures RanksNonDecreasing(SortRanked(WithRanks(rows, rows)))
  {
    var s := SortRanked(WithRanks(rows, rows));
    SortRankedOrdered(WithRanks(rows, rows));
    SortedRanks(rows);
    forall i, j | 0 <= i < j < |s|
      ensures s[i].row.value >= s[j].row.value && s[i].rank <= s[j].rank
    {
      assert InOrder(s[i].row, s[j].row);
      assert s[i] in s && s[j] in s;
      CountAboveMonotone(rows, s[i].row.value, s[j].row.value);
    }
  }

  /** The row at position `i` of the sorted frame has rank at most `i + 1`: only the rows before it can lie above it. */
  lemma SortedRankBound(rows: seq<Row>, i: nat)
    requires i < |rows|
    ensures SortRanked(WithRanks(rows, rows))[i].rank <= i + 1
  {
    var s := SortRanked(WithRanks(rows, rows));
    var v := s[i].row.value;
    SortedRankAt(rows, i);
    CountAboveSorted(rows, rows, v);
    SortedTailBelow(rows, i);
    CountAboveBelowFrom(RowsOf(s), i, v);
  }

  lemma SortedRankAt(rows: seq<Row>, i: nat)
    requires i < |rows|
    ensures var s := SortRanked(WithRanks(rows, rows)); s[i].rank == 1 + CountAbove(rows, s[i].row.value)
  {
    SortedRanks(rows);
    assert SortRanked(WithRanks(rows, rows))[i] in SortRanked(WithRanks(rows, rows));
  }

  lemma SortedTailBelow(rows: seq<Row>, i: nat)
    requires i < |rows|
    ensures var s := SortRanked(WithRanks(rows, rows));
      forall k :: i <= k < |s| ==> RowsOf(s)[k].value <= s[i].row.value
  {
    var s := SortRanked(WithRanks(rows, rows));
    var rs := RowsOf(s);
    SortedRanksNonDecreasing(rows);
    forall k | i <= k < |s|
      ensures rs[k].value <= s[i].row.value
    {
      assert rs[k] == s[k].row;
      if i < k {
        assert s[i].row.value >= s[k].row.value;
      }
    }
  }

  /** When no row from position `i` on lies above `v`, at most `i` rows do. */
  lemma CountAboveBelowFrom(rs: seq<Row>, i: nat, v: real)
    requires i <= |rs|
    requires forall k :: i <= k < |rs| ==> rs[k].value <= v
    ensures CountAbove(rs, v) <= i
  {
    CountAboveZero(rs[i..], v);
    assert rs == rs[..i] + rs[i..];
    CountAboveAppend(rs[..i], rs[i..], v);
  }

  /** When ranks never decrease, the cut-off keeps a prefix: every row up to its end is within `maxRank`, every row after it is not. */
  lemma {:induction false} KeepUpToPrefix(s: seq<Ranked>, maxRank: int)
    requires RanksNonDecreasing(s)
    ensures var k := KeepUpTo(s, maxRank);
      k == s[..|k|] &&
      (forall i :: 0 <= i < |k| ==> s[i].rank <= maxRank) &&
      (forall i :: |k| <= i < |s| ==> s[i].rank > maxRank)
  {
    if s != [] {
      KeepUpToPrefix(s[1..], maxRank);
      if s[0].rank > maxRank {
        KeepUpToNone(s[1..], maxRank);
      }
    }
  }

  lemma {:induction false} KeepUpToNone(s: seq<Ranked>, maxRank: int)
    requires forall i :: 0 <= i < |s| ==> s[i].rank > maxRank
    ensures KeepUpTo(s, maxRank) == []
  {
    if s != [] {
      KeepUpToNone(s[1..], maxRank);
    }
  }

  // ---------------------------------------------------------------------
  // What the ranking promises
  // ---------------------------------------------------------------------

  /**
    The ranking is ordered by value descending and staff name ascending,
    its ranks never decrease, and it is the front of the sorted frame up to
    the last row within `maxRank`.
  */
  lemma RankingOrder(rows: seq<Row>, maxRank: int)
    ensures var k := Ranking(rows, maxRank);
      var s := SortRanked(WithRanks(rows, rows));
      Ordered(k) && k == s[..|k|] && RanksNonDecreasing(k) &&
      (forall i :: |k| <= i < |s| ==> s[i].rank > maxRank)
  {
    var s := SortRanked(WithRanks(rows, rows));
    SortRankedOrdered(WithRanks(rows, rows));
    SortedRanksNonDecreasing(rows);
    KeepUpToPrefix(s, maxRank);
  }

  /** Exactly the frame's rows whose rank is at most `maxRank` are kept, each with its own rank. */
  lemma RankingMembers(rows: seq<Row>, maxRank: int)
    ensures forall x :: x in Ranking(rows, maxRank) <==>
      x.row in rows && x.rank == Rank(rows, x.row.value) && x.rank <= maxRank
  {
    forall x: Ranked
      ensures x in Ranking(rows, maxRank) <==> x.row in rows && x.rank == Rank(rows, x.row.value) && x.rank <= maxRank
    {
      if x in Ranking(rows, maxRank) {
        KeptIsRanked(rows, maxRank, x);
      }
      if x.row in rows && x.rank == Rank(rows, x.row.value) && x.rank <= maxRank {
        RankedIsKept(rows, maxRank, x);
      }
    }
  }

  lemma KeptIsRanked(rows: seq<Row>, maxRank: int, x: Ranked)
    requires x in Ranking(rows, maxRank)
    ensures x.row in rows && x.rank == Rank(rows, x.row.value) && x.rank <= maxRank
  {
    SortedRanks(rows);
    KeepUpToMembers(SortRanked(WithRanks(rows, rows)), maxRank);
  }

  lemma {:induction false} KeepUpToMembers(s: seq<Ranked>, maxRank: int)
    ensures forall x :: x in KeepUpTo(s, maxRank) ==> x in s && x.rank <= maxRank
  {
    if s != [] {
      KeepUpToMembers(s[1..], maxRank);
    }
  }

  lemma RankedIsKept(rows: seq<Row>, maxRank: int, x: Ranked)
    requires x.row in rows && x.rank == Rank(rows, x.row.value) && x.rank <= maxRank
    ensures x in Ranking(rows, maxRank)
  {
    var w := WithRanks(rows, rows);
    var s := SortRanked(w);
    var k := Ranking(rows, maxRank);
    var i :| 0 <= i < |rows| && rows[i] == x.row;
    WithRanksAt(rows, rows);
    assert w[i] == x;
    assert x in multiset(w);
    assert x in multiset(s);
    var j :| 0 <= j < |s| && s[j] == x;
    RankingOrder(rows, maxRank);
    assert j < |k|;
    assert k[j] == x;
  }

  /** At least `maxRank` rows are kept when the frame has that many: the row at position `i` has rank at most `i + 1`. */
  lemma RankingSize(rows: seq<Row>, maxRank: int)
    requires maxRank >= 0
    ensures |Ranking(rows, maxRank)| >= if maxRank < |rows| then maxRank else |rows|
  {
    var bound := if maxRank < |rows| then maxRank else |rows|;
    RankingOrder(rows, maxRank);
    if bound > 0 {
      SortedRankBound(rows, bound - 1);
    }
  }

  /** The first row of a non-empty ranking has rank 1: no row of the frame lies above it. */
  lemma RankingFirst(rows: seq<Row>, maxRank: int)
    requires |rows| >= 1 && maxRank >= 1
    ensures |Ranking(rows, maxRank)| >= 1 && Ranking(rows, maxRank)[0].rank == 1
  {
    RankingSize(rows, maxRank);
    RankingOrder(rows, maxRank);
    SortedRankBound(rows, 0);
    SortedRanks(rows);
    var s := SortRanked(WithRanks(rows, rows));
    assert s[0] in s;
  }

  /** Ties at the cut-off all stay: two staff with the same value both have rank 1, so a cut-off at 1 keeps two rows, in name order. */
  lemma RankingTiesExceedCutoff()
    ensures var a := Row("a", 5.0, None);
      var b := Row("b", 5.0, None);
      Ranking([b, a], 1) == [Ranked(1, a), Ranked(1, b)]
  {
    var a := Row("a", 5.0, None);
    var b := Row("b", 5.0, None);
    assert LexLess(a.name, b.name);
    assert [b, a][..1] == [b];
    assert [b][..0] == [];
    assert CountAbove([b], 5.0) == 0;
    assert Rank([b, a], 5.0) == 1;
    assert [b, a][1..] == [a];
    assert [a][1..] == [];
    var w := WithRanks([b, a], [b, a]);
    assert WithRanks([b, a], [a]) == [Ranked(1, a)] + WithRanks([b, a], []);
    assert w == [Ranked(1, b)] + WithRanks([b, a], [a]);
    assert w == [Ranked(1, b), Ranked(1, a)];
    assert SortRanked(w[1..]) == [Ranked(1, a)];
    assert SortRanked(w) == [Ranked(1, a), Ranked(1, b)];
  }

  // ---------------------------------------------------------------------
  // display_ranking_with_ties
  // ---------------------------------------------------------------------

  /** The grey a branch without a configured colour gets. */
  const DefaultBranchColor := "#95a5a6"

  /** One displayed line: the rank, the staff name and, when shown, the branch tag with its colour. */
  datatype Line = Line(rank: nat, name: string, tag: Option<(string, string)>)

  /**
    The branch tag of a row: shown when branches are to be shown, a colour
    table is given and not empty, and the row has a branch; the colour is
    the branch's own or the default grey.
  */
  function TagOf(r: Row, showBranch: bool, colors: map<string, string>): (t: Option<(string, string)>)
    ensures t.Some? <==> showBranch && |colors| > 0 && r.branch.Some?
    ensures t.Some? ==>
      t.value.0 == r.branch.value &&
      t.value.1 == (if r.branch.value in colors then colors[r.branch.value] else DefaultBranchColor)
  {
    if showBranch && |colors| > 0 && r.branch.Some? then
      Some((r.branch.value, if r.branch.value in colors then colors[r.branch.value] else DefaultBranchColor))
    else None
  }

  /**
    `display_ranking_with_ties`: one line per kept row, in ranking order,
    carrying the row's rank, name and branch tag.
  */
  method DisplayRankingWithTies(rows: seq<Row>, maxRank: int, showBranch: bool, colors: map<string, string>)
    returns (lines: seq<Line>)
    ensures var k := Ranking(rows, maxRank);
      |lines| == |k| &&
      forall i :: 0 <= i < |k| ==>
        lines[i] == Line(k[i].rank, k[i].row.name, TagOf(k[i].row, showBranch, colors))
  {
    var shown := Ranking(rows, maxRank);
    lines := [];
    var i := 0;
    while i < |shown|
      invariant 0 <= i <= |shown|
      invariant |lines| == i
      invariant forall j :: 0 <= j < i ==>
        lines[j] == Line(shown[j].rank, shown[j].row.name, TagOf(shown[j].row, showBranch, colors))
    {
      var r := shown[i];
      var tag: Option<(string, string)> := None;
      if showBranch && |colors| > 0 && r.row.branch.Some? {
        var color := if r.row.branch.value in colors then colors[r.row.branch.value] else DefaultBranchColor;
        tag := Some((r.row.branch.value, color));
      }
      lines := lines + [Line(r.rank, r.row.name, tag)];
      i := i + 1;
    }
  }
}

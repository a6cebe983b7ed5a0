/**
  A JavaScript object used as a dictionary: `Object.keys` gives its keys in
  the order they were first assigned, and each key holds one value. The
  rollups of the engine are nested tables of this kind.
*/
module Tables {

  datatype Table<V> = Table(keys: seq<string>, vals: map<string, V>)
  {
    /** Keys are listed once each, and exactly the keys that hold a value are listed. */
    ghost predicate Valid()
    {
      && (forall i, j :: 0 <= i < j < |keys| ==> keys[i] != keys[j])
      && (forall k :: k in vals <==> k in keys)
    }
  }

  function Empty<V>(): (t: Table<V>)
    ensures t.Valid() && t.keys == [] && t.vals == map[]
  {
    Table([], map[])
  }

  /** `obj[k] = v`: a new key goes to the end of the key order, an existing key keeps its place. */
  function Put<V>(t: Table<V>, k: string, v: V): (r: Table<V>)
    requires t.Valid()
    ensures r.Valid()
    ensures k in r.vals && r.vals[k] == v
    ensures forall k' :: k' != k ==> (k' in r.vals <==> k' in t.vals)
    ensures forall k' :: k' != k && k' in t.vals ==> r.vals[k'] == t.vals[k']
    ensures r.keys == if k in t.vals then t.keys else t.keys + [k]
  {
    Table(if k in t.vals then t.keys else t.keys + [k], t.vals[k := v])
  }

  /** `Object.keys(t).forEach(k => t[k] = f(t[k]))`: every value transformed, keys and their order kept. */
  function MapValues<V, W>(t: Table<V>, f: V -> W): (r: Table<W>)
    requires t.Valid()
    ensures r.Valid() && r.keys == t.keys
    ensures forall k :: k in t.vals ==> k in r.vals && r.vals[k] == f(t.vals[k])
  {
    Table(t.keys, map k | k in t.vals :: f(t.vals[k]))
  }

  // ---------------------------------------------------------------------
  // Sums over the values of a table, in key order
  // ---------------------------------------------------------------------

  function SumOver<V>(keys: seq<string>, vals: map<string, V>, f: V -> real): real
    requires forall k :: k in keys ==> k in vals
  {
    if keys == [] then 0.0
    else SumOver(keys[..|keys| - 1], vals, f) + f(vals[keys[|keys| - 1]])
  }

  function Sum<V>(t: Table<V>, f: V -> real): real
    requires t.Valid()
  {
    SumOver(t.keys, t.vals, f)
  }

  lemma {:induction false} SumOverFrame<V>(keys: seq<string>, vals: map<string, V>, vals': map<string, V>, f: V -> real)
    requires forall k :: k in keys ==> k in vals && k in vals' && vals[k] == vals'[k]
    ensures SumOver(keys, vals, f) == SumOver(keys, vals', f)
  {
    if keys != [] {
      SumOverFrame(keys[..|keys| - 1], vals, vals', f);
    }
  }

  lemma {:induction false} SumOverUpdate<V>(keys: seq<string>, vals: map<string, V>, k: string, v: V, f: V -> real)
    requires forall i, j :: 0 <= i < j < |keys| ==> keys[i] != keys[j]
    requires forall k' :: k' in keys ==> k' in vals
    requires k in keys
    ensures SumOver(keys, vals[k := v], f) == SumOver(keys, vals, f) - f(vals[k]) + f(v)
  {
    var init := keys[..|keys| - 1];
    var last := keys[|keys| - 1];
    if last == k {
      assert k !in init;
      SumOverFrame(init, vals, vals[k := v], f);
    } else {
      assert k in init;
      SumOverUpdate(init, vals, k, v, f);
    }
  }

  /** Assigning one key moves the sum by the difference between the new value and the old one. */
  lemma SumPut<V>(t: Table<V>, k: string, v: V, f: V -> real)
    requires t.Valid()
    ensures Sum(Put(t, k, v), f) == Sum(t, f) - (if k in t.vals then f(t.vals[k]) else 0.0) + f(v)
  {
    var r := Put(t, k, v);
    if k in t.vals {
      SumOverUpdate(t.keys, t.vals, k, v, f);
    } else {
      assert r.keys[..|r.keys| - 1] == t.keys;
      SumOverFrame(t.keys, t.vals, r.vals, f);
    }
  }

  // ---------------------------------------------------------------------
  // One assignment per key of a list: `for (const k of ks) obj[k] = f(k)`
  // ---------------------------------------------------------------------

  function PutEach<V>(ks: seq<string>, f: string -> V): (t: Table<V>)
    ensures t.Valid()
  {
    if ks == [] then Empty() else Put(PutEach(ks[..|ks| - 1], f), ks[|ks| - 1], f(ks[|ks| - 1]))
  }

  /** Over distinct keys the table lists the keys in the order given. */
  lemma {:induction false} PutEachKeys<V>(ks: seq<string>, f: string -> V)
    requires forall i, j :: 0 <= i < j < |ks| ==> ks[i] != ks[j]
    ensures PutEach(ks, f).keys == ks
  {
    if ks != [] {
      var init := ks[..|ks| - 1];
      var last := ks[|ks| - 1];
      InitDistinct(ks);
      PutEachKeys(init, f);
      LastNotBefore(ks);
      PutNewKey(PutEach(init, f), last, f(last));
      SnocSplit(ks);
    }
  }

  lemma PutNewKey<V>(t: Table<V>, k: string, v: V)
    requires t.Valid() && k !in t.keys
    ensures Put(t, k, v).keys == t.keys + [k]
  {
  }

  lemma SnocSplit(ks: seq<string>)
    requires |ks| > 0
    ensures ks == ks[..|ks| - 1] + [ks[|ks| - 1]]
  {
  }

  lemma InitDistinct(ks: seq<string>)
    requires |ks| > 0
    requires forall i, j :: 0 <= i < j < |ks| ==> ks[i] != ks[j]
    ensures var init := ks[..|ks| - 1]; forall i, j :: 0 <= i < j < |init| ==> init[i] != init[j]
  {
    var init := ks[..|ks| - 1];
    forall i, j | 0 <= i < j < |init|
      ensures init[i] != init[j]
    {
      assert init[i] == ks[i] && init[j] == ks[j];
    }
  }

  lemma LastNotBefore(ks: seq<string>)
    requires |ks| > 0
    requires forall i, j :: 0 <= i < j < |ks| ==> ks[i] != ks[j]
    ensures ks[|ks| - 1] !in ks[..|ks| - 1]
  {
    var init := ks[..|ks| - 1];
    forall i | 0 <= i < |init|
      ensures init[i] != ks[|ks| - 1]
    {
      assert init[i] == ks[i];
    }
  }

  /** Each key holds the value given for it (keys are never assigned twice, so the value is never overwritten). */
  lemma {:induction false} PutEachRows<V>(ks: seq<string>, f: string -> V)
    ensures forall k :: k in ks ==> k in PutEach(ks, f).vals && PutEach(ks, f).vals[k] == f(k)
  {
    if ks != [] {
      var init := ks[..|ks| - 1];
      PutEachRows(init, f);
      forall k | k in ks
        ensures k == ks[|ks| - 1] || k in init
      {
        var i :| 0 <= i < |ks| && ks[i] == k;
        if i < |ks| - 1 {
          assert init[i] == k;
        }
      }
    }
  }

  lemma PutEachNext<V>(ks: seq<string>, f: string -> V, i: nat)
    requires i < |ks|
    ensures PutEach(ks[..i + 1], f) == Put(PutEach(ks[..i], f), ks[i], f(ks[i]))
  {
    assert ks[..i + 1][..i] == ks[..i];
  }

  // ---------------------------------------------------------------------
  // A sequence of assignments `obj[k] = v`, later ones overwriting earlier ones
  // ---------------------------------------------------------------------

  function Assigned<V>(ps: seq<(string, V)>): map<string, V>
  {
    if |ps| == 0 then map[] else Assigned(ps[..|ps| - 1])[ps[|ps| - 1].0 := ps[|ps| - 1].1]
  }

  /** A key holds a value exactly when it was assigned, and it holds the value of its last assignment. */
  lemma {:induction false} AssignedLastWins<V>(ps: seq<(string, V)>, k: string)
    ensures k in Assigned(ps) <==> exists j :: 0 <= j < |ps| && ps[j].0 == k
    ensures k in Assigned(ps) ==>
      exists j :: 0 <= j < |ps| && ps[j].0 == k && Assigned(ps)[k] == ps[j].1 &&
                  forall j' :: j < j' < |ps| ==> ps[j'].0 != k
  {
    if |ps| > 0 {
      var init := ps[..|ps| - 1];
      AssignedLastWins(init, k);
      if ps[|ps| - 1].0 != k && k in Assigned(ps) {
        var j :| 0 <= j < |init| && init[j].0 == k && Assigned(init)[k] == init[j].1 &&
                 forall j' :: j < j' < |init| ==> init[j'].0 != k;
        assert ps[j] == init[j];
      }
      if k in Assigned(init) {
        var j :| 0 <= j < |init| && init[j].0 == k;
        assert ps[j] == init[j];
      }
      if exists j :: 0 <= j < |ps| && ps[j].0 == k {
        var j :| 0 <= j < |ps| && ps[j].0 == k;
        if j < |init| {
          assert init[j] == ps[j];
        }
      }
    }
  }
}

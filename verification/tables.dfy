/** The plain JavaScript objects the statistics code uses as dictionaries
    (`stats[key] = ...`, `Object.keys(stats)`, `Object.values(stats)`),
    modelled as association lists in insertion order. */
module Tables {
  import opened Base

  type Table<K, V> = seq<(K, V)>

  ghost predicate DistinctKeys<K, V>(t: Table<K, V>) {
    forall i, j :: 0 <= i < j < |t| ==> t[i].0 != t[j].0
  }

  /** `stats[key]`, `undefined` being `None`. */
  function Get<K(==), V>(t: Table<K, V>, k: K): (r: Option<V>)
    ensures r.Some? <==> exists i :: 0 <= i < |t| && t[i].0 == k
    ensures r.Some? ==> (k, r.value) in t
    decreases |t|
  {
    if t == [] then None
    else if t[0].0 == k then Some(t[0].1)
    else
      var r := Get(t[1..], k);
      assert forall i :: 1 <= i < |t| ==> t[i] == t[1..][i - 1];
      r
  }

  lemma GetEntry<K, V>(t: Table<K, V>, i: int)
    requires DistinctKeys(t) && 0 <= i < |t|
    ensures Get(t, t[i].0) == Some(t[i].1)
    decreases |t|
  {
    if i > 0 {
      GetEntry(t[1..], i - 1);
    }
  }

  /** `stats[key] = v`: overwrite in place, or append a new key at the end. */
  function Put<K(==), V>(t: Table<K, V>, k: K, v: V): (r: Table<K, V>)
    ensures Get(t, k).Some? ==> |r| == |t| && forall i :: 0 <= i < |t| ==> r[i].0 == t[i].0
    ensures Get(t, k).None? ==> r == t + [(k, v)]
    decreases |t|
  {
    if t == [] then [(k, v)]
    else if t[0].0 == k then [(k, v)] + t[1..]
    else [t[0]] + Put(t[1..], k, v)
  }

  lemma {:induction false} PutGet<K, V>(t: Table<K, V>, k: K, v: V, k': K)
    ensures Get(Put(t, k, v), k') == if k' == k then Some(v) else Get(t, k')
    decreases |t|
  {
    if t != [] && t[0].0 != k {
      PutGet(t[1..], k, v, k');
    }
  }

  lemma {:induction false} PutDistinct<K, V>(t: Table<K, V>, k: K, v: V)
    requires DistinctKeys(t)
    ensures DistinctKeys(Put(t, k, v))
    decreases |t|
  {
    if t != [] && t[0].0 != k {
      PutDistinct(t[1..], k, v);
      var r := Put(t, k, v);
      forall i | 1 <= i < |r|
        ensures r[i].0 != t[0].0
      {
        assert Get(t[1..], t[0].0).None?;
        PutGet(t[1..], k, v, t[0].0);
        assert Get(Put(t[1..], k, v), t[0].0).None?;
        assert r[i] == Put(t[1..], k, v)[i - 1];
      }
    }
  }

  function SumBy<K, V>(t: Table<K, V>, f: V -> int): int
    decreases |t|
  {
    if t == [] then 0 else f(t[0].1) + SumBy(t[1..], f)
  }

  lemma {:induction false} SumByAppend<K, V>(t: Table<K, V>, e: (K, V), f: V -> int)
    ensures SumBy(t + [e], f) == SumBy(t, f) + f(e.1)
    decreases |t|
  {
    if t != [] {
      assert (t + [e])[1..] == t[1..] + [e];
      SumByAppend(t[1..], e, f);
    }
  }

  lemma {:induction false} SumByNonNeg<K, V>(t: Table<K, V>, f: V -> int)
    requires forall i :: 0 <= i < |t| ==> f(t[i].1) >= 0
    ensures SumBy(t, f) >= 0
    decreases |t|
  {
    if t != [] {
      SumByNonNeg(t[1..], f);
    }
  }

  /** Summing two value projections that are ordered pointwise keeps the order. */
  lemma {:induction false} SumByMonotone<K, V>(t: Table<K, V>, f: V -> int, g: V -> int)
    requires forall i :: 0 <= i < |t| ==> f(t[i].1) <= g(t[i].1)
    ensures SumBy(t, f) <= SumBy(t, g)
    decreases |t|
  {
    if t != [] {
      SumByMonotone(t[1..], f, g);
    }
  }

  function MapValues<K, V, W>(t: Table<K, V>, f: V -> W): (r: Table<K, W>)
    ensures |r| == |t|
    ensures forall i :: 0 <= i < |t| ==> r[i] == (t[i].0, f(t[i].1))
  {
    seq(|t|, i requires 0 <= i < |t| => (t[i].0, f(t[i].1)))
  }

  /** Looking a key up after mapping the values is mapping the looked-up value. */
  lemma {:induction false} MapValuesGet<K, V, W>(t: Table<K, V>, f: V -> W, k: K)
    ensures Get(MapValues(t, f), k) == if Get(t, k).Some? then Some(f(Get(t, k).value)) else None
    decreases |t|
  {
    if t != [] && t[0].0 != k {
      MapValuesGet(t[1..], f, k);
      assert MapValues(t, f)[1..] == MapValues(t[1..], f);
    }
  }
}

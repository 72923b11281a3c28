/** The traversal every statistics function shares: walk the entrants in
    order, skip those without a key, and fold each remaining one into the
    bucket of its key (`if (!stats[k]) stats[k] = zero; update(stats[k])`). */
module Grouping {
  import opened Base
  import opened Tables

  /** The items whose key is `k`, in their original order. */
  ghost function Select<S, K>(ss: seq<S>, key: S -> Option<K>, k: K): (r: seq<S>)
    ensures |r| <= |ss|
    ensures forall x :: x in r ==> x in ss && key(x) == Some(k)
    decreases |ss|
  {
    if ss == [] then []
    else
      var init := Select(ss[..|ss| - 1], key, k);
      var last := ss[|ss| - 1];
      if key(last) == Some(k) then init + [last] else init
  }

  /** Left fold, `forEach` with an accumulator. */
  ghost function Fold<S, V>(ss: seq<S>, zero: V, step: (V, S) -> V): V
    decreases |ss|
  {
    if ss == [] then zero else step(Fold(ss[..|ss| - 1], zero, step), ss[|ss| - 1])
  }

  /** The grouping loop itself. */
  function Tabulate<S, K(==), V>(ss: seq<S>, key: S -> Option<K>, zero: V, step: (V, S) -> V): Table<K, V>
    decreases |ss|
  {
    if ss == [] then []
    else
      var t := Tabulate(ss[..|ss| - 1], key, zero, step);
      var last := ss[|ss| - 1];
      match key(last)
      case None => t
      case Some(k) => Put(t, k, step(Get(t, k).GetOr(zero), last))
  }

  /** The loop computes a grouped fold: the keys are distinct, a key has a
      bucket exactly when some item carries it, and that bucket is the fold
      of the items carrying the key, in order. */
  lemma {:induction false} TabulateGroups<S, K, V>(ss: seq<S>, key: S -> Option<K>, zero: V, step: (V, S) -> V, k: K)
    ensures DistinctKeys(Tabulate(ss, key, zero, step))
    ensures Get(Tabulate(ss, key, zero, step), k) ==
      if Select(ss, key, k) == [] then None else Some(Fold(Select(ss, key, k), zero, step))
    decreases |ss|
  {
    if ss != [] {
      var init := ss[..|ss| - 1];
      var last := ss[|ss| - 1];
      var t := Tabulate(init, key, zero, step);
      TabulateGroups(init, key, zero, step, k);
      match key(last)
      case None =>
      case Some(k0) =>
        TabulateGroups(init, key, zero, step, k0);
        PutDistinct(t, k0, step(Get(t, k0).GetOr(zero), last));
        PutGet(t, k0, step(Get(t, k0).GetOr(zero), last), k);
        if k == k0 {
          var sel := Select(ss, key, k);
          assert sel == Select(init, key, k) + [last];
          assert sel[..|sel| - 1] == Select(init, key, k);
        }
    }
  }

  /** A key has a bucket exactly when some item carries it. */
  lemma HasBucketIff<S, K, V>(ss: seq<S>, key: S -> Option<K>, zero: V, step: (V, S) -> V, k: K)
    ensures Get(Tabulate(ss, key, zero, step), k).Some? <==> exists i :: 0 <= i < |ss| && key(ss[i]) == Some(k)
  {
    TabulateGroups(ss, key, zero, step, k);
    SelectEmptyIff(ss, key, k);
  }

  lemma {:induction false} SelectEmptyIff<S, K>(ss: seq<S>, key: S -> Option<K>, k: K)
    ensures Select(ss, key, k) == [] <==> forall i :: 0 <= i < |ss| ==> key(ss[i]) != Some(k)
    decreases |ss|
  {
    if ss != [] {
      var init := ss[..|ss| - 1];
      SelectEmptyIff(init, key, k);
      assert forall i :: 0 <= i < |init| ==> init[i] == ss[i];
    }
  }

  /** Two key functions that agree on every item produce the same table. */
  lemma {:induction false} TabulateSameKeys<S, K, V>(ss: seq<S>, key1: S -> Option<K>, key2: S -> Option<K>, zero: V, step: (V, S) -> V)
    requires forall i :: 0 <= i < |ss| ==> key1(ss[i]) == key2(ss[i])
    ensures Tabulate(ss, key1, zero, step) == Tabulate(ss, key2, zero, step)
    decreases |ss|
  {
    if ss != [] {
      var init := ss[..|ss| - 1];
      assert forall i :: 0 <= i < |init| ==> init[i] == ss[i];
      TabulateSameKeys(init, key1, key2, zero, step);
    }
  }

  /** Selecting from a concatenation selects from each part. */
  lemma {:induction false} SelectAppend<S, K>(a: seq<S>, b: seq<S>, key: S -> Option<K>, k: K)
    ensures Select(a + b, key, k) == Select(a, key, k) + Select(b, key, k)
    decreases |b|
  {
    if b == [] {
      assert a + b == a;
    } else {
      var b0 := b[..|b| - 1];
      var last := b[|b| - 1];
      assert (a + b)[..|a + b| - 1] == a + b0;
      assert (a + b)[|a + b| - 1] == last;
      SelectAppend(a, b0, key, k);
    }
  }

  /** An item carrying the key is selected. */
  lemma SelectHas<S, K>(ss: seq<S>, key: S -> Option<K>, k: K, i: nat)
    requires i < |ss| && key(ss[i]) == Some(k)
    ensures |Select(ss, key, k)| >= 1
  {
    SelectEmptyIff(ss, key, k);
  }
}

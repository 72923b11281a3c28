/** `Array.prototype.sort` with a numeric comparator, as the statistics and
    prediction code uses it: the output is a permutation of the input
    ordered by a real-valued key. */
module Sorting {

  ghost predicate SortedDesc<T>(s: seq<T>, key: T -> real) {
    forall i, j :: 0 <= i < j < |s| ==> key(s[i]) >= key(s[j])
  }

  ghost predicate SortedAsc<T>(s: seq<T>, key: T -> real) {
    forall i, j :: 0 <= i < j < |s| ==> key(s[i]) <= key(s[j])
  }

  /** Insert `x` after every leading element whose key is at least its own. */
  function Insert<T>(x: T, s: seq<T>, key: T -> real): (r: seq<T>)
    ensures multiset(r) == multiset(s) + multiset{x}
    ensures |r| == |s| + 1
    decreases |s|
  {
    if s == [] then [x]
    else if key(x) > key(s[0]) then [x] + s
    else
      assert s == [s[0]] + s[1..];
      [s[0]] + Insert(x, s[1..], key)
  }

  lemma {:induction false} InsertSorted<T>(x: T, s: seq<T>, key: T -> real)
    requires SortedDesc(s, key)
    ensures SortedDesc(Insert(x, s, key), key)
    decreases |s|
  {
    if s != [] && key(x) <= key(s[0]) {
      var rest := Insert(x, s[1..], key);
      InsertSorted(x, s[1..], key);
      forall i | 0 <= i < |rest|
        ensures key(s[0]) >= key(rest[i])
      {
        assert rest[i] in multiset(rest);
        if rest[i] != x {
          assert rest[i] in multiset(s[1..]);
          var j :| 0 <= j < |s[1..]| && s[1..][j] == rest[i];
          assert s[j + 1] == rest[i];
        }
      }
    }
  }

  /** `s.sort((a, b) => key(b) - key(a))`: insertion sort, elements taken in order. */
  function SortDesc<T>(s: seq<T>, key: T -> real): (r: seq<T>)
    ensures multiset(r) == multiset(s)
    ensures |r| == |s|
    ensures SortedDesc(r, key)
    decreases |s|
  {
    if s == [] then []
    else
      assert s == s[..|s| - 1] + [s[|s| - 1]];
      InsertSorted(s[|s| - 1], SortDesc(s[..|s| - 1], key), key);
      Insert(s[|s| - 1], SortDesc(s[..|s| - 1], key), key)
  }

  function Negate<T>(key: T -> real): T -> real {
    x => -key(x)
  }

  /** `s.sort((a, b) => key(a) - key(b))`. */
  function SortAsc<T>(s: seq<T>, key: T -> real): (r: seq<T>)
    ensures multiset(r) == multiset(s)
    ensures |r| == |s|
    ensures SortedAsc(r, key)
  {
    var r := SortDesc(s, Negate(key));
    assert forall i, j :: 0 <= i < j < |r| ==> Negate(key)(r[i]) >= Negate(key)(r[j]);
    r
  }

  /** Any element left out of the first `n` of a non-increasing sequence
      ranks no higher than every element kept. */
  lemma TopPrefix<T>(s: seq<T>, key: T -> real, n: nat, x: T)
    requires SortedDesc(s, key) && n <= |s|
    requires x in multiset(s) && x !in multiset(s[..n])
    ensures forall i :: 0 <= i < n ==> key(x) <= key(s[i])
  {
    assert s == s[..n] + s[n..];
    assert x in multiset(s[n..]);
    var j :| 0 <= j < |s[n..]| && s[n..][j] == x;
    assert s[n + j] == x;
  }

  /** The first `n` of a descending sort are distinct elements of the input
      (a sub-multiset of it), still in order, and every element left out
      ranks no higher than each one kept. */
  lemma TopOfSort<T>(s: seq<T>, key: T -> real, n: nat)
    ensures var r := Take(SortDesc(s, key), n);
      && (forall i :: 0 <= i < |r| ==> r[i] in s)
      && multiset(r) <= multiset(s)
      && SortedDesc(r, key)
      && forall x :: x in multiset(s) && x !in multiset(r) ==> forall i :: 0 <= i < |r| ==> key(x) <= key(r[i])
  {
    var sorted := SortDesc(s, key);
    var r := Take(sorted, n);
    assert r == sorted[..|r|];
    TakeSubMultiset(sorted, n);
    forall i | 0 <= i < |r|
      ensures r[i] in s
    {
      assert r[i] in multiset(sorted);
    }
    forall x | x in multiset(s) && x !in multiset(r)
      ensures forall i :: 0 <= i < |r| ==> key(x) <= key(r[i])
    {
      TopPrefix(sorted, key, |r|, x);
    }
  }

  /** A prefix holds each element at most as often as the whole list. */
  lemma TakeSubMultiset<T>(s: seq<T>, n: nat)
    ensures multiset(Take(s, n)) <= multiset(s)
  {
    var r := Take(s, n);
    assert s == r + s[|r|..];
    assert multiset(s) == multiset(r) + multiset(s[|r|..]);
  }

  function Min(a: nat, b: nat): nat { if a <= b then a else b }

  /** `sorted.slice(0, n)`. */
  function Take<T>(s: seq<T>, n: nat): (r: seq<T>)
    ensures |r| == Min(n, |s|)
    ensures forall i :: 0 <= i < |r| ==> r[i] == s[i]
  {
    if n <= |s| then s[..n] else s
  }
}

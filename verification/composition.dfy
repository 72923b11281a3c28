/** The race composition screen (`client/src/components/RaceComposition.tsx`):
    how many stored races fall on each course, distance, surface and level,
    and the summary figures above the charts. */
module Composition {
  import opened Base
  import opened Tables
  import opened Model
  import opened Grouping
  import opened Sorting
  import opened CourseStats

  /** `count[key(race)] = (count[key(race)] || 0) + 1` over every race. */
  function Histogram<K(==)>(races: seq<Race>, key: Race -> Option<K>): Table<K, nat> {
    Tabulate(races, key, 0, Inc)
  }

  /** Counting is folding `+ 1`. */
  lemma {:induction false} FoldCounts<S>(ss: seq<S>)
    ensures Fold(ss, 0, Inc) == |ss|
    decreases |ss|
  {
    if ss != [] {
      FoldCounts(ss[..|ss| - 1]);
    }
  }

  /** Each value appears once, its count is the number of races carrying it,
      a value no race carries has no entry, and the counts add up to the
      number of races. */
  lemma HistogramMeaning<K>(races: seq<Race>, key: Race -> Option<K>, k: K)
    requires forall i :: 0 <= i < |races| ==> key(races[i]).Some?
    ensures DistinctKeys(Histogram(races, key))
    ensures Get(Histogram(races, key), k).Some? <==> exists i :: 0 <= i < |races| && key(races[i]) == Some(k)
    ensures Get(Histogram(races, key), k).Some? ==> Get(Histogram(races, key), k).value == |Select(races, key, k)|
    ensures SumBy(Histogram(races, key), Count) == |races|
  {
    TabulateGroups(races, key, 0, Inc, k);
    HasBucketIff(races, key, 0, Inc, k);
    FoldCounts(Select(races, key, k));
    BreakdownSum(races, key);
  }

  /** `prepareCourseData`, `prepareSurfaceData`, `prepareLevelData`. */
  function CourseChart(races: seq<Race>): Table<string, nat> { Histogram(races, CourseOf) }

  function SurfaceChart(races: seq<Race>): Table<string, nat> { Histogram(races, SurfaceOf) }

  function LevelChart(races: seq<Race>): Table<string, nat> { Histogram(races, LevelOf) }

  function DistanceLabel(e: (int, nat)): real { e.0 as real }

  /** `prepareDistanceData`: the per-distance counts, shortest distance
      first. The `${d}m` label is rendered from the distance and read back
      by `parseInt`, so it is keyed by the distance itself. */
  function DistanceChart(races: seq<Race>): (r: seq<(int, nat)>)
    ensures multiset(r) == multiset(Histogram(races, DistanceOf))
    ensures forall i, j :: 0 <= i < j < |r| ==> r[i].0 <= r[j].0
  {
    var r := SortAsc(Histogram(races, DistanceOf), DistanceLabel);
    assert forall i, j :: 0 <= i < j < |r| ==> DistanceLabel(r[i]) <= DistanceLabel(r[j]);
    r
  }

  /** The distance chart has one bar per distance run, whose height is the
      number of races over that distance, and the bars add up to every race. */
  lemma DistanceChartMeaning(races: seq<Race>, d: int, n: nat)
    ensures (d, n) in DistanceChart(races) <==>
      (exists i :: 0 <= i < |races| && races[i].distance == d) && n == |Select(races, DistanceOf, d)|
  {
    var h := Histogram(races, DistanceOf);
    var r := DistanceChart(races);
    HistogramMeaning(races, DistanceOf, d);
    assert (d, n) in r <==> (d, n) in h by {
      assert (d, n) in r <==> (d, n) in multiset(r);
      assert (d, n) in h <==> (d, n) in multiset(h);
    }
    if (d, n) in h {
      var i :| 0 <= i < |h| && h[i] == (d, n);
      GetEntry(h, i);
    }
    if exists i :: 0 <= i < |races| && races[i].distance == d {
      var i :| 0 <= i < |races| && races[i].distance == d;
      assert DistanceOf(races[i]) == Some(d);
    }
  }

  // ---------------------------------------------------------------- summary

  datatype Summary = Summary(
    totalRaces: nat,
    totalHorses: nat,
    /** `(totalHorses / totalRaces).toFixed(1)`, `None` for the `'0'` shown without races. */
    average: Option<real>,
    uniqueCourses: nat,
    uniqueDistances: nat)

  function Values<K>(races: seq<Race>, key: Race -> K): set<K> { set r | r in races :: key(r) }

  function CourseName(r: Race): string { r.course }

  function Metres(r: Race): int { r.distance }

  /** `new Set(races.map(race => race.course))` */
  function Courses(races: seq<Race>): set<string> { Values(races, CourseName) }

  /** `new Set(races.map(race => race.distance))` */
  function Distances(races: seq<Race>): set<int> { Values(races, Metres) }

  /** A set of values drawn from the races has at most one value per race. */
  lemma {:induction false} FewerValuesThanRaces<K>(races: seq<Race>, key: Race -> K)
    ensures |Values(races, key)| <= |races|
    decreases |races|
  {
    if races != [] {
      var init := races[..|races| - 1];
      FewerValuesThanRaces(init, key);
      assert Values(races, key) == Values(init, key) + {key(races[|races| - 1])} by {
        assert forall r :: r in races <==> r in init || r == races[|races| - 1];
      }
    }
  }

  /** The keys of a table with distinct keys, one per entry. */
  lemma {:induction false} DistinctKeysCount<K, V>(t: Table<K, V>)
    requires DistinctKeys(t)
    ensures |set e | e in t :: e.0| == |t|
    decreases |t|
  {
    if t != [] {
      var init := t[..|t| - 1];
      var last := t[|t| - 1];
      var keys := set e | e in init :: e.0;
      assert |keys| == |init| by {
        DistinctKeysCount(init);
      }
      assert (set e | e in t :: e.0) == keys + {last.0} by {
        assert forall e :: e in t <==> e in init || e == last;
      }
      assert last.0 !in keys by {
        forall e | e in init
          ensures e.0 != last.0
        {
          var i :| 0 <= i < |init| && init[i] == e;
          assert t[i] == e;
        }
      }
    }
  }

  /** The number of distinct courses is the number of bars of the course chart. */
  lemma CoursesAreBars(races: seq<Race>)
    ensures |Courses(races)| == |CourseChart(races)|
  {
    var h := CourseChart(races);
    HistogramMeaning(races, CourseOf, "");
    DistinctKeysCount(h);
    forall c
      ensures c in Courses(races) <==> c in (set e | e in h :: e.0)
    {
      HistogramMeaning(races, CourseOf, c);
      if c in Courses(races) {
        var r :| r in races && CourseName(r) == c;
        var i :| 0 <= i < |races| && races[i] == r;
        assert CourseOf(races[i]) == Some(c);
        assert (c, Get(h, c).value) in h;
      }
      if c in (set e | e in h :: e.0) {
        var e :| e in h && e.0 == c;
        var i :| 0 <= i < |h| && h[i] == e;
        assert Get(h, c).Some?;
        var j :| 0 <= j < |races| && CourseOf(races[j]) == Some(c);
        assert races[j] in races && CourseName(races[j]) == c;
      }
    }
    assert Courses(races) == (set e | e in h :: e.0);
  }

  /** `getStats`. */
  function Stats(races: seq<Race>): (s: Summary)
    ensures s.totalRaces == |races| && s.totalHorses == TotalHorses(races)
    ensures s.average.None? <==> races == []
    ensures s.average.Some? ==>
      TotalHorses(races) as real / |races| as real - 0.05 < s.average.value <= TotalHorses(races) as real / |races| as real + 0.05
    ensures s.uniqueCourses == |Courses(races)| && s.uniqueDistances == |Distances(races)|
    ensures s.uniqueCourses <= s.totalRaces && s.uniqueDistances <= s.totalRaces
    ensures races != [] ==> s.uniqueCourses >= 1 && s.uniqueDistances >= 1
  {
    var total := |races|;
    var horses := TotalHorses(races);
    FewerValuesThanRaces(races, CourseName);
    FewerValuesThanRaces(races, Metres);
    var average :=
      if total > 0 then
        Round1Close(horses as real / total as real);
        Some(Round1(horses as real / total as real))
      else None;
    if races != [] then
      assert CourseName(races[0]) in Courses(races);
      assert Metres(races[0]) in Distances(races);
      Summary(total, horses, average, |Courses(races)|, |Distances(races)|)
    else Summary(total, horses, average, |Courses(races)|, |Distances(races)|)
  }
}

/** The server's per-course and per-distance summaries
    (`calculateCourseStats`, `calculateDistanceStats` in `server/index.js`):
    race counts, a running mean of field sizes, and breakdown counts. */
module CourseStats {
  import opened Base
  import opened Tables
  import opened Model
  import opened Grouping

  /** `if (!m[k]) m[k] = 0; m[k]++` */
  function Bump<K(==)>(t: Table<K, nat>, k: K): Table<K, nat> {
    Put(t, k, Get(t, k).GetOr(0) + 1)
  }

  /** The per-item step of a counting breakdown. */
  function Inc<S>(n: nat, s: S): nat { n + 1 }

  /** Projection used to sum a breakdown's counts. */
  function Count(n: nat): int { n }

  /** Counting one more keyed item bumps that key's count. */
  lemma CountStep<S, K>(ss: seq<S>, key: S -> Option<K>, k: K)
    requires ss != [] && key(ss[|ss| - 1]) == Some(k)
    ensures Tabulate(ss, key, 0, Inc) == Bump(Tabulate(ss[..|ss| - 1], key, 0, Inc), k)
  {
  }

  /** Bumping a count adds one to the table's total. */
  lemma {:induction false} BumpSum<K>(t: Table<K, nat>, k: K)
    ensures SumBy(Bump(t, k), Count) == SumBy(t, Count) + 1
    decreases |t|
  {
    if t != [] && t[0].0 != k {
      var rest := Bump(t[1..], k);
      BumpSum(t[1..], k);
      assert Bump(t, k) == [t[0]] + rest;
      assert ([t[0]] + rest)[1..] == rest;
    }
  }

  /** One more keyed item adds one to the breakdown's total. */
  lemma CountOneMore<S, K>(ss: seq<S>, key: S -> Option<K>, k: K)
    requires ss != [] && key(ss[|ss| - 1]) == Some(k)
    ensures SumBy(Tabulate(ss, key, 0, Inc), Count) == SumBy(Tabulate(ss[..|ss| - 1], key, 0, Inc), Count) + 1
  {
    CountStep(ss, key, k);
    BumpSum(Tabulate(ss[..|ss| - 1], key, 0, Inc), k);
  }

  /** A counting breakdown over items that all carry a key adds up to the
      number of items. */
  lemma {:induction false} BreakdownSum<S, K>(ss: seq<S>, key: S -> Option<K>)
    requires forall i :: 0 <= i < |ss| ==> key(ss[i]).Some?
    ensures SumBy(Tabulate(ss, key, 0, Inc), Count) == |ss|
    decreases |ss|
  {
    if ss != [] {
      var init := ss[..|ss| - 1];
      var last := ss[|ss| - 1];
      forall i | 0 <= i < |init|
        ensures key(init[i]).Some?
      {
        assert init[i] == ss[i];
      }
      BreakdownSum(init, key);
      assert key(ss[|ss| - 1]).Some?;
      CountOneMore(ss, key, key(last).value);
    }
  }

  /** The mean the incremental update keeps: `avg * n` is the sum of the field sizes. */
  ghost predicate MeanOf(avg: real, n: nat, g: seq<Race>) {
    n == |g| && avg * n as real == TotalHorses(g) as real
  }

  /** `avg = (avg * (n - 1) + x) / n` after `n++` extends the mean by one race. */
  function NextMean(avg: real, n: nat, x: nat): (r: real)
    ensures r * (n + 1) as real == avg * n as real + x as real
  {
    (avg * n as real + x as real) / (n + 1) as real
  }

  lemma MeanIsQuotient(avg: real, n: nat, g: seq<Race>)
    requires MeanOf(avg, n, g) && n > 0
    ensures avg == TotalHorses(g) as real / n as real
  {
  }

  lemma MeanStep(avg: real, g: seq<Race>)
    requires g != [] && MeanOf(avg, |g| - 1, g[..|g| - 1])
    ensures MeanOf(NextMean(avg, |g| - 1, |g[|g| - 1].horses|), |g|, g)
  {
  }

  // ---------------------------------------------------------------- course

  datatype CourseBucket = CourseBucket(
    totalRaces: nat,
    avgField: real,
    surfaces: Table<string, nat>,
    distances: Table<int, nat>,
    levels: Table<string, nat>)

  const NoCourseRaces := CourseBucket(0, 0.0, [], [], [])

  function SurfaceOf(r: Race): Option<string> { Some(r.surface) }

  function DistanceOf(r: Race): Option<int> { Some(r.distance) }

  /** `levels[race.level]`: an absent level is counted under `"undefined"`. */
  function LevelOf(r: Race): Option<string> { Some(LevelText(r.level)) }

  function CourseOf(r: Race): Option<string> { Some(r.course) }

  /** One race added to its course's bucket. */
  function CourseStep(b: CourseBucket, r: Race): CourseBucket {
    CourseBucket(
      b.totalRaces + 1,
      NextMean(b.avgField, b.totalRaces, |r.horses|),
      Bump(b.surfaces, r.surface),
      Bump(b.distances, r.distance),
      Bump(b.levels, LevelText(r.level)))
  }

  /** A race without a result or without a course is skipped. */
  function CourseKey(r: Race): Option<string> {
    if !HasResult(r) || r.course == "" then None else Some(r.course)
  }

  /** What a course bucket means: the number of its races, their mean field
      size, and the surface, distance and level counts of exactly those races. */
  ghost predicate SummarisesCourse(b: CourseBucket, g: seq<Race>) {
    && MeanOf(b.avgField, b.totalRaces, g)
    && b.surfaces == Tabulate(g, SurfaceOf, 0, Inc)
    && b.distances == Tabulate(g, DistanceOf, 0, Inc)
    && b.levels == Tabulate(g, LevelOf, 0, Inc)
  }

  lemma {:induction false} FoldCourse(g: seq<Race>)
    ensures SummarisesCourse(Fold(g, NoCourseRaces, CourseStep), g)
    decreases |g|
  {
    if g != [] {
      FoldCourse(g[..|g| - 1]);
      CourseStepKeeps(Fold(g[..|g| - 1], NoCourseRaces, CourseStep), g);
    }
  }

  lemma CourseStepKeeps(b: CourseBucket, g: seq<Race>)
    requires g != [] && SummarisesCourse(b, g[..|g| - 1])
    ensures SummarisesCourse(CourseStep(b, g[|g| - 1]), g)
  {
    var r := g[|g| - 1];
    MeanStep(b.avgField, g);
    CountStep(g, SurfaceOf, r.surface);
    CountStep(g, DistanceOf, r.distance);
    CountStep(g, LevelOf, LevelText(r.level));
  }

  function CourseCounts(races: seq<Race>): Table<string, CourseBucket> {
    Tabulate(races, CourseKey, NoCourseRaces, CourseStep)
  }

  /** `parseFloat(avgField.toFixed(1))` on every bucket. */
  function RoundCourse(b: CourseBucket): CourseBucket {
    b.(avgField := Round1(b.avgField))
  }

  /** `calculateCourseStats`. */
  function CourseStatsOf(races: seq<Race>): Table<string, CourseBucket> {
    MapValues(CourseCounts(races), RoundCourse)
  }

  /** Each course bucket summarises exactly the resulted races run on that
      course: its count, its field sizes' mean (to within the one-decimal
      rounding), and breakdowns that each add up to the race count. */
  lemma CourseBucketMeaning(races: seq<Race>, c: string)
    ensures var g := Select(races, CourseKey, c);
      var b := Get(CourseStatsOf(races), c);
      && (b.None? <==> g == [])
      && (b.Some? ==>
        && c != ""
        && (forall i :: 0 <= i < |g| ==> HasResult(g[i]) && g[i].course == c)
        && b.value.totalRaces == |g| >= 1
        && TotalHorses(g) as real / |g| as real - 0.05 < b.value.avgField <= TotalHorses(g) as real / |g| as real + 0.05
        && SumBy(b.value.surfaces, Count) == b.value.totalRaces
        && SumBy(b.value.distances, Count) == b.value.totalRaces
        && SumBy(b.value.levels, Count) == b.value.totalRaces)
  {
    var g := Select(races, CourseKey, c);
    TabulateGroups(races, CourseKey, NoCourseRaces, CourseStep, c);
    MapValuesGet(CourseCounts(races), RoundCourse, c);
    if g != [] {
      assert g[0] in g;
      forall i | 0 <= i < |g|
        ensures HasResult(g[i]) && g[i].course == c
      {
        assert g[i] in g;
      }
      RawCourseBucket(g);
      Round1Close(Fold(g, NoCourseRaces, CourseStep).avgField);
    }
  }

  lemma RawCourseBucket(g: seq<Race>)
    requires g != []
    ensures var b := Fold(g, NoCourseRaces, CourseStep);
      && b.totalRaces == |g|
      && b.avgField == TotalHorses(g) as real / |g| as real
      && SumBy(b.surfaces, Count) == |g|
      && SumBy(b.distances, Count) == |g|
      && SumBy(b.levels, Count) == |g|
  {
    var b := Fold(g, NoCourseRaces, CourseStep);
    FoldCourse(g);
    MeanIsQuotient(b.avgField, b.totalRaces, g);
    BreakdownSum(g, SurfaceOf);
    BreakdownSum(g, DistanceOf);
    BreakdownSum(g, LevelOf);
  }

  // ---------------------------------------------------------------- distance

  datatype DistanceBucket = DistanceBucket(
    surface: string,
    distance: int,
    totalRaces: nat,
    avgField: real,
    courses: Table<string, nat>)

  const NoDistanceRaces := DistanceBucket("", 0, 0, 0.0, [])

  /** The `${surface}${distance}m` key, kept as the pair it is built from;
      a race without a result or with distance 0 is skipped. */
  function DistanceKey(r: Race): Option<(string, int)> {
    if !HasResult(r) || r.distance == 0 then None else Some((r.surface, r.distance))
  }

  /** One race added to its bucket; surface and distance are those of the
      bucket's key, which every race in it shares. */
  function DistanceStep(b: DistanceBucket, r: Race): DistanceBucket {
    DistanceBucket(
      r.surface,
      r.distance,
      b.totalRaces + 1,
      NextMean(b.avgField, b.totalRaces, |r.horses|),
      Bump(b.courses, r.course))
  }

  ghost predicate SummarisesDistance(b: DistanceBucket, g: seq<Race>) {
    && MeanOf(b.avgField, b.totalRaces, g)
    && b.courses == Tabulate(g, CourseOf, 0, Inc)
    && (g != [] ==> b.surface == g[|g| - 1].surface && b.distance == g[|g| - 1].distance)
  }

  lemma {:induction false} FoldDistance(g: seq<Race>)
    ensures SummarisesDistance(Fold(g, NoDistanceRaces, DistanceStep), g)
    decreases |g|
  {
    if g != [] {
      FoldDistance(g[..|g| - 1]);
      DistanceStepKeeps(Fold(g[..|g| - 1], NoDistanceRaces, DistanceStep), g);
    }
  }

  lemma DistanceStepKeeps(b: DistanceBucket, g: seq<Race>)
    requires g != [] && SummarisesDistance(b, g[..|g| - 1])
    ensures SummarisesDistance(DistanceStep(b, g[|g| - 1]), g)
  {
    var r := g[|g| - 1];
    MeanStep(b.avgField, g);
    CountStep(g, CourseOf, r.course);
  }

  function DistanceCounts(races: seq<Race>): Table<(string, int), DistanceBucket> {
    Tabulate(races, DistanceKey, NoDistanceRaces, DistanceStep)
  }

  function RoundDistance(b: DistanceBucket): DistanceBucket {
    b.(avgField := Round1(b.avgField))
  }

  /** `calculateDistanceStats`. */
  function DistanceStatsOf(races: seq<Race>): Table<(string, int), DistanceBucket> {
    MapValues(DistanceCounts(races), RoundDistance)
  }

  /** Each distance bucket summarises exactly the resulted races at that
      surface and non-zero distance, echoes its key, and its course
      breakdown adds up to its race count. */
  lemma DistanceBucketMeaning(races: seq<Race>, surface: string, distance: int)
    ensures var g := Select(races, DistanceKey, (surface, distance));
      var b := Get(DistanceStatsOf(races), (surface, distance));
      && (b.None? <==> g == [])
      && (b.Some? ==>
        && distance != 0
        && b.value.surface == surface && b.value.distance == distance
        && b.value.totalRaces == |g| >= 1
        && TotalHorses(g) as real / |g| as real - 0.05 < b.value.avgField <= TotalHorses(g) as real / |g| as real + 0.05
        && SumBy(b.value.courses, Count) == b.value.totalRaces)
  {
    var k := (surface, distance);
    var g := Select(races, DistanceKey, k);
    TabulateGroups(races, DistanceKey, NoDistanceRaces, DistanceStep, k);
    MapValuesGet(DistanceCounts(races), RoundDistance, k);
    if g != [] {
      assert g[|g| - 1] in g;
      RawDistanceBucket(g);
      Round1Close(Fold(g, NoDistanceRaces, DistanceStep).avgField);
    }
  }

  lemma RawDistanceBucket(g: seq<Race>)
    requires g != []
    ensures var b := Fold(g, NoDistanceRaces, DistanceStep);
      && b.totalRaces == |g|
      && b.avgField == TotalHorses(g) as real / |g| as real
      && b.surface == g[|g| - 1].surface && b.distance == g[|g| - 1].distance
      && SumBy(b.courses, Count) == |g|
  {
    var b := Fold(g, NoDistanceRaces, DistanceStep);
    FoldDistance(g);
    MeanIsQuotient(b.avgField, b.totalRaces, g);
    BreakdownSum(g, CourseOf);
  }
}

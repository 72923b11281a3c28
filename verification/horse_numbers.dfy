/** The gate-number statistics screen
    (`client/src/components/HorseNumberStatistics.tsx`): which gate numbers
    are shown and in what order, the sort-header toggle, and the
    multi-select filter state. The screen asks
    `localStorageApi.getHorseNumberStatistics` for its table, but no such
    method or server route exists, so the request fails, the error is
    logged and `stats` keeps its initial `{}`. The listing members below
    take `stats` as a parameter and describe the table a producer would
    supply; `InitialListingEmpty` is what the screen shows as written. */
module HorseNumbers {
  import opened Base
  import opened Tables
  import opened Sorting
  import opened Aggregation
  import opened StatisticsView

  // ---------------------------------------------------------------- rows

  /** `Object.keys(stats).map(parseInt).filter(n => n >= 1 && n <= 18)`, in key order. */
  function GateNumbers(stats: Table<int, RateRow>): (r: seq<int>)
    ensures forall n :: n in r <==> 1 <= n <= 18 && Get(stats, n).Some?
    ensures forall i :: 0 <= i < |r| ==> 1 <= r[i] <= 18
    ensures |r| <= |stats|
    decreases |stats|
  {
    if stats == [] then []
    else
      var rest := GateNumbers(stats[1..]);
      var k := stats[0].0;
      assert forall n :: Get(stats, n).Some? <==> n == k || Get(stats[1..], n).Some? by {
        forall n
          ensures Get(stats, n).Some? <==> n == k || Get(stats[1..], n).Some?
        {
          if Get(stats[1..], n).Some? {
            var i :| 0 <= i < |stats[1..]| && stats[1..][i].0 == n;
            assert stats[i + 1].0 == n;
          }
          if n != k && Get(stats, n).Some? {
            var i :| 0 <= i < |stats| && stats[i].0 == n;
            assert stats[1..][i - 1].0 == n;
          }
        }
      }
      if 1 <= k <= 18 then [k] + rest else rest
  }

  datatype Column = HorseNumber | TotalColumn | WinsColumn | WinRateColumn | PlaceRateColumn | ShowRateColumn

  datatype Direction = Asc | Desc

  datatype SortConfig = SortConfig(column: Column, direction: Direction)

  /** The value a column compares, `|| 0` for a missing bucket. */
  function ColumnValue(stats: Table<int, RateRow>, c: Column, n: int): real {
    match Get(stats, n)
    case None => if c == HorseNumber then n as real else 0.0
    case Some(row) =>
      match c
      case HorseNumber => n as real
      case TotalColumn => row.total as real
      case WinsColumn => row.wins as real
      case WinRateColumn => row.winRate
      case PlaceRateColumn => row.placeRate
      case ShowRateColumn => row.showRate
  }

  function By(stats: Table<int, RateRow>, c: Column): int -> real {
    n => ColumnValue(stats, c, n)
  }

  /** `getSortedHorseNumbers`: the shown gate numbers, numerically ascending
      without a sort setting, otherwise ordered by the chosen column in the
      chosen direction. */
  function SortedGateNumbers(stats: Table<int, RateRow>, config: Option<SortConfig>): (r: seq<int>)
    ensures multiset(r) == multiset(GateNumbers(stats))
    ensures config.None? ==> forall i, j :: 0 <= i < j < |r| ==> r[i] <= r[j]
    ensures config.Some? && config.value.direction == Asc ==> SortedAsc(r, By(stats, config.value.column))
    ensures config.Some? && config.value.direction == Desc ==> SortedDesc(r, By(stats, config.value.column))
  {
    var shown := GateNumbers(stats);
    match config
    case None =>
      var r := SortAsc(shown, AsReal);
      assert forall i, j :: 0 <= i < j < |r| ==> AsReal(r[i]) <= AsReal(r[j]);
      r
    case Some(SortConfig(c, Asc)) => SortAsc(shown, By(stats, c))
    case Some(SortConfig(c, Desc)) => SortDesc(shown, By(stats, c))
  }

  /** The initial empty table lists no gate number under any sort, so the
      screen as written always shows an empty table. */
  lemma InitialListingEmpty(config: Option<SortConfig>)
    ensures SortedGateNumbers([], config) == []
  {
    assert |GateNumbers([])| == 0;
  }

  /** `handleSort`: descending only when the same column is clicked while
      ascending, ascending otherwise. */
  function HandleSort(config: Option<SortConfig>, c: Column): (r: SortConfig)
    ensures r.column == c
    ensures r.direction == Desc <==> config == Some(SortConfig(c, Asc))
  {
    if config.Some? && config.value.column == c && config.value.direction == Asc
    then SortConfig(c, Desc) else SortConfig(c, Asc)
  }

  /** Clicking one header repeatedly alternates its direction, starting
      from ascending unless it was already ascending. */
  lemma SortClicksAlternate(config: Option<SortConfig>, c: Column)
    ensures var first := HandleSort(config, c);
      var second := HandleSort(Some(first), c);
      && second.direction != first.direction
      && HandleSort(Some(second), c) == first
  {
  }

  // ---------------------------------------------------------------- filters

  datatype FilterKey = CourseKey | SurfaceKey | DistanceKey | LevelKey

  /** The four selected-value lists. */
  datatype MultiFilters = MultiFilters(course: seq<string>, surface: seq<string>, distance: seq<string>, level: seq<string>)

  function ValuesOf(f: MultiFilters, k: FilterKey): seq<string> {
    match k
    case CourseKey => f.course
    case SurfaceKey => f.surface
    case DistanceKey => f.distance
    case LevelKey => f.level
  }

  function WithValues(f: MultiFilters, k: FilterKey, vs: seq<string>): (r: MultiFilters)
    ensures ValuesOf(r, k) == vs
    ensures forall k' :: k' != k ==> ValuesOf(r, k') == ValuesOf(f, k')
  {
    match k
    case CourseKey => f.(course := vs)
    case SurfaceKey => f.(surface := vs)
    case DistanceKey => f.(distance := vs)
    case LevelKey => f.(level := vs)
  }

  /** `vs.filter(x => x !== v)` */
  function RemoveAll(vs: seq<string>, v: string): (r: seq<string>)
    ensures forall x :: x in r <==> x in vs && x != v
    ensures v !in vs ==> r == vs
    ensures multiset(r) == multiset(vs)[v := 0]
    decreases |vs|
  {
    if vs == [] then []
    else
      var rest := RemoveAll(vs[1..], v);
      assert vs == [vs[0]] + vs[1..];
      if vs[0] == v then rest else [vs[0]] + rest
  }

  /** Select a value that is not selected (appending it), or deselect every
      occurrence of one that is. */
  function Toggle(vs: seq<string>, v: string): (r: seq<string>)
    ensures v in r <==> v !in vs
    ensures forall x :: x != v ==> (x in r <==> x in vs)
    ensures v !in vs ==> r == vs + [v]
    ensures v in vs ==> multiset(r) == multiset(vs)[v := 0]
  {
    if v in vs then RemoveAll(vs, v) else vs + [v]
  }

  /** Removal works piecewise: the kept values of a concatenation are the
      kept values of each part, in order, so every other value keeps its
      position relative to the rest. */
  lemma {:induction false} RemoveAllConcat(a: seq<string>, b: seq<string>, v: string)
    ensures RemoveAll(a + b, v) == RemoveAll(a, v) + RemoveAll(b, v)
    decreases |a|
  {
    if a == [] {
      assert a + b == b;
    } else {
      assert (a + b)[0] == a[0];
      assert (a + b)[1..] == a[1..] + b;
      RemoveAllConcat(a[1..], b, v);
    }
  }

  /** Selecting and then deselecting a value restores the list. */
  lemma ToggleTwice(vs: seq<string>, v: string)
    requires v !in vs
    ensures Toggle(Toggle(vs, v), v) == vs
  {
    var once := vs + [v];
    assert v in once;
    assert RemoveAll(once, v) == RemoveAll(vs, v) by {
      RemoveAllAppend(vs, v);
    }
  }

  lemma {:induction false} RemoveAllAppend(vs: seq<string>, v: string)
    ensures RemoveAll(vs + [v], v) == RemoveAll(vs, v)
    decreases |vs|
  {
    if vs == [] {
      assert RemoveAll([v], v) == RemoveAll([], v);
    } else {
      assert (vs + [v])[1..] == vs[1..] + [v];
      RemoveAllAppend(vs[1..], v);
    }
  }

  /** `handleFilterChange`: toggles one value under one key and leaves the
      other keys alone. */
  function HandleFilterChange(f: MultiFilters, k: FilterKey, v: string): (r: MultiFilters)
    ensures forall k' :: k' != k ==> ValuesOf(r, k') == ValuesOf(f, k')
    ensures v in ValuesOf(r, k) <==> v !in ValuesOf(f, k)
    ensures forall x :: x != v ==> (x in ValuesOf(r, k) <==> x in ValuesOf(f, k))
  {
    WithValues(f, k, Toggle(ValuesOf(f, k), v))
  }

  const AllKeys := [CourseKey, SurfaceKey, DistanceKey, LevelKey]

  lemma EveryKeyListed()
    ensures forall k :: k in AllKeys
  {
    forall k
      ensures k in AllKeys
    {
      match k
      case CourseKey => assert AllKeys[0] == k;
      case SurfaceKey => assert AllKeys[1] == k;
      case DistanceKey => assert AllKeys[2] == k;
      case LevelKey => assert AllKeys[3] == k;
    }
  }

  const Cleared := MultiFilters([], [], [], [])

  /** The request parameters: only the keys with a non-empty selection. */
  function Params(f: MultiFilters): (r: Table<FilterKey, seq<string>>)
    ensures forall k :: Get(r, k).Some? <==> ValuesOf(f, k) != []
    ensures forall k :: Get(r, k).Some? ==> Get(r, k).value == ValuesOf(f, k)
  {
    EveryKeyListed();
    Kept(f, AllKeys)
  }

  function Kept(f: MultiFilters, ks: seq<FilterKey>): (r: Table<FilterKey, seq<string>>)
    ensures forall k :: Get(r, k).Some? <==> k in ks && ValuesOf(f, k) != []
    ensures forall k :: Get(r, k).Some? ==> Get(r, k).value == ValuesOf(f, k)
    decreases |ks|
  {
    if ks == [] then []
    else
      var rest := Kept(f, ks[1..]);
      assert forall k :: k in ks <==> k == ks[0] || k in ks[1..];
      if ValuesOf(f, ks[0]) != [] then [(ks[0], ValuesOf(f, ks[0]))] + rest else rest
  }

  /** After `clearFilters` no parameter is sent. */
  lemma ClearedSendsNothing()
    ensures forall k :: Get(Params(Cleared), k).None?
  {
  }
}

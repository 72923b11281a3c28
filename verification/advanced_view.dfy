/** The jockey statistics screen
    (`client/src/components/AdvancedStatistics.tsx`): single-choice filters
    sent to the server's jockey statistics, and the ranking of jockeys with
    at least three rides. */
module AdvancedView {
  import opened Base
  import opened Text
  import opened Tables
  import opened Model
  import opened RaceFilter
  import opened Sorting
  import opened Aggregation

  /** One chosen value per key; `''` means "all". */
  datatype Choice = Choice(course: string, surface: string, distance: string, level: string)

  const NoChoice := Choice("", "", "", "")

  datatype ChoiceKey = CourseChoice | SurfaceChoice | DistanceChoice | LevelChoice

  function ChoiceOf(f: Choice, k: ChoiceKey): string {
    match k
    case CourseChoice => f.course
    case SurfaceChoice => f.surface
    case DistanceChoice => f.distance
    case LevelChoice => f.level
  }

  /** `handleFilterChange`: `{ ...prev, [key]: value }`. */
  function HandleFilterChange(f: Choice, k: ChoiceKey, v: string): (r: Choice)
    ensures ChoiceOf(r, k) == v
    ensures forall k' :: k' != k ==> ChoiceOf(r, k') == ChoiceOf(f, k')
  {
    match k
    case CourseChoice => f.(course := v)
    case SurfaceChoice => f.(surface := v)
    case DistanceChoice => f.(distance := v)
    case LevelChoice => f.(level := v)
  }

  /** A parameter is sent only for a key whose value is not `''`. */
  function Param(v: string): (r: FilterValue)
    ensures r.Absent? <==> v == ""
    ensures r.Single? ==> r.value == v
  {
    if v == "" then Absent else Single(v)
  }

  /** The query the screen sends. */
  function Params(f: Choice): Filters {
    Filters(Param(f.course), Param(f.surface), Param(f.distance), Param(f.level))
  }

  /** The server reads the query as: each chosen key must equal the race's
      value (the distance after `parseInt`), and a cleared key asks for
      nothing; omitting `''` keys changes no decision the server makes. */
  lemma ParamsSelect(f: Choice, r: Race)
    ensures Passes(Params(f), r) <==>
      && (f.course == "" || r.course == f.course)
      && (f.surface == "" || r.surface == f.surface)
      && (f.distance == "" || ParseInt(f.distance) == Some(r.distance))
      && (f.level == "" || r.level == Some(f.level))
    ensures Passes(Params(f), r) == Passes(Filters(Single(f.course), Single(f.surface), Single(f.distance), Single(f.level)), r)
  {
    ParamKey(f.course, r.course);
    ParamKey(f.surface, r.surface);
    ParamLevel(f.level, r.level);
    ParamDistance(f.distance, r.distance);
  }

  lemma ParamKey(v: string, value: string)
    ensures !KeyRejects(Param(v), value) <==> v == "" || value == v
    ensures KeyRejects(Param(v), value) == KeyRejects(Single(v), value)
  {
  }

  lemma ParamLevel(v: string, level: Option<string>)
    ensures !LevelRejects(Param(v), level) <==> v == "" || level == Some(v)
    ensures LevelRejects(Param(v), level) == LevelRejects(Single(v), level)
  {
  }

  lemma ParamDistance(v: string, distance: int)
    ensures !DistanceRejects(Param(v), distance) <==> v == "" || ParseInt(v) == Some(distance)
    ensures DistanceRejects(Param(v), distance) == DistanceRejects(Single(v), distance)
  {
    if v != "" {
      assert ParsedDistances(Single(v)) == [ParseInt(v)];
    }
  }

  /** `clearFilters` resets every key and so lets every race through. */
  lemma ClearedPassesAll(r: Race)
    ensures forall k :: ChoiceOf(NoChoice, k) == ""
    ensures Passes(Params(NoChoice), r)
  {
  }

  // ---------------------------------------------------------------- ranking

  function RowRate(e: (string, RateRow)): real { e.1.winRate }

  /** `.filter(([_, s]) => s.total >= 3)` */
  function Regulars(stats: Table<string, RateRow>): (r: seq<(string, RateRow)>)
    ensures forall e :: e in r <==> e in stats && e.1.total >= 3
    decreases |stats|
  {
    if stats == [] then []
    else
      var rest := Regulars(stats[1..]);
      assert forall e :: e in stats <==> e == stats[0] || e in stats[1..];
      if stats[0].1.total >= 3 then [stats[0]] + rest else rest
  }

  /** `renderJockeyStats`: the jockeys with at least three rides, each once,
      best win rate first. */
  function JockeyRanking(stats: Table<string, RateRow>): (r: seq<(string, RateRow)>)
    ensures multiset(r) == multiset(Regulars(stats))
    ensures forall e :: e in r <==> e in stats && e.1.total >= 3
    ensures forall i, j :: 0 <= i < j < |r| ==> r[i].1.winRate >= r[j].1.winRate
  {
    var r := SortDesc(Regulars(stats), RowRate);
    assert forall e :: e in r <==> e in multiset(r);
    assert forall e :: e in Regulars(stats) <==> e in multiset(Regulars(stats));
    assert forall i, j :: 0 <= i < j < |r| ==> RowRate(r[i]) >= RowRate(r[j]);
    r
  }

  /** Every jockey the screen lists for the server's statistics is a named
      jockey with at least three rides and a good row. */
  lemma RankingOfServerStats(races: seq<Race>, f: Choice)
    ensures var r := JockeyRanking(ServerJockeyStats(races, Params(f)));
      forall i :: 0 <= i < |r| ==> r[i].0 != "" && r[i].1.total >= 3 && GoodRow(r[i].1)
  {
    var stats := ServerJockeyStats(races, Params(f));
    var r := JockeyRanking(stats);
    forall i | 0 <= i < |r|
      ensures r[i].0 != "" && GoodRow(r[i].1)
    {
      assert r[i] in r;
      var j :| 0 <= j < |stats| && stats[j] == r[i];
    }
  }
}

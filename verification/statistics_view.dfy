/** The popularity statistics screen (`client/src/components/Statistics.tsx`):
    rows listed by popularity, the overall roll-up of the buckets, and the
    break-even odds shown beside each win rate. The roll-up is the same on
    the gate-number screen. */
module StatisticsView {
  import opened Base
  import opened Tables
  import opened Model
  import opened RaceFilter
  import opened Sorting
  import opened Aggregation

  /** `Object.keys(stats)` */
  function KeysOf<K, V>(t: Table<K, V>): (ks: seq<K>)
    ensures |ks| == |t|
    ensures forall i :: 0 <= i < |t| ==> ks[i] == t[i].0
  {
    seq(|t|, i requires 0 <= i < |t| => t[i].0)
  }

  function AsReal(k: int): real { k as real }

  /** `Object.keys(stats).sort((a, b) => parseInt(a) - parseInt(b))`: every
      popularity once, smallest first. */
  function SortedPopularities(stats: Table<int, RateRow>): (r: seq<int>)
    ensures multiset(r) == multiset(KeysOf(stats))
    ensures forall i, j :: 0 <= i < j < |r| ==> r[i] <= r[j]
  {
    var r := SortAsc(KeysOf(stats), AsReal);
    assert forall i, j :: 0 <= i < j < |r| ==> AsReal(r[i]) <= AsReal(r[j]);
    r
  }

  function Runs(r: RateRow): int { r.total }
  function Wins(r: RateRow): int { r.wins }
  function Places(r: RateRow): int { r.places }
  function Shows(r: RateRow): int { r.shows }

  ghost predicate NestedRows<K>(stats: Table<K, RateRow>) {
    forall i :: 0 <= i < |stats| ==> stats[i].1.wins <= stats[i].1.places <= stats[i].1.shows <= stats[i].1.total
  }

  /** `getTotalRaces`: the wins over all buckets; never more than the runs
      when every bucket's wins are within its runs. */
  function TotalRaces<K>(stats: Table<K, RateRow>): (n: int)
    ensures n >= 0
    ensures NestedRows(stats) ==> n <= SumBy(stats, Runs)
  {
    SumByNonNeg(stats, Wins);
    NestedSumsWhen(stats);
    SumBy(stats, Wins)
  }

  datatype Overall = Overall(
    totalRuns: int,
    totalWins: int,
    totalPlaces: int,
    totalShows: int,
    winRate: real,
    placeRate: real,
    showRate: real)

  lemma NestedSums<K>(stats: Table<K, RateRow>)
    requires NestedRows(stats)
    ensures 0 <= SumBy(stats, Wins) <= SumBy(stats, Places) <= SumBy(stats, Shows) <= SumBy(stats, Runs)
  {
    SumByNonNeg(stats, Wins);
    SumByMonotone(stats, Wins, Places);
    SumByMonotone(stats, Places, Shows);
    SumByMonotone(stats, Shows, Runs);
  }

  lemma NestedSumsWhen<K>(stats: Table<K, RateRow>)
    ensures NestedRows(stats) ==>
      0 <= SumBy(stats, Wins) <= SumBy(stats, Places) <= SumBy(stats, Shows) <= SumBy(stats, Runs)
  {
    if NestedRows(stats) {
      NestedSums(stats);
    }
  }

  /** `getOverallStats`: the four counters summed over every bucket, and
      one-decimal percentages of the runs (`"0.0"` without runs). Nested
      buckets give nested totals and ordered rates. */
  function OverallStats<K>(stats: Table<K, RateRow>): (o: Overall)
    ensures o.totalRuns == SumBy(stats, Runs) && o.totalWins == SumBy(stats, Wins)
    ensures o.totalPlaces == SumBy(stats, Places) && o.totalShows == SumBy(stats, Shows)
    ensures o.totalRuns <= 0 ==> o.winRate == 0.0 && o.placeRate == 0.0 && o.showRate == 0.0
    ensures o.totalRuns > 0 ==>
      o.totalWins as real / o.totalRuns as real * 100.0 - 0.05 < o.winRate <= o.totalWins as real / o.totalRuns as real * 100.0 + 0.05
    ensures o.totalRuns > 0 ==>
      o.totalPlaces as real / o.totalRuns as real * 100.0 - 0.05 < o.placeRate <= o.totalPlaces as real / o.totalRuns as real * 100.0 + 0.05
    ensures o.totalRuns > 0 ==>
      o.totalShows as real / o.totalRuns as real * 100.0 - 0.05 < o.showRate <= o.totalShows as real / o.totalRuns as real * 100.0 + 0.05
    ensures o.winRate == Percent1(o.totalWins, o.totalRuns) && o.placeRate == Percent1(o.totalPlaces, o.totalRuns)
    ensures o.showRate == Percent1(o.totalShows, o.totalRuns)
    ensures NestedRows(stats) ==>
      && 0 <= o.totalWins <= o.totalPlaces <= o.totalShows <= o.totalRuns
      && 0.0 <= o.winRate <= o.placeRate <= o.showRate <= 100.0
  {
    var runs, wins, places, shows := SumBy(stats, Runs), SumBy(stats, Wins), SumBy(stats, Places), SumBy(stats, Shows);
    NestedSumsWhen(stats);
    var o := Overall(runs, wins, places, shows, Percent1(wins, runs), Percent1(places, runs), Percent1(shows, runs));
    if wins <= places <= shows then
      Percent1Monotone(wins, places, runs);
      Percent1Monotone(places, shows, runs);
      o
    else o
  }

  /** The server's popularity statistics always roll up to nested totals
      with ordered rates. */
  lemma ServerOverallNested(races: seq<Race>, f: Filters)
    ensures var o := OverallStats(ServerPopularityStats(races, f));
      && 0 <= o.totalWins <= o.totalPlaces <= o.totalShows <= o.totalRuns
      && 0.0 <= o.winRate <= o.placeRate <= o.showRate <= 100.0
  {
    var stats := ServerPopularityStats(races, f);
    assert forall i :: 0 <= i < |stats| ==> GoodRow(stats[i].1);
  }

  lemma OneCentury()
    ensures Round1(1.0) == 1.0
  {
    assert 10.0 * 1.0 + 0.5 == 10.5;
  }

  /** The break-even odds column: `100 / winRate` to one decimal when the
      win rate is positive, `'---'` (`None`) otherwise; a win rate of at
      most 100% never breaks even below odds of 1. */
  function BreakEven(winRate: real): (r: Option<real>)
    ensures r.Some? <==> winRate > 0.0
    ensures r.Some? ==> 100.0 / winRate - 0.05 < r.value <= 100.0 / winRate + 0.05
    ensures r.Some? && winRate <= 100.0 ==> r.value >= 1.0
  {
    if winRate > 0.0 then
      Round1Close(100.0 / winRate);
      AtLeastOneWhen(winRate);
      Some(Round1(100.0 / winRate))
    else None
  }

  lemma AtLeastOneWhen(winRate: real)
    requires winRate > 0.0
    ensures winRate <= 100.0 ==> Round1(100.0 / winRate) >= 1.0
  {
    if winRate <= 100.0 {
      assert 100.0 / winRate >= 1.0;
      Round1Monotone(1.0, 100.0 / winRate);
      OneCentury();
    }
  }
}

/** The browser copy's predictor and weight heuristic
    (`client/src/services/localStorageApi.ts`): a clamped score built from
    popularity, the jockey's one-decimal win percentage and the odds, and
    weights derived from how well each factor picked past winners.
    `Math.log(odds) / Math.log(20)` is the parameter `logRatio`. */
module ClientPredict {
  import opened Base
  import opened Tables
  import opened Model
  import opened RaceFilter
  import opened Grouping
  import opened Aggregation
  import opened Sorting
  import opened Engine

  // ---------------------------------------------------------------- scores

  /** `max(0, 1 - (popularity - 1) / horses.length)`; above 1 for a popularity below 1. */
  function PopularityScore(h: Horse, fieldSize: nat): (r: real)
    requires fieldSize > 0
    ensures r >= 0.0
    ensures h.popularity >= 1 ==> r <= 1.0
    ensures 1 <= h.popularity <= fieldSize + 1 ==> r * fieldSize as real == (fieldSize - h.popularity + 1) as real
  {
    MaxR(0.0, 1.0 - (h.popularity - 1) as real / fieldSize as real)
  }

  /** A more popular horse (smaller number) never scores lower. */
  lemma PopularityScoreMonotone(h1: Horse, h2: Horse, fieldSize: nat)
    requires fieldSize > 0 && h1.popularity <= h2.popularity
    ensures PopularityScore(h2, fieldSize) <= PopularityScore(h1, fieldSize)
  {
    DivMonotone((h1.popularity - 1) as real, (h2.popularity - 1) as real, fieldSize as real);
  }

  lemma DivMonotone(a: real, b: real, n: real)
    requires a <= b && n > 0.0
    ensures a / n <= b / n
  {
  }

  /** `max(0, 1 - log(odds) / log(20))`, given the logarithm ratio. */
  function OddsScore(logRatio: real): (r: real)
    ensures r >= 0.0
    ensures logRatio >= 0.0 ==> r <= 1.0
    ensures logRatio >= 1.0 <==> r == 0.0
  {
    MaxR(0.0, 1.0 - logRatio)
  }

  /** `parseFloat(jockeyData.winRate) / 100`, present only when the jockey has a row. */
  function JockeyScore(stats: Table<string, JockeyRow>, jockey: string): (r: Option<real>)
    ensures r.None? <==> Get(stats, jockey).None?
    ensures r.Some? ==> r.value * 100.0 == Get(stats, jockey).value.rates.winRate
  {
    match Get(stats, jockey)
    case None => None
    case Some(row) => Some(row.rates.winRate / 100.0)
  }

  /** One horse: the base weight's half, plus each factor's score times its
      weight (the jockey term only with a jockey row), clamped to [0, 1];
      confidence rises linearly from 0.6 to 0.9 with the clamped rate. */
  function PredictHorse(stats: Table<string, JockeyRow>, h: Horse, fieldSize: nat, w: Weights, logRatio: real -> real): (p: Prediction)
    requires fieldSize > 0
    ensures p.horse == h
    ensures 0.0 <= p.predictedWinRate <= 1.0
    ensures p.confidence == 0.6 + p.predictedWinRate * 0.3
    ensures 0.6 <= p.confidence <= 0.9
    ensures p.popularity == Factor(PopularityScore(h, fieldSize), w.popularity)
    ensures p.distance == Factor(OddsScore(logRatio(h.odds)), w.distance)
    ensures p.jockey.weight == w.jockey
    ensures p.jockey.rate == if Get(stats, h.jockey).Some? then Get(stats, h.jockey).value.rates.winRate / 100.0 else 0.0
    ensures var raw := Score(w, p.popularity.rate, JockeyScore(stats, h.jockey), p.distance.rate);
      && (0.0 <= raw <= 1.0 ==> p.predictedWinRate == raw)
      && (raw < 0.0 ==> p.predictedWinRate == 0.0)
      && (raw > 1.0 ==> p.predictedWinRate == 1.0)
  {
    var ps := PopularityScore(h, fieldSize);
    var js := JockeyScore(stats, h.jockey);
    var os := OddsScore(logRatio(h.odds));
    var rate := Clamp01(Score(w, ps, js, os));
    Prediction(h, rate, 0.6 + rate * 0.3, Factor(ps, w.popularity), Factor(js.GetOr(0.0), w.jockey), Factor(os, w.distance))
  }

  /** The unclamped score. */
  function Score(w: Weights, ps: real, js: Option<real>, os: real): real {
    w.base * 0.5 + w.popularity * ps + (if js.Some? then w.jockey * js.value else 0.0) + w.distance * os
  }

  /** With a non-negative popularity weight, of two horses with the same
      jockey and odds the more popular one is predicted no lower. */
  lemma PredictMonotone(stats: Table<string, JockeyRow>, h1: Horse, h2: Horse, fieldSize: nat, w: Weights, logRatio: real -> real)
    requires fieldSize > 0 && w.popularity >= 0.0
    requires h1.jockey == h2.jockey && h1.odds == h2.odds && h1.popularity <= h2.popularity
    ensures PredictHorse(stats, h2, fieldSize, w, logRatio).predictedWinRate
      <= PredictHorse(stats, h1, fieldSize, w, logRatio).predictedWinRate
  {
    var s1, s2 := PopularityScore(h1, fieldSize), PopularityScore(h2, fieldSize);
    PopularityScoreMonotone(h1, h2, fieldSize);
    MulMonotone(s2, s1, w.popularity);
    assert w.popularity * s2 <= w.popularity * s1;
    var js := JockeyScore(stats, h1.jockey);
    var os := OddsScore(logRatio(h1.odds));
    assert Score(w, s2, js, os) <= Score(w, s1, js, os);
  }

  /** `horses.map(...)` */
  function PredictAll(stats: Table<string, JockeyRow>, horses: seq<Horse>, w: Weights, logRatio: real -> real): (ps: seq<Prediction>)
    ensures |ps| == |horses|
    ensures forall i :: 0 <= i < |ps| ==> ps[i] == PredictHorse(stats, horses[i], |horses|, w, logRatio)
  {
    seq(|horses|, i requires 0 <= i < |horses| => PredictHorse(stats, horses[i], |horses|, w, logRatio))
  }

  lemma {:induction false} ConfidenceSumWithin(ps: seq<Prediction>)
    requires forall i :: 0 <= i < |ps| ==> 0.6 <= ps[i].confidence <= 0.9
    ensures 0.6 * |ps| as real <= ConfidenceSum(ps) <= 0.9 * |ps| as real
    decreases |ps|
  {
    if ps != [] {
      ConfidenceSumWithin(ps[..|ps| - 1]);
    }
  }

  lemma MeanWithin(s: real, n: real)
    requires n > 0.0 && 0.6 * n <= s <= 0.9 * n
    ensures 0.6 <= s / n <= 0.9
  {
  }

  /** `reduce((sum, p) => sum + p.confidence, 0) / length`, `None` for `NaN`. */
  function MeanConfidence(ps: seq<Prediction>): (r: Option<real>)
    requires forall i :: 0 <= i < |ps| ==> 0.6 <= ps[i].confidence <= 0.9
    ensures r.None? <==> ps == []
    ensures r.Some? ==> 0.6 <= r.value <= 0.9 && r.value * |ps| as real == ConfidenceSum(ps)
  {
    if ps == [] then None
    else
      ConfidenceSumWithin(ps);
      MeanWithin(ConfidenceSum(ps), |ps| as real);
      Some(ConfidenceSum(ps) / |ps| as real)
  }

  /** `predictRace` in the browser: the jockey rows come from the unfiltered
      client statistics, the weights are the caller's or 0.4/0.3/0.2/0.1 and
      are not normalised; one prediction per horse, non-increasing by rate,
      the first five recommended, and the mean confidence (`None` for the
      `NaN` of a race without horses). */
  function PredictRace(races: seq<Race>, race: Race, custom: Option<Weights>, logRatio: real -> real): (r: RacePrediction)
    ensures multiset(r.predictions) == multiset(PredictAll(ClientJockeyStats(races, NoFilters), race.horses, ChosenWeights(custom), logRatio))
    ensures SortedDesc(r.predictions, PredRate)
    ensures |r.predictions| == |race.horses|
    ensures |r.topRecommendations| == Min(5, |race.horses|)
    ensures forall i :: 0 <= i < |r.topRecommendations| ==> r.topRecommendations[i] == r.predictions[i]
    ensures r.averageConfidence.None? <==> race.horses == []
    ensures r.averageConfidence.Some? ==> 0.6 <= r.averageConfidence.value <= 0.9
    ensures r.averageConfidence.Some? ==> r.averageConfidence.value == ConfidenceSum(r.predictions) / |race.horses| as real
  {
    var all := PredictAll(ClientJockeyStats(races, NoFilters), race.horses, ChosenWeights(custom), logRatio);
    var r := Ranked(all);
    assert |all| == |race.horses|;
    r
  }

  /** The predictions best first, the first five of them, and their mean
      confidence. */
  function Ranked(all: seq<Prediction>): (r: RacePrediction)
    requires forall i :: 0 <= i < |all| ==> 0.6 <= all[i].confidence <= 0.9
    ensures multiset(r.predictions) == multiset(all)
    ensures SortedDesc(r.predictions, PredRate)
    ensures |r.predictions| == |all|
    ensures |r.topRecommendations| == Min(5, |all|)
    ensures forall i :: 0 <= i < |r.topRecommendations| ==> r.topRecommendations[i] == r.predictions[i]
    ensures r.averageConfidence.None? <==> all == []
    ensures r.averageConfidence.Some? ==> 0.6 <= r.averageConfidence.value <= 0.9
    ensures r.averageConfidence.Some? ==> r.averageConfidence.value == ConfidenceSum(r.predictions) / |all| as real
  {
    var sorted := SortDesc(all, PredRate);
    forall i | 0 <= i < |sorted|
      ensures 0.6 <= sorted[i].confidence <= 0.9
    {
      assert sorted[i] in multiset(all);
      var j :| 0 <= j < |all| && all[j] == sorted[i];
    }
    var mean := MeanConfidence(sorted);
    assert |sorted| == |all|;
    RacePrediction(sorted, Take(sorted, 5), mean)
  }

  /** The jockey factor of a prediction is 0 for a jockey without a row,
      and otherwise (for a named jockey) the jockey's one-decimal win
      percentage over a hundred, a number in [0, 1]. */
  lemma JockeyFactor(races: seq<Race>, h: Horse, fieldSize: nat, w: Weights, logRatio: real -> real)
    requires fieldSize > 0
    ensures var stats := ClientJockeyStats(races, NoFilters);
      var p := PredictHorse(stats, h, fieldSize, w, logRatio);
      && (Get(stats, h.jockey).None? ==> p.jockey.rate == 0.0)
      && (Get(stats, h.jockey).Some? ==> h.jockey != "" && 0.0 <= p.jockey.rate <= 1.0)
  {
    var stats := ClientJockeyStats(races, NoFilters);
    if Get(stats, h.jockey).Some? {
      ClientJockeyRowGood(races, NoFilters, h.jockey);
    }
  }

  // ---------------------------------------------------------------- accuracies

  /** `race.result?.["1着"] === horse.name` */
  predicate IsWinner(e: Entrant) {
    e.1.result.Some? && NameIs(e.1.result.value.first, e.0.name)
  }

  /** Every entrant of the given races, scored. */
  function Scored(races: seq<Race>, f: Entrant -> real): (r: seq<real>)
    ensures |r| == |AllEntrants(races)|
    ensures forall i :: 0 <= i < |r| ==> r[i] == f(AllEntrants(races)[i])
  {
    var es := AllEntrants(races);
    seq(|es|, i requires 0 <= i < |es| => f(es[i]))
  }

  /** A winner's popularity score `max(0, (n - popularity + 1) / n)`; 0 for the others. */
  function PopularityHit(e: Entrant): (r: real)
    ensures r >= 0.0
    ensures e.0.popularity >= 1 ==> r <= 1.0
  {
    var n := |e.1.horses|;
    // n is never 0 for an entrant of the race: the guard only keeps the division defined
    if IsWinner(e) && n > 0 then MaxR(0.0, (n - e.0.popularity + 1) as real / n as real) else 0.0
  }

  /** A winner's odds score `max(0, min(1, (10 - odds) / 10))`; 0 for the others. */
  function OddsHit(e: Entrant): (r: real)
    ensures 0.0 <= r <= 1.0
  {
    if IsWinner(e) then MaxR(0.0, MinR(1.0, (10.0 - e.0.odds) / 10.0)) else 0.0
  }

  lemma MeanInUnit(s: real, n: real, hi: real)
    requires n > 0.0 && 0.0 <= hi && 0.0 <= s <= n * hi
    ensures 0.0 <= s / n <= hi
  {
  }

  lemma {:induction false} SumRealNonNeg(s: seq<real>)
    requires forall i :: 0 <= i < |s| ==> s[i] >= 0.0
    ensures SumReal(s) >= 0.0
    decreases |s|
  {
    if s != [] {
      SumRealNonNeg(s[..|s| - 1]);
    }
  }

  lemma MeanTimesCount(s: real, n: real)
    requires n > 0.0
    ensures (s / n) * n == s
  {
  }

  /** The arithmetic mean of a non-empty list. */
  function Mean(s: seq<real>): (m: real)
    requires |s| > 0
    ensures m * |s| as real == SumReal(s)
  {
    MeanTimesCount(SumReal(s), |s| as real);
    SumReal(s) / |s| as real
  }

  /** The mean of numbers in [0, hi] lies in [0, hi]. */
  lemma MeanBounds(s: seq<real>, hi: real)
    requires |s| > 0 && 0.0 <= hi
    requires forall i :: 0 <= i < |s| ==> 0.0 <= s[i] <= hi
    ensures 0.0 <= Mean(s) <= hi
  {
    SumRealBounds(s, 0.0, hi);
    MeanInUnit(SumReal(s), |s| as real, hi);
  }

  lemma MeanNonNeg(s: seq<real>)
    requires |s| > 0
    requires forall i :: 0 <= i < |s| ==> 0.0 <= s[i]
    ensures 0.0 <= Mean(s)
  {
    SumRealNonNeg(s);
    MeanInUnit(SumReal(s), |s| as real, SumReal(s) / |s| as real + 1.0);
  }

  /** `calculatePopularityAccuracy`: the winners' popularity scores summed
      and divided by the number of entrants of the resulted races, 0.3 when
      there is none. */
  function PopularityAccuracy(races: seq<Race>): (r: real)
    ensures r >= 0.0
    ensures TotalHorses(Resulted(races)) == 0 ==> r == 0.3
    ensures TotalHorses(Resulted(races)) > 0 ==>
      r == SumReal(Scored(Resulted(races), PopularityHit)) / TotalHorses(Resulted(races)) as real
  {
    var rs := Resulted(races);
    if rs == [] then 0.3
    else
      var sc := Scored(rs, PopularityHit);
      if |sc| == 0 then 0.3
      else
        MeanNonNeg(sc);
        Mean(sc)
  }

  /** When every horse carries a popularity of at least 1 the accuracy is at most 1. */
  lemma PopularityAccuracyAtMostOne(races: seq<Race>)
    requires forall x, h :: x in races && h in x.horses ==> h.popularity >= 1
    ensures PopularityAccuracy(races) <= 1.0
  {
    var rs := Resulted(races);
    var sc := Scored(rs, PopularityHit);
    if rs != [] && |sc| > 0 {
      forall i | 0 <= i < |sc|
        ensures sc[i] <= 1.0
      {
        var e := AllEntrants(rs)[i];
        assert e in AllEntrants(rs);
      }
      MeanBounds(sc, 1.0);
    }
  }

  /** `calculateDistanceAccuracy`: the winners' odds scores summed and
      divided by the number of entrants of the resulted races, scaled by 0.4;
      0.15 when there is none. */
  function DistanceAccuracy(races: seq<Race>): (r: real)
    ensures 0.0 <= r <= 0.4
    ensures TotalHorses(Resulted(races)) == 0 ==> r == 0.15
    ensures TotalHorses(Resulted(races)) > 0 ==>
      r == SumReal(Scored(Resulted(races), OddsHit)) / TotalHorses(Resulted(races)) as real * 0.4
  {
    var rs := Resulted(races);
    if rs == [] then 0.15
    else
      var sc := Scored(rs, OddsHit);
      if |sc| == 0 then 0.15
      else
        MeanBounds(sc, 1.0);
        Mean(sc) * 0.4
  }

  /** Every entrant counts a ride for its jockey (the empty name included),
      and a win when it bears the winning name. */
  function RideStep(s: WinStat, e: Entrant): WinStat {
    WinStat(if IsWinner(e) then s.wins + 1 else s.wins, s.runs + 1)
  }

  function RiderKey(e: Entrant): Option<string> { Some(e.0.jockey) }

  function RideTable(races: seq<Race>): Table<string, WinStat> {
    Tabulate(AllEntrants(races), RiderKey, WinStat(0, 0), RideStep)
  }

  lemma {:induction false} FoldRideStep(es: seq<Entrant>)
    ensures var s := Fold(es, WinStat(0, 0), RideStep);
      s.runs == |es| && s.wins <= s.runs
    decreases |es|
  {
    if es != [] {
      FoldRideStep(es[..|es| - 1]);
    }
  }

  /** Every jockey bucket of the accuracy tally has at least one ride and no
      more wins than rides. */
  lemma RideTableShape(races: seq<Race>)
    ensures forall i :: 0 <= i < |RideTable(races)| ==>
      1 <= RideTable(races)[i].1.runs && RideTable(races)[i].1.wins <= RideTable(races)[i].1.runs
  {
    var es := AllEntrants(races);
    var t := RideTable(races);
    if |t| > 0 {
      TabulateGroups(es, RiderKey, WinStat(0, 0), RideStep, t[0].0);
    }
    forall i | 0 <= i < |t|
      ensures 1 <= t[i].1.runs && t[i].1.wins <= t[i].1.runs
    {
      GetEntry(t, i);
      TabulateGroups(es, RiderKey, WinStat(0, 0), RideStep, t[i].0);
      FoldRideStep(Select(es, RiderKey, t[i].0));
    }
  }

  lemma FractionInUnit(wins: nat, runs: nat)
    requires runs > 0
    ensures wins <= runs ==> 0.0 <= wins as real / runs as real <= 1.0
  {
    if wins <= runs {
      DivAtMostOne(wins as real, runs as real);
    }
  }

  /** `.filter(stat => stat.total >= 2).map(stat => stat.wins / stat.total)` */
  function SeasonedRates(t: Table<string, WinStat>): (r: seq<real>)
    ensures |r| <= |t|
    ensures (forall i :: 0 <= i < |t| ==> t[i].1.wins <= t[i].1.runs) ==>
      forall i :: 0 <= i < |r| ==> 0.0 <= r[i] <= 1.0
    ensures r == [] <==> forall i :: 0 <= i < |t| ==> t[i].1.runs < 2
    decreases |t|
  {
    if t == [] then []
    else
      var rest := SeasonedRates(t[1..]);
      assert forall i :: 1 <= i < |t| ==> t[i] == t[1..][i - 1];
      if t[0].1.runs >= 2 then
        FractionInUnit(t[0].1.wins, t[0].1.runs);
        [t[0].1.wins as real / t[0].1.runs as real] + rest
      else rest
  }

  /** `calculateJockeyAccuracy`: twice the mean win fraction of the jockeys
      with at least two rides in resulted races, capped at 0.5; 0.2 when
      there are no resulted races or no such jockey. */
  function JockeyAccuracy(races: seq<Race>): (r: real)
    ensures 0.0 <= r <= 0.5
    ensures Resulted(races) == [] ==> r == 0.2
    ensures SeasonedRates(RideTable(Resulted(races))) == [] ==> r == 0.2
  {
    var rs := Resulted(races);
    if rs == [] then 0.2
    else
      var rates := SeasonedRates(RideTable(rs));
      if rates == [] then 0.2
      else
        SeasonedMeanInUnit(rs);
        MinR(0.5, Mean(rates) * 2.0)
  }

  /** With seasoned jockeys, the accuracy doubles their mean win fraction
      (itself a fraction) until it reaches the 0.5 cap. */
  lemma JockeyAccuracyTracksMean(races: seq<Race>)
    requires SeasonedRates(RideTable(Resulted(races))) != []
    ensures var m := Mean(SeasonedRates(RideTable(Resulted(races))));
      && 0.0 <= m <= 1.0
      && (m < 0.25 ==> JockeyAccuracy(races) == 2.0 * m)
      && (m >= 0.25 ==> JockeyAccuracy(races) == 0.5)
  {
    SeasonedMeanInUnit(Resulted(races));
  }

  /** Every jockey's win fraction lies in [0, 1], so their mean does too. */
  lemma SeasonedMeanInUnit(rs: seq<Race>)
    requires SeasonedRates(RideTable(rs)) != []
    ensures 0.0 <= Mean(SeasonedRates(RideTable(rs))) <= 1.0
  {
    RideTableShape(rs);
    MeanBounds(SeasonedRates(RideTable(rs)), 1.0);
  }

  // ---------------------------------------------------------------- weights

  const BaseAccuracy := 0.05

  function Accuracies(races: seq<Race>): Weights {
    Weights(PopularityAccuracy(races), JockeyAccuracy(races), DistanceAccuracy(races), BaseAccuracy)
  }

  /** `calculateOptimalWeights`: the three accuracies and the fixed 0.05,
      each divided by their total: four non-negative weights summing to 1
      with a positive base, in the proportions of the accuracies
      (`Engine.NormalizeScales`). */
  function OptimalWeights(races: seq<Race>): (r: Weights)
    ensures NonNegative(r) && WeightSum(r) == 1.0 && r.base > 0.0
    ensures WeightSum(Accuracies(races)) > 0.0 && r == Normalize(Accuracies(races))
  {
    var a := Accuracies(races);
    NormalizeKeepsBase(a);
    Normalize(a)
  }

  lemma NormalizeKeepsBase(w: Weights)
    requires WeightSum(w) > 0.0 && w.base > 0.0
    ensures Normalize(w).base > 0.0
  {
    var t := WeightSum(w);
    if t != 1.0 {
      PositiveQuotient(w.base, t);
    }
  }

  lemma PositiveQuotient(x: real, t: real)
    requires x > 0.0 && t > 0.0
    ensures x / t > 0.0
  {
  }

  /** Without any resulted race the defaults 0.3, 0.2 and 0.15 and the base
      0.05 are normalised by their total 0.7. */
  lemma NoResultsWeights(races: seq<Race>)
    requires Resulted(races) == []
    ensures OptimalWeights(races) == Weights(3.0 / 7.0, 2.0 / 7.0, 1.5 / 7.0, 0.5 / 7.0)
  {
    var a := Accuracies(races);
    assert a == Weights(0.3, 0.2, 0.15, 0.05);
    NormalizeScales(a);
  }
}

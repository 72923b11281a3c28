/** The server's analysis engine (`server/analysisEngine.js`): win-rate
    tables by jockey, popularity and distance, a weighted win-rate
    predictor with a sample-count confidence, and the overall summary.
    The race list the engine loads from disk is a parameter here. */
module Engine {
  import opened Base
  import opened Tables
  import opened Model
  import opened Grouping
  import opened Sorting

  /** One horse in one race. */
  type Entrant = (Horse, Race)

  function RaceEntrants(r: Race): (es: seq<Entrant>)
    ensures |es| == |r.horses|
    ensures forall i :: 0 <= i < |es| ==> es[i] == (r.horses[i], r)
  {
    seq(|r.horses|, i requires 0 <= i < |r.horses| => (r.horses[i], r))
  }

  /** Every horse of every race, with or without a result. */
  function AllEntrants(races: seq<Race>): (es: seq<Entrant>)
    ensures |es| == TotalHorses(races)
    ensures forall e :: e in es ==> e.1 in races && e.0 in e.1.horses
    decreases |races|
  {
    if races == [] then []
    else
      var init := AllEntrants(races[..|races| - 1]);
      assert forall r :: r in races[..|races| - 1] ==> r in races;
      init + RaceEntrants(races[|races| - 1])
  }

  /** `horses.find(h => h.name === name)` */
  function FindHorse(horses: seq<Horse>, name: string): (r: Option<Horse>)
    ensures r.None? <==> forall i :: 0 <= i < |horses| ==> horses[i].name != name
    ensures r.Some? ==> exists i :: (0 <= i < |horses| && horses[i] == r.value && r.value.name == name
      && forall j :: 0 <= j < i ==> horses[j].name != name)
    decreases |horses|
  {
    if horses == [] then None
    else if horses[0].name == name then Some(horses[0])
    else
      var r := FindHorse(horses[1..], name);
      assert forall i :: 1 <= i < |horses| ==> horses[i] == horses[1..][i - 1];
      if r.Some? then
        var i :| 0 <= i < |horses[1..]| && horses[1..][i] == r.value && r.value.name == name
          && forall j :: 0 <= j < i ==> horses[1..][j].name != name;
        assert horses[i + 1] == r.value;
        r
      else r
  }

  /** A race's named winner: a truthy `1着` naming one of its horses. */
  ghost predicate HasWinner(r: Race) {
    && r.result.Some? && r.result.value.first.Some? && r.result.value.first.value != ""
    && exists i :: 0 <= i < |r.horses| && r.horses[i].name == r.result.value.first.value
  }

  /** The winner a race contributes: none, or the first horse bearing the winning name. */
  function WinnerOf(r: Race): (w: seq<Entrant>)
    ensures |w| <= 1
    ensures |w| == 1 <==> HasWinner(r)
    ensures |w| == 1 ==> w[0].1 == r && w[0].0 in r.horses && Some(w[0].0.name) == r.result.value.first
  {
    if r.result.Some? && r.result.value.first.Some? && r.result.value.first.value != "" then
      match FindHorse(r.horses, r.result.value.first.value)
      case None => []
      case Some(h) => [(h, r)]
    else []
  }

  /** `getWinningHorses`: at most one winner per race, in race order. */
  function Winners(races: seq<Race>): (w: seq<Entrant>)
    ensures |w| <= |races|
    ensures forall e :: e in w ==> e.1 in races && e.0 in e.1.horses && e.1.result.Some? && Some(e.0.name) == e.1.result.value.first
    decreases |races|
  {
    if races == [] then [] else Winners(races[..|races| - 1]) + WinnerOf(races[|races| - 1])
  }

  /** Every race that has a named winner contributes it. */
  lemma {:induction false} WinnersComplete(races: seq<Race>, i: nat)
    requires i < |races| && HasWinner(races[i])
    ensures exists e :: e in Winners(races) && e.1 == races[i]
    decreases |races|
  {
    var init := races[..|races| - 1];
    if i < |init| {
      WinnersComplete(init, i);
      var e :| e in Winners(init) && e.1 == init[i];
      assert e in Winners(races);
    } else {
      assert WinnerOf(races[i])[0] in Winners(races);
    }
  }

  datatype WinStat = WinStat(wins: nat, runs: nat)

  function AddRun(s: WinStat, e: Entrant): WinStat { s.(runs := s.runs + 1) }

  function Keyed<K>(key: Entrant -> K): Entrant -> Option<K> {
    e => Some(key(e))
  }

  /** The first pass: one run for each entrant, under its key. */
  function RunTable<K(==)>(races: seq<Race>, key: Entrant -> K): Table<K, WinStat> {
    Tabulate(AllEntrants(races), Keyed(key), WinStat(0, 0), AddRun)
  }

  /** `if (stats[k]) stats[k].wins++`: the entry stored under `k`, if there
      is one, gains a win; the keys stay where they are. */
  function AddWin<K(==)>(t: Table<K, WinStat>, k: K): (r: Table<K, WinStat>)
    ensures |r| == |t| && forall i :: 0 <= i < |t| ==> r[i].0 == t[i].0
    decreases |t|
  {
    if t == [] then []
    else if t[0].0 == k then [(k, WinStat(t[0].1.wins + 1, t[0].1.runs))] + t[1..]
    else [t[0]] + AddWin(t[1..], k)
  }

  /** A win changes only the entry of its own key, and only by one win. */
  lemma {:induction false} AddWinGet<K>(t: Table<K, WinStat>, k: K, k': K)
    requires DistinctKeys(t)
    ensures DistinctKeys(AddWin(t, k))
    ensures k' != k ==> Get(AddWin(t, k), k') == Get(t, k')
    ensures Get(AddWin(t, k), k).Some? <==> Get(t, k).Some?
    ensures Get(t, k).Some? ==>
      Get(AddWin(t, k), k).value == WinStat(Get(t, k).value.wins + 1, Get(t, k).value.runs)
    decreases |t|
  {
    var r := AddWin(t, k);
    assert forall i :: 0 <= i < |t| ==> r[i].0 == t[i].0;
    if t != [] && t[0].0 != k {
      AddWinGet(t[1..], k, k');
      AddWinGet(t[1..], k, k);
      assert r[1..] == AddWin(t[1..], k);
    }
  }

  /** The second pass: a win for each winner whose key is already in the table. */
  function AddWins<K(==)>(t: Table<K, WinStat>, ws: seq<Entrant>, key: Entrant -> K): Table<K, WinStat>
    decreases |ws|
  {
    if ws == [] then t else AddWin(AddWins(t, ws[..|ws| - 1], key), key(ws[|ws| - 1]))
  }

  /** `runs > 0 ? wins / runs : 0` */
  function WinRate(s: WinStat): (r: real)
    ensures s.runs == 0 ==> r == 0.0
    ensures s.wins <= s.runs ==> 0.0 <= r <= 1.0
    ensures s.runs > 0 ==> r * s.runs as real == s.wins as real
  {
    if s.runs > 0 then
      if s.wins <= s.runs then DivAtMostOne(s.wins as real, s.runs as real); s.wins as real / s.runs as real
      else s.wins as real / s.runs as real
    else 0.0
  }

  datatype RatedStat = RatedStat(wins: nat, runs: nat, winRate: real)

  function Rate(s: WinStat): RatedStat { RatedStat(s.wins, s.runs, WinRate(s)) }

  function WinTable<K(==)>(races: seq<Race>, key: Entrant -> K): Table<K, RatedStat> {
    MapValues(AddWins(RunTable(races, key), Winners(races), key), Rate)
  }

  function JockeyKey(e: Entrant): string { e.0.jockey }

  function PopularityKey(e: Entrant): int { e.0.popularity }

  function DistanceKey(e: Entrant): int { e.1.distance }

  /** `calculateJockeyWinRate`, `calculatePopularityWinRate`, `calculateDistanceWinRate`. */
  function JockeyWinRate(races: seq<Race>): Table<string, RatedStat> { WinTable(races, JockeyKey) }

  function PopularityWinRate(races: seq<Race>): Table<int, RatedStat> { WinTable(races, PopularityKey) }

  function DistanceWinRate(races: seq<Race>): Table<int, RatedStat> { WinTable(races, DistanceKey) }

  lemma {:induction false} FoldRuns(es: seq<Entrant>)
    ensures Fold(es, WinStat(0, 0), AddRun) == WinStat(0, |es|)
    decreases |es|
  {
    if es != [] {
      FoldRuns(es[..|es| - 1]);
    }
  }

  /** A run-table bucket counts the entrants carrying its key, with no wins yet. */
  lemma RunBucket<K>(races: seq<Race>, key: Entrant -> K, k: K)
    ensures DistinctKeys(RunTable(races, key))
    ensures var n := |Select(AllEntrants(races), Keyed(key), k)|;
      Get(RunTable(races, key), k) == if n == 0 then None else Some(WinStat(0, n))
  {
    var es := AllEntrants(races);
    TabulateGroups(es, Keyed(key), WinStat(0, 0), AddRun, k);
    FoldRuns(Select(es, Keyed(key), k));
  }

  /** The win pass adds to a bucket the number of winners carrying its key;
      a winner whose key has no bucket is dropped, and no bucket is created. */
  lemma {:induction false} AddWinsCounts<K>(t: Table<K, WinStat>, ws: seq<Entrant>, key: Entrant -> K, k: K)
    requires DistinctKeys(t)
    ensures DistinctKeys(AddWins(t, ws, key))
    ensures Get(AddWins(t, ws, key), k).Some? <==> Get(t, k).Some?
    ensures Get(t, k).Some? ==>
      Get(AddWins(t, ws, key), k).value == WinStat(Get(t, k).value.wins + |Select(ws, Keyed(key), k)|, Get(t, k).value.runs)
    decreases |ws|
  {
    if ws != [] {
      var init := ws[..|ws| - 1];
      var last := ws[|ws| - 1];
      AddWinsCounts(t, init, key, k);
      assert Keyed(key)(last) == Some(key(last));
      assert |Select(ws, Keyed(key), k)| == |Select(init, Keyed(key), k)| + (if key(last) == k then 1 else 0);
      AddWinGet(AddWins(t, init, key), key(last), k);
    }
  }

  /** Winners are entrants, one per race, so no key collects more wins than runs. */
  lemma {:induction false} WinsAtMostRuns<K>(races: seq<Race>, key: Entrant -> K, k: K)
    ensures |Select(Winners(races), Keyed(key), k)| <= |Select(AllEntrants(races), Keyed(key), k)|
    decreases |races|
  {
    if races != [] {
      var init := races[..|races| - 1];
      var last := races[|races| - 1];
      WinsAtMostRuns(init, key, k);
      SelectAppend(Winners(init), WinnerOf(last), Keyed(key), k);
      SelectAppend(AllEntrants(init), RaceEntrants(last), Keyed(key), k);
      var w := WinnerOf(last);
      if |w| == 1 && Keyed(key)(w[0]) == Some(k) {
        var i :| 0 <= i < |last.horses| && last.horses[i] == w[0].0;
        SelectHas(RaceEntrants(last), Keyed(key), k, i);
        assert Select(w, Keyed(key), k) == [w[0]] by {
          assert w[..0] == [];
        }
      } else if |w| == 1 {
        assert w[..0] == [];
        assert Select(w, Keyed(key), k) == [];
      }
    }
  }

  /** Every winner is one of the entrants, so its key has a bucket. */
  lemma WinnersKeyed<K>(races: seq<Race>, key: Entrant -> K)
    ensures forall e :: e in Winners(races) ==> Get(RunTable(races, key), key(e)).Some?
  {
    forall e | e in Winners(races)
      ensures Get(RunTable(races, key), key(e)).Some?
    {
      WinnerIsEntrant(races, e);
      var j :| 0 <= j < |AllEntrants(races)| && AllEntrants(races)[j] == e;
      SelectHas(AllEntrants(races), Keyed(key), key(e), j);
      RunBucket(races, key, key(e));
    }
  }

  lemma {:induction false} WinnerIsEntrant(races: seq<Race>, e: Entrant)
    requires e in Winners(races)
    ensures e in AllEntrants(races)
    decreases |races|
  {
    var init := races[..|races| - 1];
    var last := races[|races| - 1];
    if e in Winners(init) {
      WinnerIsEntrant(init, e);
    } else {
      assert e in WinnerOf(last);
      var i :| 0 <= i < |last.horses| && last.horses[i] == e.0;
      assert RaceEntrants(last)[i] == e;
    }
  }

  /** Before the rates: a bucket holds the winners and the entrants
      carrying its key. */
  lemma CountBucket<K>(races: seq<Race>, key: Entrant -> K, k: K)
    ensures DistinctKeys(AddWins(RunTable(races, key), Winners(races), key))
    ensures var runs := |Select(AllEntrants(races), Keyed(key), k)|;
      var wins := |Select(Winners(races), Keyed(key), k)|;
      && wins <= runs
      && Get(AddWins(RunTable(races, key), Winners(races), key), k) == if runs == 0 then None else Some(WinStat(wins, runs))
  {
    RunBucket(races, key, k);
    AddWinsCounts(RunTable(races, key), Winners(races), key, k);
    WinsAtMostRuns(races, key, k);
  }

  /** A win-rate bucket: `runs` counts every entrant with the key (whether
      or not its race has a result), `wins` counts the winners with the key,
      so `wins <= runs` and the rate lies in [0, 1]. */
  lemma WinTableBucket<K>(races: seq<Race>, key: Entrant -> K, k: K)
    ensures DistinctKeys(WinTable(races, key))
    ensures var runs := |Select(AllEntrants(races), Keyed(key), k)|;
      var wins := |Select(Winners(races), Keyed(key), k)|;
      var b := Get(WinTable(races, key), k);
      && (b.None? <==> runs == 0)
      && (b.Some? ==> b.value.runs == runs && b.value.wins == wins <= runs
                      && 0.0 <= b.value.winRate <= 1.0 && b.value.winRate == WinRate(WinStat(wins, runs)))
  {
    var u := AddWins(RunTable(races, key), Winners(races), key);
    CountBucket(races, key, k);
    RatedBucket(u, k, |Select(Winners(races), Keyed(key), k)|, |Select(AllEntrants(races), Keyed(key), k)|);
  }

  lemma RatedBucket<K>(u: Table<K, WinStat>, k: K, wins: nat, runs: nat)
    requires DistinctKeys(u) && wins <= runs
    requires Get(u, k) == if runs == 0 then None else Some(WinStat(wins, runs))
    ensures DistinctKeys(MapValues(u, Rate))
    ensures var b := Get(MapValues(u, Rate), k);
      && (b.None? <==> runs == 0)
      && (b.Some? ==> b.value.runs == runs && b.value.wins == wins
                      && 0.0 <= b.value.winRate <= 1.0 && b.value.winRate == WinRate(WinStat(wins, runs)))
  {
    MapValuesGet(u, Rate, k);
    MapValuesDistinct(u, Rate);
  }

  lemma MapValuesDistinct<K, V, W>(t: Table<K, V>, f: V -> W)
    requires DistinctKeys(t)
    ensures DistinctKeys(MapValues(t, f))
  {
  }

  /** The tables' rates all lie in [0, 1]. */
  ghost predicate RatesInUnit<K>(t: Table<K, RatedStat>) {
    forall i :: 0 <= i < |t| ==> 0.0 <= t[i].1.winRate <= 1.0
  }

  lemma WinTableRates<K>(races: seq<Race>, key: Entrant -> K)
    ensures RatesInUnit(WinTable(races, key))
  {
    var t := WinTable(races, key);
    forall i | 0 <= i < |t|
      ensures 0.0 <= t[i].1.winRate <= 1.0
    {
      WinTableBucket(races, key, t[i].0);
      GetEntry(t, i);
    }
  }

  // ---------------------------------------------------------------- predictor

  datatype Weights = Weights(popularity: real, jockey: real, distance: real, base: real)

  const DefaultWeights := Weights(0.4, 0.3, 0.2, 0.1)

  function WeightSum(w: Weights): real { w.popularity + w.jockey + w.distance + w.base }

  ghost predicate NonNegative(w: Weights) {
    w.popularity >= 0.0 && w.jockey >= 0.0 && w.distance >= 0.0 && w.base >= 0.0
  }

  /** Dividing every weight by their sum when that sum is not 1 (the source
      does so in place on the caller's object). */
  function Normalize(w: Weights): (r: Weights)
    requires WeightSum(w) != 0.0
    ensures WeightSum(r) == 1.0
    ensures WeightSum(w) == 1.0 ==> r == w
    ensures WeightSum(w) > 0.0 && NonNegative(w) ==> NonNegative(r)
  {
    var t := WeightSum(w);
    if t != 1.0 then
      var r := Weights(w.popularity / t, w.jockey / t, w.distance / t, w.base / t);
      ScaleBack(w.popularity, t);
      ScaleBack(w.jockey, t);
      ScaleBack(w.distance, t);
      ScaleBack(w.base, t);
      SumOfQuotients(w.popularity, w.jockey, w.distance, w.base, t);
      r
    else w
  }

  lemma ScaleBack(x: real, t: real)
    requires t != 0.0
    ensures (x / t) * t == x
    ensures t > 0.0 && x >= 0.0 ==> x / t >= 0.0
  {
  }

  lemma SumOfQuotients(a: real, b: real, c: real, d: real, t: real)
    requires t != 0.0 && a + b + c + d == t
    ensures a / t + b / t + c / t + d / t == 1.0
  {
    assert a / t + b / t + c / t + d / t == (a + b + c + d) / t;
  }

  /** Each normalized weight times the original sum gives back the original
      weight: the four keep their proportions. */
  lemma NormalizeScales(w: Weights)
    requires WeightSum(w) != 0.0
    ensures var r := Normalize(w); var t := WeightSum(w);
      r.popularity * t == w.popularity && r.jockey * t == w.jockey
      && r.distance * t == w.distance && r.base * t == w.base
  {
    var t := WeightSum(w);
    if t != 1.0 {
      ScaleBackAll(w, t);
    }
  }

  lemma ScaleBackAll(w: Weights, t: real)
    requires t != 0.0
    ensures var r := Weights(w.popularity / t, w.jockey / t, w.distance / t, w.base / t);
      r.popularity * t == w.popularity && r.jockey * t == w.jockey
      && r.distance * t == w.distance && r.base * t == w.base
  {
    ScaleBack(w.popularity, t);
    ScaleBack(w.jockey, t);
    ScaleBack(w.distance, t);
    ScaleBack(w.base, t);
  }

  /** Normalizing twice is normalizing once, so the in-place normalization
      done at the first horse leaves the weights unchanged for the others. */
  lemma NormalizeIdempotent(w: Weights)
    requires WeightSum(w) != 0.0
    ensures Normalize(Normalize(w)) == Normalize(w)
  {
  }

  /** `customWeights || defaultWeights` */
  function ChosenWeights(custom: Option<Weights>): Weights { custom.GetOr(DefaultWeights) }

  const BaseRate: real := 1.0 / 16.0

  /** `(jockeySamples + popularitySamples + distanceSamples) / (50 + 50 + 30)`, capped at 1. */
  function Confidence(samples: nat): (c: real)
    ensures 0.0 <= c <= 1.0
    ensures c == 1.0 <==> samples >= 130
    ensures samples < 130 ==> c * 130.0 == samples as real
  {
    MinR(samples as real / 130.0, 1.0)
  }

  datatype Factor = Factor(rate: real, weight: real)

  datatype Prediction = Prediction(
    horse: Horse,
    predictedWinRate: real,
    confidence: real,
    popularity: Factor,
    jockey: Factor,
    distance: Factor)

  datatype EngineTables = EngineTables(
    jockey: Table<string, RatedStat>,
    popularity: Table<int, RatedStat>,
    distance: Table<int, RatedStat>)

  function TablesOf(races: seq<Race>): EngineTables {
    EngineTables(JockeyWinRate(races), PopularityWinRate(races), DistanceWinRate(races))
  }

  ghost predicate TablesInUnit(t: EngineTables) {
    RatesInUnit(t.jockey) && RatesInUnit(t.popularity) && RatesInUnit(t.distance)
  }

  /** `stats[k]?.winRate || 0` and `stats[k]?.runs || 0` */
  function RateOr0<K(==)>(t: Table<K, RatedStat>, k: K): (r: real)
    ensures RatesInUnit(t) ==> 0.0 <= r <= 1.0
  {
    match Get(t, k)
    case None => 0.0
    case Some(s) => s.winRate
  }

  function RunsOr0<K(==)>(t: Table<K, RatedStat>, k: K): nat {
    match Get(t, k)
    case None => 0
    case Some(s) => s.runs
  }

  /** The three table rates and the base rate, each times its weight. */
  function Blend(pr: real, jr: real, dr: real, w: Weights): real {
    pr * w.popularity + jr * w.jockey + dr * w.distance + BaseRate * w.base
  }

  /** `predictHorseWinRate` with already-normalized weights: the weighted
      blend of the three table rates and the base rate, and the sample-count
      confidence. */
  function PredictHorse(t: EngineTables, horse: Horse, distance: int, w: Weights): (p: Prediction)
    ensures p.horse == horse
    ensures p.popularity == Factor(RateOr0(t.popularity, horse.popularity), w.popularity)
    ensures p.jockey == Factor(RateOr0(t.jockey, horse.jockey), w.jockey)
    ensures p.distance == Factor(RateOr0(t.distance, distance), w.distance)
    ensures p.predictedWinRate - BaseRate * w.base ==
      p.popularity.rate * w.popularity + p.jockey.rate * w.jockey + p.distance.rate * w.distance
    ensures 0.0 <= p.confidence <= 1.0
    ensures p.confidence == 1.0 <==>
      RunsOr0(t.jockey, horse.jockey) + RunsOr0(t.popularity, horse.popularity) + RunsOr0(t.distance, distance) >= 130
  {
    var pr := RateOr0(t.popularity, horse.popularity);
    var jr := RateOr0(t.jockey, horse.jockey);
    var dr := RateOr0(t.distance, distance);
    var rate := Blend(pr, jr, dr, w);
    var samples := RunsOr0(t.jockey, horse.jockey) + RunsOr0(t.popularity, horse.popularity) + RunsOr0(t.distance, distance);
    Prediction(horse, rate, Confidence(samples), Factor(pr, w.popularity), Factor(jr, w.jockey), Factor(dr, w.distance))
  }

  lemma ConvexBound(a: real, b: real, c: real, w: Weights)
    requires 0.0 <= a <= 1.0 && 0.0 <= b <= 1.0 && 0.0 <= c <= 1.0
    requires NonNegative(w) && WeightSum(w) == 1.0
    ensures 0.0 <= Blend(a, b, c, w) <= 1.0
  {
    var d := BaseRate;
    var x1, x2, x3, x4 := a * w.popularity, b * w.jockey, c * w.distance, d * w.base;
    ScaledWeight(a, w.popularity, x1);
    ScaledWeight(b, w.jockey, x2);
    ScaledWeight(c, w.distance, x3);
    ScaledWeight(d, w.base, x4);
    assert 0.0 <= x1 + x2 + x3 + x4 <= w.popularity + w.jockey + w.distance + w.base;
  }

  /** With rates in [0, 1] and non-negative weights summing to 1, the blend
      is a convex combination of numbers in [0, 1]. */
  lemma PredictHorseInUnit(t: EngineTables, horse: Horse, distance: int, w: Weights)
    requires TablesInUnit(t) && NonNegative(w) && WeightSum(w) == 1.0
    ensures 0.0 <= PredictHorse(t, horse, distance, w).predictedWinRate <= 1.0
  {
    ConvexBound(RateOr0(t.popularity, horse.popularity), RateOr0(t.jockey, horse.jockey),
      RateOr0(t.distance, distance), w);
  }

  lemma ScaledWeight(a: real, x: real, p: real)
    requires 0.0 <= a <= 1.0 && x >= 0.0 && p == a * x
    ensures 0.0 <= p <= x
  {
  }

  /** With a non-negative popularity weight, a horse whose popularity bucket
      wins more often is predicted no lower, all else equal. */
  lemma PredictMonotoneInPopularity(t: EngineTables, h1: Horse, h2: Horse, distance: int, w: Weights)
    requires w.popularity >= 0.0 && h1.jockey == h2.jockey
    requires RateOr0(t.popularity, h1.popularity) <= RateOr0(t.popularity, h2.popularity)
    ensures PredictHorse(t, h1, distance, w).predictedWinRate <= PredictHorse(t, h2, distance, w).predictedWinRate
  {
    assert RateOr0(t.jockey, h1.jockey) == RateOr0(t.jockey, h2.jockey);
    BlendMonotone(RateOr0(t.popularity, h1.popularity), RateOr0(t.popularity, h2.popularity),
      RateOr0(t.jockey, h1.jockey), RateOr0(t.distance, distance), w);
  }

  lemma BlendMonotone(a: real, b: real, jr: real, dr: real, w: Weights)
    requires a <= b && w.popularity >= 0.0
    ensures Blend(a, jr, dr, w) <= Blend(b, jr, dr, w)
  {
    MulMonotone(a, b, w.popularity);
  }

  lemma MulMonotone(a: real, b: real, x: real)
    requires a <= b && x >= 0.0
    ensures a * x <= b * x
  {
  }

  datatype RacePrediction = RacePrediction(
    predictions: seq<Prediction>,
    topRecommendations: seq<Prediction>,
    averageConfidence: Option<real>)

  function PredictAll(t: EngineTables, horses: seq<Horse>, distance: int, w: Weights): (ps: seq<Prediction>)
    ensures |ps| == |horses|
    ensures forall i :: 0 <= i < |ps| ==> ps[i] == PredictHorse(t, horses[i], distance, w)
  {
    seq(|horses|, i requires 0 <= i < |horses| => PredictHorse(t, horses[i], distance, w))
  }

  function PredRate(p: Prediction): real { p.predictedWinRate }

  function ConfidenceSum(ps: seq<Prediction>): real
    decreases |ps|
  {
    if ps == [] then 0.0 else ConfidenceSum(ps[..|ps| - 1]) + ps[|ps| - 1].confidence
  }

  lemma {:induction false} ConfidenceSumBounds(ps: seq<Prediction>)
    requires forall i :: 0 <= i < |ps| ==> 0.0 <= ps[i].confidence <= 1.0
    ensures 0.0 <= ConfidenceSum(ps) <= |ps| as real
    decreases |ps|
  {
    if ps != [] {
      ConfidenceSumBounds(ps[..|ps| - 1]);
    }
  }

  /** The mean confidence; `None` stands for the `NaN` of an empty race. */
  function AverageConfidence(ps: seq<Prediction>): (r: Option<real>)
    requires forall i :: 0 <= i < |ps| ==> 0.0 <= ps[i].confidence <= 1.0
    ensures r.None? <==> ps == []
    ensures r.Some? ==> 0.0 <= r.value <= 1.0 && r.value * |ps| as real == ConfidenceSum(ps)
  {
    if ps == [] then None
    else
      ConfidenceSumBounds(ps);
      DivAtMostOne(ConfidenceSum(ps), |ps| as real);
      Some(ConfidenceSum(ps) / |ps| as real)
  }

  lemma SortedConfidences(ps: seq<Prediction>, qs: seq<Prediction>)
    requires multiset(qs) == multiset(ps)
    requires forall i :: 0 <= i < |ps| ==> 0.0 <= ps[i].confidence <= 1.0
    ensures forall i :: 0 <= i < |qs| ==> 0.0 <= qs[i].confidence <= 1.0
  {
    forall i | 0 <= i < |qs|
      ensures 0.0 <= qs[i].confidence <= 1.0
    {
      assert qs[i] in multiset(ps);
      var j :| 0 <= j < |ps| && ps[j] == qs[i];
    }
  }

  /** `predictRace`: one prediction per horse, ordered by predicted rate,
      non-increasing; the first three recommended; the mean confidence. */
  function PredictRace(races: seq<Race>, race: Race, custom: Option<Weights>): (r: RacePrediction)
    requires WeightSum(ChosenWeights(custom)) != 0.0
    ensures multiset(r.predictions) == multiset(PredictAll(TablesOf(races), race.horses, race.distance, Normalize(ChosenWeights(custom))))
    ensures SortedDesc(r.predictions, PredRate)
    ensures |r.predictions| == |race.horses|
    ensures |r.topRecommendations| == Min(3, |race.horses|)
    ensures forall i :: 0 <= i < |r.topRecommendations| ==> r.topRecommendations[i] == r.predictions[i]
    ensures r.averageConfidence.None? <==> race.horses == []
    ensures r.averageConfidence.Some? ==> 0.0 <= r.averageConfidence.value <= 1.0
    ensures r.averageConfidence.Some? ==> r.averageConfidence.value == ConfidenceSum(r.predictions) / |race.horses| as real
  {
    var w := Normalize(ChosenWeights(custom));
    var ps := PredictAll(TablesOf(races), race.horses, race.distance, w);
    var sorted := SortDesc(ps, PredRate);
    SortedConfidences(ps, sorted);
    var mean := AverageConfidence(sorted);
    assert |sorted| == |ps| == |race.horses|;
    RacePrediction(sorted, Take(sorted, 3), mean)
  }

  /** Every prediction is of a horse running in the race, and every
      recommendation is one of the predictions. */
  lemma PredictRaceHorses(races: seq<Race>, race: Race, custom: Option<Weights>)
    requires WeightSum(ChosenWeights(custom)) != 0.0
    ensures var r := PredictRace(races, race, custom);
      && (forall q :: q in r.predictions ==> q.horse in race.horses)
      && (forall i :: 0 <= i < |r.topRecommendations| ==> r.topRecommendations[i] in r.predictions)
  {
    var w := Normalize(ChosenWeights(custom));
    var all := PredictAll(TablesOf(races), race.horses, race.distance, w);
    var r := PredictRace(races, race, custom);
    forall q | q in r.predictions
      ensures q.horse in race.horses
    {
      assert q in multiset(all);
      var j :| 0 <= j < |all| && all[j] == q;
    }
  }

  /** With the default or any non-negative weights, every predicted rate in
      the race lies in [0, 1]. */
  lemma PredictRaceRates(races: seq<Race>, race: Race, custom: Option<Weights>)
    requires WeightSum(ChosenWeights(custom)) > 0.0 && NonNegative(ChosenWeights(custom))
    ensures var ps := PredictRace(races, race, custom).predictions;
      forall i :: 0 <= i < |ps| ==> 0.0 <= ps[i].predictedWinRate <= 1.0
  {
    var t := TablesOf(races);
    assert TablesInUnit(t) by {
      WinTableRates(races, JockeyKey);
      WinTableRates(races, PopularityKey);
      WinTableRates(races, DistanceKey);
    }
    var w := Normalize(ChosenWeights(custom));
    var all := PredictAll(t, race.horses, race.distance, w);
    var ps := PredictRace(races, race, custom).predictions;
    forall i | 0 <= i < |ps|
      ensures 0.0 <= ps[i].predictedWinRate <= 1.0
    {
      assert ps[i] in multiset(all);
      var j :| 0 <= j < |all| && all[j] == ps[i];
      PredictHorseInUnit(t, race.horses[j], race.distance, w);
    }
  }

  // ---------------------------------------------------------------- summary

  datatype JockeyEntry = JockeyEntry(jockey: string, wins: nat, runs: nat, winRate: real)

  function EntryRate(e: JockeyEntry): real { e.winRate }

  function ToEntry(e: (string, RatedStat)): JockeyEntry {
    JockeyEntry(e.0, e.1.wins, e.1.runs, e.1.winRate)
  }

  /** `.filter(([_, s]) => s.runs >= 10)` then the mapping to entries. */
  function Experienced(t: Table<string, RatedStat>): (r: seq<JockeyEntry>)
    ensures forall e :: e in r <==> e.runs >= 10 && exists i :: 0 <= i < |t| && ToEntry(t[i]) == e
    decreases |t|
  {
    if t == [] then []
    else
      var rest := Experienced(t[1..]);
      assert forall i :: 1 <= i < |t| ==> t[i] == t[1..][i - 1];
      if t[0].1.runs >= 10 then [ToEntry(t[0])] + rest else rest
  }

  /** `topJockeys`: at most ten jockeys with at least ten runs, each entry
      taken once from the table, best win rate first, and no experienced
      jockey left out ranks above one listed. */
  function TopJockeys(t: Table<string, RatedStat>): (r: seq<JockeyEntry>)
    ensures |r| == Min(10, |Experienced(t)|)
    ensures forall i :: 0 <= i < |r| ==> r[i] in Experienced(t) && r[i].runs >= 10
    ensures multiset(r) <= multiset(Experienced(t))
    ensures SortedDesc(r, EntryRate)
    ensures forall e :: e in multiset(Experienced(t)) && e !in multiset(r) ==>
      forall i :: 0 <= i < |r| ==> e.winRate <= r[i].winRate
  {
    TopOfSort(Experienced(t), EntryRate, 10);
    Take(SortDesc(Experienced(t), EntryRate), 10)
  }

  datatype Overall = Overall(
    totalRaces: nat,
    totalHorses: nat,
    tables: EngineTables,
    topJockeys: seq<JockeyEntry>)

  /** `getOverallStatistics`: the race and entrant counts, the three tables,
      and the ranking built from the jockey table. */
  function OverallStatistics(races: seq<Race>): (r: Overall)
    ensures r.totalRaces == |races|
    ensures r.totalHorses == |AllEntrants(races)|
    ensures r.tables == TablesOf(races)
    ensures forall i :: 0 <= i < |r.topJockeys| ==>
      r.topJockeys[i].runs >= 10 && Get(r.tables.jockey, r.topJockeys[i].jockey).Some?
    ensures |r.topJockeys| == Min(10, |Experienced(r.tables.jockey)|)
    ensures SortedDesc(r.topJockeys, EntryRate)
    ensures multiset(r.topJockeys) <= multiset(Experienced(r.tables.jockey))
    ensures forall e :: e in multiset(Experienced(r.tables.jockey)) && e !in multiset(r.topJockeys) ==>
      forall i :: 0 <= i < |r.topJockeys| ==> e.winRate <= r.topJockeys[i].winRate
    ensures r.topJockeys == TopJockeys(r.tables.jockey)
  {
    var t := TablesOf(races);
    var top := TopJockeys(t.jockey);
    forall i | 0 <= i < |top|
      ensures Get(t.jockey, top[i].jockey).Some?
    {
      var j :| 0 <= j < |t.jockey| && ToEntry(t.jockey[j]) == top[i];
    }
    Overall(|races|, TotalHorses(races), t, top)
  }
}

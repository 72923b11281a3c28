/** Win / place / show tables keyed by popularity rank or jockey, in the two
    copies the repository holds: the server's (`server/index.js`) and the
    browser-storage client's (`localStorageApi.ts`). */
module Aggregation {
  import opened Base
  import opened Tables
  import opened Model
  import opened RaceFilter
  import opened Grouping

  /** One entrant of one resulted race, with what the counting needs from the race. */
  datatype Start = Start(horse: Horse, fieldSize: nat, result: RaceResult)

  function RaceStarts(r: Race): (ss: seq<Start>)
    requires HasResult(r)
    ensures |ss| == |r.horses|
    ensures forall i :: 0 <= i < |ss| ==> ss[i] == Start(r.horses[i], |r.horses|, r.result.value)
  {
    seq(|r.horses|, i requires 0 <= i < |r.horses| => Start(r.horses[i], |r.horses|, r.result.value))
  }

  /** Largest field among the resulted races. */
  function MaxField(races: seq<Race>): nat
    decreases |races|
  {
    if races == [] then 0
    else
      var m := MaxField(races[..|races| - 1]);
      var last := races[|races| - 1];
      if HasResult(last) && |last.horses| > m then |last.horses| else m
  }

  /** `races.forEach(race => { if (!race.result) return; race.horses.forEach(...) })`:
      every entrant of every resulted race, in order. */
  function Starts(races: seq<Race>): (ss: seq<Start>)
    ensures forall i :: 0 <= i < |ss| ==> 1 <= ss[i].fieldSize <= MaxField(races)
    decreases |races|
  {
    if races == [] then []
    else
      var init := Starts(races[..|races| - 1]);
      var last := races[|races| - 1];
      if HasResult(last) then init + RaceStarts(last) else init
  }

  datatype Counters = Counters(total: nat, wins: nat, places: nat, shows: nat)

  const Zero := Counters(0, 0, 0, 0)

  /** The counters are cumulative: a winner also places and shows. */
  predicate Nested(c: Counters) {
    c.wins <= c.places <= c.shows <= c.total
  }

  predicate Won(s: Start) { NameIs(s.result.first, s.horse.name) }

  predicate Placed(s: Start) { Won(s) || NameIs(s.result.second, s.horse.name) }

  predicate Shown(s: Start) { Placed(s) || NameIs(s.result.third, s.horse.name) }

  /** The server's update of one bucket: `total++`, then the
      `if winner / else if second / else if third` chain. */
  function Tally(c: Counters, s: Start): (r: Counters)
    ensures r.total == c.total + 1
    ensures Nested(c) ==> Nested(r)
  {
    var name := s.horse.name;
    if NameIs(s.result.first, name) then Counters(c.total + 1, c.wins + 1, c.places + 1, c.shows + 1)
    else if NameIs(s.result.second, name) then Counters(c.total + 1, c.wins, c.places + 1, c.shows + 1)
    else if NameIs(s.result.third, name) then Counters(c.total + 1, c.wins, c.places, c.shows + 1)
    else Counters(c.total + 1, c.wins, c.places, c.shows)
  }

  /** The client's update: three independent tests, with disjunctions for
      place and show. */
  function TallyTests(c: Counters, s: Start): Counters {
    var name := s.horse.name;
    var r := s.result;
    Counters(
      c.total + 1,
      c.wins + (if r.first == Some(name) then 1 else 0),
      c.places + (if r.first == Some(name) || r.second == Some(name) then 1 else 0),
      c.shows + (if r.first == Some(name) || r.second == Some(name) || r.third == Some(name) then 1 else 0))
  }

  /** The server's `else if` chain and the client's disjunctions count the same. */
  lemma TallyChainMatchesTests(c: Counters, s: Start)
    ensures Tally(c, s) == TallyTests(c, s)
  {
  }

  ghost function CountIf(ss: seq<Start>, p: Start -> bool): nat
    decreases |ss|
  {
    if ss == [] then 0 else CountIf(ss[..|ss| - 1], p) + (if p(ss[|ss| - 1]) then 1 else 0)
  }

  lemma {:induction false} CountIfMonotone(ss: seq<Start>, p: Start -> bool, q: Start -> bool)
    requires forall s :: p(s) ==> q(s)
    ensures CountIf(ss, p) <= CountIf(ss, q) <= |ss|
    decreases |ss|
  {
    if ss != [] {
      CountIfMonotone(ss[..|ss| - 1], p, q);
    }
  }

  /** Folding `Tally` over a group counts its entrants, its winners, its
      first-or-second finishers and its top-three finishers. */
  lemma {:induction false} FoldTallyCounts(ss: seq<Start>)
    ensures Fold(ss, Zero, Tally) ==
      Counters(|ss|, CountIf(ss, s => Won(s)), CountIf(ss, s => Placed(s)), CountIf(ss, s => Shown(s)))
    decreases |ss|
  {
    if ss != [] {
      FoldTallyCounts(ss[..|ss| - 1]);
    }
  }

  /** Every bucket of a counters table, whatever the key, has at least one
      entrant and nested counters, and its key is carried by some entrant. */
  lemma CountersTableShape<K>(ss: seq<Start>, key: Start -> Option<K>)
    ensures DistinctKeys(Tabulate(ss, key, Zero, Tally))
    ensures forall i :: 0 <= i < |Tabulate(ss, key, Zero, Tally)| ==>
      var e := Tabulate(ss, key, Zero, Tally)[i];
      e.1.total >= 1 && Nested(e.1) && exists j :: 0 <= j < |ss| && key(ss[j]) == Some(e.0)
  {
    var t := Tabulate(ss, key, Zero, Tally);
    if |t| > 0 {
      TabulateGroups(ss, key, Zero, Tally, t[0].0);
    }
    forall i | 0 <= i < |t|
      ensures t[i].1.total >= 1 && Nested(t[i].1) && exists j :: 0 <= j < |ss| && key(ss[j]) == Some(t[i].0)
    {
      var k := t[i].0;
      GetEntry(t, i);
      TabulateGroups(ss, key, Zero, Tally, k);
      var sel := Select(ss, key, k);
      FoldTallyCounts(sel);
      CountIfMonotone(sel, s => Won(s), s => Placed(s));
      CountIfMonotone(sel, s => Placed(s), s => Shown(s));
      HasBucketIff(ss, key, Zero, Tally, k);
    }
  }

  /** A bucket holds exactly the counts of the entrants carrying its key. */
  lemma BucketCounts<K>(ss: seq<Start>, key: Start -> Option<K>, k: K)
    ensures var sel := Select(ss, key, k);
      Get(Tabulate(ss, key, Zero, Tally), k) ==
        if sel == [] then None
        else Some(Counters(|sel|, CountIf(sel, s => Won(s)), CountIf(sel, s => Placed(s)), CountIf(sel, s => Shown(s))))
  {
    TabulateGroups(ss, key, Zero, Tally, k);
    FoldTallyCounts(Select(ss, key, k));
  }

  /** One row of the response: the counters plus the three rates. */
  datatype RateRow = RateRow(total: nat, wins: nat, places: nat, shows: nat, winRate: real, placeRate: real, showRate: real)

  /** `winRate`, `placeRate`, `showRate`: one-decimal percentages, 0 when there are no runs. */
  function Rates(c: Counters): (r: RateRow)
    ensures r.total == c.total && r.wins == c.wins && r.places == c.places && r.shows == c.shows
    ensures c.total == 0 ==> r.winRate == 0.0 && r.placeRate == 0.0 && r.showRate == 0.0
    ensures Nested(c) ==> 0.0 <= r.winRate <= r.placeRate <= r.showRate <= 100.0
    ensures c.total > 0 ==> c.wins as real / c.total as real * 100.0 - 0.05 < r.winRate <= c.wins as real / c.total as real * 100.0 + 0.05
    ensures c.total > 0 ==> c.places as real / c.total as real * 100.0 - 0.05 < r.placeRate <= c.places as real / c.total as real * 100.0 + 0.05
    ensures c.total > 0 ==> c.shows as real / c.total as real * 100.0 - 0.05 < r.showRate <= c.shows as real / c.total as real * 100.0 + 0.05
    ensures r.winRate == Percent1(c.wins, c.total) && r.placeRate == Percent1(c.places, c.total) && r.showRate == Percent1(c.shows, c.total)
  {
    var r := RateRow(c.total, c.wins, c.places, c.shows,
      Percent1(c.wins, c.total), Percent1(c.places, c.total), Percent1(c.shows, c.total));
    if Nested(c) then
      Percent1Monotone(c.wins, c.places, c.total);
      Percent1Monotone(c.places, c.shows, c.total);
      r
    else r
  }

  predicate GoodRow(r: RateRow) {
    r.total >= 1 && r.wins <= r.places <= r.shows <= r.total
    && 0.0 <= r.winRate <= r.placeRate <= r.showRate <= 100.0
  }

  /** Turning counters into rate rows keeps every good bucket good. */
  lemma WithRatesGood<K>(t: Table<K, Counters>)
    requires forall i :: 0 <= i < |t| ==> t[i].1.total >= 1 && Nested(t[i].1)
    ensures forall i :: 0 <= i < |t| ==> GoodRow(MapValues(t, Rates)[i].1)
  {
  }

  // ---------------------------------------------------------------- server

  /** A popularity outside 1..field size (or missing) is skipped. */
  function ServerPopularityKey(s: Start): Option<int> {
    var p := s.horse.popularity;
    if p < 1 || p > s.fieldSize then None else Some(p)
  }

  function ServerPopularityCounts(races: seq<Race>, f: Filters): Table<int, Counters> {
    Tabulate(Starts(FilterRaces(races, f)), ServerPopularityKey, Zero, Tally)
  }

  /** `calculatePopularityStats` on the server: every key is a valid rank no
      larger than the largest counted field, keys are distinct, and every
      row has at least one run, nested counters and ordered rates. */
  function ServerPopularityStats(races: seq<Race>, f: Filters): (r: Table<int, RateRow>)
    ensures DistinctKeys(r)
    ensures forall i :: 0 <= i < |r| ==> 1 <= r[i].0 <= MaxField(FilterRaces(races, f))
    ensures forall i :: 0 <= i < |r| ==> GoodRow(r[i].1)
  {
    var ss := Starts(FilterRaces(races, f));
    var t := ServerPopularityCounts(races, f);
    CountersTableShape(ss, ServerPopularityKey);
    WithRatesGood(t);
    MapValues(t, Rates)
  }

  /** An entrant with no jockey name is skipped; the raw string is the key. */
  function JockeyKey(s: Start): Option<string> {
    if s.horse.jockey == "" then None else Some(s.horse.jockey)
  }

  function ServerJockeyCounts(races: seq<Race>, f: Filters): Table<string, Counters> {
    Tabulate(Starts(FilterRaces(races, f)), JockeyKey, Zero, Tally)
  }

  /** `calculateJockeyStats` on the server: no empty key, distinct keys,
      good rows, and a bucket for every named jockey who rode in a counted race. */
  function ServerJockeyStats(races: seq<Race>, f: Filters): (r: Table<string, RateRow>)
    ensures DistinctKeys(r)
    ensures forall i :: 0 <= i < |r| ==> r[i].0 != "" && GoodRow(r[i].1)
    ensures forall s :: s in Starts(FilterRaces(races, f)) && s.horse.jockey != "" ==>
      Get(r, s.horse.jockey).Some?
  {
    var ss := Starts(FilterRaces(races, f));
    var t := ServerJockeyCounts(races, f);
    CountersTableShape(ss, JockeyKey);
    WithRatesGood(t);
    forall s | s in ss && s.horse.jockey != ""
      ensures Get(MapValues(t, Rates), s.horse.jockey).Some?
    {
      RiderHasBucket(ss, s);
    }
    MapValues(t, Rates)
  }

  /** Every named jockey among the starts has a row. */
  lemma RiderHasBucket(ss: seq<Start>, s: Start)
    requires s in ss && s.horse.jockey != ""
    ensures Get(MapValues(Tabulate(ss, JockeyKey, Zero, Tally), Rates), s.horse.jockey).Some?
  {
    var j :| 0 <= j < |ss| && ss[j] == s;
    HasBucketIff(ss, JockeyKey, Zero, Tally, s.horse.jockey);
    MapValuesGet(Tabulate(ss, JockeyKey, Zero, Tally), Rates, s.horse.jockey);
  }

  /** A race still waiting for its result changes no statistic. */
  lemma PendingRaceIgnored(races: seq<Race>, r: Race, f: Filters)
    requires !HasResult(r)
    ensures Starts(FilterRaces(races + [r], f)) == Starts(FilterRaces(races, f))
  {
    assert (races + [r])[..|races|] == races;
  }

  // ---------------------------------------------------------------- client

  /** The client keys by whatever popularity the entrant carries. */
  function ClientPopularityKey(s: Start): Option<int> {
    Some(s.horse.popularity)
  }

  function ClientPopularityCounts(races: seq<Race>, f: Filters): Table<int, Counters> {
    Tabulate(Starts(FilterRaces(races, f)), ClientPopularityKey, Zero, TallyTests)
  }

  lemma {:induction false} TallyTestsSameTable<K>(ss: seq<Start>, key: Start -> Option<K>)
    ensures Tabulate(ss, key, Zero, TallyTests) == Tabulate(ss, key, Zero, Tally)
    decreases |ss|
  {
    if ss != [] {
      var init := ss[..|ss| - 1];
      TallyTestsSameTable(init, key);
      var t := Tabulate(init, key, Zero, Tally);
      var last := ss[|ss| - 1];
      match key(last)
      case None =>
      case Some(k) => TallyChainMatchesTests(Get(t, k).GetOr(Zero), last);
    }
  }

  /** The client's `calculatePopularityStats`: no range check, so every
      counted entrant's popularity, valid or not, has a bucket; the rows are
      still good. */
  function ClientPopularityStats(races: seq<Race>, f: Filters): (r: Table<int, RateRow>)
    ensures DistinctKeys(r)
    ensures forall i :: 0 <= i < |r| ==> GoodRow(r[i].1)
    ensures forall s :: s in Starts(FilterRaces(races, f)) ==> Get(r, s.horse.popularity).Some?
  {
    var ss := Starts(FilterRaces(races, f));
    var t := ClientPopularityCounts(races, f);
    TallyTestsSameTable(ss, ClientPopularityKey);
    CountersTableShape(ss, ClientPopularityKey);
    WithRatesGood(t);
    forall s | s in ss
      ensures Get(MapValues(t, Rates), s.horse.popularity).Some?
    {
      var j :| 0 <= j < |ss| && ss[j] == s;
      HasBucketIff(ss, ClientPopularityKey, Zero, Tally, s.horse.popularity);
      var i :| 0 <= i < |t| && t[i].0 == s.horse.popularity;
      assert MapValues(t, Rates)[i].0 == s.horse.popularity;
    }
    MapValues(t, Rates)
  }

  /** When every counted popularity is a valid rank the two copies agree. */
  lemma ValidPopularitiesAgree(races: seq<Race>, f: Filters)
    requires forall s :: s in Starts(FilterRaces(races, f)) ==> 1 <= s.horse.popularity <= s.fieldSize
    ensures ClientPopularityCounts(races, f) == ServerPopularityCounts(races, f)
  {
    var ss := Starts(FilterRaces(races, f));
    assert forall i :: 0 <= i < |ss| ==> ss[i] in ss;
    TallyTestsSameTable(ss, ClientPopularityKey);
    TabulateSameKeys(ss, ClientPopularityKey, ServerPopularityKey, Zero, Tally);
  }

  /** The copies differ on a rank larger than the field: one resulted race
      of three runners where one carries popularity 5 gets a bucket 5 on
      the client and none on the server. */
  lemma PopularityCopiesDiffer()
    ensures var h := Horse(1, 1, "A", "", 4, 55.0, "J", 2.0, 1);
      var race := Race("r", "", "", 1600, "", "", None, [h, h.(name := "B", popularity := 2), h.(name := "C", popularity := 5)],
                       Some(RaceResult(Some("A"), None, None)));
      Get(ClientPopularityCounts([race], NoFilters), 5).Some? && Get(ServerPopularityCounts([race], NoFilters), 5).None?
  {
    var h := Horse(1, 1, "A", "", 4, 55.0, "J", 2.0, 1);
    var race := Race("r", "", "", 1600, "", "", None, [h, h.(name := "B", popularity := 2), h.(name := "C", popularity := 5)],
                     Some(RaceResult(Some("A"), None, None)));
    NoFiltersKeepAll([race]);
    var ss := Starts([race]);
    assert [race][..0] == [];
    assert Starts([race]) == Starts([]) + RaceStarts(race);
    assert ss == RaceStarts(race);
    assert ClientPopularityKey(ss[2]) == Some(5);
    HasBucketIff(ss, ClientPopularityKey, Zero, TallyTests, 5);
    HasBucketIff(ss, ServerPopularityKey, Zero, Tally, 5);
  }

  /** Client jockey bucket: the counters plus the summed field sizes of the rides. */
  datatype Rides = Rides(counters: Counters, totalField: nat)

  const NoRides := Rides(Zero, 0)

  function RideTally(a: Rides, s: Start): Rides {
    Rides(TallyTests(a.counters, s), a.totalField + s.fieldSize)
  }

  ghost function SumField(ss: seq<Start>): nat
    decreases |ss|
  {
    if ss == [] then 0 else SumField(ss[..|ss| - 1]) + ss[|ss| - 1].fieldSize
  }

  lemma {:induction false} FoldRides(ss: seq<Start>)
    ensures Fold(ss, NoRides, RideTally) == Rides(Fold(ss, Zero, Tally), SumField(ss))
    decreases |ss|
  {
    if ss != [] {
      FoldRides(ss[..|ss| - 1]);
      TallyChainMatchesTests(Fold(ss[..|ss| - 1], Zero, Tally), ss[|ss| - 1]);
    }
  }

  datatype JockeyRow = JockeyRow(rates: RateRow, avgField: real, totalField: nat)

  /** `avgField = parseFloat((totalField / total).toFixed(1))`, 0 without rides. */
  function ToJockeyRow(a: Rides): (r: JockeyRow)
    ensures r.rates == Rates(a.counters) && r.totalField == a.totalField
    ensures a.counters.total > 0 ==>
      a.totalField as real / a.counters.total as real - 0.05 < r.avgField <= a.totalField as real / a.counters.total as real + 0.05
    ensures a.counters.total == 0 ==> r.avgField == 0.0
  {
    if a.counters.total > 0 then
      Round1Close(a.totalField as real / a.counters.total as real);
      JockeyRow(Rates(a.counters), Round1(a.totalField as real / a.counters.total as real), a.totalField)
    else JockeyRow(Rates(a.counters), 0.0, a.totalField)
  }

  function ClientJockeyStats(races: seq<Race>, f: Filters): Table<string, JockeyRow> {
    MapValues(Tabulate(Starts(FilterRaces(races, f)), JockeyKey, NoRides, RideTally), ToJockeyRow)
  }

  /** The client's `calculateJockeyStats` counts exactly as the server's does,
      and its `totalField` is the sum of the field sizes of that jockey's rides. */
  lemma ClientJockeyBucket(races: seq<Race>, f: Filters, j: string)
    ensures var ss := Starts(FilterRaces(races, f));
      var sel := Select(ss, JockeyKey, j);
      var t := Tabulate(ss, JockeyKey, NoRides, RideTally);
      Get(t, j) == (match Get(ServerJockeyCounts(races, f), j)
                    case None => None
                    case Some(c) => Some(Rides(c, SumField(sel))))
  {
    var ss := Starts(FilterRaces(races, f));
    var sel := Select(ss, JockeyKey, j);
    TabulateGroups(ss, JockeyKey, NoRides, RideTally, j);
    TabulateGroups(ss, JockeyKey, Zero, Tally, j);
    FoldRides(sel);
  }

  /** Every client jockey row is for a named jockey, has at least one ride,
      nested counters and ordered one-decimal rates. */
  lemma ClientJockeyRowGood(races: seq<Race>, f: Filters, j: string)
    requires Get(ClientJockeyStats(races, f), j).Some?
    ensures j != "" && GoodRow(Get(ClientJockeyStats(races, f), j).value.rates)
  {
    var ss := Starts(FilterRaces(races, f));
    var t := Tabulate(ss, JockeyKey, NoRides, RideTally);
    var counts := ServerJockeyCounts(races, f);
    assert Get(t, j).Some? && Get(ClientJockeyStats(races, f), j).value == ToJockeyRow(Get(t, j).value) by {
      MapValuesGet(t, ToJockeyRow, j);
    }
    assert Get(counts, j).Some? && Get(t, j).value.counters == Get(counts, j).value by {
      ClientJockeyBucket(races, f, j);
    }
    var c := Get(counts, j).value;
    JockeyBucketGood(ss, j);
  }

  /** A jockey with a bucket is named, rode at least once, and has nested counters. */
  lemma JockeyBucketGood(ss: seq<Start>, j: string)
    requires Get(Tabulate(ss, JockeyKey, Zero, Tally), j).Some?
    ensures var c := Get(Tabulate(ss, JockeyKey, Zero, Tally), j).value;
      j != "" && c.total >= 1 && Nested(c)
  {
    var t := Tabulate(ss, JockeyKey, Zero, Tally);
    var c := Get(t, j).value;
    CountersTableShape(ss, JockeyKey);
    var i :| 0 <= i < |t| && t[i] == (j, c);
    var e :| 0 <= e < |ss| && JockeyKey(ss[e]) == Some(j);
  }
}

/** The bet calculator (`client/src/components/BetCalculator.tsx`): the
    payout of a win, place or show bet on a resulted race, the odds it is
    paid at, and the record a submitted bet produces. */
module Bet {
  import opened Base
  import opened Model
  import opened Store

  datatype BetType = WinBet | PlaceBet | ShowBet

  /** Entrant `i` is the first one named `name`. */
  predicate FirstNamed(horses: seq<Horse>, name: string, i: int) {
    0 <= i < |horses| && horses[i].name == name && forall j :: 0 <= j < i ==> horses[j].name != name
  }

  /** `getOddsForHorse`: the odds of the entrant `find` returns, the first
      one with the name, or 1.0 when there is none (see `OddsForMeaning`). */
  function OddsFor(race: Race, name: string): real {
    OddsOf(race.horses, name)
  }

  function OddsOf(horses: seq<Horse>, name: string): real
    decreases |horses|
  {
    if horses == [] then 1.0
    else if horses[0].name == name then horses[0].odds
    else OddsOf(horses[1..], name)
  }

  /** The odds looked up are 1.0 when no entrant has the name, and otherwise
      those of the first entrant that has it. */
  lemma OddsForMeaning(race: Race, name: string)
    ensures (forall i :: 0 <= i < |race.horses| ==> race.horses[i].name != name) ==> OddsFor(race, name) == 1.0
    ensures forall i :: FirstNamed(race.horses, name, i) ==> OddsFor(race, name) == race.horses[i].odds
  {
    OddsOfMeaning(race.horses, name);
  }

  lemma {:induction false} OddsOfMeaning(horses: seq<Horse>, name: string)
    ensures (forall i :: 0 <= i < |horses| ==> horses[i].name != name) ==> OddsOf(horses, name) == 1.0
    ensures forall i :: FirstNamed(horses, name, i) ==> OddsOf(horses, name) == horses[i].odds
    decreases |horses|
  {
    if horses != [] && horses[0].name != name {
      OddsOfMeaning(horses[1..], name);
      assert forall i :: FirstNamed(horses, name, i) ==> FirstNamed(horses[1..], name, i - 1);
    }
  }

  /** The finishing positions a bet type pays on: 1st for a win bet, 1st and
      2nd for a place bet, 1st to 3rd for a show bet. */
  function Paying(t: BetType, res: RaceResult): (ps: seq<Option<string>>)
    ensures |ps| == match t case WinBet => 1 case PlaceBet => 2 case ShowBet => 3
  {
    match t
    case WinBet => [res.first]
    case PlaceBet => [res.first, res.second]
    case ShowBet => [res.first, res.second, res.third]
  }

  /** A bet type's share of `odds × stake`: all of it for a win bet, half
      for a place bet and 0.3 of it for a show bet. */
  function Share(t: BetType, x: real): (r: real)
    ensures x >= 0.0 ==> 0.0 <= r <= x
  {
    match t
    case WinBet => x
    case PlaceBet => x * 0.5
    case ShowBet => x * 0.3
  }

  predicate Placed(ps: seq<Option<string>>, name: string) { Some(name) in ps }

  /** Selected horse `i` is the first in the selection that placed. */
  predicate FirstPlacedAt(names: seq<string>, ps: seq<Option<string>>, i: int) {
    0 <= i < |names| && Placed(ps, names[i]) && forall j :: 0 <= j < i ==> !Placed(ps, names[j])
  }

  /** The position in the selection of the first selected horse that placed. */
  function FirstPlaced(names: seq<string>, ps: seq<Option<string>>): (r: Option<nat>)
    ensures r.None? <==> forall i :: 0 <= i < |names| ==> !Placed(ps, names[i])
    ensures r.Some? ==> r.value < |names| && Placed(ps, names[r.value])
    ensures r.Some? ==> forall j :: 0 <= j < r.value ==> !Placed(ps, names[j])
    decreases |names|
  {
    if names == [] then None
    else if Placed(ps, names[0]) then Some(0)
    else
      match FirstPlaced(names[1..], ps)
      case None => None
      case Some(i) => Some(i + 1)
  }

  /** The selected horse a bet is paid on, if any. A win bet checks
      `horseNames.includes(result['1着'] || '')`, so an absent winner is
      looked up as the name `''`; the place and show bets walk the selection
      in order and pay on the first selected horse that finished in a paying
      position. */
  function PaidOn(race: Race, t: BetType, names: seq<string>): (r: Option<string>)
    ensures r.Some? ==> race.result.Some? && r.value in names
  {
    match race.result
    case None => None
    case Some(res) =>
      match t
      case WinBet =>
        var first := res.first.GetOr("");
        if first in names then Some(first) else None
      case _ =>
        match FirstPlaced(names, Paying(t, res))
        case None => None
        case Some(i) => Some(names[i])
  }

  /** `calculatePayout`: the bet type's share of the odds of the horse paid
      on times the stake. */
  function Payout(race: Race, t: BetType, names: seq<string>, amount: real): real {
    match PaidOn(race, t, names)
    case None => 0.0
    case Some(n) => Share(t, OddsFor(race, n) * amount)
  }

  /** A race without a result pays on nothing; on a race with a result a
      place or show bet pays on the first selected horse, in selection
      order, that finished in a paying position, and on nothing when none
      did. */
  lemma PaidOnMeaning(race: Race, t: BetType, names: seq<string>)
    ensures race.result.None? ==> PaidOn(race, t, names).None?
    ensures race.result.Some? && t != WinBet && (forall i :: 0 <= i < |names| ==> !Placed(Paying(t, race.result.value), names[i]))
      ==> PaidOn(race, t, names).None?
    ensures race.result.Some? && t != WinBet ==> (forall i :: FirstPlacedAt(names, Paying(t, race.result.value), i) ==>
      PaidOn(race, t, names) == Some(names[i]))
  {
    if race.result.Some? && t != WinBet {
      var ps := Paying(t, race.result.value);
      forall i | FirstPlacedAt(names, ps, i)
        ensures FirstPlaced(names, ps) == Some(i)
      {
        var k := FirstPlaced(names, ps).value;
        assert !(k < i) && !(i < k);
      }
    }
  }

  /** What a bet pays: nothing without a result or a paying horse, and for a
      place or show bet the odds share of the first selected horse that
      finished in a paying position. */
  lemma PayoutMeaning(race: Race, t: BetType, names: seq<string>, amount: real)
    ensures race.result.None? ==> Payout(race, t, names, amount) == 0.0
    ensures race.result.Some? && t != WinBet && (forall i :: 0 <= i < |names| ==> !Placed(Paying(t, race.result.value), names[i]))
      ==> Payout(race, t, names, amount) == 0.0
    ensures race.result.Some? && t != WinBet ==> (forall i :: FirstPlacedAt(names, Paying(t, race.result.value), i) ==>
      Payout(race, t, names, amount) == Share(t, OddsFor(race, names[i]) * amount))
  {
    if race.result.Some? && t != WinBet {
      var ps := Paying(t, race.result.value);
      assert (forall i :: 0 <= i < |names| ==> !Placed(ps, names[i])) ==> Payout(race, t, names, amount) == 0.0 by {
        PaidOnMeaning(race, t, names);
      }
      forall i | FirstPlacedAt(names, ps, i)
        ensures Payout(race, t, names, amount) == Share(t, OddsFor(race, names[i]) * amount)
      {
        assert PaidOn(race, t, names) == Some(names[i]) by {
          PaidOnMeaning(race, t, names);
        }
      }
    }
  }

  /** A win bet pays the winner's odds when the recorded winner is among the
      selected names, and the selection's order and repetitions do not matter. */
  lemma WinPayoutMeaning(race: Race, names: seq<string>, other: seq<string>, amount: real, w: string)
    requires race.result.Some? && race.result.value.first == Some(w)
    requires forall n :: n in names <==> n in other
    ensures w in names ==> Payout(race, WinBet, names, amount) == OddsFor(race, w) * amount
    ensures w !in names ==> Payout(race, WinBet, names, amount) == 0.0
    ensures Payout(race, WinBet, names, amount) == Payout(race, WinBet, other, amount)
  {
    assert PaidOn(race, WinBet, names) == PaidOn(race, WinBet, other);
  }

  /** Adding horses after a selection that already pays does not change the
      payout of any bet type. */
  lemma PayoutKeepsEarlierHit(race: Race, t: BetType, names: seq<string>, more: seq<string>, amount: real)
    requires race.result.Some?
    requires exists i :: 0 <= i < |names| && Placed(Paying(t, race.result.value), names[i])
    ensures Payout(race, t, names + more, amount) == Payout(race, t, names, amount)
  {
    PaidOnKeepsEarlierHit(race, t, names, more);
  }

  lemma {:induction false} PaidOnKeepsEarlierHit(race: Race, t: BetType, names: seq<string>, more: seq<string>)
    requires race.result.Some?
    requires exists i :: 0 <= i < |names| && Placed(Paying(t, race.result.value), names[i])
    ensures PaidOn(race, t, names + more) == PaidOn(race, t, names)
  {
    var ps := Paying(t, race.result.value);
    var i :| 0 <= i < |names| && Placed(ps, names[i]);
    assert (names + more)[i] == names[i];
    if t == WinBet {
      var w := race.result.value.first;
      assert w == Some(names[i]);
      assert names[i] in names && names[i] in names + more;
    } else {
      var k := FirstPlaced(names, ps).value;
      assert forall j :: 0 <= j < |names| ==> (names + more)[j] == names[j];
      assert FirstPlaced(names + more, ps).value == k;
    }
  }

  /** With non-negative odds and stake, a bet never pays a negative amount. */
  lemma PayoutNonNegative(race: Race, t: BetType, names: seq<string>, amount: real)
    requires amount >= 0.0
    requires forall i :: 0 <= i < |race.horses| ==> race.horses[i].odds >= 0.0
    ensures Payout(race, t, names, amount) >= 0.0
  {
    match PaidOn(race, t, names)
    case None =>
    case Some(n) =>
      OddsNonNegative(race, n);
      ProductNonNegative(OddsFor(race, n), amount);
  }

  lemma ProductNonNegative(a: real, b: real)
    requires a >= 0.0 && b >= 0.0
    ensures a * b >= 0.0
  {
  }

  lemma OddsNonNegative(race: Race, name: string)
    requires forall i :: 0 <= i < |race.horses| ==> race.horses[i].odds >= 0.0
    ensures OddsFor(race, name) >= 0.0
  {
    OddsOfNonNegative(race.horses, name);
  }

  lemma {:induction false} OddsOfNonNegative(horses: seq<Horse>, name: string)
    requires forall i :: 0 <= i < |horses| ==> horses[i].odds >= 0.0
    ensures OddsOf(horses, name) >= 0.0
    decreases |horses|
  {
    if horses != [] && horses[0].name != name {
      OddsOfNonNegative(horses[1..], name);
    }
  }

  // ---------------------------------------------------------------- submit

  datatype BetRecord = BetRecord(
    raceId: string,
    raceName: string,
    betType: BetType,
    horseNames: seq<string>,
    betAmount: real,
    payout: real,
    profit: real)

  /** `alert('レースと馬を選択してください')`, the silent return for an
      unknown race, or the record posted to `/api/bets`. */
  datatype Submission = Refused | UnknownRace | Recorded(record: BetRecord)

  /** `handleBetSubmit` over the stored races; only races with a result are
      offered, so only they can be found. */
  function Submit(stored: seq<Race>, raceId: string, t: BetType, names: seq<string>, amount: real): (r: Submission)
    ensures r == Refused <==> raceId == "" || names == []
    ensures r.UnknownRace? <==> raceId != "" && names != [] && forall x :: x in Resulted(stored) ==> x.id != raceId
    ensures r.Recorded? ==> exists race :: (race in stored && HasResult(race) && race.id == raceId
      && r.record == BetRecord(raceId, race.course + " " + LevelText(race.level), t, names, amount,
           Payout(race, t, names, amount), Payout(race, t, names, amount) - amount))
  {
    if raceId == "" || names == [] then Refused
    else
      var offered := Resulted(stored);
      match FindIndex(offered, raceId)
      case None =>
        assert forall x :: x in offered ==> x.id != raceId;
        UnknownRace
      case Some(i) =>
        var race := offered[i];
        assert race in offered;
        var payout := Payout(race, t, names, amount);
        Recorded(BetRecord(raceId, race.course + " " + LevelText(race.level), t, names, amount, payout, payout - amount))
  }

  /** A recorded bet's profit and stake add up to its payout. */
  lemma RecordBalances(stored: seq<Race>, raceId: string, t: BetType, names: seq<string>, amount: real)
    ensures var r := Submit(stored, raceId, t, names, amount);
      r.Recorded? ==> r.record.profit + r.record.betAmount == r.record.payout && r.record.horseNames != []
  {
  }
}

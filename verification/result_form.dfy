/** The result entry form (`client/src/components/ResultForm.tsx`): the
    result being edited, and the horses offered for each finishing position. */
module ResultEntry {
  import opened Base
  import opened Model

  /** `useState(race.result || {})` */
  function InitialResult(race: Race): (r: RaceResult)
    ensures race.result.Some? ==> r == race.result.value
    ensures race.result.None? ==> r.first.None? && r.second.None? && r.third.None?
  {
    race.result.GetOr(EmptyResult)
  }

  datatype Position = First | Second | Third

  function At(res: RaceResult, p: Position): Option<string> {
    match p
    case First => res.first
    case Second => res.second
    case Third => res.third
  }

  /** `handleResultChange`: `{ ...prev, [position]: value }`. */
  function Choose(res: RaceResult, p: Position, name: string): (r: RaceResult)
    ensures At(r, p) == Some(name)
    ensures forall q :: q != p ==> At(r, q) == At(res, q)
  {
    match p
    case First => res.(first := Some(name))
    case Second => res.(second := Some(name))
    case Third => res.(third := Some(name))
  }

  /** The horses offered for 1st place: every entrant. */
  function FirstOptions(race: Race): seq<Horse> { race.horses }

  /** Entrants kept by `filter(horse => horse.name !== result['1着'])`. */
  function SecondOptions(race: Race, res: RaceResult): (r: seq<Horse>)
    ensures forall h :: h in r <==> h in race.horses && res.first != Some(h.name)
  {
    Without(race.horses, res.first)
  }

  /** Entrants named neither the current 1st nor the current 2nd. */
  function ThirdOptions(race: Race, res: RaceResult): (r: seq<Horse>)
    ensures forall h :: h in r <==> h in race.horses && res.first != Some(h.name) && res.second != Some(h.name)
  {
    Without(Without(race.horses, res.first), res.second)
  }

  /** The horses not named `name`, in entry order. */
  function Without(hs: seq<Horse>, name: Option<string>): (r: seq<Horse>)
    ensures forall h :: h in r <==> h in hs && name != Some(h.name)
    ensures |r| <= |hs|
    decreases |hs|
  {
    if hs == [] then []
    else
      var rest := Without(hs[1..], name);
      assert forall h :: h in hs <==> h == hs[0] || h in hs[1..];
      if name == Some(hs[0].name) then rest else [hs[0]] + rest
  }

  /** Filling the positions in order from the options offered gives three
      different horses, each an entrant. */
  lemma ChosenInOrderDistinct(race: Race, h1: Horse, h2: Horse, h3: Horse)
    requires h1 in FirstOptions(race)
    requires h2 in SecondOptions(race, Choose(InitialResult(race), First, h1.name))
    requires h3 in ThirdOptions(race, Choose(Choose(InitialResult(race), First, h1.name), Second, h2.name))
    ensures var res := Choose(Choose(Choose(InitialResult(race), First, h1.name), Second, h2.name), Third, h3.name);
      && res.first == Some(h1.name) && res.second == Some(h2.name) && res.third == Some(h3.name)
      && h1.name != h2.name && h1.name != h3.name && h2.name != h3.name
      && h1 in race.horses && h2 in race.horses && h3 in race.horses
  {
    var r1 := Choose(InitialResult(race), First, h1.name);
    var r2 := Choose(r1, Second, h2.name);
    assert At(r1, First) == Some(h1.name);
    assert At(r2, First) == Some(h1.name) && At(r2, Second) == Some(h2.name);
  }

  /** The options are only recomputed from the current choices: choosing a
      new 1st after the 2nd can leave both positions naming the same horse. */
  lemma LaterFirstCanRepeatSecond(race: Race, h: Horse)
    requires h in race.horses
    ensures var res := Choose(Choose(EmptyResult, Second, h.name), First, h.name);
      res.first == res.second && h in FirstOptions(race) && h in SecondOptions(race, EmptyResult)
  {
  }
}

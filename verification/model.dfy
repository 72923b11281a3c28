/** The stored records: a race, its entrants and its optional result
    (the `Horse`, `RaceResult` and `Race` interfaces of the client types). */
module Model {
  import opened Base

  datatype Horse = Horse(
    frameNumber: int,
    horseNumber: int,
    name: string,
    sex: string,
    age: int,
    weight: real,
    jockey: string,
    odds: real,
    popularity: int)

  /** The `"1着"`, `"2着"` and `"3着"` entries; each may be missing. */
  datatype RaceResult = RaceResult(first: Option<string>, second: Option<string>, third: Option<string>)

  const EmptyResult := RaceResult(None, None, None)

  /** A stored race. A missing `id` is the empty string; the optional
      `level` is `None` when absent; a missing `result` is `None` (an empty
      result object `{}` is `Some(EmptyResult)`, which JavaScript treats as
      present). */
  datatype Race = Race(
    id: string,
    date: string,
    course: string,
    distance: int,
    surface: string,
    condition: string,
    level: Option<string>,
    horses: seq<Horse>,
    result: Option<RaceResult>)

  predicate HasResult(r: Race) { r.result.Some? }

  /** The level as a template literal or an object key spells it: an absent
      level becomes the text `"undefined"`. */
  function LevelText(level: Option<string>): (t: string)
    ensures level.Some? ==> t == level.value
    ensures level.None? ==> t == "undefined"
  {
    match level
    case Some(l) => l
    case None => "undefined"
  }

  /** `horse.name === result[position]`: an absent position matches nobody. */
  predicate NameIs(pos: Option<string>, name: string) {
    pos == Some(name)
  }

  function FieldSize(r: Race): nat { |r.horses| }

  /** Total number of entrants over a list of races. */
  function TotalHorses(races: seq<Race>): nat
    decreases |races|
  {
    if races == [] then 0 else TotalHorses(races[..|races| - 1]) + |races[|races| - 1].horses|
  }

  /** The races that have a result, in their stored order. */
  function Resulted(races: seq<Race>): (r: seq<Race>)
    ensures |r| <= |races|
    ensures forall x :: x in r <==> x in races && HasResult(x)
    decreases |races|
  {
    if races == [] then []
    else
      var init := Resulted(races[..|races| - 1]);
      var last := races[|races| - 1];
      assert races == races[..|races| - 1] + [last];
      if HasResult(last) then init + [last] else init
  }

  /** The race fields as the entry forms edit them, before the race is
      posted: every field is text, the distance included. */
  datatype RaceInfo = RaceInfo(date: string, course: string, distance: string, surface: string, condition: string, level: string)
}

/** The simplified race entry form
    (`client/src/components/SimpleRaceForm.tsx`): horses are typed in as
    number, name and popularity, and the race is posted with defaults for
    everything the statistics do not read. */
module SimpleForm {
  import opened Base
  import opened Text
  import opened Model

  /** The three text inputs for the next horse. */
  datatype HorseInput = HorseInput(horseNumber: string, name: string, popularity: string)

  const EmptyInput := HorseInput("", "", "")

  /** A horse as the form lists it; `parseInt` has been applied. */
  datatype SimpleHorse = SimpleHorse(horseNumber: int, name: string, popularity: int)

  /** The form's initial state, and the state a successful save returns to. */
  const DefaultInfo := RaceInfo("", "", "", "芝", "良", "1000万下")

  datatype FormState = FormState(info: RaceInfo, horses: seq<SimpleHorse>, input: HorseInput)

  const FreshForm := FormState(DefaultInfo, [], EmptyInput)

  /** `addHorse`: with all three inputs filled, append the parsed horse and
      clear the inputs; with any input empty, change nothing. */
  function AddHorse(f: FormState): (r: FormState)
    ensures r.info == f.info
    ensures f.input.horseNumber != "" && f.input.name != "" && f.input.popularity != "" ==>
      && r.horses == f.horses + [SimpleHorse(ParseIntOr0(f.input.horseNumber), f.input.name, ParseIntOr0(f.input.popularity))]
      && r.input == EmptyInput
    ensures f.input.horseNumber == "" || f.input.name == "" || f.input.popularity == "" ==> r == f
    ensures |r.horses| <= |f.horses| + 1
  {
    var i := f.input;
    if i.horseNumber != "" && i.name != "" && i.popularity != "" then
      f.(horses := f.horses + [SimpleHorse(ParseIntOr0(i.horseNumber), i.name, ParseIntOr0(i.popularity))], input := EmptyInput)
    else f
  }

  /** `horses.filter((_, i) => i !== index)` */
  function RemoveHorse(hs: seq<SimpleHorse>, index: int): (r: seq<SimpleHorse>)
    ensures 0 <= index < |hs| ==> |r| == |hs| - 1
    ensures !(0 <= index < |hs|) ==> r == hs
    ensures 0 <= index < |hs| ==> forall j :: 0 <= j < |r| ==> r[j] == if j < index then hs[j] else hs[j + 1]
  {
    if 0 <= index < |hs| then hs[..index] + hs[index + 1..] else hs
  }

  /** Removing the horse just added gives back the list it was added to. */
  lemma AddThenRemove(f: FormState)
    requires f.input.horseNumber != "" && f.input.name != "" && f.input.popularity != ""
    ensures RemoveHorse(AddHorse(f).horses, |f.horses|) == f.horses
  {
    var hs := AddHorse(f).horses;
    assert hs[..|f.horses|] == f.horses;
  }

  /** A draft race as posted to `/api/race`: the distance is `parseInt` of
      the typed text, `None` standing for `NaN`. */
  datatype Draft = Draft(date: string, course: string, distance: Option<int>, surface: string, condition: string, level: string, horses: seq<Horse>)

  /** The entrant a listed horse becomes: its number doubles as the frame
      number, and the other fields take fixed defaults. */
  function AsEntrant(h: SimpleHorse): Horse {
    Horse(h.horseNumber, h.horseNumber, h.name, "不明", 4, 55.0, "未設定", 5.0, h.popularity)
  }

  /** The outcome of pressing save: refused with fewer than two horses,
      otherwise the draft that is posted. */
  datatype Saved = TooFewHorses | Posted(draft: Draft)

  /** `handleSubmit` up to the request, and the state after it; `stored`
      says whether the request succeeded (the form is reset only then). */
  function Submit(f: FormState, stored: bool): (r: (Saved, FormState))
    ensures r.0 == TooFewHorses <==> |f.horses| < 2
    ensures r.0 == TooFewHorses ==> r.1 == f
    ensures r.0.Posted? ==> |r.0.draft.horses| == |f.horses| >= 2
    ensures r.0.Posted? ==> forall i :: 0 <= i < |f.horses| ==>
      && r.0.draft.horses[i].name == f.horses[i].name
      && r.0.draft.horses[i].horseNumber == r.0.draft.horses[i].frameNumber == f.horses[i].horseNumber
      && r.0.draft.horses[i].popularity == f.horses[i].popularity
      && r.0.draft.horses[i].odds == 5.0 && r.0.draft.horses[i].age == 4
      && r.0.draft.horses[i].jockey == "未設定" && r.0.draft.horses[i].sex == "不明" && r.0.draft.horses[i].weight == 55.0
    ensures r.0.Posted? ==> r.0.draft.distance == ParseInt(f.info.distance) && r.0.draft.course == f.info.course
    ensures r.0.Posted? ==> r.0.draft.surface == f.info.surface && r.0.draft.level == f.info.level
    ensures r.0.Posted? ==> r.0.draft.condition == f.info.condition && r.0.draft.date == f.info.date
    ensures r.0.Posted? && stored ==> r.1.info == DefaultInfo && r.1.horses == [] && r.1.input == f.input
    ensures r.0.Posted? && !stored ==> r.1 == f
  {
    if |f.horses| < 2 then (TooFewHorses, f)
    else
      var entrants := seq(|f.horses|, i requires 0 <= i < |f.horses| => AsEntrant(f.horses[i]));
      var draft := Draft(f.info.date, f.info.course, ParseInt(f.info.distance), f.info.surface, f.info.condition, f.info.level, entrants);
      (Posted(draft), if stored then f.(info := DefaultInfo, horses := []) else f)
  }
}

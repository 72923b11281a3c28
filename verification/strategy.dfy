/** The betting recommendations built on a race prediction: a win tip or a
    safety tip for the top pick, a show tip for the top three, a dark horse
    among ranks two to six, and the race's risk level. */
module Strategy {
  import opened Base
  import opened Model
  import opened Sorting
  import opened Engine

  datatype Risk = Low | Medium | High

  /** `averageConfidence > 0.8 ? 'low' : averageConfidence > 0.6 ? 'medium' : 'high'`;
      an empty race has a `NaN` average, which fails both comparisons. */
  function RiskLevel(average: Option<real>): (r: Risk)
    ensures r == Low <==> average.Some? && average.value > 0.8
    ensures r == Medium <==> average.Some? && 0.6 < average.value <= 0.8
    ensures r == High <==> average.None? || average.value <= 0.6
  {
    match average
    case None => High
    case Some(a) => if a > 0.8 then Low else if a > 0.6 then Medium else High
  }

  function RiskRank(r: Risk): nat {
    match r
    case Low => 0
    case Medium => 1
    case High => 2
  }

  /** A more confident race is never judged riskier. */
  lemma RiskMonotone(a: real, b: real)
    requires a <= b
    ensures RiskRank(RiskLevel(Some(b))) <= RiskRank(RiskLevel(Some(a)))
  {
  }

  datatype Kind = Win | SafeWin | Show | DarkHorse

  datatype Tip = Tip(kind: Kind, targets: seq<string>, confidence: real, expectedValue: real)

  /** Expected return of a one-unit win bet: odds times predicted rate. */
  function ExpectedValue(p: Prediction): real { p.horse.odds * p.predictedWinRate }

  predicate WinWorthy(p: Prediction) { ExpectedValue(p) > 1.0 && p.confidence > 0.6 }

  predicate SafeWorthy(p: Prediction) { p.confidence > 0.8 && p.predictedWinRate > 0.2 }

  /** The tip for the first recommendation: a win tip when its expected value
      beats the stake with confidence above 0.6, otherwise a safety tip when it
      is both very confident and likely, otherwise nothing. */
  function WinTip(top: seq<Prediction>): (r: Option<Tip>)
    ensures r.Some? ==> |top| > 0 && r.value.targets == [top[0].horse.name]
    ensures r.Some? ==> r.value.confidence == top[0].confidence && r.value.expectedValue == ExpectedValue(top[0])
    ensures (r.Some? && r.value.kind == Win) <==> |top| > 0 && WinWorthy(top[0])
    ensures (r.Some? && r.value.kind == SafeWin) <==> |top| > 0 && !WinWorthy(top[0]) && SafeWorthy(top[0])
    ensures r.Some? ==> r.value.kind in {Win, SafeWin}
  {
    if top == [] then None
    else
      var p := top[0];
      if WinWorthy(p) then Some(Tip(Win, [p.horse.name], p.confidence, ExpectedValue(p)))
      else if SafeWorthy(p) then Some(Tip(SafeWin, [p.horse.name], p.confidence, ExpectedValue(p)))
      else None
  }

  function RateSum(ps: seq<Prediction>): real
    decreases |ps|
  {
    if ps == [] then 0.0 else RateSum(ps[..|ps| - 1]) + ps[|ps| - 1].predictedWinRate
  }

  function Names(ps: seq<Prediction>): (r: seq<string>)
    ensures |r| == |ps|
    ensures forall i :: 0 <= i < |ps| ==> r[i] == ps[i].horse.name
  {
    seq(|ps|, i requires 0 <= i < |ps| => ps[i].horse.name)
  }

  /** The show tip for the recommendations: with at least three of them and a
      mean confidence (their sum over three) above 0.65, all of them, with
      the estimated show return `1.8 * min(2.5 * meanRate, 1)`. */
  function ShowTip(top: seq<Prediction>): (r: Option<Tip>)
    ensures r.Some? <==> |top| >= 3 && ConfidenceSum(top) / 3.0 > 0.65
    ensures r.Some? ==> r.value.kind == Show && r.value.targets == Names(top)
    ensures r.Some? ==> r.value.confidence > 0.65 && r.value.confidence * 3.0 == ConfidenceSum(top)
    ensures r.Some? && RateSum(top) >= 0.0 ==> 0.0 <= r.value.expectedValue <= 1.8
    ensures r.Some? && RateSum(top) >= 1.2 ==> r.value.expectedValue == 1.8
    ensures r.Some? && RateSum(top) < 1.2 ==> r.value.expectedValue == 1.5 * RateSum(top)
  {
    if |top| >= 3 && ConfidenceSum(top) / 3.0 > 0.65 then
      var showRate := MinR(RateSum(top) / 3.0 * 2.5, 1.0);
      Some(Tip(Show, Names(top), ConfidenceSum(top) / 3.0, 1.8 * showRate))
    else None
  }

  predicate DarkWorthy(p: Prediction) {
    ExpectedValue(p) > 1.5 && p.confidence > 0.5 && p.horse.odds > 5.0
  }

  /** `predictions.slice(1, 6)` */
  function Candidates(ps: seq<Prediction>): (r: seq<Prediction>)
    ensures |r| == if |ps| <= 1 then 0 else Min(6, |ps|) - 1
    ensures forall i :: 0 <= i < |r| ==> r[i] == ps[i + 1]
  {
    if |ps| <= 1 then [] else ps[1..Min(6, |ps|)]
  }

  /** `Array.prototype.find` for the dark-horse condition: the index of the first match. */
  function FindDark(cs: seq<Prediction>): (r: Option<nat>)
    ensures r.None? <==> forall i :: 0 <= i < |cs| ==> !DarkWorthy(cs[i])
    ensures r.Some? ==> r.value < |cs| && DarkWorthy(cs[r.value])
    ensures r.Some? ==> forall i :: 0 <= i < r.value ==> !DarkWorthy(cs[i])
    decreases |cs|
  {
    if cs == [] then None
    else if DarkWorthy(cs[0]) then Some(0)
    else
      var rest := FindDark(cs[1..]);
      assert forall i :: 1 <= i < |cs| ==> cs[i] == cs[1..][i - 1];
      if rest.None? then None else Some(rest.value + 1)
  }

  /** The dark horse: the best-ranked of ranks two to six whose expected value
      exceeds 1.5 with confidence above 0.5 at odds above 5. */
  function DarkHorseTip(ps: seq<Prediction>): (r: Option<Tip>)
    ensures r.None? <==> forall i :: 1 <= i < Min(6, |ps|) ==> !DarkWorthy(ps[i])
    ensures r.Some? ==> exists i :: (1 <= i < Min(6, |ps|) && DarkWorthy(ps[i])
      && r.value == Tip(DarkHorse, [ps[i].horse.name], ps[i].confidence, ExpectedValue(ps[i]))
      && forall j :: 1 <= j < i ==> !DarkWorthy(ps[j]))
  {
    var cs := Candidates(ps);
    match FindDark(cs)
    case None =>
      assert forall i :: 1 <= i < Min(6, |ps|) ==> ps[i] == cs[i - 1];
      None
    case Some(k) =>
      var p := cs[k];
      assert p == ps[k + 1];
      assert forall j :: 1 <= j < k + 1 ==> ps[j] == cs[j - 1];
      Some(Tip(DarkHorse, [p.horse.name], p.confidence, ExpectedValue(p)))
  }

  function OptionList<T>(o: Option<T>): (r: seq<T>)
    ensures |r| == 1 <==> o.Some?
    ensures |r| <= 1
    ensures o.Some? ==> r[0] == o.value
  {
    match o
    case None => []
    case Some(x) => [x]
  }

  /** The tips in the order win, show, dark horse. */
  function Tips(p: RacePrediction): (r: seq<Tip>)
    ensures |r| <= 3
    ensures forall t :: t in r <==>
      Some(t) == WinTip(p.topRecommendations) || Some(t) == ShowTip(p.topRecommendations)
      || Some(t) == DarkHorseTip(p.predictions)
  {
    var a := OptionList(WinTip(p.topRecommendations));
    var b := OptionList(ShowTip(p.topRecommendations));
    var c := OptionList(DarkHorseTip(p.predictions));
    var r := a + b + c;
    assert forall t :: t in r <==> t in a || t in b || t in c;
    r
  }

  /** At most one tip of each kind, so never both a win tip and a safety tip. */
  lemma TipsDistinctKinds(p: RacePrediction)
    ensures var s := Tips(p);
      forall i, j :: 0 <= i < j < |s| ==> s[i].kind != s[j].kind
  {
    var a := OptionList(WinTip(p.topRecommendations));
    var b := OptionList(ShowTip(p.topRecommendations));
    var c := OptionList(DarkHorseTip(p.predictions));
    assert a + b + c == Tips(p);
    KindsApart(a, b, c);
  }

  lemma KindsApart(a: seq<Tip>, b: seq<Tip>, c: seq<Tip>)
    requires |a| <= 1 && |b| <= 1 && |c| <= 1
    requires forall i :: 0 <= i < |a| ==> a[i].kind in {Win, SafeWin}
    requires forall i :: 0 <= i < |b| ==> b[i].kind == Show
    requires forall i :: 0 <= i < |c| ==> c[i].kind == DarkHorse
    ensures var s := a + b + c;
      forall i, j :: 0 <= i < j < |s| ==> s[i].kind != s[j].kind
  {
  }

  /** Every horse a tip names is the horse of one of the predictions. */
  lemma TipTargetsPredicted(p: RacePrediction, t: Tip, n: string)
    requires forall i :: 0 <= i < |p.topRecommendations| ==> p.topRecommendations[i] in p.predictions
    requires t in Tips(p) && n in t.targets
    ensures exists q :: q in p.predictions && q.horse.name == n
  {
    if Some(t) == WinTip(p.topRecommendations) {
      WinTipPredicted(p.topRecommendations, p.predictions, n);
    } else if Some(t) == ShowTip(p.topRecommendations) {
      ShowTipPredicted(p.topRecommendations, p.predictions, n);
    } else {
      DarkTipPredicted(p.predictions, n);
    }
  }

  lemma WinTipPredicted(top: seq<Prediction>, ps: seq<Prediction>, n: string)
    requires forall i :: 0 <= i < |top| ==> top[i] in ps
    requires WinTip(top).Some? && n in WinTip(top).value.targets
    ensures exists q :: q in ps && q.horse.name == n
  {
    assert top[0] in ps;
  }

  lemma ShowTipPredicted(top: seq<Prediction>, ps: seq<Prediction>, n: string)
    requires forall i :: 0 <= i < |top| ==> top[i] in ps
    requires ShowTip(top).Some? && n in ShowTip(top).value.targets
    ensures exists q :: q in ps && q.horse.name == n
  {
    var names := ShowTip(top).value.targets;
    var k :| 0 <= k < |names| && names[k] == n;
    assert top[k] in ps;
  }

  lemma DarkTipPredicted(ps: seq<Prediction>, n: string)
    requires DarkHorseTip(ps).Some? && n in DarkHorseTip(ps).value.targets
    ensures exists q :: q in ps && q.horse.name == n
  {
    var t := DarkHorseTip(ps).value;
    var k :| 1 <= k < Min(6, |ps|) && DarkWorthy(ps[k])
      && t == Tip(DarkHorse, [ps[k].horse.name], ps[k].confidence, ExpectedValue(ps[k]))
      && forall j :: 1 <= j < k ==> !DarkWorthy(ps[j]);
    assert ps[k] in ps;
  }

  datatype Advice = Advice(analysis: RacePrediction, strategies: seq<Tip>, risk: Risk)

  /** The strategy endpoint's decision rules over `predictRace`. Every horse a
      tip names runs in the race, and no two tips share a kind. */
  function Advise(races: seq<Race>, race: Race, custom: Option<Weights>): (r: Advice)
    requires WeightSum(ChosenWeights(custom)) != 0.0
    ensures r.analysis == PredictRace(races, race, custom)
    ensures r.strategies == Tips(r.analysis)
    ensures r.risk == RiskLevel(r.analysis.averageConfidence)
    ensures forall t, n :: t in r.strategies && n in t.targets ==> exists h :: h in race.horses && h.name == n
  {
    var p := PredictRace(races, race, custom);
    PredictRaceHorses(races, race, custom);
    forall t, n | t in Tips(p) && n in t.targets
      ensures exists h :: h in race.horses && h.name == n
    {
      TipTargetsPredicted(p, t, n);
      var q :| q in p.predictions && q.horse.name == n;
    }
    Advice(p, Tips(p), RiskLevel(p.averageConfidence))
  }
}

/** The race header half of the paste-text entry form
    (`client/src/components/RaceForm.tsx`): the distance choices per
    surface, `extractRaceInfo` over the pasted text's second and third
    lines, and the field editor that keeps the distance valid for the
    surface. */
module RaceInfoText {
  import opened Base
  import opened Text
  import opened Model

  const Courses: seq<string> := ["東京", "中山", "京都", "阪神", "新潟", "中京", "札幌", "函館", "福島", "小倉"]

  const TurfDistances: seq<string> := [
    "1000", "1200", "1400", "1500", "1600", "1800",
    "2000", "2200", "2300", "2400", "2500", "2600",
    "3000", "3200", "3400", "3600"]

  const DirtDistances: seq<string> := ["1000", "1150", "1200", "1400", "1600", "1700", "1800", "1900", "2100", "2400"]

  const Conditions: seq<string> := ["良", "稍重", "重", "不良"]

  const Levels: seq<string> := ["新馬", "未勝利", "500万下", "1000万下", "1600万下", "オープン", "G3", "G2", "G1"]

  const Dirt := "ダート"

  const Turf := "芝"

  /** `getDistanceOptions`: the dirt list for `'ダート'`, the turf list for
      any other surface, the empty one included. Every choice is a
      four-digit number of metres. */
  function DistanceOptions(surface: string): (r: seq<string>)
    ensures surface == Dirt ==> r == DirtDistances
    ensures surface != Dirt ==> r == TurfDistances
    ensures forall d :: d in r ==> |d| == 4 && AllDigits(d)
  {
    if surface == Dirt then DirtDistances else TurfDistances
  }

  /** Every turf distance is a whole hundred metres, so a dirt-only
      distance such as 1150 is dropped when the surface becomes turf. */
  lemma SurfaceSpecificDistances()
    ensures forall d :: d in DistanceOptions(Turf) ==> d[2] == '0' && d[3] == '0'
    ensures "1150" in DistanceOptions(Dirt) && "1150" !in DistanceOptions(Turf)
  {
    assert DirtDistances[1] == "1150";
    assert forall k :: 0 <= k < |TurfDistances| ==> TurfDistances[k][2] == '0' && TurfDistances[k][3] == '0';
  }

  /** The form's invariant: no distance, or one the surface offers. */
  predicate ValidDistance(info: RaceInfo) {
    info.distance == "" || info.distance in DistanceOptions(info.surface)
  }

  // ---------------------------------------------------------------- line 2

  datatype Track = Track(surface: string, distance: string)

  /** `/(芝|ダ)(\d+)m/` matching at position `i`. The digits are greedy and
      must be followed by `m`, so the match is the whole digit run. */
  function TrackAt(p: string, i: nat): (r: Option<Track>)
    ensures r.Some? ==> i < |p| && (p[i] == '芝' || p[i] == 'ダ')
    ensures r.Some? ==> r.value.surface == (if p[i] == 'ダ' then Dirt else Turf)
    ensures r.Some? ==> r.value.distance != [] && AllDigits(r.value.distance)
  {
    if i < |p| && (p[i] == '芝' || p[i] == 'ダ') then
      var n := DigitRun(p[i + 1..]);
      if n >= 1 && i + 1 + n < |p| && p[i + 1 + n] == 'm' then
        assert p[i + 1..i + 1 + n] == p[i + 1..][..n];
        Some(Track(if p[i] == 'ダ' then Dirt else Turf, p[i + 1..i + 1 + n]))
      else None
    else None
  }

  /** The first of `alternatives` that occurs at position `j`, as a regular
      expression alternation tries them. */
  function FirstAlternative(p: string, j: nat, alternatives: seq<string>): (r: Option<string>)
    ensures r.None? <==> forall k :: 0 <= k < |alternatives| ==> !OccursAt(p, alternatives[k], j)
    ensures r.Some? ==> exists k :: (0 <= k < |alternatives| && r.value == alternatives[k] && OccursAt(p, r.value, j)
      && forall m :: 0 <= m < k ==> !OccursAt(p, alternatives[m], j))
    decreases |alternatives|
  {
    if alternatives == [] then None
    else if j + |alternatives[0]| <= |p| && p[j..j + |alternatives[0]|] == alternatives[0] then Some(alternatives[0])
    else
      var r := FirstAlternative(p, j, alternatives[1..]);
      assert forall k :: 1 <= k < |alternatives| ==> alternatives[k] == alternatives[1..][k - 1];
      if r.Some? then
        var k :| 0 <= k < |alternatives[1..]| && r.value == alternatives[1..][k] && OccursAt(p, r.value, j)
          && forall m :: 0 <= m < k ==> !OccursAt(p, alternatives[1..][m], j);
        assert r.value == alternatives[k + 1];
        r
      else r
  }

  /** `/馬場:(良|稍重|重|不良)/` matching at position `i`. */
  function ConditionAt(p: string, i: nat): (r: Option<string>)
    ensures r.Some? ==> r.value in Conditions
  {
    if i + 3 <= |p| && p[i..i + 3] == "馬場:" then FirstAlternative(p, i + 3, Conditions) else None
  }

  /** `p.match(re)`: the leftmost position where `at` matches. */
  function Leftmost<T>(n: nat, from: nat, at: nat -> Option<T>): (r: Option<T>)
    ensures r.None? <==> forall i :: from <= i < n ==> at(i).None?
    ensures r.Some? ==> exists i :: from <= i < n && at(i) == r && forall j :: from <= j < i ==> at(j).None?
    decreases n - from
  {
    if from >= n then None
    else if at(from).Some? then at(from)
    else Leftmost(n, from + 1, at)
  }

  function PartTrack(part: string): Option<Track> {
    var p := Trim(part);
    Leftmost(|p|, 0, i => TrackAt(p, i))
  }

  function PartCondition(part: string): Option<string> {
    var p := Trim(part);
    Leftmost(|p|, 0, i => ConditionAt(p, i))
  }

  /** What one part of the second line yields. */
  datatype PartInfo = PartInfo(track: Option<Track>, condition: Option<string>)

  /** Both regular expressions applied to one trimmed part. */
  function Classify(part: string): (r: PartInfo)
    ensures Sound(r)
  {
    var p := Trim(part);
    var t := PartTrack(part);
    var c := PartCondition(part);
    if t.Some? then
      var i :| 0 <= i < |p| && TrackAt(p, i) == t;
      if c.Some? then
        var j :| 0 <= j < |p| && ConditionAt(p, j) == c;
        PartInfo(t, c)
      else PartInfo(t, c)
    else if c.Some? then
      var j :| 0 <= j < |p| && ConditionAt(p, j) == c;
      PartInfo(t, c)
    else PartInfo(t, c)
  }

  predicate Sound(x: PartInfo) {
    && (x.track.Some? ==> x.track.value.surface in {Turf, Dirt} && x.track.value.distance != "")
    && (x.condition.Some? ==> x.condition.value in Conditions)
  }

  /** A part that sets the condition: no surface and distance in it, a condition. */
  predicate SetsCondition(x: PartInfo) {
    x.track.None? && x.condition.Some?
  }

  datatype Line2 = Line2(surface: string, distance: string, condition: string)

  /** One pass of the loop over `lines[1].split('/')`: a part with a
      surface and distance sets both and skips the condition test;
      otherwise a part with a condition sets it. */
  function Step(prev: Line2, x: PartInfo): Line2 {
    match x.track
    case Some(t) => Line2(t.surface, t.distance, prev.condition)
    case None =>
      match x.condition
      case Some(c) => Line2(prev.surface, prev.distance, c)
      case None => prev
  }

  /** The loop, parts taken in order. */
  function Scan(xs: seq<PartInfo>): (r: Line2)
    ensures (forall k :: 0 <= k < |xs| ==> Sound(xs[k])) ==>
      && r.surface in {"", Turf, Dirt} && (r.surface == "" <==> r.distance == "")
      && (r.condition == "" || r.condition in Conditions)
    decreases |xs|
  {
    if xs == [] then Line2("", "", "")
    else
      var init := xs[..|xs| - 1];
      assert forall k :: 0 <= k < |init| ==> init[k] == xs[k];
      Step(Scan(init), xs[|xs| - 1])
  }

  function Classified(parts: seq<string>): (xs: seq<PartInfo>)
    ensures |xs| == |parts| && forall k :: 0 <= k < |xs| ==> xs[k] == Classify(parts[k]) && Sound(xs[k])
  {
    seq(|parts|, k requires 0 <= k < |parts| => Classify(parts[k]))
  }

  function ScanParts(parts: seq<string>): (r: Line2)
    ensures r.surface in {"", Turf, Dirt} && (r.surface == "" <==> r.distance == "")
    ensures r.condition == "" || r.condition in Conditions
  {
    Scan(Classified(parts))
  }

  /** Part `k` is the last one naming a surface and distance. */
  predicate LastTrack(xs: seq<PartInfo>, k: int) {
    0 <= k < |xs| && xs[k].track.Some? && forall j :: k < j < |xs| ==> xs[j].track.None?
  }

  /** Part `k` is the last one setting the condition. */
  predicate LastCondition(xs: seq<PartInfo>, k: int) {
    0 <= k < |xs| && SetsCondition(xs[k]) && forall j :: k < j < |xs| ==> !SetsCondition(xs[j])
  }

  /** The surface and distance come from the last part that names them, and
      stay `''` when no part does. */
  lemma {:induction false} LastTrackWins(xs: seq<PartInfo>)
    requires forall k :: 0 <= k < |xs| ==> Sound(xs[k])
    ensures Scan(xs).surface == "" <==> forall k :: 0 <= k < |xs| ==> xs[k].track.None?
    ensures forall k :: LastTrack(xs, k) ==> Scan(xs).surface == xs[k].track.value.surface && Scan(xs).distance == xs[k].track.value.distance
    decreases |xs|
  {
    if xs != [] {
      var init := xs[..|xs| - 1];
      var last := xs[|xs| - 1];
      assert forall k :: 0 <= k < |init| ==> init[k] == xs[k];
      LastTrackWins(init);
      if last.track.None? {
        forall k | LastTrack(xs, k)
          ensures LastTrack(init, k)
        {
        }
      }
    }
  }

  /** The condition comes from the last part that sets it, and stays `''`
      when no part does. */
  lemma {:induction false} LastConditionWins(xs: seq<PartInfo>)
    requires forall k :: 0 <= k < |xs| ==> Sound(xs[k])
    ensures Scan(xs).condition == "" <==> forall k :: 0 <= k < |xs| ==> !SetsCondition(xs[k])
    ensures forall k :: LastCondition(xs, k) ==> Scan(xs).condition == xs[k].condition.value
    decreases |xs|
  {
    if xs != [] {
      var init := xs[..|xs| - 1];
      var last := xs[|xs| - 1];
      assert forall k :: 0 <= k < |init| ==> init[k] == xs[k];
      LastConditionWins(init);
      if !SetsCondition(last) {
        forall k | LastCondition(xs, k)
          ensures LastCondition(init, k)
        {
        }
      }
    }
  }

  // ---------------------------------------------------------------- line 3

  /** The first entry of `options`, in list order, that the line contains,
      or `''`. */
  function FirstIncluded(line: string, options: seq<string>): (r: string)
    ensures (forall k :: 0 <= k < |options| ==> !Contains(line, options[k])) ==> r == ""
    ensures forall k :: 0 <= k < |options| && Contains(line, options[k]) && (forall j :: 0 <= j < k ==> !Contains(line, options[j])) ==>
      r == options[k]
    ensures r == "" || r in options
    decreases |options|
  {
    if options == [] then ""
    else if Includes(line, options[0]) then options[0]
    else
      assert forall k :: 1 <= k < |options| ==> options[k] == options[1..][k - 1];
      FirstIncluded(line, options[1..])
  }

  // ---------------------------------------------------------------- extraction

  /** `text.split('\n').map(l => l.trim())` */
  function TrimmedLines(text: string): (ls: seq<string>)
    ensures |ls| == |Split(text, '\n')| >= 1
    ensures forall i :: 0 <= i < |ls| ==> ls[i] == Trim(Split(text, '\n')[i])
  {
    var raw := Split(text, '\n');
    seq(|raw|, i requires 0 <= i < |raw| => Trim(raw[i]))
  }

  /** `extractRaceInfo`: course, distance, surface, condition and level are
      all replaced by what the text yields (`''` when it yields nothing), the
      date is kept, and an extracted distance the extracted surface does not
      offer is dropped. */
  function ExtractRaceInfo(text: string, prev: RaceInfo): (r: RaceInfo)
    ensures r.date == prev.date
    ensures ValidDistance(r)
    ensures r.surface in {"", Turf, Dirt} && (r.condition == "" || r.condition in Conditions)
    ensures (r.course == "" || r.course in Courses) && (r.level == "" || r.level in Levels)
    ensures r.distance != "" ==> r.surface != ""
    ensures |TrimmedLines(text)| <= 1 ==> r.surface == "" && r.distance == "" && r.condition == ""
    ensures |TrimmedLines(text)| <= 2 ==> r.course == "" && r.level == ""
    ensures |TrimmedLines(text)| > 1 ==> r.surface == ScanParts(Split(TrimmedLines(text)[1], '/')).surface
    ensures |TrimmedLines(text)| > 2 ==> r.course == FirstIncluded(TrimmedLines(text)[2], Courses)
  {
    var lines := TrimmedLines(text);
    var l2 := if |lines| > 1 then ScanParts(Split(lines[1], '/')) else Line2("", "", "");
    var course := if |lines| > 2 then FirstIncluded(lines[2], Courses) else "";
    var level := if |lines| > 2 then FirstIncluded(lines[2], Levels) else "";
    var info := RaceInfo(prev.date, course, l2.distance, l2.surface, l2.condition, level);
    if info.surface != "" && info.distance != "" && info.distance !in DistanceOptions(info.surface)
    then info.(distance := "")
    else info
  }

  // ---------------------------------------------------------------- editing

  datatype InfoKey = DateKey | CourseKey | DistanceKey | SurfaceKey | ConditionKey | LevelKey

  function FieldOf(info: RaceInfo, k: InfoKey): string {
    match k
    case DateKey => info.date
    case CourseKey => info.course
    case DistanceKey => info.distance
    case SurfaceKey => info.surface
    case ConditionKey => info.condition
    case LevelKey => info.level
  }

  /** `handleRaceChange`: set one field; a new surface also clears a
      distance that surface does not offer. */
  function HandleRaceChange(info: RaceInfo, k: InfoKey, value: string): (r: RaceInfo)
    ensures FieldOf(r, k) == value
    ensures k != DateKey ==> r.date == info.date
    ensures k != CourseKey ==> r.course == info.course
    ensures k != SurfaceKey ==> r.surface == info.surface
    ensures k != ConditionKey ==> r.condition == info.condition
    ensures k != LevelKey ==> r.level == info.level
    ensures k != SurfaceKey && k != DistanceKey ==> r.distance == info.distance
    ensures k == SurfaceKey ==> (r.distance == info.distance <==> info.distance in DistanceOptions(value) || info.distance == "")
    ensures k == SurfaceKey && r.distance != info.distance ==> r.distance == ""
  {
    match k
    case SurfaceKey =>
      info.(surface := value, distance := if info.distance in DistanceOptions(value) then info.distance else "")
    case DateKey => info.(date := value)
    case CourseKey => info.(course := value)
    case DistanceKey => info.(distance := value)
    case ConditionKey => info.(condition := value)
    case LevelKey => info.(level := value)
  }

  /** Every edit the form offers keeps the distance valid for the surface:
      a surface change checks it, and the distance selector lists only the
      surface's choices. */
  lemma ChangeKeepsValid(info: RaceInfo, k: InfoKey, value: string)
    requires ValidDistance(info)
    requires k == DistanceKey ==> value == "" || value in DistanceOptions(info.surface)
    ensures ValidDistance(HandleRaceChange(info, k, value))
  {
  }
}

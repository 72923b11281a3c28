/** The race filter shared by the server statistics endpoints
    (`calculatePopularityStats`, `calculateJockeyStats`) and the client's
    `filterRaces`: AND across the four keys, OR within one key's list. */
module RaceFilter {
  import opened Base
  import opened Text
  import opened Model

  /** A query parameter: absent, a scalar value, or an array of values. */
  datatype FilterValue = Absent | Single(value: string) | Many(values: seq<string>)

  datatype Filters = Filters(course: FilterValue, surface: FilterValue, distance: FilterValue, level: FilterValue)

  const NoFilters := Filters(Absent, Absent, Absent, Absent)

  /** The list a key is compared against: `Array.isArray(f) ? f : [f]` when
      `f` is truthy, and nothing at all when it is falsy (absent or `''`). */
  function Listed(f: FilterValue): seq<string> {
    match f
    case Absent => []
    case Single(s) => if s == "" then [] else [s]
    case Many(vs) => vs
  }

  /** `if (list.length > 0 && !list.includes(value)) return false` */
  predicate KeyRejects(f: FilterValue, value: string) {
    var vs := Listed(f);
    |vs| > 0 && value !in vs
  }

  /** The distance key parses every listed value with `parseInt` first;
      a value that does not parse (`NaN`) equals no distance. */
  function ParsedDistances(f: FilterValue): (ds: seq<Option<int>>)
    ensures |ds| == |Listed(f)|
    ensures forall i :: 0 <= i < |ds| ==> ds[i] == ParseInt(Listed(f)[i])
  {
    var vs := Listed(f);
    seq(|vs|, i requires 0 <= i < |vs| => ParseInt(vs[i]))
  }

  /** `levels.includes(race.level)`: the listed values are query strings,
      so an absent level is never listed. */
  predicate LevelRejects(f: FilterValue, level: Option<string>) {
    match level
    case Some(l) => KeyRejects(f, l)
    case None => |Listed(f)| > 0
  }

  predicate DistanceRejects(f: FilterValue, distance: int) {
    var ds := ParsedDistances(f);
    |ds| > 0 && Some(distance) !in ds
  }

  /** The body of the `races.filter(race => ...)` callback. */
  predicate Passes(f: Filters, r: Race) {
    && !KeyRejects(f.course, r.course)
    && !KeyRejects(f.surface, r.surface)
    && !DistanceRejects(f.distance, r.distance)
    && !LevelRejects(f.level, r.level)
  }

  /** `races.filter(...)`: the passing races, in their stored order. */
  function FilterRaces(races: seq<Race>, f: Filters): (r: seq<Race>)
    ensures |r| <= |races|
    ensures forall x :: x in r <==> x in races && Passes(f, x)
    ensures (forall i :: 0 <= i < |races| ==> Passes(f, races[i])) ==> r == races
    decreases |races|
  {
    if races == [] then []
    else
      var init := FilterRaces(races[..|races| - 1], f);
      var last := races[|races| - 1];
      assert races == races[..|races| - 1] + [last];
      if Passes(f, last) then init + [last] else init
  }

  /** A key constrains a value when its list is non-empty; the value must
      then be one of the listed values. */
  ghost predicate KeyAllows(f: FilterValue, value: string) {
    Listed(f) == [] || exists i :: 0 <= i < |Listed(f)| && Listed(f)[i] == value
  }

  /** An absent level satisfies only a key that constrains nothing. */
  ghost predicate LevelAllows(f: FilterValue, level: Option<string>) {
    Listed(f) == [] || (level.Some? && exists i :: 0 <= i < |Listed(f)| && Listed(f)[i] == level.value)
  }

  ghost predicate DistanceAllows(f: FilterValue, distance: int) {
    Listed(f) == [] || exists i :: 0 <= i < |Listed(f)| && ParseInt(Listed(f)[i]) == Some(distance)
  }

  /** The filter semantics in declarative form: a race passes iff every
      present, non-empty key lists its value (distances compared after
      `parseInt`). */
  lemma PassesIff(f: Filters, r: Race)
    ensures Passes(f, r) <==>
      KeyAllows(f.course, r.course) && KeyAllows(f.surface, r.surface)
      && DistanceAllows(f.distance, r.distance) && LevelAllows(f.level, r.level)
  {
    DistanceRejectsIff(f.distance, r.distance);
    KeyRejectsIff(f.course, r.course);
    KeyRejectsIff(f.surface, r.surface);
    LevelRejectsIff(f.level, r.level);
  }

  lemma KeyRejectsIff(f: FilterValue, value: string)
    ensures !KeyRejects(f, value) <==> KeyAllows(f, value)
  {
    if value in Listed(f) {
      var i :| 0 <= i < |Listed(f)| && Listed(f)[i] == value;
    }
  }

  lemma LevelRejectsIff(f: FilterValue, level: Option<string>)
    ensures !LevelRejects(f, level) <==> LevelAllows(f, level)
  {
    if level.Some? {
      KeyRejectsIff(f, level.value);
    }
  }

  lemma DistanceRejectsIff(f: FilterValue, distance: int)
    ensures !DistanceRejects(f, distance) <==> DistanceAllows(f, distance)
  {
    var ds := ParsedDistances(f);
    if Some(distance) in ds {
      var i :| 0 <= i < |ds| && ds[i] == Some(distance);
      assert ParseInt(Listed(f)[i]) == Some(distance);
    }
    if DistanceAllows(f, distance) && Listed(f) != [] {
      var i :| 0 <= i < |Listed(f)| && ParseInt(Listed(f)[i]) == Some(distance);
      assert ds[i] == Some(distance);
    }
  }

  /** A scalar value acts as the one-element list holding it, and an empty
      scalar or an empty list constrains nothing. */
  lemma ScalarIsSingleton(s: string, v: string)
    ensures s != "" ==> (KeyRejects(Single(s), v) <==> KeyRejects(Many([s]), v))
    ensures !KeyRejects(Single(""), v) && !KeyRejects(Many([]), v) && !KeyRejects(Absent, v)
  {
  }

  /** With no filter every race passes, so the statistics see the whole list. */
  lemma NoFiltersKeepAll(races: seq<Race>)
    ensures FilterRaces(races, NoFilters) == races
  {
  }

  /** A distance written out as a string (as the filter dropdown sends it)
      selects exactly the races run at that distance. */
  lemma DistanceStringSelects(d: nat, r: Race)
    ensures DistanceRejects(Many([NatToString(d)]), r.distance) <==> r.distance != d
  {
    ParseIntNatToString(d);
    assert ParsedDistances(Many([NatToString(d)])) == [Some(d)];
  }

  /** AND across keys: a filter passes a race iff each of its single-key
      parts does. */
  lemma AndAcrossKeys(f: Filters, r: Race)
    ensures Passes(f, r) <==>
      Passes(NoFilters.(course := f.course), r) && Passes(NoFilters.(surface := f.surface), r)
      && Passes(NoFilters.(distance := f.distance), r) && Passes(NoFilters.(level := f.level), r)
  {
  }
}

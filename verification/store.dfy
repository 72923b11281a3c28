/** The operations on the stored race list: `updateResult`, `deleteRace`
    and the JSON import merge (present both in `localStorageApi.ts` and in
    the server's import route). The list is passed in and returned; the
    storage it comes from is not modelled. */
module Store {
  import opened Base
  import opened Model

  /** `races.findIndex(race => race.id === id)`, `-1` being `None`. */
  function FindIndex(races: seq<Race>, id: string): (r: Option<nat>)
    ensures r.None? <==> forall j :: 0 <= j < |races| ==> races[j].id != id
    ensures r.Some? ==> r.value < |races| && races[r.value].id == id
    ensures r.Some? ==> forall j :: 0 <= j < r.value ==> races[j].id != id
    decreases |races|
  {
    if races == [] then None
    else if races[0].id == id then Some(0)
    else
      match FindIndex(races[1..], id)
      case None => None
      case Some(i) => Some(i + 1)
  }

  /** `updateResult`: an unknown id is an error; otherwise only the `result`
      of the first race carrying the id is replaced. */
  function UpdateResult(races: seq<Race>, id: string, result: Option<RaceResult>): (r: Result<seq<Race>>)
    ensures r.Err? <==> forall j :: 0 <= j < |races| ==> races[j].id != id
    ensures r.Ok? ==> |r.value| == |races|
    ensures r.Ok? ==> exists i :: (
      && 0 <= i < |races| && races[i].id == id
      && (forall j :: 0 <= j < i ==> races[j].id != id)
      && r.value[i] == races[i].(result := result)
      && (forall j :: 0 <= j < |races| && j != i ==> r.value[j] == races[j]))
  {
    match FindIndex(races, id)
    case None => Err("race not found")
    case Some(i) => Ok(races[i := races[i].(result := result)])
  }

  /** Updating keeps every id in place, so a second update of the same race
      simply overrides the first. */
  lemma UpdateTwice(races: seq<Race>, id: string, a: Option<RaceResult>, b: Option<RaceResult>)
    requires UpdateResult(races, id, a).Ok?
    ensures UpdateResult(UpdateResult(races, id, a).value, id, b) == UpdateResult(races, id, b)
  {
    var i := FindIndex(races, id).value;
    var once := races[i := races[i].(result := a)];
    assert UpdateResult(races, id, a).value == once;
    FindIndexSameIds(races, once, id);
    assert once[i := once[i].(result := b)] == races[i := races[i].(result := b)];
  }

  lemma {:induction false} FindIndexSameIds(a: seq<Race>, b: seq<Race>, id: string)
    requires |a| == |b| && forall j :: 0 <= j < |a| ==> a[j].id == b[j].id
    ensures FindIndex(a, id) == FindIndex(b, id)
    decreases |a|
  {
    if a != [] && a[0].id != id {
      FindIndexSameIds(a[1..], b[1..], id);
    }
  }

  /** `races.filter(race => race.id !== id)` */
  function WithoutId(races: seq<Race>, id: string): (r: seq<Race>)
    ensures |r| <= |races|
    ensures forall x :: x in r <==> x in races && x.id != id
    ensures |r| == |races| <==> forall j :: 0 <= j < |races| ==> races[j].id != id
    decreases |races|
  {
    if races == [] then []
    else
      var rest := WithoutId(races[1..], id);
      assert races == [races[0]] + races[1..];
      if races[0].id == id then rest else [races[0]] + rest
  }

  /** `deleteRace`: every race with the id goes, the rest keep their order;
      an error when nothing was removed. */
  function DeleteRace(races: seq<Race>, id: string): (r: Result<seq<Race>>)
    ensures r.Err? <==> forall j :: 0 <= j < |races| ==> races[j].id != id
    ensures r.Ok? ==> r.value == WithoutId(races, id) && |r.value| < |races|
  {
    var kept := WithoutId(races, id);
    if |kept| == |races| then Err("race to delete not found") else Ok(kept)
  }

  /** The number of races carrying an id. */
  function CountId(races: seq<Race>, id: string): nat
    decreases |races|
  {
    if races == [] then 0 else (if races[0].id == id then 1 else 0) + CountId(races[1..], id)
  }

  /** Deleting removes exactly the races carrying the id, the others staying
      in the order they had. */
  lemma {:induction false} DeleteCounts(races: seq<Race>, id: string)
    ensures |WithoutId(races, id)| == |races| - CountId(races, id)
    ensures WithoutId(races, id) == WithoutId(WithoutId(races, id), id)
    decreases |races|
  {
    if races != [] {
      DeleteCounts(races[1..], id);
      var rest := WithoutId(races[1..], id);
      if races[0].id != id {
        assert ([races[0]] + rest)[1..] == rest;
      }
    }
  }

  /** Deleting a race that was just updated leaves the same list as deleting
      it without the update. */
  lemma DeleteAfterUpdate(races: seq<Race>, id: string, res: Option<RaceResult>)
    requires UpdateResult(races, id, res).Ok?
    ensures DeleteRace(UpdateResult(races, id, res).value, id) == DeleteRace(races, id)
  {
    var once := UpdateResult(races, id, res).value;
    var i := FindIndex(races, id).value;
    WithoutIdIgnoresUpdate(races, i, res, id);
  }

  lemma {:induction false} WithoutIdIgnoresUpdate(races: seq<Race>, i: nat, res: Option<RaceResult>, id: string)
    requires i < |races| && races[i].id == id
    ensures WithoutId(races[i := races[i].(result := res)], id) == WithoutId(races, id)
    decreases |races|
  {
    if i > 0 {
      var u := races[i := races[i].(result := res)];
      assert u[1..] == races[1..][i - 1 := races[i].(result := res)];
      WithoutIdIgnoresUpdate(races[1..], i - 1, res, id);
    }
  }

  // ---------------------------------------------------------------- import

  /** The id given to an imported race that has none. The source draws it
      from the clock and a random number; here it is any non-empty string no
      race in the list carries — one longer than every existing id. */
  function FreshId(races: seq<Race>): (id: string)
    ensures id != ""
    ensures forall j :: 0 <= j < |races| ==> races[j].id != id
  {
    var n := MaxIdLength(races);
    seq(n + 1, _ => 'x')
  }

  function MaxIdLength(races: seq<Race>): (n: nat)
    ensures forall j :: 0 <= j < |races| ==> |races[j].id| <= n
    decreases |races|
  {
    if races == [] then 0
    else
      var m := MaxIdLength(races[1..]);
      assert forall j :: 1 <= j < |races| ==> races[j] == races[1..][j - 1];
      if |races[0].id| > m then |races[0].id| else m
  }

  ghost predicate HasId(races: seq<Race>, id: string) {
    exists j :: 0 <= j < |races| && races[j].id == id
  }

  ghost predicate DistinctIds(races: seq<Race>) {
    forall i, j :: 0 <= i < j < |races| ==> races[i].id != races[j].id
  }

  /** `existingRaces.find(race => race.id === newRace.id)` */
  function IdTaken(races: seq<Race>, id: string): (b: bool)
    ensures b <==> HasId(races, id)
  {
    FindIndex(races, id).Some?
  }

  datatype Merged = Merged(races: seq<Race>, imported: nat, skipped: nat)

  /** One iteration of the `forEach`: a race whose id is already in the
      growing list is skipped; otherwise it is appended, given a fresh id
      first if it has none. */
  function MergeOne(m: Merged, nr: Race): Merged {
    if IdTaken(m.races, nr.id) then m.(skipped := m.skipped + 1)
    else
      var added := if nr.id == "" then nr.(id := FreshId(m.races)) else nr;
      Merged(m.races + [added], m.imported + 1, m.skipped)
  }

  /** The loop over the imported `data`, starting from the stored races. */
  function MergeAll(existing: seq<Race>, data: seq<Race>): (m: Merged)
    ensures m.imported + m.skipped == |data|
    ensures |m.races| == |existing| + m.imported
    ensures m.races[..|existing|] == existing
    ensures forall j :: |existing| <= j < |m.races| ==> m.races[j].id != ""
    decreases |data|
  {
    if data == [] then Merged(existing, 0, 0)
    else
      var m := MergeAll(existing, data[..|data| - 1]);
      var r := MergeOne(m, data[|data| - 1]);
      assert r.races[..|m.races|] == m.races;
      r
  }

  /** What the import payload is: `data` either is an array of races or is not. */
  datatype Payload = RaceArray(data: seq<Race>) | NotAnArray

  datatype ImportReport = ImportReport(races: seq<Race>, imported: nat, skipped: nat, total: nat)

  /** `importData`: reject a payload without an array, else merge and report
      the counts. */
  function ImportData(existing: seq<Race>, p: Payload): (r: Result<ImportReport>)
    ensures r.Err? <==> p.NotAnArray?
    ensures r.Ok? ==> r.value.total == |p.data|
    ensures r.Ok? ==> r.value.imported + r.value.skipped == r.value.total
    ensures r.Ok? ==> |r.value.races| == |existing| + r.value.imported
    ensures r.Ok? ==> r.value.races[..|existing|] == existing
  {
    match p
    case NotAnArray => Err("import data is not in the expected format")
    case RaceArray(data) =>
      var m := MergeAll(existing, data);
      Ok(ImportReport(m.races, m.imported, m.skipped, |data|))
  }

  /** Importing never introduces a duplicate id: if the stored ids are
      distinct, they stay distinct, including across races of the same batch. */
  lemma {:induction false} MergeKeepsIdsDistinct(existing: seq<Race>, data: seq<Race>)
    requires DistinctIds(existing)
    ensures DistinctIds(MergeAll(existing, data).races)
    decreases |data|
  {
    if data != [] {
      var init := data[..|data| - 1];
      MergeKeepsIdsDistinct(existing, init);
      var m := MergeAll(existing, init);
      var nr := data[|data| - 1];
      if !IdTaken(m.races, nr.id) {
        var added := if nr.id == "" then nr.(id := FreshId(m.races)) else nr;
        assert forall j :: 0 <= j < |m.races| ==> m.races[j].id != added.id;
        var out := m.races + [added];
        forall i, j | 0 <= i < j < |out|
          ensures out[i].id != out[j].id
        {
          if j == |m.races| {
            assert out[i] == m.races[i];
          } else {
            assert out[i] == m.races[i] && out[j] == m.races[j];
          }
        }
      }
    }
  }

  /** A race is skipped exactly when its id is already in the list built so
      far; one that is taken in keeps all its fields but, when it had none,
      its id. */
  lemma MergeOneOutcome(m: Merged, nr: Race)
    ensures var r := MergeOne(m, nr);
      && (r.skipped == m.skipped + 1 <==> HasId(m.races, nr.id))
      && (!HasId(m.races, nr.id) ==>
            r.races == m.races + [r.races[|m.races|]]
            && r.races[|m.races|].(id := nr.id) == nr
            && (nr.id != "" ==> r.races[|m.races|] == nr))
  {
  }

  /** A second import of the same batch adds nothing: every race of it now
      has its id in the list, or got a fresh one while its copy in the batch
      still has none. */
  lemma ReimportSkipsIdentified(existing: seq<Race>, data: seq<Race>)
    requires forall j :: 0 <= j < |data| ==> data[j].id != ""
    ensures var once := MergeAll(existing, data).races;
      MergeAll(once, data).imported == 0 && MergeAll(once, data).races == once
  {
    var once := MergeAll(existing, data).races;
    MergeContainsIds(existing, data);
    ReimportLoop(once, data, |data|);
    assert data[..|data|] == data;
  }

  lemma {:induction false} MergeContainsIds(existing: seq<Race>, data: seq<Race>)
    ensures forall j :: 0 <= j < |data| && data[j].id != "" ==> HasId(MergeAll(existing, data).races, data[j].id)
    decreases |data|
  {
    if data != [] {
      var init := data[..|data| - 1];
      MergeContainsIds(existing, init);
      var m := MergeAll(existing, init);
      var out := MergeAll(existing, data).races;
      assert out[..|m.races|] == m.races;
      forall j | 0 <= j < |data| && data[j].id != ""
        ensures HasId(out, data[j].id)
      {
        if j < |init| {
          assert data[j] == init[j];
          var k :| 0 <= k < |m.races| && m.races[k].id == data[j].id;
          assert out[k] == m.races[k];
        } else if IdTaken(m.races, data[j].id) {
          var k :| 0 <= k < |m.races| && m.races[k].id == data[j].id;
          assert out[k] == m.races[k];
        } else {
          assert out[|m.races|] == data[j];
        }
      }
    }
  }

  lemma {:induction false} ReimportLoop(races: seq<Race>, data: seq<Race>, n: nat)
    requires n <= |data|
    requires forall j :: 0 <= j < |data| ==> data[j].id != "" && HasId(races, data[j].id)
    ensures MergeAll(races, data[..n]).imported == 0 && MergeAll(races, data[..n]).races == races
    decreases n
  {
    if n > 0 {
      ReimportLoop(races, data, n - 1);
      assert data[..n][..n - 1] == data[..n - 1];
      assert data[..n][n - 1] == data[n - 1];
    }
  }
}

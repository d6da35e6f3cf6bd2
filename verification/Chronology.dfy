/** The feature chronology: fixtures bucketed by local date and released as batches of equal availability. */
module Chronology {
  import opened Wrappers
  import opened Calendar
  import opened Collections
  import opened Batching
  import opened Fixtures

  type FixtureBatch = Batch<Fixture>

  datatype ChronologyError = RepeatedFixture(id: FixtureId) | UnsupportedCompetition(name: string)

  function FixtureTimeline(zone: Zone): Timeline<Fixture> {
    Timeline(zone, (f: Fixture) => f.KickoffSlot())
  }

  function Ids(fixtures: seq<Fixture>): set<FixtureId> {
    set f | f in fixtures :: f.id
  }

  /** The complaint raised on reaching a fixture, given the identifiers already accepted. */
  function FaultGiven(seen: set<FixtureId>, fixture: Fixture): Option<ChronologyError> {
    if fixture.id in seen then Some(RepeatedFixture(fixture.id))
    else if fixture.competition != PREMIER_LEAGUE then Some(UnsupportedCompetition(fixture.competition))
    else None
  }

  function FaultAt(fixtures: seq<Fixture>, i: nat): Option<ChronologyError>
    requires i < |fixtures|
  {
    FaultGiven(Ids(fixtures[..i]), fixtures[i])
  }

  /** The first complaint about a list of fixtures. */
  function ChronologyFault(fixtures: seq<Fixture>): Option<ChronologyError> {
    if fixtures == [] then None else
      var earlier := ChronologyFault(fixtures[..|fixtures| - 1]);
      if earlier.Some? then earlier else FaultAt(fixtures, |fixtures| - 1)
  }

  /** A prefix complains of its fixtures as the whole list does. */
  lemma FaultInPrefix(fixtures: seq<Fixture>, n: nat, i: nat)
    requires i < n <= |fixtures|
    ensures FaultAt(fixtures[..n], i) == FaultAt(fixtures, i)
  {
    assert fixtures[..n][..i] == fixtures[..i] && fixtures[..n][i] == fixtures[i];
  }

  /** What the next fixture adds to the complaints about a prefix. */
  lemma NextFault(fixtures: seq<Fixture>, i: nat)
    requires i < |fixtures| && ChronologyFault(fixtures[..i]).None?
    ensures ChronologyFault(fixtures[..i + 1]) == FaultAt(fixtures, i)
  {
    FaultInPrefix(fixtures, i + 1, i);
    assert fixtures[..i + 1][..i] == fixtures[..i];
  }

  lemma FaultStaysOne(fixtures: seq<Fixture>, m: nat)
    requires m < |fixtures| && ChronologyFault(fixtures[..m]).Some?
    ensures ChronologyFault(fixtures[..m + 1]) == ChronologyFault(fixtures[..m])
  {
    assert fixtures[..m + 1][..m] == fixtures[..m];
  }

  lemma FaultStays(fixtures: seq<Fixture>, n: nat)
    requires n <= |fixtures| && ChronologyFault(fixtures[..n]).Some?
    ensures ChronologyFault(fixtures) == ChronologyFault(fixtures[..n])
  {
    forall m | n <= m < |fixtures| && ChronologyFault(fixtures[..m]).Some?
      ensures ChronologyFault(fixtures[..m + 1]) == ChronologyFault(fixtures[..m])
    {
      FaultStaysOne(fixtures, m);
    }
    StaysSettled((s: seq<Fixture>) => ChronologyFault(s), (r: Option<ChronologyError>) => r.Some?, fixtures, n);
  }

  ghost predicate Faultless(fixtures: seq<Fixture>) {
    forall i :: 0 <= i < |fixtures| ==> FaultAt(fixtures, i).None?
  }

  /** There is no complaint exactly when no fixture gives one. */
  lemma NoFaultAnywhere(fixtures: seq<Fixture>)
    ensures ChronologyFault(fixtures).None? <==> Orderable(fixtures)
  {
    NoFaultIsFaultless(fixtures);
    OrderableHasNoFault(fixtures);
  }

  lemma {:induction false} NoFaultIsFaultless(fixtures: seq<Fixture>)
    ensures ChronologyFault(fixtures).None? <==> Faultless(fixtures)
    decreases |fixtures|
  {
    if fixtures != [] {
      var n := |fixtures| - 1;
      NoFaultIsFaultless(fixtures[..n]);
      FaultlessInit(fixtures);
    }
  }

  lemma FaultlessInit(fixtures: seq<Fixture>)
    requires fixtures != []
    ensures Faultless(fixtures) <==> Faultless(fixtures[..|fixtures| - 1]) && FaultAt(fixtures, |fixtures| - 1).None?
  {
    var n := |fixtures| - 1;
    forall i | 0 <= i < n
      ensures FaultAt(fixtures[..n], i) == FaultAt(fixtures, i)
    {
      FaultInPrefix(fixtures, n, i);
    }
  }

  ghost predicate Orderable(fixtures: seq<Fixture>) {
    && DistinctKeys((f: Fixture) => f.id, fixtures)
    && forall f :: f in fixtures ==> f.competition == PREMIER_LEAGUE
  }

  lemma OrderableHasNoFault(fixtures: seq<Fixture>)
    ensures Orderable(fixtures) <==> Faultless(fixtures)
  {
    if Orderable(fixtures) {
      forall i | 0 <= i < |fixtures|
        ensures FaultAt(fixtures, i).None?
      {
        SeenEarlier(fixtures, i);
      }
    }
    if Faultless(fixtures) {
      forall i, j | 0 <= i < j < |fixtures|
        ensures fixtures[i].id != fixtures[j].id
      {
        assert FaultAt(fixtures, j).None?;
        SeenEarlier(fixtures, j);
      }
      forall f | f in fixtures
        ensures f.competition == PREMIER_LEAGUE
      {
        var i :| 0 <= i < |fixtures| && fixtures[i] == f;
        assert FaultAt(fixtures, i).None?;
      }
    }
  }

  lemma SeenEarlier(fixtures: seq<Fixture>, i: nat)
    requires i < |fixtures|
    ensures fixtures[i].id in Ids(fixtures[..i]) <==> exists j :: 0 <= j < i && fixtures[j].id == fixtures[i].id
  {
    var early := fixtures[..i];
    if fixtures[i].id in Ids(early) {
      var f :| f in early && f.id == fixtures[i].id;
      var j :| 0 <= j < i && early[j] == f;
      assert fixtures[j].id == fixtures[i].id;
    }
    if j :| 0 <= j < i && fixtures[j].id == fixtures[i].id {
      assert early[j] in early;
    }
  }

  lemma OneMoreId(fixtures: seq<Fixture>, i: nat)
    requires i < |fixtures|
    ensures fixtures[..i + 1] == fixtures[..i] + [fixtures[i]]
    ensures Ids(fixtures[..i + 1]) == Ids(fixtures[..i]) + {fixtures[i].id}
  {
  }

  /** Groups the fixtures by local date, rejecting the first repeated or unsupported fixture. */
  method BucketByDate(fixtures: seq<Fixture>, zone: Zone)
    returns (r: Result<map<int, seq<Fixture>>, ChronologyError>)
    ensures r.Success? <==> Orderable(fixtures)
    ensures r.Success? ==> Bucketed(r.value, FixtureTimeline(zone).Dating(), fixtures)
    ensures r.Failure? ==> ChronologyFault(fixtures) == Some(r.error)
  {
    var seen: set<FixtureId> := {};
    var byDate: map<int, seq<Fixture>> := map[];
    ghost var date := FixtureTimeline(zone).Dating();
    NoFaultAnywhere(fixtures);
    assert fixtures[..0] == [];
    for i := 0 to |fixtures|
      invariant seen == Ids(fixtures[..i]) && ChronologyFault(fixtures[..i]).None?
      invariant Bucketed(byDate, date, fixtures[..i])
    {
      var fixture := fixtures[i];
      NextFault(fixtures, i);
      OneMoreId(fixtures, i);
      var fault := FaultGiven(seen, fixture);
      if fault.Some? {
        FaultStays(fixtures, i + 1);
        return Failure(fault.value);
      }
      seen := seen + {fixture.id};
      AddKeepsBuckets(byDate, date, fixtures[..i], fixture);
      byDate := AddToBucket(byDate, zone.dateOf(fixture.kickoff), fixture);
    }
    assert fixtures[..|fixtures|] == fixtures;
    return Success(byDate);
  }

  /** Buckets the fixtures, then releases date after date; a fixture that cannot be placed stops everything. */
  method ChronologicalFixtureBatches(fixtures: seq<Fixture>, zone: Zone)
    returns (r: Result<seq<FixtureBatch>, ChronologyError>)
    ensures r.Success? <==> Orderable(fixtures)
    ensures r.Success? ==> r.value == FixtureTimeline(zone).Batches(Elements(fixtures))
    ensures r.Failure? ==> ChronologyFault(fixtures) == Some(r.error)
  {
    var byDate :- BucketByDate(fixtures, zone);
    var batches := CollectBatches(FixtureTimeline(zone), fixtures, byDate);
    return Success(batches);
  }

  /** Reordering the input changes neither its acceptance nor its batches. */
  lemma OrderFree(a: seq<Fixture>, b: seq<Fixture>, zone: Zone)
    requires multiset(a) == multiset(b) && Orderable(a)
    ensures Orderable(b)
    ensures FixtureTimeline(zone).Batches(Elements(b)) == FixtureTimeline(zone).Batches(Elements(a))
  {
    var id := (f: Fixture) => f.id;
    SameElements(a, b);
    forall i, j | 0 <= i < j < |b|
      ensures id(b[i]) != id(b[j])
    {
      SharedKeyRepeats(id, a, b, i, j);
    }
    forall f | f in b
      ensures f.competition == PREMIER_LEAGUE
    {
      assert f in Elements(b);
      assert f in a;
    }
  }

  /** The batches list every accepted fixture exactly once. */
  lemma BatchesPermute(fixtures: seq<Fixture>, zone: Zone)
    requires Orderable(fixtures)
    ensures multiset(Timeline.Flatten(FixtureTimeline(zone).Batches(Elements(fixtures)))) == multiset(fixtures)
  {
    var id := (f: Fixture) => f.id;
    var tl := FixtureTimeline(zone);
    var S := Elements(fixtures);
    assert forall i :: 0 <= i < |fixtures| ==> tl.Id()(fixtures[i]) == id(fixtures[i]);
    DistinctKeysInject(tl.Id(), fixtures);
    tl.BatchesPartition(S);
    DistinctKeysSize(id, fixtures);
    SizedMultiset(fixtures);
    SizedMultiset(Timeline.Flatten(tl.Batches(S)));
  }
}

/** Canonical simulation input: simultaneous batches of remaining fixtures and the one accepted order. */
module Simulation {
  import opened Wrappers
  import opened Calendar
  import opened Collections
  import opened Batching
  import opened Fixtures
  import opened Chronology

  /** A remaining fixture; its score distribution plays no part in ordering. */
  datatype SimulationFixture = SimulationFixture(
    id: FixtureId, season: string, kickoff: int, precision: KickoffPrecision, home: TeamId, away: TeamId)
  {
    function KickoffSlot(): Slot {
      Slot(id, kickoff, precision.DateOnly?)
    }
  }

  function SimulationTimeline(zone: Zone): Timeline<SimulationFixture> {
    Timeline(zone, (f: SimulationFixture) => f.KickoffSlot())
  }

  datatype SimulationBatch = SimulationBatch(fixtures: seq<SimulationFixture>, dateOnly: bool) {
    /** The batch validator: unique ordered ids, one season, and one date or one kickoff. */
    ghost predicate Valid(zone: Zone) {
      && fixtures != []
      && (forall i, j :: 0 <= i < j < |fixtures| ==> fixtures[i].id < fixtures[j].id)
      && OneSeason()
      && if dateOnly then
           && (exists f :: f in fixtures && f.precision.DateOnly?)
           && (forall f, g :: f in fixtures && g in fixtures ==> zone.dateOf(f.kickoff) == zone.dateOf(g.kickoff))
         else
           && (forall f :: f in fixtures ==> f.precision.Exact?)
           && (forall f, g :: f in fixtures && g in fixtures ==> f.kickoff == g.kickoff)
    }

    predicate OneSeason() {
      forall i :: 0 <= i < |fixtures| ==> fixtures[i].season == fixtures[0].season
    }
  }

  datatype SimulationError = RepeatedRemaining | MixedSeasons

  function WithoutCutoff(b: Batch<SimulationFixture>): SimulationBatch {
    SimulationBatch(b.members, b.dateOnly)
  }

  /** The batches of a set of remaining fixtures. */
  ghost function Groups(zone: Zone, S: set<SimulationFixture>): seq<SimulationBatch> {
    var bs := SimulationTimeline(zone).Batches(S);
    seq(|bs|, i requires 0 <= i < |bs| => WithoutCutoff(bs[i]))
  }

  ghost predicate SeasonsAgree(bs: seq<SimulationBatch>) {
    forall i :: 0 <= i < |bs| ==> bs[i].OneSeason()
  }

  // ---------------------------------------------------------------- the grouping

  method BucketFixtures(fixtures: seq<SimulationFixture>, zone: Zone) returns (byDate: map<int, seq<SimulationFixture>>)
    ensures Bucketed(byDate, SimulationTimeline(zone).Dating(), fixtures)
  {
    byDate := map[];
    ghost var date := SimulationTimeline(zone).Dating();
    for i := 0 to |fixtures|
      invariant Bucketed(byDate, date, fixtures[..i])
    {
      AddKeepsBuckets(byDate, date, fixtures[..i], fixtures[i]);
      byDate := AddToBucket(byDate, zone.dateOf(fixtures[i].kickoff), fixtures[i]);
      assert fixtures[..i + 1] == fixtures[..i] + [fixtures[i]];
    }
    assert fixtures[..|fixtures|] == fixtures;
  }

  function RemainingIds(fixtures: seq<SimulationFixture>): seq<FixtureId> {
    seq(|fixtures|, i requires 0 <= i < |fixtures| => fixtures[i].id)
  }

  predicate DistinctIds(fixtures: seq<SimulationFixture>) {
    Unique(RemainingIds(fixtures))
  }

  lemma DistinctIdsInject(zone: Zone, fixtures: seq<SimulationFixture>)
    requires DistinctIds(fixtures)
    ensures DistinctKeys(SimulationTimeline(zone).Id(), fixtures)
    ensures Injective(SimulationTimeline(zone).Id(), Elements(fixtures))
  {
    var ids, key := RemainingIds(fixtures), SimulationTimeline(zone).Id();
    forall i, j | 0 <= i < j < |fixtures|
      ensures key(fixtures[i]) != key(fixtures[j])
    {
      assert ids[i] != ids[j];
    }
    DistinctKeysInject(key, fixtures);
  }

  /** Applies the conservative simultaneous-batch rule to remaining fixtures. */
  method SimulationFixtureBatches(fixtures: seq<SimulationFixture>, zone: Zone)
    returns (r: Result<seq<SimulationBatch>, SimulationError>)
    ensures r.Success? <==> DistinctIds(fixtures) && SeasonsAgree(Groups(zone, Elements(fixtures)))
    ensures r.Success? ==> r.value == Groups(zone, Elements(fixtures))
    ensures r.Failure? ==> r.error == if DistinctIds(fixtures) then MixedSeasons else RepeatedRemaining
  {
    var ids := RemainingIds(fixtures);
    UniqueCount(ids);
    if |set id | id in ids| != |ids| {
      return Failure(RepeatedRemaining);
    }
    DistinctIdsInject(zone, fixtures);
    var byDate := BucketFixtures(fixtures, zone);
    var batches := CollectBatches(SimulationTimeline(zone), fixtures, byDate);
    var groups := seq(|batches|, i requires 0 <= i < |batches| => WithoutCutoff(batches[i]));
    assert groups == Groups(zone, Elements(fixtures));
    if exists i :: 0 <= i < |groups| && !groups[i].OneSeason() {
      return Failure(MixedSeasons);
    }
    return Success(groups);
  }

  /** Every batch passes its own validator as soon as its fixtures share a season. */
  lemma GroupsAreValid(zone: Zone, S: set<SimulationFixture>, i: nat)
    requires Injective(SimulationTimeline(zone).Id(), S)
    requires i < |Groups(zone, S)|
    ensures Groups(zone, S)[i].Valid(zone) <==> Groups(zone, S)[i].OneSeason()
  {
    var tl := SimulationTimeline(zone);
    tl.PrefixAt(S, i);
    var k := tl.Keys(S)[i];
    var b := tl.BatchAt(S, k);
    var y :| y in S && tl.Key(S, y) == k;
    tl.BatchLists(S, k);
    tl.CutoffContract(S, y);
    assert y in Elements(b.members);
    forall f | f in b.members
      ensures f in S && tl.Date(f) == tl.Date(y) && (b.dateOnly || f.kickoff == y.kickoff)
      ensures f.precision.DateOnly? ==> b.dateOnly
    {
      assert f in Elements(b.members);
      tl.EarlierExactly(S, f, y);
      tl.CutoffContract(S, f);
    }
    if b.dateOnly {
      var f :| f in S && tl.Date(f) == tl.Date(y) && tl.slot(f).dateOnly;
      tl.EarlierExactly(S, f, y);
      assert f in Elements(b.members);
    }
    assert Ascending(tl.Id(), b.members);
    forall i, j | 0 <= i < j < |b.members|
      ensures b.members[i].id < b.members[j].id
    {
      assert tl.Id()(b.members[i]) < tl.Id()(b.members[j]);
    }
  }

  lemma MembersShareSeason(zone: Zone, S: set<SimulationFixture>, season: string)
    requires Injective(SimulationTimeline(zone).Id(), S)
    requires forall f :: f in S ==> f.season == season
    ensures SeasonsAgree(Groups(zone, S))
  {
    var tl := SimulationTimeline(zone);
    tl.MembersAreItems(S);
    forall i | 0 <= i < |Groups(zone, S)|
      ensures Groups(zone, S)[i].OneSeason()
    {
      var b := tl.Batches(S)[i];
      assert b in tl.Batches(S);
      assert forall j :: 0 <= j < |b.members| ==> b.members[j] in b.members && b.members[j] in S;
    }
  }

  // ---------------------------------------------------------------- one order

  /** The remaining fixtures, batch after batch. */
  ghost function Canonical(zone: Zone, S: set<SimulationFixture>): seq<SimulationFixture> {
    Timeline.Flatten(SimulationTimeline(zone).Batches(S))
  }

  function Joined(bs: seq<SimulationBatch>): seq<SimulationFixture> {
    if bs == [] then [] else Joined(bs[..|bs| - 1]) + bs[|bs| - 1].fixtures
  }

  /** Earlier by batch, or in the same batch with a smaller id. */
  ghost predicate Precedes(tl: Timeline<SimulationFixture>, S: set<SimulationFixture>, x: SimulationFixture, y: SimulationFixture) {
    tl.Key(S, x) < tl.Key(S, y) || (tl.Key(S, x) == tl.Key(S, y) && x.id < y.id)
  }

  ghost predicate InOrder(tl: Timeline<SimulationFixture>, S: set<SimulationFixture>, s: seq<SimulationFixture>) {
    forall i, j :: 0 <= i < j < |s| ==> Precedes(tl, S, s[i], s[j])
  }

  lemma OrderConcat(
      tl: Timeline<SimulationFixture>, S: set<SimulationFixture>, a: seq<SimulationFixture>, b: seq<SimulationFixture>)
    requires InOrder(tl, S, a) && InOrder(tl, S, b)
    requires forall x, y :: x in a && y in b ==> Precedes(tl, S, x, y)
    ensures InOrder(tl, S, a + b)
  {
    var s := a + b;
    forall i, j | 0 <= i < j < |s|
      ensures Precedes(tl, S, s[i], s[j])
    {
      if i < |a| && j >= |a| {
        assert a[i] in a && b[j - |a|] in b;
      }
    }
  }

  lemma {:induction false} FlattenInOrder(tl: Timeline<SimulationFixture>, S: set<SimulationFixture>)
    requires Injective(tl.Id(), S) && tl == SimulationTimeline(tl.zone)
    ensures InOrder(tl, S, Timeline.Flatten(tl.Batches(S)))
    decreases |S|
  {
    if S == {} {
      tl.NoBatches();
    } else {
      var y := tl.First(S);
      var k := tl.Key(S, y);
      var group := tl.Simultaneous(S, k);
      var rest := S - group;
      assert y in group;
      tl.BeforeIsWhole(S, k);
      tl.KeysStable(rest, S);
      FlattenInOrder(tl, rest);
      tl.BatchesPartition(rest);
      tl.BatchesFrom(S, y);
      Timeline.FlattenCons(tl.BatchAt(S, k), tl.Batches(rest));
      GroupThenRest(tl, S, k, rest, Timeline.Flatten(tl.Batches(rest)));
    }
  }

  lemma GroupThenRest(
      tl: Timeline<SimulationFixture>, S: set<SimulationFixture>, k: int,
      rest: set<SimulationFixture>, later: seq<SimulationFixture>)
    requires Injective(tl.Id(), S) && tl == SimulationTimeline(tl.zone)
    requires rest == S - tl.Simultaneous(S, k) && Elements(later) == rest
    requires forall x :: x in S ==> k <= tl.Key(S, x)
    requires forall x :: x in rest ==> tl.Key(rest, x) == tl.Key(S, x)
    requires InOrder(tl, rest, later)
    ensures InOrder(tl, S, tl.BatchAt(S, k).members + later)
  {
    var head := tl.BatchAt(S, k).members;
    tl.BatchLists(S, k);
    forall i, j | 0 <= i < j < |head|
      ensures Precedes(tl, S, head[i], head[j])
    {
      assert head[i] in Elements(head) && head[j] in Elements(head);
      assert tl.Id()(head[i]) < tl.Id()(head[j]);
    }
    forall i, j | 0 <= i < j < |later|
      ensures Precedes(tl, S, later[i], later[j])
    {
      assert later[i] in Elements(later) && later[j] in Elements(later);
      assert Precedes(tl, rest, later[i], later[j]);
    }
    forall x, y | x in head && y in later
      ensures Precedes(tl, S, x, y)
    {
      assert x in Elements(head) && y in Elements(later);
    }
    OrderConcat(tl, S, head, later);
  }

  /** Flattening the batches only reorders, and a second pass changes nothing. */
  lemma CanonicalIsPermutation(zone: Zone, fixtures: seq<SimulationFixture>)
    requires DistinctIds(fixtures)
    ensures multiset(Canonical(zone, Elements(fixtures))) == multiset(fixtures)
    ensures Canonical(zone, Elements(Canonical(zone, Elements(fixtures)))) == Canonical(zone, Elements(fixtures))
  {
    var tl, S := SimulationTimeline(zone), Elements(fixtures);
    DistinctIdsInject(zone, fixtures);
    tl.BatchesPartition(S);
    DistinctKeysSize(tl.Id(), fixtures);
    SizedMultiset(fixtures);
    SizedMultiset(Canonical(zone, S));
  }

  /** An ordered list is determined by its elements. */
  lemma {:induction false} InOrderUnique(
      tl: Timeline<SimulationFixture>, S: set<SimulationFixture>, a: seq<SimulationFixture>, b: seq<SimulationFixture>)
    requires InOrder(tl, S, a) && InOrder(tl, S, b) && Elements(a) == Elements(b)
    ensures a == b
    decreases |a|
  {
    if a == [] {
      NonEmptyHasElement(b);
      assert forall x :: x in b ==> x in Elements(b);
    } else {
      assert a[0] in Elements(b);
      assert b != [];
      assert b[0] in Elements(a);
      FirstIsLeast(tl, S, b, a[0]);
      FirstIsLeast(tl, S, a, b[0]);
      assert a[0] == b[0];
      OrderedTail(tl, S, a);
      OrderedTail(tl, S, b);
      InOrderUnique(tl, S, a[1..], b[1..]);
      assert a == [a[0]] + a[1..] && b == [b[0]] + b[1..];
    }
  }

  lemma FirstIsLeast(
      tl: Timeline<SimulationFixture>, S: set<SimulationFixture>, s: seq<SimulationFixture>, x: SimulationFixture)
    requires x in s && InOrder(tl, S, s)
    ensures x == s[0] || Precedes(tl, S, s[0], x)
  {
    var i :| 0 <= i < |s| && s[i] == x;
  }

  lemma OrderedTail(tl: Timeline<SimulationFixture>, S: set<SimulationFixture>, s: seq<SimulationFixture>)
    requires s != [] && InOrder(tl, S, s)
    ensures InOrder(tl, S, s[1..]) && Elements(s[1..]) == Elements(s) - {s[0]}
  {
    assert s == [s[0]] + s[1..];
    forall x | x in Elements(s[1..])
      ensures x != s[0]
    {
      var i :| 0 <= i < |s[1..]| && s[1..][i] == x;
      assert Precedes(tl, S, s[0], s[i + 1]);
    }
  }

  /** A list is canonical exactly when every fixture comes after all that the schedule puts before it. */
  lemma CanonicalExactly(zone: Zone, fixtures: seq<SimulationFixture>)
    requires DistinctIds(fixtures)
    ensures fixtures == Canonical(zone, Elements(fixtures)) <==>
            InOrder(SimulationTimeline(zone), Elements(fixtures), fixtures)
  {
    var tl, S := SimulationTimeline(zone), Elements(fixtures);
    DistinctIdsInject(zone, fixtures);
    FlattenInOrder(tl, S);
    tl.BatchesPartition(S);
    if InOrder(tl, S, fixtures) {
      InOrderUnique(tl, S, fixtures, Canonical(zone, S));
    }
  }

  /** The same slots are grouped the same way by the simulation and by the feature chronology. */
  lemma GroupedAsChronology(zone: Zone, S: set<SimulationFixture>, C: set<Fixture>)
    requires Injective(SimulationTimeline(zone).Id(), S) && Injective(FixtureTimeline(zone).Id(), C)
    requires SimulationTimeline(zone).Slots(S) == FixtureTimeline(zone).Slots(C)
    ensures var sim, chron := SimulationTimeline(zone), FixtureTimeline(zone);
      sim.ProjectedAll(sim.Batches(S)) == chron.ProjectedAll(chron.Batches(C))
  {
    SimulationTimeline(zone).BatchesBySlot(S);
    FixtureTimeline(zone).BatchesBySlot(C);
  }

  lemma SharedIsOne(b: SimulationBatch)
    ensures b.OneSeason() <==> forall f, g :: f in b.fixtures && g in b.fixtures ==> f.season == g.season
  {
    if b.OneSeason() {
      forall f, g | f in b.fixtures && g in b.fixtures
        ensures f.season == g.season
      {
        var i :| 0 <= i < |b.fixtures| && b.fixtures[i] == f;
        var j :| 0 <= j < |b.fixtures| && b.fixtures[j] == g;
      }
    }
  }

  lemma GroupOf(zone: Zone, S: set<SimulationFixture>, f: SimulationFixture) returns (i: nat)
    requires Injective(SimulationTimeline(zone).Id(), S) && f in S
    ensures i < |Groups(zone, S)|
    ensures var tl := SimulationTimeline(zone);
      forall g :: g in S && tl.Key(S, g) == tl.Key(S, f) ==> g in Groups(zone, S)[i].fixtures
  {
    var tl := SimulationTimeline(zone);
    var b := tl.BatchAt(S, tl.Key(S, f));
    tl.MembersAreItems(S);
    i :| 0 <= i < |tl.Batches(S)| && tl.Batches(S)[i] == b;
    forall g | g in S && tl.Key(S, g) == tl.Key(S, f)
      ensures g in b.members
    {
    }
  }

  lemma GroupIsSimultaneous(
      zone: Zone, S: set<SimulationFixture>, i: nat, f: SimulationFixture, g: SimulationFixture)
    requires Injective(SimulationTimeline(zone).Id(), S) && i < |Groups(zone, S)|
    requires f in Groups(zone, S)[i].fixtures && g in Groups(zone, S)[i].fixtures
    ensures f in S && g in S && SimulationTimeline(zone).Key(S, f) == SimulationTimeline(zone).Key(S, g)
  {
    var tl := SimulationTimeline(zone);
    var b := tl.Batches(S)[i];
    tl.MembersAreItems(S);
    assert b in tl.Batches(S) && b == tl.BatchAt(S, tl.Key(S, f));
    tl.BatchLists(S, tl.Key(S, f));
    assert g in Elements(b.members);
  }

  /** Simultaneous fixtures are of one season. */
  ghost predicate SimultaneousAgree(zone: Zone, S: set<SimulationFixture>) {
    forall f, g :: f in S && g in S && SimulationTimeline(zone).Key(S, f) == SimulationTimeline(zone).Key(S, g) ==>
      f.season == g.season
  }

  /** The batches agree on their seasons exactly when no two simultaneous fixtures are of different seasons. */
  lemma SeasonsAgreeExactly(zone: Zone, S: set<SimulationFixture>)
    requires Injective(SimulationTimeline(zone).Id(), S)
    ensures SeasonsAgree(Groups(zone, S)) <==> SimultaneousAgree(zone, S)
  {
    var tl := SimulationTimeline(zone);
    if SeasonsAgree(Groups(zone, S)) {
      forall f, g | f in S && g in S && tl.Key(S, f) == tl.Key(S, g)
        ensures f.season == g.season
      {
        var i := GroupOf(zone, S, f);
        SharedIsOne(Groups(zone, S)[i]);
      }
    }
    if SimultaneousAgree(zone, S) {
      forall i | 0 <= i < |Groups(zone, S)|
        ensures Groups(zone, S)[i].OneSeason()
      {
        var b := Groups(zone, S)[i];
        forall f, g | f in b.fixtures && g in b.fixtures
          ensures f.season == g.season
        {
          GroupIsSimultaneous(zone, S, i, f, g);
        }
        SharedIsOne(b);
      }
    }
  }

  // ---------------------------------------------------------------- the season input

  datatype PlayedFixture = PlayedFixture(id: FixtureId, home: TeamId, away: TeamId, score: Score)

  datatype SeasonInput = SeasonInput(
    season: string, teams: seq<TeamId>, completed: seq<PlayedFixture>, remaining: seq<SimulationFixture>)

  predicate Strict(ids: seq<int>) {
    forall i, j :: 0 <= i < j < |ids| ==> ids[i] < ids[j]
  }

  function PlayedIds(played: seq<PlayedFixture>): seq<FixtureId> {
    seq(|played|, i requires 0 <= i < |played| => played[i].id)
  }

  lemma StrictIds(played: seq<PlayedFixture>)
    ensures Strict(PlayedIds(played)) <==> forall i, j :: 0 <= i < j < |played| ==> played[i].id < played[j].id
  {
    var ids := PlayedIds(played);
    assert forall i :: 0 <= i < |played| ==> ids[i] == played[i].id;
  }

  /** What the input boundary accepts, in terms of the schedule alone. */
  ghost predicate Accepted(zone: Zone, input: SeasonInput) {
    && |input.teams| == 20 && (forall i, j :: 0 <= i < j < 20 ==> input.teams[i] < input.teams[j])
    && (forall i, j :: 0 <= i < j < |input.completed| ==> input.completed[i].id < input.completed[j].id)
    && DistinctIds(input.remaining)
    && InOrder(SimulationTimeline(zone), Elements(input.remaining), input.remaining)
    && (forall c, f :: c in input.completed && f in input.remaining ==> c.id != f.id)
    && (forall c :: c in input.completed ==> c.home in input.teams && c.away in input.teams)
    && (forall f :: f in input.remaining ==> f.season == input.season && f.home in input.teams && f.away in input.teams)
  }

  lemma {:induction false} JoinedIsFlatten(bs: seq<Batch<SimulationFixture>>, groups: seq<SimulationBatch>)
    requires |groups| == |bs| && forall i :: 0 <= i < |bs| ==> groups[i] == WithoutCutoff(bs[i])
    ensures Joined(groups) == Timeline.Flatten(bs)
    decreases |bs|
  {
    if bs != [] {
      var n := |bs| - 1;
      JoinedIsFlatten(bs[..n], groups[..n]);
      assert bs == bs[..n] + [bs[n]];
      Timeline.FlattenSnoc(bs[..n], bs[n]);
    }
  }

  lemma SameSeasonAgrees(zone: Zone, input: SeasonInput)
    requires DistinctIds(input.remaining) && forall f :: f in input.remaining ==> f.season == input.season
    ensures SeasonsAgree(Groups(zone, Elements(input.remaining)))
  {
    DistinctIdsInject(zone, input.remaining);
    MembersShareSeason(zone, Elements(input.remaining), input.season);
  }

  /** Rebuilds the order of the remaining fixtures from their batches and compares. */
  method RemainingInOrder(zone: Zone, fixtures: seq<SimulationFixture>) returns (ok: bool)
    ensures ok <==> DistinctIds(fixtures) && SeasonsAgree(Groups(zone, Elements(fixtures)))
                    && InOrder(SimulationTimeline(zone), Elements(fixtures), fixtures)
  {
    var batches := SimulationFixtureBatches(fixtures, zone);
    if batches.Failure? {
      return false;
    }
    JoinedIsFlatten(SimulationTimeline(zone).Batches(Elements(fixtures)), batches.value);
    CanonicalExactly(zone, fixtures);
    return fixtures == Joined(batches.value);
  }

  /** The single-run input boundary. */
  method SeasonInputIsCanonical(zone: Zone, input: SeasonInput) returns (ok: bool)
    ensures ok <==> Accepted(zone, input)
  {
    StrictIds(input.completed);
    if |input.teams| != 20 || !Strict(input.teams) || !Strict(PlayedIds(input.completed)) {
      return false;
    }
    var inOrder := RemainingInOrder(zone, input.remaining);
    if DistinctIds(input.remaining) && forall f :: f in input.remaining ==> f.season == input.season {
      SameSeasonAgrees(zone, input);
    }
    if !inOrder || exists c, f :: c in input.completed && f in input.remaining && c.id == f.id {
      return false;
    }
    return
      && (forall c :: c in input.completed ==> c.home in input.teams && c.away in input.teams)
      && forall f :: f in input.remaining ==> f.season == input.season && f.home in input.teams && f.away in input.teams;
  }

  /** Any set of fixtures of one season, however presented, has exactly one accepted order. */
  lemma OneAcceptedOrder(zone: Zone, a: SeasonInput, b: SeasonInput)
    requires Accepted(zone, a) && b == a.(remaining := b.remaining)
    requires DistinctIds(b.remaining) && Elements(b.remaining) == Elements(a.remaining)
    ensures Accepted(zone, b) <==> b.remaining == a.remaining
    ensures a.remaining == Canonical(zone, Elements(a.remaining))
  {
    CanonicalExactly(zone, a.remaining);
    CanonicalExactly(zone, b.remaining);
    if Accepted(zone, b) {
      InOrderUnique(SimulationTimeline(zone), Elements(a.remaining), a.remaining, b.remaining);
    }
  }
}

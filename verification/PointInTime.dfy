/** Leakage freedom: every row is a function of what strictly precedes its batch. */
module PointInTime {
  import opened Wrappers
  import opened Calendar
  import opened Collections
  import opened Batching
  import opened Fixtures
  import opened Chronology
  import opened Elo
  import opened EloLaws
  import opened Priors
  import opened Predictors
  import opened Replay
  import opened Engine

  // ---------------------------------------------------------------- what the rows are

  /** One more batch appends its rows, made from the state the earlier batches leave. */
  lemma RowsStep(zone: Zone, setup: SeasonSetup, bs: seq<FixtureBatch>) returns (made: seq<FeatureRow>)
    requires Prepared(setup) && BatchesReady(setup, bs) && bs != []
    ensures BatchesReady(setup, bs[..|bs| - 1]) && AllReady(setup, bs[|bs| - 1].members)
    ensures made == BatchRows(zone, setup, StateAfter(zone, setup, bs[..|bs| - 1]), bs[|bs| - 1])
    ensures SeasonRows(zone, setup, bs) == SeasonRows(zone, setup, bs[..|bs| - 1]) + made
  {
    assert bs[|bs| - 1] in bs;
    made := BatchRows(zone, setup, StateAfter(zone, setup, bs[..|bs| - 1]), bs[|bs| - 1]);
  }

  lemma MemberReady(setup: SeasonSetup, batch: FixtureBatch, j: nat)
    requires AllReady(setup, batch.members) && j < |batch.members|
    ensures Ready(setup, batch.members[j])
  {
    assert batch.members[j] in batch.members;
  }

  lemma BatchRowAt(zone: Zone, setup: SeasonSetup, state: ReplayState, batch: FixtureBatch, j: nat)
    requires Prepared(setup) && AllReady(setup, batch.members) && j < |batch.members|
    requires state.teams.Keys == setup.season.Teams() == state.ratings.Keys
    ensures Ready(setup, batch.members[j])
    ensures RowOf(zone, setup, state, batch.cutoff, batch.members[j]) in BatchRows(zone, setup, state, batch)
  {
    MemberReady(setup, batch, j);
    var made := BatchRows(zone, setup, state, batch);
    assert made[j] == RowOf(zone, setup, state, batch.cutoff, batch.members[j]);
  }

  /** The row was made for the j-th member of the batch, from the given state. */
  ghost predicate MadeFor(
      zone: Zone, setup: SeasonSetup, state: ReplayState, batch: FixtureBatch, row: FeatureRow, j: nat)
    requires Prepared(setup) && state.teams.Keys == setup.season.Teams() == state.ratings.Keys
  {
    && j < |batch.members| && Ready(setup, batch.members[j])
    && row == RowOf(zone, setup, state, batch.cutoff, batch.members[j])
  }

  /** The batch, and the place in it, of the fixture a row was made for. */
  ghost predicate RowPlace(
      zone: Zone, setup: SeasonSetup, bs: seq<FixtureBatch>, row: FeatureRow, i: nat, j: nat)
    requires Prepared(setup)
  {
    i < |bs| && MadeFor(zone, setup, StateAfter(zone, setup, bs[..i]), bs[i], row, j)
  }

  lemma PlaceInPrefix(zone: Zone, setup: SeasonSetup, bs: seq<FixtureBatch>, n: nat, row: FeatureRow, i: nat, j: nat)
    requires Prepared(setup) && i < n <= |bs|
    ensures RowPlace(zone, setup, bs[..n], row, i, j) <==> RowPlace(zone, setup, bs, row, i, j)
  {
    assert bs[..n][..i] == bs[..i] && bs[..n][i] == bs[i];
  }

  lemma LastRow(zone: Zone, setup: SeasonSetup, bs: seq<FixtureBatch>, row: FeatureRow, j: nat)
    requires Prepared(setup) && BatchesReady(setup, bs) && bs != []
    requires RowPlace(zone, setup, bs, row, |bs| - 1, j)
    ensures row in SeasonRows(zone, setup, bs)
  {
    var made := RowsStep(zone, setup, bs);
    BatchRowAt(zone, setup, StateAfter(zone, setup, bs[..|bs| - 1]), bs[|bs| - 1], j);
    assert row in made;
  }

  lemma RowStays(zone: Zone, setup: SeasonSetup, bs: seq<FixtureBatch>, row: FeatureRow)
    requires Prepared(setup) && BatchesReady(setup, bs) && bs != [] && BatchesReady(setup, bs[..|bs| - 1])
    requires row in SeasonRows(zone, setup, bs[..|bs| - 1])
    ensures row in SeasonRows(zone, setup, bs)
  {
    var made := RowsStep(zone, setup, bs);
  }

  lemma {:induction false} EarlierRowsStay(
      zone: Zone, setup: SeasonSetup, early: seq<FixtureBatch>, bs: seq<FixtureBatch>, row: FeatureRow)
    requires Prepared(setup) && BatchesReady(setup, bs) && early <= bs && BatchesReady(setup, early)
    requires row in SeasonRows(zone, setup, early)
    ensures row in SeasonRows(zone, setup, bs)
    decreases |bs|
  {
    if early != bs {
      var init := InitReady(setup, early, bs);
      EarlierRowsStay(zone, setup, early, init, row);
      RowStays(zone, setup, bs, row);
    }
  }

  lemma InitReady(setup: SeasonSetup, early: seq<FixtureBatch>, bs: seq<FixtureBatch>) returns (init: seq<FixtureBatch>)
    requires BatchesReady(setup, bs) && early <= bs && early != bs
    ensures bs != [] && init == bs[..|bs| - 1] && early <= init && BatchesReady(setup, init)
  {
    init := bs[..|bs| - 1];
    assert forall b :: b in init ==> b in bs;
  }

  lemma PrefixReady(setup: SeasonSetup, bs: seq<FixtureBatch>, n: nat)
    requires BatchesReady(setup, bs) && n <= |bs|
    ensures BatchesReady(setup, bs[..n])
  {
    assert forall b :: b in bs[..n] ==> b in bs;
  }

  lemma RowsByBatch(zone: Zone, setup: SeasonSetup, bs: seq<FixtureBatch>, row: FeatureRow, i: nat, j: nat)
    requires Prepared(setup) && BatchesReady(setup, bs) && RowPlace(zone, setup, bs, row, i, j)
    ensures row in SeasonRows(zone, setup, bs)
  {
    PlaceInPrefix(zone, setup, bs, i + 1, row, i, j);
    PrefixReady(setup, bs, i + 1);
    RowOfLastBatch(zone, setup, bs[..i + 1], bs, row, j);
  }

  lemma RowOfLastBatch(
      zone: Zone, setup: SeasonSetup, early: seq<FixtureBatch>, bs: seq<FixtureBatch>, row: FeatureRow, j: nat)
    requires Prepared(setup) && BatchesReady(setup, bs) && BatchesReady(setup, early) && early <= bs && early != []
    requires RowPlace(zone, setup, early, row, |early| - 1, j)
    ensures row in SeasonRows(zone, setup, bs)
  {
    LastRow(zone, setup, early, row, j);
    EarlierRowsStay(zone, setup, early, bs, row);
  }

  lemma BatchRowHasMember(
      zone: Zone, setup: SeasonSetup, state: ReplayState, batch: FixtureBatch, row: FeatureRow) returns (j: nat)
    requires Prepared(setup) && AllReady(setup, batch.members)
    requires state.teams.Keys == setup.season.Teams() == state.ratings.Keys
    requires row in BatchRows(zone, setup, state, batch)
    ensures j < |batch.members| && Ready(setup, batch.members[j])
    ensures row == RowOf(zone, setup, state, batch.cutoff, batch.members[j])
  {
    var made := BatchRows(zone, setup, state, batch);
    j :| 0 <= j < |made| && made[j] == row;
    MemberReady(setup, batch, j);
  }

  lemma {:induction false} RowHasBatch(zone: Zone, setup: SeasonSetup, bs: seq<FixtureBatch>, row: FeatureRow)
    returns (i: nat, j: nat)
    requires Prepared(setup) && BatchesReady(setup, bs) && row in SeasonRows(zone, setup, bs)
    ensures RowPlace(zone, setup, bs, row, i, j)
    decreases |bs|
  {
    var n := |bs| - 1;
    var made := RowsStep(zone, setup, bs);
    if row in made {
      i := n;
      j := BatchRowHasMember(zone, setup, StateAfter(zone, setup, bs[..n]), bs[n], row);
    } else {
      i, j := RowHasBatch(zone, setup, bs[..n], row);
      PlaceInPrefix(zone, setup, bs, n, row, i, j);
    }
  }

  lemma FlattenCount(bs: seq<FixtureBatch>)
    requires bs != []
    ensures |Timeline.Flatten(bs)| == |Timeline.Flatten(bs[..|bs| - 1])| + |bs[|bs| - 1].members|
  {
    var init, last := bs[..|bs| - 1], bs[|bs| - 1];
    Timeline.FlattenSnoc(init, last);
    assert bs == init + [last];
  }

  lemma {:induction false} RowCount(zone: Zone, setup: SeasonSetup, bs: seq<FixtureBatch>)
    requires Prepared(setup) && BatchesReady(setup, bs)
    ensures |SeasonRows(zone, setup, bs)| == |Timeline.Flatten(bs)|
    decreases |bs|
  {
    if bs != [] {
      var made := RowsStep(zone, setup, bs);
      var init := bs[..|bs| - 1];
      RowCount(zone, setup, init);
      FlattenCount(bs);
    }
  }

  /** The i-th batch is the batch of each of its members, and what precedes it is what each member may see. */
  lemma MemberSeesBefore(zone: Zone, S: set<Fixture>, i: nat, f: Fixture)
    requires Injective(FixtureTimeline(zone).Id(), S)
    requires i < |FixtureTimeline(zone).Batches(S)| && f in FixtureTimeline(zone).Batches(S)[i].members
    ensures var tl := FixtureTimeline(zone);
      && f in S
      && tl.Batches(S)[i] == tl.BatchAt(S, tl.Key(S, f))
      && tl.Batches(S)[..i] == tl.Batches(tl.Before(S, tl.Key(S, f)))
  {
    var tl := FixtureTimeline(zone);
    tl.PrefixAt(S, i);
    var k := tl.Keys(S)[i];
    tl.BatchLists(S, k);
    assert f in Elements(tl.BatchAt(S, k).members);
  }

  lemma BatchIndex(zone: Zone, S: set<Fixture>, f: Fixture) returns (i: nat, j: nat)
    requires Injective(FixtureTimeline(zone).Id(), S) && f in S
    ensures i < |FixtureTimeline(zone).Batches(S)|
    ensures j < |FixtureTimeline(zone).Batches(S)[i].members| && FixtureTimeline(zone).Batches(S)[i].members[j] == f
  {
    var tl := FixtureTimeline(zone);
    var b := tl.BatchAt(S, tl.Key(S, f));
    tl.MembersAreItems(S);
    assert b in tl.Batches(S) && f in b.members;
    i :| 0 <= i < |tl.Batches(S)| && tl.Batches(S)[i] == b;
    j :| 0 <= j < |b.members| && b.members[j] == f;
  }

  /** The row is the point-in-time row of one of the fixtures. */
  ghost predicate IsRowOf(zone: Zone, setup: SeasonSetup, S: set<Fixture>, f: Fixture, row: FeatureRow)
    requires Prepared(setup) && Injective(FixtureTimeline(zone).Id(), S)
    requires BatchesReady(setup, FixtureTimeline(zone).Batches(S))
  {
    f in S && f.id == row.fixture && Ready(setup, f) && row == PointInTimeRow(zone, setup, S, f)
  }

  /** A season has exactly one row for each fixture: its point-in-time row. */
  lemma RowsArePointInTime(zone: Zone, setup: SeasonSetup, S: set<Fixture>)
    requires Prepared(setup) && Injective(FixtureTimeline(zone).Id(), S)
    requires BatchesReady(setup, FixtureTimeline(zone).Batches(S))
    ensures var rows := SeasonRows(zone, setup, FixtureTimeline(zone).Batches(S));
      && |rows| == |S|
      && (forall f :: f in S ==> Ready(setup, f) && PointInTimeRow(zone, setup, S, f) in rows)
      && (forall row :: row in rows ==>
            exists f :: IsRowOf(zone, setup, S, f, row))
  {
    var tl := FixtureTimeline(zone);
    var bs := tl.Batches(S);
    RowCount(zone, setup, bs);
    tl.BatchesPartition(S);
    forall f | f in S
      ensures Ready(setup, f) && PointInTimeRow(zone, setup, S, f) in SeasonRows(zone, setup, bs)
    {
      FixtureHasRow(zone, setup, S, f);
    }
    forall row | row in SeasonRows(zone, setup, bs)
      ensures exists f :: IsRowOf(zone, setup, S, f, row)
    {
      var f := RowHasFixture(zone, setup, S, row);
    }
  }

  lemma FixtureHasRow(zone: Zone, setup: SeasonSetup, S: set<Fixture>, f: Fixture)
    requires Prepared(setup) && Injective(FixtureTimeline(zone).Id(), S) && f in S
    requires BatchesReady(setup, FixtureTimeline(zone).Batches(S))
    ensures Ready(setup, f)
    ensures PointInTimeRow(zone, setup, S, f) in SeasonRows(zone, setup, FixtureTimeline(zone).Batches(S))
  {
    var bs := FixtureTimeline(zone).Batches(S);
    var i, j := BatchIndex(zone, S, f);
    assert bs[i] in bs && bs[i].members[j] in bs[i].members;
    MemberSeesBefore(zone, S, i, f);
    RowsByBatch(zone, setup, bs, PointInTimeRow(zone, setup, S, f), i, j);
  }

  lemma RowHasFixture(zone: Zone, setup: SeasonSetup, S: set<Fixture>, row: FeatureRow) returns (f: Fixture)
    requires Prepared(setup) && Injective(FixtureTimeline(zone).Id(), S)
    requires BatchesReady(setup, FixtureTimeline(zone).Batches(S))
    requires row in SeasonRows(zone, setup, FixtureTimeline(zone).Batches(S))
    ensures IsRowOf(zone, setup, S, f, row)
  {
    var bs := FixtureTimeline(zone).Batches(S);
    var i, j := RowHasBatch(zone, setup, bs, row);
    f := bs[i].members[j];
    assert f in bs[i].members;
    MemberSeesBefore(zone, S, i, f);
  }

  // ---------------------------------------------------------------- leakage freedom

  /** The same fixtures at the same times with the same precisions; results and statistics may differ. */
  ghost predicate SameSchedule(zone: Zone, A: set<Fixture>, B: set<Fixture>) {
    FixtureTimeline(zone).Slots(A) == FixtureTimeline(zone).Slots(B)
  }

  /** Two seasons agree on every fixture in a batch strictly before f's. */
  ghost predicate AgreeBefore(zone: Zone, A: set<Fixture>, B: set<Fixture>, f: Fixture) {
    var tl := FixtureTimeline(zone);
    forall x, y :: x in A && y in B && x.id == y.id && tl.Key(A, x) < tl.Key(A, f) ==> x == y
  }

  /** The schedule alone decides every key, so equal schedules see equal pasts. */
  lemma SamePast(zone: Zone, A: set<Fixture>, B: set<Fixture>, f: Fixture, g: Fixture)
    requires SameSchedule(zone, A, B) && AgreeBefore(zone, A, B, f)
    requires f in A && g in B && f.KickoffSlot() == g.KickoffSlot()
    ensures var tl := FixtureTimeline(zone);
      && tl.Key(A, f) == tl.Key(B, g)
      && tl.Before(A, tl.Key(A, f)) == tl.Before(B, tl.Key(B, g))
      && tl.BatchAt(A, tl.Key(A, f)).cutoff == tl.BatchAt(B, tl.Key(B, g)).cutoff
  {
    var tl := FixtureTimeline(zone);
    tl.KeyBySlot(A, f);
    tl.KeyBySlot(B, g);
    tl.CutoffContract(A, f);
    tl.CutoffContract(B, g);
    PastCarries(zone, A, B, f, tl.Key(A, f));
  }

  lemma PastCarries(zone: Zone, A: set<Fixture>, B: set<Fixture>, f: Fixture, k: int)
    requires SameSchedule(zone, A, B) && AgreeBefore(zone, A, B, f) && f in A && k == FixtureTimeline(zone).Key(A, f)
    ensures FixtureTimeline(zone).Before(A, k) == FixtureTimeline(zone).Before(B, k)
  {
    var tl := FixtureTimeline(zone);
    forall x | x in tl.Before(A, k)
      ensures x in tl.Before(B, k)
    {
      assert tl.slot(x) in tl.Slots(B);
      var y :| y in B && tl.slot(y) == tl.slot(x);
      tl.KeyBySlot(A, x);
      tl.KeyBySlot(B, x);
    }
    forall y | y in tl.Before(B, k)
      ensures y in tl.Before(A, k)
    {
      assert tl.slot(y) in tl.Slots(A);
      var x :| x in A && tl.slot(x) == tl.slot(y);
      tl.KeyBySlot(A, x);
      tl.KeyBySlot(B, y);
    }
  }

  /**
   Leakage freedom: change any score, outcome or statistic in f's own batch or later, and f keeps
   its predictors and its cutoff.
   */
  lemma LeakageFreedom(zone: Zone, setup: SeasonSetup, A: set<Fixture>, B: set<Fixture>, f: Fixture, g: Fixture)
    requires Prepared(setup) && Ready(setup, f) && Ready(setup, g)
    requires SameSchedule(zone, A, B) && AgreeBefore(zone, A, B, f)
    requires f in A && g in B && f.KickoffSlot() == g.KickoffSlot() && f.home == g.home && f.away == g.away
    ensures PointInTimeRow(zone, setup, A, f).predictors == PointInTimeRow(zone, setup, B, g).predictors
    ensures PointInTimeRow(zone, setup, A, f).cutoff == PointInTimeRow(zone, setup, B, g).cutoff
  {
    SamePast(zone, A, B, f, g);
    var tl := FixtureTimeline(zone);
    var state := StateAfter(zone, setup, tl.Batches(tl.Before(A, tl.Key(A, f))));
    SamePredictors(zone, setup, state, f, g);
  }

  /** The fixture a published row was made for. */
  lemma RowSource(zone: Zone, setup: SeasonSetup, S: set<Fixture>, row: FeatureRow) returns (f: Fixture)
    requires Prepared(setup) && Injective(FixtureTimeline(zone).Id(), S)
    requires BatchesReady(setup, FixtureTimeline(zone).Batches(S))
    requires row in SeasonRows(zone, setup, FixtureTimeline(zone).Batches(S))
    ensures f in S && f.id == row.fixture && Ready(setup, f) && row == PointInTimeRow(zone, setup, S, f)
  {
    f := RowHasFixture(zone, setup, S, row);
  }

  lemma SameIdSameFixture(zone: Zone, S: set<Fixture>, f: Fixture, g: Fixture)
    requires Injective(FixtureTimeline(zone).Id(), S) && f in S && g in S && f.id == g.id
    ensures f == g
  {
    var id := FixtureTimeline(zone).Id();
    assert id(f) == id(g);
  }

  /** The row of a fixture in a built season is its point-in-time row. */
  lemma RowOfFixture(zone: Zone, setup: SeasonSetup, S: set<Fixture>, f: Fixture, row: FeatureRow)
    requires Prepared(setup) && Injective(FixtureTimeline(zone).Id(), S) && f in S
    requires BatchesReady(setup, FixtureTimeline(zone).Batches(S))
    requires row in SeasonRows(zone, setup, FixtureTimeline(zone).Batches(S)) && row.fixture == f.id
    ensures Ready(setup, f) && row == PointInTimeRow(zone, setup, S, f)
  {
    var g := RowSource(zone, setup, S, row);
    SameIdSameFixture(zone, S, f, g);
  }

  /** Leakage freedom of the published rows of two whole seasons. */
  lemma SeasonsDoNotLeak(
      zone: Zone, setup: SeasonSetup, A: set<Fixture>, B: set<Fixture>, f: Fixture, g: Fixture,
      before: FeatureRow, after: FeatureRow)
    requires Prepared(setup) && f in A && g in B && f.KickoffSlot() == g.KickoffSlot() && f.home == g.home && f.away == g.away
    requires Injective(FixtureTimeline(zone).Id(), A) && BatchesReady(setup, FixtureTimeline(zone).Batches(A))
    requires Injective(FixtureTimeline(zone).Id(), B) && BatchesReady(setup, FixtureTimeline(zone).Batches(B))
    requires SameSchedule(zone, A, B) && AgreeBefore(zone, A, B, f)
    requires before in SeasonRows(zone, setup, FixtureTimeline(zone).Batches(A)) && before.fixture == f.id
    requires after in SeasonRows(zone, setup, FixtureTimeline(zone).Batches(B)) && after.fixture == g.id
    ensures before.predictors == after.predictors && before.cutoff == after.cutoff
  {
    RowOfFixture(zone, setup, A, f, before);
    RowOfFixture(zone, setup, B, g, after);
    LeakageFreedom(zone, setup, A, B, f, g);
  }

  /** Predictors read only a fixture's clubs and date. */
  lemma SamePredictors(zone: Zone, setup: SeasonSetup, state: ReplayState, f: Fixture, g: Fixture)
    requires setup.season.Valid() && setup.elo.Valid()
    requires Knows(state, setup, f.home) && Knows(state, setup, f.away)
    requires f.home == g.home && f.away == g.away && zone.dateOf(f.kickoff) == zone.dateOf(g.kickoff)
    ensures PredictorsFor(zone, f, state, setup) == PredictorsFor(zone, g, state, setup)
  {
  }

  /**
   Replay equivalence: the fixtures of all earlier batches, in any order, and a scheduled copy of f
   give exactly the predictors in the row that the season build published for f.
   */
  lemma ReplayEquivalence(
      zone: Zone, setup: SeasonSetup, S: set<Fixture>, f: Fixture, row: FeatureRow,
      completed: seq<Fixture>, scheduled: Fixture)
    requires Prepared(setup) && Injective(FixtureTimeline(zone).Id(), S) && f in S
    requires BatchesReady(setup, FixtureTimeline(zone).Batches(S))
    requires row in SeasonRows(zone, setup, FixtureTimeline(zone).Batches(S)) && row.fixture == f.id
    requires Elements(completed) == FixtureTimeline(zone).Before(S, FixtureTimeline(zone).Key(S, f))
    requires scheduled.home == f.home && scheduled.away == f.away && scheduled.kickoff == f.kickoff
    ensures f.home in setup.season.Teams() && f.away in setup.season.Teams()
    ensures UpcomingPredictors(zone, setup, Elements(completed), scheduled) == row.predictors
  {
    RowOfFixture(zone, setup, S, f, row);
    var tl := FixtureTimeline(zone);
    var state := StateAfter(zone, setup, tl.Batches(tl.Before(S, tl.Key(S, f))));
    SamePredictors(zone, setup, state, f, scheduled);
  }

  /** The earlier batches of a valid season are accepted as completed state. */
  lemma EarlierBatchesAreAccepted(
      zone: Zone, setup: SeasonSetup, fixtures: seq<Fixture>, provenance: Provenance, f: Fixture, completed: seq<Fixture>)
    requires InputFault(fixtures, setup.season, provenance).None? && Orderable(fixtures) && f in fixtures
    requires DistinctKeys(FixtureTimeline(zone).Id(), completed)
    requires Elements(completed)
          == FixtureTimeline(zone).Before(Elements(fixtures), FixtureTimeline(zone).Key(Elements(fixtures), f))
    ensures Orderable(completed)
    ensures BatchesFault(setup, FixtureTimeline(zone).Batches(Elements(completed))).None?
  {
    NoFaultMeansReady(fixtures, setup, provenance);
    forall c | c in completed
      ensures c.competition == PREMIER_LEAGUE && CompletedFault(setup, c).None?
    {
      assert c in Elements(completed);
      assert c in Elements(fixtures) && c in fixtures;
    }
    var id := FixtureTimeline(zone).Id();
    assert forall i :: 0 <= i < |completed| ==> id(completed[i]) == completed[i].id;
    AcceptedFixtureByFixture(zone, setup, completed);
  }

  /** A fixture as it was announced, before it was played. */
  function AsScheduled(f: Fixture): Fixture {
    f.(status := Scheduled, fullTime := None, outcome := None)
  }

  /**
   End to end: for any fixture of a buildable season, asking with exactly the fixtures of the earlier
   batches and the fixture as announced succeeds, and returns the predictors of its historical row.
   */
  lemma UpcomingAgreesWithHistory(
      zone: Zone, setup: SeasonSetup, fixtures: seq<Fixture>, provenance: Provenance, f: Fixture, row: FeatureRow,
      completed: seq<Fixture>)
    requires Prepared(setup) && f in fixtures
    requires InputFault(fixtures, setup.season, provenance).None? && Orderable(fixtures)
    requires BatchesReady(setup, FixtureTimeline(zone).Batches(Elements(fixtures)))
    requires row in SeasonRows(zone, setup, FixtureTimeline(zone).Batches(Elements(fixtures))) && row.fixture == f.id
    requires DistinctKeys(FixtureTimeline(zone).Id(), completed)
    requires Elements(completed)
          == FixtureTimeline(zone).Before(Elements(fixtures), FixtureTimeline(zone).Key(Elements(fixtures), f))
    ensures UpcomingResult(zone, setup, completed, AsScheduled(f)) == Success(row.predictors)
  {
    NoFaultMeansReady(fixtures, setup, provenance);
    OrderableIsInjective(zone, fixtures);
    EarlierBatchesAreAccepted(zone, setup, fixtures, provenance, f, completed);
    NoFaultAnywhere(completed);
    OrderableIsUnique(completed);
    ReplayEquivalence(zone, setup, Elements(fixtures), f, row, completed, AsScheduled(f));
  }

  // ---------------------------------------------------------------- the row contract

  /** What a published row satisfies: its cutoff contract, its label and its numbers. */
  ghost predicate SoundRow(zone: Zone, setup: SeasonSetup, row: FeatureRow) {
    SoundTimes(zone, row) && SoundPredictors(setup, row.home, row.away, row.predictors)
  }

  ghost predicate SoundTimes(zone: Zone, row: FeatureRow) {
    && row.home != row.away
    && row.cutoff <= row.kickoff
    && (row.precision.DateOnly? ==> row.cutoff < zone.startOf(zone.dateOf(row.kickoff)))
    && row.trainingLabel.outcome == Score(row.trainingLabel.homeGoals, row.trainingLabel.awayGoals).Outcome()
  }

  ghost predicate SoundPredictors(setup: SeasonSetup, home: TeamId, away: TeamId, p: PredictorSet) {
    && SoundTeam(p.home) && SoundTeam(p.away)
    && SoundElo(setup, home, away, p.elo, p.home.prior.matches, p.away.prior.matches)
  }

  ghost predicate SoundElo(
      setup: SeasonSetup, home: TeamId, away: TeamId, elo: MatchPrediction, homeMatches: nat, awayMatches: nat)
  {
    && elo.homeExpected + elo.awayExpected == 1.0
    && home in setup.ratings && away in setup.ratings
    && WithinMatches(elo.homeRating - setup.ratings[home], setup.elo.kFactor, homeMatches)
    && WithinMatches(elo.awayRating - setup.ratings[away], setup.elo.kFactor, awayMatches)
  }

  ghost predicate SoundTeam(t: TeamPredictors) {
    && t.prior.wins + t.prior.draws + t.prior.losses == t.prior.matches
    && t.prior.points == 3 * t.prior.wins + t.prior.draws
    && t.form.matches == (if t.prior.matches < FORM_WINDOW_MATCHES then t.prior.matches else FORM_WINDOW_MATCHES)
    && t.form.wins + t.form.draws + t.form.losses == t.form.matches
    && t.schedule.last7Days <= t.schedule.last14Days <= t.prior.matches
    && (t.schedule.restDays.Some? ==> t.schedule.restDays.value >= 0)
    && t.blend.winRate + t.blend.drawRate + t.blend.lossRate == 1.0
    && t.blend.pointsPerMatch == 3.0 * t.blend.winRate + t.blend.drawRate
  }

  lemma TeamIsSound(s: seq<Observation>, date: int, home: bool, prior: OpeningPrior)
    requires prior.Valid() && forall o :: o in s ==> o.Sound() && o.date <= date
    ensures SoundTeam(TeamPredictorsOf(s, date, home, prior))
  {
    var form := Last(FORM_WINDOW_MATCHES, s);
    HistoryBalances(s);
    HistoryBalances(form);
    ScheduleIsConsistent(s, date, home);
    BlendIsConsistent(s, prior);
  }

  /** Everything a club's history holds when f is predicted is sound and no later than f's date. */
  lemma PastIsSound(zone: Zone, setup: SeasonSetup, S: set<Fixture>, f: Fixture, team: TeamId)
    requires Prepared(setup) && f in S && Injective(FixtureTimeline(zone).Id(), S) && team in setup.season.Teams()
    ensures var tl := FixtureTimeline(zone);
      var past := StateAfter(zone, setup, tl.Batches(tl.Before(S, tl.Key(S, f)))).teams[team];
      forall o :: o in past ==> o.Sound() && o.date <= zone.dateOf(f.kickoff)
  {
    var tl := FixtureTimeline(zone);
    var early := tl.Before(S, tl.Key(S, f));
    var bs := tl.Batches(early);
    HistoryIsWitnessed(zone, setup, bs);
    tl.BatchesPartition(early);
    forall o | o in StateAfter(zone, setup, bs).teams[team]
      ensures o.Sound() && o.date <= zone.dateOf(f.kickoff)
    {
      var x := Witness(zone, team, Timeline.Flatten(bs), o);
      assert x in Elements(Timeline.Flatten(bs));
      tl.EarlierExactly(S, x, f);
    }
  }

  lemma Witness(zone: Zone, team: TeamId, fixtures: seq<Fixture>, o: Observation) returns (x: Fixture)
    requires Witnessed(zone, team, fixtures, o)
    ensures x in fixtures && o.Sound() && o.date == FixtureTimeline(zone).Date(x)
  {
    x :| x in fixtures && x.fullTime.Some?
      && ((x.home == team && o == Observe(zone, x, true)) || (x.away == team && o == Observe(zone, x, false)));
  }

  lemma PastRating(zone: Zone, setup: SeasonSetup, S: set<Fixture>, f: Fixture, team: TeamId)
    requires Prepared(setup) && f in S && Injective(FixtureTimeline(zone).Id(), S) && team in setup.season.Teams()
    requires forall x :: x in S ==> Ready(setup, x)
    ensures var tl := FixtureTimeline(zone);
      var state := StateAfter(zone, setup, tl.Batches(tl.Before(S, tl.Key(S, f))));
      WithinMatches(state.ratings[team] - setup.ratings[team], setup.elo.kFactor, |state.teams[team]|)
  {
    var tl := FixtureTimeline(zone);
    var early := tl.Before(S, tl.Key(S, f));
    var bs := tl.Batches(early);
    tl.BatchesPartition(early);
    forall x: Fixture | x in Timeline.Flatten(bs)
      ensures Completed(x) && x.home in setup.season.Teams() && x.away in setup.season.Teams()
    {
      assert x in Elements(Timeline.Flatten(bs));
    }
    HistoryCounts(zone, setup, bs, team);
    RatingsAreEloRun(zone, setup, bs);
    EloRuleMovesAtMost(setup.elo, setup.curve);
    SeasonDrift(setup.ratings, bs, team, setup.EloMoves(), setup.elo.kFactor);
  }

  /** A state that predicts soundly: sound histories up to the date, ratings within their matches. */
  ghost predicate SoundState(zone: Zone, setup: SeasonSetup, state: ReplayState, team: TeamId, date: int) {
    && team in state.teams && team in state.ratings && team in setup.ratings
    && (forall o :: o in state.teams[team] ==> o.Sound() && o.date <= date)
    && WithinMatches(state.ratings[team] - setup.ratings[team], setup.elo.kFactor, |state.teams[team]|)
  }

  lemma SoundStateGivesSoundTeam(
      zone: Zone, setup: SeasonSetup, state: ReplayState, team: TeamId, date: int, home: bool, prior: OpeningPrior)
    requires SoundState(zone, setup, state, team, date) && prior.Valid()
    ensures SoundTeam(TeamPredictorsOf(state.teams[team], date, home, prior))
    ensures TeamPredictorsOf(state.teams[team], date, home, prior).prior.matches == |state.teams[team]|
  {
    TeamIsSound(state.teams[team], date, home, prior);
  }

  lemma PredictorParts(zone: Zone, setup: SeasonSetup, state: ReplayState, f: Fixture)
    requires setup.season.Valid() && setup.elo.Valid() && Knows(state, setup, f.home) && Knows(state, setup, f.away)
    ensures var p, date := PredictorsFor(zone, f, state, setup), zone.dateOf(f.kickoff);
      && p.home == TeamPredictorsOf(state.teams[f.home], date, true, setup.priors[f.home])
      && p.away == TeamPredictorsOf(state.teams[f.away], date, false, setup.priors[f.away])
      && p.elo.homeRating == state.ratings[f.home] && p.elo.awayRating == state.ratings[f.away]
      && p.elo.homeExpected + p.elo.awayExpected == 1.0
  {
  }

  /** Sound parts make a sound set. */
  lemma AssembleSound(
      zone: Zone, setup: SeasonSetup, state: ReplayState, home: TeamId, away: TeamId, date: int, p: PredictorSet)
    requires SoundState(zone, setup, state, home, date) && SoundState(zone, setup, state, away, date)
    requires SoundTeam(p.home) && p.home.prior.matches == |state.teams[home]|
    requires SoundTeam(p.away) && p.away.prior.matches == |state.teams[away]|
    requires p.elo.homeRating == state.ratings[home] && p.elo.awayRating == state.ratings[away]
    requires p.elo.homeExpected + p.elo.awayExpected == 1.0
    ensures SoundPredictors(setup, home, away, p)
  {
  }

  lemma PredictorsAreSound(zone: Zone, setup: SeasonSetup, state: ReplayState, f: Fixture)
    requires Prepared(setup) && f.home in setup.season.Teams() && f.away in setup.season.Teams()
    requires Knows(state, setup, f.home) && Knows(state, setup, f.away)
    requires SoundState(zone, setup, state, f.home, zone.dateOf(f.kickoff))
    requires SoundState(zone, setup, state, f.away, zone.dateOf(f.kickoff))
    requires setup.priors[f.home].Valid() && setup.priors[f.away].Valid()
    ensures SoundPredictors(setup, f.home, f.away, PredictorsFor(zone, f, state, setup))
  {
    var date, p := zone.dateOf(f.kickoff), PredictorsFor(zone, f, state, setup);
    SoundStateGivesSoundTeam(zone, setup, state, f.home, date, true, setup.priors[f.home]);
    SoundStateGivesSoundTeam(zone, setup, state, f.away, date, false, setup.priors[f.away]);
    PredictorParts(zone, setup, state, f);
    AssembleSound(zone, setup, state, f.home, f.away, date, p);
  }

  lemma PastState(zone: Zone, setup: SeasonSetup, S: set<Fixture>, f: Fixture, team: TeamId)
    requires Prepared(setup) && f in S && Injective(FixtureTimeline(zone).Id(), S) && team in setup.season.Teams()
    requires forall x :: x in S ==> Ready(setup, x)
    ensures var tl := FixtureTimeline(zone);
      SoundState(zone, setup, StateAfter(zone, setup, tl.Batches(tl.Before(S, tl.Key(S, f)))), team, zone.dateOf(f.kickoff))
  {
    PastIsSound(zone, setup, S, f, team);
    PastRating(zone, setup, S, f, team);
  }

  lemma TimesAreSound(zone: Zone, setup: SeasonSetup, S: set<Fixture>, f: Fixture)
    requires Prepared(setup) && f in S && Ready(setup, f) && f.Consistent()
    ensures SoundTimes(zone, PointInTimeRow(zone, setup, S, f))
  {
    FixtureTimeline(zone).CutoffContract(S, f);
  }

  /** Every row of a season of consistent fixtures with valid priors is sound. */
  lemma RowsAreSound(zone: Zone, setup: SeasonSetup, S: set<Fixture>, f: Fixture)
    requires Prepared(setup) && f in S && Injective(FixtureTimeline(zone).Id(), S)
    requires forall x :: x in S ==> Ready(setup, x) && x.Consistent()
    requires forall team :: team in setup.priors ==> setup.priors[team].Valid()
    ensures SoundRow(zone, setup, PointInTimeRow(zone, setup, S, f))
  {
    var tl := FixtureTimeline(zone);
    PastState(zone, setup, S, f, f.home);
    PastState(zone, setup, S, f, f.away);
    PredictorsAreSound(zone, setup, StateAfter(zone, setup, tl.Batches(tl.Before(S, tl.Key(S, f)))), f);
    TimesAreSound(zone, setup, S, f);
  }

  /** Every published row of a built season is sound. */
  lemma SeasonRowsAreSound(zone: Zone, setup: SeasonSetup, S: set<Fixture>, row: FeatureRow)
    requires Prepared(setup) && Injective(FixtureTimeline(zone).Id(), S)
    requires BatchesReady(setup, FixtureTimeline(zone).Batches(S))
    requires forall x :: x in S ==> Ready(setup, x) && x.Consistent()
    requires forall team :: team in setup.priors ==> setup.priors[team].Valid()
    requires row in SeasonRows(zone, setup, FixtureTimeline(zone).Batches(S))
    ensures SoundRow(zone, setup, row)
  {
    var f := RowSource(zone, setup, S, row);
    RowsAreSound(zone, setup, S, f);
  }
}

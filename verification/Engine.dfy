/** Leakage-safe feature rows of a season, and the predictors of one upcoming fixture. */
module Engine {
  import opened Wrappers
  import opened Calendar
  import opened Collections
  import opened Batching
  import opened Fixtures
  import opened Chronology
  import opened Elo
  import opened Priors
  import opened Predictors
  import opened Replay

  datatype TrainingLabel = TrainingLabel(outcome: MatchOutcome, homeGoals: nat, awayGoals: nat)

  datatype FeatureRow = FeatureRow(
    fixture: FixtureId, home: TeamId, away: TeamId, kickoff: int, precision: KickoffPrecision,
    cutoff: int, predictors: PredictorSet, trainingLabel: TrainingLabel)

  datatype Provenance = Provenance(competition: string, season: string, source: string)

  datatype BuildError =
    | ProvenanceCompetition | ProvenanceSeason
    | FixtureCompetition(id: FixtureId) | FixtureSeason(id: FixtureId) | FixtureMembership(id: FixtureId)
    | FixtureNotFinished(id: FixtureId) | FixtureUnlabelled(id: FixtureId) | FixtureUntraceable(id: FixtureId)
    | PriorsDoNotCover | RatingsDoNotCover | Unorderable(cause: ChronologyError)

  datatype SeasonResult = SeasonResult(rows: seq<FeatureRow>, finalRatings: Ratings)

  // ---------------------------------------------------------------- rows as a function of the batches

  /** What a row needs of a fixture before it can be built. */
  predicate Ready(setup: SeasonSetup, f: Fixture) {
    && Completed(f) && f.outcome.Some?
    && f.home in setup.season.Teams() && f.away in setup.season.Teams()
  }

  ghost predicate AllReady(setup: SeasonSetup, fixtures: seq<Fixture>) {
    forall f :: f in fixtures ==> Ready(setup, f)
  }

  ghost predicate Prepared(setup: SeasonSetup) {
    setup.season.Valid() && setup.elo.Valid() && setup.Covers()
  }

  /** A row of a fixture, made from a state that must predate its batch. */
  function RowOf(zone: Zone, setup: SeasonSetup, state: ReplayState, cutoff: int, f: Fixture): FeatureRow
    requires Prepared(setup) && Ready(setup, f)
    requires state.teams.Keys == setup.season.Teams() == state.ratings.Keys
  {
    FeatureRow(f.id, f.home, f.away, f.kickoff, f.precision, cutoff, PredictorsFor(zone, f, state, setup),
               TrainingLabel(f.outcome.value, f.fullTime.value.home, f.fullTime.value.away))
  }

  function BatchRows(zone: Zone, setup: SeasonSetup, state: ReplayState, batch: FixtureBatch): (rows: seq<FeatureRow>)
    requires Prepared(setup) && AllReady(setup, batch.members)
    requires state.teams.Keys == setup.season.Teams() == state.ratings.Keys
    ensures |rows| == |batch.members|
    ensures forall i :: 0 <= i < |rows| ==> rows[i] == RowOf(zone, setup, state, batch.cutoff, batch.members[i])
  {
    seq(|batch.members|, i requires 0 <= i < |batch.members| =>
      assert batch.members[i] in batch.members;
      RowOf(zone, setup, state, batch.cutoff, batch.members[i]))
  }

  ghost predicate BatchesReady(setup: SeasonSetup, bs: seq<FixtureBatch>) {
    forall b :: b in bs ==> AllReady(setup, b.members)
  }

  /** All rows of a season: every batch reads the state left by the batches before it. */
  ghost function SeasonRows(zone: Zone, setup: SeasonSetup, bs: seq<FixtureBatch>): seq<FeatureRow>
    requires Prepared(setup) && BatchesReady(setup, bs)
  {
    if bs == [] then [] else
      var init := bs[..|bs| - 1];
      assert bs[|bs| - 1] in bs;
      SeasonRows(zone, setup, init) + BatchRows(zone, setup, StateAfter(zone, setup, init), bs[|bs| - 1])
  }

  /** The row a fixture must get: its predictors see exactly the fixtures strictly before its batch. */
  ghost function PointInTimeRow(zone: Zone, setup: SeasonSetup, S: set<Fixture>, f: Fixture): FeatureRow
    requires Prepared(setup) && Ready(setup, f)
  {
    var tl := FixtureTimeline(zone);
    var k := tl.Key(S, f);
    RowOf(zone, setup, StateAfter(zone, setup, tl.Batches(tl.Before(S, k))), tl.BatchAt(S, k).cutoff, f)
  }

  // ---------------------------------------------------------------- input checks

  function FixtureFault(f: Fixture, season: Season, provenance: Provenance): Option<BuildError> {
    if f.competition != PREMIER_LEAGUE then Some(FixtureCompetition(f.id))
    else if f.season != season.id then Some(FixtureSeason(f.id))
    else if f.home !in season.Teams() || f.away !in season.Teams() then Some(FixtureMembership(f.id))
    else if !f.status.Finished? then Some(FixtureNotFinished(f.id))
    else if f.outcome.None? || f.fullTime.None? then Some(FixtureUnlabelled(f.id))
    else if provenance.source !in f.sources then Some(FixtureUntraceable(f.id))
    else None
  }

  /** The first complaint about the inputs, in the order they are checked. */
  function InputFault(fixtures: seq<Fixture>, season: Season, provenance: Provenance): Option<BuildError> {
    if fixtures == [] then
      if provenance.competition != PREMIER_LEAGUE then Some(ProvenanceCompetition)
      else if provenance.season != season.id then Some(ProvenanceSeason)
      else None
    else
      var earlier := InputFault(fixtures[..|fixtures| - 1], season, provenance);
      if earlier.Some? then earlier else FixtureFault(fixtures[|fixtures| - 1], season, provenance)
  }

  lemma InputFaultStays(fixtures: seq<Fixture>, n: nat, season: Season, provenance: Provenance)
    requires n <= |fixtures| && InputFault(fixtures[..n], season, provenance).Some?
    ensures InputFault(fixtures, season, provenance) == InputFault(fixtures[..n], season, provenance)
  {
    forall m | n <= m < |fixtures|
      ensures InputFault(fixtures[..m], season, provenance).Some? ==>
                InputFault(fixtures[..m + 1], season, provenance) == InputFault(fixtures[..m], season, provenance)
    {
      assert fixtures[..m + 1][..m] == fixtures[..m];
    }
    StaysSettled((s: seq<Fixture>) => InputFault(s, season, provenance), (r: Option<BuildError>) => r.Some?, fixtures, n);
  }

  lemma {:induction false} NoFaultMeansReady(fixtures: seq<Fixture>, setup: SeasonSetup, provenance: Provenance)
    requires InputFault(fixtures, setup.season, provenance).None?
    ensures AllReady(setup, fixtures)
    ensures forall f :: f in fixtures ==> f.competition == PREMIER_LEAGUE && f.season == setup.season.id
    decreases |fixtures|
  {
    if fixtures != [] {
      var init, last := fixtures[..|fixtures| - 1], fixtures[|fixtures| - 1];
      assert fixtures == init + [last];
      NoFaultMeansReady(init, setup, provenance);
      assert FixtureFault(last, setup.season, provenance).None?;
      forall f | f in fixtures
        ensures Ready(setup, f) && f.competition == PREMIER_LEAGUE && f.season == setup.season.id
      {
        assert f in init || f == last;
      }
    }
  }

  /** The club is one of the season's members. */
  ghost predicate Plays(season: Season, team: TeamId) {
    exists m :: m in season.memberships && m.team == team
  }

  /** A finished and labelled fixture of the season, between two of its members and traceable to the source. */
  ghost predicate UsableFixture(f: Fixture, season: Season, source: string) {
    && f.competition == PREMIER_LEAGUE && f.season == season.id && Plays(season, f.home) && Plays(season, f.away)
    && f.status == Finished && f.fullTime.Some? && f.outcome.Some? && source in f.sources
  }

  lemma FaultlessIsUsable(f: Fixture, season: Season, provenance: Provenance)
    ensures FixtureFault(f, season, provenance).None? <==> UsableFixture(f, season, provenance.source)
  {
  }

  /** The inputs raise no complaint exactly when their provenance is the season's and every fixture can be built. */
  lemma {:induction false} InputsAccepted(fixtures: seq<Fixture>, season: Season, provenance: Provenance)
    ensures InputFault(fixtures, season, provenance).None? <==>
              && provenance.competition == PREMIER_LEAGUE && provenance.season == season.id
              && forall f :: f in fixtures ==> UsableFixture(f, season, provenance.source)
    decreases |fixtures|
  {
    if fixtures != [] {
      var init, last := fixtures[..|fixtures| - 1], fixtures[|fixtures| - 1];
      assert fixtures == init + [last];
      InputsAccepted(init, season, provenance);
      FaultlessIsUsable(last, season, provenance);
    }
  }

  method ValidateBuildInputs(fixtures: seq<Fixture>, season: Season, provenance: Provenance)
    returns (fault: Option<BuildError>)
    ensures fault == InputFault(fixtures, season, provenance)
  {
    assert fixtures[..0] == [];
    if provenance.competition != PREMIER_LEAGUE {
      InputFaultStays(fixtures, 0, season, provenance);
      return Some(ProvenanceCompetition);
    }
    if provenance.season != season.id {
      InputFaultStays(fixtures, 0, season, provenance);
      return Some(ProvenanceSeason);
    }
    for i := 0 to |fixtures|
      invariant InputFault(fixtures[..i], season, provenance).None?
    {
      assert fixtures[..i + 1][..i] == fixtures[..i];
      fault := FixtureFault(fixtures[i], season, provenance);
      if fault.Some? {
        InputFaultStays(fixtures, i + 1, season, provenance);
        return;
      }
    }
    assert fixtures[..|fixtures|] == fixtures;
    return None;
  }

  // ---------------------------------------------------------------- the historical build

  method CommitBatch(zone: Zone, teams: map<TeamId, seq<Observation>>, fixtures: seq<Fixture>)
    returns (r: map<TeamId, seq<Observation>>)
    requires forall f :: f in fixtures ==> f.fullTime.Some? && f.home in teams && f.away in teams
    ensures r == CommitAll(zone, teams, fixtures)
  {
    r := teams;
    assert fixtures[..0] == [];
    for i := 0 to |fixtures|
      invariant r == CommitAll(zone, teams, fixtures[..i])
    {
      assert fixtures[..i + 1][..i] == fixtures[..i];
      var f := fixtures[i];
      assert f in fixtures;
      r := r[f.home := r[f.home] + [Observe(zone, f, true)]];
      r := r[f.away := r[f.away] + [Observe(zone, f, false)]];
    }
    assert fixtures[..|fixtures|] == fixtures;
  }

  /** The Elo step of a batch whose clubs all have ratings. */
  method RateBatch(setup: SeasonSetup, ratings: Ratings, fixtures: seq<Fixture>) returns (r: Ratings)
    requires setup.elo.Valid() && Committable(ratings.Keys, fixtures)
    ensures r == AfterBatch(ratings, fixtures, setup.EloMoves())
  {
    var updated := UpdateEloBatch(ratings, fixtures, setup.elo, setup.curve);
    r := updated.value;
  }

  method AdvanceBatch(zone: Zone, setup: SeasonSetup, state: ReplayState, batch: FixtureBatch)
    returns (r: ReplayState)
    requires Prepared(setup) && state.teams.Keys == setup.season.Teams() == state.ratings.Keys
    requires Committable(setup.season.Teams(), batch.members)
    ensures r == Advance(zone, setup, state, batch)
  {
    var teams := CommitBatch(zone, state.teams, batch.members);
    var ratings := RateBatch(setup, state.ratings, batch.members);
    return ReplayState(teams, ratings, state.played + |batch.members|);
  }

  method MakeRows(zone: Zone, setup: SeasonSetup, state: ReplayState, batch: FixtureBatch)
    returns (rows: seq<FeatureRow>)
    requires Prepared(setup) && AllReady(setup, batch.members)
    requires state.teams.Keys == setup.season.Teams() == state.ratings.Keys
    ensures rows == BatchRows(zone, setup, state, batch)
  {
    rows := [];
    ghost var expected := BatchRows(zone, setup, state, batch);
    for i := 0 to |batch.members|
      invariant rows == expected[..i]
    {
      assert batch.members[i] in batch.members;
      TakeStep(expected, i);
      rows := rows + [RowOf(zone, setup, state, batch.cutoff, batch.members[i])];
    }
  }

  /** One more batch: its rows are appended and its fixtures committed. */
  lemma SeasonStep(zone: Zone, setup: SeasonSetup, batches: seq<FixtureBatch>, i: nat)
    requires Prepared(setup) && BatchesReady(setup, batches) && i < |batches|
    ensures BatchesReady(setup, batches[..i]) && BatchesReady(setup, batches[..i + 1])
    ensures AllReady(setup, batches[i].members)
    ensures var state := StateAfter(zone, setup, batches[..i]);
      && SeasonRows(zone, setup, batches[..i + 1])
      == SeasonRows(zone, setup, batches[..i]) + BatchRows(zone, setup, state, batches[i])
      && StateAfter(zone, setup, batches[..i + 1]) == Advance(zone, setup, state, batches[i])
  {
    assert batches[..i + 1][..i] == batches[..i];
    assert batches[i] in batches;
  }

  method RunBatch(zone: Zone, setup: SeasonSetup, state: ReplayState, batch: FixtureBatch)
    returns (rows: seq<FeatureRow>, after: ReplayState)
    requires Prepared(setup) && AllReady(setup, batch.members)
    requires state.teams.Keys == setup.season.Teams() == state.ratings.Keys
    ensures rows == BatchRows(zone, setup, state, batch) && after == Advance(zone, setup, state, batch)
  {
    rows := MakeRows(zone, setup, state, batch);
    after := AdvanceBatch(zone, setup, state, batch);
  }

  /** Runs through the batches; each makes its rows from the state before it and then commits. */
  method RunSeason(zone: Zone, setup: SeasonSetup, batches: seq<FixtureBatch>) returns (r: SeasonResult)
    requires Prepared(setup) && BatchesReady(setup, batches)
    ensures r.rows == SeasonRows(zone, setup, batches)
    ensures r.finalRatings == StateAfter(zone, setup, batches).ratings
  {
    var state := setup.Start();
    var rows: seq<FeatureRow> := [];
    assert batches[..0] == [];
    for i := 0 to |batches|
      invariant state == StateAfter(zone, setup, batches[..i])
      invariant BatchesReady(setup, batches[..i])
      invariant rows == SeasonRows(zone, setup, batches[..i])
    {
      SeasonStep(zone, setup, batches, i);
      var made, after := RunBatch(zone, setup, state, batches[i]);
      rows := rows + made;
      state := after;
    }
    assert batches[..|batches|] == batches;
    return SeasonResult(rows, state.ratings);
  }

  /** The setup used when priors or ratings are not supplied. */
  ghost predicate Supplies(
      setup: SeasonSetup, season: Season, priors: Option<map<TeamId, OpeningPrior>>, ratings: Option<Ratings>,
      p: EloParameters, curve: LogisticCurve)
  {
    && setup.season == season && setup.elo == p && setup.curve == curve
    && (if priors.Some? then setup.priors == priors.value else ArePriors(season, None, setup.priors))
    && (if ratings.Some? then setup.ratings == ratings.value else IsOpening(season, None, p, setup.ratings))
  }

  lemma BatchesAreReady(setup: SeasonSetup, zone: Zone, fixtures: seq<Fixture>)
    requires AllReady(setup, fixtures) && Orderable(fixtures)
    ensures BatchesReady(setup, FixtureTimeline(zone).Batches(Elements(fixtures)))
  {
    var S := Elements(fixtures);
    OrderableIsInjective(zone, fixtures);
    FixtureTimeline(zone).MembersAreItems(S);
    assert forall f :: f in S ==> f in fixtures;
  }

  lemma OrderableIsInjective(zone: Zone, fixtures: seq<Fixture>)
    requires Orderable(fixtures)
    ensures Injective(FixtureTimeline(zone).Id(), Elements(fixtures))
  {
    forall x, y | x in Elements(fixtures) && y in Elements(fixtures) && x.id == y.id
      ensures x == y
    {
      var i :| 0 <= i < |fixtures| && fixtures[i] == x;
      var j :| 0 <= j < |fixtures| && fixtures[j] == y;
    }
  }

  /** The complaint about the inputs of a season, in the order the checks are made. */
  function BuildFault(
      fixtures: seq<Fixture>, season: Season, provenance: Provenance,
      openingPriors: Option<map<TeamId, OpeningPrior>>, initialRatings: Option<Ratings>): Option<BuildError>
  {
    if InputFault(fixtures, season, provenance).Some? then InputFault(fixtures, season, provenance)
    else if openingPriors.Some? && openingPriors.value.Keys != season.Teams() then Some(PriorsDoNotCover)
    else if initialRatings.Some? && initialRatings.value.Keys != season.Teams() then Some(RatingsDoNotCover)
    else if ChronologyFault(fixtures).Some? then Some(Unorderable(ChronologyFault(fixtures).value))
    else None
  }

  /** Builds a season and returns its rows and terminal Elo ratings. */
  method BuildSeasonFeatureResult(
      zone: Zone, fixtures: seq<Fixture>, season: Season, provenance: Provenance,
      openingPriors: Option<map<TeamId, OpeningPrior>>, initialRatings: Option<Ratings>,
      p: EloParameters, curve: LogisticCurve)
    returns (r: Result<SeasonResult, BuildError>, ghost setup: SeasonSetup)
    requires season.Valid() && p.Valid()
    ensures Supplies(setup, season, openingPriors, initialRatings, p, curve)
    ensures r.Success? <==>
              && InputFault(fixtures, season, provenance).None?
              && (openingPriors.Some? ==> openingPriors.value.Keys == season.Teams())
              && (initialRatings.Some? ==> initialRatings.value.Keys == season.Teams())
              && Orderable(fixtures)
    ensures r.Failure? ==> BuildFault(fixtures, season, provenance, openingPriors, initialRatings) == Some(r.error)
    ensures r.Success? ==>
              var batches := FixtureTimeline(zone).Batches(Elements(fixtures));
              && Prepared(setup) && BatchesReady(setup, batches)
              && r.value.rows == SeasonRows(zone, setup, batches)
              && r.value.finalRatings == StateAfter(zone, setup, batches).ratings
  {
    var defaultPriors := BuildSeasonOpeningPriors(season, None, None);
    var defaultRatings := InitializeSeasonRatings(season, None, p);
    var priors := if openingPriors.Some? then openingPriors.value else defaultPriors.value;
    var ratings := if initialRatings.Some? then initialRatings.value else defaultRatings.value;
    var used := SeasonSetup(season, priors, ratings, p, curve);
    setup := used;
    NoFaultAnywhere(fixtures);
    var fault := ValidateBuildInputs(fixtures, season, provenance);
    if fault.Some? {
      return Failure(fault.value), setup;
    }
    if priors.Keys != season.Teams() {
      return Failure(PriorsDoNotCover), setup;
    }
    if ratings.Keys != season.Teams() {
      return Failure(RatingsDoNotCover), setup;
    }
    var batches := ChronologicalFixtureBatches(fixtures, zone);
    if batches.Failure? {
      return Failure(Unorderable(batches.error)), setup;
    }
    NoFaultMeansReady(fixtures, used, provenance);
    BatchesAreReady(used, zone, fixtures);
    var result := RunSeason(zone, used, batches.value);
    return Success(result), setup;
  }

  // ---------------------------------------------------------------- one upcoming fixture

  datatype UpcomingError =
    | NotScheduled | ScopeMismatch | OutsideSeason | UpcomingPriors | UpcomingRatings | RepeatsFixture
    | UpcomingOrder(cause: ChronologyError) | NotCompletedResult | StateMismatch

  /** The complaint about the upcoming fixture or its setup, in the order the checks are made. */
  function UpcomingFault(setup: SeasonSetup, f: Fixture): Option<UpcomingError> {
    if !f.status.Scheduled? then Some(NotScheduled)
    else if f.competition != PREMIER_LEAGUE || f.season != setup.season.id then Some(ScopeMismatch)
    else if f.home !in setup.season.Teams() || f.away !in setup.season.Teams() then Some(OutsideSeason)
    else if setup.priors.Keys != setup.season.Teams() then Some(UpcomingPriors)
    else if setup.ratings.Keys != setup.season.Teams() then Some(UpcomingRatings)
    else None
  }

  function CompletedFault(setup: SeasonSetup, c: Fixture): Option<UpcomingError> {
    if !c.status.Finished? || c.fullTime.None? || c.outcome.None? then Some(NotCompletedResult)
    else if c.competition != PREMIER_LEAGUE || c.season != setup.season.id
         || c.home !in setup.season.Teams() || c.away !in setup.season.Teams() then Some(StateMismatch)
    else None
  }

  /** What an upcoming fixture must be, and what its setup must cover. */
  lemma UpcomingAccepted(setup: SeasonSetup, f: Fixture)
    ensures UpcomingFault(setup, f).None? <==>
              && f.status == Scheduled && f.competition == PREMIER_LEAGUE && f.season == setup.season.id
              && Plays(setup.season, f.home) && Plays(setup.season, f.away) && setup.Covers()
  {
  }

  /** What a completed fixture must be. */
  lemma CompletedAccepted(setup: SeasonSetup, c: Fixture)
    ensures CompletedFault(setup, c).None? <==>
              && c.status == Finished && c.fullTime.Some? && c.outcome.Some?
              && c.competition == PREMIER_LEAGUE && c.season == setup.season.id
              && Plays(setup.season, c.home) && Plays(setup.season, c.away)
  {
  }

  /** The complaint about the first unusable fixture. */
  function MembersFault(setup: SeasonSetup, fixtures: seq<Fixture>): Option<UpcomingError> {
    if fixtures == [] then None
    else if CompletedFault(setup, fixtures[0]).Some? then CompletedFault(setup, fixtures[0])
    else MembersFault(setup, fixtures[1..])
  }

  function BatchesFault(setup: SeasonSetup, bs: seq<FixtureBatch>): Option<UpcomingError> {
    MembersFault(setup, Timeline.Flatten(bs))
  }

  lemma {:induction false} MembersFaultNone(setup: SeasonSetup, fixtures: seq<Fixture>)
    ensures MembersFault(setup, fixtures).None? <==> forall c :: c in fixtures ==> CompletedFault(setup, c).None?
    decreases |fixtures|
  {
    if fixtures != [] {
      MembersFaultNone(setup, fixtures[1..]);
      assert fixtures[0] in fixtures;
      assert forall c :: c in fixtures <==> c == fixtures[0] || c in fixtures[1..];
    }
  }

  lemma {:induction false} MembersFaultConcat(setup: SeasonSetup, a: seq<Fixture>, b: seq<Fixture>)
    ensures MembersFault(setup, a + b)
         == if MembersFault(setup, a).Some? then MembersFault(setup, a) else MembersFault(setup, b)
    decreases |a|
  {
    if a == [] {
      assert a + b == b;
    } else {
      assert (a + b)[1..] == a[1..] + b;
      MembersFaultConcat(setup, a[1..], b);
    }
  }

  lemma MembersAreCommittable(setup: SeasonSetup, fixtures: seq<Fixture>)
    requires MembersFault(setup, fixtures).None?
    ensures Committable(setup.season.Teams(), fixtures)
  {
    MembersFaultNone(setup, fixtures);
    forall c | c in fixtures
      ensures Completed(c) && c.home in setup.season.Teams() && c.away in setup.season.Teams()
    {
      assert CompletedFault(setup, c).None?;
    }
  }

  method CheckMembers(setup: SeasonSetup, fixtures: seq<Fixture>) returns (fault: Option<UpcomingError>)
    ensures fault == MembersFault(setup, fixtures)
  {
    for i := 0 to |fixtures|
      invariant MembersFault(setup, fixtures) == MembersFault(setup, fixtures[i..])
    {
      fault := CompletedFault(setup, fixtures[i]);
      if fault.Some? {
        return;
      }
      assert fixtures[i..][1..] == fixtures[i + 1..];
    }
    return None;
  }

  lemma BatchFaultInPrefix(setup: SeasonSetup, bs: seq<FixtureBatch>, i: nat)
    requires i < |bs| && BatchesFault(setup, bs[..i]).None?
    ensures BatchesFault(setup, bs[..i + 1]) == MembersFault(setup, bs[i].members)
    ensures BatchesFault(setup, bs[..i + 1]).Some? ==> BatchesFault(setup, bs) == BatchesFault(setup, bs[..i + 1])
  {
    TakeStep(bs, i);
    Timeline.FlattenSnoc(bs[..i], bs[i]);
    MembersFaultConcat(setup, Timeline.Flatten(bs[..i]), bs[i].members);
    Timeline.FlattenConcat(bs[..i + 1], bs[i + 1..]);
    assert bs == bs[..i + 1] + bs[i + 1..];
    MembersFaultConcat(setup, Timeline.Flatten(bs[..i + 1]), Timeline.Flatten(bs[i + 1..]));
  }

  method ReplayCompleted(zone: Zone, setup: SeasonSetup, batches: seq<FixtureBatch>)
    returns (r: Result<ReplayState, UpcomingError>)
    requires Prepared(setup)
    ensures r.Success? <==> BatchesFault(setup, batches).None?
    ensures r.Success? ==> r.value == StateAfter(zone, setup, batches)
    ensures r.Failure? ==> BatchesFault(setup, batches) == Some(r.error)
  {
    var state := setup.Start();
    assert batches[..0] == [];
    for i := 0 to |batches|
      invariant state == StateAfter(zone, setup, batches[..i])
      invariant BatchesFault(setup, batches[..i]).None?
    {
      assert batches[..i + 1][..i] == batches[..i];
      BatchFaultInPrefix(setup, batches, i);
      var fault := CheckMembers(setup, batches[i].members);
      if fault.Some? {
        return Failure(fault.value);
      }
      MembersAreCommittable(setup, batches[i].members);
      state := AdvanceBatch(zone, setup, state, batches[i]);
    }
    assert batches[..|batches|] == batches;
    return Success(state);
  }

  function IdsOf(fixtures: seq<Fixture>): seq<FixtureId> {
    seq(|fixtures|, i requires 0 <= i < |fixtures| => fixtures[i].id)
  }

  lemma OrderableIsUnique(fixtures: seq<Fixture>)
    ensures Orderable(fixtures) ==> Unique(IdsOf(fixtures))
  {
    if Orderable(fixtures) {
      OrderableHasNoFault(fixtures);
      forall i, j | 0 <= i < j < |fixtures|
        ensures fixtures[i].id != fixtures[j].id
      {
        assert FaultAt(fixtures, j).None?;
      }
    }
  }

  /** The complaint about the completed fixtures, in the order the checks are made. */
  ghost function ReplayFault(zone: Zone, setup: SeasonSetup, completed: seq<Fixture>): Option<UpcomingError> {
    if !Unique(IdsOf(completed)) then Some(RepeatsFixture)
    else if ChronologyFault(completed).Some? then Some(UpcomingOrder(ChronologyFault(completed).value))
    else BatchesFault(setup, FixtureTimeline(zone).Batches(Elements(completed)))
  }

  method ReplayFixtures(zone: Zone, setup: SeasonSetup, completed: seq<Fixture>)
    returns (r: Result<ReplayState, UpcomingError>)
    requires Prepared(setup)
    ensures r.Success? <==>
              Orderable(completed) && BatchesFault(setup, FixtureTimeline(zone).Batches(Elements(completed))).None?
    ensures r.Success? ==> r.value == StateAfter(zone, setup, FixtureTimeline(zone).Batches(Elements(completed)))
    ensures r.Success? <==> ReplayFault(zone, setup, completed).None?
    ensures r.Failure? ==> ReplayFault(zone, setup, completed) == Some(r.error)
  {
    var ids := IdsOf(completed);
    UniqueCount(ids);
    OrderableIsUnique(completed);
    NoFaultAnywhere(completed);
    if |set id | id in ids| != |ids| {
      return Failure(RepeatsFixture);
    }
    var batches := ChronologicalFixtureBatches(completed, zone);
    if batches.Failure? {
      return Failure(UpcomingOrder(batches.error));
    }
    r := ReplayCompleted(zone, setup, batches.value);
  }

  /** The whole answer for one upcoming fixture: its predictors or the first complaint. */
  ghost function UpcomingResult(zone: Zone, setup: SeasonSetup, completed: seq<Fixture>, f: Fixture)
    : Result<PredictorSet, UpcomingError>
    requires setup.season.Valid() && setup.elo.Valid()
  {
    if UpcomingFault(setup, f).Some? then Failure(UpcomingFault(setup, f).value)
    else if ReplayFault(zone, setup, completed).Some? then Failure(ReplayFault(zone, setup, completed).value)
    else Success(UpcomingPredictors(zone, setup, Elements(completed), f))
  }

  /** Replays completed state and builds the predictors of one upcoming fixture. */
  method BuildUpcomingPredictorSet(zone: Zone, completed: seq<Fixture>, f: Fixture, setup: SeasonSetup)
    returns (r: Result<PredictorSet, UpcomingError>)
    requires setup.season.Valid() && setup.elo.Valid()
    ensures r.Success? <==>
              && UpcomingFault(setup, f).None? && Orderable(completed)
              && BatchesFault(setup, FixtureTimeline(zone).Batches(Elements(completed))).None?
    ensures r == UpcomingResult(zone, setup, completed, f)
  {
    var fault := UpcomingFault(setup, f);
    if fault.Some? {
      return Failure(fault.value);
    }
    var state :- ReplayFixtures(zone, setup, completed);
    return Success(PredictorsFor(zone, f, state, setup));
  }

  /** The predictors of a fixture after exactly these completed fixtures. */
  ghost function UpcomingPredictors(zone: Zone, setup: SeasonSetup, completed: set<Fixture>, f: Fixture): PredictorSet
    requires Prepared(setup) && f.home in setup.season.Teams() && f.away in setup.season.Teams()
  {
    PredictorsFor(zone, f, StateAfter(zone, setup, FixtureTimeline(zone).Batches(completed)), setup)
  }

  /** A completed list is accepted exactly when every fixture in it is. */
  lemma AcceptedFixtureByFixture(zone: Zone, setup: SeasonSetup, completed: seq<Fixture>)
    requires Orderable(completed)
    ensures BatchesFault(setup, FixtureTimeline(zone).Batches(Elements(completed))).None? <==>
            forall c :: c in completed ==> CompletedFault(setup, c).None?
  {
    var tl := FixtureTimeline(zone);
    var S := Elements(completed);
    OrderableIsInjective(zone, completed);
    tl.BatchesPartition(S);
    MembersFaultNone(setup, Timeline.Flatten(tl.Batches(S)));
    forall c
      ensures c in completed <==> c in Timeline.Flatten(tl.Batches(S))
    {
      assert c in completed <==> c in S;
      assert c in Timeline.Flatten(tl.Batches(S)) <==> c in Elements(Timeline.Flatten(tl.Batches(S)));
    }
  }
}

/** Opening priors: what a season starts from, read off the finished season before it. */
module Priors {
  import opened Wrappers
  import opened Collections
  import opened Fixtures

  const OPENING_PRIOR_WEIGHT_MATCHES := 5
  const FIXED_RESULT_RATE: real := 1.0 / 3.0
  const FIXED_POINTS_PER_MATCH: real := 4.0 / 3.0
  const FIXED_GOALS_PER_MATCH: real := 1.5

  datatype PriorSource = FixedBaseline | PreviousLeague | PreviousTeam

  datatype OpeningPrior = OpeningPrior(
    source: PriorSource, referenceSeason: Option<string>, referenceMatches: nat,
    pointsPerMatch: real, winRate: real, drawRate: real, lossRate: real,
    goalsForPerMatch: real, goalsAgainstPerMatch: real)
  {
    /** The validator of a prior, with exact equality in place of its tolerance. */
    predicate Valid() {
      && (source.FixedBaseline? <==> referenceSeason.None?)
      && (source.FixedBaseline? <==> referenceMatches == 0)
      && pointsPerMatch >= 0.0 && goalsForPerMatch >= 0.0 && goalsAgainstPerMatch >= 0.0
      && 0.0 <= winRate <= 1.0 && 0.0 <= drawRate <= 1.0 && 0.0 <= lossRate <= 1.0
      && winRate + drawRate + lossRate == 1.0
      && pointsPerMatch == 3.0 * winRate + drawRate
    }
  }

  datatype PriorError =
    | HistoryMismatch | SeasonsOverlap
    | WrongCompetition(id: FixtureId) | WrongSeason(id: FixtureId)
    | OutsideMembership(id: FixtureId) | NotCompleted(id: FixtureId)
    | NoReferenceMatches | ContinuedTeamAbsent(team: TeamId) | PromotedTeamPresent(team: TeamId)

  // ---------------------------------------------------------------- tallies

  /** What a summary has counted. */
  datatype Tally = Tally(
    matches: nat, wins: nat, draws: nat, losses: nat, points: nat, goalsFor: nat, goalsAgainst: nat)
  {
    function Plus(goals: nat, conceded: nat): Tally {
      Tally(
        matches + 1,
        wins + (if goals > conceded then 1 else 0),
        draws + (if goals == conceded then 1 else 0),
        losses + (if goals < conceded then 1 else 0),
        points + (if goals > conceded then 3 else if goals == conceded then 1 else 0),
        goalsFor + goals, goalsAgainst + conceded)
    }

    predicate Balanced() {
      matches == wins + draws + losses && points == 3 * wins + draws
    }
  }

  const NOTHING := Tally(0, 0, 0, 0, 0, 0, 0)

  /** A club's results in a list of fixtures. */
  function ClubTally(team: TeamId, fixtures: seq<Fixture>): Tally {
    if fixtures == [] then NOTHING else
      WithFixture(ClubTally(team, fixtures[..|fixtures| - 1]), team, fixtures[|fixtures| - 1])
  }

  function WithFixture(t: Tally, team: TeamId, f: Fixture): Tally {
    var score := ScoreOf(f);
    var atHome := if f.home == team then t.Plus(score.home, score.away) else t;
    if f.away == team then atHome.Plus(score.away, score.home) else atHome
  }

  function LeagueWithFixture(t: Tally, f: Fixture): Tally {
    var score := ScoreOf(f);
    t.Plus(score.home, score.away).Plus(score.away, score.home)
  }

  /** Both sides of every fixture. */
  function LeagueTally(fixtures: seq<Fixture>): Tally {
    if fixtures == [] then NOTHING else
      LeagueWithFixture(LeagueTally(fixtures[..|fixtures| - 1]), fixtures[|fixtures| - 1])
  }

  lemma {:induction false} ClubTallyBalanced(team: TeamId, fixtures: seq<Fixture>)
    ensures ClubTally(team, fixtures).Balanced()
    decreases |fixtures|
  {
    if fixtures != [] {
      ClubTallyBalanced(team, fixtures[..|fixtures| - 1]);
    }
  }

  /** In any league wins balance losses, goals for balance goals against, and draws cost one point each. */
  lemma {:induction false} LeagueTallyBalanced(fixtures: seq<Fixture>)
    ensures var t := LeagueTally(fixtures);
      && t.Balanced()
      && t.matches == 2 * |fixtures|
      && t.wins == t.losses && t.goalsFor == t.goalsAgainst
      && 2 * t.points == 6 * |fixtures| - t.draws
    decreases |fixtures|
  {
    if fixtures != [] {
      LeagueTallyBalanced(fixtures[..|fixtures| - 1]);
    }
  }

  function ScoreOf(f: Fixture): Score {
    if f.fullTime.Some? then f.fullTime.value else Score(0, 0)
  }

  /** The mutable counter kept for each club and for the league. */
  class Summary {
    var matches: nat
    var wins: nat
    var draws: nat
    var losses: nat
    var points: nat
    var goalsFor: nat
    var goalsAgainst: nat

    function Counted(): Tally
      reads this
    {
      Tally(matches, wins, draws, losses, points, goalsFor, goalsAgainst)
    }

    constructor ()
      ensures Counted() == NOTHING
    {
      matches, wins, draws, losses := 0, 0, 0, 0;
      points, goalsFor, goalsAgainst := 0, 0, 0;
    }

    method Observe(goals: nat, conceded: nat)
      modifies this
      ensures Counted() == old(Counted()).Plus(goals, conceded)
    {
      matches := matches + 1;
      goalsFor := goalsFor + goals;
      goalsAgainst := goalsAgainst + conceded;
      if goals > conceded {
        wins := wins + 1;
        points := points + 3;
      } else if goals == conceded {
        draws := draws + 1;
        points := points + 1;
      } else {
        losses := losses + 1;
      }
    }
  }

  /** The complaint about a previous-season fixture, if any. */
  function HistoryFault(f: Fixture, season: Season): Option<PriorError> {
    if f.competition != PREMIER_LEAGUE then Some(WrongCompetition(f.id))
    else if f.season != season.id then Some(WrongSeason(f.id))
    else if f.home !in season.Teams() || f.away !in season.Teams() then Some(OutsideMembership(f.id))
    else if !f.status.Finished? || f.fullTime.None? then Some(NotCompleted(f.id))
    else None
  }

  ghost predicate UsableHistory(fixtures: seq<Fixture>, season: Season) {
    forall f :: f in fixtures ==> HistoryFault(f, season).None?
  }

  /** The first complaint about the previous season's fixtures. */
  function FirstHistoryFault(fixtures: seq<Fixture>, season: Season): Option<PriorError> {
    if fixtures == [] then None else
      var earlier := FirstHistoryFault(fixtures[..|fixtures| - 1], season);
      if earlier.Some? then earlier else HistoryFault(fixtures[|fixtures| - 1], season)
  }

  lemma HistoryFaultStays(fixtures: seq<Fixture>, n: nat, season: Season)
    requires n <= |fixtures| && FirstHistoryFault(fixtures[..n], season).Some?
    ensures FirstHistoryFault(fixtures, season) == FirstHistoryFault(fixtures[..n], season)
  {
    forall m | n <= m < |fixtures|
      ensures FirstHistoryFault(fixtures[..m], season).Some? ==>
                FirstHistoryFault(fixtures[..m + 1], season) == FirstHistoryFault(fixtures[..m], season)
    {
      assert fixtures[..m + 1][..m] == fixtures[..m];
    }
    StaysSettled((s: seq<Fixture>) => FirstHistoryFault(s, season), (r: Option<PriorError>) => r.Some?, fixtures, n);
  }

  lemma {:induction false} UsableHasNoFault(fixtures: seq<Fixture>, season: Season)
    ensures FirstHistoryFault(fixtures, season).None? <==> UsableHistory(fixtures, season)
    decreases |fixtures|
  {
    if fixtures != [] {
      var init, last := fixtures[..|fixtures| - 1], fixtures[|fixtures| - 1];
      assert fixtures == init + [last];
      UsableHasNoFault(init, season);
      assert forall f :: f in fixtures <==> f in init || f == last;
    }
  }

  /** Every club has its own counter, and the league's is separate from all of them. */
  ghost predicate Separate(summaries: map<TeamId, Summary>, league: Summary) {
    && (forall t :: t in summaries ==> summaries[t] != league)
    && (forall t, u :: t in summaries && u in summaries && t != u ==> summaries[t] != summaries[u])
  }

  method NewSummaries(teams: set<TeamId>) returns (summaries: map<TeamId, Summary>, league: Summary)
    ensures summaries.Keys == teams && Separate(summaries, league)
    ensures fresh(league) && forall t :: t in summaries ==> fresh(summaries[t])
    ensures league.Counted() == NOTHING && forall t :: t in summaries ==> summaries[t].Counted() == NOTHING
  {
    league := new Summary();
    summaries := map[];
    var pending := teams;
    while pending != {}
      invariant pending <= teams && summaries.Keys == teams - pending
      invariant Separate(summaries, league)
      invariant fresh(league) && forall t :: t in summaries ==> fresh(summaries[t])
      invariant league.Counted() == NOTHING && forall t :: t in summaries ==> summaries[t].Counted() == NOTHING
      decreases |pending|
    {
      ghost var some := AnyMember(pending);
      var t :| t in pending;
      var summary := new Summary();
      summaries := summaries[t := summary];
      pending := pending - {t};
    }
  }

  lemma TallyStep(team: TeamId, fixtures: seq<Fixture>, i: nat)
    requires i < |fixtures|
    ensures ClubTally(team, fixtures[..i + 1]) == WithFixture(ClubTally(team, fixtures[..i]), team, fixtures[i])
    ensures LeagueTally(fixtures[..i + 1]) == LeagueWithFixture(LeagueTally(fixtures[..i]), fixtures[i])
  {
    assert fixtures[..i + 1][..i] == fixtures[..i];
  }

  /** Checks one fixture; if usable, both clubs and, twice, the league observe its result. */
  method ObserveFixture(summaries: map<TeamId, Summary>, league: Summary, f: Fixture, season: Season)
    returns (fault: Option<PriorError>)
    requires summaries.Keys == season.Teams() && Separate(summaries, league)
    modifies league, summaries.Values
    ensures fault == HistoryFault(f, season)
    ensures fault.None? ==>
              && (forall t :: t in summaries ==> summaries[t].Counted() == WithFixture(old(summaries[t].Counted()), t, f))
              && league.Counted() == LeagueWithFixture(old(league.Counted()), f)
  {
    fault := HistoryFault(f, season);
    if fault.Some? {
      return;
    }
    var score := f.fullTime.value;
    summaries[f.home].Observe(score.home, score.away);
    summaries[f.away].Observe(score.away, score.home);
    league.Observe(score.home, score.away);
    league.Observe(score.away, score.home);
  }

  ghost function Tallies(summaries: map<TeamId, Summary>): map<TeamId, Tally>
    reads summaries.Values
  {
    map t | t in summaries :: summaries[t].Counted()
  }

  ghost predicate ClubTallies(tallies: map<TeamId, Tally>, fixtures: seq<Fixture>) {
    forall t :: t in tallies ==> tallies[t] == ClubTally(t, fixtures)
  }

  lemma TalliesStep(before: map<TeamId, Tally>, after: map<TeamId, Tally>, fixtures: seq<Fixture>, i: nat)
    requires i < |fixtures| && ClubTallies(before, fixtures[..i])
    requires after.Keys == before.Keys
    requires forall t :: t in after ==> after[t] == WithFixture(before[t], t, fixtures[i])
    ensures ClubTallies(after, fixtures[..i + 1])
    ensures LeagueTally(fixtures[..i + 1]) == LeagueWithFixture(LeagueTally(fixtures[..i]), fixtures[i])
  {
    forall t | t in after
      ensures after[t] == ClubTally(t, fixtures[..i + 1])
    {
      TallyStep(t, fixtures, i);
    }
    TallyStep(0, fixtures, i);
  }

  /** Runs the counters over the fixtures, up to the first unusable one. */
  method CountHistory(summaries: map<TeamId, Summary>, league: Summary, fixtures: seq<Fixture>, season: Season)
    returns (fault: Option<PriorError>)
    requires summaries.Keys == season.Teams() && Separate(summaries, league)
    requires ClubTallies(Tallies(summaries), []) && league.Counted() == NOTHING
    modifies league, summaries.Values
    ensures fault == FirstHistoryFault(fixtures, season)
    ensures fault.None? ==> ClubTallies(Tallies(summaries), fixtures) && league.Counted() == LeagueTally(fixtures)
  {
    assert fixtures[..0] == [];
    for i := 0 to |fixtures|
      invariant FirstHistoryFault(fixtures[..i], season).None?
      invariant ClubTallies(Tallies(summaries), fixtures[..i])
      invariant league.Counted() == LeagueTally(fixtures[..i])
    {
      assert fixtures[..i + 1][..i] == fixtures[..i];
      ghost var before := Tallies(summaries);
      fault := ObserveFixture(summaries, league, fixtures[i], season);
      if fault.Some? {
        HistoryFaultStays(fixtures, i + 1, season);
        return;
      }
      TalliesStep(before, Tallies(summaries), fixtures, i);
    }
    assert fixtures[..|fixtures|] == fixtures;
    fault := None;
  }

  /** Counts the previous season club by club and for the whole league. */
  method PreviousSummaries(fixtures: seq<Fixture>, season: Season)
    returns (r: Result<(map<TeamId, Summary>, Summary), PriorError>)
    ensures r.Success? <==> UsableHistory(fixtures, season)
    ensures r.Success? ==>
              && r.value.0.Keys == season.Teams() && ClubTallies(Tallies(r.value.0), fixtures)
              && r.value.1.Counted() == LeagueTally(fixtures)
    ensures r.Failure? ==> FirstHistoryFault(fixtures, season) == Some(r.error)
  {
    UsableHasNoFault(fixtures, season);
    var summaries, league := NewSummaries(season.Teams());
    var fault := CountHistory(summaries, league, fixtures, season);
    if fault.Some? {
      return Failure(fault.value);
    }
    return Success((summaries, league));
  }

  // ---------------------------------------------------------------- priors

  function FixedPrior(): (p: OpeningPrior)
    ensures p.Valid() && p.source.FixedBaseline?
    ensures p.winRate == p.drawRate == p.lossRate && p.goalsForPerMatch == 1.5 == p.goalsAgainstPerMatch
  {
    OpeningPrior(FixedBaseline, None, 0, FIXED_POINTS_PER_MATCH,
                 FIXED_RESULT_RATE, FIXED_RESULT_RATE, FIXED_RESULT_RATE,
                 FIXED_GOALS_PER_MATCH, FIXED_GOALS_PER_MATCH)
  }

  function Share(count: nat, n: nat): real
    requires n > 0
  {
    count as real / n as real
  }

  lemma ShareAdds(a: nat, b: nat, n: nat)
    requires n > 0
    ensures Share(a + b, n) == Share(a, n) + Share(b, n)
  {
  }

  lemma ShareBounds(a: nat, n: nat)
    requires n > 0
    ensures Share(a, n) >= 0.0 && Share(n, n) == 1.0
  {
  }

  /** Rates of a balanced tally sum to one and give its points. */
  lemma RatesOf(w: nat, d: nat, l: nat, n: nat)
    requires n > 0 && n == w + d + l
    ensures 0.0 <= Share(w, n) <= 1.0 && 0.0 <= Share(d, n) <= 1.0 && 0.0 <= Share(l, n) <= 1.0
    ensures Share(w, n) + Share(d, n) + Share(l, n) == 1.0
    ensures Share(3 * w + d, n) == 3.0 * Share(w, n) + Share(d, n)
  {
    ShareBounds(w, n);
    ShareBounds(d, n);
    ShareBounds(l, n);
    ShareAdds(w, d, n);
    ShareAdds(w + d, l, n);
    ShareAdds(w, w, n);
    ShareAdds(w + w, w, n);
    ShareAdds(w + w + w, d, n);
  }

  /** Every prior taken from a balanced tally passes its own validator. */
  function PriorFromTally(t: Tally, source: PriorSource, season: string): (r: Result<OpeningPrior, PriorError>)
    requires t.Balanced() && !source.FixedBaseline?
    ensures r.Success? <==> t.matches > 0
    ensures r.Success? ==> r.value.Valid() && r.value.referenceMatches == t.matches
    ensures r.Failure? ==> r.error == NoReferenceMatches
  {
    if t.matches == 0 then Failure(NoReferenceMatches) else
      RatesOf(t.wins, t.draws, t.losses, t.matches);
      ShareBounds(t.points, t.matches);
      ShareBounds(t.goalsFor, t.matches);
      ShareBounds(t.goalsAgainst, t.matches);
      Success(OpeningPrior(source, Some(season), t.matches, Share(t.points, t.matches),
                           Share(t.wins, t.matches), Share(t.draws, t.matches), Share(t.losses, t.matches),
                           Share(t.goalsFor, t.matches), Share(t.goalsAgainst, t.matches)))
  }

  /** The prior a member must get from the previous season. */
  function MemberPrior(m: Membership, fixtures: seq<Fixture>, previous: Season): Result<OpeningPrior, PriorError> {
    if m.entry.Continued? then
      if m.team !in previous.Teams() then Failure(ContinuedTeamAbsent(m.team))
      else
        ClubTallyBalanced(m.team, fixtures);
        PriorFromTally(ClubTally(m.team, fixtures), PreviousTeam, previous.id)
    else
      if m.team in previous.Teams() then Failure(PromotedTeamPresent(m.team))
      else
        LeagueTallyBalanced(fixtures);
        PriorFromTally(LeagueTally(fixtures), PreviousLeague, previous.id)
  }

  /** The whole contract of a season's opening priors. */
  ghost predicate ArePriors(
      season: Season, history: Option<(seq<Fixture>, Season)>, priors: map<TeamId, OpeningPrior>)
  {
    && priors.Keys == season.Teams()
    && forall m :: m in season.memberships ==>
         if history.None? then priors[m.team] == FixedPrior()
         else MemberPrior(m, history.value.0, history.value.1) == Success(priors[m.team])
  }

  ghost predicate HistoryAccepted(season: Season, fixtures: seq<Fixture>, previous: Season) {
    && previous.endsOn < season.startsOn
    && UsableHistory(fixtures, previous)
    && fixtures != []
    && forall m :: m in season.memberships ==> MemberPrior(m, fixtures, previous).Success?
  }

  function Paired(fixtures: Option<seq<Fixture>>, previous: Option<Season>): Option<(seq<Fixture>, Season)> {
    if fixtures.Some? && previous.Some? then Some((fixtures.value, previous.value)) else None
  }

  /** The complaint about a supplied history, in the order the checks are made. */
  function PriorsFault(season: Season, fixtures: seq<Fixture>, previous: Season): Option<PriorError> {
    if previous.endsOn >= season.startsOn then Some(SeasonsOverlap)
    else if FirstHistoryFault(fixtures, previous).Some? then FirstHistoryFault(fixtures, previous)
    else if fixtures == [] then Some(NoReferenceMatches)
    else
      var priors := Collected(season.memberships, fixtures, previous);
      if priors.Failure? then Some(priors.error) else None
  }

  /** The complaint about whatever history is supplied. */
  function OpeningFault(season: Season, fixtures: Option<seq<Fixture>>, previous: Option<Season>): Option<PriorError> {
    if fixtures.None? != previous.None? then Some(HistoryMismatch)
    else if previous.None? || fixtures.None? then None
    else PriorsFault(season, fixtures.value, previous.value)
  }

  /** One prior for each member: its own last season, the league's, or the fixed one. */
  method BuildSeasonOpeningPriors(season: Season, fixtures: Option<seq<Fixture>>, previous: Option<Season>)
    returns (r: Result<map<TeamId, OpeningPrior>, PriorError>)
    requires season.Valid()
    ensures r.Success? <==>
              || (fixtures.None? && previous.None?)
              || (fixtures.Some? && previous.Some? && HistoryAccepted(season, fixtures.value, previous.value))
    ensures r.Success? ==> ArePriors(season, Paired(fixtures, previous), r.value)
    ensures OpeningFault(season, fixtures, previous) == if r.Success? then None else Some(r.error)
  {
    if fixtures.None? != previous.None? {
      return Failure(HistoryMismatch);
    }
    if previous.None? || fixtures.None? {
      return Success(map team | team in season.Teams() :: FixedPrior());
    }
    r := PriorsFromHistory(season, fixtures.value, previous.value);
  }

  /** The priors of a list of members, or the first complaint. */
  function Collected(ms: seq<Membership>, fixtures: seq<Fixture>, previous: Season)
    : Result<map<TeamId, OpeningPrior>, PriorError>
  {
    if ms == [] then Success(map[]) else
      var last := ms[|ms| - 1];
      var priors :- Collected(ms[..|ms| - 1], fixtures, previous);
      var prior :- MemberPrior(last, fixtures, previous);
      Success(priors[last.team := prior])
  }

  lemma CollectedStaysFailed(ms: seq<Membership>, n: nat, fixtures: seq<Fixture>, previous: Season)
    requires n <= |ms| && Collected(ms[..n], fixtures, previous).Failure?
    ensures Collected(ms, fixtures, previous) == Collected(ms[..n], fixtures, previous)
  {
    forall m | n <= m < |ms|
      ensures Collected(ms[..m], fixtures, previous).Failure? ==>
                Collected(ms[..m + 1], fixtures, previous) == Collected(ms[..m], fixtures, previous)
    {
      assert ms[..m + 1][..m] == ms[..m];
    }
    StaysSettled((s: seq<Membership>) => Collected(s, fixtures, previous),
                 (r: Result<map<TeamId, OpeningPrior>, PriorError>) => r.Failure?, ms, n);
  }

  lemma {:induction false} CollectedMeans(ms: seq<Membership>, fixtures: seq<Fixture>, previous: Season)
    requires forall i, j :: 0 <= i < j < |ms| ==> ms[i].team != ms[j].team
    ensures var r := Collected(ms, fixtures, previous);
      && (r.Success? <==> forall m :: m in ms ==> MemberPrior(m, fixtures, previous).Success?)
      && (r.Success? ==> forall t :: t in r.value <==> exists m :: m in ms && m.team == t)
      && (r.Success? ==> forall m :: m in ms ==> MemberPrior(m, fixtures, previous) == Success(r.value[m.team]))
    decreases |ms|
  {
    if ms != [] {
      var init, last := ms[..|ms| - 1], ms[|ms| - 1];
      assert ms == init + [last];
      CollectedMeans(init, fixtures, previous);
      assert forall m :: m in ms <==> m in init || m == last;
      assert forall m :: m in init ==> m.team != last.team;
    }
  }

  lemma CollectedArePriors(season: Season, fixtures: seq<Fixture>, previous: Season)
    requires season.Valid()
    ensures var r := Collected(season.memberships, fixtures, previous);
      && (r.Success? <==> forall m :: m in season.memberships ==> MemberPrior(m, fixtures, previous).Success?)
      && (r.Success? ==> ArePriors(season, Some((fixtures, previous)), r.value))
  {
    CollectedMeans(season.memberships, fixtures, previous);
    var r := Collected(season.memberships, fixtures, previous);
    if r.Success? {
      assert forall t :: t in r.value <==> t in season.Teams();
      assert r.value.Keys == season.Teams();
    }
  }

  /** A history raises no complaint exactly when it is acceptable. */
  lemma PriorsFaultExactly(season: Season, fixtures: seq<Fixture>, previous: Season)
    requires season.Valid()
    ensures PriorsFault(season, fixtures, previous).None? <==> HistoryAccepted(season, fixtures, previous)
  {
    UsableHasNoFault(fixtures, previous);
    CollectedArePriors(season, fixtures, previous);
  }

  method PriorsFromHistory(season: Season, fixtures: seq<Fixture>, previous: Season)
    returns (r: Result<map<TeamId, OpeningPrior>, PriorError>)
    requires season.Valid()
    ensures r.Success? <==> HistoryAccepted(season, fixtures, previous)
    ensures r.Success? ==> ArePriors(season, Some((fixtures, previous)), r.value)
    ensures PriorsFault(season, fixtures, previous) == if r.Success? then None else Some(r.error)
  {
    PriorsFaultExactly(season, fixtures, previous);
    CollectedArePriors(season, fixtures, previous);
    r := CountAndCollect(season, fixtures, previous);
  }

  method CountAndCollect(season: Season, fixtures: seq<Fixture>, previous: Season)
    returns (r: Result<map<TeamId, OpeningPrior>, PriorError>)
    requires season.Valid()
    ensures r.Success? <==> PriorsFault(season, fixtures, previous).None?
    ensures r.Success? ==> r == Collected(season.memberships, fixtures, previous)
    ensures r.Failure? ==> PriorsFault(season, fixtures, previous) == Some(r.error)
  {
    if previous.endsOn >= season.startsOn {
      return Failure(SeasonsOverlap);
    }
    UsableHasNoFault(fixtures, previous);
    var counted := PreviousSummaries(fixtures, previous);
    if counted.Failure? {
      return Failure(counted.error);
    }
    r := PriorsFromCounts(season.memberships, fixtures, previous, counted.value.0, counted.value.1.Counted());
  }

  lemma LeagueCounts(fixtures: seq<Fixture>, league: Tally)
    requires league == LeagueTally(fixtures)
    ensures league.Balanced() && (league.matches == 0 <==> fixtures == [])
  {
    LeagueTallyBalanced(fixtures);
  }

  /** The prior of every promoted club. */
  ghost predicate IsLeaguePrior(fixtures: seq<Fixture>, previous: Season, prior: OpeningPrior) {
    forall m: Membership {:trigger MemberPrior(m, fixtures, previous)} ::
      m.entry.Promoted? && m.team !in previous.Teams() ==> MemberPrior(m, fixtures, previous) == Success(prior)
  }

  lemma PromotedPrior(fixtures: seq<Fixture>, previous: Season, prior: OpeningPrior)
    requires LeagueTally(fixtures).Balanced()
    requires PriorFromTally(LeagueTally(fixtures), PreviousLeague, previous.id) == Success(prior)
    ensures IsLeaguePrior(fixtures, previous, prior)
  {
  }

  /** Whatever prior the league's tally gives is that of every promoted club. */
  lemma LeaguePriorFor(
      fixtures: seq<Fixture>, previous: Season, league: Tally, r: Result<OpeningPrior, PriorError>)
    requires league == LeagueTally(fixtures) && league.Balanced() && r == PriorFromTally(league, PreviousLeague, previous.id)
    ensures r.Success? ==> IsLeaguePrior(fixtures, previous, r.value)
  {
    if r.Success? {
      PromotedPrior(fixtures, previous, r.value);
    }
  }

  /** The prior of a league whose tally adds up. */
  method BalancedPrior(ghost fixtures: seq<Fixture>, previous: Season, league: Tally) returns (r: Result<OpeningPrior, PriorError>)
    requires league == LeagueTally(fixtures) && league.Balanced()
    ensures r.Success? <==> league.matches > 0
    ensures r.Success? ==> IsLeaguePrior(fixtures, previous, r.value)
    ensures r.Failure? ==> r.error == NoReferenceMatches
  {
    r := PriorFromTally(league, PreviousLeague, previous.id);
    LeaguePriorFor(fixtures, previous, league, r);
  }

  /** The league's prior, or the complaint that it played no match. */
  method LeaguePrior(fixtures: seq<Fixture>, previous: Season, league: Tally) returns (r: Result<OpeningPrior, PriorError>)
    requires league == LeagueTally(fixtures)
    ensures r.Success? <==> fixtures != []
    ensures r.Success? ==> IsLeaguePrior(fixtures, previous, r.value)
    ensures r.Failure? ==> r.error == NoReferenceMatches
  {
    LeagueCounts(fixtures, league);
    r := BalancedPrior(fixtures, previous, league);
  }

  method PriorsFromCounts(
      ms: seq<Membership>, fixtures: seq<Fixture>, previous: Season, summaries: map<TeamId, Summary>, league: Tally)
    returns (r: Result<map<TeamId, OpeningPrior>, PriorError>)
    requires summaries.Keys == previous.Teams() && ClubTallies(Tallies(summaries), fixtures)
    requires league == LeagueTally(fixtures)
    ensures r == if fixtures == [] then Failure(NoReferenceMatches) else Collected(ms, fixtures, previous)
  {
    var leaguePrior := LeaguePrior(fixtures, previous, league);
    if leaguePrior.Failure? {
      return Failure(leaguePrior.error);
    }
    r := CollectPriors(ms, fixtures, previous, summaries, leaguePrior.value);
  }

  method CollectPriors(
      ms: seq<Membership>, fixtures: seq<Fixture>, previous: Season,
      summaries: map<TeamId, Summary>, leaguePrior: OpeningPrior)
    returns (r: Result<map<TeamId, OpeningPrior>, PriorError>)
    requires summaries.Keys == previous.Teams() && ClubTallies(Tallies(summaries), fixtures)
    requires IsLeaguePrior(fixtures, previous, leaguePrior)
    ensures r == Collected(ms, fixtures, previous)
  {
    var priors: map<TeamId, OpeningPrior> := map[];
    assert ms[..0] == [];
    for i := 0 to |ms|
      invariant Success(priors) == Collected(ms[..i], fixtures, previous)
    {
      assert ms[..i + 1][..i] == ms[..i];
      var prior := PriorOf(ms[i], fixtures, previous, summaries, leaguePrior);
      if prior.Failure? {
        CollectedStaysFailed(ms, i + 1, fixtures, previous);
        return Failure(prior.error);
      }
      priors := priors[ms[i].team := prior.value];
    }
    assert ms[..|ms|] == ms;
    return Success(priors);
  }

  method PriorOf(
      m: Membership, ghost fixtures: seq<Fixture>, previous: Season,
      summaries: map<TeamId, Summary>, leaguePrior: OpeningPrior)
    returns (r: Result<OpeningPrior, PriorError>)
    requires summaries.Keys == previous.Teams() && ClubTallies(Tallies(summaries), fixtures)
    requires IsLeaguePrior(fixtures, previous, leaguePrior)
    ensures r == MemberPrior(m, fixtures, previous)
  {
    if m.entry.Continued? {
      if m.team !in previous.Teams() {
        return Failure(ContinuedTeamAbsent(m.team));
      }
      ClubTallyBalanced(m.team, fixtures);
      assert Tallies(summaries)[m.team] == ClubTally(m.team, fixtures);
      return PriorFromTally(summaries[m.team].Counted(), PreviousTeam, previous.id);
    }
    if m.team in previous.Teams() {
      return Failure(PromotedTeamPresent(m.team));
    }
    return Success(leaguePrior);
  }

  /** Every prior a season can open with passes its validator. */
  lemma PriorsAreValid(season: Season, history: Option<(seq<Fixture>, Season)>, priors: map<TeamId, OpeningPrior>)
    requires ArePriors(season, history, priors)
    ensures forall team :: team in priors ==> priors[team].Valid()
  {
    forall team | team in priors
      ensures priors[team].Valid()
    {
      var m :| m in season.memberships && m.team == team;
      if history.Some? {
        assert MemberPrior(m, history.value.0, history.value.1) == Success(priors[team]);
      }
    }
  }
}

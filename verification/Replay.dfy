/** The point-in-time replay of a season as functions of its batches, and what every reachable state keeps. */
module Replay {
  import opened Wrappers
  import opened Calendar
  import opened Collections
  import opened Batching
  import opened Fixtures
  import opened Chronology
  import opened Elo
  import opened EloLaws
  import opened Priors
  import opened Predictors

  /** Both clubs of a completed fixture append what they observed. */
  function Commit(zone: Zone, teams: map<TeamId, seq<Observation>>, f: Fixture): (r: map<TeamId, seq<Observation>>)
    ensures r.Keys == teams.Keys
  {
    if f.fullTime.None? || f.home !in teams || f.away !in teams then teams else
      var home := teams[f.home := teams[f.home] + [Observe(zone, f, true)]];
      home[f.away := home[f.away] + [Observe(zone, f, false)]]
  }

  function CommitAll(zone: Zone, teams: map<TeamId, seq<Observation>>, fixtures: seq<Fixture>)
    : (r: map<TeamId, seq<Observation>>)
    ensures r.Keys == teams.Keys
  {
    if fixtures == [] then teams
    else Commit(zone, CommitAll(zone, teams, fixtures[..|fixtures| - 1]), fixtures[|fixtures| - 1])
  }

  /** The whole batch is committed at once, after every row of it has been made. */
  function Advance(zone: Zone, setup: SeasonSetup, state: ReplayState, batch: FixtureBatch): (r: ReplayState)
    requires setup.elo.Valid()
    ensures r.teams.Keys == state.teams.Keys && r.ratings.Keys == state.ratings.Keys
  {
    ReplayState(CommitAll(zone, state.teams, batch.members),
                AfterBatch(state.ratings, batch.members, setup.EloMoves()),
                state.played + |batch.members|)
  }

  /** The state after a list of batches. */
  function StateAfter(zone: Zone, setup: SeasonSetup, bs: seq<FixtureBatch>): (r: ReplayState)
    requires setup.elo.Valid()
    ensures r.teams.Keys == setup.season.Teams() && r.ratings.Keys == setup.ratings.Keys
  {
    if bs == [] then setup.Start()
    else Advance(zone, setup, StateAfter(zone, setup, bs[..|bs| - 1]), bs[|bs| - 1])
  }

  // ---------------------------------------------------------------- histories

  /** An observation of one of the club's own fixtures in the list. */
  ghost predicate Witnessed(zone: Zone, team: TeamId, fixtures: seq<Fixture>, o: Observation) {
    exists f :: f in fixtures && f.fullTime.Some?
      && ((f.home == team && o == Observe(zone, f, true)) || (f.away == team && o == Observe(zone, f, false)))
  }

  ghost predicate AllWitnessed(zone: Zone, teams: map<TeamId, seq<Observation>>, fixtures: seq<Fixture>) {
    forall t, o :: t in teams && o in teams[t] ==> Witnessed(zone, t, fixtures, o)
  }

  lemma WitnessedByMore(zone: Zone, teams: map<TeamId, seq<Observation>>, fixtures: seq<Fixture>, more: seq<Fixture>)
    requires AllWitnessed(zone, teams, fixtures)
    ensures AllWitnessed(zone, teams, fixtures + more)
  {
    forall t, o | t in teams && o in teams[t]
      ensures Witnessed(zone, t, fixtures + more, o)
    {
      assert Witnessed(zone, t, fixtures, o);
    }
  }

  lemma CommitWitnessed(zone: Zone, teams: map<TeamId, seq<Observation>>, fixtures: seq<Fixture>, f: Fixture)
    requires AllWitnessed(zone, teams, fixtures)
    ensures AllWitnessed(zone, Commit(zone, teams, f), fixtures + [f])
  {
    WitnessedByMore(zone, teams, fixtures, [f]);
    var after := Commit(zone, teams, f);
    assert f in fixtures + [f];
    forall t, o | t in after && o in after[t]
      ensures Witnessed(zone, t, fixtures + [f], o)
    {
      if o !in teams[t] {
        assert f.fullTime.Some? && ((f.home == t && o == Observe(zone, f, true)) || (f.away == t && o == Observe(zone, f, false)));
      }
    }
  }

  lemma {:induction false} CommitAllWitnessed(
      zone: Zone, teams: map<TeamId, seq<Observation>>, done: seq<Fixture>, fixtures: seq<Fixture>)
    requires AllWitnessed(zone, teams, done)
    ensures AllWitnessed(zone, CommitAll(zone, teams, fixtures), done + fixtures)
    decreases |fixtures|
  {
    if fixtures == [] {
      assert done + fixtures == done;
    } else {
      var init, last := fixtures[..|fixtures| - 1], fixtures[|fixtures| - 1];
      CommitAllWitnessed(zone, teams, done, init);
      CommitWitnessed(zone, CommitAll(zone, teams, init), done + init, last);
      assert done + init + [last] == done + fixtures;
    }
  }

  /** Every observation in a reachable state is the club's own view of a committed fixture. */
  lemma {:induction false} HistoryIsWitnessed(zone: Zone, setup: SeasonSetup, bs: seq<FixtureBatch>)
    requires setup.elo.Valid()
    ensures AllWitnessed(zone, StateAfter(zone, setup, bs).teams, Timeline.Flatten(bs))
    decreases |bs|
  {
    if bs != [] {
      var init, last := bs[..|bs| - 1], bs[|bs| - 1];
      HistoryIsWitnessed(zone, setup, init);
      CommitAllWitnessed(zone, StateAfter(zone, setup, init).teams, Timeline.Flatten(init), last.members);
      Timeline.FlattenSnoc(init, last);
      assert bs == init + [last];
    }
  }

  /** Every fixture is completed and between two of the clubs. */
  ghost predicate Committable(teams: set<TeamId>, fixtures: seq<Fixture>) {
    forall f :: f in fixtures ==> Completed(f) && f.home in teams && f.away in teams
  }

  lemma {:induction false} CommitAllCounts(
      zone: Zone, teams: map<TeamId, seq<Observation>>, fixtures: seq<Fixture>, team: TeamId)
    requires Committable(teams.Keys, fixtures) && team in teams
    ensures |CommitAll(zone, teams, fixtures)[team]| == |teams[team]| + Appearances(team, fixtures)
    decreases |fixtures|
  {
    if fixtures != [] {
      var init, last := fixtures[..|fixtures| - 1], fixtures[|fixtures| - 1];
      assert fixtures == init + [last];
      CommitAllCounts(zone, teams, init, team);
      AppearancesConcat(team, init, [last]);
      assert last in fixtures;
      CommitCounts(zone, CommitAll(zone, teams, init), last, team);
    }
  }

  lemma CommitCounts(zone: Zone, teams: map<TeamId, seq<Observation>>, f: Fixture, team: TeamId)
    requires f.fullTime.Some? && f.home in teams && f.away in teams && team in teams
    ensures |Commit(zone, teams, f)[team]| == |teams[team]| + Appearances(team, [f])
  {
    assert Appearances(team, [f]) == AppearsIn(team, f);
  }

  /** A club's history holds one observation for each of its committed appearances. */
  lemma {:induction false} HistoryCounts(zone: Zone, setup: SeasonSetup, bs: seq<FixtureBatch>, team: TeamId)
    requires setup.elo.Valid() && team in setup.season.Teams()
    requires Committable(setup.season.Teams(), Timeline.Flatten(bs))
    ensures |StateAfter(zone, setup, bs).teams[team]| == Appearances(team, Timeline.Flatten(bs))
    ensures StateAfter(zone, setup, bs).played == |Timeline.Flatten(bs)|
    decreases |bs|
  {
    if bs != [] {
      var init, last := bs[..|bs| - 1], bs[|bs| - 1];
      assert bs == init + [last];
      Timeline.FlattenSnoc(init, last);
      var done := Timeline.Flatten(init);
      assert forall f :: f in done ==> f in done + last.members;
      assert forall f :: f in last.members ==> f in done + last.members;
      HistoryCounts(zone, setup, init, team);
      CommitAllCounts(zone, StateAfter(zone, setup, init).teams, last.members, team);
      AppearancesConcat(team, done, last.members);
    }
  }

  lemma RatingsStep(zone: Zone, setup: SeasonSetup, bs: seq<FixtureBatch>)
    requires setup.elo.Valid() && bs != []
    ensures StateAfter(zone, setup, bs).ratings
         == AfterBatch(StateAfter(zone, setup, bs[..|bs| - 1]).ratings, bs[|bs| - 1].members, setup.EloMoves())
  {
  }

  /** The ratings of a replay are the Elo run over the same batches. */
  lemma {:induction false} RatingsAreEloRun(zone: Zone, setup: SeasonSetup, bs: seq<FixtureBatch>)
    requires setup.elo.Valid()
    ensures StateAfter(zone, setup, bs).ratings == RunBatches(setup.ratings, bs, setup.EloMoves())
    decreases |bs|
  {
    if bs != [] {
      var init, last := bs[..|bs| - 1], bs[|bs| - 1];
      RatingsAreEloRun(zone, setup, init);
      RatingsStep(zone, setup, bs);
      LastRun(setup.ratings, bs, setup.EloMoves());
    }
  }

  lemma LastRun(ratings: Ratings, bs: seq<FixtureBatch>, rule: Rule)
    requires bs != []
    ensures RunBatches(ratings, bs, rule)
         == AfterBatch(RunBatches(ratings, bs[..|bs| - 1], rule), bs[|bs| - 1].members, rule)
  {
    RunSnoc(ratings, bs[..|bs| - 1], bs[|bs| - 1], rule);
    assert bs == bs[..|bs| - 1] + [bs[|bs| - 1]];
  }

  lemma {:induction false} RunSnoc(ratings: Ratings, bs: seq<FixtureBatch>, b: FixtureBatch, rule: Rule)
    ensures RunBatches(ratings, bs + [b], rule) == AfterBatch(RunBatches(ratings, bs, rule), b.members, rule)
    decreases |bs|
  {
    if bs == [] {
      assert bs + [b] == [b];
      assert RunBatches(AfterBatch(ratings, b.members, rule), [], rule) == AfterBatch(ratings, b.members, rule);
    } else {
      assert (bs + [b])[1..] == bs[1..] + [b];
      RunSnoc(AfterBatch(ratings, bs[0].members, rule), bs[1..], b, rule);
    }
  }

  // ---------------------------------------------------------------- histories against the fixture list

  /** A history that adds up to a tally counted directly from fixtures. */
  ghost predicate AddsUpTo(s: seq<Observation>, t: Tally) {
    && |s| == t.matches && Wins(s) == t.wins && Draws(s) == t.draws && Losses(s) == t.losses
    && Points(s) == t.points && GoalsFor(s) == t.goalsFor && GoalsAgainst(s) == t.goalsAgainst
  }

  lemma {:induction false} CountAppend<T>(test: T -> bool, s: seq<T>, x: T)
    ensures Count(test, s + [x]) == Count(test, s) + if test(x) then 1 else 0
    decreases |s|
  {
    if s == [] {
      assert s + [x] == [x];
    } else {
      assert (s + [x])[1..] == s[1..] + [x];
      CountAppend(test, s[1..], x);
    }
  }

  lemma {:induction false} SumIntAppend<T>(f: T -> int, s: seq<T>, x: T)
    ensures SumInt(f, s + [x]) == SumInt(f, s) + f(x)
    decreases |s|
  {
    if s == [] {
      assert s + [x] == [x];
    } else {
      assert (s + [x])[1..] == s[1..] + [x];
      SumIntAppend(f, s[1..], x);
    }
  }

  lemma ObservationAdds(s: seq<Observation>, t: Tally, o: Observation)
    requires AddsUpTo(s, t) && o.Sound()
    ensures AddsUpTo(s + [o], t.Plus(o.goalsFor, o.goalsAgainst))
  {
    CountAppend((x: Observation) => x.won, s, o);
    CountAppend((x: Observation) => x.drew, s, o);
    CountAppend((x: Observation) => x.lost, s, o);
    SumIntAppend((x: Observation) => x.points, s, o);
    SumIntAppend((x: Observation) => x.goalsFor, s, o);
    SumIntAppend((x: Observation) => x.goalsAgainst, s, o);
  }

  /** One match of a club, at home or away. */
  datatype Appearance = Appearance(fixture: Fixture, atHome: bool) {
    function Goals(): nat {
      if atHome then ScoreOf(fixture).home else ScoreOf(fixture).away
    }

    function Conceded(): nat {
      if atHome then ScoreOf(fixture).away else ScoreOf(fixture).home
    }
  }

  function Sides(team: TeamId, f: Fixture): seq<Appearance> {
    (if f.home == team then [Appearance(f, true)] else []) + (if f.away == team then [Appearance(f, false)] else [])
  }

  /** The matches of a club in a list of fixtures, in order. */
  function MatchesOf(team: TeamId, fixtures: seq<Fixture>): seq<Appearance> {
    if fixtures == [] then [] else
      MatchesOf(team, fixtures[..|fixtures| - 1]) + Sides(team, fixtures[|fixtures| - 1])
  }

  /** The results of some matches, counted directly from their scores. */
  function ResultsIn(matches: seq<Appearance>): Tally {
    if matches == [] then NOTHING else
      var last := matches[|matches| - 1];
      ResultsIn(matches[..|matches| - 1]).Plus(last.Goals(), last.Conceded())
  }

  ghost predicate AllPlayed(matches: seq<Appearance>) {
    forall i :: 0 <= i < |matches| ==> matches[i].fixture.fullTime.Some?
  }

  /** What a club observed in some of its matches. */
  ghost function Views(zone: Zone, matches: seq<Appearance>): (s: seq<Observation>)
    requires AllPlayed(matches)
    ensures |s| == |matches|
  {
    seq(|matches|, i requires 0 <= i < |matches| => Observe(zone, matches[i].fixture, matches[i].atHome))
  }

  lemma ViewsConcat(zone: Zone, a: seq<Appearance>, b: seq<Appearance>)
    requires AllPlayed(a) && AllPlayed(b)
    ensures AllPlayed(a + b) && Views(zone, a + b) == Views(zone, a) + Views(zone, b)
  {
  }

  lemma CommitViews(zone: Zone, teams: map<TeamId, seq<Observation>>, f: Fixture, team: TeamId)
    requires f.fullTime.Some? && f.home in teams && f.away in teams && team in teams
    ensures AllPlayed(Sides(team, f))
    ensures Commit(zone, teams, f)[team] == teams[team] + Views(zone, Sides(team, f))
  {
    var seen := Views(zone, Sides(team, f));
    assert f.home == team && f.away == team ==> seen == [Observe(zone, f, true)] + [Observe(zone, f, false)];
    assert f.home == team && f.away != team ==> seen == [Observe(zone, f, true)];
    assert f.home != team && f.away == team ==> seen == [Observe(zone, f, false)];
    assert f.home != team && f.away != team ==> seen == [];
  }

  lemma SplitCommittable(teams: set<TeamId>, fixtures: seq<Fixture>)
    requires fixtures != [] && Committable(teams, fixtures)
    ensures var init, last := fixtures[..|fixtures| - 1], fixtures[|fixtures| - 1];
      && fixtures == init + [last] && Committable(teams, init)
      && last.fullTime.Some? && last.home in teams && last.away in teams
  {
    assert fixtures[|fixtures| - 1] in fixtures;
    assert forall f :: f in fixtures[..|fixtures| - 1] ==> f in fixtures;
  }

  lemma {:induction false} CommitAllViews(
      zone: Zone, teams: map<TeamId, seq<Observation>>, fixtures: seq<Fixture>, team: TeamId)
    requires Committable(teams.Keys, fixtures) && team in teams
    ensures AllPlayed(MatchesOf(team, fixtures))
    ensures CommitAll(zone, teams, fixtures)[team] == teams[team] + Views(zone, MatchesOf(team, fixtures))
    decreases |fixtures|
  {
    if fixtures == [] {
      assert teams[team] + [] == teams[team];
    } else {
      var init, last := fixtures[..|fixtures| - 1], fixtures[|fixtures| - 1];
      SplitCommittable(teams.Keys, fixtures);
      CommitAllViews(zone, teams, init, team);
      CommitViews(zone, CommitAll(zone, teams, init), last, team);
      ViewsConcat(zone, MatchesOf(team, init), Sides(team, last));
      ConcatAssociates(teams[team], Views(zone, MatchesOf(team, init)), Views(zone, Sides(team, last)));
    }
  }

  lemma {:induction false} MatchesConcat(team: TeamId, a: seq<Fixture>, b: seq<Fixture>)
    ensures MatchesOf(team, a + b) == MatchesOf(team, a) + MatchesOf(team, b)
    decreases |b|
  {
    if b == [] {
      assert a + b == a;
    } else {
      var init, last := b[..|b| - 1], b[|b| - 1];
      assert (a + b)[..|a + b| - 1] == a + init;
      MatchesConcat(team, a, init);
      ConcatAssociates(MatchesOf(team, a), MatchesOf(team, init), Sides(team, last));
    }
  }

  lemma CommittableParts(teams: set<TeamId>, a: seq<Fixture>, b: seq<Fixture>)
    requires Committable(teams, a + b)
    ensures Committable(teams, a) && Committable(teams, b)
  {
    assert forall f :: f in a ==> f in a + b;
    assert forall f :: f in b ==> f in a + b;
  }

  /** A club's history is what it observed in each of its committed matches, in order. */
  lemma {:induction false} HistoryIsMatches(zone: Zone, setup: SeasonSetup, bs: seq<FixtureBatch>, team: TeamId)
    requires setup.elo.Valid() && team in setup.season.Teams()
    requires Committable(setup.season.Teams(), Timeline.Flatten(bs))
    ensures AllPlayed(MatchesOf(team, Timeline.Flatten(bs)))
    ensures StateAfter(zone, setup, bs).teams[team] == Views(zone, MatchesOf(team, Timeline.Flatten(bs)))
    decreases |bs|
  {
    if bs != [] {
      var init, last := bs[..|bs| - 1], bs[|bs| - 1];
      assert bs == init + [last];
      Timeline.FlattenSnoc(init, last);
      var done := Timeline.Flatten(init);
      CommittableParts(setup.season.Teams(), done, last.members);
      HistoryIsMatches(zone, setup, init, team);
      CommitAllViews(zone, StateAfter(zone, setup, init).teams, last.members, team);
      MatchesConcat(team, done, last.members);
      ViewsConcat(zone, MatchesOf(team, done), MatchesOf(team, last.members));
    }
  }

  lemma SplitMatches(zone: Zone, matches: seq<Appearance>)
    requires matches != [] && AllPlayed(matches)
    ensures var init, last := matches[..|matches| - 1], matches[|matches| - 1];
      && matches == init + [last] && AllPlayed(init) && last.fixture.fullTime.Some?
      && Views(zone, matches) == Views(zone, init) + [Observe(zone, last.fixture, last.atHome)]
  {
    var init, last := matches[..|matches| - 1], matches[|matches| - 1];
    assert matches == init + [last];
    ViewsConcat(zone, init, [last]);
  }

  /** Observations add up to a direct count of the scores they came from. */
  lemma {:induction false} ViewsAddUp(zone: Zone, matches: seq<Appearance>)
    requires AllPlayed(matches)
    ensures AddsUpTo(Views(zone, matches), ResultsIn(matches))
    decreases |matches|
  {
    if matches != [] {
      var init, last := matches[..|matches| - 1], matches[|matches| - 1];
      SplitMatches(zone, matches);
      ViewsAddUp(zone, init);
      ObservationAdds(Views(zone, init), ResultsIn(init), Observe(zone, last.fixture, last.atHome));
    }
  }

  lemma ResultsSnoc(matches: seq<Appearance>, m: Appearance)
    ensures ResultsIn(matches + [m]) == ResultsIn(matches).Plus(m.Goals(), m.Conceded())
  {
    assert (matches + [m])[..|matches|] == matches;
  }

  lemma SidesAddUp(matches: seq<Appearance>, team: TeamId, f: Fixture)
    ensures ResultsIn(matches + Sides(team, f)) == WithFixture(ResultsIn(matches), team, f)
  {
    var h, a := Appearance(f, true), Appearance(f, false);
    ResultsSnoc(matches, h);
    ResultsSnoc(matches, a);
    ResultsSnoc(matches + [h], a);
    assert matches + ([h] + [a]) == (matches + [h]) + [a];
    assert matches + ([h] + []) == matches + [h] && matches + ([] + [a]) == matches + [a] && matches + ([] + []) == matches;
  }

  /** Counting a club's matches is counting the club over the fixtures. */
  lemma {:induction false} MatchesGiveTally(team: TeamId, fixtures: seq<Fixture>)
    ensures ResultsIn(MatchesOf(team, fixtures)) == ClubTally(team, fixtures)
    decreases |fixtures|
  {
    if fixtures != [] {
      var init, last := fixtures[..|fixtures| - 1], fixtures[|fixtures| - 1];
      MatchesGiveTally(team, init);
      SidesAddUp(MatchesOf(team, init), team, last);
    }
  }

  /** A club's history adds up to exactly what counting its committed fixtures one by one gives. */
  lemma HistoryIsTally(zone: Zone, setup: SeasonSetup, bs: seq<FixtureBatch>, team: TeamId)
    requires setup.elo.Valid() && team in setup.season.Teams()
    requires Committable(setup.season.Teams(), Timeline.Flatten(bs))
    ensures AddsUpTo(StateAfter(zone, setup, bs).teams[team], ClubTally(team, Timeline.Flatten(bs)))
  {
    HistoryIsMatches(zone, setup, bs, team);
    ViewsAddUp(zone, MatchesOf(team, Timeline.Flatten(bs)));
    MatchesGiveTally(team, Timeline.Flatten(bs));
  }

  // ---------------------------------------------------------------- parts of a history

  function LastMatches(n: nat, matches: seq<Appearance>): seq<Appearance> {
    if |matches| <= n then matches else matches[|matches| - n..]
  }

  /** The matches a club played in one role. */
  function InRole(home: bool, matches: seq<Appearance>): seq<Appearance> {
    if matches == [] then [] else
      (if matches[0].atHome == home then [matches[0]] else []) + InRole(home, matches[1..])
  }

  lemma LastViews(zone: Zone, n: nat, matches: seq<Appearance>)
    requires AllPlayed(matches)
    ensures AllPlayed(LastMatches(n, matches))
    ensures Last(n, Views(zone, matches)) == Views(zone, LastMatches(n, matches))
  {
  }

  lemma {:induction false} RoleViews(zone: Zone, home: bool, matches: seq<Appearance>)
    requires AllPlayed(matches)
    ensures AllPlayed(InRole(home, matches))
    ensures AtVenue(home, Views(zone, matches)) == Views(zone, InRole(home, matches))
    decreases |matches|
  {
    if matches != [] {
      var first, rest := matches[0], matches[1..];
      assert Views(zone, matches)[1..] == Views(zone, rest);
      RoleViews(zone, home, rest);
      var own := if first.atHome == home then [first] else [];
      ViewsConcat(zone, own, InRole(home, rest));
      assert Views(zone, own) == if first.atHome == home then [Observe(zone, first.fixture, first.atHome)] else [];
    }
  }

  /** The date of the last match, if there was one. */
  function LastPlayed(zone: Zone, matches: seq<Appearance>): Option<int> {
    if matches == [] then None else Some(zone.dateOf(matches[|matches| - 1].fixture.kickoff))
  }

  /** The matches played in so many days before a date. */
  function PlayedWithin(zone: Zone, date: int, days: int, matches: seq<Appearance>): nat {
    Count((m: Appearance) => 0 < date - zone.dateOf(m.fixture.kickoff) <= days, matches)
  }

  /** What was recorded of one metric in a match, seen from the club's side. */
  function Recorded(metric: Metric, m: Appearance): Option<nat> {
    var own, opposing := SideStatistics(m.fixture, m.atHome), SideStatistics(m.fixture, !m.atHome);
    match metric
    case ShotsFor => Read(own, (s: TeamStatistics) => s.shots)
    case ShotsAgainst => Read(opposing, (s: TeamStatistics) => s.shots)
    case ShotsOnTargetFor => Read(own, (s: TeamStatistics) => s.shotsOnTarget)
    case ShotsOnTargetAgainst => Read(opposing, (s: TeamStatistics) => s.shotsOnTarget)
    case FoulsFor => Read(own, (s: TeamStatistics) => s.fouls)
    case FoulsAgainst => Read(opposing, (s: TeamStatistics) => s.fouls)
    case YellowCardsFor => Read(own, (s: TeamStatistics) => s.yellowCards)
    case YellowCardsAgainst => Read(opposing, (s: TeamStatistics) => s.yellowCards)
    case RedCardsFor => Read(own, (s: TeamStatistics) => s.redCards)
    case RedCardsAgainst => Read(opposing, (s: TeamStatistics) => s.redCards)
  }

  /** The number of matches a metric was recorded in. */
  function RecordedIn(metric: Metric, matches: seq<Appearance>): nat {
    Count((m: Appearance) => Recorded(metric, m).Some?, matches)
  }

  function RecordedTotal(metric: Metric, matches: seq<Appearance>): int {
    SumInt((m: Appearance) => if Recorded(metric, m).Some? then Recorded(metric, m).value else 0, matches)
  }

  lemma ViewRecorded(zone: Zone, metric: Metric, m: Appearance)
    requires m.fixture.fullTime.Some?
    ensures Observe(zone, m.fixture, m.atHome).Value(metric) == Recorded(metric, m)
  {
  }

  lemma {:induction false} CountViews(zone: Zone, matches: seq<Appearance>, p: Observation -> bool, q: Appearance -> bool)
    requires AllPlayed(matches)
    requires forall m: Appearance :: m.fixture.fullTime.Some? ==> (q(m) <==> p(Observe(zone, m.fixture, m.atHome)))
    ensures Count(p, Views(zone, matches)) == Count(q, matches)
    decreases |matches|
  {
    if matches != [] {
      assert Views(zone, matches)[1..] == Views(zone, matches[1..]);
      CountViews(zone, matches[1..], p, q);
    }
  }

  lemma {:induction false} SumViews(zone: Zone, matches: seq<Appearance>, f: Observation -> int, g: Appearance -> int)
    requires AllPlayed(matches)
    requires forall m: Appearance :: m.fixture.fullTime.Some? ==> g(m) == f(Observe(zone, m.fixture, m.atHome))
    ensures SumInt(f, Views(zone, matches)) == SumInt(g, matches)
    decreases |matches|
  {
    if matches != [] {
      assert Views(zone, matches)[1..] == Views(zone, matches[1..]);
      SumViews(zone, matches[1..], f, g);
    }
  }

  lemma ViewsRecorded(zone: Zone, metric: Metric, matches: seq<Appearance>)
    requires AllPlayed(matches)
    ensures var average := ObservedAverage(metric, Views(zone, matches));
      && average.observations == RecordedIn(metric, matches)
      && average.perObservedMatch == Rate(RecordedTotal(metric, matches), RecordedIn(metric, matches))
  {
    forall m: Appearance | m.fixture.fullTime.Some?
      ensures Observe(zone, m.fixture, m.atHome).Value(metric) == Recorded(metric, m)
    {
      ViewRecorded(zone, metric, m);
    }
    CountViews(zone, matches, (o: Observation) => o.Value(metric).Some?, (m: Appearance) => Recorded(metric, m).Some?);
    SumViews(zone, matches, (o: Observation) => if o.Value(metric).Some? then o.Value(metric).value else 0,
             (m: Appearance) => if Recorded(metric, m).Some? then Recorded(metric, m).value else 0);
  }

  lemma ViewsWithin(zone: Zone, date: int, days: int, matches: seq<Appearance>)
    requires AllPlayed(matches)
    ensures Recent(date, days, Views(zone, matches)) == PlayedWithin(zone, date, days, matches)
  {
    CountViews(zone, matches, (o: Observation) => 0 < date - o.date <= days,
               (m: Appearance) => 0 < date - zone.dateOf(m.fixture.kickoff) <= days);
  }
}

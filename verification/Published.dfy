/** What a row and an upcoming answer publish, in terms of the fixtures of the earlier batches alone. */
module Published {
  import opened Wrappers
  import opened Algebra
  import opened Calendar
  import opened Collections
  import opened Batching
  import opened Fixtures
  import opened Chronology
  import opened Elo
  import opened EloLaws
  import opened Priors
  import opened Predictors
  import opened Replay
  import opened Engine
  import opened PointInTime

  // ---------------------------------------------------------------- one club

  /** Results and rates that are those of a tally. */
  ghost predicate Reports(r: ResultFeatures, t: Tally) {
    && r.matches == t.matches && r.wins == t.wins && r.draws == t.draws && r.losses == t.losses && r.points == t.points
    && IsRate(r.pointsPerMatch, t.points, t.matches) && IsRate(r.winRate, t.wins, t.matches)
    && IsRate(r.drawRate, t.draws, t.matches) && IsRate(r.lossRate, t.losses, t.matches)
  }

  ghost predicate ReportsGoals(p: Performance, t: Tally) {
    IsRate(p.goalsForPerMatch, t.goalsFor, t.matches) && IsRate(p.goalsAgainstPerMatch, t.goalsAgainst, t.matches)
  }

  /** The average of an optional metric over the matches it was recorded in. */
  ghost predicate ReportsMetric(o: Observed, metric: Metric, matches: seq<Appearance>) {
    && o.observations == RecordedIn(metric, matches)
    && IsRate(o.perObservedMatch, RecordedTotal(metric, matches), RecordedIn(metric, matches))
  }

  ghost predicate ReportsMetrics(p: Performance, matches: seq<Appearance>) {
    && p.metrics.Keys == OPTIONAL_METRICS
    && forall metric :: metric in OPTIONAL_METRICS ==> ReportsMetric(p.metrics[metric], metric, matches)
  }

  /** Rest since the last match, and the matches of the last seven and fourteen days. */
  ghost predicate ReportsSchedule(zone: Zone, s: ScheduleFeatures, matches: seq<Appearance>, date: int) {
    && s.restDays == (if matches == [] then None else Some(date - LastPlayed(zone, matches).value))
    && s.last7Days == PlayedWithin(zone, date, 7, matches) && s.last14Days == PlayedWithin(zone, date, 14, matches)
  }

  /** The matches at home for the home club, away for the away club. */
  ghost predicate ReportsRole(s: ScheduleFeatures, t: Tally) {
    && s.venueMatches == t.matches
    && IsRate(s.venuePointsPerMatch, t.points, t.matches) && IsRate(s.venueWinRate, t.wins, t.matches)
  }

  /** Every blended value mixes five matches of its own prior value with what the season has shown. */
  ghost predicate ReportsBlend(b: Blend, prior: OpeningPrior, t: Tally) {
    && Mixes(b.pointsPerMatch, prior.pointsPerMatch, t.points, t.matches)
    && Mixes(b.winRate, prior.winRate, t.wins, t.matches)
    && Mixes(b.drawRate, prior.drawRate, t.draws, t.matches)
    && Mixes(b.lossRate, prior.lossRate, t.losses, t.matches)
    && Mixes(b.goalsForPerMatch, prior.goalsForPerMatch, t.goalsFor, t.matches)
    && Mixes(b.goalsAgainstPerMatch, prior.goalsAgainstPerMatch, t.goalsAgainst, t.matches)
  }

  /** A club's numbers, counted from its matches: all of them, the last five, and those in the same role. */
  ghost predicate ReportsMatches(
      zone: Zone, t: TeamPredictors, matches: seq<Appearance>, date: int, home: bool, prior: OpeningPrior)
  {
    var all, five := ResultsIn(matches), ResultsIn(LastMatches(5, matches));
    && Reports(t.prior, all) && ReportsGoals(t.priorPerformance, all)
    && Reports(t.form, five) && ReportsGoals(t.formPerformance, five)
    && ReportsMetrics(t.priorPerformance, matches) && ReportsMetrics(t.formPerformance, LastMatches(5, matches))
    && ReportsSchedule(zone, t.schedule, matches, date) && ReportsRole(t.schedule, ResultsIn(InRole(home, matches)))
    && t.opening == prior && ReportsBlend(t.blend, prior, all)
  }

  lemma SumsReport(s: seq<Observation>, t: Tally)
    requires AddsUpTo(s, t)
    ensures Reports(ResultsOf(s), t) && ReportsGoals(PerformanceOf(s), t)
  {
    RateIsRate(t.points, t.matches);
    RateIsRate(t.wins, t.matches);
    RateIsRate(t.draws, t.matches);
    RateIsRate(t.losses, t.matches);
    RateIsRate(t.goalsFor, t.matches);
    RateIsRate(t.goalsAgainst, t.matches);
  }

  lemma SumsBlend(s: seq<Observation>, t: Tally, prior: OpeningPrior)
    requires AddsUpTo(s, t)
    ensures ReportsBlend(BlendOf(s, prior), prior, t)
  {
    BlendedMixes(prior.pointsPerMatch, t.points, t.matches);
    BlendedMixes(prior.winRate, t.wins, t.matches);
    BlendedMixes(prior.drawRate, t.draws, t.matches);
    BlendedMixes(prior.lossRate, t.losses, t.matches);
    BlendedMixes(prior.goalsForPerMatch, t.goalsFor, t.matches);
    BlendedMixes(prior.goalsAgainstPerMatch, t.goalsAgainst, t.matches);
  }

  lemma RoleReports(zone: Zone, matches: seq<Appearance>, date: int, home: bool)
    requires AllPlayed(matches)
    ensures ReportsRole(ScheduleOf(Views(zone, matches), date, home), ResultsIn(InRole(home, matches)))
  {
    var t := ResultsIn(InRole(home, matches));
    RoleViews(zone, home, matches);
    ViewsAddUp(zone, InRole(home, matches));
    RateIsRate(t.points, t.matches);
    RateIsRate(t.wins, t.matches);
  }

  lemma MetricsReport(zone: Zone, matches: seq<Appearance>)
    requires AllPlayed(matches)
    ensures ReportsMetrics(PerformanceOf(Views(zone, matches)), matches)
  {
    forall metric | metric in OPTIONAL_METRICS
      ensures ReportsMetric(ObservedAverage(metric, Views(zone, matches)), metric, matches)
    {
      ViewsRecorded(zone, metric, matches);
      RateIsRate(RecordedTotal(metric, matches), RecordedIn(metric, matches));
    }
  }

  lemma ScheduleReports(zone: Zone, matches: seq<Appearance>, date: int, home: bool)
    requires AllPlayed(matches)
    ensures ReportsSchedule(zone, ScheduleOf(Views(zone, matches), date, home), matches, date)
  {
    ViewsWithin(zone, date, 7, matches);
    ViewsWithin(zone, date, 14, matches);
  }

  lemma TeamReports(zone: Zone, matches: seq<Appearance>, date: int, home: bool, prior: OpeningPrior)
    requires AllPlayed(matches)
    ensures ReportsMatches(zone, TeamPredictorsOf(Views(zone, matches), date, home, prior), matches, date, home, prior)
  {
    var s, five := Views(zone, matches), LastMatches(5, matches);
    ViewsAddUp(zone, matches);
    SumsReport(s, ResultsIn(matches));
    SumsBlend(s, ResultsIn(matches), prior);
    LastViews(zone, 5, matches);
    ViewsAddUp(zone, five);
    SumsReport(Views(zone, five), ResultsIn(five));
    MetricsReport(zone, matches);
    MetricsReport(zone, five);
    ScheduleReports(zone, matches, date, home);
    RoleReports(zone, matches, date, home);
  }

  // ---------------------------------------------------------------- the fixture itself

  ghost predicate IsPromoted(season: Season, team: TeamId) {
    exists m :: m in season.memberships && m.team == team && m.entry.Promoted?
  }

  /** The ratings, their difference, and what they say about the match. */
  ghost predicate ReportsRatings(setup: SeasonSetup, home: TeamId, away: TeamId, p: PredictorSet, ratings: Ratings)
    requires setup.elo.Valid() && home in ratings && away in ratings
  {
    && p.elo == PredictEloMatch(home, away, ratings, setup.elo, setup.curve).value
    && p.elo.homeRating == ratings[home] && p.elo.awayRating == ratings[away]
    && p.ratingDifference == ratings[home] - ratings[away]
    && p.homeAdvantage == setup.elo.homeAdvantage
    && p.adjustedDifference == p.ratingDifference + setup.elo.homeAdvantage
  }

  /** Who was promoted, and how much of a season of 380 fixtures lies behind. */
  ghost predicate ReportsSeason(setup: SeasonSetup, home: TeamId, away: TeamId, p: PredictorSet, played: nat) {
    && (p.homePromoted <==> IsPromoted(setup.season, home)) && (p.awayPromoted <==> IsPromoted(setup.season, away))
    && p.seasonPriorFixtures == played && Times(p.seasonProgress, 380.0) == played as real
  }

  /** Everything a predictor set says, in terms of the earlier batches. */
  ghost predicate Publishes(zone: Zone, setup: SeasonSetup, earlier: seq<FixtureBatch>, f: Fixture, p: PredictorSet)
    requires Prepared(setup) && f.home in setup.season.Teams() && f.away in setup.season.Teams()
  {
    var before, date := Timeline.Flatten(earlier), zone.dateOf(f.kickoff);
    && ReportsMatches(zone, p.home, MatchesOf(f.home, before), date, true, setup.priors[f.home])
    && ReportsMatches(zone, p.away, MatchesOf(f.away, before), date, false, setup.priors[f.away])
    && ReportsRatings(setup, f.home, f.away, p, RunBatches(setup.ratings, earlier, setup.EloMoves()))
    && ReportsSeason(setup, f.home, f.away, p, |before|)
  }

  lemma {:induction false} PlayedIsCount(zone: Zone, setup: SeasonSetup, bs: seq<FixtureBatch>)
    requires setup.elo.Valid()
    ensures StateAfter(zone, setup, bs).played == |Timeline.Flatten(bs)|
    decreases |bs|
  {
    if bs != [] {
      PlayedIsCount(zone, setup, bs[..|bs| - 1]);
      FlattenCount(bs);
    }
  }

  lemma SeasonReports(zone: Zone, setup: SeasonSetup, state: ReplayState, f: Fixture)
    requires setup.season.Valid() && setup.elo.Valid() && Knows(state, setup, f.home) && Knows(state, setup, f.away)
    ensures ReportsSeason(setup, f.home, f.away, PredictorsFor(zone, f, state, setup), state.played)
  {
    ProgressIsShare(setup.season, state.played);
  }

  lemma RatingsReport(zone: Zone, setup: SeasonSetup, state: ReplayState, f: Fixture)
    requires setup.season.Valid() && setup.elo.Valid() && Knows(state, setup, f.home) && Knows(state, setup, f.away)
    ensures ReportsRatings(setup, f.home, f.away, PredictorsFor(zone, f, state, setup), state.ratings)
  {
  }

  lemma TeamsReport(zone: Zone, setup: SeasonSetup, state: ReplayState, f: Fixture, home: seq<Appearance>, away: seq<Appearance>)
    requires setup.season.Valid() && setup.elo.Valid() && Knows(state, setup, f.home) && Knows(state, setup, f.away)
    requires AllPlayed(home) && state.teams[f.home] == Views(zone, home)
    requires AllPlayed(away) && state.teams[f.away] == Views(zone, away)
    ensures var p, date := PredictorsFor(zone, f, state, setup), zone.dateOf(f.kickoff);
      && ReportsMatches(zone, p.home, home, date, true, setup.priors[f.home])
      && ReportsMatches(zone, p.away, away, date, false, setup.priors[f.away])
  {
    var date := zone.dateOf(f.kickoff);
    TeamReports(zone, home, date, true, setup.priors[f.home]);
    TeamReports(zone, away, date, false, setup.priors[f.away]);
    PredictorParts(zone, setup, state, f);
  }

  /** After any usable batches the predictors of a fixture say exactly what those batches hold. */
  lemma StatePublishes(zone: Zone, setup: SeasonSetup, bs: seq<FixtureBatch>, f: Fixture)
    requires Prepared(setup) && f.home in setup.season.Teams() && f.away in setup.season.Teams()
    requires Committable(setup.season.Teams(), Timeline.Flatten(bs))
    ensures Publishes(zone, setup, bs, f, PredictorsFor(zone, f, StateAfter(zone, setup, bs), setup))
  {
    var state, before := StateAfter(zone, setup, bs), Timeline.Flatten(bs);
    HistoryIsMatches(zone, setup, bs, f.home);
    HistoryIsMatches(zone, setup, bs, f.away);
    TeamsReport(zone, setup, state, f, MatchesOf(f.home, before), MatchesOf(f.away, before));
    RatingsAreEloRun(zone, setup, bs);
    RatingsReport(zone, setup, state, f);
    PlayedIsCount(zone, setup, bs);
    SeasonReports(zone, setup, state, f);
  }

  // ---------------------------------------------------------------- rows

  /** The batches strictly before f's. */
  ghost function EarlierBatches(zone: Zone, S: set<Fixture>, f: Fixture): seq<FixtureBatch> {
    var tl := FixtureTimeline(zone);
    tl.Batches(tl.Before(S, tl.Key(S, f)))
  }

  lemma EarlierCommittable(zone: Zone, setup: SeasonSetup, S: set<Fixture>, f: Fixture)
    requires Injective(FixtureTimeline(zone).Id(), S) && forall x :: x in S ==> Ready(setup, x)
    ensures Committable(setup.season.Teams(), Timeline.Flatten(EarlierBatches(zone, S, f)))
  {
    var tl := FixtureTimeline(zone);
    var early := tl.Before(S, tl.Key(S, f));
    tl.BatchesPartition(early);
    forall x: Fixture | x in Timeline.Flatten(tl.Batches(early))
      ensures Completed(x) && x.home in setup.season.Teams() && x.away in setup.season.Teams()
    {
      assert x in Elements(Timeline.Flatten(tl.Batches(early)));
    }
  }

  /** A row carries its fixture and its label, and publishes what the strictly earlier batches hold. */
  ghost predicate PublishedRow(zone: Zone, setup: SeasonSetup, S: set<Fixture>, f: Fixture, row: FeatureRow)
    requires Prepared(setup) && Ready(setup, f)
  {
    && row.fixture == f.id && row.home == f.home && row.away == f.away
    && row.kickoff == f.kickoff && row.precision == f.precision
    && row.trainingLabel.homeGoals == f.fullTime.value.home && row.trainingLabel.awayGoals == f.fullTime.value.away
    && f.outcome == Some(row.trainingLabel.outcome)
    && Publishes(zone, setup, EarlierBatches(zone, S, f), f, row.predictors)
  }

  lemma RowPublishes(zone: Zone, setup: SeasonSetup, S: set<Fixture>, f: Fixture)
    requires Prepared(setup) && f in S && Injective(FixtureTimeline(zone).Id(), S)
    requires forall x :: x in S ==> Ready(setup, x)
    ensures PublishedRow(zone, setup, S, f, PointInTimeRow(zone, setup, S, f))
  {
    EarlierCommittable(zone, setup, S, f);
    StatePublishes(zone, setup, EarlierBatches(zone, S, f), f);
  }

  /** Every row that a season build publishes says exactly what its earlier batches hold. */
  lemma SeasonRowPublishes(zone: Zone, setup: SeasonSetup, S: set<Fixture>, row: FeatureRow) returns (f: Fixture)
    requires Prepared(setup) && Injective(FixtureTimeline(zone).Id(), S)
    requires BatchesReady(setup, FixtureTimeline(zone).Batches(S))
    requires row in SeasonRows(zone, setup, FixtureTimeline(zone).Batches(S))
    ensures f in S && Ready(setup, f) && PublishedRow(zone, setup, S, f, row)
  {
    f := RowSource(zone, setup, S, row);
    RowsArePointInTime(zone, setup, S);
    RowPublishes(zone, setup, S, f);
  }

  // ---------------------------------------------------------------- one upcoming fixture

  lemma FaultlessIsPrepared(setup: SeasonSetup, f: Fixture)
    requires setup.season.Valid() && setup.elo.Valid() && UpcomingFault(setup, f).None?
    ensures Prepared(setup) && f.home in setup.season.Teams() && f.away in setup.season.Teams()
  {
  }

  lemma AnsweredIsFaultless(zone: Zone, setup: SeasonSetup, completed: seq<Fixture>, f: Fixture)
    requires setup.season.Valid() && setup.elo.Valid() && UpcomingResult(zone, setup, completed, f).Success?
    ensures UpcomingFault(setup, f).None? && ReplayFault(zone, setup, completed).None?
    ensures BatchesFault(setup, FixtureTimeline(zone).Batches(Elements(completed))).None?
  {
  }

  lemma AnswerIsReplayed(zone: Zone, setup: SeasonSetup, completed: seq<Fixture>, f: Fixture)
    requires Prepared(setup) && f.home in setup.season.Teams() && f.away in setup.season.Teams()
    requires UpcomingFault(setup, f).None? && ReplayFault(zone, setup, completed).None?
    ensures UpcomingResult(zone, setup, completed, f) == Success(UpcomingPredictors(zone, setup, Elements(completed), f))
  {
  }

  lemma ReplayedPublishes(zone: Zone, setup: SeasonSetup, completed: set<Fixture>, f: Fixture)
    requires Prepared(setup) && f.home in setup.season.Teams() && f.away in setup.season.Teams()
    requires Committable(setup.season.Teams(), Timeline.Flatten(FixtureTimeline(zone).Batches(completed)))
    ensures Publishes(zone, setup, FixtureTimeline(zone).Batches(completed), f, UpcomingPredictors(zone, setup, completed, f))
  {
    StatePublishes(zone, setup, FixtureTimeline(zone).Batches(completed), f);
  }

  /** A successful upcoming call publishes exactly what its completed fixtures hold. */
  lemma UpcomingPublishes(zone: Zone, setup: SeasonSetup, completed: seq<Fixture>, f: Fixture, p: PredictorSet)
    requires setup.season.Valid() && setup.elo.Valid() && UpcomingResult(zone, setup, completed, f) == Success(p)
    ensures Prepared(setup) && f.home in setup.season.Teams() && f.away in setup.season.Teams()
    ensures Publishes(zone, setup, FixtureTimeline(zone).Batches(Elements(completed)), f, p)
  {
    var bs := FixtureTimeline(zone).Batches(Elements(completed));
    AnsweredIsFaultless(zone, setup, completed, f);
    FaultlessIsPrepared(setup, f);
    AnswerIsReplayed(zone, setup, completed, f);
    MembersAreCommittable(setup, Timeline.Flatten(bs));
    ReplayedPublishes(zone, setup, Elements(completed), f);
  }
}

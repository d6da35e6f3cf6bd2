/** What a club's past says before a match: observations and the predictor set built from them. */
module Predictors {
  import opened Wrappers
  import opened Calendar
  import opened Algebra
  import opened Collections
  import opened Batching
  import opened Fixtures
  import opened Chronology
  import opened Elo
  import opened Priors

  const FORM_WINDOW_MATCHES := 5

  datatype Metric =
    | ShotsFor | ShotsAgainst | ShotsOnTargetFor | ShotsOnTargetAgainst | FoulsFor | FoulsAgainst
    | YellowCardsFor | YellowCardsAgainst | RedCardsFor | RedCardsAgainst

  const OPTIONAL_METRICS: set<Metric> := {
    ShotsFor, ShotsAgainst, ShotsOnTargetFor, ShotsOnTargetAgainst, FoulsFor, FoulsAgainst,
    YellowCardsFor, YellowCardsAgainst, RedCardsFor, RedCardsAgainst }

  /** One completed match seen from one side. */
  datatype Observation = Observation(
    date: int, wasHome: bool, goalsFor: nat, goalsAgainst: nat,
    points: nat, won: bool, drew: bool, lost: bool,
    own: Option<TeamStatistics>, opposing: Option<TeamStatistics>)
  {
    function Value(metric: Metric): Option<nat> {
      match metric
      case ShotsFor => Read(own, (s: TeamStatistics) => s.shots)
      case ShotsAgainst => Read(opposing, (s: TeamStatistics) => s.shots)
      case ShotsOnTargetFor => Read(own, (s: TeamStatistics) => s.shotsOnTarget)
      case ShotsOnTargetAgainst => Read(opposing, (s: TeamStatistics) => s.shotsOnTarget)
      case FoulsFor => Read(own, (s: TeamStatistics) => s.fouls)
      case FoulsAgainst => Read(opposing, (s: TeamStatistics) => s.fouls)
      case YellowCardsFor => Read(own, (s: TeamStatistics) => s.yellowCards)
      case YellowCardsAgainst => Read(opposing, (s: TeamStatistics) => s.yellowCards)
      case RedCardsFor => Read(own, (s: TeamStatistics) => s.redCards)
      case RedCardsAgainst => Read(opposing, (s: TeamStatistics) => s.redCards)
    }

    predicate Sound() {
      && (won <==> goalsFor > goalsAgainst) && (drew <==> goalsFor == goalsAgainst) && (lost <==> goalsFor < goalsAgainst)
      && points == (if won then 3 else if drew then 1 else 0)
    }
  }

  function Read(s: Option<TeamStatistics>, field: TeamStatistics -> Option<nat>): Option<nat> {
    if s.None? then None else field(s.value)
  }

  /** The statistics of one side, if any were published. */
  function SideStatistics(f: Fixture, home: bool): Option<TeamStatistics> {
    if f.statistics.None? then None else Some(if home then f.statistics.value.home else f.statistics.value.away)
  }

  /** The observation a completed fixture leaves for its home or its away club. */
  function Observe(zone: Zone, f: Fixture, home: bool): (o: Observation)
    requires f.fullTime.Some?
    ensures o.Sound() && o.date == FixtureTimeline(zone).Date(f) && o.wasHome == home
    ensures o.goalsFor == if home then f.fullTime.value.home else f.fullTime.value.away
    ensures o.goalsAgainst == if home then f.fullTime.value.away else f.fullTime.value.home
    ensures o.own == SideStatistics(f, home) && o.opposing == SideStatistics(f, !home)
  {
    var score := f.fullTime.value;
    var goals, conceded := if home then score.home else score.away, if home then score.away else score.home;
    var won, drew := goals > conceded, goals == conceded;
    var points := if won then 3 else if drew then 1 else 0;
    Observation(zone.dateOf(f.kickoff), home, goals, conceded, points, won, drew, !won && !drew,
                SideStatistics(f, home), SideStatistics(f, !home))
  }

  /** The two clubs see one match from opposite sides. */
  lemma BothSidesMirror(zone: Zone, f: Fixture)
    requires f.fullTime.Some?
    ensures var h, a := Observe(zone, f, true), Observe(zone, f, false);
      && h.goalsFor == f.fullTime.value.home == a.goalsAgainst && h.goalsAgainst == f.fullTime.value.away == a.goalsFor
      && (h.won <==> a.lost) && (h.lost <==> a.won) && (h.drew <==> a.drew)
      && h.points + a.points == (if h.drew then 2 else 3)
      && h.own == a.opposing && h.opposing == a.own && h.wasHome != a.wasHome && h.date == a.date
      && (h.own.Some? ==> f.statistics.Some? && h.own.value == f.statistics.value.home)
  {
  }

  // ---------------------------------------------------------------- the predictor set

  /** Missing when there is nothing to average. */
  function Rate(numerator: int, denominator: nat): Option<real> {
    if denominator == 0 then None else Some(numerator as real / denominator as real)
  }

  /** A rate is the one number that gives the total back, over as many as it was taken. */
  ghost predicate IsRate(rate: Option<real>, total: int, n: nat) {
    if n == 0 then rate.None? else rate.Some? && Times(rate.value, n as real) == total as real
  }

  lemma RateIsRate(total: int, n: nat)
    ensures IsRate(Rate(total, n), total, n)
  {
  }

  datatype ResultFeatures = ResultFeatures(
    matches: nat, wins: nat, draws: nat, losses: nat, points: int,
    pointsPerMatch: Option<real>, winRate: Option<real>, drawRate: Option<real>, lossRate: Option<real>)

  datatype Observed = Observed(observations: nat, perObservedMatch: Option<real>)

  datatype Performance = Performance(
    goalsForPerMatch: Option<real>, goalsAgainstPerMatch: Option<real>, metrics: map<Metric, Observed>)

  datatype ScheduleFeatures = ScheduleFeatures(
    restDays: Option<int>, last7Days: nat, last14Days: nat,
    venueMatches: nat, venuePointsPerMatch: Option<real>, venueWinRate: Option<real>)

  datatype Blend = Blend(
    pointsPerMatch: real, winRate: real, drawRate: real, lossRate: real,
    goalsForPerMatch: real, goalsAgainstPerMatch: real)

  datatype TeamPredictors = TeamPredictors(
    prior: ResultFeatures, form: ResultFeatures,
    priorPerformance: Performance, formPerformance: Performance,
    schedule: ScheduleFeatures, opening: OpeningPrior, blend: Blend)

  datatype PredictorSet = PredictorSet(
    elo: MatchPrediction, ratingDifference: real, adjustedDifference: real, homeAdvantage: real,
    homePromoted: bool, awayPromoted: bool, seasonPriorFixtures: nat, seasonProgress: real,
    home: TeamPredictors, away: TeamPredictors)

  function Last(n: nat, s: seq<Observation>): seq<Observation> {
    if |s| <= n then s else s[|s| - n..]
  }

  function Wins(s: seq<Observation>): nat {
    Count((o: Observation) => o.won, s)
  }

  function Draws(s: seq<Observation>): nat {
    Count((o: Observation) => o.drew, s)
  }

  function Losses(s: seq<Observation>): nat {
    Count((o: Observation) => o.lost, s)
  }

  function Points(s: seq<Observation>): int {
    SumInt((o: Observation) => o.points, s)
  }

  function GoalsFor(s: seq<Observation>): int {
    SumInt((o: Observation) => o.goalsFor, s)
  }

  function GoalsAgainst(s: seq<Observation>): int {
    SumInt((o: Observation) => o.goalsAgainst, s)
  }

  function ResultsOf(s: seq<Observation>): ResultFeatures {
    ResultFeatures(|s|, Wins(s), Draws(s), Losses(s), Points(s),
                   Rate(Points(s), |s|), Rate(Wins(s), |s|), Rate(Draws(s), |s|), Rate(Losses(s), |s|))
  }

  function ObservedAverage(metric: Metric, s: seq<Observation>): Observed {
    var n := Count((o: Observation) => o.Value(metric).Some?, s);
    var total := SumInt((o: Observation) => if o.Value(metric).Some? then o.Value(metric).value else 0, s);
    Observed(n, Rate(total, n))
  }

  function PerformanceOf(s: seq<Observation>): Performance {
    Performance(Rate(GoalsFor(s), |s|), Rate(GoalsAgainst(s), |s|),
                map metric | metric in OPTIONAL_METRICS :: ObservedAverage(metric, s))
  }

  function Recent(date: int, days: int, s: seq<Observation>): nat {
    Count((o: Observation) => 0 < date - o.date <= days, s)
  }

  function AtVenue(home: bool, s: seq<Observation>): seq<Observation> {
    if s == [] then [] else
      (if s[0].wasHome == home then [s[0]] else []) + AtVenue(home, s[1..])
  }

  function ScheduleOf(s: seq<Observation>, date: int, home: bool): ScheduleFeatures {
    var venue := AtVenue(home, s);
    ScheduleFeatures(
      if s == [] then None else Some(date - s[|s| - 1].date), Recent(date, 7, s), Recent(date, 14, s),
      |venue|, Rate(Points(venue), |venue|), Rate(Wins(venue), |venue|))
  }

  /** A prior value weighted as five matches, mixed with what the season has shown. */
  function Blended(prior: real, total: int, matches: nat): real {
    (OPENING_PRIOR_WEIGHT_MATCHES as real * prior + total as real)
    / (OPENING_PRIOR_WEIGHT_MATCHES + matches) as real
  }

  function BlendOf(s: seq<Observation>, prior: OpeningPrior): Blend {
    var n := |s|;
    Blend(Blended(prior.pointsPerMatch, Points(s), n),
          Blended(prior.winRate, Wins(s), n), Blended(prior.drawRate, Draws(s), n), Blended(prior.lossRate, Losses(s), n),
          Blended(prior.goalsForPerMatch, GoalsFor(s), n), Blended(prior.goalsAgainstPerMatch, GoalsAgainst(s), n))
  }

  function TeamPredictorsOf(s: seq<Observation>, date: int, home: bool, prior: OpeningPrior): TeamPredictors {
    var form := Last(FORM_WINDOW_MATCHES, s);
    TeamPredictors(ResultsOf(s), ResultsOf(form), PerformanceOf(s), PerformanceOf(form),
                   ScheduleOf(s, date, home), prior, BlendOf(s, prior))
  }

  /** Team histories, ratings and the number of fixtures committed so far. */
  datatype ReplayState = ReplayState(teams: map<TeamId, seq<Observation>>, ratings: Ratings, played: nat)

  /** Everything fixed before the season: its members, their priors and the Elo rules. */
  datatype SeasonSetup = SeasonSetup(
    season: Season, priors: map<TeamId, OpeningPrior>, ratings: Ratings, elo: EloParameters, curve: LogisticCurve)
  {
    predicate Covers() {
      priors.Keys == season.Teams() && ratings.Keys == season.Teams()
    }

    function EloMoves(): Rule
      requires elo.Valid()
    {
      EloRule(elo, curve)
    }

    function Start(): ReplayState {
      ReplayState(map team | team in season.Teams() :: [], ratings, 0)
    }
  }

  predicate Knows(state: ReplayState, setup: SeasonSetup, team: TeamId) {
    team in state.teams && team in state.ratings && team in setup.priors
  }

  /** The predictors of one fixture; nothing of the fixture is read but its clubs and its date. */
  function PredictorsFor(zone: Zone, f: Fixture, state: ReplayState, setup: SeasonSetup): PredictorSet
    requires Knows(state, setup, f.home) && Knows(state, setup, f.away)
    requires setup.season.Valid() && setup.elo.Valid()
  {
    PredictorsOn(f.home, f.away, zone.dateOf(f.kickoff), state, setup)
  }

  /** The share of a season in which every club hosts every other. */
  function Progress(season: Season, played: nat): real
    requires season.Valid()
  {
    var clubs := |season.memberships|;
    played as real / (clubs * (clubs - 1)) as real
  }

  lemma ProgressIsShare(season: Season, played: nat)
    requires season.Valid()
    ensures Times(Progress(season, played), 380.0) == played as real
  {
  }

  function PredictorsOn(home: TeamId, away: TeamId, date: int, state: ReplayState, setup: SeasonSetup): PredictorSet
    requires Knows(state, setup, home) && Knows(state, setup, away)
    requires setup.season.Valid() && setup.elo.Valid()
  {
    var elo := PredictEloMatch(home, away, state.ratings, setup.elo, setup.curve).value;
    PredictorSet(
      elo, elo.homeRating - elo.awayRating, elo.homeRating + setup.elo.homeAdvantage - elo.awayRating,
      setup.elo.homeAdvantage, home in setup.season.PromotedTeams(), away in setup.season.PromotedTeams(),
      state.played, Progress(setup.season, state.played),
      TeamPredictorsOf(state.teams[home], date, true, setup.priors[home]),
      TeamPredictorsOf(state.teams[away], date, false, setup.priors[away]))
  }

  // ---------------------------------------------------------------- what the numbers satisfy

  lemma {:induction false} HistoryBalances(s: seq<Observation>)
    requires forall o :: o in s ==> o.Sound()
    ensures Wins(s) + Draws(s) + Losses(s) == |s|
    ensures Points(s) == 3 * Wins(s) + Draws(s)
    ensures GoalsFor(s) >= 0 && GoalsAgainst(s) >= 0
    decreases |s|
  {
    if s != [] {
      assert s[0] in s;
      HistoryBalances(s[1..]);
    }
  }

  /** A blended value is the mean of five matches at the prior value and the matches played. */
  ghost predicate Mixes(blended: real, prior: real, total: int, matches: nat) {
    Times(blended, (5 + matches) as real) == 5.0 * prior + total as real
  }

  lemma BlendedMixes(prior: real, total: int, matches: nat)
    ensures Mixes(Blended(prior, total, matches), prior, total, matches)
  {
    QuotientGivesBack(5.0 * prior + total as real, (5 + matches) as real);
  }

  lemma QuotientGivesBack(x: real, d: real)
    requires d != 0.0
    ensures (x / d) * d == x
  {
  }

  lemma BlendedAdds(p: real, q: real, a: nat, b: nat, n: nat)
    ensures Blended(p, a, n) + Blended(q, b, n) == Blended(p + q, a + b, n)
  {
    var d := (OPENING_PRIOR_WEIGHT_MATCHES + n) as real;
    DivideAdds(5.0 * p + a as real, 5.0 * q + b as real, d);
  }

  lemma DivideAdds(x: real, y: real, d: real)
    requires d != 0.0
    ensures x / d + y / d == (x + y) / d
  {
  }

  lemma BlendedWhole(n: nat)
    ensures Blended(1.0, n, n) == 1.0
  {
    DivideSelf((OPENING_PRIOR_WEIGHT_MATCHES + n) as real);
  }

  lemma DivideSelf(d: real)
    requires d != 0.0
    ensures d / d == 1.0
  {
  }

  /** Blending a valid prior with a sound history gives rates that sum to one and the points they imply. */
  lemma BlendIsConsistent(s: seq<Observation>, prior: OpeningPrior)
    requires prior.Valid() && forall o :: o in s ==> o.Sound()
    ensures var b := BlendOf(s, prior);
      && b.winRate + b.drawRate + b.lossRate == 1.0
      && b.pointsPerMatch == 3.0 * b.winRate + b.drawRate
  {
    var n := |s|;
    HistoryBalances(s);
    BlendedAdds(prior.winRate, prior.drawRate, Wins(s), Draws(s), n);
    BlendedAdds(prior.winRate + prior.drawRate, prior.lossRate, Wins(s) + Draws(s), Losses(s), n);
    BlendedWhole(n);
    BlendedAdds(prior.winRate, prior.winRate, Wins(s), Wins(s), n);
    BlendedAdds(prior.winRate + prior.winRate, prior.winRate, Wins(s) + Wins(s), Wins(s), n);
    BlendedAdds(3.0 * prior.winRate, prior.drawRate, 3 * Wins(s), Draws(s), n);
  }

  /** A club's recent matches are among its matches, and its rest is never negative. */
  lemma ScheduleIsConsistent(s: seq<Observation>, date: int, home: bool)
    requires forall o :: o in s ==> o.date <= date
    ensures var f := ScheduleOf(s, date, home);
      && f.last7Days <= f.last14Days <= |s|
      && (f.restDays.Some? <==> s != []) && (f.restDays.Some? ==> f.restDays.value >= 0)
  {
    CountIsBelow((o: Observation) => 0 < date - o.date <= 7, (o: Observation) => 0 < date - o.date <= 14, s);
  }
}

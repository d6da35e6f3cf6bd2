/** Canonical fixtures and reviewed season memberships. */
module Fixtures {
  import opened Wrappers
  import opened Batching

  /** Identifiers are opaque ordered values. */
  type TeamId = int
  type FixtureId = int

  const PREMIER_LEAGUE := "eng-premier-league"

  datatype MatchOutcome = HomeWin | Draw | AwayWin

  datatype FixtureStatus = Scheduled | Postponed | Cancelled | Abandoned | InProgress | Finished

  datatype KickoffPrecision = Exact | DateOnly

  datatype Score = Score(home: nat, away: nat) {
    function Outcome(): (o: MatchOutcome)
      ensures (o.HomeWin? <==> home > away) && (o.AwayWin? <==> home < away)
    {
      if home > away then HomeWin else if home < away then AwayWin else Draw
    }
  }

  datatype TeamStatistics = TeamStatistics(
    shots: Option<nat>, shotsOnTarget: Option<nat>, fouls: Option<nat>,
    yellowCards: Option<nat>, redCards: Option<nat>)

  datatype FixtureStatistics = FixtureStatistics(home: TeamStatistics, away: TeamStatistics)

  datatype Fixture = Fixture(
    id: FixtureId, competition: string, season: string,
    kickoff: int, precision: KickoffPrecision,
    home: TeamId, away: TeamId,
    status: FixtureStatus, fullTime: Option<Score>, outcome: Option<MatchOutcome>,
    statistics: Option<FixtureStatistics>, sources: set<string>)
  {
    function KickoffSlot(): Slot {
      Slot(id, kickoff, precision.DateOnly?)
    }

    /** What every validated fixture satisfies. */
    predicate Consistent() {
      && home != away
      && (!status.Finished? ==> fullTime.None? && outcome.None?)
      && (status.Finished? ==> fullTime.Some? && outcome == Some(fullTime.value.Outcome()))
    }
  }

  datatype EntryStatus = Continued | Promoted

  datatype Membership = Membership(team: TeamId, entry: EntryStatus)

  datatype Season = Season(
    id: string, startsOn: int, endsOn: int, memberships: seq<Membership>)
  {
    function Teams(): set<TeamId> {
      set m | m in memberships :: m.team
    }

    function PromotedTeams(): set<TeamId> {
      set m | m in memberships && m.entry.Promoted? :: m.team
    }

    /** Twenty distinct members, three of them promoted. */
    ghost predicate Valid() {
      && startsOn < endsOn
      && |memberships| == 20
      && (forall i, j :: 0 <= i < j < |memberships| ==> memberships[i].team != memberships[j].team)
      && |set i | 0 <= i < |memberships| && memberships[i].entry.Promoted?| == 3
    }
  }
}

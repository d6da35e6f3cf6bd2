/** What a season opens with: whose results its priors are, where its ratings start, and which seasons may follow. */
module Openings {
  import opened Wrappers
  import opened Algebra
  import opened Fixtures
  import opened Elo
  import opened EloLaws
  import opened Priors
  import opened Predictors
  import opened Chains
  import opened SeasonLoop

  // ---------------------------------------------------------------- priors

  /** Every rate of the prior gives the count back over the matches it was taken from. */
  ghost predicate PriorIs(p: OpeningPrior, t: Tally) {
    && p.referenceMatches == t.matches > 0
    && IsRate(Some(p.pointsPerMatch), t.points, t.matches) && IsRate(Some(p.winRate), t.wins, t.matches)
    && IsRate(Some(p.drawRate), t.draws, t.matches) && IsRate(Some(p.lossRate), t.losses, t.matches)
    && IsRate(Some(p.goalsForPerMatch), t.goalsFor, t.matches)
    && IsRate(Some(p.goalsAgainstPerMatch), t.goalsAgainst, t.matches)
  }

  lemma ShareIsRate(count: nat, n: nat)
    requires n > 0
    ensures IsRate(Some(Share(count, n)), count, n)
  {
  }

  lemma PriorFromTallyIs(t: Tally, source: PriorSource, season: string, p: OpeningPrior)
    requires t.Balanced() && !source.FixedBaseline? && PriorFromTally(t, source, season) == Success(p)
    ensures PriorIs(p, t) && p.source == source && p.referenceSeason == Some(season)
  {
    ShareIsRate(t.points, t.matches);
    ShareIsRate(t.wins, t.matches);
    ShareIsRate(t.draws, t.matches);
    ShareIsRate(t.losses, t.matches);
    ShareIsRate(t.goalsFor, t.matches);
    ShareIsRate(t.goalsAgainst, t.matches);
  }

  /** A continuing club opens on its own last season, a promoted one on the whole league's. */
  lemma PriorReportsSeason(
      season: Season, fixtures: seq<Fixture>, previous: Season, priors: map<TeamId, OpeningPrior>, m: Membership)
    requires ArePriors(season, Some((fixtures, previous)), priors) && m in season.memberships
    ensures m.team in priors && priors[m.team].referenceSeason == Some(previous.id)
    ensures m.entry.Continued? ==>
              && m.team in previous.Teams() && priors[m.team].source == PreviousTeam
              && PriorIs(priors[m.team], ClubTally(m.team, fixtures))
    ensures m.entry.Promoted? ==>
              && m.team !in previous.Teams() && priors[m.team].source == PreviousLeague
              && PriorIs(priors[m.team], LeagueTally(fixtures))
  {
    assert m.team in season.Teams();
    if m.entry.Continued? {
      ClubTallyBalanced(m.team, fixtures);
      PriorFromTallyIs(ClubTally(m.team, fixtures), PreviousTeam, previous.id, priors[m.team]);
    } else {
      LeagueTallyBalanced(fixtures);
      PriorFromTallyIs(LeagueTally(fixtures), PreviousLeague, previous.id, priors[m.team]);
    }
  }

  /** Without a previous season every club opens level, with a third of each result and one and a half goals. */
  lemma FirstSeasonIsLevel(season: Season, priors: map<TeamId, OpeningPrior>, team: TeamId)
    requires ArePriors(season, None, priors) && team in priors
    ensures var p := priors[team];
      && p.winRate == p.drawRate == p.lossRate == 1.0 / 3.0 && p.pointsPerMatch == 4.0 / 3.0
      && p.goalsForPerMatch == 1.5 == p.goalsAgainstPerMatch && p.source == FixedBaseline
  {
    var m :| m in season.memberships && m.team == team;
  }

  // ---------------------------------------------------------------- which history is accepted

  ghost predicate Appears(team: TeamId, fixtures: seq<Fixture>) {
    exists f :: f in fixtures && (f.home == team || f.away == team)
  }

  lemma {:induction false} TallyCountsAppearances(team: TeamId, fixtures: seq<Fixture>)
    ensures ClubTally(team, fixtures).matches > 0 <==> Appears(team, fixtures)
    decreases |fixtures|
  {
    if fixtures != [] {
      var init, last := fixtures[..|fixtures| - 1], fixtures[|fixtures| - 1];
      assert fixtures == init + [last];
      TallyCountsAppearances(team, init);
      assert forall f :: f in fixtures <==> f in init || f == last;
    }
  }

  /** A completed fixture between two members of the season. */
  ghost predicate PlayedIn(f: Fixture, season: Season) {
    && f.competition == PREMIER_LEAGUE && f.season == season.id
    && f.home in season.Teams() && f.away in season.Teams() && f.status == Finished && f.fullTime.Some?
  }

  lemma UsableIsPlayed(f: Fixture, season: Season)
    ensures HistoryFault(f, season).None? <==> PlayedIn(f, season)
  {
  }

  /** Continuing clubs played last season, promoted ones were not members of it. */
  ghost predicate EntryFits(m: Membership, fixtures: seq<Fixture>, previous: Season) {
    if m.entry.Continued? then m.team in previous.Teams() && Appears(m.team, fixtures) else m.team !in previous.Teams()
  }

  lemma ContinuedExactly(m: Membership, fixtures: seq<Fixture>, previous: Season)
    requires m.entry.Continued?
    ensures MemberPrior(m, fixtures, previous).Success? <==>
            m.team in previous.Teams() && ClubTally(m.team, fixtures).matches > 0
  {
  }

  lemma PromotedExactly(m: Membership, fixtures: seq<Fixture>, previous: Season)
    requires m.entry.Promoted?
    ensures MemberPrior(m, fixtures, previous).Success? <==>
            m.team !in previous.Teams() && LeagueTally(fixtures).matches > 0
  {
  }

  lemma PriorExistsExactly(m: Membership, fixtures: seq<Fixture>, previous: Season)
    requires fixtures != []
    ensures MemberPrior(m, fixtures, previous).Success? <==> EntryFits(m, fixtures, previous)
  {
    TallyCountsAppearances(m.team, fixtures);
    LeagueTallyBalanced(fixtures);
    if m.entry.Continued? {
      ContinuedExactly(m, fixtures, previous);
    } else {
      PromotedExactly(m, fixtures, previous);
    }
  }

  /** Exactly which previous season a season may open on. */
  lemma HistoryAcceptedExactly(season: Season, fixtures: seq<Fixture>, previous: Season)
    ensures HistoryAccepted(season, fixtures, previous) <==>
              && previous.endsOn < season.startsOn && fixtures != []
              && (forall f :: f in fixtures ==> PlayedIn(f, previous))
              && (forall m :: m in season.memberships ==> EntryFits(m, fixtures, previous))
  {
    forall f
      ensures HistoryFault(f, previous).None? <==> PlayedIn(f, previous)
    {
      UsableIsPlayed(f, previous);
    }
    if fixtures != [] {
      forall m
        ensures MemberPrior(m, fixtures, previous).Success? <==> EntryFits(m, fixtures, previous)
      {
        PriorExistsExactly(m, fixtures, previous);
      }
    }
  }

  // ---------------------------------------------------------------- ratings

  /** A continuing club keeps its side of the baseline, no further from it; everyone else starts on it. */
  lemma RatingOpens(season: Season, previous: Option<Ratings>, p: EloParameters, r: Ratings, m: Membership)
    requires p.Valid() && IsOpening(season, previous, p, r) && m in season.memberships
    ensures m.team in r
    ensures previous.None? || m.entry.Promoted? ==> r[m.team] == p.initial
    ensures previous.Some? && m.entry.Continued? && m.team in previous.value ==>
              var was := previous.value[m.team];
              && r[m.team] - p.initial == Times(p.retention, was - p.initial)
              && (was >= p.initial ==> p.initial <= r[m.team] <= was) && (was <= p.initial ==> was <= r[m.team] <= p.initial)
  {
    assert m.team in season.Teams();
    if previous.Some? && m.team in previous.value {
      Between(p.retention, previous.value[m.team] - p.initial);
    }
  }

  lemma Between(share: real, x: real)
    requires 0.0 <= share <= 1.0
    ensures x >= 0.0 ==> 0.0 <= Times(share, x) <= x
    ensures x <= 0.0 ==> x <= Times(share, x) <= 0.0
  {
    Distributes(x, share, 1.0 - share);
    ZeroAndOne(x);
    if x >= 0.0 {
      TimesMonotone(share, 0.0, x);
      TimesMonotone(1.0 - share, 0.0, x);
    } else {
      TimesMonotone(share, x, 0.0);
      TimesMonotone(1.0 - share, x, 0.0);
    }
  }

  // ---------------------------------------------------------------- the loop

  /** A season that is built on another begins after it has ended. */
  lemma BuiltOnStartsLater(rules: Rules, e: Entry, previous: Option<Build>, b: Build)
    requires BuildStep(rules)(e, previous, b)
    ensures b.entry == e && (previous.Some? ==> previous.value.entry.season.endsOn < e.season.startsOn)
  {
    assert IsBuild(rules, e, previous, b);
  }

  /** Every step is for its entry, whose season begins after that of the step before. */
  ghost predicate StartsLater(step: Step<Entry, Build>) {
    forall e, previous, b :: step(e, previous, b) ==>
      b.entry == e && (previous.Some? ==> previous.value.entry.season.endsOn < e.season.startsOn)
  }

  lemma NextStartsLater(step: Step<Entry, Build>, entries: seq<Entry>, builds: seq<Build>, j: nat)
    requires IsChain(step, entries, builds) && StartsLater(step) && j + 1 < |entries|
    ensures entries[j].season.endsOn < entries[j + 1].season.startsOn
  {
    ChainStep(step, entries, builds, j);
    ChainStep(step, entries, builds, j + 1);
    assert step(entries[j + 1], Some(builds[j]), builds[j + 1]);
  }

  /** Periods that each begin after the one before has ended are all in order. */
  lemma {:induction false} PeriodsInOrder(starts: seq<int>, ends: seq<int>, i: nat, j: nat)
    requires |starts| == |ends| && i < j < |starts|
    requires forall k :: 0 <= k < |starts| ==> starts[k] < ends[k]
    requires forall k :: 0 <= k < |starts| - 1 ==> ends[k] < starts[k + 1]
    ensures ends[i] < starts[j]
    decreases j
  {
    assert ends[j - 1] < starts[j - 1 + 1];
    if i < j - 1 {
      PeriodsInOrder(starts, ends, i, j - 1);
    }
  }

  lemma BuildsStartLater(rules: Rules)
    ensures StartsLater(BuildStep(rules))
  {
    var step := BuildStep(rules);
    forall e, previous, b | step(e, previous, b)
      ensures b.entry == e && (previous.Some? ==> previous.value.entry.season.endsOn < e.season.startsOn)
    {
      BuiltOnStartsLater(rules, e, previous, b);
    }
  }

  function Starts(entries: seq<Entry>): (r: seq<int>)
    ensures |r| == |entries| && forall k :: 0 <= k < |r| ==> r[k] == entries[k].season.startsOn
  {
    seq(|entries|, k requires 0 <= k < |entries| => entries[k].season.startsOn)
  }

  function Ends(entries: seq<Entry>): (r: seq<int>)
    ensures |r| == |entries| && forall k :: 0 <= k < |r| ==> r[k] == entries[k].season.endsOn
  {
    seq(|entries|, k requires 0 <= k < |entries| => entries[k].season.endsOn)
  }

  lemma EachStartsLater(step: Step<Entry, Build>, entries: seq<Entry>, builds: seq<Build>)
    requires IsChain(step, entries, builds) && StartsLater(step)
    ensures forall k :: 0 <= k < |entries| - 1 ==> Ends(entries)[k] < Starts(entries)[k + 1]
  {
    forall k | 0 <= k < |entries| - 1
      ensures Ends(entries)[k] < Starts(entries)[k + 1]
    {
      NextStartsLater(step, entries, builds, k);
    }
  }

  lemma ReviewedPeriods(entries: seq<Entry>)
    requires AllReviewed(entries)
    ensures forall k :: 0 <= k < |entries| ==> Starts(entries)[k] < Ends(entries)[k]
  {
    forall k | 0 <= k < |entries|
      ensures Starts(entries)[k] < Ends(entries)[k]
    {
      assert entries[k] in entries;
    }
  }

  /** The seasons of any history that can be built are in calendar order. */
  lemma SeasonsInOrder(rules: Rules, entries: seq<Entry>, builds: seq<Build>, i: nat, j: nat)
    requires IsChain(BuildStep(rules), entries, builds) && AllReviewed(entries) && i < j < |entries|
    ensures entries[i].season.endsOn < entries[j].season.startsOn
  {
    BuildsStartLater(rules);
    EachStartsLater(BuildStep(rules), entries, builds);
    ReviewedPeriods(entries);
    PeriodsInOrder(Starts(entries), Ends(entries), i, j);
  }

  /** A promoted club opens on the baseline, a continuing one on its final rating drawn in to the baseline. */
  ghost predicate OpensOn(p: EloParameters, m: Membership, final: Ratings, opening: Ratings) {
    && m.team in opening
    && (m.entry.Promoted? ==> opening[m.team] == p.initial)
    && (m.entry.Continued? ==>
          m.team in final && opening[m.team] - p.initial == Times(p.retention, final[m.team] - p.initial))
  }

  ghost predicate AllOpenOn(p: EloParameters, season: Season, final: Ratings, opening: Ratings) {
    forall m :: m in season.memberships ==> OpensOn(p, m, final, opening)
  }

  lemma OpeningsAreOn(season: Season, final: Ratings, p: EloParameters, r: Ratings)
    requires p.Valid() && IsOpening(season, Some(final), p, r)
    requires forall m :: m in season.memberships ==> !LacksRating(m, Some(final))
    ensures AllOpenOn(p, season, final, r)
  {
    forall m | m in season.memberships
      ensures OpensOn(p, m, final, r)
    {
      RatingOpens(season, Some(final), p, r, m);
    }
  }

  /** Every season after the first opens each club on what the season before left it. */
  lemma SeasonOpensOnLast(rules: Rules, e: Entry, previous: Build, b: Build)
    requires rules.elo.Valid() && IsBuild(rules, e, Some(previous), b)
    ensures AllOpenOn(rules.elo, e.season, previous.result.finalRatings, b.setup.ratings)
  {
    OpeningsAreOn(e.season, previous.result.finalRatings, rules.elo, b.setup.ratings);
  }
}

/** What Elo updates keep: order independence, conservation of points, bounded drift, and contraction between seasons. */
module EloLaws {
  import opened Wrappers
  import opened Algebra
  import opened Collections
  import opened Batching
  import opened Fixtures
  import opened Elo

  /** The result of a batch does not depend on the order of its fixtures. */
  lemma BatchOrderFree(ratings: Ratings, a: seq<Fixture>, b: seq<Fixture>, rule: Rule)
    requires multiset(a) == multiset(b)
    ensures AfterBatch(ratings, a, rule) == AfterBatch(ratings, b, rule)
  {
    forall team | team in ratings
      ensures Sum(Gain(ratings, rule, team), a) == Sum(Gain(ratings, rule, team), b)
    {
      SumPermutation(Gain(ratings, rule, team), a, b);
    }
  }

  // ---------------------------------------------------------------- conservation

  function Rating(ratings: Ratings): TeamId -> real {
    (team: TeamId) => if team in ratings then ratings[team] else 0.0
  }

  ghost function Total(ratings: Ratings): real {
    Sum(Rating(ratings), Listing((team: TeamId) => team, ratings.Keys))
  }

  function TotalGain(ratings: Ratings, fixtures: seq<Fixture>, rule: Rule): TeamId -> real {
    (team: TeamId) => Sum(Gain(ratings, rule, team), fixtures)
  }

  function GainByTeam(ratings: Ratings, f: Fixture, rule: Rule): TeamId -> real {
    (team: TeamId) => GainFrom(ratings, f, team, rule)
  }

  /** What one fixture gives to the clubs adds up to nothing. */
  lemma FixtureIsZeroSum(ratings: Ratings, f: Fixture, teams: seq<TeamId>, rule: Rule)
    requires f.home in teams && f.away in teams
    requires forall i, j :: 0 <= i < j < |teams| ==> teams[i] != teams[j]
    ensures Sum(GainByTeam(ratings, f, rule), teams) == 0.0
  {
    var d := rule(ratings, f);
    var won := (team: TeamId) => if team == f.home then d else 0.0;
    var lost := (team: TeamId) => if team == f.away then -d else 0.0;
    assert forall team :: GainByTeam(ratings, f, rule)(team) == won(team) + lost(team);
    SumPlus(won, lost, GainByTeam(ratings, f, rule), teams);
    SumSingle(won, teams, f.home);
    SumSingle(lost, teams, f.away);
  }

  lemma {:induction false} GainsAreZeroSum(
      ratings: Ratings, fixtures: seq<Fixture>, teams: seq<TeamId>, rule: Rule)
    requires forall f :: f in fixtures ==> f.home in teams && f.away in teams
    requires forall i, j :: 0 <= i < j < |teams| ==> teams[i] != teams[j]
    ensures Sum(TotalGain(ratings, fixtures, rule), teams) == 0.0
    decreases |fixtures|
  {
    if fixtures == [] {
      SumZero(TotalGain(ratings, [], rule), teams);
    } else {
      var rest := fixtures[1..];
      SumPlus(GainByTeam(ratings, fixtures[0], rule), TotalGain(ratings, rest, rule),
              TotalGain(ratings, fixtures, rule), teams);
      FixtureIsZeroSum(ratings, fixtures[0], teams, rule);
      GainsAreZeroSum(ratings, rest, teams, rule);
    }
  }

  /** A batch update is zero-sum. */
  lemma BatchConserves(ratings: Ratings, fixtures: seq<Fixture>, rule: Rule)
    requires forall f :: f in fixtures ==> Rateable(ratings, f)
    ensures Total(AfterBatch(ratings, fixtures, rule)) == Total(ratings)
  {
    var id := (team: TeamId) => team;
    var teams := Listing(id, ratings.Keys);
    var after := AfterBatch(ratings, fixtures, rule);
    ListingLists(id, ratings.Keys);
    assert forall team :: team in teams <==> team in Elements(teams);
    assert forall i :: 0 <= i < |teams| ==> id(teams[i]) == teams[i];
    SumPlus(Rating(ratings), TotalGain(ratings, fixtures, rule), Rating(after), teams);
    GainsAreZeroSum(ratings, fixtures, teams, rule);
  }

  // ---------------------------------------------------------------- drift

  function AppearsIn(team: TeamId, f: Fixture): nat {
    (if team == f.home then 1 else 0) + (if team == f.away then 1 else 0)
  }

  function Appearances(team: TeamId, fixtures: seq<Fixture>): nat {
    if fixtures == [] then 0 else AppearsIn(team, fixtures[0]) + Appearances(team, fixtures[1..])
  }

  lemma {:induction false} AppearancesConcat(team: TeamId, a: seq<Fixture>, b: seq<Fixture>)
    ensures Appearances(team, a + b) == Appearances(team, a) + Appearances(team, b)
    decreases |a|
  {
    if a == [] {
      assert a + b == b;
    } else {
      assert (a + b)[1..] == a[1..] + b;
      AppearancesConcat(team, a[1..], b);
    }
  }

  /** A step repeated: n times k. */
  function Repeated(k: real, n: nat): real {
    if n == 0 then 0.0 else Repeated(k, n - 1) + k
  }

  lemma {:induction false} RepeatedIsProduct(k: real, n: nat)
    ensures Repeated(k, n) == Times(k, n as real)
  {
    if n > 0 {
      RepeatedIsProduct(k, n - 1);
      assert k * (n as real) == k * ((n - 1) as real) + k;
    }
  }

  lemma {:induction false} RepeatedAdds(k: real, m: nat, n: nat)
    ensures Repeated(k, m + n) == Repeated(k, m) + Repeated(k, n)
  {
    if n > 0 {
      RepeatedAdds(k, m, n - 1);
    }
  }

  /** No further than one K-factor for each match. */
  ghost predicate WithinMatches(x: real, k: real, matches: nat) {
    -Repeated(k, matches) <= x <= Repeated(k, matches)
  }

  lemma ChainDrift(x: real, y: real, k: real, m: nat, n: nat)
    requires WithinMatches(x, k, m) && WithinMatches(y, k, n)
    ensures WithinMatches(x + y, k, m + n)
  {
    RepeatedAdds(k, m, n);
  }

  lemma GainWithinMatches(ratings: Ratings, f: Fixture, team: TeamId, rule: Rule, k: real)
    requires MovesAtMost(rule, k)
    ensures WithinMatches(GainFrom(ratings, f, team, rule), k, AppearsIn(team, f))
  {
    var d := rule(ratings, f);
    var n := AppearsIn(team, f);
    assert Repeated(k, 1) == k && Repeated(k, 2) == k + k;
  }

  /** A batch moves a club by at most one K-factor for each of its matches. */
  lemma {:induction false} BatchDrift(
      ratings: Ratings, fixtures: seq<Fixture>, team: TeamId, rule: Rule, k: real)
    requires MovesAtMost(rule, k)
    ensures WithinMatches(Sum(Gain(ratings, rule, team), fixtures), k, Appearances(team, fixtures))
    decreases |fixtures|
  {
    if fixtures != [] {
      var g := Gain(ratings, rule, team);
      BatchDrift(ratings, fixtures[1..], team, rule, k);
      GainWithinMatches(ratings, fixtures[0], team, rule, k);
      ChainDrift(g(fixtures[0]), Sum(g, fixtures[1..]), k,
                       AppearsIn(team, fixtures[0]), Appearances(team, fixtures[1..]));
    }
  }

  // ---------------------------------------------------------------- a whole season

  /** Batches applied in order. */
  function RunBatches(ratings: Ratings, bs: seq<Batch<Fixture>>, rule: Rule): (r: Ratings)
    ensures r.Keys == ratings.Keys
  {
    if bs == [] then ratings else RunBatches(AfterBatch(ratings, bs[0].members, rule), bs[1..], rule)
  }

  ghost predicate AllRateable(teams: set<TeamId>, bs: seq<Batch<Fixture>>) {
    forall b, f :: b in bs && f in b.members ==> Completed(f) && f.home in teams && f.away in teams
  }

  lemma FirstBatchRateable(ratings: Ratings, bs: seq<Batch<Fixture>>)
    requires bs != [] && AllRateable(ratings.Keys, bs)
    ensures forall f :: f in bs[0].members ==> Rateable(ratings, f)
    ensures AllRateable(ratings.Keys, bs[1..])
  {
    assert bs[0] in bs;
    assert forall b :: b in bs[1..] ==> b in bs;
  }

  /** A season moves points between clubs and creates none. */
  lemma {:induction false} SeasonConserves(ratings: Ratings, bs: seq<Batch<Fixture>>, rule: Rule)
    requires AllRateable(ratings.Keys, bs)
    ensures Total(RunBatches(ratings, bs, rule)) == Total(ratings)
    decreases |bs|
  {
    if bs != [] {
      FirstBatchRateable(ratings, bs);
      BatchConserves(ratings, bs[0].members, rule);
      SeasonConserves(AfterBatch(ratings, bs[0].members, rule), bs[1..], rule);
    }
  }

  lemma AfterBatchDrift(ratings: Ratings, fixtures: seq<Fixture>, team: TeamId, rule: Rule, k: real)
    requires team in ratings && MovesAtMost(rule, k)
    ensures WithinMatches(AfterBatch(ratings, fixtures, rule)[team] - ratings[team], k,
                          Appearances(team, fixtures))
  {
    BatchDrift(ratings, fixtures, team, rule, k);
  }

  /** A season moves a club by at most one K-factor for each of its matches. */
  lemma {:induction false} SeasonDrift(
      ratings: Ratings, bs: seq<Batch<Fixture>>, team: TeamId, rule: Rule, k: real)
    requires team in ratings && MovesAtMost(rule, k)
    ensures WithinMatches(RunBatches(ratings, bs, rule)[team] - ratings[team], k,
                          Appearances(team, Timeline.Flatten(bs)))
    decreases |bs|
  {
    if bs != [] {
      var head, tail := bs[0].members, Timeline.Flatten(bs[1..]);
      var next := AfterBatch(ratings, head, rule);
      var last := RunBatches(next, bs[1..], rule);
      AfterBatchDrift(ratings, head, team, rule, k);
      SeasonDrift(next, bs[1..], team, rule, k);
      AppearancesConcat(team, head, tail);
      ChainDrift(next[team] - ratings[team], last[team] - next[team], k,
                 Appearances(team, head), Appearances(team, tail));
      assert RunBatches(ratings, bs, rule) == last;
    }
  }

  // ---------------------------------------------------------------- between seasons

  /** A rating no further than a budget from the baseline. */
  ghost predicate Near(ratings: Ratings, center: real, budget: real) {
    forall team :: team in ratings ==> -budget <= ratings[team] - center <= budget
  }

  /** Opening a season pulls every rating in by the retention share. */
  lemma OpeningContracts(season: Season, previous: Ratings, p: EloParameters, r: Ratings, budget: real)
    requires p.Valid() && budget >= 0.0
    requires IsOpening(season, Some(previous), p, r) && Near(previous, p.initial, budget)
    ensures Near(r, p.initial, Times(p.retention, budget))
  {
    forall team | team in r
      ensures -Times(p.retention, budget) <= r[team] - p.initial <= Times(p.retention, budget)
    {
      var m :| m in season.memberships && m.team == team;
      TimesMonotone(p.retention, 0.0, budget);
      if team in previous {
        TimesMonotone(p.retention, previous[team] - p.initial, budget);
        TimesMonotone(p.retention, p.initial - previous[team], budget);
        TimesNegates(p.retention, previous[team] - p.initial);
      }
    }
  }

  lemma TimesMonotone(k: real, x: real, y: real)
    requires k >= 0.0 && x <= y
    ensures Times(k, x) <= Times(k, y)
    ensures Times(k, 0.0) == 0.0
  {
    var gap := y - x;
    assert k * gap >= 0.0;
    assert k * gap == k * y - k * x;
  }

  lemma TimesNegates(k: real, x: real)
    ensures Times(k, -x) == -Times(k, x)
  {
  }
}

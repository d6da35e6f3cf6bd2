/** Leakage freedom of a whole materialised history: nothing of a later batch or season reaches a row. */
module AcrossSeasons {
  import opened Wrappers
  import opened Collections
  import opened Batching
  import opened Fixtures
  import opened Predictors
  import opened Replay
  import opened Engine
  import opened PointInTime
  import opened Chains
  import opened SeasonLoop

  /** Histories whose first inputs agree agree on their first results. */
  lemma SameStart<E(!new), B(!new)>(
      step: Step<E, B>, first: seq<E>, x: seq<B>, second: seq<E>, y: seq<B>, i: nat)
    requires Deterministic(step) && IsChain(step, first, x) && IsChain(step, second, y)
    requires i <= |first| && i <= |second| && first[..i] == second[..i]
    ensures x[..i] == y[..i] && Before(x, i) == Before(y, i)
  {
    ChainPrefix(step, first, x, i);
    assert second == first[..i] + second[i..];
    HistoryIsStable(step, first[..i], x[..i], second[i..], y, i);
    assert x[..i][..i] == x[..i];
    SameBefore(x, y, i);
  }

  lemma ChainPrefix<E(!new), B(!new)>(step: Step<E, B>, inputs: seq<E>, results: seq<B>, i: nat)
    requires IsChain(step, inputs, results) && i <= |inputs|
    ensures IsChain(step, inputs[..i], results[..i])
  {
    forall j | 0 <= j < i
      ensures step(inputs[..i][j], Before(results[..i], j), results[..i][j])
    {
      assert Before(results[..i], j) == Before(results, j);
    }
  }

  /** One season of two manifests: the same members, schedule and results before f's batch. */
  ghost predicate AgreeUpTo(rules: Rules, a: Entry, b: Entry, f: Fixture, g: Fixture) {
    && a.season == b.season && f in a.fixtures && g in b.fixtures
    && f.KickoffSlot() == g.KickoffSlot() && f.home == g.home && f.away == g.away
    && SameSchedule(rules.zone, Elements(a.fixtures), Elements(b.fixtures))
    && AgreeBefore(rules.zone, Elements(a.fixtures), Elements(b.fixtures), f)
  }

  /** The season before and the members decide how a season opens. */
  lemma SameOpening(rules: Rules, a: Entry, b: Entry, previous: Option<Build>, x: Build, y: Build)
    requires IsBuild(rules, a, previous, x) && IsBuild(rules, b, previous, y) && a.season == b.season
    ensures x.setup == y.setup
  {
    PriorsUnique(a.season, History(previous), x.setup.priors, y.setup.priors);
    OpeningUnique(a.season, Inherited(previous), rules.elo, x.setup.ratings, y.setup.ratings);
  }

  lemma BuildsDoNotLeak(
      rules: Rules, a: Entry, b: Entry, previous: Option<Build>, x: Build, y: Build, f: Fixture, g: Fixture,
      before: FeatureRow, after: FeatureRow)
    requires IsBuild(rules, a, previous, x) && IsBuild(rules, b, previous, y) && AgreeUpTo(rules, a, b, f, g)
    requires before in x.result.rows && before.fixture == f.id && after in y.result.rows && after.fixture == g.id
    ensures before.predictors == after.predictors && before.cutoff == after.cutoff
  {
    SameOpening(rules, a, b, previous, x, y);
    OrderableIsInjective(rules.zone, a.fixtures);
    OrderableIsInjective(rules.zone, b.fixtures);
    SeasonsDoNotLeak(rules.zone, x.setup, Elements(a.fixtures), Elements(b.fixtures), f, g, before, after);
  }

  /**
   Two materialised histories that agree on all earlier seasons, and in season i on its members, its
   schedule and the results of all batches before f's, publish the same predictors and cutoff for f.
   Whatever follows in f's batch, later in the season or in later seasons makes no difference.
   */
  lemma HistoriesDoNotLeak(
      rules: Rules, first: seq<Entry>, x: seq<Build>, second: seq<Entry>, y: seq<Build>, i: nat, f: Fixture, g: Fixture,
      before: FeatureRow, after: FeatureRow)
    requires IsChain(BuildStep(rules), first, x) && IsChain(BuildStep(rules), second, y)
    requires i < |first| && i < |second| && first[..i] == second[..i] && AgreeUpTo(rules, first[i], second[i], f, g)
    requires before in x[i].result.rows && before.fixture == f.id && after in y[i].result.rows && after.fixture == g.id
    ensures before.predictors == after.predictors && before.cutoff == after.cutoff
  {
    var step := BuildStep(rules);
    BuildsAreDetermined(rules);
    SameStart(step, first, x, second, y, i);
    ChainStep(step, first, x, i);
    ChainStep(step, second, y, i);
    assert step(first[i], Before(x, i), x[i]) && step(second[i], Before(y, i), y[i]);
    BuildsDoNotLeak(rules, first[i], second[i], Before(x, i), x[i], y[i], f, g, before, after);
  }
}

/** The season-by-season build: each season opens on what the previous one left. */
module SeasonLoop {
  import opened Wrappers
  import opened Algebra
  import opened Calendar
  import opened Collections
  import opened Batching
  import opened Fixtures
  import opened Chronology
  import opened Elo
  import opened EloLaws
  import opened Priors
  import opened Predictors
  import opened Replay
  import opened Engine
  import opened Chains

  type EntryId = string

  /** One season of the manifest with its verified canonical inputs. */
  datatype Entry = Entry(id: EntryId, season: Season, fixtures: seq<Fixture>, provenance: Provenance)

  datatype Build = Build(entry: Entry, setup: SeasonSetup, result: SeasonResult)

  /** Everything that stays the same from season to season. */
  datatype Rules = Rules(zone: Zone, elo: EloParameters, curve: LogisticCurve)

  datatype LoopError = UnknownEntry(id: EntryId) | BadPriors(PriorError) | BadRatings(EloError) | BadBuild(BuildError)

  function History(previous: Option<Build>): Option<(seq<Fixture>, Season)> {
    if previous.None? then None else Some((previous.value.entry.fixtures, previous.value.entry.season))
  }

  function Inherited(previous: Option<Build>): Option<Ratings> {
    if previous.None? then None else Some(previous.value.result.finalRatings)
  }

  /** What the season before allows this season to open with. */
  ghost predicate Opens(rules: Rules, e: Entry, previous: Option<Build>, setup: SeasonSetup) {
    && setup.season == e.season && setup.elo == rules.elo && setup.curve == rules.curve
    && (previous.Some? ==> HistoryAccepted(e.season, previous.value.entry.fixtures, previous.value.entry.season))
    && ArePriors(e.season, History(previous), setup.priors)
    && (forall m :: m in e.season.memberships ==> !LacksRating(m, Inherited(previous)))
    && IsOpening(e.season, Inherited(previous), rules.elo, setup.ratings)
  }

  ghost function BatchesOf(rules: Rules, e: Entry): seq<FixtureBatch> {
    FixtureTimeline(rules.zone).Batches(Elements(e.fixtures))
  }

  ghost predicate Runs(rules: Rules, e: Entry, setup: SeasonSetup, result: SeasonResult) {
    && InputFault(e.fixtures, e.season, e.provenance).None? && Orderable(e.fixtures)
    && Prepared(setup) && BatchesReady(setup, BatchesOf(rules, e))
    && result.rows == SeasonRows(rules.zone, setup, BatchesOf(rules, e))
    && result.finalRatings == StateAfter(rules.zone, setup, BatchesOf(rules, e)).ratings
  }

  /** The build of one season, given the build of the season before it. */
  ghost predicate IsBuild(rules: Rules, e: Entry, previous: Option<Build>, b: Build) {
    b.entry == e && Opens(rules, e, previous, b.setup) && Runs(rules, e, b.setup, b.result)
  }

  ghost function BuildStep(rules: Rules): Step<Entry, Build> {
    (e: Entry, previous: Option<Build>, b: Build) => IsBuild(rules, e, previous, b)
  }

  // ---------------------------------------------------------------- the loop

  /** The fixtures and the season of the build before, if there is one. */
  function PreviousFixtures(previous: Option<Build>): Option<seq<Fixture>> {
    if previous.None? then None else Some(previous.value.entry.fixtures)
  }

  function PreviousSeason(previous: Option<Build>): Option<Season> {
    if previous.None? then None else Some(previous.value.entry.season)
  }

  /** The first complaint of one season, in the order its parts are built. */
  function SeasonFault(rules: Rules, e: Entry, previous: Option<Build>): Option<LoopError> {
    var priors := OpeningFault(e.season, PreviousFixtures(previous), PreviousSeason(previous));
    var ratings := Opened(e.season.memberships, Inherited(previous), rules.elo);
    var build := BuildFault(e.fixtures, e.season, e.provenance, None, None);
    if priors.Some? then Some(BadPriors(priors.value))
    else if ratings.Failure? then Some(BadRatings(ratings.error))
    else if build.Some? then Some(BadBuild(build.value))
    else None
  }

  lemma FaultOfPriors(rules: Rules, e: Entry, previous: Option<Build>, error: PriorError)
    requires OpeningFault(e.season, PreviousFixtures(previous), PreviousSeason(previous)) == Some(error)
    ensures SeasonFault(rules, e, previous) == Some(BadPriors(error))
  {
  }

  lemma FaultOfRatings(rules: Rules, e: Entry, previous: Option<Build>, error: EloError)
    requires OpeningFault(e.season, PreviousFixtures(previous), PreviousSeason(previous)).None?
    requires Opened(e.season.memberships, Inherited(previous), rules.elo) == Failure(error)
    ensures SeasonFault(rules, e, previous) == Some(BadRatings(error))
  {
  }

  lemma FaultOfBuild(rules: Rules, e: Entry, previous: Option<Build>, error: BuildError)
    requires OpeningFault(e.season, PreviousFixtures(previous), PreviousSeason(previous)).None?
    requires Opened(e.season.memberships, Inherited(previous), rules.elo).Success?
    requires BuildFault(e.fixtures, e.season, e.provenance, None, None) == Some(error)
    ensures SeasonFault(rules, e, previous) == Some(BadBuild(error))
  {
  }

  ghost function SeasonFaults(rules: Rules): Fault<Entry, Build, LoopError> {
    (e: Entry, previous: Option<Build>) => SeasonFault(rules, e, previous)
  }

  /** One season of the loop. */
  method BuildSeason(rules: Rules, e: Entry, previous: Option<Build>) returns (r: Result<Build, LoopError>)
    requires rules.elo.Valid() && e.season.Valid()
    ensures r.Success? ==> IsBuild(rules, e, previous, r.value)
    ensures r.Failure? ==> forall b :: !IsBuild(rules, e, previous, b)
    ensures r.Failure? ==> SeasonFault(rules, e, previous) == Some(r.error)
  {
    var priors := BuildSeasonOpeningPriors(e.season, PreviousFixtures(previous), PreviousSeason(previous));
    if priors.Failure? {
      FaultOfPriors(rules, e, previous, priors.error);
      return Failure(BadPriors(priors.error));
    }
    var ratings := InitializeSeasonRatings(e.season, Inherited(previous), rules.elo);
    if ratings.Failure? {
      FaultOfRatings(rules, e, previous, ratings.error);
      return Failure(BadRatings(ratings.error));
    }
    var built := BuildFrom(rules, e, priors.value, ratings.value);
    if built.Failure? {
      FaultOfBuild(rules, e, previous, built.error);
      NothingBuilds(rules, e, previous);
      return Failure(BadBuild(built.error));
    }
    return Success(built.value);
  }

  lemma NothingBuilds(rules: Rules, e: Entry, previous: Option<Build>)
    requires !Buildable(e)
    ensures forall b :: !IsBuild(rules, e, previous, b)
  {
    forall b
      ensures !IsBuild(rules, e, previous, b)
    {
      if IsBuild(rules, e, previous, b) {
        NothingRuns(rules, e, b.setup, b.result);
      }
    }
  }

  /** Whether the inputs of a season are acceptable to the build. */
  ghost predicate Buildable(e: Entry) {
    InputFault(e.fixtures, e.season, e.provenance).None? && Orderable(e.fixtures)
  }

  lemma NothingRuns(rules: Rules, e: Entry, setup: SeasonSetup, result: SeasonResult)
    requires Runs(rules, e, setup, result)
    ensures Buildable(e)
  {
  }

  method BuildFrom(rules: Rules, e: Entry, priors: map<TeamId, OpeningPrior>, ratings: Ratings)
    returns (r: Result<Build, BuildError>)
    requires rules.elo.Valid() && e.season.Valid()
    requires priors.Keys == e.season.Teams() == ratings.Keys
    ensures r.Success? <==> Buildable(e)
    ensures r.Failure? ==> BuildFault(e.fixtures, e.season, e.provenance, None, None) == Some(r.error)
    ensures r.Success? ==>
              && r.value.entry == e && r.value.setup == SeasonSetup(e.season, priors, ratings, rules.elo, rules.curve)
              && Runs(rules, e, r.value.setup, r.value.result)
  {
    var used := SeasonSetup(e.season, priors, ratings, rules.elo, rules.curve);
    var result, setup := BuildSeasonFeatureResult(
      rules.zone, e.fixtures, e.season, e.provenance, Some(priors), Some(ratings), rules.elo, rules.curve);
    if result.Failure? {
      return Failure(result.error);
    }
    assert setup == used;
    return Success(Build(e, used, result.value));
  }

  /** The entries the loop visits: all of them, or those up to the one it stops at. */
  function Visited(entries: seq<Entry>, stop: Option<EntryId>): seq<Entry> {
    if entries == [] then []
    else [entries[0]] + (if stop == Some(entries[0].id) then [] else Visited(entries[1..], stop))
  }

  /** The loop goes on as long as the named season has not been reached. */
  lemma {:induction false} VisitedGoesOn(entries: seq<Entry>, stop: Option<EntryId>)
    ensures forall i :: 0 <= i < |Visited(entries, stop)| - 1 ==> stop != Some(Visited(entries, stop)[i].id)
    decreases |entries|
  {
    if entries != [] {
      VisitedGoesOn(entries[1..], stop);
    }
  }

  lemma {:induction false} StoppedAtName(entries: seq<Entry>, stop: Option<EntryId>)
    requires exists e :: e in entries && stop == Some(e.id)
    ensures Visited(entries, stop) != [] && stop == Some(Visited(entries, stop)[|Visited(entries, stop)| - 1].id)
    decreases |entries|
  {
    var e :| e in entries && stop == Some(e.id);
    if stop != Some(entries[0].id) {
      assert e in entries[1..];
      StoppedAtName(entries[1..], stop);
    }
  }

  /** The loop visits everything, or an initial part that ends at the first entry of the named season. */
  lemma VisitedEndsAtStop(entries: seq<Entry>, stop: Option<EntryId>)
    requires Names(entries, stop)
    ensures var v := Visited(entries, stop);
      && v <= entries && (forall i :: 0 <= i < |v| - 1 ==> stop != Some(v[i].id))
      && (if stop.None? then v == entries else v != [] && v[|v| - 1].id == stop.value)
  {
    VisitedIsPrefix(entries, stop);
    VisitedGoesOn(entries, stop);
    if stop.Some? {
      StoppedAtName(entries, stop);
    }
  }

  predicate Names(entries: seq<Entry>, stop: Option<EntryId>) {
    stop.Some? ==> exists e :: e in entries && e.id == stop.value
  }

  /** Every season of the manifest comes from the reviewed registry. */
  ghost predicate AllReviewed(entries: seq<Entry>) {
    forall e :: e in entries ==> e.season.Valid()
  }

  method NextBuild(
      rules: Rules, e: Entry, previous: Option<Build>,
      ghost step: Step<Entry, Build>, ghost fault: Fault<Entry, Build, LoopError>)
    returns (r: Result<Build, LoopError>)
    requires rules.elo.Valid() && e.season.Valid() && step == BuildStep(rules) && fault == SeasonFaults(rules)
    ensures r.Success? ==> step(e, previous, r.value)
    ensures r.Failure? ==> (forall b :: !step(e, previous, b)) && fault(e, previous) == Some(r.error)
  {
    r := BuildSeason(rules, e, previous);
  }

  /** Builds season after season, each from the build before it, and stops after the named season. */
  method MaterializeFeatureEntries(rules: Rules, entries: seq<Entry>, stop: Option<EntryId>)
    returns (r: Result<seq<Build>, LoopError>)
    requires rules.elo.Valid() && AllReviewed(entries)
    ensures r.Success? <==> Names(entries, stop) && HasChain(BuildStep(rules), Visited(entries, stop))
    ensures r.Success? ==> IsChain(BuildStep(rules), Visited(entries, stop), r.value)
    ensures r.Failure? ==>
              if !Names(entries, stop) then r.error == UnknownEntry(stop.value)
              else StopsWith(BuildStep(rules), SeasonFaults(rules), Visited(entries, stop), r.error)
  {
    if !Names(entries, stop) {
      return Failure(UnknownEntry(stop.value));
    }
    BuildsAreDetermined(rules);
    r := VisitEntries(rules, entries, stop, BuildStep(rules), SeasonFaults(rules));
  }

  method AppendBuild(
      rules: Rules, e: Entry, builds: seq<Build>, ghost target: seq<Entry>,
      ghost step: Step<Entry, Build>, ghost fault: Fault<Entry, Build, LoopError>)
    returns (r: Result<seq<Build>, LoopError>)
    requires rules.elo.Valid() && e.season.Valid()
    requires step == BuildStep(rules) && Deterministic(step) && fault == SeasonFaults(rules)
    requires |builds| < |target| && target[|builds|] == e && IsChain(step, target[..|builds|], builds)
    ensures r.Success? ==> |r.value| == |builds| + 1 && IsChain(step, target[..|builds| + 1], r.value)
    ensures r.Failure? ==> !HasChain(step, target) && StopsWith(step, fault, target, r.error)
  {
    var built := NextBuild(rules, e, Before(builds, |builds|), step, fault);
    if built.Failure? {
      NoChain(step, target, builds);
      StopFound(step, fault, target, builds, built.error);
      return Failure(built.error);
    }
    ChainExtends(step, target, builds, built.value);
    return Success(builds + [built.value]);
  }

  /** The builds of the first entries, on the way through the visited ones. */
  ghost predicate OnTheWay(
      entries: seq<Entry>, stop: Option<EntryId>, target: seq<Entry>, step: Step<Entry, Build>, builds: seq<Build>, i: nat)
  {
    && i <= |entries| && |builds| == i <= |target|
    && target == entries[..i] + Visited(entries[i..], stop)
    && IsChain(step, target[..i], builds)
  }

  lemma SetOut(entries: seq<Entry>, stop: Option<EntryId>, step: Step<Entry, Build>)
    ensures OnTheWay(entries, stop, Visited(entries, stop), step, [], 0)
  {
    assert entries[0..] == entries;
  }

  lemma Arrived(
      entries: seq<Entry>, stop: Option<EntryId>, target: seq<Entry>, step: Step<Entry, Build>, builds: seq<Build>)
    requires OnTheWay(entries, stop, target, step, builds, |entries|)
          || (|builds| == |target| && IsChain(step, target[..|builds|], builds))
    ensures IsChain(step, target, builds) && HasChain(step, target)
  {
    assert Visited(entries[|entries|..], stop) == [];
    assert target[..|builds|] == target;
    ChainFound(step, target, builds);
  }

  lemma OneFurther(
      entries: seq<Entry>, stop: Option<EntryId>, target: seq<Entry>, step: Step<Entry, Build>,
      builds: seq<Build>, i: nat, more: seq<Build>)
    requires i < |entries| && OnTheWay(entries, stop, target, step, builds, i)
    requires |more| == i + 1 <= |target| && IsChain(step, target[..i + 1], more)
    ensures stop == Some(entries[i].id) ==> |target| == i + 1
    ensures stop != Some(entries[i].id) ==> OnTheWay(entries, stop, target, step, more, i + 1)
  {
    VisitedStep(entries, stop, target, i);
  }

  method VisitEntries(
      rules: Rules, entries: seq<Entry>, stop: Option<EntryId>,
      ghost step: Step<Entry, Build>, ghost fault: Fault<Entry, Build, LoopError>)
    returns (r: Result<seq<Build>, LoopError>)
    requires rules.elo.Valid() && AllReviewed(entries)
    requires step == BuildStep(rules) && Deterministic(step) && fault == SeasonFaults(rules)
    ensures r.Success? <==> HasChain(step, Visited(entries, stop))
    ensures r.Success? ==> IsChain(step, Visited(entries, stop), r.value)
    ensures r.Failure? ==> StopsWith(step, fault, Visited(entries, stop), r.error)
  {
    var builds: seq<Build> := [];
    ghost var target := Visited(entries, stop);
    SetOut(entries, stop, step);
    for i := 0 to |entries|
      invariant OnTheWay(entries, stop, target, step, builds, i)
    {
      var more, done := VisitOne(rules, entries, stop, i, builds, target, step, fault);
      if done || more.Failure? {
        return more;
      }
      builds := more.value;
    }
    Arrived(entries, stop, target, step, builds);
    return Success(builds);
  }

  /** One entry of the loop; the loop is done after the one it stops at. */
  method VisitOne(
      rules: Rules, entries: seq<Entry>, stop: Option<EntryId>, i: nat, builds: seq<Build>, ghost target: seq<Entry>,
      ghost step: Step<Entry, Build>, ghost fault: Fault<Entry, Build, LoopError>)
    returns (r: Result<seq<Build>, LoopError>, done: bool)
    requires rules.elo.Valid() && AllReviewed(entries) && i < |entries|
    requires step == BuildStep(rules) && Deterministic(step) && fault == SeasonFaults(rules)
    requires OnTheWay(entries, stop, target, step, builds, i)
    ensures r.Failure? ==> !HasChain(step, target) && StopsWith(step, fault, target, r.error)
    ensures r.Success? && done ==> IsChain(step, target, r.value) && HasChain(step, target)
    ensures r.Success? && !done ==> OnTheWay(entries, stop, target, step, r.value, i + 1)
  {
    VisitedStep(entries, stop, target, i);
    ReviewedAt(entries, i);
    r := AppendBuild(rules, entries[i], builds, target, step, fault);
    done := stop == Some(entries[i].id);
    if r.Success? {
      OneFurther(entries, stop, target, step, builds, i, r.value);
      if done {
        Arrived(entries, stop, target, step, r.value);
      }
    }
  }

  lemma ReviewedAt(entries: seq<Entry>, i: nat)
    requires AllReviewed(entries) && i < |entries|
    ensures entries[i].season.Valid()
  {
    assert entries[i] in entries;
  }

  lemma VisitedStep(entries: seq<Entry>, stop: Option<EntryId>, target: seq<Entry>, i: nat)
    requires i < |entries| && target == entries[..i] + Visited(entries[i..], stop)
    ensures i < |target| && target[i] == entries[i]
    ensures stop == Some(entries[i].id) ==> |target| == i + 1
    ensures stop != Some(entries[i].id) ==> target == entries[..i + 1] + Visited(entries[i + 1..], stop)
  {
    assert entries[i..][1..] == entries[i + 1..];
  }

  lemma PriorsUnique(
      season: Season, history: Option<(seq<Fixture>, Season)>, a: map<TeamId, OpeningPrior>, b: map<TeamId, OpeningPrior>)
    requires ArePriors(season, history, a) && ArePriors(season, history, b)
    ensures a == b
  {
    forall t | t in season.Teams()
      ensures a[t] == b[t]
    {
      var m :| m in season.memberships && m.team == t;
    }
  }

  lemma OpeningUnique(season: Season, previous: Option<Ratings>, p: EloParameters, a: Ratings, b: Ratings)
    requires IsOpening(season, previous, p, a) && IsOpening(season, previous, p, b)
    ensures a == b
  {
    forall t | t in season.Teams()
      ensures a[t] == b[t]
    {
      var m :| m in season.memberships && m.team == t;
    }
  }

  /** A season's build is determined by its entry and the build before it. */
  lemma BuildUnique(rules: Rules, e: Entry, previous: Option<Build>, a: Build, b: Build)
    requires IsBuild(rules, e, previous, a) && IsBuild(rules, e, previous, b)
    ensures a == b
  {
    PriorsUnique(e.season, History(previous), a.setup.priors, b.setup.priors);
    OpeningUnique(e.season, Inherited(previous), rules.elo, a.setup.ratings, b.setup.ratings);
  }

  lemma BuildsAreDetermined(rules: Rules)
    ensures Deterministic(BuildStep(rules))
  {
    var step := BuildStep(rules);
    forall e, previous, a, b | step(e, previous, a) && step(e, previous, b)
      ensures a == b
    {
      BuildUnique(rules, e, previous, a, b);
    }
  }

  lemma {:induction false} VisitedIsPrefix(entries: seq<Entry>, stop: Option<EntryId>)
    ensures Visited(entries, stop) <= entries
    ensures stop.None? ==> Visited(entries, stop) == entries
    decreases |entries|
  {
    if entries != [] {
      VisitedIsPrefix(entries[1..], stop);
      assert entries == [entries[0]] + entries[1..];
    }
  }

  /** Stopping at a season gives exactly the first seasons of the full history. */
  lemma StoppedRunIsPrefix(
      rules: Rules, entries: seq<Entry>, stop: Option<EntryId>, stopped: seq<Build>, full: seq<Build>)
    requires IsChain(BuildStep(rules), Visited(entries, stop), stopped)
    requires IsChain(BuildStep(rules), Visited(entries, None), full)
    ensures stopped <= full
  {
    var visited := Visited(entries, stop);
    VisitedIsPrefix(entries, stop);
    VisitedIsPrefix(entries, None);
    BuildsAreDetermined(rules);
    PrefixDetermines(BuildStep(rules), visited, stopped, entries, full);
  }

  lemma PrefixDetermines<E(!new), B(!new)>(
      step: Step<E, B>, some: seq<E>, results: seq<B>, all: seq<E>, longer: seq<B>)
    requires Deterministic(step) && some <= all && IsChain(step, some, results) && IsChain(step, all, longer)
    ensures results <= longer
  {
    assert all == some + all[|some|..];
    HistoryIsStable(step, some, results, all[|some|..], longer, |some|);
    assert results[..|some|] == results;
  }

  // ---------------------------------------------------------------- ratings over any number of seasons

  /** A club plays at most this many matches in a season. */
  ghost predicate AtMostMatches(fixtures: seq<Fixture>, matches: nat) {
    forall team :: Appearances(team, fixtures) <= matches
  }

  /** A budget that survives a regression followed by a season. */
  predicate Sustains(p: EloParameters, matches: nat, budget: real) {
    budget >= 0.0 && Times(p.retention, budget) + Repeated(p.kFactor, matches) <= budget
  }

  /** K times the matches, divided by what a regression takes away. */
  function SeasonsBound(p: EloParameters, matches: nat): real
    requires p.retention < 1.0
  {
    Times(p.kFactor, matches as real) / (1.0 - p.retention)
  }

  lemma DivisionUndone(x: real, d: real)
    requires d > 0.0
    ensures (x / d) * d == x
    ensures x >= 0.0 ==> x / d >= 0.0
  {
  }

  lemma BoundSustains(p: EloParameters, matches: nat)
    requires p.Valid() && p.retention < 1.0
    ensures Sustains(p, matches, SeasonsBound(p, matches))
  {
    var total := Times(p.kFactor, matches as real);
    var budget := SeasonsBound(p, matches);
    RepeatedIsProduct(p.kFactor, matches);
    TimesMonotone(p.kFactor, 0.0, matches as real);
    DivisionUndone(total, 1.0 - p.retention);
    assert budget * (1.0 - p.retention) == budget - p.retention * budget;
  }

  function AppearanceCount(team: TeamId): Fixture -> real {
    (f: Fixture) => AppearsIn(team, f) as real
  }

  lemma {:induction false} AppearancesAreSum(team: TeamId, fixtures: seq<Fixture>)
    ensures Sum(AppearanceCount(team), fixtures) == Appearances(team, fixtures) as real
    decreases |fixtures|
  {
    if fixtures != [] {
      AppearancesAreSum(team, fixtures[1..]);
    }
  }

  lemma AppearancesOrderFree(team: TeamId, a: seq<Fixture>, b: seq<Fixture>)
    requires multiset(a) == multiset(b)
    ensures Appearances(team, a) == Appearances(team, b)
  {
    AppearancesAreSum(team, a);
    AppearancesAreSum(team, b);
    SumPermutation(AppearanceCount(team), a, b);
  }

  lemma PrefixAppearances(bs: seq<FixtureBatch>, n: nat, team: TeamId)
    requires n <= |bs|
    ensures Appearances(team, Timeline.Flatten(bs[..n])) <= Appearances(team, Timeline.Flatten(bs))
  {
    assert bs == bs[..n] + bs[n..];
    Timeline.FlattenConcat(bs[..n], bs[n..]);
    AppearancesConcat(team, Timeline.Flatten(bs[..n]), Timeline.Flatten(bs[n..]));
  }

  lemma {:induction false} RepeatedMonotone(k: real, m: nat, n: nat)
    requires k >= 0.0 && m <= n
    ensures 0.0 <= Repeated(k, m) <= Repeated(k, n)
  {
    if m < n {
      RepeatedMonotone(k, m, n - 1);
    } else if n > 0 {
      RepeatedMonotone(k, n - 1, n - 1);
    }
  }

  /** Within a season no rating leaves the budget, whatever number of its batches has been committed. */
  lemma SeasonStaysNear(
      rules: Rules, e: Entry, setup: SeasonSetup, n: nat, matches: nat, budget: real)
    requires rules.elo.Valid() && setup.elo == rules.elo && setup.curve == rules.curve
    requires Orderable(e.fixtures) && AtMostMatches(e.fixtures, matches)
    requires n <= |BatchesOf(rules, e)| && Sustains(rules.elo, matches, budget)
    requires Near(setup.ratings, rules.elo.initial, Times(rules.elo.retention, budget))
    ensures Near(StateAfter(rules.zone, setup, BatchesOf(rules, e)[..n]).ratings, rules.elo.initial, budget)
  {
    var bs := BatchesOf(rules, e);
    var k := rules.elo.kFactor;
    RatingsAreEloRun(rules.zone, setup, bs[..n]);
    EloRuleMovesAtMost(setup.elo, setup.curve);
    BatchesPermute(e.fixtures, rules.zone);
    forall team | team in setup.ratings
      ensures WithinMatches(RunBatches(setup.ratings, bs[..n], setup.EloMoves())[team] - setup.ratings[team], k, matches)
    {
      SeasonDrift(setup.ratings, bs[..n], team, setup.EloMoves(), k);
      PrefixAppearances(bs, n, team);
      AppearancesOrderFree(team, Timeline.Flatten(bs), e.fixtures);
      RepeatedMonotone(k, Appearances(team, Timeline.Flatten(bs[..n])), matches);
    }
  }

  lemma OpeningIsNear(rules: Rules, e: Entry, previous: Option<Build>, setup: SeasonSetup, budget: real)
    requires rules.elo.Valid() && budget >= 0.0 && Opens(rules, e, previous, setup)
    requires previous.Some? ==> Near(previous.value.result.finalRatings, rules.elo.initial, budget)
    ensures Near(setup.ratings, rules.elo.initial, Times(rules.elo.retention, budget))
  {
    if previous.Some? {
      OpeningContracts(e.season, previous.value.result.finalRatings, rules.elo, setup.ratings, budget);
    } else {
      TimesMonotone(rules.elo.retention, 0.0, budget);
      forall team | team in setup.ratings
        ensures setup.ratings[team] == rules.elo.initial
      {
        var m :| m in e.season.memberships && m.team == team;
      }
    }
  }

  lemma SeasonEndsNear(rules: Rules, e: Entry, setup: SeasonSetup, matches: nat, budget: real)
    requires rules.elo.Valid() && setup.elo == rules.elo && setup.curve == rules.curve
    requires Orderable(e.fixtures) && AtMostMatches(e.fixtures, matches) && Sustains(rules.elo, matches, budget)
    requires Near(setup.ratings, rules.elo.initial, Times(rules.elo.retention, budget))
    ensures Near(StateAfter(rules.zone, setup, BatchesOf(rules, e)).ratings, rules.elo.initial, budget)
  {
    var bs := BatchesOf(rules, e);
    SeasonStaysNear(rules, e, setup, |bs|, matches, budget);
    assert bs[..|bs|] == bs;
  }

  lemma EndsNear(rules: Rules, e: Entry, previous: Option<Build>, b: Build, matches: nat, budget: real)
    requires rules.elo.Valid() && BuildStep(rules)(e, previous, b) && AtMostMatches(e.fixtures, matches)
    requires Sustains(rules.elo, matches, budget)
    requires Near(b.setup.ratings, rules.elo.initial, Times(rules.elo.retention, budget))
    ensures Near(b.result.finalRatings, rules.elo.initial, budget)
  {
    assert IsBuild(rules, e, previous, b);
    SeasonEndsNear(rules, e, b.setup, matches, budget);
  }

  lemma OpensNear(rules: Rules, e: Entry, previous: Option<Build>, b: Build, budget: real)
    requires rules.elo.Valid() && budget >= 0.0 && BuildStep(rules)(e, previous, b)
    requires previous.Some? ==> Near(previous.value.result.finalRatings, rules.elo.initial, budget)
    ensures Near(b.setup.ratings, rules.elo.initial, Times(rules.elo.retention, budget))
  {
    assert IsBuild(rules, e, previous, b);
    OpeningIsNear(rules, e, previous, b.setup, budget);
  }

  /** A build that opens and ends within the budget. */
  ghost predicate WithinBudget(rules: Rules, budget: real, b: Build) {
    && Near(b.setup.ratings, rules.elo.initial, Times(rules.elo.retention, budget))
    && Near(b.result.finalRatings, rules.elo.initial, budget)
  }

  lemma StepIsBounded(rules: Rules, e: Entry, previous: Option<Build>, b: Build, matches: nat, budget: real)
    requires rules.elo.Valid() && BuildStep(rules)(e, previous, b) && AtMostMatches(e.fixtures, matches)
    requires Sustains(rules.elo, matches, budget)
    requires previous.Some? ==> WithinBudget(rules, budget, previous.value)
    ensures WithinBudget(rules, budget, b)
  {
    OpensNear(rules, e, previous, b, budget);
    EndsNear(rules, e, previous, b, matches, budget);
  }

  lemma ChainOpensNear(
      rules: Rules, entries: seq<Entry>, builds: seq<Build>, i: nat, matches: nat, budget: real)
    requires rules.elo.Valid() && IsChain(BuildStep(rules), entries, builds) && i < |builds|
    requires forall e :: e in entries ==> AtMostMatches(e.fixtures, matches)
    requires Sustains(rules.elo, matches, budget)
    ensures Near(builds[i].setup.ratings, rules.elo.initial, Times(rules.elo.retention, budget))
  {
    var step := BuildStep(rules);
    var good := (b: Build) => WithinBudget(rules, budget, b);
    forall e, previous, b | e in entries && step(e, previous, b) && (previous.Some? ==> good(previous.value))
      ensures good(b)
    {
      StepIsBounded(rules, e, previous, b, matches, budget);
    }
    ChainKeeps(step, entries, builds, good, i);
    assert good(builds[i]);
  }

  lemma BuildAt(rules: Rules, entries: seq<Entry>, builds: seq<Build>, i: nat)
    requires IsChain(BuildStep(rules), entries, builds) && i < |builds|
    ensures entries[i] in entries && IsBuild(rules, entries[i], Before(builds, i), builds[i])
  {
    assert BuildStep(rules)(entries[i], Before(builds, i), builds[i]);
  }

  /**
   Over any number of seasons, and after any batch of any of them, every rating stays within
   K times the matches divided by one minus the retention of the baseline.
   */
  lemma RatingsStayBounded(
      rules: Rules, entries: seq<Entry>, builds: seq<Build>, i: nat, n: nat, matches: nat)
    requires rules.elo.Valid() && rules.elo.retention < 1.0 && IsChain(BuildStep(rules), entries, builds)
    requires forall e :: e in entries ==> AtMostMatches(e.fixtures, matches)
    requires i < |builds| && n <= |BatchesOf(rules, entries[i])|
    ensures Near(StateAfter(rules.zone, builds[i].setup, BatchesOf(rules, entries[i])[..n]).ratings,
                 rules.elo.initial, SeasonsBound(rules.elo, matches))
  {
    var budget := SeasonsBound(rules.elo, matches);
    BoundSustains(rules.elo, matches);
    ChainOpensNear(rules, entries, builds, i, matches, budget);
    BuildAt(rules, entries, builds, i);
    SeasonStaysNear(rules, entries[i], builds[i].setup, n, matches, budget);
  }

  /** Each season ends with exactly the points it opened with. */
  lemma EverySeasonConserves(rules: Rules, entries: seq<Entry>, builds: seq<Build>, i: nat)
    requires rules.elo.Valid() && IsChain(BuildStep(rules), entries, builds) && i < |builds|
    ensures Total(builds[i].result.finalRatings) == Total(builds[i].setup.ratings)
  {
    var e, b := entries[i], builds[i];
    BuildAt(rules, entries, builds, i);
    var bs := BatchesOf(rules, e);
    RatingsAreEloRun(rules.zone, b.setup, bs);
    assert AllRateable(b.setup.ratings.Keys, bs);
    SeasonConserves(b.setup.ratings, bs, b.setup.EloMoves());
  }
}

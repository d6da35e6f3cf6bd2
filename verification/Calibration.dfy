/** Temperature calibration over expanding walk-forward folds, and what its folds may depend on. */
module Calibration {
  import opened Wrappers
  import opened Algebra
  import opened Fixtures
  import opened Temperature
  import opened TemperatureFit
  import opened FitDirection
  import opened FloorEffects
  import opened Metrics

  datatype Example = Example(id: ExampleId, season: string, outcome: MatchOutcome)

  const DEVELOPMENT_SEASONS: seq<string> := [
    "2015-2016", "2016-2017", "2017-2018", "2018-2019", "2019-2020",
    "2020-2021", "2021-2022", "2022-2023", "2023-2024", "2024-2025"]

  const FIRST_EVALUATED := 5
  const WINDOWS := 5

  function EvaluationSeason(k: nat): string
    requires k < WINDOWS
  {
    DEVELOPMENT_SEASONS[FIRST_EVALUATED + k]
  }

  function WindowId(k: nat): string
    requires k < WINDOWS
  {
    "walk-forward-" + EvaluationSeason(k)
  }

  const SOURCE_MODEL := "catboost"
  const CALIBRATED_MODEL := "catboost_calibrated"
  const CALIBRATION_CONFIGURATION := "temperature-scaling-v1"

  // ---------------------------------------------------------------- the fit

  datatype CalibrationError =
    | NoSources | OtherModel | NoConfiguration | UntouchedSeason | IncompleteSources | FoldViolated
    | RepeatedSources | TargetsDiffer | NoPredictions | Unscored(error: MetricError)

  datatype Fit = Fit(temperature: real, count: nat, lossBefore: real, lossAfter: real)

  /** The fit of a population: its loss at temperature one and at the temperature found. */
  ghost function FitOf(n: ExpLog, p: Parameters, predictions: seq<Prediction>, targets: Targets): Fit
    requires p.Usable(n) && predictions != [] && IdSet(predictions) <= targets.Keys
  {
    var rows := Rows(predictions, targets);
    var t := FittedLog(n, rows, p);
    Fit(n.exp(t), |rows|, MeanLogLoss(n, rows, 1.0, p.floor), MeanLogLoss(n, rows, n.exp(t), p.floor))
  }

  /** Fits one temperature to a population whose targets are exactly those of its predictions. */
  method FitTemperatureScaling(n: ExpLog, p: Parameters, predictions: seq<Prediction>, targets: Targets)
    returns (r: Result<Fit, CalibrationError>)
    requires p.Usable(n)
    ensures r.Success? <==> predictions != [] && NoSharedExample(predictions) && IdSet(predictions) == targets.Keys
    ensures r.Success? ==>
              var rows := Rows(predictions, targets);
              && r.value == FitOf(n, p, predictions, targets)
              && Fitted(n, rows, p, LossObjective(n, rows, p.floor), n.log(r.value.temperature))
    ensures r.Failure? ==>
              r.error == if !NoSharedExample(predictions) then RepeatedSources
                         else if IdSet(predictions) != targets.Keys then TargetsDiffer else NoPredictions
  {
    if !NoSharedExample(predictions) {
      return Failure(RepeatedSources);
    }
    if IdSet(predictions) != targets.Keys {
      return Failure(TargetsDiffer);
    }
    if predictions == [] {
      return Failure(NoPredictions);
    }
    var rows := Rows(predictions, targets);
    var t := FitLogTemperature(n, rows, p);
    assert n.log(n.exp(t)) == t && n.exp(0.0) == 1.0;
    var f := LossObjective(n, rows, p.floor);
    return Success(Fit(n.exp(t), |rows|, f(0.0), f(n.log(n.exp(t)))));
  }

  /** What a fit reports: the mean loss of the same rows at temperature one and at the temperature it found. */
  lemma FitReports(
      n: ExpLog, p: Parameters, predictions: seq<Prediction>, targets: Targets, before: seq<real>, after: seq<real>)
    requires p.Usable(n) && predictions != [] && IdSet(predictions) <= targets.Keys
    requires |before| == |after| == |predictions|
    requires FitOf(n, p, predictions, targets).temperature > 0.0
    requires var rows, t := Rows(predictions, targets), FitOf(n, p, predictions, targets).temperature;
      forall i :: 0 <= i < |rows| ==> LosesAt(n, rows[i], 1.0, p.floor, before[i]) && LosesAt(n, rows[i], t, p.floor, after[i])
    ensures var fit := FitOf(n, p, predictions, targets);
      && fit.count == |predictions|
      && Times(fit.lossBefore, fit.count as real) == SumOf(before) && Times(fit.lossAfter, fit.count as real) == SumOf(after)
  {
    var rows := Rows(predictions, targets);
    MeanOfLosses(n, rows, 1.0, p.floor, before);
    MeanOfLosses(n, rows, FitOf(n, p, predictions, targets).temperature, p.floor, after);
  }

  /** The listing of a population makes no difference to its fit. */
  lemma FitIsOrderFree(n: ExpLog, p: Parameters, a: seq<Prediction>, b: seq<Prediction>, targets: Targets)
    requires p.Usable(n) && a != [] && multiset(a) == multiset(b) && NoSharedExample(a) && IdSet(a) <= targets.Keys
    ensures b != [] && IdSet(b) <= targets.Keys
    ensures FitOf(n, p, a, targets) == FitOf(n, p, b, targets)
  {
    ScoringIsOrderFree(a, b, targets);
    assert a[0] in multiset(b);
  }

  // ---------------------------------------------------------------- targets

  /** The outcome of every development example; a later example replaces an earlier one with its id. */
  function TargetsOf(examples: seq<Example>): Targets {
    if examples == [] then map[] else
      var earlier, last := TargetsOf(examples[..|examples| - 1]), examples[|examples| - 1];
      if last.season in DEVELOPMENT_SEASONS then earlier[last.id := last.outcome] else earlier
  }

  /** The position of the example that decides the outcome of an id. */
  function Deciding(examples: seq<Example>, id: ExampleId): (r: Option<nat>)
    ensures r.Some? ==> r.value < |examples| && examples[r.value].id == id && examples[r.value].season in DEVELOPMENT_SEASONS
  {
    if examples == [] then None else
      var last := examples[|examples| - 1];
      if last.season in DEVELOPMENT_SEASONS && last.id == id then Some(|examples| - 1)
      else Deciding(examples[..|examples| - 1], id)
  }

  lemma {:induction false} DecidedTarget(examples: seq<Example>, id: ExampleId)
    ensures id in TargetsOf(examples) <==> Deciding(examples, id).Some?
    ensures id in TargetsOf(examples) ==> TargetsOf(examples)[id] == examples[Deciding(examples, id).value].outcome
    decreases |examples|
  {
    if examples != [] {
      DecidedTarget(examples[..|examples| - 1], id);
    }
  }

  lemma {:induction false} SameDeciding(a: seq<Example>, b: seq<Example>, id: ExampleId)
    requires |a| == |b| && forall i :: 0 <= i < |a| ==> a[i].id == b[i].id && a[i].season == b[i].season
    ensures Deciding(a, id) == Deciding(b, id)
    decreases |a|
  {
    if a != [] {
      SameDeciding(a[..|a| - 1], b[..|b| - 1], id);
    }
  }

  method CollectTargets(examples: seq<Example>) returns (targets: Targets)
    ensures targets == TargetsOf(examples)
  {
    targets := map[];
    for i := 0 to |examples|
      invariant targets == TargetsOf(examples[..i])
    {
      assert examples[..i + 1][..i] == examples[..i];
      if examples[i].season in DEVELOPMENT_SEASONS {
        targets := targets[examples[i].id := examples[i].outcome];
      }
    }
    assert examples[..|examples|] == examples;
  }

  // ---------------------------------------------------------------- what is accepted

  function IsEvaluated(season: string): bool {
    exists k :: 0 <= k < WINDOWS && season == EvaluationSeason(k)
  }

  function ExpectedIds(examples: seq<Example>): set<ExampleId> {
    set e | e in examples && IsEvaluated(e.season) :: e.id
  }

  predicate InItsFold(p: Prediction) {
    exists k :: 0 <= k < WINDOWS && p.partition == WindowId(k) && p.season == EvaluationSeason(k)
  }

  /** All sources name one and the same configuration. */
  predicate OneConfiguration(predictions: seq<Prediction>) {
    forall p, q :: p in predictions && q in predictions ==> p.configuration.Some? && p.configuration == q.configuration
  }

  /** The complaint about the sources, in the order the checks are made. */
  function SourceFault(predictions: seq<Prediction>, examples: seq<Example>): Option<CalibrationError> {
    if predictions == [] then Some(NoSources)
    else if exists p :: p in predictions && p.model != SOURCE_MODEL then Some(OtherModel)
    else if !OneConfiguration(predictions) then Some(NoConfiguration)
    else if exists p :: p in predictions && p.season !in DEVELOPMENT_SEASONS then Some(UntouchedSeason)
    else if !NoSharedExample(predictions) || IdSet(predictions) != ExpectedIds(examples) then Some(IncompleteSources)
    else if exists p :: p in predictions && !InItsFold(p) then Some(FoldViolated)
    else None
  }

  const EVALUATED: set<string> := {"2020-2021", "2021-2022", "2022-2023", "2023-2024", "2024-2025"}

  lemma EvaluatedExactly(season: string)
    ensures IsEvaluated(season) <==> season in EVALUATED
  {
    if season in EVALUATED {
      assert EvaluationSeason(0) == "2020-2021" && EvaluationSeason(1) == "2021-2022" && EvaluationSeason(2) == "2022-2023";
      assert EvaluationSeason(3) == "2023-2024" && EvaluationSeason(4) == "2024-2025";
    }
  }

  /** A catboost prediction of an evaluated season, in the window of that season. */
  ghost predicate FromItsSeason(p: Prediction) {
    p.model == "catboost" && p.season in EVALUATED && p.partition == "walk-forward-" + p.season
  }

  lemma InFoldExactly(p: Prediction)
    ensures InItsFold(p) <==> p.season in EVALUATED && p.partition == "walk-forward-" + p.season
  {
    EvaluatedExactly(p.season);
  }

  /** Every example of an evaluated season has one source, and there are no others. */
  ghost predicate CoversOnce(predictions: seq<Prediction>, examples: seq<Example>) {
    && (forall i, j :: 0 <= i < j < |predictions| ==> predictions[i].example != predictions[j].example)
    && (forall e :: e in examples && e.season in EVALUATED ==> exists p :: p in predictions && p.example == e.id)
    && (forall p :: p in predictions ==> exists e :: e in examples && e.season in EVALUATED && e.id == p.example)
  }

  lemma CoveredExactly(predictions: seq<Prediction>, examples: seq<Example>)
    ensures NoSharedExample(predictions) && IdSet(predictions) == ExpectedIds(examples) <==> CoversOnce(predictions, examples)
  {
    forall season
      ensures IsEvaluated(season) <==> season in EVALUATED
    {
      EvaluatedExactly(season);
    }
    if IdSet(predictions) == ExpectedIds(examples) {
      forall e | e in examples && e.season in EVALUATED
        ensures exists p :: p in predictions && p.example == e.id
      {
        assert e.id in IdSet(predictions);
      }
      forall p | p in predictions
        ensures exists e :: e in examples && e.season in EVALUATED && e.id == p.example
      {
        assert p.example in ExpectedIds(examples);
      }
    }
  }

  lemma NoComplaint(predictions: seq<Prediction>, examples: seq<Example>)
    ensures SourceFault(predictions, examples).None? <==>
              && predictions != [] && (forall p :: p in predictions ==> p.model == SOURCE_MODEL)
              && OneConfiguration(predictions) && (forall p :: p in predictions ==> p.season in DEVELOPMENT_SEASONS)
              && NoSharedExample(predictions) && IdSet(predictions) == ExpectedIds(examples)
              && (forall p :: p in predictions ==> InItsFold(p))
  {
  }

  lemma FromItsSeasonExactly(p: Prediction)
    ensures FromItsSeason(p) <==> p.model == SOURCE_MODEL && p.season in DEVELOPMENT_SEASONS && InItsFold(p)
  {
    InFoldExactly(p);
    if p.season in EVALUATED {
      EvaluatedExactly(p.season);
      EvaluatedIsDevelopment(p.season);
    }
  }

  /** One configuration is named, and it is the same everywhere. */
  ghost predicate SameConfiguration(predictions: seq<Prediction>)
    requires predictions != []
  {
    forall p :: p in predictions ==> p.configuration.Some? && p.configuration == predictions[0].configuration
  }

  /** What the sources must be. */
  ghost predicate AreSources(predictions: seq<Prediction>, examples: seq<Example>) {
    && predictions != [] && (forall p :: p in predictions ==> FromItsSeason(p))
    && SameConfiguration(predictions) && CoversOnce(predictions, examples)
  }

  lemma UncomplainedAreSources(predictions: seq<Prediction>, examples: seq<Example>)
    requires SourceFault(predictions, examples).None?
    ensures AreSources(predictions, examples)
  {
    NoComplaint(predictions, examples);
    CoveredExactly(predictions, examples);
    OneConfigurationExactly(predictions);
    forall p | p in predictions
      ensures FromItsSeason(p)
    {
      FromItsSeasonExactly(p);
    }
  }

  lemma SourcesRaiseNoComplaint(predictions: seq<Prediction>, examples: seq<Example>)
    requires AreSources(predictions, examples)
    ensures SourceFault(predictions, examples).None?
  {
    forall p | p in predictions
      ensures p.model == SOURCE_MODEL && p.season in DEVELOPMENT_SEASONS && InItsFold(p)
    {
      FromItsSeasonExactly(p);
    }
    NoComplaint(predictions, examples);
    CoveredExactly(predictions, examples);
    OneConfigurationExactly(predictions);
  }

  /** Exactly which sources raise no complaint. */
  lemma SourcesAccepted(predictions: seq<Prediction>, examples: seq<Example>)
    ensures SourceFault(predictions, examples).None? <==> AreSources(predictions, examples)
  {
    if SourceFault(predictions, examples).None? {
      UncomplainedAreSources(predictions, examples);
    }
    if AreSources(predictions, examples) {
      SourcesRaiseNoComplaint(predictions, examples);
    }
  }

  lemma OneConfigurationExactly(predictions: seq<Prediction>)
    requires predictions != []
    ensures OneConfiguration(predictions) <==> SameConfiguration(predictions)
  {
    assert predictions[0] in predictions;
  }

  lemma EvaluatedIsDevelopment(season: string)
    requires IsEvaluated(season)
    ensures season in DEVELOPMENT_SEASONS
  {
  }

  lemma {:induction false} DevelopmentIsDecided(examples: seq<Example>, e: Example)
    requires e in examples && e.season in DEVELOPMENT_SEASONS
    ensures e.id in TargetsOf(examples)
    decreases |examples|
  {
    var init, last := examples[..|examples| - 1], examples[|examples| - 1];
    assert examples == init + [last];
    if e != last {
      DevelopmentIsDecided(init, e);
    }
  }

  /** Every accepted prediction has a target. */
  lemma AcceptedHaveTargets(predictions: seq<Prediction>, examples: seq<Example>)
    requires SourceFault(predictions, examples).None?
    ensures IdSet(predictions) <= TargetsOf(examples).Keys
  {
    forall id | id in IdSet(predictions)
      ensures id in TargetsOf(examples)
    {
      assert id in ExpectedIds(examples);
      var e :| e in examples && IsEvaluated(e.season) && e.id == id;
      EvaluatedIsDevelopment(e.season);
      DevelopmentIsDecided(examples, e);
    }
  }

  // ---------------------------------------------------------------- folds

  function Partition(predictions: seq<Prediction>, k: nat): (r: seq<Prediction>)
    requires k < WINDOWS
    ensures forall p :: p in r ==> p in predictions && p.partition == WindowId(k)
  {
    if predictions == [] then [] else
      (if predictions[0].partition == WindowId(k) then [predictions[0]] else []) + Partition(predictions[1..], k)
  }

  /** The predictions of every earlier window. */
  function Reference(predictions: seq<Prediction>, i: nat): (r: seq<Prediction>)
    requires i <= WINDOWS
    ensures forall p :: p in r ==> p in predictions
  {
    if i == 0 then [] else Reference(predictions, i - 1) + Partition(predictions, i - 1)
  }

  function Restricted(targets: Targets, predictions: seq<Prediction>): Targets
    requires IdSet(predictions) <= targets.Keys
  {
    map id | id in IdSet(predictions) :: targets[id]
  }

  datatype Fold = Fold(
    partition: string, calibrationSeasons: seq<string>, season: string, fit: Fit, uncalibrated: Summary,
    calibrated: Summary, predictions: seq<Prediction>)

  /** The calibrated prediction; its floor is the default one, whatever floor the fit used. */
  function CalibratedPrediction(n: ExpLog, source: Prediction, temperature: real): Prediction
    requires IsExpLog(n) && temperature > 0.0
  {
    source.(model := CALIBRATED_MODEL, configuration := Some(CALIBRATION_CONFIGURATION),
            probabilities := TemperatureScaled(n, source.probabilities, temperature, PROBABILITY_FLOOR))
  }

  function Calibrated(n: ExpLog, predictions: seq<Prediction>, temperature: real): seq<Prediction>
    requires IsExpLog(n) && temperature > 0.0
  {
    seq(|predictions|, i requires 0 <= i < |predictions| => CalibratedPrediction(n, predictions[i], temperature))
  }

  function SeasonsBefore(i: nat): seq<string>
    requires i <= WINDOWS
  {
    seq(i, k requires 0 <= k < i => EvaluationSeason(k))
  }

  /** What a fold is fitted on. */
  ghost function FoldFit(n: ExpLog, p: Parameters, predictions: seq<Prediction>, targets: Targets, i: nat): Fit
    requires p.Usable(n) && i < WINDOWS
    requires Reference(predictions, i) != [] && IdSet(Reference(predictions, i)) <= targets.Keys
  {
    var reference := Reference(predictions, i);
    FitOf(n, p, reference, Restricted(targets, reference))
  }

  function Scored(n: ExpLog, model: string, predictions: seq<Prediction>, targets: Targets): Summary
    requires predictions != [] && IdSet(predictions) <= targets.Keys
  {
    SummaryOf(n, model, Rows(predictions, Restricted(targets, predictions)))
  }

  lemma {:induction false} PartitionUnique(predictions: seq<Prediction>, k: nat)
    requires k < WINDOWS && NoSharedExample(predictions)
    ensures NoSharedExample(Partition(predictions, k))
    decreases |predictions|
  {
    if predictions != [] {
      PartitionUnique(predictions[1..], k);
      var rest := Partition(predictions[1..], k);
      forall p | p in rest
        ensures p.example != predictions[0].example
      {
        var i :| 0 <= i < |predictions[1..]| && predictions[1..][i] == p;
        assert predictions[i + 1] == p;
      }
    }
  }

  lemma {:induction false} PartitionHolds(predictions: seq<Prediction>, k: nat, n: nat)
    requires k < WINDOWS && n < |predictions| && predictions[n].partition == WindowId(k)
    ensures predictions[n] in Partition(predictions, k)
    decreases |predictions|
  {
    if n > 0 {
      assert predictions[n] == predictions[1..][n - 1];
      PartitionHolds(predictions[1..], k, n - 1);
    }
  }

  lemma WindowsDiffer(j: nat, k: nat)
    requires j < k < WINDOWS
    ensures WindowId(j) != WindowId(k) && EvaluationSeason(j) != EvaluationSeason(k)
  {
    var a, b := EvaluationSeason(j), EvaluationSeason(k);
    assert a[2] != b[2] || a[3] != b[3];
    assert WindowId(j)[|"walk-forward-"|..] == a && WindowId(k)[|"walk-forward-"|..] == b;
  }

  ghost predicate PartitionBelow(p: Prediction, i: nat) {
    exists k: nat :: k < i && k < WINDOWS && p.partition == WindowId(k)
  }

  lemma {:induction false} ReferenceBelow(predictions: seq<Prediction>, i: nat, p: Prediction)
    requires i <= WINDOWS && p in Reference(predictions, i)
    ensures p in predictions && PartitionBelow(p, i)
  {
    if p in Reference(predictions, i - 1) {
      ReferenceBelow(predictions, i - 1, p);
      var k: nat :| k < i - 1 && k < WINDOWS && p.partition == WindowId(k);
      assert k < i;
    }
  }

  lemma {:induction false} ReferenceUnique(predictions: seq<Prediction>, i: nat)
    requires i <= WINDOWS && NoSharedExample(predictions)
    ensures NoSharedExample(Reference(predictions, i))
  {
    if i > 0 {
      ReferenceUnique(predictions, i - 1);
      OneMoreWindow(predictions, i - 1, Reference(predictions, i - 1), Partition(predictions, i - 1));
    }
  }

  lemma OneMoreWindow(predictions: seq<Prediction>, i: nat, earlier: seq<Prediction>, own: seq<Prediction>)
    requires i < WINDOWS && NoSharedExample(predictions) && NoSharedExample(earlier)
    requires earlier == Reference(predictions, i) && own == Partition(predictions, i)
    ensures NoSharedExample(earlier + own)
  {
    PartitionUnique(predictions, i);
    ReferenceApart(predictions, i);
    UniqueConcat(earlier, own);
  }

  /** No prediction of one is about an example of the other. */
  ghost predicate Apart(a: seq<Prediction>, b: seq<Prediction>) {
    forall p, q :: p in a && q in b ==> p.example != q.example
  }

  lemma ReferenceApart(predictions: seq<Prediction>, i: nat)
    requires i < WINDOWS && NoSharedExample(predictions)
    ensures Apart(Reference(predictions, i), Partition(predictions, i))
  {
    forall p, q | p in Reference(predictions, i) && q in Partition(predictions, i)
      ensures p.example != q.example
    {
      ReferenceBelow(predictions, i, p);
      ApartFromEarlier(predictions, i, p, q);
    }
  }

  lemma ApartFromEarlier(predictions: seq<Prediction>, i: nat, p: Prediction, q: Prediction)
    requires i < WINDOWS && NoSharedExample(predictions) && p in predictions && q in predictions
    requires PartitionBelow(p, i) && q.partition == WindowId(i)
    ensures p.example != q.example
  {
    var k: nat :| k < i && k < WINDOWS && p.partition == WindowId(k);
    WindowsDiffer(k, i);
    var m :| 0 <= m < |predictions| && predictions[m] == p;
    var n :| 0 <= n < |predictions| && predictions[n] == q;
  }

  lemma UniqueConcat(a: seq<Prediction>, b: seq<Prediction>)
    requires NoSharedExample(a) && NoSharedExample(b) && Apart(a, b)
    ensures NoSharedExample(a + b)
  {
    var s := a + b;
    forall i, j | 0 <= i < j < |s|
      ensures s[i].example != s[j].example
    {
      if i < |a| && j >= |a| {
        assert a[i] in a && b[j - |a|] in b;
      }
    }
  }

  /** The same predictions of the same examples, whatever their probabilities. */
  ghost predicate SameExamples(a: seq<Prediction>, b: seq<Prediction>) {
    |a| == |b| && forall i :: 0 <= i < |a| ==> a[i].example == b[i].example
  }

  lemma SameExamplesShare(a: seq<Prediction>, b: seq<Prediction>)
    requires SameExamples(a, b)
    ensures NoSharedExample(a) ==> NoSharedExample(b)
    ensures IdSet(a) == IdSet(b)
  {
    forall id
      ensures id in IdSet(a) <==> id in IdSet(b)
    {
      if id in IdSet(a) {
        var i :| 0 <= i < |a| && a[i].example == id;
        assert b[i] in b;
      }
      if id in IdSet(b) {
        var i :| 0 <= i < |b| && b[i].example == id;
        assert a[i] in a;
      }
    }
  }

  ghost predicate OfModel(predictions: seq<Prediction>, model: string) {
    forall p :: p in predictions ==> p.model == model
  }

  /** Scoring a population of one model against its own outcomes fails only for want of predictions or chances. */
  method ScorePopulation(n: ExpLog, model: string, predictions: seq<Prediction>, targets: Targets)
    returns (r: Result<Summary, MetricError>)
    requires NoSharedExample(predictions) && OfModel(predictions, model) && IdSet(predictions) <= targets.Keys
    ensures r.Success? <==> predictions != [] && Chances(predictions, targets)
    ensures r.Success? ==> r.value == Scored(n, model, predictions, targets)
    ensures r.Failure? ==> r.error == if predictions == [] then NothingToScore else Impossible
  {
    ScoringFault(model, predictions, targets);
    r := EvaluateProbabilisticPredictions(n, predictions, Restricted(targets, predictions));
  }

  lemma ScoringFault(model: string, predictions: seq<Prediction>, targets: Targets)
    requires NoSharedExample(predictions) && OfModel(predictions, model) && IdSet(predictions) <= targets.Keys
    ensures MetricFault(predictions, Restricted(targets, predictions)) ==
            if predictions == [] then Some(NothingToScore)
            else if !Chances(predictions, targets) then Some(Impossible) else None
    ensures predictions != [] ==> predictions[0].model == model
  {
    PossibleExactly(predictions, Restricted(targets, predictions));
    ChancesAreOwn(predictions, targets);
  }

  lemma ChancesAreOwn(predictions: seq<Prediction>, targets: Targets)
    requires IdSet(predictions) <= targets.Keys
    ensures Chances(predictions, Restricted(targets, predictions)) <==> Chances(predictions, targets)
  {
    forall p | p in predictions
      ensures p.example in targets && p.example in Restricted(targets, predictions)
      ensures Restricted(targets, predictions)[p.example] == targets[p.example]
    {
      assert p.example in IdSet(predictions);
    }
  }

  /** Calibrated predictions are those of the same examples and always leave every outcome a chance. */
  lemma CalibratedCanBeScored(n: ExpLog, predictions: seq<Prediction>, temperature: real, targets: Targets)
    requires IsExpLog(n) && temperature > 0.0 && IdSet(predictions) <= targets.Keys
    ensures var c := Calibrated(n, predictions, temperature);
      SameExamples(predictions, c) && OfModel(c, CALIBRATED_MODEL) && Chances(c, targets)
  {
    var c := Calibrated(n, predictions, temperature);
    SameExamplesShare(predictions, c);
    forall q | q in c
      ensures q.model == CALIBRATED_MODEL && q.example in targets && For(q.probabilities, targets[q.example]) > 0.0
    {
      var i :| 0 <= i < |c| && c[i] == q;
      assert q.example in IdSet(c);
      var o := targets[q.example];
      ScalingKeepsRanking(n, predictions[i].probabilities, temperature, PROBABILITY_FLOOR, o, o);
    }
  }

  // ---------------------------------------------------------------- one fold

  /** Why fold i cannot be evaluated: nothing to fit on, nothing to score, or an outcome given no chance. */
  function FoldFault(predictions: seq<Prediction>, targets: Targets, i: nat): Option<CalibrationError>
    requires i < WINDOWS
  {
    if Reference(predictions, i) == [] then Some(NoPredictions)
    else if Partition(predictions, i) == [] then Some(Unscored(NothingToScore))
    else if !Chances(Partition(predictions, i), targets) then Some(Unscored(Impossible))
    else None
  }

  ghost predicate IsFold(n: ExpLog, p: Parameters, predictions: seq<Prediction>, targets: Targets, i: nat, fold: Fold)
    requires p.Usable(n)
  {
    && i < WINDOWS && Reference(predictions, i) != [] && IdSet(Reference(predictions, i)) <= targets.Keys
    && Partition(predictions, i) != [] && IdSet(Partition(predictions, i)) <= targets.Keys
    && fold.partition == WindowId(i) && fold.season == EvaluationSeason(i) && fold.calibrationSeasons == SeasonsBefore(i)
    && fold.fit == FoldFit(n, p, predictions, targets, i) && fold.fit.temperature > 0.0
    && fold.predictions == Calibrated(n, Partition(predictions, i), fold.fit.temperature)
    && IdSet(fold.predictions) <= targets.Keys
    && fold.uncalibrated == Scored(n, SOURCE_MODEL, Partition(predictions, i), targets)
    && fold.calibrated == Scored(n, CALIBRATED_MODEL, fold.predictions, targets)
  }

  /** Whatever can be fitted and scored gives one fold. */
  lemma FoldExists(n: ExpLog, p: Parameters, predictions: seq<Prediction>, targets: Targets, i: nat) returns (fold: Fold)
    requires p.Usable(n) && i < WINDOWS
    requires Reference(predictions, i) != [] && IdSet(Reference(predictions, i)) <= targets.Keys
    requires Partition(predictions, i) != [] && IdSet(Partition(predictions, i)) <= targets.Keys
    ensures IsFold(n, p, predictions, targets, i, fold)
  {
    var fit, own := FoldFit(n, p, predictions, targets, i), Partition(predictions, i);
    var calibrated := Calibrated(n, own, fit.temperature);
    CalibratedCanBeScored(n, own, fit.temperature, targets);
    SameExamplesShare(own, calibrated);
    fold := Fold(WindowId(i), SeasonsBefore(i), EvaluationSeason(i), fit, Scored(n, SOURCE_MODEL, own, targets),
                 Scored(n, CALIBRATED_MODEL, calibrated, targets), calibrated);
  }

  lemma SeasonsAreEarlier(i: nat)
    requires i < WINDOWS
    ensures EvaluationSeason(i) == DEVELOPMENT_SEASONS[5 + i] && SeasonsBefore(i) == DEVELOPMENT_SEASONS[5..5 + i]
  {
  }

  lemma FoldNames(n: ExpLog, p: Parameters, predictions: seq<Prediction>, targets: Targets, i: nat, fold: Fold)
    requires p.Usable(n) && IsFold(n, p, predictions, targets, i, fold)
    ensures i < WINDOWS && fold.season == EvaluationSeason(i) && fold.calibrationSeasons == SeasonsBefore(i)
  {
  }

  /** A fold scores one season and is fitted on the evaluated seasons before it, in order. */
  lemma FoldSeasons(n: ExpLog, p: Parameters, predictions: seq<Prediction>, targets: Targets, i: nat, fold: Fold)
    requires p.Usable(n) && IsFold(n, p, predictions, targets, i, fold)
    ensures i < 5 && fold.season == DEVELOPMENT_SEASONS[5 + i]
    ensures fold.calibrationSeasons == DEVELOPMENT_SEASONS[5..5 + i]
  {
    FoldNames(n, p, predictions, targets, i, fold);
    SeasonsAreEarlier(i);
  }

  /** A fold scales with the default floor even where the floor of its fit would give something else. */
  lemma FoldsUseTheDefaultFloor(
      n: ExpLog, p: Parameters, predictions: seq<Prediction>, targets: Targets, i: nat, fold: Fold, j: nat,
      favoured: MatchOutcome, high: real, low: real)
    requires p.Usable(n) && IsFold(n, p, predictions, targets, i, fold) && j < |Partition(predictions, i)|
    requires Partition(predictions, i)[j].probabilities == Leaning(favoured, high, low)
    requires 0.0 < low < p.floor < high && PROBABILITY_FLOOR < p.floor
    ensures fold.fit.temperature > 0.0 && j < |fold.predictions|
    ensures var scaled := fold.predictions[j].probabilities;
      && scaled == TemperatureScaled(n, Leaning(favoured, high, low), fold.fit.temperature, PROBABILITY_FLOOR)
      && scaled != TemperatureScaled(n, Leaning(favoured, high, low), fold.fit.temperature, p.floor)
  {
    FloorsShow(n, favoured, high, low, fold.fit.temperature, p.floor, PROBABILITY_FLOOR);
  }

  /** Accepted sources: one model, one prediction an example, a target for each. */
  ghost predicate Sound(predictions: seq<Prediction>, targets: Targets) {
    NoSharedExample(predictions) && OfModel(predictions, SOURCE_MODEL) && IdSet(predictions) <= targets.Keys
  }

  lemma SoundParts(predictions: seq<Prediction>, targets: Targets, i: nat)
    requires Sound(predictions, targets) && i < WINDOWS
    ensures Sound(Reference(predictions, i), targets) && Sound(Partition(predictions, i), targets)
  {
    SoundReference(predictions, targets, i);
    PartitionUnique(predictions, i);
  }

  lemma SoundReference(predictions: seq<Prediction>, targets: Targets, i: nat)
    requires Sound(predictions, targets) && i <= WINDOWS
    ensures Sound(Reference(predictions, i), targets)
  {
    ReferenceUnique(predictions, i);
  }

  /** The fold of one window, fitted on the windows before it. */
  method EvaluateFold(n: ExpLog, p: Parameters, predictions: seq<Prediction>, targets: Targets, i: nat)
    returns (r: Result<Fold, CalibrationError>)
    requires p.Usable(n) && i < WINDOWS && Sound(predictions, targets)
    ensures r.Success? <==> FoldFault(predictions, targets, i).None?
    ensures r.Success? ==> IsFold(n, p, predictions, targets, i, r.value)
    ensures r.Failure? ==> FoldFault(predictions, targets, i) == Some(r.error)
  {
    var reference, own := Reference(predictions, i), Partition(predictions, i);
    SoundParts(predictions, targets, i);
    var fitted := FitTemperatureScaling(n, p, reference, Restricted(targets, reference));
    if fitted.Failure? {
      return Failure(NoPredictions);
    }
    var fit := fitted.value;
    var calibrated := Calibrated(n, own, fit.temperature);
    CalibratedCanBeScored(n, own, fit.temperature, targets);
    SameExamplesShare(own, calibrated);
    var before := ScorePopulation(n, SOURCE_MODEL, own, targets);
    if before.Failure? {
      return Failure(Unscored(before.error));
    }
    var after := ScorePopulation(n, CALIBRATED_MODEL, calibrated, targets);
    return Success(Fold(WindowId(i), SeasonsBefore(i), EvaluationSeason(i), fit, before.value, after.Extract(), calibrated));
  }

  // ---------------------------------------------------------------- all folds

  /** Every element passes the check for its place, counted from one. */
  ghost predicate AllInOrder<T(!new)>(check: (nat, T) -> bool, s: seq<T>) {
    forall n :: 0 <= n < |s| ==> check(n + 1, s[n])
  }

  lemma OneMoreInOrder<T(!new)>(check: (nat, T) -> bool, s: seq<T>, x: T)
    requires AllInOrder(check, s) && check(|s| + 1, x)
    ensures AllInOrder(check, s + [x])
  {
  }

  /** One fold for each window but the first. */
  ghost predicate FoldsAre(n: ExpLog, p: Parameters, predictions: seq<Prediction>, targets: Targets, folds: seq<Fold>)
    requires p.Usable(n)
  {
    AllInOrder(FoldCheck(n, p, predictions, targets), folds)
  }

  ghost function FoldCheck(n: ExpLog, p: Parameters, predictions: seq<Prediction>, targets: Targets): (nat, Fold) -> bool
    requires p.Usable(n)
  {
    (i: nat, fold: Fold) => IsFold(n, p, predictions, targets, i, fold)
  }

  /** The first complaint of any fold from i on. */
  function FoldsFault(predictions: seq<Prediction>, targets: Targets, i: nat): Option<CalibrationError>
    requires i <= WINDOWS
    decreases WINDOWS - i
  {
    if i == WINDOWS then None
    else if FoldFault(predictions, targets, i).Some? then FoldFault(predictions, targets, i)
    else FoldsFault(predictions, targets, i + 1)
  }

  method EvaluateFolds(n: ExpLog, p: Parameters, predictions: seq<Prediction>, targets: Targets)
    returns (r: Result<seq<Fold>, CalibrationError>)
    requires p.Usable(n) && Sound(predictions, targets)
    ensures r.Success? <==> FoldsFault(predictions, targets, 1).None?
    ensures r.Success? ==> |r.value| == WINDOWS - 1 && FoldsAre(n, p, predictions, targets, r.value)
    ensures r.Failure? ==> FoldsFault(predictions, targets, 1) == Some(r.error)
  {
    var folds: seq<Fold> := [];
    ghost var check := FoldCheck(n, p, predictions, targets);
    for index := 1 to WINDOWS
      invariant |folds| == index - 1 && AllInOrder(check, folds)
      invariant FoldsFault(predictions, targets, 1) == FoldsFault(predictions, targets, index)
    {
      var fold := EvaluateFold(n, p, predictions, targets, index);
      if fold.Failure? {
        return Failure(fold.error);
      }
      OneMoreInOrder(check, folds, fold.value);
      folds := folds + [fold.value];
    }
    return Success(folds);
  }

  lemma {:induction false} NoFaultBelow(predictions: seq<Prediction>, targets: Targets, i: nat, k: nat)
    requires i <= k < WINDOWS && FoldsFault(predictions, targets, i).None?
    ensures FoldFault(predictions, targets, k).None?
    decreases k - i
  {
    if i < k {
      NoFaultBelow(predictions, targets, i + 1, k);
    }
  }

  ghost predicate Populated(predictions: seq<Prediction>) {
    forall k: nat :: k < WINDOWS ==> Partition(predictions, k) != []
  }

  ghost predicate LaterChances(predictions: seq<Prediction>, targets: Targets) {
    forall k: nat :: 1 <= k < WINDOWS ==> Chances(Partition(predictions, k), targets)
  }

  lemma {:induction false} ReferencePopulated(predictions: seq<Prediction>, i: nat)
    requires 1 <= i <= WINDOWS && Partition(predictions, 0) != []
    ensures Reference(predictions, i) != []
  {
    if i > 1 {
      ReferencePopulated(predictions, i - 1);
    }
  }

  /** All folds can be evaluated exactly when no window is empty and no later one missed an outcome entirely. */
  lemma FoldsExactly(predictions: seq<Prediction>, targets: Targets)
    ensures FoldsFault(predictions, targets, 1).None? <==> Populated(predictions) && LaterChances(predictions, targets)
  {
    if FoldsFault(predictions, targets, 1).None? {
      FaultlessIsPopulated(predictions, targets);
    }
    if Populated(predictions) && LaterChances(predictions, targets) {
      forall k: nat | 1 <= k < WINDOWS
        ensures FoldFault(predictions, targets, k).None?
      {
        ReferencePopulated(predictions, k);
      }
      NoneFrom(predictions, targets, 1);
    }
  }

  lemma FaultlessIsPopulated(predictions: seq<Prediction>, targets: Targets)
    requires FoldsFault(predictions, targets, 1).None?
    ensures Populated(predictions) && LaterChances(predictions, targets)
  {
    forall k: nat | k < WINDOWS
      ensures Partition(predictions, k) != [] && (k > 0 ==> Chances(Partition(predictions, k), targets))
    {
      if k == 0 {
        NoFaultBelow(predictions, targets, 1, 1);
        FirstReference(predictions);
      } else {
        NoFaultBelow(predictions, targets, 1, k);
      }
    }
  }

  lemma FirstReference(predictions: seq<Prediction>)
    ensures Reference(predictions, 1) == Partition(predictions, 0)
  {
    assert Reference(predictions, 1) == Reference(predictions, 0) + Partition(predictions, 0);
  }

  lemma {:induction false} NoneFrom(predictions: seq<Prediction>, targets: Targets, i: nat)
    requires 1 <= i <= WINDOWS && forall k: nat :: 1 <= k < WINDOWS ==> FoldFault(predictions, targets, k).None?
    ensures FoldsFault(predictions, targets, i).None?
    decreases WINDOWS - i
  {
    if i < WINDOWS {
      NoneFrom(predictions, targets, i + 1);
    }
  }

  // ---------------------------------------------------------------- the comparison

  /** The sources of all evaluated folds before window i. */
  function Paired(predictions: seq<Prediction>, i: nat): seq<Prediction>
    requires 1 <= i <= WINDOWS
  {
    if i == 1 then [] else Paired(predictions, i - 1) + Partition(predictions, i - 1)
  }

  function PredictionsOf(folds: seq<Fold>): seq<Prediction> {
    if folds == [] then [] else PredictionsOf(folds[..|folds| - 1]) + folds[|folds| - 1].predictions
  }

  lemma {:induction false} PairedIsLater(predictions: seq<Prediction>, i: nat)
    requires 1 <= i <= WINDOWS
    ensures Reference(predictions, i) == Partition(predictions, 0) + Paired(predictions, i)
  {
    if i == 1 {
      FirstReference(predictions);
    } else {
      PairedIsLater(predictions, i - 1);
    }
  }

  lemma {:induction false} PairedChances(predictions: seq<Prediction>, targets: Targets, i: nat)
    requires 1 <= i <= WINDOWS && LaterChances(predictions, targets)
    ensures Chances(Paired(predictions, i), targets)
  {
    if i > 1 {
      PairedChances(predictions, targets, i - 1);
    }
  }

  lemma LaterPart(a: seq<Prediction>, b: seq<Prediction>, targets: Targets)
    requires Sound(a + b, targets)
    ensures Sound(b, targets)
  {
    var s := a + b;
    assert forall i :: 0 <= i < |b| ==> b[i] == s[|a| + i];
    assert forall q :: q in b ==> q in s;
  }

  lemma PairedIsSound(predictions: seq<Prediction>, targets: Targets)
    requires Sound(predictions, targets) && Partition(predictions, 1) != []
    ensures Sound(Paired(predictions, WINDOWS), targets) && Paired(predictions, WINDOWS) != []
  {
    SoundReference(predictions, targets, WINDOWS);
    PairedIsLater(predictions, WINDOWS);
    LaterPart(Partition(predictions, 0), Paired(predictions, WINDOWS), targets);
    PairedHolds(predictions, WINDOWS);
  }

  lemma {:induction false} PairedHolds(predictions: seq<Prediction>, i: nat)
    requires 2 <= i <= WINDOWS && Partition(predictions, 1) != []
    ensures Paired(predictions, i) != []
  {
    if i > 2 {
      PairedHolds(predictions, i - 1);
    }
  }

  /** The predictions a fold publishes are those of its own window. */
  lemma FoldPredictions(
      n: ExpLog, p: Parameters, predictions: seq<Prediction>, targets: Targets, i: nat, fold: Fold)
    requires p.Usable(n) && IsFold(n, p, predictions, targets, i, fold)
    ensures SameExamples(Partition(predictions, i), fold.predictions)
    ensures OfModel(fold.predictions, CALIBRATED_MODEL) && Chances(fold.predictions, targets)
  {
    CalibratedCanBeScored(n, Partition(predictions, i), fold.fit.temperature, targets);
  }

  lemma {:induction false} CalibratedPairs(
      n: ExpLog, p: Parameters, predictions: seq<Prediction>, targets: Targets, folds: seq<Fold>)
    requires p.Usable(n) && |folds| < WINDOWS && FoldsAre(n, p, predictions, targets, folds)
    ensures SameExamples(Paired(predictions, |folds| + 1), PredictionsOf(folds))
    ensures OfModel(PredictionsOf(folds), CALIBRATED_MODEL) && Chances(PredictionsOf(folds), targets)
    decreases |folds|
  {
    if folds != [] {
      var init, last := folds[..|folds| - 1], folds[|folds| - 1];
      var check := FoldCheck(n, p, predictions, targets);
      AllButLast(check, folds);
      CalibratedPairs(n, p, predictions, targets, init);
      FoldPredictions(n, p, predictions, targets, |folds|, last);
      var paired, own := Paired(predictions, |folds|), Partition(predictions, |folds|);
      OneMorePair(paired, PredictionsOf(init), own, last.predictions, targets);
    }
  }

  lemma OneMorePair(a: seq<Prediction>, b: seq<Prediction>, c: seq<Prediction>, d: seq<Prediction>, targets: Targets)
    requires SameExamples(a, b) && OfModel(b, CALIBRATED_MODEL) && Chances(b, targets)
    requires SameExamples(c, d) && OfModel(d, CALIBRATED_MODEL) && Chances(d, targets)
    ensures SameExamples(a + c, b + d) && OfModel(b + d, CALIBRATED_MODEL) && Chances(b + d, targets)
  {
  }

  lemma AllButLast<T(!new)>(check: (nat, T) -> bool, s: seq<T>)
    requires s != [] && AllInOrder(check, s)
    ensures AllInOrder(check, s[..|s| - 1]) && check(|s|, s[|s| - 1])
  {
  }

  datatype Strategy = Identity | TemperatureScaling

  /** Log loss decides, then the Brier score, then the ranked score. */
  predicate Precedes(x: Scores, y: Scores) {
    if x.logLoss != y.logLoss then x.logLoss < y.logLoss
    else if x.brier != y.brier then x.brier < y.brier else x.ranked < y.ranked
  }

  datatype Evaluation = Evaluation(
    folds: seq<Fold>, uncalibrated: Summary, calibrated: Summary, strategy: Strategy, finalFit: Fit)

  /** The whole evaluation: folds, both scores over all folds, the strategy they select and the fit of all sources. */
  ghost predicate IsEvaluation(n: ExpLog, p: Parameters, predictions: seq<Prediction>, targets: Targets, e: Evaluation)
    requires p.Usable(n)
  {
    var paired, calibrated := Paired(predictions, WINDOWS), PredictionsOf(e.folds);
    && |e.folds| == WINDOWS - 1 && FoldsAre(n, p, predictions, targets, e.folds)
    && predictions != [] && IdSet(predictions) <= targets.Keys
    && paired != [] && IdSet(paired) <= targets.Keys && calibrated != [] && IdSet(calibrated) == IdSet(paired)
    && e.uncalibrated == Scored(n, SOURCE_MODEL, paired, targets)
    && e.calibrated == Scored(n, CALIBRATED_MODEL, calibrated, targets)
    && (e.strategy.TemperatureScaling? <==> Precedes(e.calibrated.mean, e.uncalibrated.mean))
    && e.finalFit == FitOf(n, p, predictions, Restricted(targets, predictions))
  }

  /** No score is worse, and one is better. */
  ghost predicate Improves(after: Scores, before: Scores) {
    && after.logLoss <= before.logLoss && after.brier <= before.brier && after.ranked <= before.ranked
    && after != before
  }

  /**
   The lower mean log loss of all folds together decides, on a tie the lower Brier score, then the lower
   ranked score; scaling must be strictly better to be selected, and is whenever it improves on the source.
   */
  lemma SelectionMeans(n: ExpLog, p: Parameters, predictions: seq<Prediction>, targets: Targets, e: Evaluation)
    requires p.Usable(n) && IsEvaluation(n, p, predictions, targets, e)
    ensures var after, before, scaled := e.calibrated.mean, e.uncalibrated.mean, e.strategy.TemperatureScaling?;
      && (after.logLoss < before.logLoss ==> scaled) && (after.logLoss > before.logLoss ==> !scaled)
      && (after.logLoss == before.logLoss ==>
            && (after.brier < before.brier ==> scaled) && (after.brier > before.brier ==> !scaled)
            && (after.brier == before.brier ==> (scaled <==> after.ranked < before.ranked)))
      && (Improves(after, before) ==> scaled) && (Improves(before, after) || after == before ==> !scaled)
  {
  }

  /** Both populations the folds make up together can be scored. */
  lemma PairsCanBeScored(
      n: ExpLog, p: Parameters, predictions: seq<Prediction>, targets: Targets, folds: seq<Fold>)
    requires p.Usable(n) && Sound(predictions, targets) && FoldsFault(predictions, targets, 1).None?
    requires |folds| == WINDOWS - 1 && FoldsAre(n, p, predictions, targets, folds)
    ensures var paired, calibrated := Paired(predictions, WINDOWS), PredictionsOf(folds);
      && paired != [] && Sound(paired, targets) && Chances(paired, targets)
      && calibrated != [] && NoSharedExample(calibrated) && OfModel(calibrated, CALIBRATED_MODEL)
      && Chances(calibrated, targets) && IdSet(calibrated) == IdSet(paired)
  {
    FoldsExactly(predictions, targets);
    PairedIsSound(predictions, targets);
    PairedChances(predictions, targets, WINDOWS);
    CalibratedPairs(n, p, predictions, targets, folds);
    SameExamplesShare(Paired(predictions, WINDOWS), PredictionsOf(folds));
  }

  /** Scores the folds together, selects a strategy and fits all sources. */
  method Conclude(n: ExpLog, p: Parameters, predictions: seq<Prediction>, targets: Targets, folds: seq<Fold>)
    returns (e: Evaluation)
    requires p.Usable(n) && predictions != [] && Sound(predictions, targets) && FoldsFault(predictions, targets, 1).None?
    requires |folds| == WINDOWS - 1 && FoldsAre(n, p, predictions, targets, folds)
    ensures IsEvaluation(n, p, predictions, targets, e) && e.folds == folds
  {
    var paired, calibrated := Paired(predictions, WINDOWS), PredictionsOf(folds);
    PairsCanBeScored(n, p, predictions, targets, folds);
    var before := ScorePopulation(n, SOURCE_MODEL, paired, targets);
    var after := ScorePopulation(n, CALIBRATED_MODEL, calibrated, targets);
    var final := FitTemperatureScaling(n, p, predictions, Restricted(targets, predictions));
    var strategy := if Precedes(after.value.mean, before.value.mean) then TemperatureScaling else Identity;
    e := Evaluation(folds, before.value, after.value, strategy, final.value);
  }

  /** Fits on prior seasons and applies to each next season; predictions come in their canonical order. */
  method EvaluateExpandingTemperatureCalibration(
      n: ExpLog, p: Parameters, predictions: seq<Prediction>, examples: seq<Example>)
    returns (r: Result<Evaluation, CalibrationError>)
    requires p.Usable(n)
    ensures r.Success? <==> && SourceFault(predictions, examples).None? && Populated(predictions)
                            && LaterChances(predictions, TargetsOf(examples))
    ensures r.Success? ==> IsEvaluation(n, p, predictions, TargetsOf(examples), r.value)
    ensures r.Failure? ==>
              Some(r.error) == if SourceFault(predictions, examples).Some? then SourceFault(predictions, examples)
                               else FoldsFault(predictions, TargetsOf(examples), 1)
  {
    var fault := SourceFault(predictions, examples);
    if fault.Some? {
      return Failure(fault.value);
    }
    var targets := CollectTargets(examples);
    AcceptedHaveTargets(predictions, examples);
    FoldsExactly(predictions, targets);
    var folds := EvaluateFolds(n, p, predictions, targets);
    if folds.Failure? {
      return Failure(folds.error);
    }
    var e := Conclude(n, p, predictions, targets, folds.value);
    return Success(e);
  }
}

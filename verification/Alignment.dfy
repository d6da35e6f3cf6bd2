/** What a calibration fold may depend on: exactly when outcomes of its own season or later reach it. */
module Alignment {
  import opened Wrappers
  import opened Fixtures
  import opened ScoreGrid
  import opened GoldenSection
  import opened Temperature
  import opened TemperatureFit
  import opened FitDirection
  import opened Metrics
  import opened Calibration

  /** A development season before the one that fold i evaluates. */
  ghost predicate Earlier(season: string, i: nat) {
    exists j :: 0 <= j < FIRST_EVALUATED + i && j < |DEVELOPMENT_SEASONS| && DEVELOPMENT_SEASONS[j] == season
  }

  /** The same examples, with any change of outcome in fold i's season, a later one or an excluded one. */
  ghost predicate SameBefore(a: seq<Example>, b: seq<Example>, i: nat) {
    && |a| == |b|
    && forall n :: 0 <= n < |a| ==>
         a[n].id == b[n].id && a[n].season == b[n].season && (Earlier(a[n].season, i) ==> a[n] == b[n])
  }

  /** The outcome of an id is that of an example of a season before fold i's. */
  ghost predicate JudgedEarlier(examples: seq<Example>, id: ExampleId, i: nat) {
    var d := Deciding(examples, id);
    d.Some? && Earlier(examples[d.value].season, i)
  }

  /** Every prediction fold i is fitted on is judged by an example of an earlier season. */
  ghost predicate Aligned(predictions: seq<Prediction>, examples: seq<Example>, i: nat)
    requires i < WINDOWS
  {
    forall id :: id in IdSet(Reference(predictions, i)) ==> JudgedEarlier(examples, id, i)
  }

  lemma SameReferenceTargets(predictions: seq<Prediction>, a: seq<Example>, b: seq<Example>, i: nat)
    requires i < WINDOWS && SameBefore(a, b, i) && Aligned(predictions, a, i)
    ensures IdSet(Reference(predictions, i)) <= TargetsOf(a).Keys && IdSet(Reference(predictions, i)) <= TargetsOf(b).Keys
    ensures Restricted(TargetsOf(a), Reference(predictions, i)) == Restricted(TargetsOf(b), Reference(predictions, i))
  {
    forall id | id in IdSet(Reference(predictions, i))
      ensures id in TargetsOf(a) && id in TargetsOf(b) && TargetsOf(a)[id] == TargetsOf(b)[id]
    {
      assert JudgedEarlier(a, id, i);
      DecidedTarget(a, id);
      DecidedTarget(b, id);
      SameDeciding(a, b, id);
    }
  }

  /** Fold i's temperature and predictions ignore the outcomes of its own season and of everything later. */
  lemma FoldNonInterference(
      n: ExpLog, p: Parameters, predictions: seq<Prediction>, a: seq<Example>, b: seq<Example>, i: nat, x: Fold, y: Fold)
    requires p.Usable(n) && i < WINDOWS && SameBefore(a, b, i) && Aligned(predictions, a, i)
    requires IsFold(n, p, predictions, TargetsOf(a), i, x) && IsFold(n, p, predictions, TargetsOf(b), i, y)
    ensures x.fit == y.fit && x.predictions == y.predictions
  {
    SameReferenceTargets(predictions, a, b, i);
  }

  function Other(o: MatchOutcome): (r: MatchOutcome)
    ensures r != o
  {
    if o.Draw? then HomeWin else Draw
  }

  /** The targets handed to a fit ignore later outcomes exactly when the fold is aligned. */
  lemma AlignedInputsExactly(predictions: seq<Prediction>, a: seq<Example>, i: nat)
    requires i < WINDOWS && IdSet(Reference(predictions, i)) <= TargetsOf(a).Keys
    ensures Aligned(predictions, a, i) <==>
            forall b :: SameBefore(a, b, i) ==>
              && IdSet(Reference(predictions, i)) <= TargetsOf(b).Keys
              && Restricted(TargetsOf(b), Reference(predictions, i)) == Restricted(TargetsOf(a), Reference(predictions, i))
  {
    if Aligned(predictions, a, i) {
      forall b | SameBefore(a, b, i)
        ensures IdSet(Reference(predictions, i)) <= TargetsOf(b).Keys
        ensures Restricted(TargetsOf(b), Reference(predictions, i)) == Restricted(TargetsOf(a), Reference(predictions, i))
      {
        SameReferenceTargets(predictions, a, b, i);
      }
    } else {
      var id :| id in IdSet(Reference(predictions, i)) && !JudgedEarlier(a, id, i);
      var b := LaterOutcomeReachesFit(a, id, i);
      assert Restricted(TargetsOf(a), Reference(predictions, i))[id] == TargetsOf(a)[id];
      assert SameBefore(a, b, i) && TargetsOf(b)[id] != TargetsOf(a)[id];
    }
  }

  lemma LaterOutcomeReachesFit(a: seq<Example>, id: ExampleId, i: nat) returns (b: seq<Example>)
    requires id in TargetsOf(a)
    requires !JudgedEarlier(a, id, i)
    ensures SameBefore(a, b, i)
    ensures id in TargetsOf(b) && TargetsOf(b)[id] != TargetsOf(a)[id]
  {
    DecidedTarget(a, id);
    var d := Deciding(a, id).value;
    b := a[d := a[d].(outcome := Other(a[d].outcome))];
    SameDeciding(a, b, id);
    DecidedTarget(b, id);
  }

  /** An accepted prediction has a target and the season of its window. */
  lemma AcceptedPrediction(predictions: seq<Prediction>, examples: seq<Example>, p: Prediction, k: nat)
    requires SourceFault(predictions, examples).None? && p in predictions && k < WINDOWS && p.partition == WindowId(k)
    ensures Deciding(examples, p.example).Some? && p.season == EvaluationSeason(k)
  {
    AcceptedHaveTargets(predictions, examples);
    assert p.example in IdSet(predictions);
    DecidedTarget(examples, p.example);
    assert InItsFold(p);
    var j :| 0 <= j < WINDOWS && p.partition == WindowId(j) && p.season == EvaluationSeason(j);
    if j < k {
      WindowsDiffer(j, k);
    } else if k < j {
      WindowsDiffer(k, j);
    }
  }

  /** Predictions labelled with the season of their example are aligned in every fold. */
  lemma LabelledIsAligned(predictions: seq<Prediction>, examples: seq<Example>, i: nat)
    requires SourceFault(predictions, examples).None? && i < WINDOWS
    requires forall p :: p in predictions ==>
               Deciding(examples, p.example).Some? ==> examples[Deciding(examples, p.example).value].season == p.season
    ensures Aligned(predictions, examples, i)
  {
    forall id | id in IdSet(Reference(predictions, i))
      ensures JudgedEarlier(examples, id, i)
    {
      var p :| p in Reference(predictions, i) && p.example == id;
      ReferenceBelow(predictions, i, p);
      var k: nat :| k < i && k < WINDOWS && p.partition == WindowId(k);
      AcceptedPrediction(predictions, examples, p, k);
      assert DEVELOPMENT_SEASONS[FIRST_EVALUATED + k] == p.season;
    }
  }

  // ---------------------------------------------------------------- other probabilities, other outcomes

  /** The same sources with other probabilities. */
  ghost predicate SameLabels(s: seq<Prediction>, q: seq<Prediction>) {
    |s| == |q| && forall j :: 0 <= j < |s| ==> q[j] == s[j].(probabilities := q[j].probabilities)
  }

  /** Every prediction is a distribution that gives every outcome a chance. */
  ghost predicate Distributions(q: seq<Prediction>) {
    forall x :: x in q ==> Sum3(x.probabilities) == 1.0 && forall o :: For(x.probabilities, o) > 0.0
  }

  lemma LabelsOf(s: seq<Prediction>, q: seq<Prediction>, x: Prediction) returns (y: Prediction)
    requires SameLabels(s, q) && x in q
    ensures y in s && x == y.(probabilities := x.probabilities)
  {
    var j :| 0 <= j < |q| && q[j] == x;
    y := s[j];
  }

  lemma LabelsReturn(s: seq<Prediction>, q: seq<Prediction>)
    requires SameLabels(s, q)
    ensures SameLabels(q, s) && SameExamples(s, q)
  {
  }

  /** The checks of the sources look at no probability. */
  lemma LabelsKeepSources(s: seq<Prediction>, q: seq<Prediction>, examples: seq<Example>)
    requires SameLabels(s, q) && SourceFault(s, examples).None?
    ensures SourceFault(q, examples).None?
  {
    LabelsReturn(s, q);
    SameExamplesShare(s, q);
    forall x | x in q
      ensures x.model == SOURCE_MODEL && x.season in DEVELOPMENT_SEASONS && InItsFold(x)
    {
      var y := LabelsOf(s, q, x);
      assert InItsFold(y);
    }
    forall x, z | x in q && z in q
      ensures x.configuration.Some? && x.configuration == z.configuration
    {
      var y := LabelsOf(s, q, x);
      var w := LabelsOf(s, q, z);
      assert y in s && w in s;
    }
  }

  /** Nor do they look at any outcome. */
  lemma OutcomesKeepSources(s: seq<Prediction>, a: seq<Example>, b: seq<Example>, i: nat)
    requires SameBefore(a, b, i) && SourceFault(s, a).None?
    ensures SourceFault(s, b).None?
  {
    forall id
      ensures id in ExpectedIds(a) <==> id in ExpectedIds(b)
    {
      if e :| e in a && IsEvaluated(e.season) && e.id == id {
        var j :| 0 <= j < |a| && a[j] == e;
        assert b[j] in b;
      }
      if e :| e in b && IsEvaluated(e.season) && e.id == id {
        var j :| 0 <= j < |b| && b[j] == e;
        assert a[j] in a;
      }
    }
    assert ExpectedIds(a) == ExpectedIds(b);
  }

  lemma LabelsKeepPopulated(s: seq<Prediction>, q: seq<Prediction>)
    requires SameLabels(s, q) && Populated(s)
    ensures Populated(q)
  {
    forall k: nat | k < WINDOWS
      ensures Partition(q, k) != []
    {
      assert Partition(s, k) != [];
      var y := Partition(s, k)[0];
      assert y in s && y.partition == WindowId(k);
      var j :| 0 <= j < |s| && s[j] == y;
      PartitionHolds(q, k, j);
    }
  }

  lemma {:induction false} ReferenceHolds(s: seq<Prediction>, i: nat, j: nat)
    requires i <= WINDOWS && j < |s| && PartitionBelow(s[j], i)
    ensures s[j] in Reference(s, i)
  {
    var k: nat :| k < i && k < WINDOWS && s[j].partition == WindowId(k);
    if k == i - 1 {
      PartitionHolds(s, k, j);
    } else {
      assert PartitionBelow(s[j], i - 1);
      ReferenceHolds(s, i - 1, j);
    }
  }

  lemma ReferenceKeepsIds(s: seq<Prediction>, q: seq<Prediction>, i: nat)
    requires SameLabels(s, q) && i <= WINDOWS
    ensures IdSet(Reference(s, i)) <= IdSet(Reference(q, i))
  {
    forall id | id in IdSet(Reference(s, i))
      ensures id in IdSet(Reference(q, i))
    {
      var x :| x in Reference(s, i) && x.example == id;
      ReferenceBelow(s, i, x);
      var j :| 0 <= j < |s| && s[j] == x;
      assert PartitionBelow(q[j], i);
      ReferenceHolds(q, i, j);
    }
  }

  /** Alignment is a matter of labels. */
  lemma LabelsKeepAlignment(s: seq<Prediction>, q: seq<Prediction>, examples: seq<Example>, i: nat)
    requires SameLabels(s, q) && i < WINDOWS
    ensures Aligned(s, examples, i) <==> Aligned(q, examples, i)
  {
    LabelsReturn(s, q);
    ReferenceKeepsIds(s, q, i);
    ReferenceKeepsIds(q, s, i);
  }

  lemma ChancesForAll(q: seq<Prediction>, examples: seq<Example>)
    requires SourceFault(q, examples).None? && Distributions(q)
    ensures LaterChances(q, TargetsOf(examples))
  {
    AcceptedHaveTargets(q, examples);
    forall k: nat, x | 1 <= k < WINDOWS && x in Partition(q, k)
      ensures x.example in TargetsOf(examples) && For(x.probabilities, TargetsOf(examples)[x.example]) > 0.0
    {
      assert x.example in IdSet(q);
    }
  }

  // ---------------------------------------------------------------- the exact condition

  /** Whatever distributions the sources hold, no change of a later outcome changes fold i's temperature. */
  ghost predicate TemperatureFixed(n: ExpLog, p: Parameters, s: seq<Prediction>, a: seq<Example>, i: nat)
    requires p.Usable(n)
  {
    forall q, b, x, y ::
      && SameLabels(s, q) && Distributions(q) && SameBefore(a, b, i)
      && IsFold(n, p, q, TargetsOf(a), i, x) && IsFold(n, p, q, TargetsOf(b), i, y)
      ==> x.fit.temperature == y.fit.temperature
  }

  /** Nor any of its calibrated predictions. */
  ghost predicate PredictionsFixed(n: ExpLog, p: Parameters, s: seq<Prediction>, a: seq<Example>, i: nat)
    requires p.Usable(n)
  {
    forall q, b, x, y ::
      && SameLabels(s, q) && Distributions(q) && SameBefore(a, b, i)
      && IsFold(n, p, q, TargetsOf(a), i, x) && IsFold(n, p, q, TargetsOf(b), i, y)
      ==> x.predictions == y.predictions
  }

  lemma AlignedIsFixed(n: ExpLog, p: Parameters, s: seq<Prediction>, a: seq<Example>, i: nat)
    requires p.Usable(n) && i < WINDOWS && Aligned(s, a, i)
    ensures TemperatureFixed(n, p, s, a, i) && PredictionsFixed(n, p, s, a, i)
  {
    forall q, b, x, y |
      && SameLabels(s, q) && Distributions(q) && SameBefore(a, b, i)
      && IsFold(n, p, q, TargetsOf(a), i, x) && IsFold(n, p, q, TargetsOf(b), i, y)
      ensures x.fit == y.fit && x.predictions == y.predictions
    {
      LabelsKeepAlignment(s, q, a, i);
      FoldNonInterference(n, p, q, a, b, i, x, y);
    }
  }

  /** Two evaluations of one set of sources that the checks accept and that part at fold i. */
  ghost predicate Parts(
      n: ExpLog, p: Parameters, q: seq<Prediction>, a: seq<Example>, b: seq<Example>, i: nat, x: Fold, y: Fold)
    requires p.Usable(n)
  {
    && SourceFault(q, a).None? && SourceFault(q, b).None? && Populated(q)
    && LaterChances(q, TargetsOf(a)) && LaterChances(q, TargetsOf(b)) && SameBefore(a, b, i)
    && IsFold(n, p, q, TargetsOf(a), i, x) && IsFold(n, p, q, TargetsOf(b), i, y)
    && x.fit.temperature < y.fit.temperature && x.predictions != y.predictions
  }

  lemma FoldOfAccepted(n: ExpLog, p: Parameters, q: seq<Prediction>, examples: seq<Example>, i: nat) returns (fold: Fold)
    requires p.Usable(n) && 1 <= i < WINDOWS && SourceFault(q, examples).None? && Populated(q)
    ensures IsFold(n, p, q, TargetsOf(examples), i, fold)
  {
    AcceptedHaveTargets(q, examples);
    ReferencePopulated(q, i);
    assert Partition(q, i) != [];
    assert IdSet(Reference(q, i)) <= IdSet(q) && IdSet(Partition(q, i)) <= IdSet(q);
    fold := FoldExists(n, p, q, TargetsOf(examples), i);
  }

  /** The rows fold i is fitted on. */
  ghost function FitRows(q: seq<Prediction>, examples: seq<Example>, i: nat): seq<Graded>
    requires i < WINDOWS && IdSet(Reference(q, i)) <= TargetsOf(examples).Keys
  {
    Rows(Reference(q, i), Restricted(TargetsOf(examples), Reference(q, i)))
  }

  /** Right sources under one set of outcomes, wrong under the other, and a leaning prediction to show it. */
  lemma RightAndWrongPart(
      n: ExpLog, p: Parameters, q: seq<Prediction>, a: seq<Example>, b: seq<Example>, i: nat, favoured: MatchOutcome)
    returns (x: Fold, y: Fold)
    requires p.Usable(n) && p.iterations > 0 && 1 <= i < WINDOWS && SameBefore(a, b, i)
    requires SourceFault(q, a).None? && Populated(q) && Distributions(q)
    requires IdSet(Reference(q, i)) <= TargetsOf(a).Keys && IdSet(Reference(q, i)) <= TargetsOf(b).Keys
    requires AllRight(n, FitRows(q, a, i), p) && AllWrong(n, FitRows(q, b, i), p)
    requires AnyUneven(n, FitRows(q, b, i), p.floor)
    requires forall z :: z in Partition(q, i) ==> Leans(Logs(n, z.probabilities, PROBABILITY_FLOOR), favoured)
    ensures Parts(n, p, q, a, b, i, x, y)
  {
    OutcomesKeepSources(q, a, b, i);
    ChancesForAll(q, a);
    ChancesForAll(q, b);
    x := FoldOfAccepted(n, p, q, a, i);
    y := FoldOfAccepted(n, p, q, b, i);
    RightAndWrongDiffer(n, FitRows(q, a, i), FitRows(q, b, i), p);
    ExpRises(n, FittedLog(n, FitRows(q, a, i), p), FittedLog(n, FitRows(q, b, i), p));
    CalibratedDiffer(n, Partition(q, i), favoured, x.fit.temperature, y.fit.temperature);
  }

  lemma CalibratedDiffer(n: ExpLog, own: seq<Prediction>, favoured: MatchOutcome, t: real, u: real)
    requires IsExpLog(n) && own != [] && 0.0 < t < u
    requires forall z :: z in own ==> Leans(Logs(n, z.probabilities, PROBABILITY_FLOOR), favoured)
    ensures Calibrated(n, own, t) != Calibrated(n, own, u)
  {
    var z := own[0];
    assert z in own;
    TemperaturesShow(n, z.probabilities, favoured, PROBABILITY_FLOOR, t, u);
    assert Calibrated(n, own, t)[0] == CalibratedPrediction(n, z, t);
    assert Calibrated(n, own, u)[0] == CalibratedPrediction(n, z, u);
  }

  const EVEN := Outcomes(1.0 / 3.0, 1.0 / 3.0, 1.0 / 3.0)

  /** The lean goes to one example and to fold i's own window; every other prediction is even. */
  function Painted(s: seq<Prediction>, id: ExampleId, i: nat, lean: Outcomes): (q: seq<Prediction>)
    requires i < WINDOWS
    ensures |q| == |s|
  {
    seq(|s|, j requires 0 <= j < |s| =>
      s[j].(probabilities := if s[j].example == id || s[j].partition == WindowId(i) then lean else EVEN))
  }

  lemma PaintedProbabilities(s: seq<Prediction>, id: ExampleId, i: nat, lean: Outcomes, x: Prediction)
    requires i < WINDOWS && x in Painted(s, id, i, lean)
    ensures x.probabilities == if x.example == id || x.partition == WindowId(i) then lean else EVEN
  {
  }

  lemma PaintedLabels(s: seq<Prediction>, id: ExampleId, i: nat, lean: Outcomes)
    requires i < WINDOWS && Sum3(lean) == 1.0 && forall o :: For(lean, o) > 0.0
    ensures SameLabels(s, Painted(s, id, i, lean)) && Distributions(Painted(s, id, i, lean))
  {
    var q := Painted(s, id, i, lean);
    forall x | x in q
      ensures Sum3(x.probabilities) == 1.0 && forall o :: For(x.probabilities, o) > 0.0
    {
      PaintedProbabilities(s, id, i, lean, x);
      assert forall o :: For(EVEN, o) > 0.0;
    }
  }

  /** In the reference of fold i only the one example leans. */
  lemma PaintedRow(s: seq<Prediction>, id: ExampleId, i: nat, lean: Outcomes, examples: seq<Example>, g: Graded)
    requires i < WINDOWS && IdSet(Reference(Painted(s, id, i, lean), i)) <= TargetsOf(examples).Keys
    requires g in FitRows(Painted(s, id, i, lean), examples, i)
    ensures g.probabilities == EVEN || (id in TargetsOf(examples) && g == Graded(lean, TargetsOf(examples)[id]))
  {
    var q := Painted(s, id, i, lean);
    var x := PredictionOfRow(Reference(q, i), Restricted(TargetsOf(examples), Reference(q, i)), g);
    ReferenceBelow(q, i, x);
    var k: nat :| k < i && k < WINDOWS && x.partition == WindowId(k);
    WindowsDiffer(k, i);
    PaintedProbabilities(s, id, i, lean, x);
  }

  lemma EvenRow(n: ExpLog, g: Graded, floor: real)
    requires g.probabilities == EVEN
    ensures !UnevenRow(n, g, floor)
  {
  }

  lemma PaintedRight(n: ExpLog, p: Parameters, s: seq<Prediction>, id: ExampleId, i: nat, lean: Outcomes, a: seq<Example>)
    requires p.Usable(n) && i < WINDOWS && IdSet(Reference(Painted(s, id, i, lean), i)) <= TargetsOf(a).Keys
    requires id in TargetsOf(a) && Mild(n, Logs(n, lean, p.floor), TargetsOf(a)[id], p)
    ensures AllRight(n, FitRows(Painted(s, id, i, lean), a, i), p)
  {
    forall g | g in FitRows(Painted(s, id, i, lean), a, i) && UnevenRow(n, g, p.floor)
      ensures Mild(n, GradedLogs(n, g, p.floor), g.actual, p)
    {
      PaintedRow(s, id, i, lean, a, g);
      if g.probabilities == EVEN {
        EvenRow(n, g, p.floor);
        assert false;
      }
    }
  }

  lemma PaintedWrong(
      n: ExpLog, p: Parameters, s: seq<Prediction>, id: ExampleId, i: nat, lean: Outcomes, favoured: MatchOutcome,
      b: seq<Example>)
    requires p.Usable(n) && i < WINDOWS && IdSet(Reference(Painted(s, id, i, lean), i)) <= TargetsOf(b).Keys
    requires id in IdSet(Reference(Painted(s, id, i, lean), i)) && TargetsOf(b)[id] != favoured
    requires Mild(n, Logs(n, lean, p.floor), favoured, p)
    ensures AllWrong(n, FitRows(Painted(s, id, i, lean), b, i), p)
    ensures AnyUneven(n, FitRows(Painted(s, id, i, lean), b, i), p.floor)
  {
    var q := Painted(s, id, i, lean);
    forall g | g in FitRows(q, b, i) && UnevenRow(n, g, p.floor)
      ensures WrongRow(n, g, p)
    {
      PaintedRow(s, id, i, lean, b, g);
      if g.probabilities == EVEN {
        EvenRow(n, g, p.floor);
        assert false;
      }
    }
    var x :| x in Reference(q, i) && x.example == id;
    RowOfPrediction(Reference(q, i), Restricted(TargetsOf(b), Reference(q, i)), x);
    PaintedProbabilities(s, id, i, lean, x);
    var g := Graded(lean, TargetsOf(b)[id]);
    LeansToMost(Logs(n, lean, p.floor), favoured, favoured);
    assert g in FitRows(q, b, i) && UnevenRow(n, g, p.floor);
  }

  /** A fold that is not aligned can be made to part: probabilities, outcomes and both folds. */
  lemma MisalignedParts(n: ExpLog, p: Parameters, s: seq<Prediction>, a: seq<Example>, i: nat)
    returns (q: seq<Prediction>, b: seq<Example>, x: Fold, y: Fold)
    requires p.Usable(n) && p.iterations > 0 && 1 <= i < WINDOWS
    requires SourceFault(s, a).None? && Populated(s) && !Aligned(s, a, i)
    ensures SameLabels(s, q) && Distributions(q) && Parts(n, p, q, a, b, i, x, y)
  {
    var id :| id in IdSet(Reference(s, i)) && !JudgedEarlier(a, id, i);
    AcceptedHaveTargets(s, a);
    assert IdSet(Reference(s, i)) <= IdSet(s);
    b := LaterOutcomeReachesFit(a, id, i);
    var favoured := TargetsOf(a)[id];
    var lean := MildExists(n, p, favoured);
    q := Painted(s, id, i, lean);
    PaintedLabels(s, id, i, lean);
    LabelsKeepSources(s, q, a);
    LabelsKeepPopulated(s, q);
    OutcomesKeepSources(q, a, b, i);
    ReferenceKeepsIds(s, q, i);
    AcceptedHaveTargets(q, a);
    AcceptedHaveTargets(q, b);
    assert IdSet(Reference(q, i)) <= IdSet(q);
    PaintedRight(n, p, s, id, i, lean, a);
    PaintedWrong(n, p, s, id, i, lean, favoured, b);
    forall z | z in Partition(q, i)
      ensures Leans(Logs(n, z.probabilities, PROBABILITY_FLOOR), favoured)
    {
      PaintedProbabilities(s, id, i, lean, z);
    }
    x, y := RightAndWrongPart(n, p, q, a, b, i, favoured);
  }

  /**
   Alignment is exactly what fold i needs: its temperature, and its calibrated predictions, ignore every
   later outcome for all distributions the labelled sources may hold, if and only if it is aligned.
   */
  lemma AlignmentIsExact(n: ExpLog, p: Parameters, s: seq<Prediction>, a: seq<Example>, i: nat)
    requires p.Usable(n) && p.iterations > 0 && 1 <= i < WINDOWS
    requires SourceFault(s, a).None? && Populated(s)
    ensures Aligned(s, a, i) <==> TemperatureFixed(n, p, s, a, i)
    ensures Aligned(s, a, i) <==> PredictionsFixed(n, p, s, a, i)
  {
    if Aligned(s, a, i) {
      AlignedIsFixed(n, p, s, a, i);
    } else {
      var q, b, x, y := MisalignedParts(n, p, s, a, i);
      assert x.fit.temperature != y.fit.temperature;
    }
  }

  /** For given probabilities alignment can be more than is needed: even references keep their temperature. */
  lemma EvenReferenceIsFixed(
      n: ExpLog, p: Parameters, q: seq<Prediction>, a: seq<Example>, b: seq<Example>, i: nat, x: Fold, y: Fold)
    requires p.Usable(n) && IsFold(n, p, q, TargetsOf(a), i, x) && IsFold(n, p, q, TargetsOf(b), i, y)
    requires forall z :: z in Reference(q, i) ==> !Uneven(Logs(n, z.probabilities, p.floor))
    ensures x.fit.temperature == y.fit.temperature && x.predictions == y.predictions
  {
    FoldByTemperature(n, p, q, a, i, x);
    FoldByTemperature(n, p, q, b, i, y);
    EvenRows(n, p, q, a, i);
    EvenRows(n, p, q, b, i);
  }

  lemma FoldByTemperature(n: ExpLog, p: Parameters, q: seq<Prediction>, examples: seq<Example>, i: nat, fold: Fold)
    requires p.Usable(n) && IsFold(n, p, q, TargetsOf(examples), i, fold)
    ensures fold.fit.temperature > 0.0 && FitRows(q, examples, i) != []
    ensures fold.predictions == Calibrated(n, Partition(q, i), fold.fit.temperature)
    ensures fold.fit.temperature == n.exp(FittedLog(n, FitRows(q, examples, i), p))
  {
  }

  lemma EvenRows(n: ExpLog, p: Parameters, q: seq<Prediction>, examples: seq<Example>, i: nat)
    requires p.Usable(n) && i < WINDOWS && IdSet(Reference(q, i)) <= TargetsOf(examples).Keys
    requires FitRows(q, examples, i) != []
    requires forall z :: z in Reference(q, i) ==> !Uneven(Logs(n, z.probabilities, p.floor))
    ensures FittedLog(n, FitRows(q, examples, i), p)
         == p.Logarithms(n).lower + Precision(p.ratio, p.Logarithms(n), p.iterations)
  {
    var reference, rows := Reference(q, i), FitRows(q, examples, i);
    forall g | g in rows
      ensures !UnevenRow(n, g, p.floor)
    {
      var z := PredictionOfRow(reference, Restricted(TargetsOf(examples), reference), g);
    }
    LevelFits(n, rows, p);
  }

  // ---------------------------------------------------------------- an input that the checks accept

  const HALF := Outcomes(0.25, 0.5, 0.25)

  /** Five examples, one for each evaluated season, and five predictions of which the first two are exchanged. */
  ghost predicate Swapped(predictions: seq<Prediction>, examples: seq<Example>) {
    && |predictions| == 5 && |examples| == 5
    && (forall k :: 0 <= k < 5 ==> examples[k].id == k && examples[k].season == EvaluationSeason(k))
    && (forall k :: 0 <= k < 5 ==>
          && predictions[k].example == (if k == 0 then 1 else if k == 1 then 0 else k)
          && predictions[k].model == SOURCE_MODEL && predictions[k].configuration == Some("catboost-v1")
          && predictions[k].partition == WindowId(k) && predictions[k].season == EvaluationSeason(k)
          && predictions[k].probabilities == HALF)
  }

  lemma SwappedAccepted(predictions: seq<Prediction>, examples: seq<Example>)
    requires Swapped(predictions, examples)
    ensures SourceFault(predictions, examples).None? && Populated(predictions)
  {
    forall p | p in predictions
      ensures p.season in DEVELOPMENT_SEASONS && InItsFold(p)
    {
      var k :| 0 <= k < 5 && predictions[k] == p;
      EvaluatedIsDevelopment(p.season);
    }
    SwappedIds(predictions, examples);
    SwappedPopulated(predictions, examples);
  }

  lemma SwappedIds(predictions: seq<Prediction>, examples: seq<Example>)
    requires Swapped(predictions, examples)
    ensures NoSharedExample(predictions) && IdSet(predictions) == ExpectedIds(examples)
  {
    forall id
      ensures id in IdSet(predictions) <==> 0 <= id < 5
      ensures id in ExpectedIds(examples) <==> 0 <= id < 5
    {
      if 0 <= id < 5 {
        var k := if id == 0 then 1 else if id == 1 then 0 else id;
        assert predictions[k] in predictions && predictions[k].example == id;
        assert examples[id] in examples && IsEvaluated(examples[id].season);
      }
    }
  }

  lemma SwappedPopulated(predictions: seq<Prediction>, examples: seq<Example>)
    requires Swapped(predictions, examples)
    ensures Populated(predictions)
  {
    forall k: nat | k < WINDOWS
      ensures Partition(predictions, k) != []
    {
      PartitionHolds(predictions, k, k);
    }
  }

  /** The one prediction fold 1 is fitted on refers to the example of fold 1's own season. */
  lemma SwappedReference(predictions: seq<Prediction>, examples: seq<Example>, x: Prediction)
    requires Swapped(predictions, examples)
    ensures predictions[0] in Reference(predictions, 1)
    ensures x in Reference(predictions, 1) ==> x == predictions[0]
  {
    FirstReference(predictions);
    PartitionHolds(predictions, 0, 0);
    if x in Reference(predictions, 1) {
      var k :| 0 <= k < 5 && predictions[k] == x;
      if k > 0 {
        WindowsDiffer(0, k);
      }
    }
  }

  lemma SwappedMisaligned(predictions: seq<Prediction>, examples: seq<Example>)
    requires Swapped(predictions, examples)
    ensures 1 in IdSet(Reference(predictions, 1)) && !JudgedEarlier(examples, 1, 1)
  {
    SwappedReference(predictions, examples, predictions[0]);
    var d := Deciding(examples, 1);
    if d.Some? {
      assert examples[d.value].season == "2021-2022";
      forall j | 0 <= j < FIRST_EVALUATED + 1
        ensures DEVELOPMENT_SEASONS[j] != "2021-2022"
      {
        assert DEVELOPMENT_SEASONS[j][2] != '2' || DEVELOPMENT_SEASONS[j][3] != '1';
      }
    }
  }

  /** The rows of fold 1: the exchanged prediction, graded by whatever its example says. */
  lemma SwappedRows(predictions: seq<Prediction>, a: seq<Example>, examples: seq<Example>, g: Graded)
    requires Swapped(predictions, a) && IdSet(Reference(predictions, 1)) <= TargetsOf(examples).Keys
    ensures 1 in TargetsOf(examples) && Graded(HALF, TargetsOf(examples)[1]) in FitRows(predictions, examples, 1)
    ensures g in FitRows(predictions, examples, 1) ==> g == Graded(HALF, TargetsOf(examples)[1])
  {
    var reference := Reference(predictions, 1);
    var targets := Restricted(TargetsOf(examples), reference);
    SwappedReference(predictions, a, predictions[0]);
    RowOfPrediction(reference, targets, predictions[0]);
    if g in FitRows(predictions, examples, 1) {
      var x := PredictionOfRow(reference, targets, g);
      SwappedReference(predictions, a, x);
    }
  }

  /**
   The checks let a prediction of one season be judged by an example of another. Under the default bounds
   and floor, sources that the evaluation accepts then get another temperature and other predictions in
   fold 1 when one outcome of fold 1's own season changes.
   */
  lemma ChecksDoNotAlign(n: ExpLog, p: Parameters)
    returns (predictions: seq<Prediction>, a: seq<Example>, b: seq<Example>, x: Fold, y: Fold)
    requires p.Usable(n) && p.iterations > 0 && p.minimum == MINIMUM_TEMPERATURE && p.floor == PROBABILITY_FLOOR
    ensures Parts(n, p, predictions, a, b, 1, x, y) && !Aligned(predictions, a, 1)
  {
    a := seq(5, k requires 0 <= k < 5 => Example(k, EvaluationSeason(k), Draw));
    predictions := seq(5, k requires 0 <= k < 5 =>
      Prediction(if k == 0 then 1 else if k == 1 then 0 else k, SOURCE_MODEL, Some("catboost-v1"), WindowId(k),
                 EvaluationSeason(k), HALF));
    SwappedAccepted(predictions, a);
    SwappedMisaligned(predictions, a);
    AcceptedHaveTargets(predictions, a);
    assert IdSet(Reference(predictions, 1)) <= IdSet(predictions);
    b := LaterOutcomeReachesFit(a, 1, 1);
    OutcomesKeepSources(predictions, a, b, 1);
    AcceptedHaveTargets(predictions, b);
    DecidedTarget(a, 1);
    x, y := SwappedParts(n, p, predictions, a, b);
  }

  lemma SwappedRight(n: ExpLog, p: Parameters, predictions: seq<Prediction>, a: seq<Example>)
    requires p.Usable(n) && p.minimum == MINIMUM_TEMPERATURE && p.floor == PROBABILITY_FLOOR
    requires Swapped(predictions, a) && IdSet(Reference(predictions, 1)) <= TargetsOf(a).Keys
    requires 1 in TargetsOf(a) && TargetsOf(a)[1] == Draw
    ensures AllRight(n, FitRows(predictions, a, 1), p)
  {
    HalfIsMild(n, p);
    forall g | g in FitRows(predictions, a, 1)
      ensures Mild(n, GradedLogs(n, g, p.floor), g.actual, p)
    {
      SwappedRows(predictions, a, a, g);
    }
  }

  lemma SwappedWrong(n: ExpLog, p: Parameters, predictions: seq<Prediction>, a: seq<Example>, b: seq<Example>)
    requires p.Usable(n) && p.minimum == MINIMUM_TEMPERATURE && p.floor == PROBABILITY_FLOOR
    requires Swapped(predictions, a) && IdSet(Reference(predictions, 1)) <= TargetsOf(b).Keys
    requires 1 in TargetsOf(b) && TargetsOf(b)[1] != Draw
    ensures AllWrong(n, FitRows(predictions, b, 1), p) && AnyUneven(n, FitRows(predictions, b, 1), p.floor)
  {
    HalfIsMild(n, p);
    var wrong := Graded(HALF, TargetsOf(b)[1]);
    SwappedRows(predictions, a, b, wrong);
    forall g | g in FitRows(predictions, b, 1)
      ensures g == wrong
    {
      SwappedRows(predictions, a, b, g);
    }
    OnlyWrong(n, FitRows(predictions, b, 1), wrong, Draw, p);
  }

  lemma SwappedParts(n: ExpLog, p: Parameters, predictions: seq<Prediction>, a: seq<Example>, b: seq<Example>)
    returns (x: Fold, y: Fold)
    requires p.Usable(n) && p.iterations > 0 && p.minimum == MINIMUM_TEMPERATURE && p.floor == PROBABILITY_FLOOR
    requires Swapped(predictions, a) && SameBefore(a, b, 1)
    requires IdSet(Reference(predictions, 1)) <= TargetsOf(a).Keys && IdSet(Reference(predictions, 1)) <= TargetsOf(b).Keys
    requires 1 in TargetsOf(a) && TargetsOf(a)[1] == Draw && 1 in TargetsOf(b) && TargetsOf(b)[1] != Draw
    ensures Parts(n, p, predictions, a, b, 1, x, y)
  {
    HalfIsMild(n, p);
    SwappedAccepted(predictions, a);
    SwappedRight(n, p, predictions, a);
    SwappedWrong(n, p, predictions, a, b);
    HalfEverywhere(predictions, a);
    x, y := RightAndWrongPart(n, p, predictions, a, b, 1, Draw);
  }

  lemma HalfEverywhere(predictions: seq<Prediction>, a: seq<Example>)
    requires Swapped(predictions, a)
    ensures forall z :: z in predictions ==> z.probabilities == HALF
    ensures Distributions(predictions)
  {
  }
}

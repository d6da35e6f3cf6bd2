/** Scoring three-way predictions: log loss, Brier score and ranked probability score, all proper. */
module Metrics {
  import opened Wrappers
  import opened Algebra
  import opened Collections
  import opened Fixtures
  import opened ScoreGrid
  import opened Temperature

  type ExampleId = int

  datatype Prediction = Prediction(
    example: ExampleId, model: string, configuration: Option<string>, partition: string, season: string,
    probabilities: Outcomes)

  type Targets = map<ExampleId, MatchOutcome>

  function IdSet(predictions: seq<Prediction>): set<ExampleId> {
    set p | p in predictions :: p.example
  }

  /** No two predictions are about one example. */
  predicate NoSharedExample(predictions: seq<Prediction>) {
    forall i, j :: 0 <= i < j < |predictions| ==> predictions[i].example != predictions[j].example
  }

  function ExampleOf(): Prediction -> ExampleId {
    (p: Prediction) => p.example
  }

  function ById(predictions: seq<Prediction>): (r: seq<Prediction>)
    ensures |r| == |predictions| && IdSet(r) == IdSet(predictions)
    ensures forall p :: p in r <==> p in predictions
  {
    var r := SortBy(ExampleOf(), predictions);
    assert |multiset(r)| == |r| && |multiset(predictions)| == |predictions|;
    SameMembers(r, predictions);
    r
  }

  lemma SameMembers(a: seq<Prediction>, b: seq<Prediction>)
    requires multiset(a) == multiset(b)
    ensures forall p :: p in a <==> p in b
    ensures IdSet(a) == IdSet(b)
  {
    forall p
      ensures p in a <==> p in b
    {
      assert p in a <==> p in multiset(a);
      assert p in b <==> p in multiset(b);
    }
  }

  /** The rows of a population in the order of their examples. */
  function Rows(predictions: seq<Prediction>, targets: Targets): (r: seq<Graded>)
    requires IdSet(predictions) <= targets.Keys
    ensures |r| == |predictions|
  {
    var s := ById(predictions);
    seq(|s|, i requires 0 <= i < |s| => GradedBy(s[i], targets, s))
  }

  function GradedBy(p: Prediction, targets: Targets, s: seq<Prediction>): Graded
    requires p in s && IdSet(s) <= targets.Keys
  {
    assert p.example in IdSet(s);
    Graded(p.probabilities, targets[p.example])
  }

  // ---------------------------------------------------------------- the three scores

  function Squared(x: real): real {
    Times(x, x)
  }

  function Indicator(actual: MatchOutcome, outcome: MatchOutcome): real {
    if actual == outcome then 1.0 else 0.0
  }

  function Surprise(n: ExpLog, p: Outcomes, actual: MatchOutcome): real {
    -n.log(For(p, actual))
  }

  function Brier(p: Outcomes, actual: MatchOutcome): real {
    Squared(p.home - Indicator(actual, HomeWin)) + Squared(p.draw - Indicator(actual, Draw))
      + Squared(p.away - Indicator(actual, AwayWin))
  }

  /** Compares the two cumulative distributions at the two inner boundaries. */
  function Ranked(p: Outcomes, actual: MatchOutcome): real {
    var first := p.home - Indicator(actual, HomeWin);
    var second := (p.home + p.draw) - (Indicator(actual, HomeWin) + Indicator(actual, Draw));
    (Squared(first) + Squared(second)) / 2.0
  }

  datatype Scores = Scores(logLoss: real, brier: real, ranked: real) {
    function Plus(n: ExpLog, g: Graded): Scores {
      Scores(logLoss + Surprise(n, g.probabilities, g.actual), brier + Brier(g.probabilities, g.actual),
             ranked + Ranked(g.probabilities, g.actual))
    }

    function Per(count: real): Scores
      requires count != 0.0
    {
      Scores(Over(logLoss, count), Over(brier, count), Over(ranked, count))
    }
  }

  datatype Summary = Summary(model: string, count: nat, homeWins: nat, draws: nat, awayWins: nat, mean: Scores)

  function SumScores(n: ExpLog, rows: seq<Graded>): Scores {
    if rows == [] then Scores(0.0, 0.0, 0.0) else
      SumScores(n, rows[..|rows| - 1]).Plus(n, rows[|rows| - 1])
  }

  function CountOf(rows: seq<Graded>, outcome: MatchOutcome): nat {
    if rows == [] then 0 else
      CountOf(rows[..|rows| - 1], outcome) + if rows[|rows| - 1].actual == outcome then 1 else 0
  }

  /** No outcome that happened was given no chance. */
  predicate Possible(rows: seq<Graded>) {
    forall g :: g in rows ==> For(g.probabilities, g.actual) > 0.0
  }

  function SummaryOf(n: ExpLog, model: string, rows: seq<Graded>): Summary
    requires rows != []
  {
    Summary(model, |rows|, CountOf(rows, HomeWin), CountOf(rows, Draw), CountOf(rows, AwayWin),
            SumScores(n, rows).Per(|rows| as real))
  }

  // ---------------------------------------------------------------- scoring a population

  datatype MetricError = NothingToScore | MixedModels | RepeatedExamples | PopulationsDiffer | Impossible

  predicate OneModel(predictions: seq<Prediction>) {
    forall p, q :: p in predictions && q in predictions ==> p.model == q.model
  }

  function MetricFault(predictions: seq<Prediction>, targets: Targets): Option<MetricError> {
    if predictions == [] then Some(NothingToScore)
    else if !OneModel(predictions) then Some(MixedModels)
    else if !NoSharedExample(predictions) then Some(RepeatedExamples)
    else if IdSet(predictions) != targets.Keys then Some(PopulationsDiffer)
    else if !Possible(Rows(predictions, targets)) then Some(Impossible)
    else None
  }

  /** Scores a model's predictions, which must cover the examples once each. */
  method EvaluateProbabilisticPredictions(n: ExpLog, predictions: seq<Prediction>, targets: Targets)
    returns (r: Result<Summary, MetricError>)
    ensures r.Success? <==> MetricFault(predictions, targets).None?
    ensures r.Success? ==> r.value == SummaryOf(n, predictions[0].model, Rows(predictions, targets))
    ensures r.Failure? ==> MetricFault(predictions, targets) == Some(r.error)
  {
    if predictions == [] {
      return Failure(NothingToScore);
    }
    if !OneModel(predictions) {
      return Failure(MixedModels);
    }
    if !NoSharedExample(predictions) {
      return Failure(RepeatedExamples);
    }
    if IdSet(predictions) != targets.Keys {
      return Failure(PopulationsDiffer);
    }
    var rows := Rows(predictions, targets);
    var possible, sum, home, draw, away := ScoreRows(n, rows);
    if !possible {
      return Failure(Impossible);
    }
    return Success(Summary(ById(predictions)[0].model, |rows|, home, draw, away, sum.Per(|rows| as real)));
  }

  /** One pass that stops at an outcome given no chance. */
  method ScoreRows(n: ExpLog, rows: seq<Graded>) returns (possible: bool, sum: Scores, home: nat, draw: nat, away: nat)
    ensures possible <==> Possible(rows)
    ensures possible ==> sum == SumScores(n, rows)
    ensures possible ==> home == CountOf(rows, HomeWin) && draw == CountOf(rows, Draw) && away == CountOf(rows, AwayWin)
  {
    possible, sum, home, draw, away := true, Scores(0.0, 0.0, 0.0), 0, 0, 0;
    for i := 0 to |rows|
      invariant possible && Possible(rows[..i]) && sum == SumScores(n, rows[..i])
      invariant home == CountOf(rows[..i], HomeWin) && draw == CountOf(rows[..i], Draw) && away == CountOf(rows[..i], AwayWin)
    {
      ScoredFurther(n, rows, i);
      match rows[i].actual {
        case HomeWin => home := home + 1;
        case Draw => draw := draw + 1;
        case AwayWin => away := away + 1;
      }
      if For(rows[i].probabilities, rows[i].actual) <= 0.0 {
        possible := false;
        return;
      }
      sum := sum.Plus(n, rows[i]);
    }
    assert rows[..|rows|] == rows;
  }

  lemma ScoredFurther(n: ExpLog, rows: seq<Graded>, i: nat)
    requires i < |rows|
    ensures SumScores(n, rows[..i + 1]) == SumScores(n, rows[..i]).Plus(n, rows[i])
    ensures Possible(rows[..i + 1]) <==> Possible(rows[..i]) && For(rows[i].probabilities, rows[i].actual) > 0.0
    ensures forall o :: CountOf(rows[..i + 1], o) == CountOf(rows[..i], o) + if rows[i].actual == o then 1 else 0
  {
    assert rows[..i + 1][..i] == rows[..i] && rows[..i + 1] == rows[..i] + [rows[i]];
  }

  /** Every prediction gives the outcome of its example a chance. */
  predicate Chances(predictions: seq<Prediction>, targets: Targets) {
    forall p :: p in predictions ==> p.example in targets && For(p.probabilities, targets[p.example]) > 0.0
  }

  /** The rows are possible exactly when each prediction gave its outcome a chance. */
  lemma PossibleExactly(predictions: seq<Prediction>, targets: Targets)
    requires IdSet(predictions) <= targets.Keys
    ensures Possible(Rows(predictions, targets)) <==> Chances(predictions, targets)
  {
    var rows := Rows(predictions, targets);
    forall p | p in predictions
      ensures p.example in targets && Graded(p.probabilities, targets[p.example]) in rows
    {
      RowOfPrediction(predictions, targets, p);
    }
    forall g | g in rows
      ensures exists p :: p in predictions && p.example in targets && g == Graded(p.probabilities, targets[p.example])
    {
      var p := PredictionOfRow(predictions, targets, g);
    }
  }

  lemma RowOfPrediction(predictions: seq<Prediction>, targets: Targets, p: Prediction)
    requires IdSet(predictions) <= targets.Keys && p in predictions
    ensures p.example in targets && Graded(p.probabilities, targets[p.example]) in Rows(predictions, targets)
  {
    var s, rows := ById(predictions), Rows(predictions, targets);
    var i :| 0 <= i < |s| && s[i] == p;
    assert rows[i] == GradedBy(p, targets, s);
  }

  lemma PredictionOfRow(predictions: seq<Prediction>, targets: Targets, g: Graded) returns (p: Prediction)
    requires IdSet(predictions) <= targets.Keys && g in Rows(predictions, targets)
    ensures p in predictions && p.example in targets && g == Graded(p.probabilities, targets[p.example])
  {
    var s, rows := ById(predictions), Rows(predictions, targets);
    var i :| 0 <= i < |rows| && rows[i] == g;
    assert s[i] in predictions && g == GradedBy(s[i], targets, s);
    p := s[i];
  }

  /** A score does not depend on how the predictions are listed. */
  lemma ScoringIsOrderFree(a: seq<Prediction>, b: seq<Prediction>, targets: Targets)
    requires multiset(a) == multiset(b) && NoSharedExample(a)
    ensures NoSharedExample(b) && IdSet(a) == IdSet(b) && ById(a) == ById(b)
    ensures IdSet(a) <= targets.Keys ==> Rows(a, targets) == Rows(b, targets)
  {
    DistinctKeysPermute(a, b);
    SameMembers(a, b);
    SameElements(a, b);
    SortByLists(ExampleOf(), a);
    SortByLists(ExampleOf(), b);
  }

  lemma DistinctKeysPermute(a: seq<Prediction>, b: seq<Prediction>)
    requires multiset(a) == multiset(b) && NoSharedExample(a)
    ensures NoSharedExample(b)
  {
    forall i, j | 0 <= i < j < |b|
      ensures b[i].example != b[j].example
    {
      if b[i].example == b[j].example {
        SharedKeyRepeats(ExampleOf(), a, b, i, j);
      }
    }
  }

  /** A population that is scored: one model's predictions, one for each target, each giving what happened a chance. */
  ghost predicate Scorable(predictions: seq<Prediction>, targets: Targets) {
    && predictions != [] && (forall p :: p in predictions ==> p.model == predictions[0].model)
    && (forall i, j :: 0 <= i < j < |predictions| ==> predictions[i].example != predictions[j].example)
    && (forall id :: id in targets ==> exists p :: p in predictions && p.example == id)
    && (forall p :: p in predictions ==> p.example in targets && For(p.probabilities, targets[p.example]) > 0.0)
  }

  lemma TargetsMatch(predictions: seq<Prediction>, targets: Targets)
    ensures IdSet(predictions) == targets.Keys <==>
              && (forall id :: id in targets ==> exists p :: p in predictions && p.example == id)
              && (forall p :: p in predictions ==> p.example in targets)
  {
    forall id
      ensures id in IdSet(predictions) <==> exists p :: p in predictions && p.example == id
    {
    }
    if IdSet(predictions) == targets.Keys {
      forall id | id in targets
        ensures exists p :: p in predictions && p.example == id
      {
        assert id in IdSet(predictions);
      }
      forall p | p in predictions
        ensures p.example in targets
      {
        assert p.example in IdSet(predictions);
      }
    }
    if (forall id :: id in targets ==> exists p :: p in predictions && p.example == id)
       && (forall p :: p in predictions ==> p.example in targets) {
      assert forall id :: id in IdSet(predictions) <==> id in targets.Keys;
    }
  }

  lemma ChancesOfRows(predictions: seq<Prediction>, targets: Targets)
    requires IdSet(predictions) == targets.Keys
    ensures Possible(Rows(predictions, targets)) <==>
            forall p :: p in predictions ==> p.example in targets && For(p.probabilities, targets[p.example]) > 0.0
  {
    PossibleExactly(predictions, targets);
  }

  /** Exactly which populations are scored. */
  lemma ScoredExactly(predictions: seq<Prediction>, targets: Targets)
    ensures MetricFault(predictions, targets).None? <==> Scorable(predictions, targets)
  {
    TargetsMatch(predictions, targets);
    if IdSet(predictions) == targets.Keys {
      ChancesOfRows(predictions, targets);
    }
    assert predictions != [] ==> predictions[0] in predictions;
  }

  /** The three counts add up to the population. */
  lemma {:induction false} CountsAddUp(rows: seq<Graded>)
    ensures CountOf(rows, HomeWin) + CountOf(rows, Draw) + CountOf(rows, AwayWin) == |rows|
    decreases |rows|
  {
    if rows != [] {
      CountsAddUp(rows[..|rows| - 1]);
    }
  }

  /** A list of numbers, one for each row. */
  ghost predicate EachRow(values: seq<real>, rows: seq<Graded>, score: Graded -> real) {
    |values| == |rows| && forall i :: 0 <= i < |rows| ==> values[i] == score(rows[i])
  }

  function LogScore(n: ExpLog): Graded -> real {
    (g: Graded) => Surprise(n, g.probabilities, g.actual)
  }

  function BrierScore(): Graded -> real {
    (g: Graded) => Brier(g.probabilities, g.actual)
  }

  function RankedScore(): Graded -> real {
    (g: Graded) => Ranked(g.probabilities, g.actual)
  }

  /** The three sums are those of the three scores over the rows. */
  lemma {:induction false} SumsOfScores(
      n: ExpLog, rows: seq<Graded>, logs: seq<real>, briers: seq<real>, ranks: seq<real>)
    requires EachRow(logs, rows, LogScore(n)) && EachRow(briers, rows, BrierScore()) && EachRow(ranks, rows, RankedScore())
    ensures SumScores(n, rows) == Scores(SumOf(logs), SumOf(briers), SumOf(ranks))
    decreases |rows|
  {
    if rows != [] {
      var k := |rows| - 1;
      SumsOfScores(n, rows[..k], logs[..k], briers[..k], ranks[..k]);
    }
  }

  lemma MeanGivesBack(sum: Scores, count: real)
    requires count > 0.0
    ensures var mean := sum.Per(count);
      && Times(mean.logLoss, count) == sum.logLoss
      && Times(mean.brier, count) == sum.brier && Times(mean.ranked, count) == sum.ranked
  {
    OverIsTimes(sum.logLoss, count);
    OverIsTimes(sum.brier, count);
    OverIsTimes(sum.ranked, count);
    Commutes(Over(sum.logLoss, count), count);
    Commutes(Over(sum.brier, count), count);
    Commutes(Over(sum.ranked, count), count);
  }

  /** Each published mean times the number of rows is the sum of its own score over the rows. */
  lemma MeansOfScores(
      n: ExpLog, model: string, rows: seq<Graded>, logs: seq<real>, briers: seq<real>, ranks: seq<real>)
    requires rows != []
    requires EachRow(logs, rows, LogScore(n)) && EachRow(briers, rows, BrierScore()) && EachRow(ranks, rows, RankedScore())
    ensures var s, count := SummaryOf(n, model, rows), |rows| as real;
      && s.model == model && s.count == |rows|
      && Times(s.mean.logLoss, count) == SumOf(logs) && Times(s.mean.brier, count) == SumOf(briers)
      && Times(s.mean.ranked, count) == SumOf(ranks)
  {
    SumsOfScores(n, rows, logs, briers, ranks);
    MeanGivesBack(SumScores(n, rows), |rows| as real);
  }

  /** The places of the rows in which an outcome happened. */
  ghost function Places(rows: seq<Graded>, outcome: MatchOutcome): set<int> {
    set i | 0 <= i < |rows| && rows[i].actual == outcome
  }

  lemma {:induction false} CountIsPlaces(rows: seq<Graded>, outcome: MatchOutcome)
    ensures CountOf(rows, outcome) == |Places(rows, outcome)|
    decreases |rows|
  {
    if rows != [] {
      var k := |rows| - 1;
      CountIsPlaces(rows[..k], outcome);
      var earlier := Places(rows[..k], outcome);
      assert Places(rows, outcome) == earlier + (if rows[k].actual == outcome then {k} else {});
      assert k !in earlier;
    }
  }

  /** The published counts are the numbers of home wins, draws and away wins among the rows. */
  lemma CountsAreOutcomes(n: ExpLog, model: string, rows: seq<Graded>)
    requires rows != []
    ensures var s := SummaryOf(n, model, rows);
      && s.homeWins == |Places(rows, HomeWin)| && s.draws == |Places(rows, Draw)| && s.awayWins == |Places(rows, AwayWin)|
  {
    CountIsPlaces(rows, HomeWin);
    CountIsPlaces(rows, Draw);
    CountIsPlaces(rows, AwayWin);
  }

  // ---------------------------------------------------------------- bounds

  predicate Distribution(p: Outcomes) {
    p.home >= 0.0 && p.draw >= 0.0 && p.away >= 0.0 && Sum3(p) == 1.0
  }

  lemma SquareSigns(x: real)
    ensures Squared(x) >= 0.0 && Squared(-x) == Squared(x) && (Squared(x) == 0.0 <==> x == 0.0)
    ensures -1.0 <= x <= 1.0 ==> Squared(x) <= Magnitude(x)
  {
    if x == 0.0 {
      ZeroAndOne(x);
    } else {
      Positive(Magnitude(x), Magnitude(x));
    }
    if -1.0 <= x <= 1.0 && x != 0.0 {
      ZeroAndOne(Magnitude(x));
      KeepsOrder(Magnitude(x), Magnitude(x), 1.0);
    }
  }

  /** The Brier score is twice the ranked score and the square of the draw's error, and at most two. */
  lemma ScoresCompared(p: Outcomes, actual: MatchOutcome)
    requires Distribution(p)
    ensures Brier(p, actual) == Ranked(p, actual) + Ranked(p, actual) + Squared(p.draw - Indicator(actual, Draw))
    ensures 0.0 <= Ranked(p, actual) <= 1.0 && Brier(p, actual) <= 2.0
    ensures Brier(p, actual) == 0.0 <==> For(p, actual) == 1.0
    ensures Ranked(p, actual) == 0.0 <==> For(p, actual) == 1.0
  {
    var h, d, a := p.home - Indicator(actual, HomeWin), p.draw - Indicator(actual, Draw), p.away - Indicator(actual, AwayWin);
    SquareIsSquare(h);
    SquareIsSquare(d);
    SquareIsSquare(a);
    RankedByEnds(p, actual);
    ScoresOfErrors(p, actual, Brier(p, actual), Ranked(p, actual), Squared(h), Squared(d), Squared(a));
  }

  lemma SquareIsSquare(x: real)
    ensures IsSquareOf(Squared(x), x)
  {
    SquareSigns(x);
  }

  lemma ScoresOfErrors(p: Outcomes, actual: MatchOutcome, brier: real, ranked: real, h: real, d: real, a: real)
    requires Distribution(p)
    requires IsSquareOf(h, p.home - Indicator(actual, HomeWin))
    requires IsSquareOf(d, p.draw - Indicator(actual, Draw))
    requires IsSquareOf(a, p.away - Indicator(actual, AwayWin))
    requires brier == h + d + a && ranked == (h + a) / 2.0
    ensures brier == ranked + ranked + d && 0.0 <= ranked <= 1.0 && brier <= 2.0
    ensures brier == 0.0 <==> For(p, actual) == 1.0
    ensures ranked == 0.0 <==> For(p, actual) == 1.0
  {
    ErrorsBound(p, actual, h, d, a);
  }

  /** What bounds the squares of the three errors bounds the scores. */
  lemma ErrorsBound(p: Outcomes, actual: MatchOutcome, h: real, d: real, a: real)
    requires Distribution(p)
    requires IsSquareOf(h, p.home - Indicator(actual, HomeWin))
    requires IsSquareOf(d, p.draw - Indicator(actual, Draw))
    requires IsSquareOf(a, p.away - Indicator(actual, AwayWin))
    ensures h + d + a <= 2.0 && 0.0 <= h + a <= 2.0
    ensures h + d + a == 0.0 <==> For(p, actual) == 1.0
    ensures h + a == 0.0 <==> For(p, actual) == 1.0
  {
  }

  /** All that is used of a square: within one of zero it is no greater, and zero only there. */
  predicate IsSquareOf(square: real, x: real) {
    && 0.0 <= square && (square == 0.0 <==> x == 0.0)
    && (-1.0 <= x <= 1.0 ==> square <= Magnitude(x))
  }

  /** Log loss is never negative, and zero exactly for certainty. */
  lemma SurpriseSign(n: ExpLog, p: Outcomes, actual: MatchOutcome)
    requires IsExpLog(n) && Distribution(p) && For(p, actual) > 0.0
    ensures Surprise(n, p, actual) >= 0.0
    ensures Surprise(n, p, actual) == 0.0 <==> For(p, actual) == 1.0
  {
    LogOrder(n, For(p, actual), 1.0);
    assert n.log(n.exp(0.0)) == 0.0;
  }

  // ---------------------------------------------------------------- propriety

  /** The mean of a score when the outcomes have the given probabilities. */
  function Expected(score: MatchOutcome -> real, q: Outcomes): real {
    Times(q.home, score(HomeWin)) + Times(q.draw, score(Draw)) + Times(q.away, score(AwayWin))
  }

  function BrierOf(p: Outcomes): MatchOutcome -> real {
    (actual: MatchOutcome) => Brier(p, actual)
  }

  function RankedOf(p: Outcomes): MatchOutcome -> real {
    (actual: MatchOutcome) => Ranked(p, actual)
  }

  function SurpriseOf(n: ExpLog, p: Outcomes): MatchOutcome -> real {
    (actual: MatchOutcome) => Surprise(n, p, actual)
  }

  /** How much one outcome adds when p is stated and q is true. */
  lemma SquareError(p: real, q: real)
    ensures Times(q, Squared(p - 1.0)) + Times(1.0 - q, Squared(p)) == Squared(p - q) + q - Squared(q)
  {
  }

  /** Only the true probabilities have the least expected Brier score. */
  lemma BrierIsProper(p: Outcomes, q: Outcomes)
    requires Distribution(p) && Distribution(q)
    ensures Expected(BrierOf(p), q) == Expected(BrierOf(q), q)
              + Squared(p.home - q.home) + Squared(p.draw - q.draw) + Squared(p.away - q.away)
    ensures Expected(BrierOf(q), q) <= Expected(BrierOf(p), q)
    ensures Expected(BrierOf(p), q) == Expected(BrierOf(q), q) ==> p == q
  {
    ExpectedBrier(p, q);
    ExpectedBrier(q, q);
    SquareSigns(p.home - q.home);
    SquareSigns(p.draw - q.draw);
    SquareSigns(p.away - q.away);
    SquareSigns(0.0);
  }

  lemma ExpectedBrier(p: Outcomes, q: Outcomes)
    requires Distribution(q)
    ensures Expected(BrierOf(p), q) ==
            Squared(p.home - q.home) + q.home - Squared(q.home)
            + Squared(p.draw - q.draw) + q.draw - Squared(q.draw)
            + Squared(p.away - q.away) + q.away - Squared(q.away)
  {
    SquareError(p.home, q.home);
    SquareError(p.draw, q.draw);
    SquareError(p.away, q.away);
    Regroup(q, Squared(p.home - 1.0), Squared(p.home), Squared(p.draw - 1.0), Squared(p.draw), Squared(p.away - 1.0), Squared(p.away));
  }

  /** Summing by outcome and summing by term give the same. */
  lemma Regroup(q: Outcomes, h1: real, h0: real, d1: real, d0: real, a1: real, a0: real)
    requires Sum3(q) == 1.0
    ensures Times(q.home, h1 + d0 + a0) + Times(q.draw, h0 + d1 + a0) + Times(q.away, h0 + d0 + a1)
         == Times(q.home, h1) + Times(1.0 - q.home, h0) + Times(q.draw, d1) + Times(1.0 - q.draw, d0)
          + Times(q.away, a1) + Times(1.0 - q.away, a0)
  {
    ThreeTimes(q.home, h1, d0, a0);
    ThreeTimes(q.draw, h0, d1, a0);
    ThreeTimes(q.away, h0, d0, a1);
    Distributes(h0, q.draw, q.away);
    Distributes(d0, q.home, q.away);
    Distributes(a0, q.home, q.draw);
  }

  /** Only the true probabilities have the least expected ranked score. */
  lemma RankedIsProper(p: Outcomes, q: Outcomes)
    requires Distribution(p) && Distribution(q)
    ensures Expected(RankedOf(p), q) == Expected(RankedOf(q), q)
              + (Squared(p.home - q.home) + Squared(p.away - q.away)) / 2.0
    ensures Expected(RankedOf(q), q) <= Expected(RankedOf(p), q)
    ensures Expected(RankedOf(p), q) == Expected(RankedOf(q), q) ==> p == q
  {
    ExpectedRanked(p, q);
    ExpectedRanked(q, q);
    SquareSigns(p.home - q.home);
    SquareSigns(p.away - q.away);
    SquareSigns(0.0);
  }

  lemma RankedByEnds(p: Outcomes, actual: MatchOutcome)
    requires Sum3(p) == 1.0
    ensures Ranked(p, actual)
         == (Squared(p.home - Indicator(actual, HomeWin)) + Squared(p.away - Indicator(actual, AwayWin))) / 2.0
  {
    var a := p.away - Indicator(actual, AwayWin);
    SquareSigns(a);
    assert (p.home + p.draw) - (Indicator(actual, HomeWin) + Indicator(actual, Draw)) == -a;
  }

  lemma ExpectedRanked(p: Outcomes, q: Outcomes)
    requires Sum3(p) == 1.0 && Distribution(q)
    ensures Expected(RankedOf(p), q) ==
            (Squared(p.home - q.home) + q.home - Squared(q.home) + Squared(p.away - q.away) + q.away - Squared(q.away)) / 2.0
  {
    RankedByEnds(p, HomeWin);
    RankedByEnds(p, Draw);
    RankedByEnds(p, AwayWin);
    SquareError(p.home, q.home);
    SquareError(p.away, q.away);
    Regroup(q, Squared(p.home - 1.0), Squared(p.home), 0.0, 0.0, Squared(p.away - 1.0), Squared(p.away));
    Halved(q.home, Squared(p.home - 1.0) + Squared(p.away));
    Halved(q.draw, Squared(p.home) + Squared(p.away));
    Halved(q.away, Squared(p.home) + Squared(p.away - 1.0));
    ZeroAndOne(q.draw);
    ZeroAndOne(1.0 - q.draw);
  }

  lemma Halved(q: real, x: real)
    ensures Times(q, x / 2.0) == Times(q, x) / 2.0
  {
  }

  /** One term of Gibbs' inequality. */
  lemma GibbsTerm(n: ExpLog, p: real, q: real)
    requires IsExpLog(n) && p > 0.0 && q >= 0.0
    ensures Times(q, n.log(q)) - Times(q, n.log(p)) >= q - p
    ensures Times(q, n.log(q)) - Times(q, n.log(p)) == q - p ==> p == q
  {
    if q == 0.0 {
      ZeroAndOne(n.log(q));
      ZeroAndOne(n.log(p));
    } else {
      var x, y := n.log(q), n.log(p);
      assert n.exp(x) == q && n.exp(y) == p;
      ExpAboveTangent(n, y, x);
      Distributes(q, 1.0, y - x);
      DistributesMinus(q, y, x);
      ZeroAndOne(q);
    }
  }

  /** Only the true probabilities have the least expected log loss. */
  lemma LogLossIsProper(n: ExpLog, p: Outcomes, q: Outcomes)
    requires IsExpLog(n) && Distribution(p) && Distribution(q) && p.home > 0.0 && p.draw > 0.0 && p.away > 0.0
    ensures Expected(SurpriseOf(n, q), q) <= Expected(SurpriseOf(n, p), q)
    ensures Expected(SurpriseOf(n, p), q) == Expected(SurpriseOf(n, q), q) ==> p == q
  {
    GibbsTerm(n, p.home, q.home);
    GibbsTerm(n, p.draw, q.draw);
    GibbsTerm(n, p.away, q.away);
    ExpectedSurprise(n, p, q);
    ExpectedSurprise(n, q, q);
  }

  lemma ExpectedSurprise(n: ExpLog, p: Outcomes, q: Outcomes)
    ensures Expected(SurpriseOf(n, p), q)
         == -(Times(q.home, n.log(p.home)) + Times(q.draw, n.log(p.draw)) + Times(q.away, n.log(p.away)))
  {
    Negated(q.home, n.log(p.home));
    Negated(q.draw, n.log(p.draw));
    Negated(q.away, n.log(p.away));
  }

  lemma Negated(x: real, y: real)
    ensures Times(x, -y) == -Times(x, y)
  {
  }
}

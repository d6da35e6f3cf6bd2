/** Fitting the low-score correction: a strictly convex likelihood searched by golden section. */
module RhoFit {
  import opened Wrappers
  import opened Algebra
  import opened ScoreGrid
  import opened DixonColes
  import opened GoldenSection

  /** A training row: its score and the rates the model expects for it. */
  datatype Row = Row(homeGoals: nat, awayGoals: nat, homeRate: real, awayRate: real) {
    predicate LowScore() {
      homeGoals <= 1 && awayGoals <= 1
    }

    function At(rho: real): real {
      Correction(homeGoals, awayGoals, homeRate, awayRate, rho)
    }

    /** The factor is a line in rho; this is its slope. */
    function Slope(): real {
      if homeGoals == 0 && awayGoals == 0 then -Times(homeRate, awayRate)
      else if homeGoals == 0 && awayGoals == 1 then homeRate
      else if homeGoals == 1 && awayGoals == 0 then awayRate
      else if homeGoals == 1 && awayGoals == 1 then -1.0
      else 0.0
    }
  }

  type Logarithm = real --> real

  /** The natural logarithm: below each of its tangents, whose slope at x is one over x. */
  ghost predicate IsLogarithm(log: Logarithm) {
    && (forall x :: x > 0.0 ==> log.requires(x))
    && (forall x, y :: x > 0.0 && y > 0.0 && x != y ==> TangentAbove(log, x, y))
  }

  ghost predicate TangentAbove(log: Logarithm, x: real, y: real)
    requires x > 0.0 && y > 0.0 && log.requires(x) && log.requires(y)
  {
    log(y) < log(x) + Over(y - x, x)
  }

  predicate Rated(rows: seq<Row>) {
    forall row :: row in rows ==> ValidGoals(row.homeRate, row.awayRate)
  }

  lemma RowPositive(row: Row, rho: real)
    requires ValidGoals(row.homeRate, row.awayRate) && ValidRho(rho)
    ensures row.At(rho) > 0.0
  {
    SafeFactor(MAX_EXPECTED_GOALS, RHO_MIN, RHO_MAX, row.homeGoals, row.awayGoals, row.homeRate, row.awayRate, rho);
  }

  lemma RowIsLine(row: Row, x: real, y: real)
    requires ValidGoals(row.homeRate, row.awayRate)
    ensures row.At(y) - row.At(x) == Times(row.Slope(), y - x)
    ensures row.Slope() != 0.0 <==> row.LowScore()
  {
    var k := Times(row.homeRate, row.awayRate);
    Positive(row.homeRate, row.awayRate);
    DistributesMinus(k, y, x);
    DistributesMinus(row.homeRate, y, x);
    DistributesMinus(row.awayRate, y, x);
    NegatedFactor(k, y - x);
    NegatedFactor(1.0, y - x);
    ZeroAndOne(y - x);
  }

  lemma NegatedFactor(x: real, y: real)
    ensures Times(-x, y) == -Times(x, y)
  {
  }

  // ---------------------------------------------------------------- the objective

  /** The log factor of every row. */
  function LogFactors(rows: seq<Row>, log: Logarithm, rho: real): (r: seq<real>)
    requires IsLogarithm(log) && Rated(rows) && ValidRho(rho)
    ensures |r| == |rows|
    ensures forall i :: 0 <= i < |rows| ==> rows[i].At(rho) > 0.0 && r[i] == log(rows[i].At(rho))
  {
    if rows == [] then [] else
      var last := rows[|rows| - 1];
      assert last in rows;
      RowPositive(last, rho);
      LogFactors(rows[..|rows| - 1], log, rho) + [log(last.At(rho))]
  }

  function LogSum(rows: seq<Row>, log: Logarithm, rho: real): real
    requires IsLogarithm(log) && Rated(rows) && ValidRho(rho)
  {
    SumOf(LogFactors(rows, log, rho))
  }

  /** The slope of every row's log factor. */
  ghost function Slopes(rows: seq<Row>, rho: real): (r: seq<real>)
    requires Rated(rows) && ValidRho(rho)
    ensures |r| == |rows|
    ensures forall i :: 0 <= i < |rows| ==> rows[i].At(rho) > 0.0 && r[i] == Over(rows[i].Slope(), rows[i].At(rho))
  {
    if rows == [] then [] else
      var last := rows[|rows| - 1];
      assert last in rows;
      RowPositive(last, rho);
      Slopes(rows[..|rows| - 1], rho) + [Over(last.Slope(), last.At(rho))]
  }

  ghost function Gradient(rows: seq<Row>, rho: real): real
    requires Rated(rows) && ValidRho(rho)
  {
    SumOf(Slopes(rows, rho))
  }

  function LowScores(rows: seq<Row>): nat {
    if rows == [] then 0 else LowScores(rows[..|rows| - 1]) + if rows[|rows| - 1].LowScore() then 1 else 0
  }

  lemma {:induction false} LowScoresExactly(rows: seq<Row>)
    ensures LowScores(rows) > 0 <==> exists i :: 0 <= i < |rows| && rows[i].LowScore()
    decreases |rows|
  {
    if rows != [] {
      var n := |rows| - 1;
      LowScoresExactly(rows[..n]);
      if i :| 0 <= i < |rows| && rows[i].LowScore() {
        assert i < n ==> rows[..n][i].LowScore();
      }
    }
  }

  lemma RowTangent(row: Row, log: Logarithm, b: real, x: real)
    requires IsLogarithm(log) && ValidGoals(row.homeRate, row.awayRate) && ValidRho(b) && ValidRho(x) && x != b
    ensures row.At(b) > 0.0 && row.At(x) > 0.0
    ensures if row.LowScore() then log(row.At(x)) < log(row.At(b)) + Times(Over(row.Slope(), row.At(b)), x - b)
            else log(row.At(x)) == log(row.At(b)) + Times(Over(row.Slope(), row.At(b)), x - b)
  {
    RowPositive(row, b);
    RowPositive(row, x);
    RowIsLine(row, b, x);
    var k, c, u := row.Slope(), row.At(b), Over(1.0, row.At(b));
    OverIsTimes(Times(k, x - b), c);
    OverIsTimes(k, c);
    Associates(u, k, x - b);
    if row.LowScore() {
      SlopeMoves(k, x - b);
      assert TangentAbove(log, c, row.At(x));
    } else {
      ZeroAndOne(x - b);
      ZeroAndOne(u);
    }
  }

  lemma SlopeMoves(k: real, d: real)
    requires k != 0.0 && d != 0.0
    ensures Times(k, d) != 0.0
  {
  }

  /** Every row's log factor lies on or below its tangent, that of a low score below. */
  lemma RowsBelowTangents(rows: seq<Row>, log: Logarithm, b: real, x: real)
    requires IsLogarithm(log) && Rated(rows) && ValidRho(b) && ValidRho(x) && x != b
    ensures BelowLines(LogFactors(rows, log, x), LogFactors(rows, log, b), Slopes(rows, b), x - b)
    ensures LowScores(rows) > 0 ==> BelowALine(LogFactors(rows, log, x), LogFactors(rows, log, b), Slopes(rows, b), x - b)
  {
    var u, v, g := LogFactors(rows, log, x), LogFactors(rows, log, b), Slopes(rows, b);
    forall i | 0 <= i < |rows|
      ensures u[i] <= v[i] + Times(g[i], x - b)
      ensures rows[i].LowScore() ==> u[i] < v[i] + Times(g[i], x - b)
    {
      RowTangent(rows[i], log, b, x);
    }
    LowScoresExactly(rows);
  }

  /** The likelihood lies below each of its tangents, strictly if any row is low-scoring. */
  lemma SumBelowTangent(rows: seq<Row>, log: Logarithm, b: real, x: real)
    requires IsLogarithm(log) && Rated(rows) && ValidRho(b) && ValidRho(x) && x != b
    ensures if LowScores(rows) > 0 then LogSum(rows, log, x) < LogSum(rows, log, b) + Times(Gradient(rows, b), x - b)
            else LogSum(rows, log, x) == LogSum(rows, log, b) + Times(Gradient(rows, b), x - b)
  {
    if LowScores(rows) > 0 {
      SumBelow(rows, log, b, x);
    } else {
      SumOnTangent(rows, log, b, x);
    }
  }

  lemma SumBelow(rows: seq<Row>, log: Logarithm, b: real, x: real)
    requires IsLogarithm(log) && Rated(rows) && ValidRho(b) && ValidRho(x) && x != b && LowScores(rows) > 0
    ensures LogSum(rows, log, x) < LogSum(rows, log, b) + Times(Gradient(rows, b), x - b)
  {
    var u, v, g := LogFactors(rows, log, x), LogFactors(rows, log, b), Slopes(rows, b);
    RowsBelowTangents(rows, log, b, x);
    SumBelowLine(u, v, g, x - b);
  }

  lemma SumOnTangent(rows: seq<Row>, log: Logarithm, b: real, x: real)
    requires IsLogarithm(log) && Rated(rows) && ValidRho(b) && ValidRho(x) && x != b && LowScores(rows) == 0
    ensures LogSum(rows, log, x) == LogSum(rows, log, b) + Times(Gradient(rows, b), x - b)
  {
    FlatSum(rows, log, b, x);
    FlatGradient(rows, b);
    ZeroAndOne(x - b);
  }

  lemma FlatGradient(rows: seq<Row>, b: real)
    requires Rated(rows) && ValidRho(b) && LowScores(rows) == 0
    ensures Gradient(rows, b) == 0.0
  {
    LowScoresExactly(rows);
    forall i | 0 <= i < |rows|
      ensures Slopes(rows, b)[i] == 0.0
    {
      FlatRow(rows[i], b);
    }
    SumOfZeros(Slopes(rows, b));
  }

  lemma FlatRow(row: Row, b: real)
    requires ValidGoals(row.homeRate, row.awayRate) && ValidRho(b) && !row.LowScore()
    ensures row.At(b) > 0.0 && Over(row.Slope(), row.At(b)) == 0.0
  {
    RowPositive(row, b);
    OverIsTimes(0.0, row.At(b));
    ZeroAndOne(Over(1.0, row.At(b)));
  }

  /** The mean negative log of the factors. */
  function Loss(rows: seq<Row>, log: Logarithm, rho: real): real
    requires rows != [] && IsLogarithm(log) && Rated(rows) && ValidRho(rho)
  {
    Over(-LogSum(rows, log, rho), |rows| as real)
  }

  lemma LossFallsAsSumRises(rows: seq<Row>, log: Logarithm, x: real, y: real)
    requires rows != [] && IsLogarithm(log) && Rated(rows) && ValidRho(x) && ValidRho(y)
    requires LogSum(rows, log, x) < LogSum(rows, log, y)
    ensures Loss(rows, log, y) < Loss(rows, log, x)
  {
    var n := |rows| as real;
    OverPositive(1.0, n);
    OverIsTimes(-LogSum(rows, log, x), n);
    OverIsTimes(-LogSum(rows, log, y), n);
    KeepsOrder(Over(1.0, n), -LogSum(rows, log, y), -LogSum(rows, log, x));
  }

  /** A line does not rise both ways. */
  lemma NoRiseBothWays(g: real, back: real, ahead: real)
    requires back < 0.0 < ahead
    ensures Times(g, back) <= 0.0 || Times(g, ahead) <= 0.0
  {
  }

  /** With a low-scoring row the likelihood of an interior point is above that of one of its neighbours. */
  lemma SumIsStrict(rows: seq<Row>, log: Logarithm, a: real, b: real, c: real)
    requires IsLogarithm(log) && Rated(rows) && LowScores(rows) > 0
    requires ValidRho(a) && ValidRho(c) && a < b < c
    ensures LogSum(rows, log, a) < LogSum(rows, log, b) || LogSum(rows, log, c) < LogSum(rows, log, b)
  {
    var g, before, at, after := Gradient(rows, b), LogSum(rows, log, a), LogSum(rows, log, b), LogSum(rows, log, c);
    SumBelowTangent(rows, log, b, a);
    SumBelowTangent(rows, log, b, c);
    NoRiseBothWays(g, a - b, c - b);
  }

  /** With a low-scoring row the loss of an interior point is below that of one of its neighbours. */
  lemma LossIsStrict(rows: seq<Row>, log: Logarithm, a: real, b: real, c: real)
    requires rows != [] && IsLogarithm(log) && Rated(rows) && LowScores(rows) > 0
    requires ValidRho(a) && ValidRho(c) && a < b < c
    ensures Loss(rows, log, b) < Loss(rows, log, a) || Loss(rows, log, b) < Loss(rows, log, c)
  {
    SumIsStrict(rows, log, a, b, c);
    if LogSum(rows, log, a) < LogSum(rows, log, b) {
      LossFallsAsSumRises(rows, log, a, b);
    } else {
      LossFallsAsSumRises(rows, log, c, b);
    }
  }

  lemma LossIsFlat(rows: seq<Row>, log: Logarithm, x: real, y: real)
    requires rows != [] && IsLogarithm(log) && Rated(rows) && LowScores(rows) == 0 && ValidRho(x) && ValidRho(y)
    ensures Loss(rows, log, x) == Loss(rows, log, y)
  {
    FlatSum(rows, log, x, y);
  }

  lemma FlatSum(rows: seq<Row>, log: Logarithm, x: real, y: real)
    requires IsLogarithm(log) && Rated(rows) && LowScores(rows) == 0 && ValidRho(x) && ValidRho(y)
    ensures LogSum(rows, log, x) == LogSum(rows, log, y)
  {
    LowScoresExactly(rows);
    assert LogFactors(rows, log, x) == LogFactors(rows, log, y);
  }

  // ---------------------------------------------------------------- the likelihood and the projection

  /** A row whose score lies on the grid of 0 to n goals. */
  ghost predicate OnGrid(row: Row, n: nat) {
    ValidGoals(row.homeRate, row.awayRate) && row.homeGoals <= n && row.awayGoals <= n
  }

  /** What the projection multiplies the probability of a row's score by. */
  ghost function CellRatio(row: Row, rho: real, n: nat): (ratio: real)
    requires OnGrid(row, n)
  {
    CellPositive(row, n);
    Over(CorrectedGrid(row.homeRate, row.awayRate, rho, n)[row.homeGoals][row.awayGoals],
         PoissonGrid(row.homeRate, row.awayRate, n)[row.homeGoals][row.awayGoals])
  }

  lemma CellPositive(row: Row, n: nat)
    requires OnGrid(row, n)
    ensures PoissonGrid(row.homeRate, row.awayRate, n)[row.homeGoals][row.awayGoals] > 0.0
  {
    PoissonSharesAreShares(row.homeRate, n);
    PoissonSharesAreShares(row.awayRate, n);
    Positive(PoissonShares(row.homeRate, n)[row.homeGoals], PoissonShares(row.awayRate, n)[row.awayGoals]);
  }

  /** The factor of a training row is the one that the projection later applies to its score. */
  lemma RowIsCellRatio(row: Row, rho: real, n: nat)
    requires OnGrid(row, n)
    ensures Times(PoissonGrid(row.homeRate, row.awayRate, n)[row.homeGoals][row.awayGoals], row.At(rho))
         == CorrectedGrid(row.homeRate, row.awayRate, rho, n)[row.homeGoals][row.awayGoals]
    ensures row.At(rho) == CellRatio(row, rho, n)
  {
    CellPositive(row, n);
    var cell := PoissonGrid(row.homeRate, row.awayRate, n)[row.homeGoals][row.awayGoals];
    OverUnique(CorrectedGrid(row.homeRate, row.awayRate, rho, n)[row.homeGoals][row.awayGoals], cell, row.At(rho));
  }

  /** The log of what the projection does to the score of a row. */
  ghost predicate LogsRatio(row: Row, log: Logarithm, rho: real, n: nat, y: real)
    requires OnGrid(row, n)
  {
    log.requires(CellRatio(row, rho, n)) && y == log(CellRatio(row, rho, n))
  }

  lemma FactorLogsRatio(row: Row, log: Logarithm, rho: real, n: nat, y: real)
    requires IsLogarithm(log) && OnGrid(row, n) && ValidRho(rho) && LogsRatio(row, log, rho, n, y)
    ensures row.At(rho) > 0.0 && y == log(row.At(rho))
  {
    RowPositive(row, rho);
    RowIsCellRatio(row, rho, n);
  }

  lemma LossIsMean(rows: seq<Row>, log: Logarithm, rho: real)
    requires rows != [] && IsLogarithm(log) && Rated(rows) && ValidRho(rho)
    ensures Times(Loss(rows, log, rho), |rows| as real) == -LogSum(rows, log, rho)
  {
    OverIsTimes(-LogSum(rows, log, rho), |rows| as real);
    Commutes(Loss(rows, log, rho), |rows| as real);
  }

  /** The loss is the mean over the rows of minus the log of what the projection does to their scores. */
  lemma LossIsMeanLogRatio(rows: seq<Row>, log: Logarithm, rho: real, n: nat, logs: seq<real>)
    requires rows != [] && IsLogarithm(log) && Rated(rows) && ValidRho(rho) && |logs| == |rows|
    requires forall i :: 0 <= i < |rows| ==> OnGrid(rows[i], n) && LogsRatio(rows[i], log, rho, n, logs[i])
    ensures Times(Loss(rows, log, rho), |rows| as real) == -SumOf(logs)
  {
    forall i | 0 <= i < |rows|
      ensures LogFactors(rows, log, rho)[i] == logs[i]
    {
      FactorLogsRatio(rows[i], log, rho, n, logs[i]);
    }
    assert LogFactors(rows, log, rho) == logs;
    LossIsMean(rows, log, rho);
  }

  // ---------------------------------------------------------------- the fit

  datatype FitError = NoExamples | BadRates

  datatype Fit = Fit(rowCount: nat, rho: real, lowScoreCount: nat, loss: real)

  function RhoObjective(rows: seq<Row>, log: Logarithm): Objective
    requires rows != [] && IsLogarithm(log) && Rated(rows)
  {
    (rho: real) requires ValidRho(rho) => Loss(rows, log, rho)
  }

  /** A rho of the interval that no other beats. */
  ghost predicate BestRho(rows: seq<Row>, log: Logarithm, p: Parameters, m: real)
    requires rows != [] && IsLogarithm(log) && Rated(rows) && p.Valid()
  {
    && p.rhoLow <= m <= p.rhoHigh
    && forall x :: p.rhoLow <= x <= p.rhoHigh ==> Loss(rows, log, m) <= Loss(rows, log, x)
  }

  /** What the search reaches: the best rho to within its precision, or the lower end if no row can tell. */
  ghost predicate Fitted(rows: seq<Row>, log: Logarithm, p: Parameters, ratio: real, rho: real)
    requires rows != [] && IsLogarithm(log) && Rated(rows) && p.Valid()
  {
    var precision := Precision(ratio, Bracket(p.rhoLow, p.rhoHigh), p.iterations);
    && p.rhoLow < rho < p.rhoHigh
    && (LowScores(rows) > 0 ==> forall m :: BestRho(rows, log, p, m) ==> m - precision <= rho <= m + precision)
    && (LowScores(rows) == 0 ==> rho == p.rhoLow + precision)
  }

  lemma ObjectiveShape(rows: seq<Row>, log: Logarithm, p: Parameters)
    requires rows != [] && IsLogarithm(log) && Rated(rows) && p.Valid()
    ensures var f, b := RhoObjective(rows, log), Bracket(p.rhoLow, p.rhoHigh);
      && Defined(f, b)
      && (LowScores(rows) > 0 ==> StrictlyQuasiconvex(f, b))
      && (LowScores(rows) == 0 ==> forall x, y :: b.Holds(x) && b.Holds(y) ==> f(x) == f(y))
      && (forall m :: BestRho(rows, log, p, m) ==> Minimises(f, b, m))
  {
    var f, b := RhoObjective(rows, log), Bracket(p.rhoLow, p.rhoHigh);
    if LowScores(rows) > 0 {
      forall x, y, z | b.Holds(x) && b.Holds(y) && b.Holds(z) && x < y < z
        ensures f(y) < f(x) || f(y) < f(z)
      {
        LossIsStrict(rows, log, x, y, z);
      }
    } else {
      forall x, y | b.Holds(x) && b.Holds(y)
        ensures f(x) == f(y)
      {
        LossIsFlat(rows, log, x, y);
      }
    }
  }

  lemma FoundIsFitted(rows: seq<Row>, log: Logarithm, p: Parameters, ratio: real, rho: real)
    requires rows != [] && IsLogarithm(log) && Rated(rows) && p.Valid()
    requires Defined(RhoObjective(rows, log), Bracket(p.rhoLow, p.rhoHigh))
    requires FoundWithin(RhoObjective(rows, log), Bracket(p.rhoLow, p.rhoHigh),
                         Precision(ratio, Bracket(p.rhoLow, p.rhoHigh), p.iterations), rho)
    ensures Fitted(rows, log, p, ratio, rho)
  {
    ObjectiveShape(rows, log, p);
  }

  method CountLowScores(rows: seq<Row>) returns (n: nat)
    ensures n == LowScores(rows)
  {
    n := 0;
    for i := 0 to |rows|
      invariant n == LowScores(rows[..i])
    {
      assert rows[..i + 1][..i] == rows[..i];
      if rows[i].LowScore() {
        n := n + 1;
      }
    }
    assert rows[..|rows|] == rows;
  }

  /** Fits rho on the rows of one training window; every probe has a positive factor in every row. */
  method FitDixonColesRho(rows: seq<Row>, p: Parameters, ratio: real, log: Logarithm) returns (r: Result<Fit, FitError>)
    requires p.Valid() && IsGolden(ratio) && IsLogarithm(log)
    ensures r.Success? <==> rows != [] && Rated(rows)
    ensures r.Success? ==>
              && Fitted(rows, log, p, ratio, r.value.rho)
              && r.value == Fit(|rows|, r.value.rho, LowScores(rows), Loss(rows, log, r.value.rho))
    ensures r.Failure? ==> r.error == if rows == [] then NoExamples else BadRates
  {
    if rows == [] {
      return Failure(NoExamples);
    }
    if !Rated(rows) {
      return Failure(BadRates);
    }
    var lowScores := CountLowScores(rows);
    ObjectiveShape(rows, log, p);
    var rho := Search(RhoObjective(rows, log), Bracket(p.rhoLow, p.rhoHigh), ratio, p.iterations);
    FoundIsFitted(rows, log, p, ratio, rho);
    return Success(Fit(|rows|, rho, lowScores, Loss(rows, log, rho)));
  }
}

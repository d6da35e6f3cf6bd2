/** The low-score correction of the independent grid, and the fit of its single parameter. */
module DixonColes {
  import opened Wrappers
  import opened Algebra
  import opened ScoreGrid

  const RHO_MIN := -0.15
  const RHO_MAX := 0.025

  predicate ValidRho(rho: real) {
    RHO_MIN <= rho <= RHO_MAX
  }

  /** The factor of one scoreline. */
  function Correction(homeGoals: nat, awayGoals: nat, homeRate: real, awayRate: real, rho: real): real {
    if homeGoals == 0 && awayGoals == 0 then 1.0 - Times(Times(homeRate, awayRate), rho)
    else if homeGoals == 0 && awayGoals == 1 then 1.0 + Times(homeRate, rho)
    else if homeGoals == 1 && awayGoals == 0 then 1.0 + Times(awayRate, rho)
    else if homeGoals == 1 && awayGoals == 1 then 1.0 - rho
    else 1.0
  }

  lemma SmallerProduct(x: real, y: real, a: real, b: real)
    requires 0.0 < x <= a && 0.0 < y <= b
    ensures 0.0 < Times(x, y) <= Times(a, b)
  {
    assert x * y > 0.0 && (a - x) * b >= 0.0 && x * (b - y) >= 0.0;
    assert a * b - x * y == (a - x) * b + x * (b - y);
  }

  /** Where a rate times rho lies, on either side of zero. */
  lemma LineBounds(x: real, cap: real, rho: real, low: real, high: real)
    requires 0.0 < x <= cap && low <= rho <= high
    ensures rho >= 0.0 ==> 0.0 <= Times(x, rho) <= Times(cap, high)
    ensures rho <= 0.0 ==> Times(cap, low) <= Times(x, rho) <= 0.0
  {
    if rho >= 0.0 {
      assert x * rho >= 0.0 && (cap - x) * high >= 0.0 && x * (high - rho) >= 0.0;
      assert cap * high - x * rho == (cap - x) * high + x * (high - rho);
    }
    if rho <= 0.0 {
      assert x * (0.0 - rho) >= 0.0 && (cap - x) * (0.0 - low) >= 0.0 && x * (rho - low) >= 0.0;
      assert x * rho - cap * low == (cap - x) * (0.0 - low) + x * (rho - low);
    }
  }

  /** Bounds on rho that keep every factor positive up to a cap on the rates. */
  predicate SafeBounds(cap: real, low: real, high: real) {
    1.0 + Times(cap, low) > 0.0 && 1.0 - Times(Times(cap, cap), high) > 0.0
  }

  ghost predicate AllPositive(cap: real, low: real, high: real) {
    forall i: nat, j: nat, homeRate: real, awayRate: real, rho: real ::
      0.0 < homeRate <= cap && 0.0 < awayRate <= cap && low <= rho <= high
      ==> Correction(i, j, homeRate, awayRate, rho) > 0.0
  }

  lemma SafeFactor(cap: real, low: real, high: real, i: nat, j: nat, homeRate: real, awayRate: real, rho: real)
    requires high < 1.0 && SafeBounds(cap, low, high)
    requires 0.0 < homeRate <= cap && 0.0 < awayRate <= cap && low <= rho <= high
    ensures Correction(i, j, homeRate, awayRate, rho) > 0.0
  {
    LineBounds(homeRate, cap, rho, low, high);
    LineBounds(awayRate, cap, rho, low, high);
    SmallerProduct(homeRate, awayRate, cap, cap);
    LineBounds(Times(homeRate, awayRate), Times(cap, cap), rho, low, high);
  }

  /** The validator's bounds check is exact: it passes when, and only when, no factor can reach zero. */
  lemma SafeBoundsAreExact(cap: real, low: real, high: real)
    requires cap > 0.0 && low < high < 1.0
    ensures SafeBounds(cap, low, high) <==> AllPositive(cap, low, high)
  {
    if SafeBounds(cap, low, high) {
      forall i: nat, j: nat, homeRate: real, awayRate: real, rho: real |
        0.0 < homeRate <= cap && 0.0 < awayRate <= cap && low <= rho <= high
        ensures Correction(i, j, homeRate, awayRate, rho) > 0.0
      {
        SafeFactor(cap, low, high, i, j, homeRate, awayRate, rho);
      }
    }
    if AllPositive(cap, low, high) {
      assert Correction(0, 1, cap, cap, low) > 0.0;
      assert Correction(0, 0, cap, cap, high) > 0.0;
    }
  }

  /** The correction factor, or the reason there is none; a factor that exists is positive. */
  function Tau(homeGoals: int, awayGoals: int, homeRate: real, awayRate: real, rho: real): (r: Result<real, ScoreError>)
    ensures r.Success? <==> && 0.0 < homeRate <= 6.0 && 0.0 < awayRate <= 6.0 && -0.15 <= rho <= 0.025
                            && homeGoals >= 0 && awayGoals >= 0
    ensures r.Success? ==> r.value > 0.0 && r.value == Correction(homeGoals, awayGoals, homeRate, awayRate, rho)
    ensures r.Failure? ==> r.error == if !ValidGoals(homeRate, awayRate) then BadExpectedGoals
                                      else if !ValidRho(rho) then BadRho else NegativeGoals
  {
    if !ValidGoals(homeRate, awayRate) then Failure(BadExpectedGoals)
    else if !ValidRho(rho) then Failure(BadRho)
    else if homeGoals < 0 || awayGoals < 0 then Failure(NegativeGoals)
    else
      SafeFactor(MAX_EXPECTED_GOALS, RHO_MIN, RHO_MAX, homeGoals, awayGoals, homeRate, awayRate, rho);
      Success(Correction(homeGoals, awayGoals, homeRate, awayRate, rho))
  }

  // ---------------------------------------------------------------- model parameters

  datatype Parameters = Parameters(minimum: real, maximum: real, maxGoals: int, iterations: nat, rhoLow: real, rhoHigh: real) {
    /** The accepted expected-goal bounds, grid size and rho interval. */
    predicate Valid() {
      && 0.0 < minimum < maximum && 1 <= maxGoals <= 100 && iterations >= 1
      && ValidRho(rhoLow) && ValidRho(rhoHigh) && rhoLow < rhoHigh
      && SafeBounds(maximum, rhoLow, rhoHigh)
    }

    /** A rate the model can produce: every rate is clipped between the bounds. */
    predicate Produces(rate: real) {
      minimum <= rate <= maximum
    }
  }

  /** Every rate a valid model can produce passes the fixed cap exactly when its own cap is no larger. */
  lemma CapsAgree(p: Parameters)
    requires p.Valid()
    ensures (forall home, away :: p.Produces(home) && p.Produces(away) ==> ValidGoals(home, away))
            <==> p.maximum <= 6.0
  {
    assert p.Produces(p.maximum);
  }

  /** With a cap of at most six, whatever a valid model produces and fits is accepted by the projection. */
  lemma ValidModelIsAccepted(p: Parameters, home: real, away: real, rho: real)
    requires p.Valid() && p.maximum <= 6.0 && p.Produces(home) && p.Produces(away) && p.rhoLow <= rho <= p.rhoHigh
    ensures 0.0 < home <= 6.0 && 0.0 < away <= 6.0 && -0.15 <= rho <= 0.025 && 1 <= p.maxGoals <= 100
    ensures Tau(1, 1, home, away, rho).Success?
  {
  }

  /** Validity alone does not imply it. */
  lemma ValidParametersAboveTheCap() returns (p: Parameters)
    ensures p.Valid() && p.Produces(6.5) && !ValidGoals(6.5, 6.5)
  {
    p := Parameters(0.05, 6.5, 40, 96, -0.1, 0.02);
    assert Times(6.5, -0.1) == -0.65 && Times(6.5, 6.5) == 42.25 && Times(42.25, 0.02) == 0.845;
  }

  // ---------------------------------------------------------------- correcting a grid

  /** Every cell times its own factor. */
  function Corrected(g: Grid, homeRate: real, awayRate: real, rho: real): (c: Grid)
    ensures |c| == |g| && forall i :: 0 <= i < |g| ==> |c[i]| == |g[i]|
  {
    seq(|g|, i requires 0 <= i < |g| =>
      seq(|g[i]|, j requires 0 <= j < |g[i]| => Times(g[i][j], Correction(i, j, homeRate, awayRate, rho))))
  }

  lemma FarCellsKeep(g: Grid, homeRate: real, awayRate: real, rho: real, i: nat, j: nat)
    requires i < |g| && j < |g[i]| && (i >= 2 || j >= 2)
    ensures Corrected(g, homeRate, awayRate, rho)[i][j] == g[i][j]
  {
    ZeroAndOne(g[i][j]);
  }

  /** Multiplies the cells with at most one goal a side by their factors, in place. */
  method CorrectCells(m: array2<real>, homeRate: real, awayRate: real, rho: real)
    requires m.Length0 == m.Length1 >= 2 && ValidGoals(homeRate, awayRate) && ValidRho(rho)
    modifies m
    ensures Cells(m) == Corrected(old(Cells(m)), homeRate, awayRate, rho)
  {
    m[0, 0] := Times(m[0, 0], Tau(0, 0, homeRate, awayRate, rho).value);
    m[0, 1] := Times(m[0, 1], Tau(0, 1, homeRate, awayRate, rho).value);
    m[1, 0] := Times(m[1, 0], Tau(1, 0, homeRate, awayRate, rho).value);
    m[1, 1] := Times(m[1, 1], Tau(1, 1, homeRate, awayRate, rho).value);
    ghost var was := old(Cells(m));
    forall i, j | 0 <= i < m.Length0 && 0 <= j < m.Length1
      ensures Cells(m)[i][j] == Corrected(was, homeRate, awayRate, rho)[i][j]
    {
      if i >= 2 || j >= 2 {
        FarCellsKeep(was, homeRate, awayRate, rho, i, j);
      }
    }
    SameGrid(Cells(m), Corrected(was, homeRate, awayRate, rho));
  }

  // ---------------------------------------------------------------- what the correction keeps

  /** What one corner cell gains: mass moves around the four cells in equal amounts. */
  ghost predicate Moved(g: Grid, c: Grid, d: real) {
    && Square(g) && Square(c) && |c| == |g| >= 2
    && c[0][0] == g[0][0] - d && c[0][1] == g[0][1] + d
    && c[1][0] == g[1][0] + d && c[1][1] == g[1][1] - d
    && forall i, j :: 0 <= i < |g| && 0 <= j < |g| && (i >= 2 || j >= 2) ==> c[i][j] == g[i][j]
  }

  lemma {:induction false} VectorMoved(v: Vector, w: Vector, d: real, k: nat)
    requires |v| == |w| >= 2 && k <= |v| && w[0] == v[0] - d && w[1] == v[1] + d
    requires forall j :: 2 <= j < |v| ==> w[j] == v[j]
    ensures Mass(w, k) == if k == 1 then Mass(v, k) - d else Mass(v, k)
  {
    if k > 0 {
      VectorMoved(v, w, d, k - 1);
    }
  }

  function Column(g: Grid, j: nat): (v: Vector)
    requires forall i :: 0 <= i < |g| ==> j < |g[i]|
    ensures |v| == |g| && forall i :: 0 <= i < |g| ==> v[i] == g[i][j]
  {
    seq(|g|, i requires 0 <= i < |g| => g[i][j])
  }

  lemma {:induction false} ColumnIsVector(g: Grid, j: nat, k: nat)
    requires Square(g) && j < |g| && k <= |g|
    ensures ColumnMass(g, j, k) == Mass(Column(g, j), k)
  {
    if k > 0 {
      ColumnIsVector(g, j, k - 1);
    }
  }

  /** How the mass of the first k cells of a row changes. */
  lemma RowMoved(g: Grid, c: Grid, d: real, i: nat, k: nat)
    requires Moved(g, c, d) && i < |g| && k <= |g|
    ensures Mass(c[i], k) == if k != 1 || i >= 2 then Mass(g[i], k) else if i == 0 then Mass(g[i], k) - d else Mass(g[i], k) + d
  {
    VectorMoved(g[i], c[i], if i == 0 then d else if i == 1 then -d else 0.0, k);
  }

  lemma ColumnMoved(g: Grid, c: Grid, d: real, j: nat, k: nat)
    requires Moved(g, c, d) && j < |g| && k <= |g|
    ensures ColumnMass(c, j, k)
         == if k != 1 || j >= 2 then ColumnMass(g, j, k) else if j == 0 then ColumnMass(g, j, k) - d else ColumnMass(g, j, k) + d
  {
    ColumnIsVector(g, j, k);
    ColumnIsVector(c, j, k);
    VectorMoved(Column(g, j), Column(c, j), if j == 0 then d else if j == 1 then -d else 0.0, k);
  }

  lemma {:induction false} MassesMoved(g: Grid, c: Grid, d: real, k: nat)
    requires Moved(g, c, d) && k <= |g|
    ensures RowsMass(c, k) == RowsMass(g, k)
    ensures Below(c, k) == if k >= 2 then Below(g, k) + d else Below(g, k)
    ensures Above(c, k) == if k >= 2 then Above(g, k) + d else Above(g, k)
    ensures Diagonal(c, k) == if k >= 2 then Diagonal(g, k) - d - d else if k == 1 then Diagonal(g, k) - d else Diagonal(g, k)
  {
    if k > 0 {
      MassesMoved(g, c, d, k - 1);
      RowMoved(g, c, d, k - 1, |g|);
      RowMoved(g, c, d, k - 1, k - 1);
      ColumnMoved(g, c, d, k - 1, k - 1);
    }
  }

  // ---------------------------------------------------------------- on the score grid

  /** The mass that moves: rho times both rates times the goalless cell. */
  ghost function Shift(homeRate: real, awayRate: real, rho: real, n: nat): real
    requires homeRate > 0.0 && awayRate > 0.0
  {
    Times(PoissonGrid(homeRate, awayRate, n)[0][0], Times(Times(homeRate, awayRate), rho))
  }

  lemma FirstRatio(rate: real, n: nat)
    requires rate > 0.0 && n >= 1
    ensures PoissonShares(rate, n)[1] == Times(PoissonShares(rate, n)[0], rate)
  {
    var w, whole := Weights(1.0, rate, n), PoissonMass(rate, n);
    FirstWeights(rate, n);
    OverIsTimes(Times(w[0], rate), whole);
    OverIsTimes(w[0], whole);
    Associates(Over(1.0, whole), w[0], rate);
  }

  lemma {:induction false} FirstWeights(rate: real, n: nat)
    requires n >= 1
    ensures Weights(1.0, rate, n)[1] == Times(Weights(1.0, rate, n)[0], rate)
  {
    WeightsEnd(1.0, rate, n);
    var v := Weights(1.0, rate, n - 1);
    assert Weights(1.0, rate, n)[0] == v[0];
    if n == 1 {
      OverIsTimes(Times(v[0], rate), 1.0);
      ZeroAndOne(Over(Times(v[0], rate), 1.0));
    } else {
      assert Weights(1.0, rate, n)[1] == v[1];
      FirstWeights(rate, n - 1);
    }
  }

  lemma CornersShift(b: real, x: real, y: real, rho: real)
    ensures var d := Times(b, Times(Times(x, y), rho));
      && Times(b, 1.0 - Times(Times(x, y), rho)) == b - d
      && Times(Times(b, y), 1.0 + Times(x, rho)) == Times(b, y) + d
      && Times(Times(b, x), 1.0 + Times(y, rho)) == Times(b, x) + d
      && Times(Times(b, Times(x, y)), 1.0 - rho) == Times(b, Times(x, y)) - d
  {
  }

  /** The low-score cells in terms of the goalless one. */
  lemma Corners(homeRate: real, awayRate: real, n: nat)
    requires homeRate > 0.0 && awayRate > 0.0 && n >= 1
    ensures var g := PoissonGrid(homeRate, awayRate, n);
      && g[0][1] == Times(g[0][0], awayRate)
      && g[1][0] == Times(g[0][0], homeRate)
      && g[1][1] == Times(g[0][0], Times(homeRate, awayRate))
  {
    FirstRatio(homeRate, n);
    FirstRatio(awayRate, n);
    var p, q := PoissonShares(homeRate, n), PoissonShares(awayRate, n);
    Associates(p[0], q[0], awayRate);
    Associates(p[0], homeRate, q[0]);
    Associates(p[0], q[0], homeRate);
    Commutes(homeRate, q[0]);
    Interchange(p[0], homeRate, q[0], awayRate);
  }

  /** The correction moves equal masses around the four low-score cells. */
  lemma CorrectionMoves(homeRate: real, awayRate: real, rho: real, n: nat)
    requires homeRate > 0.0 && awayRate > 0.0 && n >= 1
    ensures var g := PoissonGrid(homeRate, awayRate, n);
      Moved(g, Corrected(g, homeRate, awayRate, rho), Shift(homeRate, awayRate, rho, n))
  {
    var g := PoissonGrid(homeRate, awayRate, n);
    var c := Corrected(g, homeRate, awayRate, rho);
    Corners(homeRate, awayRate, n);
    CornersShift(g[0][0], homeRate, awayRate, rho);
    forall i, j | 0 <= i < |g| && 0 <= j < |g| && (i >= 2 || j >= 2)
      ensures c[i][j] == g[i][j]
    {
      FarCellsKeep(g, homeRate, awayRate, rho, i, j);
    }
  }

  ghost function CorrectedGrid(homeRate: real, awayRate: real, rho: real, n: nat): (c: Grid)
    requires homeRate > 0.0 && awayRate > 0.0
    ensures Square(c) && |c| == n + 1
  {
    Corrected(PoissonGrid(homeRate, awayRate, n), homeRate, awayRate, rho)
  }

  /** The correction keeps the number of goals of each side exactly as it was, and every cell positive. */
  lemma MarginalsKept(homeRate: real, awayRate: real, rho: real, n: nat, i: nat)
    requires ValidGoals(homeRate, awayRate) && n >= 1 && i <= n
    ensures var g, c := PoissonGrid(homeRate, awayRate, n), CorrectedGrid(homeRate, awayRate, rho, n);
      && Mass(c[i], n + 1) == Mass(g[i], n + 1)
      && ColumnMass(c, i, n + 1) == ColumnMass(g, i, n + 1)
  {
    var g, c, d := PoissonGrid(homeRate, awayRate, n), CorrectedGrid(homeRate, awayRate, rho, n), Shift(homeRate, awayRate, rho, n);
    CorrectionMoves(homeRate, awayRate, rho, n);
    RowMoved(g, c, d, i, n + 1);
    ColumnMoved(g, c, d, i, n + 1);
  }

  lemma CellsStayPositive(homeRate: real, awayRate: real, rho: real, n: nat, i: nat, j: nat)
    requires ValidGoals(homeRate, awayRate) && ValidRho(rho) && i <= n && j <= n
    ensures CorrectedGrid(homeRate, awayRate, rho, n)[i][j] > 0.0
  {
    PoissonSharesAreShares(homeRate, n);
    PoissonSharesAreShares(awayRate, n);
    var p, q := PoissonShares(homeRate, n), PoissonShares(awayRate, n);
    Positive(p[i], q[j]);
    SafeFactor(MAX_EXPECTED_GOALS, RHO_MIN, RHO_MAX, i, j, homeRate, awayRate, rho);
    Positive(Times(p[i], q[j]), Correction(i, j, homeRate, awayRate, rho));
  }

  /** Total mass stays one; each side's win gains the shift and the draw pays for both. */
  lemma OutcomesAfterCorrection(homeRate: real, awayRate: real, rho: real, n: nat)
    requires homeRate > 0.0 && awayRate > 0.0 && n >= 1
    ensures var c := CorrectedGrid(homeRate, awayRate, rho, n);
      var o, was, d := GridOutcomes(c), PoissonOutcomes(homeRate, awayRate, n), Shift(homeRate, awayRate, rho, n);
      && RowsMass(c, n + 1) == 1.0
      && o.home == was.home + d && o.away == was.away + d && o.draw == was.draw - 2.0 * d
  {
    var g, c, d := PoissonGrid(homeRate, awayRate, n), CorrectedGrid(homeRate, awayRate, rho, n), Shift(homeRate, awayRate, rho, n);
    CorrectionMoves(homeRate, awayRate, rho, n);
    MassesMoved(g, c, d, n + 1);
    OutcomesOfShares(homeRate, awayRate, n);
  }

  /** A negative rho moves probability from the wins to the draw, a positive one the other way. */
  lemma ShiftFollowsRho(homeRate: real, awayRate: real, rho: real, n: nat)
    requires homeRate > 0.0 && awayRate > 0.0
    ensures (Shift(homeRate, awayRate, rho, n) > 0.0 <==> rho > 0.0) && (Shift(homeRate, awayRate, rho, n) < 0.0 <==> rho < 0.0)
  {
    PoissonSharesAreShares(homeRate, n);
    PoissonSharesAreShares(awayRate, n);
    Positive(PoissonShares(homeRate, n)[0], PoissonShares(awayRate, n)[0]);
    Positive(homeRate, awayRate);
    SignOfProduct(Times(homeRate, awayRate), rho);
    SignOfProduct(PoissonGrid(homeRate, awayRate, n)[0][0], Times(Times(homeRate, awayRate), rho));
  }

  lemma SignOfProduct(x: real, y: real)
    requires x > 0.0
    ensures (Times(x, y) > 0.0 <==> y > 0.0) && (Times(x, y) < 0.0 <==> y < 0.0)
  {
    ZeroAndOne(x);
    KeepsOrder(x, 0.0, y);
    KeepsOrder(x, y, 0.0);
  }

  lemma DividedByOne(g: Grid, i: nat, j: nat)
    requires i < |g| && j < |g[i]|
    ensures Over(g[i][j], 1.0) == g[i][j]
  {
    ZeroAndOne(g[i][j]);
    OverUnique(g[i][j], 1.0, g[i][j]);
  }

  /** Divides a grid by its mass; a grid of mass one is unchanged. */
  method Renormalise(m: array2<real>) returns (divided: array2<real>)
    requires m.Length0 == m.Length1 && RowsMass(Cells(m), m.Length0) == 1.0
    ensures fresh(divided) && Cells(divided) == Cells(m)
  {
    var g := Cells(m);
    var mass := RowsMass(g, |g|);
    divided := new real[m.Length0, m.Length1](
      (i, j) requires 0 <= i < |g| && 0 <= j < |g[i]| => Over(g[i][j], mass));
    forall i, j | 0 <= i < |g| && 0 <= j < |g|
      ensures Cells(divided)[i][j] == g[i][j]
    {
      DividedByOne(g, i, j);
    }
    SameGrid(Cells(divided), g);
  }

  method Project(m: array2<real>) returns (o: Outcomes)
    requires m.Length0 == m.Length1 && RowsMass(Cells(m), m.Length0) == 1.0
    ensures o == GridOutcomes(Cells(m))
  {
    var divided := Renormalise(m);
    o := OutcomesFromScoreMatrix(divided).value;
  }

  lemma CorrectedMass(homeRate: real, awayRate: real, rho: real, n: nat, c: Grid)
    requires ValidGoals(homeRate, awayRate) && n >= 1
    requires c == Corrected(PoissonGrid(homeRate, awayRate, n), homeRate, awayRate, rho)
    ensures |c| == n + 1 && c == CorrectedGrid(homeRate, awayRate, rho, n) && RowsMass(c, n + 1) == 1.0
  {
    OutcomesAfterCorrection(homeRate, awayRate, rho, n);
  }

  /** Projects the corrected grid; the mass check that follows the correction can never fail. */
  method DixonColesOutcomeProbabilities(homeRate: real, awayRate: real, rho: real, maxGoals: int, decay: Decay)
    returns (r: Result<Outcomes, ScoreError>)
    ensures r.Success? <==> && 0.0 < homeRate <= 6.0 && 0.0 < awayRate <= 6.0 && -0.15 <= rho <= 0.025
                            && 1 <= maxGoals <= 100
    ensures r.Success? ==> r.value == GridOutcomes(CorrectedGrid(homeRate, awayRate, rho, maxGoals))
    ensures r.Failure? ==> r.error == if !ValidGoals(homeRate, awayRate) then BadExpectedGoals
                                      else if !(1 <= maxGoals <= 100) then BadMaximum else BadRho
  {
    var m :- PoissonScoreMatrix(homeRate, awayRate, maxGoals, decay);
    if !ValidRho(rho) {
      return Failure(BadRho);
    }
    CorrectCells(m, homeRate, awayRate, rho);
    CorrectedMass(homeRate, awayRate, rho, maxGoals, Cells(m));
    var outcomes := Project(m);
    return Success(outcomes);
  }
}

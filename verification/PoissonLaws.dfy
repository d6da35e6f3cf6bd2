/** What makes the score grid Poisson: how its cells step from score to score, and the goals it expects of each side. */
module PoissonLaws {
  import opened Algebra
  import opened ScoreGrid
  import opened DixonColes

  // ---------------------------------------------------------------- steps

  lemma StepOfNext(w: real, rate: real, k: nat)
    requires k > 0
    ensures Times(Next(w, rate, k), k as real) == Times(w, rate)
  {
    OverIsTimes(Times(w, rate), k as real);
    Commutes(Next(w, rate, k), k as real);
  }

  /** Each weight is the one before times the rate over the number of goals. */
  lemma {:induction false} WeightStep(first: real, rate: real, n: nat, k: nat)
    requires 1 <= k <= n
    ensures Times(Weights(first, rate, n)[k], k as real) == Times(Weights(first, rate, n)[k - 1], rate)
  {
    WeightsEnd(first, rate, n);
    var v := Weights(first, rate, n - 1);
    assert Weights(first, rate, n)[k - 1] == v[k - 1];
    if k < n {
      assert Weights(first, rate, n)[k] == v[k];
      WeightStep(first, rate, n - 1, k);
    } else {
      StepOfNext(v[n - 1], rate, n);
    }
  }

  lemma ScaledStep(unit: real, v: real, w: real, k: real, rate: real)
    requires Times(w, k) == Times(v, rate)
    ensures Times(Times(unit, w), k) == Times(Times(unit, v), rate)
  {
    Associates(unit, w, k);
    Associates(unit, v, rate);
  }

  /** A side's share of k goals is k over its rate times smaller than its share of one goal less. */
  lemma ShareStep(rate: real, n: nat, k: nat)
    requires rate > 0.0 && 1 <= k <= n
    ensures var p := PoissonShares(rate, n); Times(p[k], k as real) == Times(p[k - 1], rate)
  {
    var w, whole := Weights(1.0, rate, n), PoissonMass(rate, n);
    WeightStep(1.0, rate, n, k);
    SharesScale(w, whole);
    ScaledStep(Over(1.0, whole), w[k - 1], w[k], k as real, rate);
  }

  /** One more goal multiplies a cell by the side's rate and divides it by the side's goals. */
  lemma GridSteps(homeRate: real, awayRate: real, n: nat, i: nat, j: nat)
    requires homeRate > 0.0 && awayRate > 0.0 && i <= n && j <= n
    ensures var g := PoissonGrid(homeRate, awayRate, n);
      && (i >= 1 ==> Times(g[i][j], i as real) == Times(g[i - 1][j], homeRate))
      && (j >= 1 ==> Times(g[i][j], j as real) == Times(g[i][j - 1], awayRate))
  {
    var p, q := PoissonShares(homeRate, n), PoissonShares(awayRate, n);
    if i >= 1 {
      ShareStep(homeRate, n, i);
      ScaledStep(q[j], p[i - 1], p[i], i as real, homeRate);
      Commutes(q[j], p[i]);
      Commutes(q[j], p[i - 1]);
    }
    if j >= 1 {
      ShareStep(awayRate, n, j);
      ScaledStep(p[i], q[j - 1], q[j], j as real, awayRate);
    }
  }

  // ---------------------------------------------------------------- expected goals

  /** The goals expected of a side: each number of goals times its probability. */
  ghost function Expected(p: Vector, k: nat): real
    requires k <= |p|
  {
    if k == 0 then 0.0 else Expected(p, k - 1) + Times(p[k - 1], (k - 1) as real)
  }

  lemma {:induction false} ExpectedOfShares(rate: real, n: nat, k: nat)
    requires rate > 0.0 && 1 <= k <= n + 1
    ensures Expected(PoissonShares(rate, n), k) == Times(rate, Mass(PoissonShares(rate, n), k - 1))
  {
    var p := PoissonShares(rate, n);
    if k == 1 {
      ZeroAndOne(p[0]);
      ZeroAndOne(rate);
    } else {
      ExpectedOfShares(rate, n, k - 1);
      ShareStep(rate, n, k - 1);
      Commutes(p[k - 2], rate);
      Distributes(rate, Mass(p, k - 2), p[k - 2]);
    }
  }

  /** A side is expected to score its rate, less what the grid cuts off at the greatest number of goals. */
  lemma SharesExpect(rate: real, n: nat)
    requires rate > 0.0
    ensures var p := PoissonShares(rate, n); Expected(p, n + 1) == Times(rate, 1.0 - p[n])
  {
    PoissonSharesAreShares(rate, n);
    ExpectedOfShares(rate, n, n + 1);
  }

  /** The probability of each number of home goals. */
  ghost function HomeGoals(g: Grid): (v: Vector)
    requires Square(g)
    ensures |v| == |g| && forall i :: 0 <= i < |g| ==> v[i] == Mass(g[i], |g|)
  {
    seq(|g|, i requires 0 <= i < |g| => Mass(g[i], |g|))
  }

  /** The probability of each number of away goals. */
  ghost function AwayGoals(g: Grid): (v: Vector)
    requires Square(g)
    ensures |v| == |g| && forall j :: 0 <= j < |g| ==> v[j] == ColumnMass(g, j, |g|)
  {
    seq(|g|, j requires 0 <= j < |g| => ColumnMass(g, j, |g|))
  }

  /** Each side's goals are distributed as its own shares, whatever the other side's rate. */
  lemma MarginalsAreShares(homeRate: real, awayRate: real, n: nat)
    requires homeRate > 0.0 && awayRate > 0.0
    ensures HomeGoals(PoissonGrid(homeRate, awayRate, n)) == PoissonShares(homeRate, n)
    ensures AwayGoals(PoissonGrid(homeRate, awayRate, n)) == PoissonShares(awayRate, n)
  {
    var p, q, g := PoissonShares(homeRate, n), PoissonShares(awayRate, n), PoissonGrid(homeRate, awayRate, n);
    PoissonSharesAreShares(homeRate, n);
    PoissonSharesAreShares(awayRate, n);
    forall k | 0 <= k < n + 1
      ensures HomeGoals(g)[k] == p[k] && AwayGoals(g)[k] == q[k]
    {
      RowScales(p, q, k);
      MassScales(p[k], q, g[k], n + 1);
      ZeroAndOne(p[k]);
      OuterColumn(p, q, k, n + 1);
      ZeroAndOne(q[k]);
    }
  }

  /** The goals that the grid expects of each side. */
  lemma GridExpects(homeRate: real, awayRate: real, n: nat)
    requires homeRate > 0.0 && awayRate > 0.0
    ensures var g := PoissonGrid(homeRate, awayRate, n);
      && Expected(HomeGoals(g), n + 1) == Times(homeRate, 1.0 - HomeGoals(g)[n])
      && Expected(AwayGoals(g), n + 1) == Times(awayRate, 1.0 - AwayGoals(g)[n])
  {
    MarginalsAreShares(homeRate, awayRate, n);
    SharesExpect(homeRate, n);
    SharesExpect(awayRate, n);
  }

  /** The low-score correction leaves the goals expected of each side as they were. */
  lemma CorrectionKeepsExpectation(homeRate: real, awayRate: real, rho: real, n: nat)
    requires ValidGoals(homeRate, awayRate) && n >= 1
    ensures var g, c := PoissonGrid(homeRate, awayRate, n), CorrectedGrid(homeRate, awayRate, rho, n);
      && Expected(HomeGoals(c), n + 1) == Expected(HomeGoals(g), n + 1)
      && Expected(AwayGoals(c), n + 1) == Expected(AwayGoals(g), n + 1)
  {
    var g, c := PoissonGrid(homeRate, awayRate, n), CorrectedGrid(homeRate, awayRate, rho, n);
    forall k | 0 <= k < n + 1
      ensures HomeGoals(c)[k] == HomeGoals(g)[k] && AwayGoals(c)[k] == AwayGoals(g)[k]
    {
      MarginalsKept(homeRate, awayRate, rho, n, k);
    }
    assert HomeGoals(c) == HomeGoals(g) && AwayGoals(c) == AwayGoals(g);
  }
}

/** The corrected grid keeps the order of the rates: a higher rate still wins more and loses less. */
module CorrectedOrder {
  import opened Algebra
  import opened ScoreGrid
  import opened ScoreOrder
  import opened DixonColes

  /** The outcomes a corrected model publishes. */
  ghost function CorrectedOutcomes(homeRate: real, awayRate: real, rho: real, n: nat): Outcomes
    requires homeRate > 0.0 && awayRate > 0.0
  {
    GridOutcomes(CorrectedGrid(homeRate, awayRate, rho, n))
  }

  /** Adding to one entry adds its weight times the addition to the weighted sum. */
  lemma {:induction false} WeightedBump(p: Vector, c: Vector, i: nat, d: real, k: nat)
    requires i < |c| == |p| && k <= |p|
    ensures Weighted(p, c[i := c[i] + d], k) == Weighted(p, c, k) + if i < k then Times(p[i], d) else 0.0
  {
    if k > 0 {
      WeightedBump(p, c, i, d, k - 1);
      Distributes(p[i], c[i], d);
    }
  }

  /** The moved mass belongs to the cell of one goal each. */
  lemma ShiftByOne(homeRate: real, awayRate: real, rho: real, n: nat)
    requires homeRate > 0.0 && awayRate > 0.0 && n >= 1
    ensures var p, a := PoissonShares(homeRate, n), PoissonShares(awayRate, n);
      && Shift(homeRate, awayRate, rho, n) == Times(p[1], Times(a[1], rho))
      && p[1] == Times(p[0], homeRate) && a[1] == Times(a[0], awayRate)
  {
    FirstRatio(homeRate, n);
    FirstRatio(awayRate, n);
    var p, a := PoissonShares(homeRate, n), PoissonShares(awayRate, n);
    FourFactors(p[0], a[0], homeRate, awayRate, rho);
  }

  lemma FourFactors(x: real, y: real, u: real, v: real, rho: real)
    ensures Times(Times(x, y), Times(Times(u, v), rho)) == Times(Times(x, u), Times(Times(y, v), rho))
  {
    Associates(Times(x, y), Times(u, v), rho);
    Interchange(x, y, u, v);
    Associates(Times(x, u), Times(y, v), rho);
  }

  // ---------------------------------------------------------------- the home win

  /** What a home score is worth to the corrected home win. */
  ghost function HomeWorth(a: Vector, rho: real): (c: Vector)
    requires |a| >= 2
    ensures |c| == |a|
  {
    Prefixes(a)[1 := Prefixes(a)[1] + Times(a[1], rho)]
  }

  /** The correction of a one-nil home win leaves it worth more than a goalless draw and less than the next score. */
  lemma HomeWorthRises(awayRate: real, rho: real, n: nat)
    requires ValidGoals(awayRate, awayRate) && ValidRho(rho) && n >= 1
    ensures Rising(HomeWorth(PoissonShares(awayRate, n), rho))
  {
    var a := PoissonShares(awayRate, n);
    PoissonSharesAreShares(awayRate, n);
    PrefixesRise(a);
    FirstRatio(awayRate, n);
    SafeFactor(MAX_EXPECTED_GOALS, RHO_MIN, RHO_MAX, 1, 0, awayRate, awayRate, rho);
    Positive(a[0], 1.0 + Times(awayRate, rho));
    Distributes(a[0], 1.0, Times(awayRate, rho));
    ZeroAndOne(a[0]);
    Associates(a[0], awayRate, rho);
    SmallPart(a[1], rho);
    assert Prefixes(a)[1] == Mass(a, 1) == a[0];
    assert n >= 2 ==> Prefixes(a)[2] == Mass(a, 2) == a[0] + a[1];
  }

  lemma SmallPart(x: real, rho: real)
    requires x > 0.0 && rho < 1.0
    ensures Times(x, rho) < x
  {
    KeepsOrder(x, rho, 1.0);
    ZeroAndOne(x);
  }

  lemma HomeWinIsMean(homeRate: real, awayRate: real, rho: real, n: nat)
    requires homeRate > 0.0 && awayRate > 0.0 && n >= 1
    ensures var p, a := PoissonShares(homeRate, n), PoissonShares(awayRate, n);
      CorrectedOutcomes(homeRate, awayRate, rho, n).home == Weighted(p, HomeWorth(a, rho), n + 1)
  {
    var p, a := PoissonShares(homeRate, n), PoissonShares(awayRate, n);
    OutcomesAfterCorrection(homeRate, awayRate, rho, n);
    OutcomesOfShares(homeRate, awayRate, n);
    ShiftByOne(homeRate, awayRate, rho, n);
    WeightedBump(p, Prefixes(a), 1, Times(a[1], rho), n + 1);
  }

  // ---------------------------------------------------------------- the away win

  /** What a home score costs the corrected away win. */
  ghost function AwayCost(a: Vector, rho: real): (c: Vector)
    requires |a| >= 2
    ensures |c| == |a|
  {
    Through(a)[1 := Through(a)[1] + -Times(a[1], rho)]
  }

  /** The away win is what no home score reaches, and the moved mass. */
  lemma AwayWinAndShift(homeRate: real, awayRate: real, rho: real, n: nat)
    requires homeRate > 0.0 && awayRate > 0.0 && n >= 1
    ensures var p, a := PoissonShares(homeRate, n), PoissonShares(awayRate, n);
      CorrectedOutcomes(homeRate, awayRate, rho, n).away
      == 1.0 - Weighted(p, Through(a), n + 1) + Shift(homeRate, awayRate, rho, n)
  {
    OutcomesAfterCorrection(homeRate, awayRate, rho, n);
    OutcomesOfShares(homeRate, awayRate, n);
    ThroughIsPrefixPlusOwn(PoissonShares(homeRate, n), PoissonShares(awayRate, n), n + 1);
  }

  lemma AwayWinIsMean(homeRate: real, awayRate: real, rho: real, n: nat)
    requires homeRate > 0.0 && awayRate > 0.0 && n >= 1
    ensures var p, a := PoissonShares(homeRate, n), PoissonShares(awayRate, n);
      CorrectedOutcomes(homeRate, awayRate, rho, n).away == 1.0 - Weighted(p, AwayCost(a, rho), n + 1)
  {
    var p, a := PoissonShares(homeRate, n), PoissonShares(awayRate, n);
    AwayWinAndShift(homeRate, awayRate, rho, n);
    ShiftByOne(homeRate, awayRate, rho, n);
    WeightedBump(p, Through(a), 1, -Times(a[1], rho), n + 1);
    NegatedRight(p[1], Times(a[1], rho));
  }

  lemma NegatedRight(x: real, y: real)
    ensures Times(x, -y) == -Times(x, y)
  {
  }

  /** With rho at least zero every further home goal costs the away side more. */
  lemma AwayCostRises(awayRate: real, rho: real, n: nat)
    requires awayRate > 0.0 && 0.0 <= rho < 1.0 && n >= 1
    ensures Rising(AwayCost(PoissonShares(awayRate, n), rho))
  {
    var a := PoissonShares(awayRate, n);
    PoissonSharesAreShares(awayRate, n);
    PrefixesRise(a);
    SmallPart(a[1], rho);
    SignOfProduct(a[1], rho);
    assert Through(a)[0] == Mass(a, 1) && Through(a)[1] == Mass(a, 2) == Mass(a, 1) + a[1];
  }

  /** The cost of any home score, with none and one put together. */
  ghost function SharedCost(a: Vector): (c: Vector)
    requires |a| >= 2
    ensures |c| == |a|
  {
    Through(a)[0 := Through(a)[0] + a[1]]
  }

  lemma SharedCostNeverFalls(a: Vector)
    requires |a| >= 2 && forall k :: 0 <= k < |a| ==> a[k] > 0.0
    ensures NeverFalling(SharedCost(a))
  {
    PrefixesRise(a);
    assert Through(a)[0] == Mass(a, 1) && Through(a)[1] == Mass(a, 2) == Mass(a, 1) + a[1];
  }

  /** The away win as the shared cost and what the goalless and one-goal home scores give back. */
  lemma AwayWinByParts(homeRate: real, awayRate: real, rho: real, n: nat)
    requires homeRate > 0.0 && awayRate > 0.0 && n >= 1
    ensures var p, a := PoissonShares(homeRate, n), PoissonShares(awayRate, n);
      CorrectedOutcomes(homeRate, awayRate, rho, n).away
      == 1.0 - Weighted(p, SharedCost(a), n + 1) + Times(a[1], Times(p[0], 1.0 + Times(homeRate, rho)))
  {
    var p, a := PoissonShares(homeRate, n), PoissonShares(awayRate, n);
    AwayWinAndShift(homeRate, awayRate, rho, n);
    ShiftByOne(homeRate, awayRate, rho, n);
    WeightedBump(p, Through(a), 0, a[1], n + 1);
    GivenBack(p[0], a[1], homeRate, rho);
  }

  lemma GivenBack(x: real, a: real, rate: real, rho: real)
    ensures Times(a, Times(x, 1.0 + Times(rate, rho))) == Times(x, a) + Times(Times(x, rate), Times(a, rho))
  {
    Distributes(x, 1.0, Times(rate, rho));
    ZeroAndOne(x);
    Distributes(a, x, Times(x, Times(rate, rho)));
    Commutes(a, x);
    Associates(x, rate, rho);
    Commutes(a, Times(Times(x, rate), rho));
    Associates(Times(x, rate), rho, a);
    Commutes(rho, a);
  }

  /** What is given back falls with the home rate when rho is negative. */
  lemma GivenBackFalls(p0: real, q0: real, low: real, high: real, rho: real)
    requires 0.0 < q0 <= p0 && 0.0 < low < high && rho < 0.0 && 1.0 + Times(high, rho) > 0.0
    ensures Times(q0, 1.0 + Times(high, rho)) < Times(p0, 1.0 + Times(low, rho))
  {
    KeepsOrder(-rho, low, high);
    Commutes(low, -rho);
    Commutes(high, -rho);
    NegatedRight(low, rho);
    NegatedRight(high, rho);
    var x, y := 1.0 + Times(low, rho), 1.0 + Times(high, rho);
    KeepsOrder(q0, y, x);
    KeepsOrder(x, p0, q0);
    Commutes(x, p0);
    Commutes(x, q0);
  }

  /** One for every score but none. */
  ghost function AnyGoal(k: nat): (c: Vector)
    requires k > 0
    ensures |c| == k && forall i :: 0 <= i < k ==> c[i] == if i == 0 then 0.0 else 1.0
  {
    seq(k, i requires 0 <= i < k => if i == 0 then 0.0 else 1.0)
  }

  lemma {:induction false} AnyGoalMass(p: Vector, k: nat)
    requires 0 < k <= |p|
    ensures Weighted(p, AnyGoal(|p|), k) == Mass(p, k) - p[0]
  {
    ZeroAndOne(p[k - 1]);
    if k > 1 {
      AnyGoalMass(p, k - 1);
    } else {
      assert Mass(p, 0) == 0.0 && Weighted(p, AnyGoal(|p|), 0) == 0.0;
    }
  }

  /** A goalless home side is no likelier at a higher rate. */
  lemma GoallessFalls(low: real, high: real, n: nat)
    requires 0.0 < low < high && n >= 1
    ensures 0.0 < PoissonShares(high, n)[0] <= PoissonShares(low, n)[0]
  {
    var p, q := PoissonShares(low, n), PoissonShares(high, n);
    PoissonSharesAreShares(low, n);
    PoissonSharesAreShares(high, n);
    SharesOutweigh(low, high, n);
    HeavierMean(q, p, AnyGoal(n + 1));
    AnyGoalMass(p, n + 1);
    AnyGoalMass(q, n + 1);
  }

  lemma AwayWinFalls(low: real, high: real, awayRate: real, rho: real, n: nat)
    requires ValidGoals(high, awayRate) && 0.0 < low < high && ValidRho(rho) && n >= 1
    ensures CorrectedOutcomes(high, awayRate, rho, n).away < CorrectedOutcomes(low, awayRate, rho, n).away
  {
    var p, q, a := PoissonShares(low, n), PoissonShares(high, n), PoissonShares(awayRate, n);
    PoissonSharesAreShares(low, n);
    PoissonSharesAreShares(high, n);
    PoissonSharesAreShares(awayRate, n);
    SharesOutweigh(low, high, n);
    if rho >= 0.0 {
      AwayCostRises(awayRate, rho, n);
      HeavierMean(q, p, AwayCost(a, rho));
      AwayWinIsMean(low, awayRate, rho, n);
      AwayWinIsMean(high, awayRate, rho, n);
    } else {
      AwayWinFallsBelowZero(low, high, awayRate, rho, n);
    }
  }

  lemma AwayWinFallsBelowZero(low: real, high: real, awayRate: real, rho: real, n: nat)
    requires ValidGoals(high, awayRate) && 0.0 < low < high && ValidRho(rho) && rho < 0.0 && n >= 1
    ensures CorrectedOutcomes(high, awayRate, rho, n).away < CorrectedOutcomes(low, awayRate, rho, n).away
  {
    var p, q, a := PoissonShares(low, n), PoissonShares(high, n), PoissonShares(awayRate, n);
    PoissonSharesAreShares(low, n);
    PoissonSharesAreShares(high, n);
    PoissonSharesAreShares(awayRate, n);
    SharesOutweigh(low, high, n);
    SharedCostNeverFalls(a);
    HeavierMean(q, p, SharedCost(a));
    GoallessFalls(low, high, n);
    SafeFactor(MAX_EXPECTED_GOALS, RHO_MIN, RHO_MAX, 0, 1, high, awayRate, rho);
    GivenBackFalls(p[0], q[0], low, high, rho);
    KeepsOrder(a[1], Times(q[0], 1.0 + Times(high, rho)), Times(p[0], 1.0 + Times(low, rho)));
    AwayWinByParts(low, awayRate, rho, n);
    AwayWinByParts(high, awayRate, rho, n);
  }

  // ---------------------------------------------------------------- both

  /** For every valid rho a higher home rate strictly raises the corrected home win and lowers the corrected away win. */
  lemma HigherHomeRateStillWins(low: real, high: real, awayRate: real, rho: real, n: nat)
    requires ValidGoals(high, awayRate) && 0.0 < low < high && ValidRho(rho) && n >= 1
    ensures CorrectedOutcomes(low, awayRate, rho, n).home < CorrectedOutcomes(high, awayRate, rho, n).home
    ensures CorrectedOutcomes(high, awayRate, rho, n).away < CorrectedOutcomes(low, awayRate, rho, n).away
  {
    var p, q, a := PoissonShares(low, n), PoissonShares(high, n), PoissonShares(awayRate, n);
    PoissonSharesAreShares(low, n);
    PoissonSharesAreShares(high, n);
    SharesOutweigh(low, high, n);
    HomeWorthRises(awayRate, rho, n);
    HeavierMean(q, p, HomeWorth(a, rho));
    HomeWinIsMean(low, awayRate, rho, n);
    HomeWinIsMean(high, awayRate, rho, n);
    AwayWinFalls(low, high, awayRate, rho, n);
  }

  /** Swapping the rates swaps the corrected wins and keeps the corrected draw. */
  lemma CorrectedSwap(homeRate: real, awayRate: real, rho: real, n: nat)
    requires homeRate > 0.0 && awayRate > 0.0 && n >= 1
    ensures var o, swapped := CorrectedOutcomes(homeRate, awayRate, rho, n), CorrectedOutcomes(awayRate, homeRate, rho, n);
      o.home == swapped.away && o.draw == swapped.draw && o.away == swapped.home
  {
    OutcomesAfterCorrection(homeRate, awayRate, rho, n);
    OutcomesAfterCorrection(awayRate, homeRate, rho, n);
    SwapSymmetry(homeRate, awayRate, n);
    Commutes(homeRate, awayRate);
    Commutes(PoissonShares(homeRate, n)[0], PoissonShares(awayRate, n)[0]);
  }

  /** A higher away rate does the opposite. */
  lemma HigherAwayRateStillWins(homeRate: real, low: real, high: real, rho: real, n: nat)
    requires ValidGoals(homeRate, high) && 0.0 < low < high && ValidRho(rho) && n >= 1
    ensures CorrectedOutcomes(homeRate, low, rho, n).away < CorrectedOutcomes(homeRate, high, rho, n).away
    ensures CorrectedOutcomes(homeRate, high, rho, n).home < CorrectedOutcomes(homeRate, low, rho, n).home
  {
    HigherHomeRateStillWins(low, high, homeRate, rho, n);
    CorrectedSwap(homeRate, low, rho, n);
    CorrectedSwap(homeRate, high, rho, n);
  }
}

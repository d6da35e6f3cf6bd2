/** The normalised grid of independent score probabilities and the three outcomes read from it. */
module ScoreGrid {
  import opened Wrappers
  import opened Algebra

  type Vector = seq<real>
  type Grid = seq<Vector>

  const MAX_EXPECTED_GOALS := 6.0

  datatype ScoreError = BadExpectedGoals | BadMaximum | InvalidMass | NotSquare | BadRho | NegativeGoals

  datatype Outcomes = Outcomes(home: real, draw: real, away: real)

  /** The factor e to the minus rate; only its positivity is used, since it cancels. */
  type Decay = f: real -> real | forall x: real :: f(x) > 0.0 witness (x: real) => 1.0

  predicate ValidGoals(homeRate: real, awayRate: real) {
    0.0 < homeRate <= MAX_EXPECTED_GOALS && 0.0 < awayRate <= MAX_EXPECTED_GOALS
  }

  // ---------------------------------------------------------------- sums

  function Mass(v: Vector, k: nat): real
    requires k <= |v|
  {
    if k == 0 then 0.0 else Mass(v, k - 1) + v[k - 1]
  }

  function Weighted(v: Vector, c: Vector, k: nat): real
    requires k <= |v| && k <= |c|
  {
    if k == 0 then 0.0 else Weighted(v, c, k - 1) + Times(v[k - 1], c[k - 1])
  }

  ghost predicate Square(g: Grid) {
    forall i :: 0 <= i < |g| ==> |g[i]| == |g|
  }

  /** The mass of the first k rows. */
  function RowsMass(g: Grid, k: nat): real
    requires k <= |g|
  {
    if k == 0 then 0.0 else RowsMass(g, k - 1) + Mass(g[k - 1], |g[k - 1]|)
  }

  /** The mass of one column in the first k rows. */
  function ColumnMass(g: Grid, j: nat, k: nat): real
    requires k <= |g| && forall i :: 0 <= i < k ==> j < |g[i]|
  {
    if k == 0 then 0.0 else ColumnMass(g, j, k - 1) + g[k - 1][j]
  }

  /** Strictly below the diagonal: the home side has more goals. */
  function Below(g: Grid, k: nat): real
    requires Square(g) && k <= |g|
  {
    if k == 0 then 0.0 else Below(g, k - 1) + Mass(g[k - 1], k - 1)
  }

  function Diagonal(g: Grid, k: nat): real
    requires Square(g) && k <= |g|
  {
    if k == 0 then 0.0 else Diagonal(g, k - 1) + g[k - 1][k - 1]
  }

  /** Strictly above the diagonal: the away side has more goals. */
  function Above(g: Grid, k: nat): real
    requires Square(g) && k <= |g|
  {
    if k == 0 then 0.0 else Above(g, k - 1) + ColumnMass(g, k - 1, k - 1)
  }

  /** The leading block of k rows and n columns. */
  ghost function Block(g: Grid, k: nat, n: nat): real
    requires Square(g) && k <= |g| && n <= |g|
  {
    if k == 0 then 0.0 else Block(g, k - 1, n) + Mass(g[k - 1], n)
  }

  lemma {:induction false} BlockGrows(g: Grid, k: nat, n: nat)
    requires Square(g) && k <= |g| && n < |g|
    ensures Block(g, k, n + 1) == Block(g, k, n) + ColumnMass(g, n, k)
  {
    if k > 0 {
      BlockGrows(g, k - 1, n);
    }
  }

  lemma {:induction false} BlockSplits(g: Grid, n: nat)
    requires Square(g) && n <= |g|
    ensures Block(g, n, n) == Below(g, n) + Diagonal(g, n) + Above(g, n)
  {
    if n > 0 {
      BlockSplits(g, n - 1);
      BlockGrows(g, n - 1, n - 1);
    }
  }

  lemma {:induction false} BlockIsRows(g: Grid, k: nat)
    requires Square(g) && k <= |g|
    ensures Block(g, k, |g|) == RowsMass(g, k)
  {
    if k > 0 {
      BlockIsRows(g, k - 1);
    }
  }

  /** The three outcomes exhaust the grid. */
  lemma OutcomesExhaust(g: Grid)
    requires Square(g)
    ensures RowsMass(g, |g|) == Below(g, |g|) + Diagonal(g, |g|) + Above(g, |g|)
  {
    BlockSplits(g, |g|);
    BlockIsRows(g, |g|);
  }

  // ---------------------------------------------------------------- the source's array steps

  function Next(weight: real, rate: real, goals: nat): real
    requires goals > 0
  {
    Over(Times(weight, rate), goals as real)
  }

  /** The Poisson weights of 0 to n goals. */
  function Weights(first: real, rate: real, n: nat): (v: Vector)
    ensures |v| == n + 1
  {
    if n == 0 then [first] else
      var v := Weights(first, rate, n - 1);
      v + [Next(v[n - 1], rate, n)]
  }

  /** Fills the weights one goal at a time. */
  method WeightArray(rate: real, maxGoals: nat, decay: Decay) returns (values: array<real>)
    ensures fresh(values) && values[..] == Weights(decay(rate), rate, maxGoals)
  {
    values := new real[maxGoals + 1];
    values[0] := decay(rate);
    for goals := 1 to maxGoals + 1
      invariant values[..goals] == Weights(decay(rate), rate, goals - 1)
    {
      assert values[..goals][goals - 1] == values[goals - 1];
      values[goals] := Next(values[goals - 1], rate, goals);
    }
    assert values[..maxGoals + 1] == values[..];
  }

  /** The contents of a matrix. */
  function Cells(m: array2<real>): (g: Grid)
    reads m
    ensures |g| == m.Length0 && forall i :: 0 <= i < |g| ==> |g[i]| == m.Length1
    ensures forall i, j :: 0 <= i < m.Length0 && 0 <= j < m.Length1 ==> g[i][j] == m[i, j]
  {
    seq(m.Length0, i requires 0 <= i < m.Length0 reads m =>
      seq(m.Length1, j requires 0 <= j < m.Length1 reads m => m[i, j]))
  }

  function Outer(h: Vector, a: Vector): (g: Grid)
    ensures |g| == |h| && forall i :: 0 <= i < |g| ==> |g[i]| == |a|
  {
    seq(|h|, i requires 0 <= i < |h| => seq(|a|, j requires 0 <= j < |a| => Times(h[i], a[j])))
  }

  lemma {:induction false} WeightsPositive(first: real, rate: real, n: nat)
    requires first > 0.0 && rate > 0.0
    ensures forall k :: 0 <= k <= n ==> Weights(first, rate, n)[k] > 0.0
  {
    if n > 0 {
      WeightsPositive(first, rate, n - 1);
      var v := Weights(first, rate, n - 1);
      assert v[n - 1] > 0.0;
      Positive(v[n - 1], rate);
      OverPositive(Times(v[n - 1], rate), n as real);
    }
  }

  lemma {:induction false} MassPositive(v: Vector, k: nat)
    requires 0 < k <= |v| && forall i :: 0 <= i < |v| ==> v[i] > 0.0
    ensures Mass(v, k) > 0.0
  {
    if k > 1 {
      MassPositive(v, k - 1);
    }
  }

  ghost predicate Scaled(s: real, v: Vector, w: Vector) {
    |w| == |v| && forall i :: 0 <= i < |v| ==> w[i] == Times(s, v[i])
  }

  lemma {:induction false} MassScales(s: real, v: Vector, w: Vector, k: nat)
    requires Scaled(s, v, w) && k <= |v|
    ensures Mass(w, k) == Times(s, Mass(v, k))
  {
    if k == 0 {
      ZeroAndOne(s);
    } else {
      MassScales(s, v, w, k - 1);
      Distributes(s, Mass(v, k - 1), v[k - 1]);
    }
  }

  // ---------------------------------------------------------------- what an outer product holds

  lemma RowScales(p: Vector, a: Vector, i: nat)
    requires i < |p|
    ensures Scaled(p[i], a, Outer(p, a)[i])
  {
  }

  lemma {:induction false} OuterRows(p: Vector, a: Vector, k: nat)
    requires k <= |p|
    ensures RowsMass(Outer(p, a), k) == Times(Mass(p, k), Mass(a, |a|))
  {
    var whole := Mass(a, |a|);
    if k == 0 {
      ZeroAndOne(whole);
    } else {
      OuterRows(p, a, k - 1);
      RowScales(p, a, k - 1);
      MassScales(p[k - 1], a, Outer(p, a)[k - 1], |a|);
      Distributes(whole, Mass(p, k - 1), p[k - 1]);
    }
  }

  /** The masses of a vector's proper prefixes. */
  ghost function Prefixes(a: Vector): (c: Vector)
    ensures |c| == |a| && forall i :: 0 <= i < |c| ==> c[i] == Mass(a, i)
  {
    seq(|a|, i requires 0 <= i < |a| => Mass(a, i))
  }

  lemma {:induction false} OuterBelow(p: Vector, a: Vector, k: nat)
    requires k <= |p| == |a|
    ensures Below(Outer(p, a), k) == Weighted(p, Prefixes(a), k)
  {
    if k > 0 {
      OuterBelow(p, a, k - 1);
      RowScales(p, a, k - 1);
      MassScales(p[k - 1], a, Outer(p, a)[k - 1], k - 1);
    }
  }

  lemma {:induction false} OuterDiagonal(p: Vector, a: Vector, k: nat)
    requires k <= |p| == |a|
    ensures Diagonal(Outer(p, a), k) == Weighted(p, a, k)
  {
    if k > 0 {
      OuterDiagonal(p, a, k - 1);
    }
  }

  lemma {:induction false} OuterColumn(p: Vector, a: Vector, j: nat, k: nat)
    requires k <= |p| && j < |a|
    ensures ColumnMass(Outer(p, a), j, k) == Times(Mass(p, k), a[j])
  {
    if k == 0 {
      ZeroAndOne(a[j]);
    } else {
      OuterColumn(p, a, j, k - 1);
      Distributes(a[j], Mass(p, k - 1), p[k - 1]);
    }
  }

  lemma {:induction false} OuterAbove(p: Vector, a: Vector, k: nat)
    requires k <= |p| == |a|
    ensures Above(Outer(p, a), k) == Weighted(a, Prefixes(p), k)
  {
    if k > 0 {
      OuterAbove(p, a, k - 1);
      OuterColumn(p, a, k - 1, k - 1);
      Commutes(Mass(p, k - 1), a[k - 1]);
    }
  }

  // ---------------------------------------------------------------- shares

  /** Positive probabilities that sum to one. */
  ghost predicate AreShares(p: Vector) {
    && |p| > 0 && Mass(p, |p|) == 1.0
    && forall i :: 0 <= i < |p| ==> p[i] > 0.0
  }

  /** The three outcomes of two independent shares. */
  lemma SharesOutcomes(p: Vector, q: Vector)
    requires AreShares(p) && AreShares(q) && |p| == |q|
    ensures
      var g, n := Outer(p, q), |p|;
      && RowsMass(g, n) == 1.0
      && Below(g, n) == Weighted(p, Prefixes(q), n)
      && Diagonal(g, n) == Weighted(p, q, n)
      && Above(g, n) == Weighted(q, Prefixes(p), n)
      && Below(g, n) + Diagonal(g, n) + Above(g, n) == 1.0
  {
    OuterRows(p, q, |p|);
    ZeroAndOne(1.0);
    OuterBelow(p, q, |p|);
    OuterDiagonal(p, q, |p|);
    OuterAbove(p, q, |p|);
    OutcomesExhaust(Outer(p, q));
  }

  /** Each weight as a share of the whole. */
  function Shares(w: Vector, whole: real): (p: Vector)
    requires whole > 0.0
    ensures |p| == |w|
  {
    seq(|w|, i requires 0 <= i < |w| => Over(w[i], whole))
  }

  lemma SharesScale(w: Vector, whole: real)
    requires whole > 0.0
    ensures Scaled(Over(1.0, whole), w, Shares(w, whole))
  {
    forall i | 0 <= i < |w|
      ensures Shares(w, whole)[i] == Times(Over(1.0, whole), w[i])
    {
      OverIsTimes(w[i], whole);
    }
  }

  lemma SharesAreShares(w: Vector, whole: real)
    requires |w| > 0 && whole > 0.0 && whole == Mass(w, |w|) && forall i :: 0 <= i < |w| ==> w[i] > 0.0
    ensures AreShares(Shares(w, whole))
  {
    forall i | 0 <= i < |w|
      ensures Shares(w, whole)[i] > 0.0
    {
      OverPositive(w[i], whole);
    }
    SharesScale(w, whole);
    MassScales(Over(1.0, whole), w, Shares(w, whole), |w|);
    OverIsTimes(whole, whole);
  }

  /** The mass of the weights of 0 to n goals, apart from the factor that cancels. */
  ghost function PoissonMass(rate: real, n: nat): (whole: real)
    requires rate > 0.0
    ensures whole > 0.0
  {
    WeightsPositive(1.0, rate, n);
    MassPositive(Weights(1.0, rate, n), n + 1);
    Mass(Weights(1.0, rate, n), n + 1)
  }

  /** The shares of 0 to n goals at a rate. */
  ghost function PoissonShares(rate: real, n: nat): (p: Vector)
    requires rate > 0.0
    ensures |p| == n + 1
  {
    Shares(Weights(1.0, rate, n), PoissonMass(rate, n))
  }

  lemma PoissonSharesAreShares(rate: real, n: nat)
    requires rate > 0.0
    ensures AreShares(PoissonShares(rate, n))
  {
    WeightsPositive(1.0, rate, n);
    SharesAreShares(Weights(1.0, rate, n), PoissonMass(rate, n));
  }

  // ---------------------------------------------------------------- the cancelled factor

  lemma NextScales(s: real, weight: real, rate: real, goals: nat)
    requires goals > 0
    ensures Next(Times(s, weight), rate, goals) == Times(s, Next(weight, rate, goals))
  {
    var g := goals as real;
    Associates(s, weight, rate);
    OverIsTimes(Times(s, Times(weight, rate)), g);
    OverIsTimes(Times(weight, rate), g);
    Associates(Over(1.0, g), s, Times(weight, rate));
    Associates(s, Over(1.0, g), Times(weight, rate));
    Commutes(s, Over(1.0, g));
  }

  lemma WeightsEnd(first: real, rate: real, n: nat)
    requires n > 0
    ensures Weights(first, rate, n)[..n] == Weights(first, rate, n - 1)
    ensures Weights(first, rate, n)[n] == Next(Weights(first, rate, n - 1)[n - 1], rate, n)
  {
  }

  lemma {:induction false} FirstIsAFactor(first: real, rate: real, n: nat, k: nat)
    requires k <= n
    ensures Weights(first, rate, n)[k] == Times(first, Weights(1.0, rate, n)[k])
  {
    if n == 0 {
      ZeroAndOne(first);
    } else {
      var w, v := Weights(first, rate, n - 1), Weights(1.0, rate, n - 1);
      WeightsEnd(first, rate, n);
      WeightsEnd(1.0, rate, n);
      if k < n {
        FirstIsAFactor(first, rate, n - 1, k);
        assert Weights(first, rate, n)[k] == w[k] && Weights(1.0, rate, n)[k] == v[k];
      } else {
        FirstIsAFactor(first, rate, n - 1, n - 1);
        NextScales(first, v[n - 1], rate, n);
      }
    }
  }

  lemma SharesOfScaled(v: Vector, w: Vector, z: real, whole: real)
    requires z > 0.0 && whole > 0.0 && Scaled(z, v, w)
    ensures Times(z, whole) > 0.0 && Shares(w, Times(z, whole)) == Shares(v, whole)
  {
    FactorCancels(z, 0.0, whole);
    forall k | 0 <= k < |v|
      ensures Shares(w, Times(z, whole))[k] == Shares(v, whole)[k]
    {
      FactorCancels(z, v[k], whole);
    }
  }

  /** The factor e to the minus rate cancels in the shares. */
  lemma DecayCancels(first: real, rate: real, n: nat)
    requires first > 0.0 && rate > 0.0
    ensures Times(first, PoissonMass(rate, n)) > 0.0
    ensures Mass(Weights(first, rate, n), n + 1) == Times(first, PoissonMass(rate, n))
    ensures Shares(Weights(first, rate, n), Times(first, PoissonMass(rate, n))) == PoissonShares(rate, n)
  {
    var w, v := Weights(first, rate, n), Weights(1.0, rate, n);
    forall k | 0 <= k < n + 1
      ensures w[k] == Times(first, v[k])
    {
      FirstIsAFactor(first, rate, n, k);
    }
    MassScales(first, v, w, n + 1);
    SharesOfScaled(v, w, first, PoissonMass(rate, n));
  }

  // ---------------------------------------------------------------- the grid

  /** Dividing a cell of an outer product by the product of the masses gives the product of the shares. */
  lemma CellDivided(h: Vector, a: Vector, mh: real, ma: real, i: nat, j: nat)
    requires mh > 0.0 && ma > 0.0 && i < |h| && j < |a|
    ensures Times(mh, ma) > 0.0
    ensures Over(Outer(h, a)[i][j], Times(mh, ma)) == Outer(Shares(h, mh), Shares(a, ma))[i][j]
  {
    OverProducts(h[i], a[j], mh, ma);
  }

  /** The product of the two clubs' goal shares, one row for each number of home goals. */
  ghost function PoissonGrid(homeRate: real, awayRate: real, n: nat): (g: Grid)
    requires homeRate > 0.0 && awayRate > 0.0
    ensures |g| == n + 1 && Square(g)
  {
    Outer(PoissonShares(homeRate, n), PoissonShares(awayRate, n))
  }

  /** Divides an outer product by its own mass, which cannot fail to be positive. */
  method NormalisedProduct(h: Vector, a: Vector, ghost mh: real, ghost ma: real) returns (m: array2<real>)
    requires mh == Mass(h, |h|) > 0.0 && ma == Mass(a, |a|) > 0.0
    ensures fresh(m) && m.Length0 == |h| && m.Length1 == |a| && Cells(m) == Outer(Shares(h, mh), Shares(a, ma))
  {
    var product := Outer(h, a);
    var mass := RowsMass(product, |product|);
    OuterRows(h, a, |h|);
    Positive(mh, ma);
    m := new real[|h|, |a|]((i, j) requires 0 <= i < |h| && 0 <= j < |a| => Over(product[i][j], mass));
    ghost var shares := Outer(Shares(h, mh), Shares(a, ma));
    forall i, j | 0 <= i < |h| && 0 <= j < |a|
      ensures Cells(m)[i][j] == shares[i][j]
    {
      CellDivided(h, a, mh, ma, i, j);
    }
    SameGrid(Cells(m), shares);
  }

  lemma SameGrid(g: Grid, h: Grid)
    requires |g| == |h| && forall i :: 0 <= i < |g| ==> |g[i]| == |h[i]|
    requires forall i, j :: 0 <= i < |g| && 0 <= j < |g[i]| ==> g[i][j] == h[i][j]
    ensures g == h
  {
    assert forall i :: 0 <= i < |g| ==> g[i] == h[i];
  }

  method PoissonScoreMatrix(homeRate: real, awayRate: real, maxGoals: int, decay: Decay)
    returns (r: Result<array2<real>, ScoreError>)
    ensures r.Success? <==> 0.0 < homeRate <= 6.0 && 0.0 < awayRate <= 6.0 && 1 <= maxGoals <= 100
    ensures r.Success? ==> fresh(r.value) && Cells(r.value) == PoissonGrid(homeRate, awayRate, maxGoals)
    ensures r.Success? ==> r.value.Length0 == r.value.Length1 == maxGoals + 1
    ensures r.Failure? ==> r.error == if !ValidGoals(homeRate, awayRate) then BadExpectedGoals else BadMaximum
  {
    if !ValidGoals(homeRate, awayRate) {
      return Failure(BadExpectedGoals);
    }
    if !(1 <= maxGoals <= 100) {
      return Failure(BadMaximum);
    }
    var home := WeightArray(homeRate, maxGoals, decay);
    var away := WeightArray(awayRate, maxGoals, decay);
    DecayCancels(decay(homeRate), homeRate, maxGoals);
    DecayCancels(decay(awayRate), awayRate, maxGoals);
    var m := NormalisedProduct(home[..], away[..],
                               Times(decay(homeRate), PoissonMass(homeRate, maxGoals)),
                               Times(decay(awayRate), PoissonMass(awayRate, maxGoals)));
    return Success(m);
  }

  /** The three outcomes of a grid. */
  function GridOutcomes(g: Grid): Outcomes
    requires Square(g)
  {
    Outcomes(Below(g, |g|), Diagonal(g, |g|), Above(g, |g|))
  }

  /** Reads the three outcomes off a square grid. */
  function OutcomesFromScoreMatrix(m: array2<real>): (r: Result<Outcomes, ScoreError>)
    reads m
    ensures r.Success? <==> m.Length0 == m.Length1
    ensures r.Success? && RowsMass(Cells(m), m.Length0) == 1.0 ==> r.value == GridOutcomes(Cells(m))
  {
    if m.Length0 != m.Length1 then Failure(NotSquare) else
      OutcomesExhaust(Cells(m));
      var home, draw := Below(Cells(m), m.Length0), Diagonal(Cells(m), m.Length0);
      Success(Outcomes(home, draw, 1.0 - home - draw))
  }

  ghost function PoissonOutcomes(homeRate: real, awayRate: real, n: nat): Outcomes
    requires homeRate > 0.0 && awayRate > 0.0
  {
    GridOutcomes(PoissonGrid(homeRate, awayRate, n))
  }

  /** The outcomes of a grid in terms of its two lists of shares. */
  lemma OutcomesOfShares(homeRate: real, awayRate: real, n: nat)
    requires homeRate > 0.0 && awayRate > 0.0
    ensures
      var p, q := PoissonShares(homeRate, n), PoissonShares(awayRate, n);
      var o := PoissonOutcomes(homeRate, awayRate, n);
      && RowsMass(PoissonGrid(homeRate, awayRate, n), n + 1) == 1.0
      && o.home == Weighted(p, Prefixes(q), n + 1)
      && o.draw == Weighted(p, q, n + 1)
      && o.away == Weighted(q, Prefixes(p), n + 1)
      && o.home + o.draw + o.away == 1.0
  {
    PoissonSharesAreShares(homeRate, n);
    PoissonSharesAreShares(awayRate, n);
    SharesOutcomes(PoissonShares(homeRate, n), PoissonShares(awayRate, n));
  }

  method PoissonOutcomeProbabilities(homeRate: real, awayRate: real, maxGoals: int, decay: Decay)
    returns (r: Result<Outcomes, ScoreError>)
    ensures r.Success? <==> 0.0 < homeRate <= 6.0 && 0.0 < awayRate <= 6.0 && 1 <= maxGoals <= 100
    ensures r.Success? ==> r.value == PoissonOutcomes(homeRate, awayRate, maxGoals)
    ensures r.Failure? ==> r.error == if !ValidGoals(homeRate, awayRate) then BadExpectedGoals else BadMaximum
  {
    var m :- PoissonScoreMatrix(homeRate, awayRate, maxGoals, decay);
    OutcomesOfShares(homeRate, awayRate, maxGoals);
    return OutcomesFromScoreMatrix(m);
  }

  /** Swapping the rates swaps the winners and keeps the draw. */
  lemma SwapSymmetry(homeRate: real, awayRate: real, n: nat)
    requires homeRate > 0.0 && awayRate > 0.0
    ensures var o, swapped := PoissonOutcomes(homeRate, awayRate, n), PoissonOutcomes(awayRate, homeRate, n);
      o.home == swapped.away && o.draw == swapped.draw && o.away == swapped.home
  {
    OutcomesOfShares(homeRate, awayRate, n);
    OutcomesOfShares(awayRate, homeRate, n);
    WeightedCommutes(PoissonShares(homeRate, n), PoissonShares(awayRate, n), n + 1);
  }

  lemma {:induction false} WeightedCommutes(p: Vector, q: Vector, k: nat)
    requires k <= |p| && k <= |q|
    ensures Weighted(p, q, k) == Weighted(q, p, k)
  {
    if k > 0 {
      WeightedCommutes(p, q, k - 1);
      Commutes(p[k - 1], q[k - 1]);
    }
  }
}

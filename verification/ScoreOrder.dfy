/** A higher home rate wins more and loses less: likelihood-ratio dominance of truncated Poisson shares. */
module ScoreOrder {
  import opened Algebra
  import opened ScoreGrid

  /** The odds of q against p rise with every goal. */
  ghost predicate Outweighs(q: Vector, p: Vector) {
    && |q| == |p|
    && forall i, j :: 0 <= j < i < |p| ==> Times(p[i], q[j]) < Times(q[i], p[j])
  }

  ghost predicate Rising(c: Vector) {
    forall i, j :: 0 <= j < i < |c| ==> c[j] < c[i]
  }

  ghost predicate NeverFalling(c: Vector) {
    forall i, j :: 0 <= j < i < |c| ==> c[j] <= c[i]
  }

  // ---------------------------------------------------------------- dominance of weighted means

  function Crossing(q: Vector, p: Vector, c: Vector, k: nat, j: nat): real
    requires |q| == |p| == |c| && k < |p| && j < |p|
  {
    Times(Times(q[k], p[j]) - Times(p[k], q[j]), c[k] - c[j])
  }

  function Crossings(q: Vector, p: Vector, c: Vector, k: nat, m: nat): real
    requires |q| == |p| == |c| && k < |p| && m <= |p|
  {
    if m == 0 then 0.0 else Crossings(q, p, c, k, m - 1) + Crossing(q, p, c, k, m - 1)
  }

  lemma {:induction false} CrossingsPositive(q: Vector, p: Vector, c: Vector, k: nat, m: nat)
    requires Outweighs(q, p) && NeverFalling(c) && |c| == |p| && m <= k < |p|
    ensures Crossings(q, p, c, k, m) >= 0.0
    ensures Rising(c) && m > 0 ==> Crossings(q, p, c, k, m) > 0.0
  {
    if m > 0 {
      CrossingsPositive(q, p, c, k, m - 1);
      var ahead := Times(q[k], p[m - 1]) - Times(p[k], q[m - 1]);
      ZeroAndOne(ahead);
      if c[k] > c[m - 1] {
        Positive(ahead, c[k] - c[m - 1]);
      }
    }
  }

  /** The sum of the crossings in terms of masses and weighted masses. */
  function Shortfall(v: Vector, c: Vector, k: nat, m: nat): real
    requires |v| == |c| && k < |v| && m <= |v|
  {
    Times(c[k], Mass(v, m)) - Weighted(v, c, m)
  }

  lemma CrossingExpands(qk: real, pk: real, ck: real, x: real, y: real, u: real)
    ensures Times(Times(qk, x) - Times(pk, y), ck - u)
         == Times(qk, Times(ck, x) - Times(x, u)) - Times(pk, Times(ck, y) - Times(y, u))
  {
  }

  lemma ShortfallGrows(v: Vector, c: Vector, k: nat, m: nat)
    requires |v| == |c| && k < |v| && 0 < m <= |v|
    ensures Shortfall(v, c, k, m) == Shortfall(v, c, k, m - 1) + (Times(c[k], v[m - 1]) - Times(v[m - 1], c[m - 1]))
  {
    Distributes(c[k], Mass(v, m - 1), v[m - 1]);
  }

  lemma {:induction false} CrossingsValue(q: Vector, p: Vector, c: Vector, k: nat, m: nat)
    requires |q| == |p| == |c| && k < |p| && m <= |p|
    ensures Crossings(q, p, c, k, m) == Times(q[k], Shortfall(p, c, k, m)) - Times(p[k], Shortfall(q, c, k, m))
  {
    if m == 0 {
      ZeroAndOne(c[k]);
      ZeroAndOne(q[k]);
      ZeroAndOne(p[k]);
    } else {
      CrossingsValue(q, p, c, k, m - 1);
      ShortfallGrows(p, c, k, m);
      ShortfallGrows(q, c, k, m);
      var x, y, u := p[m - 1], q[m - 1], c[m - 1];
      CrossingExpands(q[k], p[k], c[k], x, y, u);
      Distributes(q[k], Shortfall(p, c, k, m - 1), Times(c[k], x) - Times(x, u));
      Distributes(p[k], Shortfall(q, c, k, m - 1), Times(c[k], y) - Times(y, u));
    }
  }

  /** How far the weighted mean of q is ahead of that of p, cleared of denominators. */
  function Lead(q: Vector, p: Vector, c: Vector, k: nat): real
    requires |q| == |p| == |c| && k <= |p|
  {
    Times(Weighted(q, c, k), Mass(p, k)) - Times(Weighted(p, c, k), Mass(q, k))
  }

  lemma LeadExpands(wq: real, mq: real, wp: real, mp: real, x: real, y: real, u: real)
    ensures Times(wq + Times(y, u), mp + x) - Times(wp + Times(x, u), mq + y)
         == (Times(wq, mp) - Times(wp, mq)) + (Times(y, Times(u, mp) - wp) - Times(x, Times(u, mq) - wq))
  {
  }

  lemma {:induction false} LeadPositive(q: Vector, p: Vector, c: Vector, k: nat)
    requires Outweighs(q, p) && NeverFalling(c) && |c| == |p| && k <= |p|
    ensures Lead(q, p, c, k) >= 0.0
    ensures Rising(c) && k >= 2 ==> Lead(q, p, c, k) > 0.0
  {
    if k == 0 {
      ZeroAndOne(0.0);
    } else {
      var i := k - 1;
      LeadPositive(q, p, c, i);
      CrossingsPositive(q, p, c, i, i);
      CrossingsValue(q, p, c, i, i);
      LeadExpands(Weighted(q, c, i), Mass(q, i), Weighted(p, c, i), Mass(p, i), p[i], q[i], c[i]);
    }
  }

  /** Shares whose odds rise give no smaller mean to what never falls, and a larger one to what rises. */
  lemma HeavierMean(q: Vector, p: Vector, c: Vector)
    requires AreShares(q) && AreShares(p) && Outweighs(q, p) && NeverFalling(c) && |c| == |p| >= 2
    ensures Weighted(p, c, |p|) <= Weighted(q, c, |p|)
    ensures Rising(c) ==> Weighted(p, c, |p|) < Weighted(q, c, |p|)
  {
    LeadPositive(q, p, c, |p|);
    ZeroAndOne(Weighted(p, c, |p|));
    ZeroAndOne(Weighted(q, c, |p|));
  }

  // ---------------------------------------------------------------- Poisson shares

  lemma {:induction false} WeightsNext(rate: real, n: nat, k: nat)
    requires 0 < k <= n
    ensures Weights(1.0, rate, n)[k] == Next(Weights(1.0, rate, n)[k - 1], rate, k)
  {
    WeightsEnd(1.0, rate, n);
    var v := Weights(1.0, rate, n - 1);
    assert Weights(1.0, rate, n)[k - 1] == v[k - 1];
    if k < n {
      assert Weights(1.0, rate, n)[k] == v[k];
      WeightsNext(rate, n - 1, k);
    }
  }

  lemma NextOutweighs(low: real, high: real, a: real, b: real, x: real, y: real, goals: nat)
    requires 0.0 < low < high && a > 0.0 && b > 0.0 && x > 0.0 && y > 0.0 && goals > 0
    requires Times(a, y) <= Times(b, x)
    ensures Times(Next(a, low, goals), y) < Times(Next(b, high, goals), x)
  {
    var g := goals as real;
    var s := Over(1.0, g);
    OverPositive(1.0, g);
    OverIsTimes(Times(a, low), g);
    OverIsTimes(Times(b, high), g);
    Rearrange(s, a, low, y);
    Rearrange(s, b, high, x);
    Positive(a, y);
    Positive(b, x);
    Positive(s, low);
    ScaleBoth(Times(s, low), Times(s, high), Times(a, y), Times(b, x), s, low, high);
  }

  lemma Rearrange(s: real, a: real, rate: real, y: real)
    ensures Times(Times(s, Times(a, rate)), y) == Times(Times(s, rate), Times(a, y))
  {
  }

  lemma ScaleBoth(sl: real, sh: real, ay: real, bx: real, s: real, low: real, high: real)
    requires sl == Times(s, low) && sh == Times(s, high) && s > 0.0 && 0.0 < low < high
    requires 0.0 < ay <= bx
    ensures Times(sl, ay) < Times(sh, bx)
  {
    KeepsOrder(s, low, high);
    Positive(s, low);
    KeepsOrder(sl, bx, ay);
    Commutes(sl, bx);
    Commutes(sh, bx);
    KeepsOrder(bx, sl, sh);
  }

  lemma {:induction false} WeightsOutweigh(low: real, high: real, n: nat, i: nat, j: nat)
    requires 0.0 < low < high && j < i <= n
    ensures Times(Weights(1.0, low, n)[i], Weights(1.0, high, n)[j]) < Times(Weights(1.0, high, n)[i], Weights(1.0, low, n)[j])
    decreases i
  {
    var v, w := Weights(1.0, low, n), Weights(1.0, high, n);
    WeightsPositive(1.0, low, n);
    WeightsPositive(1.0, high, n);
    WeightsNext(low, n, i);
    WeightsNext(high, n, i);
    if j < i - 1 {
      WeightsOutweigh(low, high, n, i - 1, j);
    } else {
      Commutes(v[j], w[j]);
    }
    NextOutweighs(low, high, v[i - 1], w[i - 1], v[j], w[j], i);
  }

  lemma OverKeepsOrder(x: real, y: real, d: real)
    requires d > 0.0 && x < y
    ensures Over(x, d) < Over(y, d)
  {
    OverPositive(1.0, d);
    OverIsTimes(x, d);
    OverIsTimes(y, d);
    KeepsOrder(Over(1.0, d), x, y);
  }

  lemma SharesOutweigh(low: real, high: real, n: nat)
    requires 0.0 < low < high
    ensures Outweighs(PoissonShares(high, n), PoissonShares(low, n))
  {
    var v, w := Weights(1.0, low, n), Weights(1.0, high, n);
    var mv, mw := PoissonMass(low, n), PoissonMass(high, n);
    var p, q := PoissonShares(low, n), PoissonShares(high, n);
    forall i, j | 0 <= j < i < n + 1
      ensures Times(p[i], q[j]) < Times(q[i], p[j])
    {
      WeightsOutweigh(low, high, n, i, j);
      OverProducts(v[i], w[j], mv, mw);
      OverProducts(w[i], v[j], mw, mv);
      Commutes(mv, mw);
      OverKeepsOrder(Times(v[i], w[j]), Times(w[i], v[j]), Times(mv, mw));
    }
  }

  // ---------------------------------------------------------------- outcomes

  lemma {:induction false} MassRises(a: Vector, i: nat, j: nat)
    requires j < i <= |a| && forall k :: 0 <= k < |a| ==> a[k] > 0.0
    ensures Mass(a, j) < Mass(a, i)
  {
    if j < i - 1 {
      MassRises(a, i - 1, j);
    }
  }

  /** The masses of the prefixes that include their own end. */
  ghost function Through(a: Vector): (c: Vector)
    ensures |c| == |a| && forall i :: 0 <= i < |c| ==> c[i] == Mass(a, i + 1)
  {
    seq(|a|, i requires 0 <= i < |a| => Mass(a, i + 1))
  }

  lemma PrefixesRise(a: Vector)
    requires forall k :: 0 <= k < |a| ==> a[k] > 0.0
    ensures Rising(Prefixes(a)) && Rising(Through(a))
  {
    forall i, j | 0 <= j < i < |a|
      ensures Prefixes(a)[j] < Prefixes(a)[i] && Through(a)[j] < Through(a)[i]
    {
      MassRises(a, i, j);
      MassRises(a, i + 1, j + 1);
    }
  }

  lemma {:induction false} ThroughIsPrefixPlusOwn(p: Vector, a: Vector, k: nat)
    requires k <= |p| == |a|
    ensures Weighted(p, Through(a), k) == Weighted(p, Prefixes(a), k) + Weighted(p, a, k)
  {
    if k > 0 {
      ThroughIsPrefixPlusOwn(p, a, k - 1);
      Distributes(p[k - 1], Mass(a, k - 1), a[k - 1]);
    }
  }

  /** Raising the home rate raises the home win and lowers the away win, on every grid size. */
  lemma HigherHomeRateWins(low: real, high: real, awayRate: real, n: nat)
    requires 0.0 < low < high && awayRate > 0.0 && n > 0
    ensures PoissonOutcomes(low, awayRate, n).home < PoissonOutcomes(high, awayRate, n).home
    ensures PoissonOutcomes(high, awayRate, n).away < PoissonOutcomes(low, awayRate, n).away
  {
    var p, q, a := PoissonShares(low, n), PoissonShares(high, n), PoissonShares(awayRate, n);
    PoissonSharesAreShares(low, n);
    PoissonSharesAreShares(high, n);
    PoissonSharesAreShares(awayRate, n);
    SharesOutweigh(low, high, n);
    PrefixesRise(a);
    OutcomesOfShares(low, awayRate, n);
    OutcomesOfShares(high, awayRate, n);
    HeavierMean(q, p, Prefixes(a));
    HeavierMean(q, p, Through(a));
    ThroughIsPrefixPlusOwn(p, a, n + 1);
    ThroughIsPrefixPlusOwn(q, a, n + 1);
  }

  /** Raising the away rate does the opposite. */
  lemma HigherAwayRateWins(homeRate: real, low: real, high: real, n: nat)
    requires 0.0 < low < high && homeRate > 0.0 && n > 0
    ensures PoissonOutcomes(homeRate, low, n).away < PoissonOutcomes(homeRate, high, n).away
    ensures PoissonOutcomes(homeRate, high, n).home < PoissonOutcomes(homeRate, low, n).home
  {
    HigherHomeRateWins(low, high, homeRate, n);
    SwapSymmetry(homeRate, low, n);
    SwapSymmetry(homeRate, high, n);
  }
}

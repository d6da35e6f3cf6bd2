/** Products and quotients of reals under names of their own, with the ring laws the proofs use, and sums of lists. */
module Algebra {

  function Times(x: real, y: real): real {
    x * y
  }

  function Over(x: real, y: real): real
    requires y != 0.0
  {
    x / y
  }

  function Magnitude(x: real): real {
    if x >= 0.0 then x else -x
  }

  lemma Distributes(s: real, x: real, y: real)
    ensures Times(s, x + y) == Times(s, x) + Times(s, y)
    ensures Times(x + y, s) == Times(x, s) + Times(y, s)
  {
  }

  lemma DistributesMinus(s: real, x: real, y: real)
    ensures Times(s, x - y) == Times(s, x) - Times(s, y)
    ensures Times(x - y, s) == Times(x, s) - Times(y, s)
  {
  }

  lemma Associates(x: real, y: real, z: real)
    ensures Times(Times(x, y), z) == Times(x, Times(y, z))
  {
  }

  lemma Commutes(x: real, y: real)
    ensures Times(x, y) == Times(y, x)
  {
  }

  lemma ZeroAndOne(x: real)
    ensures Times(x, 0.0) == 0.0 == Times(0.0, x)
    ensures Times(x, 1.0) == x == Times(1.0, x)
  {
  }

  lemma Positive(x: real, y: real)
    requires x > 0.0 && y > 0.0
    ensures Times(x, y) > 0.0
  {
  }

  /** Scaling by a positive factor keeps the order. */
  lemma KeepsOrder(s: real, x: real, y: real)
    requires s > 0.0
    ensures x < y <==> Times(s, x) < Times(s, y)
  {
    DistributesMinus(s, y, x);
    var gap := y - x;
    assert gap > 0.0 ==> s * gap > 0.0;
    assert gap <= 0.0 ==> s * gap <= 0.0;
  }

  lemma OverIsTimes(x: real, y: real)
    requires y != 0.0
    ensures Over(x, y) == Times(Over(1.0, y), x)
    ensures Times(y, Over(x, y)) == x
    ensures Over(y, y) == 1.0
  {
  }

  lemma OverPositive(x: real, y: real)
    requires x > 0.0 && y > 0.0
    ensures Over(x, y) > 0.0
  {
  }

  /** A quotient is the one number that gives the numerator back. */
  lemma OverUnique(x: real, y: real, q: real)
    requires y != 0.0 && Times(y, q) == x
    ensures Over(x, y) == q
  {
    var d := Over(x, y) - q;
    OverIsTimes(x, y);
    DistributesMinus(y, Over(x, y), q);
    assert y * d == 0.0;
  }

  /** A product of quotients is the quotient of the products. */
  lemma OverProducts(x: real, y: real, u: real, v: real)
    requires u > 0.0 && v > 0.0
    ensures Times(u, v) > 0.0
    ensures Over(Times(x, y), Times(u, v)) == Times(Over(x, u), Over(y, v))
  {
    var p, q := Over(x, u), Over(y, v);
    Positive(u, v);
    OverIsTimes(x, u);
    OverIsTimes(y, v);
    Interchange(u, v, p, q);
    OverUnique(Times(x, y), Times(u, v), Times(p, q));
  }

  lemma Interchange(u: real, v: real, p: real, q: real)
    ensures Times(Times(u, v), Times(p, q)) == Times(Times(u, p), Times(v, q))
  {
  }

  /** A common factor cancels. */
  lemma FactorCancels(z: real, x: real, y: real)
    requires z > 0.0 && y > 0.0
    ensures Times(z, y) > 0.0
    ensures Over(Times(z, x), Times(z, y)) == Over(x, y)
  {
    OverProducts(z, x, z, y);
    OverIsTimes(z, z);
    ZeroAndOne(Over(x, y));
  }

  // ---------------------------------------------------------------- sums of lists

  function SumOf(v: seq<real>): real {
    if v == [] then 0.0 else SumOf(v[..|v| - 1]) + v[|v| - 1]
  }

  /** The lines v plus g times d. */
  ghost predicate BelowLines(u: seq<real>, v: seq<real>, g: seq<real>, d: real) {
    |u| == |v| == |g| && forall i :: 0 <= i < |u| ==> u[i] <= v[i] + Times(g[i], d)
  }

  ghost predicate BelowALine(u: seq<real>, v: seq<real>, g: seq<real>, d: real)
    requires |u| == |v| == |g|
  {
    exists i :: 0 <= i < |u| && u[i] < v[i] + Times(g[i], d)
  }

  /** Terms below their lines add up to less than their lines do. */
  lemma {:induction false} SumBelowLine(u: seq<real>, v: seq<real>, g: seq<real>, d: real)
    requires BelowLines(u, v, g, d)
    ensures SumOf(u) <= SumOf(v) + Times(SumOf(g), d)
    ensures BelowALine(u, v, g, d) ==> SumOf(u) < SumOf(v) + Times(SumOf(g), d)
    decreases |u|
  {
    if u == [] {
      ZeroAndOne(d);
    } else {
      var n := |u| - 1;
      SumBelowLine(u[..n], v[..n], g[..n], d);
      Distributes(d, SumOf(g[..n]), g[n]);
      if BelowALine(u, v, g, d) {
        BelowInitOrLast(u, v, g, d);
      }
    }
  }

  lemma BelowInitOrLast(u: seq<real>, v: seq<real>, g: seq<real>, d: real)
    requires |u| == |v| == |g| && u != [] && BelowALine(u, v, g, d)
    ensures var n := |u| - 1; BelowALine(u[..n], v[..n], g[..n], d) || u[n] < v[n] + Times(g[n], d)
  {
    var n := |u| - 1;
    var i :| 0 <= i < |u| && u[i] < v[i] + Times(g[i], d);
    assert i < n ==> u[..n][i] == u[i] && v[..n][i] == v[i] && g[..n][i] == g[i];
  }

  lemma {:induction false} SumOfZeros(v: seq<real>)
    requires forall i :: 0 <= i < |v| ==> v[i] == 0.0
    ensures SumOf(v) == 0.0
    decreases |v|
  {
    if v != [] {
      SumOfZeros(v[..|v| - 1]);
    }
  }
}

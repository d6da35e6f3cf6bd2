/** The golden-section search used to fit a temperature and a score correction. */
module GoldenSection {

  type Objective = real --> real

  datatype Bracket = Bracket(lower: real, upper: real) {
    function Width(): real {
      upper - lower
    }

    function Middle(): real {
      (lower + upper) / 2.0
    }

    predicate Holds(x: real) {
      lower <= x <= upper
    }
  }

  ghost predicate Defined(f: Objective, b: Bracket) {
    forall x :: b.Holds(x) ==> f.requires(x)
  }

  // ---------------------------------------------------------------- the golden ratio

  /** The one equation of the golden ratio that lets a probe be reused. */
  predicate IsGolden(ratio: real) {
    0.0 < ratio < 1.0 && ratio * ratio + ratio == 1.0
  }

  /** Taking the share of a width. */
  function Share(ratio: real): real -> real {
    (width: real) => ratio * width
  }

  /** What the search needs of a share: more than half, and the share of the share is what is left. */
  ghost predicate Golden(share: real -> real) {
    && (forall w: real {:trigger share(w)} :: w > 0.0 ==> w - share(w) < share(w) < w)
    && (forall w: real {:trigger share(share(w))} :: share(share(w)) == w - share(w))
  }

  lemma GoldenShare(ratio: real)
    requires IsGolden(ratio)
    ensures Golden(Share(ratio))
  {
    var share := Share(ratio);
    forall w: real {:trigger share(w)} | w > 0.0
      ensures w - share(w) < share(w) < w
    {
      GoldenProduct(ratio, w);
    }
    forall w: real {:trigger share(share(w))}
      ensures share(share(w)) == w - share(w)
    {
      GoldenProduct(ratio, w);
    }
  }

  lemma GoldenProduct(ratio: real, w: real)
    requires IsGolden(ratio)
    ensures w > 0.0 ==> w - ratio * w < ratio * w < w
    ensures ratio * (ratio * w) == w - ratio * w
  {
    assert (1.0 - ratio) * ratio > 0.0;
    assert ratio > 0.5;
    if w > 0.0 {
      assert (2.0 * ratio - 1.0) * w > 0.0 && (1.0 - ratio) * w > 0.0;
    }
    assert ratio * (ratio * w) == (ratio * ratio) * w == (1.0 - ratio) * w;
  }

  // ---------------------------------------------------------------- the plain search

  function Left(b: Bracket, share: real -> real): real {
    b.upper - share(b.Width())
  }

  function Right(b: Bracket, share: real -> real): real {
    b.lower + share(b.Width())
  }

  lemma ProbesInside(b: Bracket, share: real -> real)
    requires Golden(share) && b.lower < b.upper
    ensures b.lower < Left(b, share) < Right(b, share) < b.upper
  {
  }

  /** The part of the bracket on the side of the smaller probe. */
  ghost function Narrowed(f: Objective, share: real -> real, b: Bracket): (n: Bracket)
    requires Golden(share) && b.lower < b.upper && Defined(f, b)
    ensures b.lower <= n.lower < n.upper <= b.upper
  {
    ProbesInside(b, share);
    if f(Left(b, share)) <= f(Right(b, share)) then Bracket(b.lower, Right(b, share))
    else Bracket(Left(b, share), b.upper)
  }

  /** The bracket after n narrowings, both probes evaluated afresh each time. */
  ghost function Narrowings(f: Objective, share: real -> real, b: Bracket, n: nat): (k: Bracket)
    requires Golden(share) && b.lower < b.upper && Defined(f, b)
    ensures b.lower <= k.lower < k.upper <= b.upper
  {
    if n == 0 then b else Narrowed(f, share, Narrowings(f, share, b, n - 1))
  }

  // ---------------------------------------------------------------- the search that reuses a probe

  /** One probe of the narrowed bracket is the surviving probe of the old one. */
  lemma ProbeReused(b: Bracket, share: real -> real)
    requires Golden(share)
    ensures Right(Bracket(b.lower, Right(b, share)), share) == Left(b, share)
    ensures Left(Bracket(Left(b, share), b.upper), share) == Right(b, share)
  {
    var w := b.Width();
    assert share(share(w)) == w - share(w);
    assert Bracket(b.lower, Right(b, share)).Width() == share(w);
    assert Bracket(Left(b, share), b.upper).Width() == share(w);
  }

  /** Narrowing leaves one probe to evaluate, on the side of the smaller value. */
  lemma NarrowedProbes(f: Objective, share: real -> real, b: Bracket)
    requires Golden(share) && b.lower < b.upper && Defined(f, b)
    ensures b.lower < Left(b, share) < Right(b, share) < b.upper
    ensures var n := Narrowed(f, share, b);
      if f(Left(b, share)) <= f(Right(b, share))
      then n == Bracket(b.lower, Right(b, share)) && Right(n, share) == Left(b, share) && n.Holds(Left(n, share))
      else n == Bracket(Left(b, share), b.upper) && Left(n, share) == Right(b, share) && n.Holds(Right(n, share))
  {
    ProbesInside(b, share);
    ProbeReused(b, share);
    ProbesInside(Narrowed(f, share, b), share);
  }

  /** One more narrowing: which probe survives, and that the new one can be evaluated. */
  lemma NextNarrowing(f: Objective, share: real -> real, b: Bracket, n: nat)
    requires Golden(share) && b.lower < b.upper && Defined(f, b)
    ensures var at, next := Narrowings(f, share, b, n), Narrowings(f, share, b, n + 1);
      && f.requires(Left(at, share)) && f.requires(Right(at, share))
      && f.requires(Left(next, share)) && f.requires(Right(next, share))
      && if f(Left(at, share)) <= f(Right(at, share))
         then next == Bracket(at.lower, Right(at, share)) && Right(next, share) == Left(at, share)
         else next == Bracket(Left(at, share), at.upper) && Left(next, share) == Right(at, share)
  {
    var at := Narrowings(f, share, b, n);
    assert Narrowings(f, share, b, n + 1) == Narrowed(f, share, at);
    NarrowedProbes(f, share, at);
    ProbesInside(Narrowed(f, share, at), share);
  }

  /** Runs n iterations, one evaluation each. */
  method SearchWith(f: Objective, b: Bracket, share: real -> real, n: nat) returns (middle: real)
    requires Golden(share) && b.lower < b.upper && Defined(f, b)
    ensures middle == Narrowings(f, share, b, n).Middle()
  {
    var at := b;
    var left, right := Left(at, share), Right(at, share);
    ProbesInside(at, share);
    var leftValue, rightValue := f(left), f(right);
    for i := 0 to n
      invariant at == Narrowings(f, share, b, i)
      invariant left == Left(at, share) && right == Right(at, share)
      invariant f.requires(left) && f.requires(right) && leftValue == f(left) && rightValue == f(right)
    {
      NextNarrowing(f, share, b, i);
      if leftValue <= rightValue {
        at := at.(upper := right);
        right := left;
        rightValue := leftValue;
        left := Left(at, share);
        leftValue := f(left);
      } else {
        at := at.(lower := left);
        left := right;
        leftValue := rightValue;
        right := Right(at, share);
        rightValue := f(right);
      }
    }
    middle := at.Middle();
  }

  // ---------------------------------------------------------------- convergence

  /** A width shared n times. */
  function Shared(share: real -> real, n: nat, w: real): real {
    if n == 0 then w else share(Shared(share, n - 1, w))
  }

  lemma {:induction false} WidthShrinks(f: Objective, share: real -> real, b: Bracket, n: nat)
    requires Golden(share) && b.lower < b.upper && Defined(f, b)
    ensures Narrowings(f, share, b, n).Width() == Shared(share, n, b.Width())
  {
    if n > 0 {
      WidthShrinks(f, share, b, n - 1);
    }
  }

  function Power(r: real, n: nat): real {
    if n == 0 then 1.0 else r * Power(r, n - 1)
  }

  lemma {:induction false} SharedIsPower(ratio: real, n: nat, w: real)
    ensures Shared(Share(ratio), n, w) == Power(ratio, n) * w
  {
    if n > 0 {
      SharedIsPower(ratio, n - 1, w);
      Reassociate(ratio, Power(ratio, n - 1), w);
    }
  }

  lemma Reassociate(x: real, y: real, z: real)
    ensures x * (y * z) == (x * y) * z
  {
  }

  /** No interior point of any three is as high as both outer ones. */
  ghost predicate StrictlyQuasiconvex(f: Objective, b: Bracket)
    requires Defined(f, b)
  {
    forall x, y, z :: b.Holds(x) && b.Holds(y) && b.Holds(z) && x < y < z ==> f(y) < f(x) || f(y) < f(z)
  }

  ghost predicate Minimises(f: Objective, b: Bracket, m: real)
    requires Defined(f, b)
  {
    b.Holds(m) && forall x :: b.Holds(x) ==> f(m) <= f(x)
  }

  lemma Triple(f: Objective, b: Bracket, x: real, y: real, z: real)
    requires Defined(f, b) && StrictlyQuasiconvex(f, b)
    requires b.lower <= x < y < z <= b.upper
    ensures f.requires(x) && f.requires(y) && f.requires(z)
    ensures f(y) < f(x) || f(y) < f(z)
  {
    assert b.Holds(x) && b.Holds(y) && b.Holds(z);
  }

  lemma NarrowingKeepsMinimiser(f: Objective, share: real -> real, b: Bracket, at: Bracket, m: real)
    requires Golden(share) && Defined(f, b) && StrictlyQuasiconvex(f, b) && Minimises(f, b, m)
    requires b.lower <= at.lower < at.upper <= b.upper && at.Holds(m)
    ensures Narrowed(f, share, at).Holds(m)
  {
    ProbesInside(at, share);
    var left, right := Left(at, share), Right(at, share);
    assert b.Holds(left) && b.Holds(right) && b.Holds(m);
    assert f(m) <= f(left) && f(m) <= f(right);
    if m < left {
      Triple(f, b, m, left, right);
    }
    if right < m {
      Triple(f, b, left, right, m);
    }
  }

  /** No number of narrowings loses a minimiser. */
  lemma {:induction false} KeepsMinimiser(f: Objective, share: real -> real, b: Bracket, n: nat, m: real)
    requires Golden(share) && b.lower < b.upper && Defined(f, b)
    requires StrictlyQuasiconvex(f, b) && Minimises(f, b, m)
    ensures Narrowings(f, share, b, n).Holds(m)
  {
    if n > 0 {
      KeepsMinimiser(f, share, b, n - 1, m);
      NarrowingKeepsMinimiser(f, share, b, Narrowings(f, share, b, n - 1), m);
    }
  }

  /** How far the middle may be from a minimiser after n iterations. */
  function Precision(ratio: real, b: Bracket, n: nat): real {
    Power(ratio, n) * b.Width() / 2.0
  }

  /** Strictly falling down to m and strictly rising after it. */
  ghost predicate Unimodal(f: Objective, b: Bracket, m: real)
    requires Defined(f, b)
  {
    && b.Holds(m)
    && (forall x, y :: b.Holds(x) && b.Holds(y) && x < y <= m ==> f(x) > f(y))
    && (forall x, y :: b.Holds(x) && b.Holds(y) && m <= x < y ==> f(x) < f(y))
  }

  lemma UnimodalIsQuasiconvex(f: Objective, b: Bracket, m: real)
    requires Defined(f, b) && Unimodal(f, b, m)
    ensures StrictlyQuasiconvex(f, b) && Minimises(f, b, m)
  {
    forall x, y, z | b.Holds(x) && b.Holds(y) && b.Holds(z) && x < y < z
      ensures f(y) < f(x) || f(y) < f(z)
    {
      if y <= m {
        assert f(x) > f(y);
      } else {
        assert f(y) < f(z);
      }
    }
    forall x | b.Holds(x)
      ensures f(m) <= f(x)
    {
      assert x < m ==> f(x) > f(m);
      assert m < x ==> f(m) < f(x);
    }
  }

  ghost predicate NoHigher(f: Objective, x: real, y: real) {
    f.requires(x) && f.requires(y) && f(x) <= f(y)
  }

  ghost predicate Higher(f: Objective, x: real, y: real) {
    f.requires(x) && f.requires(y) && f(x) > f(y)
  }

  ghost predicate NeverFalls(f: Objective, b: Bracket) {
    forall x, y :: b.Holds(x) && b.Holds(y) && x < y ==> NoHigher(f, x, y)
  }

  ghost predicate AlwaysFalls(f: Objective, b: Bracket) {
    forall x, y :: b.Holds(x) && b.Holds(y) && x < y ==> Higher(f, x, y)
  }

  /** An objective that never falls sends the search to the lower end. */
  lemma {:induction false} RisingGoesToLowerEnd(f: Objective, share: real -> real, b: Bracket, n: nat)
    requires Golden(share) && b.lower < b.upper && Defined(f, b) && NeverFalls(f, b)
    ensures Narrowings(f, share, b, n) == Bracket(b.lower, b.lower + Shared(share, n, b.Width()))
  {
    if n > 0 {
      RisingGoesToLowerEnd(f, share, b, n - 1);
      RisingNarrows(f, share, b, Shared(share, n - 1, b.Width()));
    }
  }

  lemma RisingNarrows(f: Objective, share: real -> real, b: Bracket, w: real)
    requires Golden(share) && Defined(f, b) && 0.0 < w <= b.Width() && NeverFalls(f, b)
    ensures Narrowed(f, share, Bracket(b.lower, b.lower + w)) == Bracket(b.lower, b.lower + share(w))
  {
    var at := Bracket(b.lower, b.lower + w);
    ProbesInside(at, share);
    assert NoHigher(f, Left(at, share), Right(at, share));
  }

  /** One that always falls sends it to the upper end. */
  lemma {:induction false} FallingGoesToUpperEnd(f: Objective, share: real -> real, b: Bracket, n: nat)
    requires Golden(share) && b.lower < b.upper && Defined(f, b) && AlwaysFalls(f, b)
    ensures Narrowings(f, share, b, n) == Bracket(b.upper - Shared(share, n, b.Width()), b.upper)
  {
    if n > 0 {
      FallingGoesToUpperEnd(f, share, b, n - 1);
      FallingNarrows(f, share, b, Shared(share, n - 1, b.Width()));
    }
  }

  lemma FallingNarrows(f: Objective, share: real -> real, b: Bracket, w: real)
    requires Golden(share) && Defined(f, b) && 0.0 < w <= b.Width() && AlwaysFalls(f, b)
    ensures Narrowed(f, share, Bracket(b.upper - w, b.upper)) == Bracket(b.upper - share(w), b.upper)
  {
    var at := Bracket(b.upper - w, b.upper);
    ProbesInside(at, share);
    assert Higher(f, Left(at, share), Right(at, share));
  }

  /** With nothing to choose between the probes the search runs to the lower end. */
  lemma FlatGoesToLowerEnd(f: Objective, share: real -> real, b: Bracket, n: nat)
    requires Golden(share) && b.lower < b.upper && Defined(f, b)
    requires forall x, y :: b.Holds(x) && b.Holds(y) ==> f(x) == f(y)
    ensures Narrowings(f, share, b, n) == Bracket(b.lower, b.lower + Shared(share, n, b.Width()))
  {
    RisingGoesToLowerEnd(f, share, b, n);
  }

  /** After the first iteration the bracket never reaches beyond its first narrowing. */
  lemma {:induction false} StaysInFirst(f: Objective, share: real -> real, b: Bracket, n: nat)
    requires Golden(share) && b.lower < b.upper && Defined(f, b) && n > 0
    ensures b.lower <= Narrowings(f, share, b, n).lower && Narrowings(f, share, b, n).upper <= Narrowed(f, share, b).upper
  {
    if n == 1 {
      assert Narrowings(f, share, b, 0) == b;
    } else {
      StaysInFirst(f, share, b, n - 1);
      NarrowedProbes(f, share, Narrowings(f, share, b, n - 1));
    }
  }

  /** A first comparison that favours the lower probe keeps the search below the upper one. */
  lemma FirstStepDown(f: Objective, b: Bracket, share: real -> real, n: nat)
    requires Golden(share) && b.lower < b.upper && Defined(f, b) && n > 0
    requires NoHigher(f, Left(b, share), Right(b, share))
    ensures b.lower < Narrowings(f, share, b, n).Middle() < Right(b, share)
  {
    ProbesInside(b, share);
    StaysInFirst(f, share, b, n);
  }

  lemma {:induction false} SharedShrinks(share: real -> real, n: nat, w: real)
    requires Golden(share) && w > 0.0
    ensures 0.0 < Shared(share, n, w) <= w
    ensures n > 0 ==> Shared(share, n, w) < w
  {
    if n > 0 {
      SharedShrinks(share, n - 1, w);
    }
  }

  /** After one iteration or more, opposite objectives lead to different places. */
  lemma OppositeEnds(f: Objective, g: Objective, b: Bracket, ratio: real, n: nat)
    requires IsGolden(ratio) && b.lower < b.upper && Defined(f, b) && Defined(g, b) && n > 0
    requires NeverFalls(f, b) && AlwaysFalls(g, b)
    ensures Optimum(f, b, ratio, n) < Optimum(g, b, ratio, n)
  {
    var share := Share(ratio);
    GoldenShare(ratio);
    RisingGoesToLowerEnd(f, share, b, n);
    FallingGoesToUpperEnd(g, share, b, n);
    SharedShrinks(share, n, b.Width());
  }

  // ---------------------------------------------------------------- what a fit promises

  /** The result of a search, judged against every minimiser and against an objective that says nothing. */
  ghost predicate FoundWithin(f: Objective, b: Bracket, bound: real, middle: real)
    requires Defined(f, b)
  {
    && b.lower < middle < b.upper
    && (forall m :: StrictlyQuasiconvex(f, b) && Minimises(f, b, m) ==> m - bound <= middle <= m + bound)
    && ((forall x, y :: b.Holds(x) && b.Holds(y) ==> f(x) == f(y)) ==> middle == b.lower + bound)
  }

  lemma NarrowingsFind(f: Objective, b: Bracket, share: real -> real, n: nat, middle: real)
    requires Golden(share) && b.lower < b.upper && Defined(f, b)
    requires middle == Narrowings(f, share, b, n).Middle()
    ensures FoundWithin(f, b, Shared(share, n, b.Width()) / 2.0, middle)
  {
    WidthShrinks(f, share, b, n);
    forall m | StrictlyQuasiconvex(f, b) && Minimises(f, b, m)
      ensures Narrowings(f, share, b, n).Holds(m)
    {
      KeepsMinimiser(f, share, b, n, m);
    }
    if forall x, y :: b.Holds(x) && b.Holds(y) ==> f(x) == f(y) {
      FlatGoesToLowerEnd(f, share, b, n);
    }
  }

  lemma GoldenPrecision(b: Bracket, ratio: real, n: nat)
    requires IsGolden(ratio)
    ensures Golden(Share(ratio))
    ensures Shared(Share(ratio), n, b.Width()) / 2.0 == Precision(ratio, b, n)
  {
    GoldenShare(ratio);
    SharedIsPower(ratio, n, b.Width());
  }

  method FindWith(f: Objective, b: Bracket, share: real -> real, n: nat) returns (middle: real)
    requires Golden(share) && b.lower < b.upper && Defined(f, b)
    ensures middle == Narrowings(f, share, b, n).Middle()
    ensures FoundWithin(f, b, Shared(share, n, b.Width()) / 2.0, middle)
  {
    middle := SearchWith(f, b, share, n);
    NarrowingsFind(f, b, share, n, middle);
  }

  /** Where the search ends: a function of the objective and the interval. */
  ghost function Optimum(f: Objective, b: Bracket, ratio: real, n: nat): real
    requires IsGolden(ratio) && b.lower < b.upper && Defined(f, b)
  {
    GoldenShare(ratio);
    Narrowings(f, Share(ratio), b, n).Middle()
  }

  /** The search as both fits use it. */
  method Search(f: Objective, b: Bracket, ratio: real, n: nat) returns (middle: real)
    requires IsGolden(ratio) && b.lower < b.upper && Defined(f, b)
    ensures FoundWithin(f, b, Precision(ratio, b, n), middle) && middle == Optimum(f, b, ratio, n)
  {
    GoldenPrecision(b, ratio, n);
    middle := FindWith(f, b, Share(ratio), n);
  }
}

/** Fitting one temperature: the mean log loss of a population and the shape the search relies on. */
module TemperatureFit {
  import opened Algebra
  import opened Fixtures
  import opened ScoreGrid
  import opened GoldenSection
  import opened Temperature

  /** The bounded search: its temperatures, its iterations, the floor of a probability and the golden ratio. */
  datatype Parameters = Parameters(minimum: real, maximum: real, iterations: nat, floor: real, ratio: real) {
    ghost predicate Usable(n: ExpLog) {
      IsExpLog(n) && IsGolden(ratio) && 0.0 < minimum < maximum && 0.0 < floor && 3.0 * floor < 1.0
    }

    function Logarithms(n: ExpLog): Bracket {
      Bracket(n.log(minimum), n.log(maximum))
    }
  }

  function LossSum(n: ExpLog, rows: seq<Graded>, temperature: real, floor: real): real
    requires IsExpLog(n) && temperature > 0.0
  {
    if rows == [] then 0.0 else
      LossSum(n, rows[..|rows| - 1], temperature, floor) + LogLoss(n, rows[|rows| - 1], temperature, floor)
  }

  function MeanLogLoss(n: ExpLog, rows: seq<Graded>, temperature: real, floor: real): real
    requires rows != [] && IsExpLog(n) && temperature > 0.0
  {
    Over(LossSum(n, rows, temperature, floor), |rows| as real)
  }

  /** What a row loses: minus the log of the scaled probability of what happened, which the floor may raise. */
  ghost predicate LosesAt(n: ExpLog, g: Graded, temperature: real, floor: real, loss: real)
    requires IsExpLog(n) && temperature > 0.0
  {
    var chance := For(TemperatureScaled(n, g.probabilities, temperature, floor), g.actual);
    loss == if chance >= floor then -n.log(chance) else -n.log(floor)
  }

  lemma {:induction false} SumOfLosses(n: ExpLog, rows: seq<Graded>, temperature: real, floor: real, losses: seq<real>)
    requires IsExpLog(n) && temperature > 0.0 && |losses| == |rows|
    requires forall i :: 0 <= i < |rows| ==> LosesAt(n, rows[i], temperature, floor, losses[i])
    ensures LossSum(n, rows, temperature, floor) == SumOf(losses)
    decreases |rows|
  {
    if rows != [] {
      var k := |rows| - 1;
      SumOfLosses(n, rows[..k], temperature, floor, losses[..k]);
      assert LosesAt(n, rows[k], temperature, floor, losses[k]);
    }
  }

  /** The mean log loss times the number of rows is the sum of what they lose. */
  lemma MeanOfLosses(n: ExpLog, rows: seq<Graded>, temperature: real, floor: real, losses: seq<real>)
    requires rows != [] && IsExpLog(n) && temperature > 0.0 && |losses| == |rows|
    requires forall i :: 0 <= i < |rows| ==> LosesAt(n, rows[i], temperature, floor, losses[i])
    ensures Times(MeanLogLoss(n, rows, temperature, floor), |rows| as real) == SumOf(losses)
  {
    SumOfLosses(n, rows, temperature, floor, losses);
    OverIsTimes(LossSum(n, rows, temperature, floor), |rows| as real);
    Commutes(MeanLogLoss(n, rows, temperature, floor), |rows| as real);
  }

  function LossObjective(n: ExpLog, rows: seq<Graded>, floor: real): Objective
    requires rows != [] && IsExpLog(n)
  {
    (logTemperature: real) => MeanLogLoss(n, rows, n.exp(logTemperature), floor)
  }

  // ---------------------------------------------------------------- floors

  /** The scaled probability of what happened is at least the floor. */
  predicate Clear(n: ExpLog, g: Graded, temperature: real, floor: real)
    requires IsExpLog(n) && temperature > 0.0
  {
    For(TemperatureScaled(n, g.probabilities, temperature, floor), g.actual) >= floor
  }

  ghost predicate AllClear(n: ExpLog, rows: seq<Graded>, temperature: real, floor: real)
    requires IsExpLog(n) && temperature > 0.0
  {
    forall g :: g in rows ==> Clear(n, g, temperature, floor)
  }

  function GradedLogs(n: ExpLog, g: Graded, floor: real): Outcomes {
    Logs(n, g.probabilities, floor)
  }

  predicate UnevenRow(n: ExpLog, g: Graded, floor: real) {
    Uneven(GradedLogs(n, g, floor))
  }

  ghost predicate AnyUneven(n: ExpLog, rows: seq<Graded>, floor: real) {
    exists g :: g in rows && UnevenRow(n, g, floor)
  }

  /** A higher temperature is a lower inverse. */
  lemma InverseFalls(x: real, y: real)
    requires 0.0 < x < y
    ensures 0.0 < Over(1.0, y) < Over(1.0, x)
  {
    OverPositive(1.0, x);
    OverPositive(1.0, y);
    OverIsTimes(1.0, x);
    OverIsTimes(1.0, y);
    InverseOrder(x, y, Over(1.0, x), Over(1.0, y));
  }

  lemma InverseOrder(x: real, y: real, u: real, v: real)
    requires 0.0 < x < y && u > 0.0 && v > 0.0 && Times(x, u) == 1.0 == Times(y, v)
    ensures v < u
  {
    if v >= u {
      KeepsOrder(x, u, v);
      KeepsOrder(v, x, y);
      Commutes(x, v);
      Commutes(y, v);
    }
  }

  /** A floor that is reached at neither end is reached nowhere between. */
  lemma ClearBetween(n: ExpLog, g: Graded, floor: real, low: real, t: real, high: real)
    requires IsExpLog(n) && floor > 0.0 && 0.0 < low <= t <= high
    requires Clear(n, g, low, floor) && Clear(n, g, high, floor)
    ensures Clear(n, g, t, floor)
  {
    var l := GradedLogs(n, g, floor);
    LossIsSmooth(n, g, low, floor);
    LossIsSmooth(n, g, t, floor);
    LossIsSmooth(n, g, high, floor);
    if low < t < high {
      InverseFalls(low, t);
      InverseFalls(t, high);
      SmoothBelowEnds(n, l, g.actual, Over(1.0, high), Over(1.0, t), Over(1.0, low));
    }
  }

  // ---------------------------------------------------------------- the sum of the smooth losses

  ghost function SmoothSum(n: ExpLog, rows: seq<Graded>, floor: real, b: real): real {
    if rows == [] then 0.0 else
      var last := rows[|rows| - 1];
      SmoothSum(n, rows[..|rows| - 1], floor, b) + Smooth(n, GradedLogs(n, last, floor), last.actual, b)
  }

  ghost function SlopeSum(n: ExpLog, rows: seq<Graded>, floor: real, b: real): real
    requires IsExpLog(n)
  {
    if rows == [] then 0.0 else
      var last := rows[|rows| - 1];
      SlopeSum(n, rows[..|rows| - 1], floor, b) + Slope(n, GradedLogs(n, last, floor), last.actual, b)
  }

  /** The summed loss lies above each of its tangents, strictly with an uneven row. */
  lemma {:induction false} LossSumAboveTangent(n: ExpLog, rows: seq<Graded>, floor: real, b: real, c: real)
    requires IsExpLog(n) && b != c
    ensures SmoothSum(n, rows, floor, c) >= SmoothSum(n, rows, floor, b) + Times(c - b, SlopeSum(n, rows, floor, b))
    ensures AnyUneven(n, rows, floor) ==>
              SmoothSum(n, rows, floor, c) > SmoothSum(n, rows, floor, b) + Times(c - b, SlopeSum(n, rows, floor, b))
    decreases |rows|
  {
    if rows == [] {
      ZeroAndOne(c - b);
    } else {
      var init, last := rows[..|rows| - 1], rows[|rows| - 1];
      LossSumAboveTangent(n, init, floor, b, c);
      RowAboveTangent(n, last, floor, b, c, SlopeSum(n, init, floor, b));
      UnevenInitOrLast(n, rows, floor);
    }
  }

  /** One more row, its tangent added to the slope of the others. */
  lemma RowAboveTangent(n: ExpLog, g: Graded, floor: real, b: real, c: real, others: real)
    requires IsExpLog(n) && b != c
    ensures var l := GradedLogs(n, g, floor);
      var rise := Times(c - b, others + Slope(n, l, g.actual, b)) - Times(c - b, others);
      && Smooth(n, l, g.actual, c) >= Smooth(n, l, g.actual, b) + rise
      && (UnevenRow(n, g, floor) ==> Smooth(n, l, g.actual, c) > Smooth(n, l, g.actual, b) + rise)
  {
    var l := GradedLogs(n, g, floor);
    SmoothAboveTangent(n, l, g.actual, b, c);
    Distributes(c - b, others, Slope(n, l, g.actual, b));
  }

  lemma UnevenInitOrLast(n: ExpLog, rows: seq<Graded>, floor: real)
    requires rows != []
    ensures AnyUneven(n, rows, floor) <==>
            AnyUneven(n, rows[..|rows| - 1], floor) || UnevenRow(n, rows[|rows| - 1], floor)
  {
    var init, last := rows[..|rows| - 1], rows[|rows| - 1];
    assert rows == init + [last];
  }

  /** Where no floor is reached the summed loss is the smooth one. */
  lemma {:induction false} LossSumIsSmooth(n: ExpLog, rows: seq<Graded>, temperature: real, floor: real)
    requires IsExpLog(n) && temperature > 0.0 && floor > 0.0 && AllClear(n, rows, temperature, floor)
    ensures LossSum(n, rows, temperature, floor) == SmoothSum(n, rows, floor, Over(1.0, temperature))
    decreases |rows|
  {
    if rows != [] {
      var last := rows[|rows| - 1];
      assert last in rows && Clear(n, last, temperature, floor);
      LossSumIsSmooth(n, rows[..|rows| - 1], temperature, floor);
      LossIsSmooth(n, last, temperature, floor);
    }
  }

  lemma MeanOrder(n: ExpLog, rows: seq<Graded>, floor: real, x: real, y: real)
    requires rows != [] && IsExpLog(n) && x > 0.0 && y > 0.0
    ensures MeanLogLoss(n, rows, x, floor) < MeanLogLoss(n, rows, y, floor)
            <==> LossSum(n, rows, x, floor) < LossSum(n, rows, y, floor)
  {
    var k := |rows| as real;
    var u, v := LossSum(n, rows, x, floor), LossSum(n, rows, y, floor);
    OverPositive(1.0, k);
    OverIsTimes(u, k);
    OverIsTimes(v, k);
    KeepsOrder(Over(1.0, k), u, v);
  }

  lemma AllClearBetween(n: ExpLog, rows: seq<Graded>, floor: real, low: real, t: real, high: real)
    requires IsExpLog(n) && floor > 0.0 && 0.0 < low <= t <= high
    requires AllClear(n, rows, low, floor) && AllClear(n, rows, high, floor)
    ensures AllClear(n, rows, t, floor)
  {
    forall g | g in rows
      ensures Clear(n, g, t, floor)
    {
      ClearBetween(n, g, floor, low, t, high);
    }
  }

  /** The summed smooth loss at a point between two others is below that at one of them. */
  lemma SmoothSumIsStrict(n: ExpLog, rows: seq<Graded>, floor: real, w: real, v: real, u: real)
    requires IsExpLog(n) && w < v < u && AnyUneven(n, rows, floor)
    ensures SmoothSum(n, rows, floor, v) < SmoothSum(n, rows, floor, w)
         || SmoothSum(n, rows, floor, v) < SmoothSum(n, rows, floor, u)
  {
    var g := SlopeSum(n, rows, floor, v);
    LossSumAboveTangent(n, rows, floor, v, u);
    LossSumAboveTangent(n, rows, floor, v, w);
    SignOfStep(u - v, g);
    SignOfStep(w - v, g);
  }

  /** The loss at a temperature between two others is below that of one of them. */
  lemma LossIsStrict(n: ExpLog, rows: seq<Graded>, floor: real, x: real, y: real, z: real)
    requires rows != [] && IsExpLog(n) && floor > 0.0 && 0.0 < x < y < z
    requires AllClear(n, rows, x, floor) && AllClear(n, rows, z, floor) && AnyUneven(n, rows, floor)
    ensures MeanLogLoss(n, rows, y, floor) < MeanLogLoss(n, rows, x, floor)
         || MeanLogLoss(n, rows, y, floor) < MeanLogLoss(n, rows, z, floor)
  {
    var u, v, w := Over(1.0, x), Over(1.0, y), Over(1.0, z);
    InverseFalls(x, y);
    InverseFalls(y, z);
    AllClearBetween(n, rows, floor, x, y, z);
    LossSumIsSmooth(n, rows, x, floor);
    LossSumIsSmooth(n, rows, y, floor);
    LossSumIsSmooth(n, rows, z, floor);
    MeanOrder(n, rows, floor, y, x);
    MeanOrder(n, rows, floor, y, z);
    SmoothSumIsStrict(n, rows, floor, w, v, u);
  }

  // ---------------------------------------------------------------- populations that cannot tell

  lemma EvenIsClear(n: ExpLog, g: Graded, temperature: real, floor: real)
    requires IsExpLog(n) && temperature > 0.0 && 0.0 < floor && 3.0 * floor < 1.0 && !UnevenRow(n, g, floor)
    ensures LogLoss(n, g, temperature, floor) == n.log(3.0)
  {
    var b := Over(1.0, temperature);
    EvenIsFlat(n, GradedLogs(n, g, floor), g.actual, b);
    LossIsSmooth(n, g, temperature, floor);
    ThirdAboveFloor(n, floor);
  }

  lemma ThirdAboveFloor(n: ExpLog, floor: real)
    requires IsExpLog(n) && 0.0 < floor && 3.0 * floor < 1.0
    ensures n.log(floor) <= -n.log(3.0)
  {
    var x := n.log(3.0);
    ExpSum(n, -x, x);
    assert n.exp(x) == 3.0 && n.exp(-x + x) == 1.0;
    ThirdOfOne(n.exp(-x));
    LogOrder(n, floor, n.exp(-x));
  }

  lemma ThirdOfOne(e: real)
    requires Times(e, 3.0) == 1.0
    ensures e == 1.0 / 3.0
  {
  }

  lemma {:induction false} EvenLossSum(n: ExpLog, rows: seq<Graded>, x: real, y: real, floor: real)
    requires IsExpLog(n) && x > 0.0 && y > 0.0 && 0.0 < floor && 3.0 * floor < 1.0 && !AnyUneven(n, rows, floor)
    ensures LossSum(n, rows, x, floor) == LossSum(n, rows, y, floor)
    decreases |rows|
  {
    if rows != [] {
      var last := rows[|rows| - 1];
      assert last in rows;
      EvenLossSum(n, rows[..|rows| - 1], x, y, floor);
      EvenIsClear(n, last, x, floor);
      EvenIsClear(n, last, y, floor);
    }
  }

  // ---------------------------------------------------------------- what the fit finds

  /** No row reaches the floor at either end of the bracket. */
  ghost predicate FloorsFree(n: ExpLog, rows: seq<Graded>, p: Parameters)
    requires p.Usable(n)
  {
    AllClear(n, rows, p.minimum, p.floor) && AllClear(n, rows, p.maximum, p.floor)
  }

  lemma InBracket(n: ExpLog, p: Parameters, x: real)
    requires p.Usable(n)
    ensures p.Logarithms(n).lower < p.Logarithms(n).upper
    ensures p.Logarithms(n).Holds(x) <==> p.minimum <= n.exp(x) <= p.maximum
  {
    LogOrder(n, p.minimum, p.maximum);
    LogOrder(n, p.minimum, n.exp(x));
    LogOrder(n, n.exp(x), p.minimum);
    LogOrder(n, p.maximum, n.exp(x));
    LogOrder(n, n.exp(x), p.maximum);
    assert n.log(n.exp(x)) == x;
  }

  ghost predicate LossAt(f: Objective, n: ExpLog, rows: seq<Graded>, floor: real, x: real)
    requires rows != [] && IsExpLog(n)
  {
    f.requires(x) && f(x) == MeanLogLoss(n, rows, n.exp(x), floor)
  }

  /** The objective is the loss at every log temperature. */
  ghost predicate IsLoss(f: Objective, n: ExpLog, rows: seq<Graded>, floor: real)
    requires rows != [] && IsExpLog(n)
  {
    forall x :: LossAt(f, n, rows, floor, x)
  }

  lemma ObjectiveIsLoss(n: ExpLog, rows: seq<Graded>, floor: real)
    requires rows != [] && IsExpLog(n)
    ensures IsLoss(LossObjective(n, rows, floor), n, rows, floor)
  {
  }

  /** Over the whole bracket the mean log loss has one valley, or is level. */
  lemma ObjectiveShape(n: ExpLog, rows: seq<Graded>, p: Parameters, f: Objective)
    requires rows != [] && p.Usable(n) && IsLoss(f, n, rows, p.floor)
    ensures var b := p.Logarithms(n);
      && Defined(f, b) && b.lower < b.upper
      && (FloorsFree(n, rows, p) && AnyUneven(n, rows, p.floor) ==> StrictlyQuasiconvex(f, b))
      && (!AnyUneven(n, rows, p.floor) ==> forall x, y :: b.Holds(x) && b.Holds(y) ==> f(x) == f(y))
  {
    InBracket(n, p, 0.0);
    LossDefined(n, rows, p, f);
    if AnyUneven(n, rows, p.floor) {
      if FloorsFree(n, rows, p) {
        OneValley(n, rows, p, f);
      }
    } else {
      Level(n, rows, p, f);
    }
  }

  lemma LossDefined(n: ExpLog, rows: seq<Graded>, p: Parameters, f: Objective)
    requires rows != [] && p.Usable(n) && IsLoss(f, n, rows, p.floor)
    ensures Defined(f, p.Logarithms(n))
  {
    forall x
      ensures f.requires(x)
    {
      assert LossAt(f, n, rows, p.floor, x);
    }
  }

  lemma OneValley(n: ExpLog, rows: seq<Graded>, p: Parameters, f: Objective)
    requires rows != [] && p.Usable(n) && FloorsFree(n, rows, p) && AnyUneven(n, rows, p.floor)
    requires Defined(f, p.Logarithms(n)) && IsLoss(f, n, rows, p.floor)
    ensures StrictlyQuasiconvex(f, p.Logarithms(n))
  {
    var b := p.Logarithms(n);
    forall x, y, z | b.Holds(x) && b.Holds(y) && b.Holds(z) && x < y < z
      ensures f(y) < f(x) || f(y) < f(z)
    {
      ValleyAt(n, rows, p, f, x, y, z);
    }
  }

  lemma Level(n: ExpLog, rows: seq<Graded>, p: Parameters, f: Objective)
    requires rows != [] && p.Usable(n) && !AnyUneven(n, rows, p.floor) && IsLoss(f, n, rows, p.floor)
    requires Defined(f, p.Logarithms(n))
    ensures var b := p.Logarithms(n); forall x, y :: b.Holds(x) && b.Holds(y) ==> f(x) == f(y)
  {
    var b := p.Logarithms(n);
    forall x, y | b.Holds(x) && b.Holds(y)
      ensures f(x) == f(y)
    {
      assert LossAt(f, n, rows, p.floor, x) && LossAt(f, n, rows, p.floor, y);
      EvenLossSum(n, rows, n.exp(x), n.exp(y), p.floor);
    }
  }

  lemma ValleyAt(n: ExpLog, rows: seq<Graded>, p: Parameters, f: Objective, x: real, y: real, z: real)
    requires rows != [] && p.Usable(n) && FloorsFree(n, rows, p) && AnyUneven(n, rows, p.floor)
    requires p.Logarithms(n).Holds(x) && p.Logarithms(n).Holds(z) && x < y < z && IsLoss(f, n, rows, p.floor)
    ensures f.requires(x) && f.requires(y) && f.requires(z)
    ensures f(y) < f(x) || f(y) < f(z)
  {
    InBracket(n, p, x);
    InBracket(n, p, z);
    ExpRises(n, x, y);
    ExpRises(n, y, z);
    AllClearBetween(n, rows, p.floor, p.minimum, n.exp(x), p.maximum);
    AllClearBetween(n, rows, p.floor, p.minimum, n.exp(z), p.maximum);
    LossIsStrict(n, rows, p.floor, n.exp(x), n.exp(y), n.exp(z));
    assert LossAt(f, n, rows, p.floor, x) && LossAt(f, n, rows, p.floor, y) && LossAt(f, n, rows, p.floor, z);
  }

  /** A log temperature of the bracket that no other beats. */
  ghost predicate Best(f: Objective, b: Bracket, m: real) {
    Defined(f, b) && Minimises(f, b, m)
  }

  /** The best log temperature to within the precision, or the lower end if no row can tell. */
  ghost predicate Fitted(n: ExpLog, rows: seq<Graded>, p: Parameters, f: Objective, t: real)
    requires rows != [] && p.Usable(n)
  {
    var b := p.Logarithms(n);
    var precision := Precision(p.ratio, b, p.iterations);
    && b.lower < t < b.upper
    && (FloorsFree(n, rows, p) && AnyUneven(n, rows, p.floor) ==>
          forall m :: Best(f, b, m) ==> m - precision <= t <= m + precision)
    && (!AnyUneven(n, rows, p.floor) ==> t == b.lower + precision)
  }

  lemma FoundIsFitted(n: ExpLog, rows: seq<Graded>, p: Parameters, f: Objective, t: real)
    requires rows != [] && p.Usable(n) && IsLoss(f, n, rows, p.floor) && Defined(f, p.Logarithms(n))
    requires FoundWithin(f, p.Logarithms(n), Precision(p.ratio, p.Logarithms(n), p.iterations), t)
    ensures Fitted(n, rows, p, f, t)
  {
    ObjectiveShape(n, rows, p, f);
  }

  /** The log temperature a population gets. */
  ghost function FittedLog(n: ExpLog, rows: seq<Graded>, p: Parameters): real
    requires rows != [] && p.Usable(n)
  {
    InBracket(n, p, 0.0);
    Optimum(LossObjective(n, rows, p.floor), p.Logarithms(n), p.ratio, p.iterations)
  }

  /** Searches the log temperatures for the least mean log loss. */
  method FitLogTemperature(n: ExpLog, rows: seq<Graded>, p: Parameters) returns (t: real)
    requires rows != [] && p.Usable(n)
    ensures t == FittedLog(n, rows, p) && Fitted(n, rows, p, LossObjective(n, rows, p.floor), t)
  {
    InBracket(n, p, 0.0);
    var f, b := LossObjective(n, rows, p.floor), p.Logarithms(n);
    ObjectiveIsLoss(n, rows, p.floor);
    t := Search(f, b, p.ratio, p.iterations);
    FoundIsFitted(n, rows, p, f, t);
  }

  // ---------------------------------------------------------------- a floor that is reached

  /** The smooth loss of a row is more than the floor lets the loss be. */
  predicate Hidden(n: ExpLog, g: Graded, floor: real, b: real) {
    -Smooth(n, GradedLogs(n, g, floor), g.actual, b) < n.log(floor)
  }

  /** How far a line of slope g may go before it has fallen by the gap. */
  lemma StaysAbove(d: real, g: real, gap: real)
    requires gap > 0.0 && Magnitude(d) <= Over(gap, 1.0 + Magnitude(g))
    ensures Times(d, g) > -gap
  {
    var s, m := Magnitude(d), 1.0 + Magnitude(g);
    OverPositive(gap, m);
    OverIsTimes(gap, m);
    assert Times(m, Over(gap, m)) == gap;
    SizeOfProduct(d, g);
    if s > 0.0 {
      KeepsOrder(s, Magnitude(g), m);
      KeepsOrder(m, s, Over(gap, m));
      Commutes(s, m);
    }
  }

  lemma SizeOfProduct(d: real, g: real)
    ensures Times(d, g) >= -Times(Magnitude(d), Magnitude(g))
    ensures d == 0.0 ==> Times(d, g) == 0.0
  {
  }

  /** Where a floor is reached it is also reached some way toward any other inverse temperature. */
  lemma HiddenNearby(n: ExpLog, g: Graded, floor: real, b: real, toward: real) returns (c: real)
    requires IsExpLog(n) && b != toward && Hidden(n, g, floor, b)
    ensures b < c <= toward || toward <= c < b
    ensures Hidden(n, g, floor, c) && Hidden(n, g, floor, (b + c) / 2.0)
  {
    var l := GradedLogs(n, g, floor);
    var slope := Slope(n, l, g.actual, b);
    var gap := Smooth(n, l, g.actual, b) + n.log(floor);
    var reach := Over(gap, 1.0 + Magnitude(slope));
    OverPositive(gap, 1.0 + Magnitude(slope));
    c := if Magnitude(toward - b) <= reach then toward else if toward > b then b + reach else b - reach;
    StillHidden(n, g, floor, b, c);
    StillHidden(n, g, floor, b, (b + c) / 2.0);
  }

  lemma StillHidden(n: ExpLog, g: Graded, floor: real, b: real, c: real)
    requires IsExpLog(n) && b != c && Hidden(n, g, floor, b)
    requires var l := GradedLogs(n, g, floor);
      Magnitude(c - b) <= Over(Smooth(n, l, g.actual, b) + n.log(floor), 1.0 + Magnitude(Slope(n, l, g.actual, b)))
    ensures Hidden(n, g, floor, c)
  {
    var l := GradedLogs(n, g, floor);
    StaysAbove(c - b, Slope(n, l, g.actual, b), Smooth(n, l, g.actual, b) + n.log(floor));
    SmoothAboveTangent(n, l, g.actual, b, c);
  }

  /** A hidden row has the loss of the floor. */
  lemma HiddenLoss(n: ExpLog, g: Graded, floor: real, b: real)
    requires IsExpLog(n) && b > 0.0 && floor > 0.0 && Hidden(n, g, floor, b)
    ensures Over(1.0, b) > 0.0 && LogLoss(n, g, Over(1.0, b), floor) == -n.log(floor)
  {
    InverseTwice(b);
    ClearOrHidden(n, g, floor, Over(1.0, b));
  }

  lemma OneRowMean(n: ExpLog, g: Graded, t: real, floor: real)
    requires IsExpLog(n) && t > 0.0
    ensures MeanLogLoss(n, [g], t, floor) == LogLoss(n, g, t, floor)
  {
    var loss := LogLoss(n, g, t, floor);
    assert LossSum(n, [], t, floor) == 0.0;
    assert [g][..0] == [];
    assert LossSum(n, [g], t, floor) == loss;
    OverOneIsSame(loss);
  }

  lemma InverseTwice(b: real)
    requires b > 0.0
    ensures Over(1.0, b) > 0.0 && Over(1.0, Over(1.0, b)) == b
  {
    OverPositive(1.0, b);
    OverIsTimes(1.0, b);
    Commutes(b, Over(1.0, b));
    OverUnique(1.0, Over(1.0, b), b);
  }

  lemma ClearOrHidden(n: ExpLog, g: Graded, floor: real, t: real)
    requires IsExpLog(n) && t > 0.0 && floor > 0.0
    ensures Clear(n, g, t, floor) <==> !Hidden(n, g, floor, Over(1.0, t))
  {
    LossIsSmooth(n, g, t, floor);
  }

  lemma HiddenIsLevel(n: ExpLog, g: Graded, p: Parameters, f: Objective, b: real)
    requires p.Usable(n) && IsLoss(f, n, [g], p.floor)
    requires Over(1.0, p.maximum) <= b <= Over(1.0, p.minimum) && Hidden(n, g, p.floor, b)
    ensures Over(1.0, p.maximum) > 0.0
    ensures var x := n.log(Over(1.0, b)); p.Logarithms(n).Holds(x) && f.requires(x) && f(x) == -n.log(p.floor)
  {
    InverseFalls(p.minimum, p.maximum);
    InverseTwice(b);
    InverseTwice(p.minimum);
    InverseTwice(p.maximum);
    if b < Over(1.0, p.minimum) {
      InverseFalls(b, Over(1.0, p.minimum));
    }
    if Over(1.0, p.maximum) < b {
      InverseFalls(Over(1.0, p.maximum), b);
    }
    var x := n.log(Over(1.0, b));
    assert n.exp(x) == Over(1.0, b);
    InBracket(n, p, x);
    HiddenLoss(n, g, p.floor, b);
    OneRowMean(n, g, n.exp(x), p.floor);
    assert LossAt(f, n, [g], p.floor, x);
  }

  /** Three points of the same height in a row. */
  lemma LevelIsNotStrict(f: Objective, b: Bracket, x: real, y: real, z: real)
    requires Defined(f, b) && b.Holds(x) && b.Holds(y) && b.Holds(z)
    requires (x < y < z || z < y < x) && f(x) == f(y) == f(z)
    ensures !StrictlyQuasiconvex(f, b)
  {
  }

  lemma HiddenBreaksShape(n: ExpLog, g: Graded, p: Parameters, f: Objective, b: real, toward: real)
    requires p.Usable(n) && IsLoss(f, n, [g], p.floor) && Defined(f, p.Logarithms(n)) && b != toward
    requires Over(1.0, p.maximum) <= b <= Over(1.0, p.minimum) && Hidden(n, g, p.floor, b)
    requires Over(1.0, p.maximum) <= toward <= Over(1.0, p.minimum)
    ensures !StrictlyQuasiconvex(f, p.Logarithms(n))
  {
    var c := HiddenNearby(n, g, p.floor, b, toward);
    var v := (b + c) / 2.0;
    HiddenIsLevel(n, g, p, f, b);
    HiddenIsLevel(n, g, p, f, v);
    HiddenIsLevel(n, g, p, f, c);
    if b < c {
      InverseLogs(n, b, v);
      InverseLogs(n, v, c);
    } else {
      InverseLogs(n, c, v);
      InverseLogs(n, v, b);
    }
    LevelIsNotStrict(f, p.Logarithms(n), n.log(Over(1.0, b)), n.log(Over(1.0, v)), n.log(Over(1.0, c)));
  }

  lemma InverseLogs(n: ExpLog, b: real, c: real)
    requires IsExpLog(n) && 0.0 < b < c
    ensures n.log(Over(1.0, c)) < n.log(Over(1.0, b))
  {
    InverseFalls(b, c);
    LogOrder(n, Over(1.0, c), Over(1.0, b));
  }

  /** For one uneven row the loss has one valley exactly when the floor is reached at neither end. */
  lemma OneRowExactly(n: ExpLog, g: Graded, p: Parameters, f: Objective)
    requires p.Usable(n) && UnevenRow(n, g, p.floor) && IsLoss(f, n, [g], p.floor)
    ensures Defined(f, p.Logarithms(n))
    ensures StrictlyQuasiconvex(f, p.Logarithms(n)) <==> FloorsFree(n, [g], p)
  {
    assert g in [g];
    ObjectiveShape(n, [g], p, f);
    ClearOrHidden(n, g, p.floor, p.minimum);
    ClearOrHidden(n, g, p.floor, p.maximum);
    InverseFalls(p.minimum, p.maximum);
    var low, high := Over(1.0, p.maximum), Over(1.0, p.minimum);
    if Hidden(n, g, p.floor, low) {
      HiddenBreaksShape(n, g, p, f, low, high);
    }
    if Hidden(n, g, p.floor, high) {
      HiddenBreaksShape(n, g, p, f, high, low);
    }
  }

  const MINIMUM_TEMPERATURE := 0.25
  const MAXIMUM_TEMPERATURE := 4.0
  const PROBABILITY_FLOOR := 0.000000000000001

  /** With the platform's own bounds and floor a confident miss reaches the floor, and the valley is lost. */
  lemma FloorCanBeReached(n: ExpLog, p: Parameters, f: Objective) returns (g: Graded)
    requires p.Usable(n)
    requires p.minimum == MINIMUM_TEMPERATURE && p.maximum == MAXIMUM_TEMPERATURE && p.floor == PROBABILITY_FLOOR
    ensures Sum3(g.probabilities) == 1.0 && For(g.probabilities, g.actual) == 0.0001
    ensures UnevenRow(n, g, p.floor) && !FloorsFree(n, [g], p)
    ensures IsLoss(f, n, [g], p.floor) ==> Defined(f, p.Logarithms(n)) && !StrictlyQuasiconvex(f, p.Logarithms(n))
  {
    g := Graded(Outcomes(0.9998, 0.0001, 0.0001), Draw);
    LogOrder(n, 0.0001, 0.9998);
    ConfidentMiss(n, g, p.floor);
    assert g in [g] && !Clear(n, g, p.minimum, p.floor);
    if IsLoss(f, n, [g], p.floor) {
      OneRowExactly(n, g, p, f);
    }
  }

  lemma ConfidentMiss(n: ExpLog, g: Graded, floor: real)
    requires IsExpLog(n) && g == Graded(Outcomes(0.9998, 0.0001, 0.0001), Draw) && floor == PROBABILITY_FLOOR
    ensures !Clear(n, g, MINIMUM_TEMPERATURE, floor)
  {
    var l := GradedLogs(n, g, floor);
    assert l.home == n.log(0.9998) && l.draw == n.log(0.0001);
    var home, draw := n.exp(Times(4.0, l.home)), n.exp(Times(4.0, l.draw));
    FourthPower(n, 0.9998);
    FourthPower(n, 0.0001);
    InverseOfQuarter();
    ScaledIsShare(n, g.probabilities, MINIMUM_TEMPERATURE, floor, Draw);
    SmallShare(draw, home, Normaliser(n, l, 4.0), floor);
  }

  lemma SmallShare(x: real, y: real, s: real, floor: real)
    requires 0.0 < x && 0.5 < y < s && x + x < floor
    ensures Over(x, s) < floor
  {
    OverIsTimes(x, s);
    OverPositive(x, s);
    KeepsOrder(Over(x, s), 0.5, s);
    Commutes(s, Over(x, s));
  }

  lemma InverseOfQuarter()
    ensures Over(1.0, 0.25) == 4.0
  {
  }

  lemma FourthPower(n: ExpLog, x: real)
    requires IsExpLog(n) && x > 0.0
    ensures n.exp(Times(4.0, n.log(x))) == Times(Times(x, x), Times(x, x))
  {
    var y := n.log(x);
    FourTimes(y);
    ExpSum(n, y, y);
    ExpSum(n, y + y, y + y);
  }

  lemma FourTimes(x: real)
    ensures Times(4.0, x) == (x + x) + (x + x)
  {
  }
}

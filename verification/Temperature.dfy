/** Temperature scaling of three-way probabilities, and why its log loss has one valley. */
module Temperature {
  import opened Wrappers
  import opened Algebra
  import opened Fixtures
  import opened ScoreGrid

  /** The exponential and the natural logarithm. */
  datatype ExpLog = ExpLog(exp: real -> real, log: real -> real)

  /** Sums become products, the tangent at zero lies below, and each function undoes the other. */
  ghost predicate IsExpLog(n: ExpLog) {
    && (forall x: real, y: real :: TurnsSums(n, x, y))
    && (forall x: real :: n.exp(x) > 0.0)
    && n.exp(0.0) == 1.0
    && (forall x: real :: x != 0.0 ==> n.exp(x) > 1.0 + x)
    && (forall x: real :: n.log(n.exp(x)) == x)
    && (forall y: real :: y > 0.0 ==> n.exp(n.log(y)) == y)
  }

  ghost predicate TurnsSums(n: ExpLog, x: real, y: real) {
    n.exp(x + y) == Times(n.exp(x), n.exp(y))
  }

  lemma ExpSum(n: ExpLog, x: real, y: real)
    requires IsExpLog(n)
    ensures n.exp(x + y) == Times(n.exp(x), n.exp(y)) && n.exp(x) > 0.0 && n.exp(y) > 0.0
  {
    assert TurnsSums(n, x, y);
  }

  lemma ExpRises(n: ExpLog, x: real, y: real)
    requires IsExpLog(n) && x < y
    ensures n.exp(x) < n.exp(y)
  {
    ExpSum(n, x, y - x);
    assert n.exp(y - x) > 1.0;
    KeepsOrder(n.exp(x), 1.0, n.exp(y - x));
    ZeroAndOne(n.exp(x));
  }

  lemma LogOrder(n: ExpLog, x: real, y: real)
    requires IsExpLog(n) && x > 0.0 && y > 0.0
    ensures x < y <==> n.log(x) < n.log(y)
  {
    var a, b := n.log(x), n.log(y);
    assert n.exp(a) == x && n.exp(b) == y;
    if a < b {
      ExpRises(n, a, b);
    }
    if b < a {
      ExpRises(n, b, a);
    }
  }

  /** The logarithm of a product. */
  lemma LogProduct(n: ExpLog, x: real, s: real)
    requires IsExpLog(n) && s > 0.0
    ensures n.log(Times(n.exp(x), s)) == x + n.log(s)
  {
    ExpSum(n, x, n.log(s));
    assert n.exp(n.log(s)) == s;
    assert n.log(n.exp(x + n.log(s))) == x + n.log(s);
  }

  /** The exponential lies above its tangent at any point. */
  lemma ExpAboveTangent(n: ExpLog, y: real, m: real)
    requires IsExpLog(n)
    ensures n.exp(y) >= Times(n.exp(m), 1.0 + (y - m))
    ensures y != m ==> n.exp(y) > Times(n.exp(m), 1.0 + (y - m))
  {
    ExpSum(n, m, y - m);
    ZeroAndOne(n.exp(m));
    if y != m {
      assert n.exp(y - m) > 1.0 + (y - m);
      KeepsOrder(n.exp(m), 1.0 + (y - m), n.exp(y - m));
    }
  }

  // ---------------------------------------------------------------- scaling

  function Larger(x: real, y: real): real {
    if x >= y then x else y
  }

  function For(p: Outcomes, actual: MatchOutcome): real {
    match actual
    case HomeWin => p.home
    case Draw => p.draw
    case AwayWin => p.away
  }

  function Sum3(p: Outcomes): real {
    p.home + p.draw + p.away
  }

  /** The floored log probabilities. */
  function Logs(n: ExpLog, p: Outcomes, floor: real): Outcomes {
    Outcomes(n.log(Larger(p.home, floor)), n.log(Larger(p.draw, floor)), n.log(Larger(p.away, floor)))
  }

  function Exps(n: ExpLog, p: Outcomes): Outcomes {
    Outcomes(n.exp(p.home), n.exp(p.draw), n.exp(p.away))
  }

  lemma ExpsPositive(n: ExpLog, p: Outcomes)
    requires IsExpLog(n)
    ensures Sum3(Exps(n, p)) > 0.0
  {
  }

  /** The exponential shares of three logits, each less the greatest; the third is what is left. */
  function Softmax(n: ExpLog, logits: Outcomes): Outcomes
    requires IsExpLog(n)
  {
    var offset := Larger(Larger(logits.home, logits.draw), logits.away);
    var weights := Exps(n, Lowered(logits, offset));
    ExpsPositive(n, Lowered(logits, offset));
    var home, draw := Over(weights.home, Sum3(weights)), Over(weights.draw, Sum3(weights));
    Outcomes(home, draw, 1.0 - home - draw)
  }

  function Lowered(x: Outcomes, offset: real): Outcomes {
    Outcomes(x.home - offset, x.draw - offset, x.away - offset)
  }

  function Divided(x: Outcomes, temperature: real): Outcomes
    requires temperature != 0.0
  {
    Outcomes(Over(x.home, temperature), Over(x.draw, temperature), Over(x.away, temperature))
  }

  /** Sharpens or flattens one prediction by a temperature above zero. */
  function TemperatureScaled(n: ExpLog, p: Outcomes, temperature: real, floor: real): Outcomes
    requires IsExpLog(n) && temperature > 0.0
  {
    Softmax(n, Divided(Logs(n, p, floor), temperature))
  }

  datatype ScalingError = BadTemperature | BadFloor

  /** Scaling with its two checks. */
  function ScaledProbabilities(n: ExpLog, p: Outcomes, temperature: real, floor: real): (r: Result<Outcomes, ScalingError>)
    requires IsExpLog(n)
    ensures r.Success? <==> temperature > 0.0 && 0.0 < floor && 3.0 * floor < 1.0
    ensures r.Success? ==> Sum3(r.value) == 1.0 && forall o :: For(r.value, o) > 0.0
    ensures r.Failure? ==> r.error == if temperature <= 0.0 then BadTemperature else BadFloor
  {
    if temperature <= 0.0 then Failure(BadTemperature)
    else if !(0.0 < floor && 3.0 * floor < 1.0) then Failure(BadFloor)
    else
      ScaledIsPositive(n, p, temperature, floor);
      Success(TemperatureScaled(n, p, temperature, floor))
  }

  lemma ScaledIsPositive(n: ExpLog, p: Outcomes, temperature: real, floor: real)
    requires IsExpLog(n) && temperature > 0.0 && floor > 0.0
    ensures var q := TemperatureScaled(n, p, temperature, floor); Sum3(q) == 1.0 && forall o :: For(q, o) > 0.0
  {
    forall o
      ensures For(TemperatureScaled(n, p, temperature, floor), o) > 0.0
    {
      ScalingKeepsRanking(n, p, temperature, floor, o, o);
    }
  }

  /** One prediction with what happened. */
  datatype Graded = Graded(probabilities: Outcomes, actual: MatchOutcome)

  function LogLoss(n: ExpLog, g: Graded, temperature: real, floor: real): real
    requires IsExpLog(n) && temperature > 0.0
  {
    -n.log(Larger(For(TemperatureScaled(n, g.probabilities, temperature, floor), g.actual), floor))
  }

  // ---------------------------------------------------------------- the loss without floors

  function Scaled3(b: real, l: Outcomes): Outcomes {
    Outcomes(Times(b, l.home), Times(b, l.draw), Times(b, l.away))
  }

  /** The normaliser at an inverse temperature. */
  function Normaliser(n: ExpLog, l: Outcomes, b: real): real {
    Sum3(Exps(n, Scaled3(b, l)))
  }

  /** The log loss as a function of the inverse temperature. */
  function Smooth(n: ExpLog, l: Outcomes, actual: MatchOutcome, b: real): real {
    n.log(Normaliser(n, l, b)) - Times(b, For(l, actual))
  }

  /** Shifting every logit by the same offset changes no share. */
  lemma ShiftCancels(n: ExpLog, x: real, offset: real, s: real)
    requires IsExpLog(n) && s > 0.0
    ensures Times(n.exp(-offset), s) > 0.0
    ensures Over(n.exp(x - offset), Times(n.exp(-offset), s)) == Over(n.exp(x), s)
  {
    ExpSum(n, -offset, x);
    assert n.exp(x - offset) == Times(n.exp(-offset), n.exp(x));
    FactorCancels(n.exp(-offset), n.exp(x), s);
  }

  lemma ShiftedSum(n: ExpLog, x: Outcomes, offset: real)
    requires IsExpLog(n)
    ensures Sum3(Exps(n, Lowered(x, offset))) == Times(n.exp(-offset), Sum3(Exps(n, x)))
  {
    ExpSum(n, -offset, x.home);
    ExpSum(n, -offset, x.draw);
    ExpSum(n, -offset, x.away);
    assert n.exp(x.home - offset) == Times(n.exp(-offset), n.exp(x.home));
    assert n.exp(x.draw - offset) == Times(n.exp(-offset), n.exp(x.draw));
    assert n.exp(x.away - offset) == Times(n.exp(-offset), n.exp(x.away));
    ThreeTimes(n.exp(-offset), n.exp(x.home), n.exp(x.draw), n.exp(x.away));
  }

  lemma ThreeTimes(e: real, x: real, y: real, z: real)
    ensures Times(e, x + y + z) == Times(e, x) + Times(e, y) + Times(e, z)
  {
    Distributes(e, x, y);
    Distributes(e, x + y, z);
  }

  lemma SharesOfThree(x: real, y: real, z: real, s: real)
    requires s == x + y + z > 0.0
    ensures 1.0 - Over(x, s) - Over(y, s) == Over(z, s)
  {
    OverIsTimes(x, s);
    OverIsTimes(y, s);
    OverIsTimes(z, s);
    OverIsTimes(s, s);
    ThreeTimes(Over(1.0, s), x, y, z);
  }

  /** The greatest logit taken off each of them makes no difference. */
  lemma SoftmaxIsShare(n: ExpLog, x: Outcomes, actual: MatchOutcome)
    requires IsExpLog(n)
    ensures Sum3(Exps(n, x)) > 0.0
    ensures For(Softmax(n, x), actual) == Over(n.exp(For(x, actual)), Sum3(Exps(n, x)))
  {
    var offset := Larger(Larger(x.home, x.draw), x.away);
    var s := Sum3(Exps(n, x));
    ExpsPositive(n, x);
    ShiftedSum(n, x, offset);
    ShiftCancels(n, x.home, offset, s);
    ShiftCancels(n, x.draw, offset, s);
    SharesOfThree(n.exp(x.home), n.exp(x.draw), n.exp(x.away), s);
  }

  lemma DividedIsScaled(l: Outcomes, temperature: real)
    requires temperature > 0.0
    ensures Divided(l, temperature) == Scaled3(Over(1.0, temperature), l)
  {
    OverIsTimes(l.home, temperature);
    OverIsTimes(l.draw, temperature);
    OverIsTimes(l.away, temperature);
  }

  /** The scaled probability of any outcome is its share of the normaliser. */
  lemma ScaledIsShare(n: ExpLog, p: Outcomes, temperature: real, floor: real, actual: MatchOutcome)
    requires IsExpLog(n) && temperature > 0.0
    ensures var l, b := Logs(n, p, floor), Over(1.0, temperature);
      && Normaliser(n, l, b) > 0.0
      && For(TemperatureScaled(n, p, temperature, floor), actual)
         == Over(n.exp(Times(b, For(l, actual))), Normaliser(n, l, b))
  {
    var l := Logs(n, p, floor);
    SoftmaxIsShare(n, Divided(l, temperature), actual);
    DividedIsScaled(l, temperature);
  }

  lemma OverOrder(x: real, y: real, s: real)
    requires s > 0.0
    ensures Over(x, s) < Over(y, s) <==> x < y
  {
    OverPositive(1.0, s);
    OverIsTimes(x, s);
    OverIsTimes(y, s);
    KeepsOrder(Over(1.0, s), x, y);
  }

  /** Scaling yields a distribution of positive probabilities that ranks the outcomes as before. */
  lemma ScalingKeepsRanking(n: ExpLog, p: Outcomes, temperature: real, floor: real, x: MatchOutcome, y: MatchOutcome)
    requires IsExpLog(n) && temperature > 0.0 && floor > 0.0
    ensures var q := TemperatureScaled(n, p, temperature, floor);
      && Sum3(q) == 1.0 && For(q, x) > 0.0
      && (For(q, x) < For(q, y) <==> Larger(For(p, x), floor) < Larger(For(p, y), floor))
  {
    var l, b := Logs(n, p, floor), Over(1.0, temperature);
    var s := Normaliser(n, l, b);
    var u, v := Times(b, For(l, x)), Times(b, For(l, y));
    ScaledIsShare(n, p, temperature, floor, x);
    ScaledIsShare(n, p, temperature, floor, y);
    OverPositive(n.exp(u), s);
    OverOrder(n.exp(u), n.exp(v), s);
    LogOrder(n, n.exp(u), n.exp(v));
    assert n.log(n.exp(u)) == u && n.log(n.exp(v)) == v;
    OverPositive(1.0, temperature);
    KeepsOrder(b, For(l, x), For(l, y));
    LogOrder(n, Larger(For(p, x), floor), Larger(For(p, y), floor));
  }

  /** A temperature of one changes nothing above the floor. */
  lemma UnitTemperatureIsIdentity(n: ExpLog, p: Outcomes, floor: real)
    requires IsExpLog(n) && floor > 0.0 && Sum3(p) == 1.0
    requires p.home >= floor && p.draw >= floor && p.away >= floor
    ensures TemperatureScaled(n, p, 1.0, floor) == p
  {
    var l := Logs(n, p, floor);
    UnitDivides(l);
    LogsBack(n, p, floor);
    SoftmaxIsShare(n, l, HomeWin);
    SoftmaxIsShare(n, l, Draw);
    OverOneIsSame(p.home);
    OverOneIsSame(p.draw);
    assert TemperatureScaled(n, p, 1.0, floor) == Softmax(n, l);
  }

  lemma UnitDivides(l: Outcomes)
    ensures Divided(l, 1.0) == l
  {
    OverOneIsSame(l.home);
    OverOneIsSame(l.draw);
    OverOneIsSame(l.away);
  }

  lemma LogsBack(n: ExpLog, p: Outcomes, floor: real)
    requires IsExpLog(n) && floor > 0.0
    requires p.home >= floor && p.draw >= floor && p.away >= floor
    ensures Exps(n, Logs(n, p, floor)) == p
  {
    assert n.exp(n.log(p.home)) == p.home && n.exp(n.log(p.draw)) == p.draw && n.exp(n.log(p.away)) == p.away;
  }

  lemma OverOneIsSame(x: real)
    ensures Over(x, 1.0) == x
  {
  }

  lemma LogOfShare(n: ExpLog, x: real, s: real)
    requires IsExpLog(n) && s > 0.0
    ensures Over(n.exp(x), s) > 0.0 && n.log(Over(n.exp(x), s)) == x - n.log(s)
  {
    var share := Over(n.exp(x), s);
    OverPositive(n.exp(x), s);
    OverIsTimes(n.exp(x), s);
    Commutes(s, share);
    LogProduct(n, n.log(share), s);
    assert n.exp(n.log(share)) == share;
    assert n.log(n.exp(x)) == x;
  }

  /** Where the floor is not reached the loss is the smooth one. */
  lemma LossIsSmooth(n: ExpLog, g: Graded, temperature: real, floor: real)
    requires IsExpLog(n) && temperature > 0.0 && floor > 0.0
    ensures var smooth := Smooth(n, Logs(n, g.probabilities, floor), g.actual, Over(1.0, temperature));
      && (For(TemperatureScaled(n, g.probabilities, temperature, floor), g.actual) >= floor <==> -smooth >= n.log(floor))
      && (-smooth >= n.log(floor) ==> LogLoss(n, g, temperature, floor) == smooth)
  {
    var l, b := Logs(n, g.probabilities, floor), Over(1.0, temperature);
    var share := For(TemperatureScaled(n, g.probabilities, temperature, floor), g.actual);
    ScaledIsShare(n, g.probabilities, temperature, floor, g.actual);
    LogOfShare(n, Times(b, For(l, g.actual)), Normaliser(n, l, b));
    LogOrder(n, share, floor);
  }

  // ---------------------------------------------------------------- convexity

  function WeightedSum(w: Outcomes, l: Outcomes): real {
    Times(w.home, l.home) + Times(w.draw, l.draw) + Times(w.away, l.away)
  }

  /** The mean log probability under the shares at an inverse temperature. */
  function MeanLog(n: ExpLog, l: Outcomes, b: real): real
    requires IsExpLog(n)
  {
    var w := Exps(n, Scaled3(b, l));
    ExpsPositive(n, Scaled3(b, l));
    Over(WeightedSum(w, l), Sum3(w))
  }

  predicate Uneven(l: Outcomes) {
    l.home != l.draw || l.draw != l.away
  }

  /** One term of the normaliser at another inverse temperature, against its tangent. */
  lemma TermAboveTangent(n: ExpLog, l: real, b: real, c: real, m: real)
    requires IsExpLog(n)
    ensures var w, y := n.exp(Times(b, l)), Times(c - b, l);
      && n.exp(Times(c, l)) >= Times(n.exp(m), w + Times(w, y) - Times(w, m))
      && (y != m ==> n.exp(Times(c, l)) > Times(n.exp(m), w + Times(w, y) - Times(w, m)))
  {
    var w, y := n.exp(Times(b, l)), Times(c - b, l);
    DistributesMinus(l, c, b);
    ExpSum(n, Times(b, l), y);
    assert n.exp(Times(c, l)) == Times(w, n.exp(y));
    ExpAboveTangent(n, y, m);
    KeepsOrder(w, Times(n.exp(m), 1.0 + (y - m)), n.exp(y));
    TangentScaled(w, n.exp(m), y, m);
  }

  lemma TangentScaled(w: real, e: real, y: real, m: real)
    ensures Times(w, Times(e, 1.0 + (y - m))) == Times(e, w + Times(w, y) - Times(w, m))
  {
  }

  /** The three tangents add up to the tangent of the sum. */
  lemma TangentsAdd(e: real, w: Outcomes, y: Outcomes, m: real)
    requires WeightedSum(w, y) == Times(m, Sum3(w))
    ensures Times(e, w.home + Times(w.home, y.home) - Times(w.home, m))
          + Times(e, w.draw + Times(w.draw, y.draw) - Times(w.draw, m))
          + Times(e, w.away + Times(w.away, y.away) - Times(w.away, m)) == Times(e, Sum3(w))
  {
    var a := w.home + Times(w.home, y.home) - Times(w.home, m);
    var b := w.draw + Times(w.draw, y.draw) - Times(w.draw, m);
    var c := w.away + Times(w.away, y.away) - Times(w.away, m);
    ThreeTimes(m, w.home, w.draw, w.away);
    Commutes(m, w.home);
    Commutes(m, w.draw);
    Commutes(m, w.away);
    ThreeTimes(e, a, b, c);
  }

  lemma SumStep(w: Outcomes, l: Outcomes, d: real)
    ensures WeightedSum(w, Scaled3(d, l)) == Times(d, WeightedSum(w, l))
  {
    SwapIn(w.home, d, l.home);
    SwapIn(w.draw, d, l.draw);
    SwapIn(w.away, d, l.away);
    ThreeTimes(d, Times(w.home, l.home), Times(w.draw, l.draw), Times(w.away, l.away));
  }

  /** Moving every log by the same step moves the mean by the step times the mean. */
  lemma StepOfMean(n: ExpLog, l: Outcomes, b: real, d: real)
    requires IsExpLog(n)
    ensures var w := Exps(n, Scaled3(b, l));
      WeightedSum(w, Scaled3(d, l)) == Times(Times(d, MeanLog(n, l, b)), Sum3(w))
  {
    var w := Exps(n, Scaled3(b, l));
    ExpsPositive(n, Scaled3(b, l));
    SumStep(w, l, d);
    MeanTimesSum(WeightedSum(w, l), Sum3(w), d);
  }

  lemma MeanTimesSum(top: real, s: real, d: real)
    requires s > 0.0
    ensures Times(Times(d, Over(top, s)), s) == Times(d, top)
  {
    OverIsTimes(top, s);
    Commutes(s, Over(top, s));
    Associates(d, Over(top, s), s);
  }

  lemma SwapIn(w: real, d: real, l: real)
    ensures Times(w, Times(d, l)) == Times(d, Times(w, l))
  {
  }

  /** The log of the normaliser lies above each of its tangents, strictly for uneven logs. */
  lemma NormaliserAboveTangent(n: ExpLog, l: Outcomes, b: real, c: real)
    requires IsExpLog(n) && b != c
    ensures Normaliser(n, l, b) > 0.0 && Normaliser(n, l, c) > 0.0
    ensures n.log(Normaliser(n, l, c)) >= n.log(Normaliser(n, l, b)) + Times(c - b, MeanLog(n, l, b))
    ensures Uneven(l) ==> n.log(Normaliser(n, l, c)) > n.log(Normaliser(n, l, b)) + Times(c - b, MeanLog(n, l, b))
  {
    var d, s, t := c - b, Normaliser(n, l, b), Normaliser(n, l, c);
    var m := Times(d, MeanLog(n, l, b));
    ExpsPositive(n, Scaled3(b, l));
    ExpsPositive(n, Scaled3(c, l));
    SumAboveTangent(n, l, b, c);
    Positive(n.exp(m), s);
    LogProduct(n, m, s);
    LogOrder(n, Times(n.exp(m), s), t);
    LogOrder(n, t, Times(n.exp(m), s));
  }

  lemma SumAboveTangent(n: ExpLog, l: Outcomes, b: real, c: real)
    requires IsExpLog(n) && b != c
    ensures var below := Times(n.exp(Times(c - b, MeanLog(n, l, b))), Normaliser(n, l, b));
      Normaliser(n, l, c) >= below && (Uneven(l) ==> Normaliser(n, l, c) > below)
  {
    var d := c - b;
    var m := Times(d, MeanLog(n, l, b));
    TermAboveTangent(n, l.home, b, c, m);
    TermAboveTangent(n, l.draw, b, c, m);
    TermAboveTangent(n, l.away, b, c, m);
    StepOfMean(n, l, b, d);
    TangentsAdd(n.exp(m), Exps(n, Scaled3(b, l)), Scaled3(d, l), m);
    if Uneven(l) {
      UnevenSteps(l, d);
    }
  }

  lemma UnevenSteps(l: Outcomes, d: real)
    requires Uneven(l) && d != 0.0
    ensures Uneven(Scaled3(d, l))
  {
    DistributesMinus(d, l.home, l.draw);
    DistributesMinus(d, l.draw, l.away);
    NonZero(d, l.home - l.draw);
    NonZero(d, l.draw - l.away);
  }

  lemma NonZero(x: real, y: real)
    requires x != 0.0
    ensures Times(x, y) == 0.0 <==> y == 0.0
  {
  }

  /** The slope of the smooth loss. */
  function Slope(n: ExpLog, l: Outcomes, actual: MatchOutcome, b: real): real
    requires IsExpLog(n)
  {
    MeanLog(n, l, b) - For(l, actual)
  }

  /** The smooth loss is convex in the inverse temperature, strictly for uneven logs. */
  lemma SmoothAboveTangent(n: ExpLog, l: Outcomes, actual: MatchOutcome, b: real, c: real)
    requires IsExpLog(n) && b != c
    ensures Smooth(n, l, actual, c) >= Smooth(n, l, actual, b) + Times(c - b, Slope(n, l, actual, b))
    ensures Uneven(l) ==> Smooth(n, l, actual, c) > Smooth(n, l, actual, b) + Times(c - b, Slope(n, l, actual, b))
  {
    NormaliserAboveTangent(n, l, b, c);
    DistributesMinus(c - b, MeanLog(n, l, b), For(l, actual));
    DistributesMinus(For(l, actual), c, b);
  }

  lemma SignOfStep(d: real, g: real)
    ensures d > 0.0 && g >= 0.0 ==> Times(d, g) >= 0.0
    ensures d < 0.0 && g <= 0.0 ==> Times(d, g) >= 0.0
  {
  }

  /** Between two inverse temperatures the smooth loss is no higher than at the worse of them. */
  lemma SmoothBelowEnds(n: ExpLog, l: Outcomes, actual: MatchOutcome, low: real, b: real, high: real)
    requires IsExpLog(n) && low <= b <= high
    ensures Smooth(n, l, actual, b) <= Smooth(n, l, actual, low) || Smooth(n, l, actual, b) <= Smooth(n, l, actual, high)
  {
    var g := Slope(n, l, actual, b);
    SignOfStep(high - b, g);
    SignOfStep(low - b, g);
    if low < b < high {
      SmoothAboveTangent(n, l, actual, b, high);
      SmoothAboveTangent(n, l, actual, b, low);
    }
  }

  /** Equal logs make the smooth loss the same at every temperature. */
  lemma EvenIsFlat(n: ExpLog, l: Outcomes, actual: MatchOutcome, b: real)
    requires IsExpLog(n) && !Uneven(l)
    ensures Smooth(n, l, actual, b) == n.log(3.0)
  {
    var x := Times(b, l.home);
    Distributes(n.exp(x), 1.0, 1.0);
    Distributes(n.exp(x), 2.0, 1.0);
    ZeroAndOne(n.exp(x));
    LogProduct(n, x, 3.0);
  }
}

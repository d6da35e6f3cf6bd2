/** Which way a temperature moves when the predictions that can tell were right, and when they were wrong. */
module FitDirection {
  import opened Algebra
  import opened Fixtures
  import opened ScoreGrid
  import opened GoldenSection
  import opened Temperature
  import opened TemperatureFit

  /** One outcome is likelier than the two others, and those are equally likely. */
  predicate Leans(l: Outcomes, favoured: MatchOutcome) {
    match favoured
    case HomeWin => l.draw == l.away < l.home
    case Draw => l.home == l.away < l.draw
    case AwayWin => l.home == l.draw < l.away
  }

  function Least(l: Outcomes): real {
    if l.home <= l.draw && l.home <= l.away then l.home else if l.draw <= l.away then l.draw else l.away
  }

  lemma LeansToMost(l: Outcomes, favoured: MatchOutcome, o: MatchOutcome)
    requires Leans(l, favoured)
    ensures For(l, o) == if o == favoured then For(l, favoured) else Least(l)
    ensures Least(l) < For(l, favoured) && Uneven(l)
  {
  }

  // ---------------------------------------------------------------- the slope of a leaning row

  /** A weighted sum of values up to a greatest one that not all reach. */
  lemma WeightedBelow(w: Outcomes, l: Outcomes, top: real)
    requires w.home > 0.0 && w.draw > 0.0 && w.away > 0.0
    requires l.home <= top && l.draw <= top && l.away <= top && (l.home < top || l.draw < top || l.away < top)
    ensures WeightedSum(w, l) < Times(top, Sum3(w))
  {
    KeepsOrder(w.home, l.home, top);
    KeepsOrder(w.draw, l.draw, top);
    KeepsOrder(w.away, l.away, top);
    ThreeTimes(top, w.home, w.draw, w.away);
    Commutes(top, w.home);
    Commutes(top, w.draw);
    Commutes(top, w.away);
  }

  lemma WeightedAbove(w: Outcomes, l: Outcomes, bottom: real)
    requires w.home > 0.0 && w.draw > 0.0 && w.away > 0.0
    requires bottom <= l.home && bottom <= l.draw && bottom <= l.away
    requires bottom < l.home || bottom < l.draw || bottom < l.away
    ensures Times(bottom, Sum3(w)) < WeightedSum(w, l)
  {
    KeepsOrder(w.home, bottom, l.home);
    KeepsOrder(w.draw, bottom, l.draw);
    KeepsOrder(w.away, bottom, l.away);
    ThreeTimes(bottom, w.home, w.draw, w.away);
    Commutes(bottom, w.home);
    Commutes(bottom, w.draw);
    Commutes(bottom, w.away);
  }

  /** The mean log lies strictly between the two values of a leaning row. */
  lemma MeanBetween(n: ExpLog, l: Outcomes, favoured: MatchOutcome, b: real)
    requires IsExpLog(n) && Leans(l, favoured)
    ensures Least(l) < MeanLog(n, l, b) < For(l, favoured)
  {
    var w := Exps(n, Scaled3(b, l));
    var top, bottom, s, m := For(l, favoured), Least(l), Sum3(w), MeanLog(n, l, b);
    WeightedBelow(w, l, top);
    WeightedAbove(w, l, bottom);
    OverIsTimes(WeightedSum(w, l), s);
    Commutes(s, top);
    Commutes(s, bottom);
    KeepsOrder(s, m, top);
    KeepsOrder(s, bottom, m);
  }

  /** A sharper prediction loses less if it was right and more if it was wrong. */
  lemma SharperIsBolder(n: ExpLog, l: Outcomes, favoured: MatchOutcome, actual: MatchOutcome, b: real, c: real)
    requires IsExpLog(n) && Leans(l, favoured) && b < c
    ensures if actual == favoured then Smooth(n, l, actual, c) < Smooth(n, l, actual, b)
            else Smooth(n, l, actual, b) < Smooth(n, l, actual, c)
  {
    LeansToMost(l, favoured, actual);
    if actual == favoured {
      MeanBetween(n, l, favoured, c);
      SmoothAboveTangent(n, l, actual, c, b);
      SignOfStep(b - c, Slope(n, l, actual, c));
    } else {
      MeanBetween(n, l, favoured, b);
      SmoothAboveTangent(n, l, actual, b, c);
      SignOfStep(c - b, Slope(n, l, actual, b));
    }
  }

  // ---------------------------------------------------------------- far from the floor

  /** How much likelier the favoured outcome is, in logs. */
  function Gap(l: Outcomes, favoured: MatchOutcome): real {
    For(l, favoured) - Least(l)
  }

  /** Even at the lowest temperature the least likely outcome keeps a share above the floor. */
  predicate Mild(n: ExpLog, l: Outcomes, favoured: MatchOutcome, p: Parameters)
    requires 0.0 < p.minimum && 0.0 < p.floor
  {
    Leans(l, favoured) && n.exp(Times(Over(1.0, p.minimum), Gap(l, favoured))) + 2.0 <= Over(1.0, p.floor)
  }

  lemma TwoAndOne(e: real, r: real)
    ensures Times(e, r + 2.0) == Times(r, e) + e + e
  {
  }

  lemma ThreeOf(l: Outcomes, favoured: MatchOutcome, n: ExpLog, b: real)
    requires Leans(l, favoured)
    ensures Normaliser(n, l, b) == n.exp(Times(b, For(l, favoured))) + n.exp(Times(b, Least(l))) + n.exp(Times(b, Least(l)))
  {
  }

  /** The normaliser in terms of the gap. */
  lemma NormaliserOfGap(n: ExpLog, low: real, gap: real, high: real, normaliser: real)
    requires IsExpLog(n) && high == gap + low && normaliser == n.exp(high) + n.exp(low) + n.exp(low)
    ensures n.log(normaliser) == low + n.log(n.exp(gap) + 2.0)
  {
    ExpSum(n, gap, low);
    TwoAndOne(n.exp(low), n.exp(gap));
    LogProduct(n, low, n.exp(gap) + 2.0);
  }

  /** The loss of the least likely outcome depends on the gap alone. */
  lemma LeastLoss(n: ExpLog, l: Outcomes, favoured: MatchOutcome, actual: MatchOutcome, b: real)
    requires IsExpLog(n) && Leans(l, favoured) && actual != favoured
    ensures Smooth(n, l, actual, b) == n.log(n.exp(Times(b, Gap(l, favoured))) + 2.0)
  {
    LeansToMost(l, favoured, actual);
    DistributesMinus(b, For(l, favoured), Least(l));
    ThreeOf(l, favoured, n, b);
    NormaliserOfGap(n, Times(b, Least(l)), Times(b, Gap(l, favoured)), Times(b, For(l, favoured)), Normaliser(n, l, b));
  }

  lemma LogOfInverse(n: ExpLog, x: real)
    requires IsExpLog(n) && x > 0.0
    ensures Over(1.0, x) > 0.0 && n.log(Over(1.0, x)) == -n.log(x)
  {
    OverPositive(1.0, x);
    OverIsTimes(1.0, x);
    var y := n.log(x);
    LogProduct(n, y, Over(1.0, x));
    assert n.exp(y) == x && n.log(n.exp(0.0)) == 0.0;
  }

  /** A mild row reaches no floor at any temperature of the bracket, whatever happened. */
  lemma MildIsClear(n: ExpLog, g: Graded, favoured: MatchOutcome, p: Parameters, temperature: real)
    requires p.Usable(n) && Mild(n, GradedLogs(n, g, p.floor), favoured, p) && temperature >= p.minimum
    ensures Clear(n, g, temperature, p.floor)
  {
    var l, b, most := GradedLogs(n, g, p.floor), Over(1.0, temperature), Over(1.0, p.minimum);
    var other := if favoured == Draw then HomeWin else Draw;
    LeansToMost(l, favoured, g.actual);
    if temperature > p.minimum {
      InverseFalls(p.minimum, temperature);
    } else {
      OverPositive(1.0, p.minimum);
    }
    if b < most {
      SharperIsBolder(n, l, favoured, other, b, most);
    }
    LeastLoss(n, l, favoured, other, most);
    LogOfInverse(n, p.floor);
    LogOrder(n, Over(1.0, p.floor), n.exp(Times(most, Gap(l, favoured))) + 2.0);
    LeastIsWorst(n, l, favoured, g.actual, other, b);
    LossIsSmooth(n, g, temperature, p.floor);
  }

  lemma LeastIsWorst(n: ExpLog, l: Outcomes, favoured: MatchOutcome, actual: MatchOutcome, other: MatchOutcome, b: real)
    requires Leans(l, favoured) && other != favoured && b > 0.0
    ensures Smooth(n, l, actual, b) <= Smooth(n, l, other, b)
  {
    LeansToMost(l, favoured, actual);
    LeansToMost(l, favoured, other);
    KeepsOrder(b, Least(l), For(l, favoured));
  }

  // ---------------------------------------------------------------- populations

  /** Every row that can tell leaned to what happened, mildly. */
  ghost predicate AllRight(n: ExpLog, rows: seq<Graded>, p: Parameters)
    requires 0.0 < p.minimum && 0.0 < p.floor
  {
    forall g :: g in rows && UnevenRow(n, g, p.floor) ==> Mild(n, GradedLogs(n, g, p.floor), g.actual, p)
  }

  /** The row leaned to something that did not happen. */
  ghost predicate WrongRow(n: ExpLog, g: Graded, p: Parameters)
    requires 0.0 < p.minimum && 0.0 < p.floor
  {
    exists o :: o != g.actual && Mild(n, GradedLogs(n, g, p.floor), o, p)
  }

  /** A population of one row that leaned to something that did not happen. */
  lemma OnlyWrong(n: ExpLog, rows: seq<Graded>, wrong: Graded, favoured: MatchOutcome, p: Parameters)
    requires p.Usable(n) && wrong in rows && (forall g :: g in rows ==> g == wrong)
    requires Mild(n, GradedLogs(n, wrong, p.floor), favoured, p) && wrong.actual != favoured
    ensures AllWrong(n, rows, p) && AnyUneven(n, rows, p.floor)
  {
    LeansToMost(GradedLogs(n, wrong, p.floor), favoured, favoured);
    assert WrongRow(n, wrong, p) && UnevenRow(n, wrong, p.floor);
  }

  ghost predicate AllWrong(n: ExpLog, rows: seq<Graded>, p: Parameters)
    requires 0.0 < p.minimum && 0.0 < p.floor
  {
    forall g :: g in rows && UnevenRow(n, g, p.floor) ==> WrongRow(n, g, p)
  }

  /** The loss of a mild row at two temperatures of the bracket. */
  lemma MildLoss(n: ExpLog, g: Graded, favoured: MatchOutcome, p: Parameters, x: real, y: real)
    requires p.Usable(n) && Mild(n, GradedLogs(n, g, p.floor), favoured, p) && p.minimum <= x < y
    ensures if g.actual == favoured then LogLoss(n, g, x, p.floor) < LogLoss(n, g, y, p.floor)
            else LogLoss(n, g, y, p.floor) < LogLoss(n, g, x, p.floor)
  {
    var l := GradedLogs(n, g, p.floor);
    InverseFalls(x, y);
    SharperIsBolder(n, l, favoured, g.actual, Over(1.0, y), Over(1.0, x));
    MildIsClear(n, g, favoured, p, x);
    MildIsClear(n, g, favoured, p, y);
    LossIsSmooth(n, g, x, p.floor);
    LossIsSmooth(n, g, y, p.floor);
  }

  ghost predicate LosesNoMore(n: ExpLog, g: Graded, x: real, y: real, floor: real)
    requires IsExpLog(n) && x > 0.0 && y > 0.0
  {
    LogLoss(n, g, x, floor) <= LogLoss(n, g, y, floor)
  }

  /** Row by row no more is lost, so no more is lost in all. */
  lemma {:induction false} SumLosesNoMore(n: ExpLog, rows: seq<Graded>, x: real, y: real, floor: real)
    requires IsExpLog(n) && x > 0.0 && y > 0.0
    requires forall g :: g in rows ==> LosesNoMore(n, g, x, y, floor)
    ensures LossSum(n, rows, x, floor) <= LossSum(n, rows, y, floor)
    ensures forall g :: g in rows && !LosesNoMore(n, g, y, x, floor) ==> LossSum(n, rows, x, floor) < LossSum(n, rows, y, floor)
    decreases |rows|
  {
    if rows != [] {
      var init, last := rows[..|rows| - 1], rows[|rows| - 1];
      assert rows == init + [last];
      SumLosesNoMore(n, init, x, y, floor);
      assert LosesNoMore(n, last, x, y, floor);
    }
  }

  lemma RightLosesNoMore(n: ExpLog, rows: seq<Graded>, p: Parameters, x: real, y: real)
    requires rows != [] && p.Usable(n) && AllRight(n, rows, p) && p.minimum <= x < y
    ensures MeanLogLoss(n, rows, x, p.floor) <= MeanLogLoss(n, rows, y, p.floor)
  {
    forall g | g in rows
      ensures LosesNoMore(n, g, x, y, p.floor)
    {
      if UnevenRow(n, g, p.floor) {
        MildLoss(n, g, g.actual, p, x, y);
      } else {
        EvenIsClear(n, g, x, p.floor);
        EvenIsClear(n, g, y, p.floor);
      }
    }
    SumLosesNoMore(n, rows, x, y, p.floor);
    MeanOrder(n, rows, p.floor, y, x);
  }

  lemma WrongLosesMore(n: ExpLog, rows: seq<Graded>, p: Parameters, x: real, y: real)
    requires rows != [] && p.Usable(n) && AllWrong(n, rows, p) && AnyUneven(n, rows, p.floor) && p.minimum <= x < y
    ensures MeanLogLoss(n, rows, y, p.floor) < MeanLogLoss(n, rows, x, p.floor)
  {
    forall g | g in rows
      ensures LosesNoMore(n, g, y, x, p.floor)
      ensures UnevenRow(n, g, p.floor) ==> !LosesNoMore(n, g, x, y, p.floor)
    {
      if UnevenRow(n, g, p.floor) {
        var o :| o != g.actual && Mild(n, GradedLogs(n, g, p.floor), o, p);
        MildLoss(n, g, o, p, x, y);
      } else {
        EvenIsClear(n, g, x, p.floor);
        EvenIsClear(n, g, y, p.floor);
      }
    }
    SumLosesNoMore(n, rows, y, x, p.floor);
    MeanOrder(n, rows, p.floor, y, x);
  }

  /** Right predictions make the objective rise all the way. */
  lemma RightRises(n: ExpLog, rows: seq<Graded>, p: Parameters, f: Objective)
    requires rows != [] && p.Usable(n) && IsLoss(f, n, rows, p.floor) && AllRight(n, rows, p)
    ensures NeverFalls(f, p.Logarithms(n))
  {
    var b := p.Logarithms(n);
    forall x, y | b.Holds(x) && b.Holds(y) && x < y
      ensures NoHigher(f, x, y)
    {
      InBracket(n, p, x);
      ExpRises(n, x, y);
      RightLosesNoMore(n, rows, p, n.exp(x), n.exp(y));
      assert LossAt(f, n, rows, p.floor, x) && LossAt(f, n, rows, p.floor, y);
    }
  }

  /** Wrong ones make it fall all the way. */
  lemma WrongFalls(n: ExpLog, rows: seq<Graded>, p: Parameters, f: Objective)
    requires rows != [] && p.Usable(n) && IsLoss(f, n, rows, p.floor)
    requires AllWrong(n, rows, p) && AnyUneven(n, rows, p.floor)
    ensures AlwaysFalls(f, p.Logarithms(n))
  {
    var b := p.Logarithms(n);
    forall x, y | b.Holds(x) && b.Holds(y) && x < y
      ensures Higher(f, x, y)
    {
      InBracket(n, p, x);
      ExpRises(n, x, y);
      WrongLosesMore(n, rows, p, n.exp(x), n.exp(y));
      assert LossAt(f, n, rows, p.floor, x) && LossAt(f, n, rows, p.floor, y);
    }
  }

  /** Predictions that were right are sharpened, the same predictions proved wrong are flattened. */
  lemma RightAndWrongDiffer(n: ExpLog, right: seq<Graded>, wrong: seq<Graded>, p: Parameters)
    requires right != [] && wrong != [] && p.Usable(n) && p.iterations > 0
    requires AllRight(n, right, p) && AllWrong(n, wrong, p) && AnyUneven(n, wrong, p.floor)
    ensures FittedLog(n, right, p) < FittedLog(n, wrong, p)
  {
    var f, g, b := LossObjective(n, right, p.floor), LossObjective(n, wrong, p.floor), p.Logarithms(n);
    InBracket(n, p, 0.0);
    ObjectiveIsLoss(n, right, p.floor);
    ObjectiveIsLoss(n, wrong, p.floor);
    RightRises(n, right, p, f);
    WrongFalls(n, wrong, p, g);
    OppositeEnds(f, g, b, p.ratio, p.iterations);
  }

  // ---------------------------------------------------------------- temperatures show

  /** The log odds of two outcomes after scaling. */
  lemma ScaledOdds(n: ExpLog, q: Outcomes, temperature: real, floor: real, x: MatchOutcome, y: MatchOutcome)
    requires IsExpLog(n) && temperature > 0.0
    ensures var l, s := Logs(n, q, floor), TemperatureScaled(n, q, temperature, floor);
      n.log(For(s, x)) - n.log(For(s, y)) == Times(Over(1.0, temperature), For(l, x) - For(l, y))
  {
    var l, b := Logs(n, q, floor), Over(1.0, temperature);
    ScaledIsShare(n, q, temperature, floor, x);
    ScaledIsShare(n, q, temperature, floor, y);
    LogOfShare(n, Times(b, For(l, x)), Normaliser(n, l, b));
    LogOfShare(n, Times(b, For(l, y)), Normaliser(n, l, b));
    DistributesMinus(b, For(l, x), For(l, y));
  }

  /** Two temperatures scale a leaning vector differently. */
  lemma TemperaturesShow(n: ExpLog, q: Outcomes, favoured: MatchOutcome, floor: real, t: real, u: real)
    requires IsExpLog(n) && 0.0 < t < u && Leans(Logs(n, q, floor), favoured)
    ensures TemperatureScaled(n, q, t, floor) != TemperatureScaled(n, q, u, floor)
  {
    var l := Logs(n, q, floor);
    var other := if favoured == Draw then HomeWin else Draw;
    LeansToMost(l, favoured, other);
    ScaledOdds(n, q, t, floor, favoured, other);
    ScaledOdds(n, q, u, floor, favoured, other);
    var gap := For(l, favoured) - For(l, other);
    InverseFalls(t, u);
    KeepsOrder(gap, Over(1.0, u), Over(1.0, t));
    Commutes(gap, Over(1.0, u));
    Commutes(gap, Over(1.0, t));
  }

  // ---------------------------------------------------------------- mild vectors

  function Leaning(favoured: MatchOutcome, high: real, low: real): (q: Outcomes)
    ensures For(q, favoured) == high && forall o :: o != favoured ==> For(q, o) == low
    ensures Sum3(q) == high + low + low
  {
    match favoured
    case HomeWin => Outcomes(high, low, low)
    case Draw => Outcomes(low, high, low)
    case AwayWin => Outcomes(low, low, high)
  }

  /** A leaning vector has leaning logs under any floor below the favoured probability. */
  lemma LeaningLogs(n: ExpLog, favoured: MatchOutcome, high: real, low: real, floor: real)
    requires IsExpLog(n) && 0.0 < low < high && 0.0 < floor < high
    ensures var l := Logs(n, Leaning(favoured, high, low), floor);
      && Leans(l, favoured) && For(l, favoured) == n.log(high) && Least(l) == n.log(Larger(low, floor))
  {
    LogOrder(n, Larger(low, floor), high);
  }

  /** The gap of a vector whose favoured outcome is e to the x times as likely. */
  lemma GapOf(n: ExpLog, x: real, high: real, low: real)
    requires IsExpLog(n) && low > 0.0 && high == Times(n.exp(x), low)
    ensures high > 0.0 && n.log(high) - n.log(low) == x
  {
    Positive(n.exp(x), low);
    LogProduct(n, x, low);
  }

  /** A lean small enough for the floor and the lowest temperature. */
  lemma SmallLean(n: ExpLog, p: Parameters) returns (x: real)
    requires p.Usable(n)
    ensures n.exp(x) > 1.0 && n.exp(x) + 2.0 <= Over(1.0, p.floor)
    ensures n.exp(Times(Over(1.0, p.minimum), x)) + 2.0 <= Over(1.0, p.floor)
  {
    var k := Over(1.0, p.floor) - 2.0;
    RoomAbove(p.floor);
    var y := n.log(k);
    LogOrder(n, 1.0, k);
    assert n.log(n.exp(0.0)) == 0.0 && n.exp(y) == k;
    var m := if p.minimum < 1.0 then p.minimum else 1.0;
    x := Times(m, y);
    SmallSteps(p.minimum, m, y);
    ExpNotBelow(n, x, y);
    ExpNotBelow(n, Times(Over(1.0, p.minimum), x), y);
  }

  lemma RoomAbove(floor: real)
    requires 0.0 < floor && 3.0 * floor < 1.0
    ensures Over(1.0, floor) > 3.0
  {
    OverIsTimes(1.0, floor);
    KeepsOrder(floor, 3.0, Over(1.0, floor));
  }

  lemma SmallSteps(minimum: real, m: real, y: real)
    requires 0.0 < m <= 1.0 && m <= minimum && y > 0.0
    ensures 0.0 < Times(m, y) <= y
    ensures Times(Over(1.0, minimum), Times(m, y)) <= y
  {
    Positive(m, y);
    KeepsOrder(y, m, 1.0);
    Commutes(m, y);
    ZeroAndOne(y);
    var u := Over(1.0, minimum);
    OverPositive(1.0, minimum);
    OverIsTimes(1.0, minimum);
    KeepsOrder(u, m, minimum);
    Commutes(u, minimum);
    Associates(u, m, y);
    KeepsOrder(y, Times(u, m), 1.0);
    Commutes(Times(u, m), y);
  }

  lemma ExpNotBelow(n: ExpLog, x: real, y: real)
    requires IsExpLog(n) && x <= y
    ensures n.exp(x) <= n.exp(y) && (x > 0.0 ==> n.exp(x) > 1.0)
  {
    if x < y {
      ExpRises(n, x, y);
    }
  }

  /** The two probabilities of a vector that leans by a factor. */
  lemma TwoShares(e: real, floor: real) returns (high: real, low: real)
    requires e > 1.0 && 0.0 < floor && e + 2.0 <= Over(1.0, floor)
    ensures high == Times(e, low) && high + low + low == 1.0 && floor <= low < high && 3.0 * high > 1.0
  {
    var s := e + 2.0;
    high, low := Over(e, s), Over(1.0, s);
    OverIsTimes(e, s);
    OverIsTimes(s, s);
    Commutes(low, e);
    TwoAndOne(low, e);
    OverPositive(1.0, s);
    KeepsOrder(low, 1.0, e);
    ZeroAndOne(low);
    InverseTwice(floor);
    if s < Over(1.0, floor) {
      InverseFalls(s, Over(1.0, floor));
    }
  }

  /** Whatever the bounds and the floor, some distribution leans to an outcome and stays clear of the floor. */
  lemma MildExists(n: ExpLog, p: Parameters, favoured: MatchOutcome) returns (q: Outcomes)
    requires p.Usable(n)
    ensures Sum3(q) == 1.0 && forall o :: For(q, o) > 0.0
    ensures Mild(n, Logs(n, q, p.floor), favoured, p) && Leans(Logs(n, q, PROBABILITY_FLOOR), favoured)
  {
    var x := SmallLean(n, p);
    var high, low := TwoShares(n.exp(x), p.floor);
    q := Leaning(favoured, high, low);
    LeaningLogs(n, favoured, high, low, p.floor);
    LeaningLogs(n, favoured, high, low, PROBABILITY_FLOOR);
    GapOf(n, x, high, low);
  }

  /** One half against two quarters is mild under the default bounds and floor. */
  lemma HalfIsMild(n: ExpLog, p: Parameters)
    requires p.Usable(n) && p.minimum == MINIMUM_TEMPERATURE && p.floor == PROBABILITY_FLOOR
    ensures Mild(n, Logs(n, Outcomes(0.25, 0.5, 0.25), p.floor), Draw, p)
  {
    var q := Outcomes(0.25, 0.5, 0.25);
    LeaningLogs(n, Draw, 0.5, 0.25, p.floor);
    assert Leaning(Draw, 0.5, 0.25) == q;
    var x := n.log(2.0);
    assert n.exp(x) == 2.0 && Times(2.0, 0.25) == 0.5;
    GapOf(n, x, 0.5, 0.25);
    InverseOfQuarter();
    FourthPower(n, 2.0);
    assert Times(Times(2.0, 2.0), Times(2.0, 2.0)) == 16.0;
    OverIsTimes(1.0, p.floor);
    KeepsOrder(p.floor, 18.0, Over(1.0, p.floor));
  }

  // ---------------------------------------------------------------- populations that cannot tell

  /** Even predictions get one temperature, whatever happened. */
  lemma LevelFits(n: ExpLog, rows: seq<Graded>, p: Parameters)
    requires rows != [] && p.Usable(n) && !AnyUneven(n, rows, p.floor)
    ensures FittedLog(n, rows, p) == p.Logarithms(n).lower + Precision(p.ratio, p.Logarithms(n), p.iterations)
  {
    var f, b := LossObjective(n, rows, p.floor), p.Logarithms(n);
    InBracket(n, p, 0.0);
    ObjectiveIsLoss(n, rows, p.floor);
    LossDefined(n, rows, p, f);
    Level(n, rows, p, f);
    GoldenPrecision(b, p.ratio, p.iterations);
    FlatGoesToLowerEnd(f, Share(p.ratio), b, p.iterations);
  }
}

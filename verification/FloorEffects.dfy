/** What a probability floor does to scaling and to the search for a temperature. */
module FloorEffects {
  import opened Algebra
  import opened Fixtures
  import opened ScoreGrid
  import opened GoldenSection
  import opened Temperature
  import opened TemperatureFit
  import opened FitDirection

  // ---------------------------------------------------------------- two floors

  /** A floor between the two values of a leaning vector changes what scaling gives. */
  lemma FloorsShow(n: ExpLog, favoured: MatchOutcome, high: real, low: real, temperature: real, floor: real, less: real)
    requires IsExpLog(n) && temperature > 0.0 && 0.0 < low < floor < high && 0.0 < less < floor
    ensures var q := Leaning(favoured, high, low);
      TemperatureScaled(n, q, temperature, floor) != TemperatureScaled(n, q, temperature, less)
  {
    var q := Leaning(favoured, high, low);
    var other := if favoured == Draw then HomeWin else Draw;
    LeaningLogs(n, favoured, high, low, floor);
    LeaningLogs(n, favoured, high, low, less);
    LeansToMost(Logs(n, q, floor), favoured, other);
    LeansToMost(Logs(n, q, less), favoured, other);
    ScaledOdds(n, q, temperature, floor, favoured, other);
    ScaledOdds(n, q, temperature, less, favoured, other);
    LogOrder(n, Larger(low, less), floor);
    OverPositive(1.0, temperature);
    KeepsOrder(Over(1.0, temperature), n.log(high) - n.log(floor), n.log(high) - n.log(Larger(low, less)));
  }

  // ---------------------------------------------------------------- a sure miss

  /** The loss is the smooth one, or less where a floor is reached. */
  lemma LossAtMostSmooth(n: ExpLog, g: Graded, temperature: real, floor: real)
    requires IsExpLog(n) && temperature > 0.0 && floor > 0.0
    ensures LogLoss(n, g, temperature, floor) <= Smooth(n, GradedLogs(n, g, floor), g.actual, Over(1.0, temperature))
    ensures Hidden(n, g, floor, Over(1.0, temperature)) ==> LogLoss(n, g, temperature, floor) == -n.log(floor)
  {
    LossIsSmooth(n, g, temperature, floor);
  }

  const SURE := Outcomes(1.0, 0.0, 0.0)

  /** A sure miss has the loss of the floor at every temperature up to one. */
  lemma SureMissIsHidden(n: ExpLog, g: Graded, floor: real, temperature: real)
    requires IsExpLog(n) && 0.0 < temperature <= 1.0 && 0.0 < floor < 1.0
    requires g.probabilities == SURE && g.actual != HomeWin
    ensures LogLoss(n, g, temperature, floor) == -n.log(floor)
  {
    var l, b := GradedLogs(n, g, floor), Over(1.0, temperature);
    SureLogs(n, floor);
    if temperature < 1.0 {
      InverseFalls(temperature, 1.0);
    }
    OverOneIsSame(1.0);
    LeastLoss(n, l, HomeWin, g.actual, b);
    var gap := Gap(l, HomeWin);
    KeepsOrder(gap, 1.0, b);
    Commutes(gap, b);
    ZeroAndOne(gap);
    ExpNotBelow(n, gap, Times(b, gap));
    LogOrder(n, n.exp(gap), n.exp(Times(b, gap)) + 2.0);
    assert n.log(n.exp(gap)) == gap;
    LossAtMostSmooth(n, g, temperature, floor);
  }

  lemma SureLogs(n: ExpLog, floor: real)
    requires IsExpLog(n) && 0.0 < floor < 1.0
    ensures Leans(Logs(n, SURE, floor), HomeWin) && Gap(Logs(n, SURE, floor), HomeWin) == -n.log(floor) > 0.0
  {
    LogOrder(n, floor, 1.0);
    assert n.log(n.exp(0.0)) == 0.0;
  }

  /** At temperature two a sure miss costs little more than half of that. */
  lemma SureMissAtTwo(n: ExpLog, g: Graded)
    requires IsExpLog(n) && g.probabilities == SURE && g.actual != HomeWin
    ensures LogLoss(n, g, 2.0, PROBABILITY_FLOOR) + n.log(3.0) < -n.log(PROBABILITY_FLOOR)
  {
    var floor := PROBABILITY_FLOOR;
    var l := GradedLogs(n, g, floor);
    SureLogs(n, floor);
    var gap := Gap(l, HomeWin);
    var s := n.exp(Times(Over(1.0, 2.0), gap));
    LossAtMostSmooth(n, g, 2.0, floor);
    LeastLoss(n, l, HomeWin, g.actual, Over(1.0, 2.0));
    HalfTwice(gap);
    ExpSum(n, Times(Over(1.0, 2.0), gap), Times(Over(1.0, 2.0), gap));
    LogOfInverse(n, floor);
    assert n.exp(gap) == Over(1.0, floor) by {
      assert n.exp(n.log(Over(1.0, floor))) == Over(1.0, floor);
    }
    OverIsTimes(1.0, floor);
    BigSquare(s, floor);
    assert n.exp(n.log(3.0)) == 3.0;
    LogProduct(n, n.log(3.0), s + 2.0);
    LogOrder(n, Times(3.0, s + 2.0), Times(s, s));
    assert n.log(n.exp(gap)) == gap;
  }

  lemma HalfTwice(x: real)
    ensures Times(Over(1.0, 2.0), x) + Times(Over(1.0, 2.0), x) == x
  {
  }

  lemma BigSquare(s: real, floor: real)
    requires s > 0.0 && floor == PROBABILITY_FLOOR && Times(floor, Times(s, s)) == 1.0
    ensures Times(3.0, s + 2.0) < Times(s, s)
  {
    SmallSquare(s);
    KeepsOrder(floor, Times(s, s), 1000.0);
    KeepsOrder(s, 10.0, s);
    Commutes(s, 10.0);
  }

  lemma SmallSquare(s: real)
    requires s > 0.0
    ensures s <= 10.0 ==> Times(s, s) <= 100.0
  {
    KeepsOrder(s, 10.0, s);
    KeepsOrder(10.0, 10.0, s);
    Commutes(s, 10.0);
  }

  // ---------------------------------------------------------------- a search that is misled

  /** One prediction that is sure and wrong, and one that leans to what happened. */
  function Misleading(): seq<Graded> {
    [Graded(SURE, Draw), Graded(Outcomes(0.25, 0.5, 0.25), Draw)]
  }

  lemma MisleadingSum(n: ExpLog, temperature: real, floor: real)
    requires IsExpLog(n) && temperature > 0.0
    ensures LossSum(n, Misleading(), temperature, floor)
         == LogLoss(n, Misleading()[0], temperature, floor) + LogLoss(n, Misleading()[1], temperature, floor)
  {
    var rows := Misleading();
    assert rows[..1] == [rows[0]] && rows[..1][..0] == [];
    assert LossSum(n, rows[..1], temperature, floor) == LogLoss(n, rows[0], temperature, floor);
  }

  /** Up to temperature one only the leaning prediction counts, and it was right. */
  lemma MisleadingRises(n: ExpLog, p: Parameters, x: real, y: real)
    requires p.Usable(n) && p.minimum == MINIMUM_TEMPERATURE && p.floor == PROBABILITY_FLOOR && p.minimum <= x < y <= 1.0
    ensures MeanLogLoss(n, Misleading(), x, p.floor) < MeanLogLoss(n, Misleading(), y, p.floor)
  {
    var rows := Misleading();
    SureMissIsHidden(n, rows[0], p.floor, x);
    SureMissIsHidden(n, rows[0], p.floor, y);
    HalfIsMild(n, p);
    MildLoss(n, rows[1], Draw, p, x, y);
    MisleadingSum(n, x, p.floor);
    MisleadingSum(n, y, p.floor);
    MeanOrder(n, rows, p.floor, x, y);
  }

  /** A right prediction loses something, but less than an even one. */
  lemma HalfLoss(n: ExpLog, p: Parameters, temperature: real)
    requires p.Usable(n) && p.minimum == MINIMUM_TEMPERATURE && p.floor == PROBABILITY_FLOOR && temperature >= p.minimum
    ensures 0.0 < LogLoss(n, Misleading()[1], temperature, p.floor) < n.log(3.0)
  {
    var g, b := Misleading()[1], Over(1.0, temperature);
    var l := GradedLogs(n, g, p.floor);
    HalfIsMild(n, p);
    MildIsClear(n, g, Draw, p, temperature);
    LossIsSmooth(n, g, temperature, p.floor);
    OverPositive(1.0, temperature);
    SharperIsBolder(n, l, Draw, Draw, 0.0, b);
    SmoothAtZero(n, l, Draw);
    ScalingKeepsRanking(n, g.probabilities, temperature, p.floor, HomeWin, Draw);
    ScalingKeepsRanking(n, g.probabilities, temperature, p.floor, AwayWin, Draw);
    ScalingKeepsRanking(n, g.probabilities, temperature, p.floor, Draw, Draw);
    LogOrder(n, For(TemperatureScaled(n, g.probabilities, temperature, p.floor), Draw), 1.0);
    assert n.log(n.exp(0.0)) == 0.0;
  }

  lemma SmoothAtZero(n: ExpLog, l: Outcomes, actual: MatchOutcome)
    requires IsExpLog(n)
    ensures Smooth(n, l, actual, 0.0) == n.log(3.0)
  {
    ZeroAndOne(l.home);
    ZeroAndOne(l.draw);
    ZeroAndOne(l.away);
    assert Normaliser(n, l, 0.0) == 3.0;
  }

  /**
   A floor can mislead the search: between a quarter and two, both first probes lie where the sure miss
   costs the floor, so the search goes down to the leaning prediction's side, although the loss at
   temperature two is less than anywhere up to temperature one.
   */
  lemma SearchCanMiss(n: ExpLog, p: Parameters)
    requires p.Usable(n) && p.minimum == MINIMUM_TEMPERATURE && p.maximum == 2.0 && p.floor == PROBABILITY_FLOOR
    requires p.iterations > 0
    ensures var found := n.exp(FittedLog(n, Misleading(), p));
      && found < 1.0
      && MeanLogLoss(n, Misleading(), p.maximum, p.floor) < MeanLogLoss(n, Misleading(), found, p.floor)
  {
    var rows := Misleading();
    var t := MisledDown(n, p);
    var found := n.exp(t);
    InBracket(n, p, t);
    ExpRises(n, t, 0.0);
    SureMissIsHidden(n, rows[0], p.floor, found);
    SureMissAtTwo(n, rows[0]);
    HalfLoss(n, p, found);
    HalfLoss(n, p, 2.0);
    MisleadingSum(n, found, p.floor);
    MisleadingSum(n, 2.0, p.floor);
    MeanOrder(n, rows, p.floor, 2.0, found);
  }

  lemma MisledDown(n: ExpLog, p: Parameters) returns (t: real)
    requires p.Usable(n) && p.minimum == MINIMUM_TEMPERATURE && p.maximum == 2.0 && p.floor == PROBABILITY_FLOOR
    requires p.iterations > 0
    ensures t == FittedLog(n, Misleading(), p) && p.Logarithms(n).Holds(t) && t < 0.0
  {
    var rows, b, share := Misleading(), p.Logarithms(n), Share(p.ratio);
    var f := LossObjective(n, rows, p.floor);
    InBracket(n, p, 0.0);
    ObjectiveIsLoss(n, rows, p.floor);
    LossDefined(n, rows, p, f);
    GoldenShare(p.ratio);
    ProbesInside(b, share);
    ProbesBelowOne(n, p);
    var left, right := Left(b, share), Right(b, share);
    InBracket(n, p, left);
    InBracket(n, p, right);
    ExpRises(n, left, right);
    ExpRises(n, right, 0.0);
    MisleadingRises(n, p, n.exp(left), n.exp(right));
    assert LossAt(f, n, rows, p.floor, left) && LossAt(f, n, rows, p.floor, right);
    FirstStepDown(f, b, share, p.iterations);
    t := FittedLog(n, rows, p);
  }

  /** The golden ratio is below two thirds, so the upper probe of a quarter to two lies below one. */
  lemma ProbesBelowOne(n: ExpLog, p: Parameters)
    requires p.Usable(n) && p.minimum == MINIMUM_TEMPERATURE && p.maximum == 2.0
    ensures Right(p.Logarithms(n), Share(p.ratio)) < 0.0
  {
    var y := n.log(2.0);
    LogOrder(n, 1.0, 2.0);
    assert n.log(n.exp(0.0)) == 0.0 && n.exp(y) == 2.0;
    LogOfInverse(n, 4.0);
    assert Over(1.0, 4.0) == MINIMUM_TEMPERATURE;
    LogProduct(n, y, 2.0);
    assert n.log(4.0) == y + y;
    RatioBelowTwoThirds(p.ratio);
    ThreeShares(p.ratio, y);
  }

  lemma RatioBelowTwoThirds(ratio: real)
    requires IsGolden(ratio)
    ensures 3.0 * ratio < 2.0
  {
    SquareOfThirds(ratio);
  }

  lemma SquareOfThirds(r: real)
    requires r > 0.0
    ensures 3.0 * r >= 2.0 ==> 9.0 * (r * r) >= 4.0
  {
    if 3.0 * r >= 2.0 {
      assert (3.0 * r - 2.0) * (3.0 * r + 2.0) >= 0.0;
    }
  }

  lemma ThreeShares(ratio: real, y: real)
    requires y > 0.0 && 3.0 * ratio < 2.0
    ensures -(y + y) + ratio * (y - -(y + y)) < 0.0
  {
    assert ratio * (3.0 * y) == (3.0 * ratio) * y < 2.0 * y;
  }
}

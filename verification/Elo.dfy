/** Elo ratings over exact reals: opening a season, expecting a match, rating a batch from one snapshot. */
module Elo {
  import opened Wrappers
  import opened Algebra
  import opened Collections
  import opened Fixtures

  datatype EloParameters = EloParameters(
    initial: real, homeAdvantage: real, kFactor: real, scale: real, retention: real)
  {
    predicate Valid() {
      initial > 0.0 && homeAdvantage >= 0.0 && kFactor > 0.0 && scale > 0.0 && 0.0 <= retention <= 1.0
    }
  }

  type Ratings = map<TeamId, real>

  datatype EloError = NoRating(team: TeamId) | NotCompleted(id: FixtureId) | NoPreviousRating(team: TeamId)

  datatype MatchPrediction = MatchPrediction(
    homeRating: real, awayRating: real, homeExpected: real, awayExpected: real)

  // ---------------------------------------------------------------- prediction

  /** One over one plus ten to a power, as a function of the power. */
  type LogisticCurve = f: real -> real | forall x: real :: 0.0 < f(x) < 1.0 witness (x: real) => 0.5

  ghost predicate IsLogistic(curve: LogisticCurve, pow10: real -> real) {
    forall x: real :: InverseAt(curve, pow10, x)
  }

  ghost predicate InverseAt(curve: LogisticCurve, pow10: real -> real, x: real) {
    Times(curve(x), 1.0 + pow10(x)) == 1.0
  }

  function Clipped(x: real): real {
    var atLeast := if x < -12.0 then -12.0 else x;
    if atLeast > 12.0 then 12.0 else atLeast
  }

  /** The rating difference beyond the home advantage, in units of the scale. */
  function Exponent(p: EloParameters, d: real): real
    requires p.Valid()
  {
    Over(d - p.homeAdvantage, p.scale)
  }

  /** The logistic expectation with its exponent clipped to twelve decades. */
  function Expectation(p: EloParameters, curve: LogisticCurve, d: real): (e: real)
    requires p.Valid()
    ensures 0.0 < e < 1.0
  {
    curve(Clipped(Exponent(p, d)))
  }

  /** What is used of ten to a power: it never falls, and is one at zero. */
  ghost predicate IsPower(pow10: real -> real) {
    pow10(0.0) == 1.0 && forall x: real, y: real :: NoFall(pow10, x, y)
  }

  ghost predicate NoFall(pow10: real -> real, x: real, y: real) {
    x <= y ==> pow10(x) <= pow10(y)
  }

  /** Of two numbers with the same product the one with the larger partner is no larger. */
  lemma LargerPartner(e: real, f: real, x: real, y: real)
    requires 0.0 < e && 0.0 < f && x <= y && Times(e, x) == 1.0 == Times(f, y)
    ensures f <= e
  {
    ZeroAndOne(e);
    KeepsOrder(e, 0.0, x);
    KeepsOrder(f, y, x);
    KeepsOrder(x, e, f);
    Commutes(e, x);
    Commutes(f, x);
  }

  /** The higher the power the lower the curve. */
  lemma LogisticFalls(curve: LogisticCurve, pow10: real -> real, x: real, y: real)
    requires InverseAt(curve, pow10, x) && InverseAt(curve, pow10, y) && NoFall(pow10, x, y) && x <= y
    ensures curve(y) <= curve(x)
  {
    LargerPartner(curve(x), curve(y), 1.0 + pow10(x), 1.0 + pow10(y));
  }

  lemma HalfAtZero(curve: LogisticCurve, pow10: real -> real)
    requires InverseAt(curve, pow10, 0.0) && pow10(0.0) == 1.0
    ensures curve(0.0) == 0.5
  {
  }

  lemma FallsBetween(curve: LogisticCurve, pow10: real -> real, x: real, y: real)
    requires IsLogistic(curve, pow10) && IsPower(pow10) && x <= y
    ensures curve(y) <= curve(x) && curve(0.0) == 0.5
  {
    assert InverseAt(curve, pow10, x) && InverseAt(curve, pow10, y) && InverseAt(curve, pow10, 0.0);
    assert NoFall(pow10, x, y);
    LogisticFalls(curve, pow10, x, y);
    HalfAtZero(curve, pow10);
  }

  lemma ExponentRises(p: EloParameters, d: real, e: real)
    requires p.Valid() && d <= e
    ensures Clipped(Exponent(p, d)) <= Clipped(Exponent(p, e))
    ensures e <= p.homeAdvantage ==> Clipped(Exponent(p, e)) <= 0.0
    ensures d >= p.homeAdvantage ==> Clipped(Exponent(p, d)) >= 0.0
  {
    var unit := Over(1.0, p.scale);
    OverPositive(1.0, p.scale);
    OverIsTimes(d - p.homeAdvantage, p.scale);
    OverIsTimes(e - p.homeAdvantage, p.scale);
    KeepsOrder(unit, e - p.homeAdvantage, d - p.homeAdvantage);
    KeepsOrder(unit, 0.0, e - p.homeAdvantage);
    KeepsOrder(unit, d - p.homeAdvantage, 0.0);
    ZeroAndOne(unit);
  }

  /**
   The further the away club is ahead the less the home club may expect, and it expects half where the
   visitor leads by exactly the home advantage.
   */
  lemma ExpectationFalls(p: EloParameters, curve: LogisticCurve, pow10: real -> real, d: real, e: real)
    requires p.Valid() && IsLogistic(curve, pow10) && IsPower(pow10) && d <= e
    ensures Expectation(p, curve, e) <= Expectation(p, curve, d)
    ensures e <= p.homeAdvantage ==> Expectation(p, curve, e) >= 0.5
    ensures d >= p.homeAdvantage ==> Expectation(p, curve, d) <= 0.5
  {
    ExponentRises(p, d, e);
    var x, y := Clipped(Exponent(p, d)), Clipped(Exponent(p, e));
    FallsBetween(curve, pow10, x, y);
    if e <= p.homeAdvantage {
      FallsBetween(curve, pow10, y, 0.0);
    }
    if d >= p.homeAdvantage {
      FallsBetween(curve, pow10, 0.0, x);
    }
  }

  /** Reads both ratings and splits one point between the clubs. */
  function PredictEloMatch(home: TeamId, away: TeamId, ratings: Ratings, p: EloParameters, curve: LogisticCurve)
    : (r: Result<MatchPrediction, EloError>)
    requires p.Valid()
    ensures r.Success? <==> home in ratings && away in ratings
    ensures r.Success? ==>
              && r.value.homeRating == ratings[home] && r.value.awayRating == ratings[away]
              && 0.0 < r.value.homeExpected < 1.0 && 0.0 < r.value.awayExpected < 1.0
              && r.value.homeExpected + r.value.awayExpected == 1.0
    ensures r.Failure? ==> r.error == NoRating(if home !in ratings then home else away)
  {
    if home !in ratings then Failure(NoRating(home))
    else if away !in ratings then Failure(NoRating(away))
    else
      var e := Expectation(p, curve, ratings[away] - ratings[home]);
      Success(MatchPrediction(ratings[home], ratings[away], e, 1.0 - e))
  }

  /** The exponent is the lead in rating beyond the home advantage, in scales; clipping keeps it within twelve. */
  lemma ExponentIsLead(p: EloParameters, d: real)
    requires p.Valid()
    ensures Times(p.scale, Exponent(p, d)) == d - p.homeAdvantage
    ensures var x, c := Exponent(p, d), Clipped(Exponent(p, d));
      -12.0 <= c <= 12.0 && (c < x ==> c == 12.0) && (c > x ==> c == -12.0)
  {
    OverIsTimes(d - p.homeAdvantage, p.scale);
  }

  /** The home club expects one over one plus ten to the clipped power of the visitor's lead. */
  lemma HomeOdds(
      home: TeamId, away: TeamId, ratings: Ratings, p: EloParameters, curve: LogisticCurve, pow10: real -> real)
    requires p.Valid() && IsLogistic(curve, pow10) && home in ratings && away in ratings
    ensures var m := PredictEloMatch(home, away, ratings, p, curve).value;
      var x := Clipped(Exponent(p, m.awayRating - m.homeRating));
      InverseAt(curve, pow10, x) && m.homeExpected == curve(x)
  {
  }

  /** The home club is favourite exactly as far as its rating and the home advantage carry it. */
  lemma FavouriteExpectsMore(
      home: TeamId, away: TeamId, ratings: Ratings, p: EloParameters, curve: LogisticCurve, pow10: real -> real)
    requires p.Valid() && IsLogistic(curve, pow10) && IsPower(pow10) && home in ratings && away in ratings
    ensures var m := PredictEloMatch(home, away, ratings, p, curve).value;
      && (m.homeRating + p.homeAdvantage >= m.awayRating ==> m.homeExpected >= 0.5)
      && (m.homeRating + p.homeAdvantage <= m.awayRating ==> m.homeExpected <= 0.5)
  {
    var d := ratings[away] - ratings[home];
    ExpectationFalls(p, curve, pow10, d, d);
  }

  // ---------------------------------------------------------------- one batch

  predicate Completed(f: Fixture) {
    f.status.Finished? && f.fullTime.Some?
  }

  predicate Rateable(ratings: Ratings, f: Fixture) {
    Completed(f) && f.home in ratings && f.away in ratings
  }

  function ActualHome(score: Score): real {
    if score.home > score.away then 1.0 else if score.home == score.away then 0.5 else 0.0
  }

  /** The points that move from the away club to the home club. */
  function Transfer(ratings: Ratings, f: Fixture, p: EloParameters, curve: LogisticCurve): (d: real)
    requires p.Valid()
    ensures -p.kFactor < d < p.kFactor
  {
    if !Rateable(ratings, f) then 0.0 else
      Exchange(p.kFactor, ActualHome(f.fullTime.value), Expectation(p, curve, ratings[f.away] - ratings[f.home]))
  }

  /** The K-factor times the surprise; always less than one K-factor. */
  function Exchange(k: real, actual: real, expected: real): (d: real)
    requires k > 0.0 && 0.0 <= actual <= 1.0 && 0.0 < expected < 1.0
    ensures -k < d < k
    ensures actual == 1.0 ==> d > 0.0
    ensures actual == 0.0 ==> d < 0.0
  {
    ScaledBelow(k, actual - expected);
    Times(k, actual - expected)
  }

  lemma ScaledBelow(k: real, x: real)
    requires k > 0.0 && -1.0 < x < 1.0
    ensures -k < Times(k, x) < k
    ensures x > 0.0 ==> Times(k, x) > 0.0
    ensures x < 0.0 ==> Times(k, x) < 0.0
  {
    var low, high := k * (1.0 + x), k * (1.0 - x);
    assert low > 0.0 && high > 0.0;
    assert low == k + k * x && high == k - k * x;
  }

  /** How many points a fixture moves from the away club to the home club, given the pre-batch ratings. */
  type Rule = (Ratings, Fixture) -> real

  function EloRule(p: EloParameters, curve: LogisticCurve): Rule
    requires p.Valid()
  {
    (ratings: Ratings, f: Fixture) => Transfer(ratings, f, p, curve)
  }

  /** No fixture moves more than k points. */
  ghost predicate MovesAtMost(rule: Rule, k: real) {
    forall ratings, f :: -k <= rule(ratings, f) <= k
  }

  lemma EloRuleMovesAtMost(p: EloParameters, curve: LogisticCurve)
    requires p.Valid()
    ensures MovesAtMost(EloRule(p, curve), p.kFactor)
  {
  }

  /** What one fixture of the batch adds to one club, always from the pre-batch ratings. */
  function GainFrom(ratings: Ratings, f: Fixture, team: TeamId, rule: Rule): real {
    (if team == f.home then rule(ratings, f) else 0.0)
    - (if team == f.away then rule(ratings, f) else 0.0)
  }

  function Gain(ratings: Ratings, rule: Rule, team: TeamId): Fixture -> real {
    (f: Fixture) => GainFrom(ratings, f, team, rule)
  }

  /** The ratings after a simultaneous batch. */
  function AfterBatch(ratings: Ratings, fixtures: seq<Fixture>, rule: Rule): (r: Ratings)
    ensures r.Keys == ratings.Keys
  {
    map team | team in ratings :: ratings[team] + Sum(Gain(ratings, rule, team), fixtures)
  }

  function Complaint(ratings: Ratings, f: Fixture): EloError {
    if !Completed(f) then NotCompleted(f.id) else NoRating(if f.home !in ratings then f.home else f.away)
  }

  /** The error raised by the first fixture that cannot be rated. */
  ghost predicate FirstUnrateable(ratings: Ratings, fixtures: seq<Fixture>, e: EloError) {
    exists i :: 0 <= i < |fixtures| && !Rateable(ratings, fixtures[i])
             && (forall j :: 0 <= j < i ==> Rateable(ratings, fixtures[j])) && e == Complaint(ratings, fixtures[i])
  }

  /** Books one delta: added to the home club, then taken from the away club. */
  function Book(deltas: map<TeamId, real>, f: Fixture, delta: real): map<TeamId, real> {
    if f.home !in deltas || f.away !in deltas then deltas else
      var home := deltas[f.home := deltas[f.home] + delta];
      home[f.away := home[f.away] - delta]
  }

  function Unmoved(ratings: Ratings): map<TeamId, real> {
    map team | team in ratings :: 0.0
  }

  /** The deltas booked by a batch, every one computed from the same pre-batch ratings, or the first complaint. */
  function Ledger(ratings: Ratings, fixtures: seq<Fixture>, rule: Rule): Result<map<TeamId, real>, EloError> {
    if fixtures == [] then Success(Unmoved(ratings)) else
      var last := fixtures[|fixtures| - 1];
      var deltas :- Ledger(ratings, fixtures[..|fixtures| - 1], rule);
      if !Rateable(ratings, last) then Failure(Complaint(ratings, last))
      else Success(Book(deltas, last, rule(ratings, last)))
  }

  lemma LedgerStep(ratings: Ratings, fixtures: seq<Fixture>, i: nat, rule: Rule)
    requires i < |fixtures| && Ledger(ratings, fixtures[..i], rule).Success?
    ensures Ledger(ratings, fixtures[..i + 1], rule)
         == if !Rateable(ratings, fixtures[i]) then Failure(Complaint(ratings, fixtures[i]))
            else Success(Book(Ledger(ratings, fixtures[..i], rule).value, fixtures[i], rule(ratings, fixtures[i])))
  {
    assert fixtures[..i + 1][..i] == fixtures[..i];
  }

  lemma LedgerStaysFailed(ratings: Ratings, fixtures: seq<Fixture>, n: nat, rule: Rule)
    requires n <= |fixtures| && Ledger(ratings, fixtures[..n], rule).Failure?
    ensures Ledger(ratings, fixtures, rule) == Ledger(ratings, fixtures[..n], rule)
  {
    forall m | n <= m < |fixtures|
      ensures Ledger(ratings, fixtures[..m], rule).Failure? ==>
                Ledger(ratings, fixtures[..m + 1], rule) == Ledger(ratings, fixtures[..m], rule)
    {
      assert fixtures[..m + 1][..m] == fixtures[..m];
    }
    StaysSettled((s: seq<Fixture>) => Ledger(ratings, s, rule),
                 (r: Result<map<TeamId, real>, EloError>) => r.Failure?, fixtures, n);
  }

  /** The delta of one fixture, or the reason it has none. */
  method RateFixture(ratings: Ratings, f: Fixture, p: EloParameters, curve: LogisticCurve, ghost rule: Rule)
    returns (r: Result<real, EloError>)
    requires p.Valid() && rule == EloRule(p, curve)
    ensures r.Success? <==> Rateable(ratings, f)
    ensures r.Success? ==> r.value == rule(ratings, f)
    ensures r.Failure? ==> r.error == Complaint(ratings, f)
  {
    if !Completed(f) {
      return Failure(NotCompleted(f.id));
    }
    var predicted :- PredictEloMatch(f.home, f.away, ratings, p, curve);
    return Success(Exchange(p.kFactor, ActualHome(f.fullTime.value), predicted.homeExpected));
  }

  /** Books the deltas of a whole batch. */
  method BookDeltas(
      ratings: Ratings, fixtures: seq<Fixture>, p: EloParameters, curve: LogisticCurve, ghost rule: Rule)
    returns (r: Result<map<TeamId, real>, EloError>)
    requires p.Valid() && rule == EloRule(p, curve)
    ensures r == Ledger(ratings, fixtures, rule)
  {
    var deltas := Unmoved(ratings);
    assert fixtures[..0] == [];
    for i := 0 to |fixtures|
      invariant Success(deltas) == Ledger(ratings, fixtures[..i], rule)
    {
      LedgerStep(ratings, fixtures, i, rule);
      var delta := RateFixture(ratings, fixtures[i], p, curve, rule);
      if delta.Failure? {
        LedgerStaysFailed(ratings, fixtures, i + 1, rule);
        return Failure(delta.error);
      }
      deltas := Book(deltas, fixtures[i], delta.value);
    }
    assert fixtures[..|fixtures|] == fixtures;
    return Success(deltas);
  }

  /** A ledger holds, for each club, the sum of what the fixtures give it. */
  lemma {:induction false} LedgerSums(ratings: Ratings, fixtures: seq<Fixture>, rule: Rule)
    requires Ledger(ratings, fixtures, rule).Success?
    ensures var deltas := Ledger(ratings, fixtures, rule).value;
      && deltas.Keys == ratings.Keys
      && forall team :: team in ratings ==> deltas[team] == Sum(Gain(ratings, rule, team), fixtures)
    decreases |fixtures|
  {
    if fixtures != [] {
      var init, last := fixtures[..|fixtures| - 1], fixtures[|fixtures| - 1];
      assert fixtures == init + [last];
      LedgerSums(ratings, init, rule);
      BookSums(ratings, init, Ledger(ratings, init, rule).value, last, rule);
    }
  }

  lemma StillFirstUnrateable(ratings: Ratings, init: seq<Fixture>, last: Fixture, e: EloError)
    requires FirstUnrateable(ratings, init, e)
    ensures FirstUnrateable(ratings, init + [last], e)
  {
    var fixtures := init + [last];
    var i :| 0 <= i < |init| && !Rateable(ratings, init[i])
             && (forall j :: 0 <= j < i ==> Rateable(ratings, init[j])) && e == Complaint(ratings, init[i]);
    assert fixtures[i] == init[i];
    forall j | 0 <= j < i
      ensures Rateable(ratings, fixtures[j])
    {
      assert fixtures[j] == init[j];
    }
  }

  ghost predicate EveryRateable(ratings: Ratings, fixtures: seq<Fixture>) {
    forall i :: 0 <= i < |fixtures| ==> Rateable(ratings, fixtures[i])
  }

  lemma LastDecides(ratings: Ratings, init: seq<Fixture>, last: Fixture)
    requires EveryRateable(ratings, init)
    ensures if Rateable(ratings, last) then EveryRateable(ratings, init + [last])
            else FirstUnrateable(ratings, init + [last], Complaint(ratings, last))
  {
    var fixtures := init + [last];
    assert fixtures[|init|] == last;
    forall j | 0 <= j < |init|
      ensures Rateable(ratings, fixtures[j])
    {
      assert fixtures[j] == init[j];
    }
  }

  /** It exists exactly when every fixture can be rated, and otherwise carries the first complaint. */
  lemma {:induction false} LedgerExists(ratings: Ratings, fixtures: seq<Fixture>, rule: Rule)
    ensures var r := Ledger(ratings, fixtures, rule);
      if r.Success? then EveryRateable(ratings, fixtures) else FirstUnrateable(ratings, fixtures, r.error)
    decreases |fixtures|
  {
    if fixtures != [] {
      var init, last := fixtures[..|fixtures| - 1], fixtures[|fixtures| - 1];
      assert fixtures == init + [last];
      LedgerExists(ratings, init, rule);
      var before := Ledger(ratings, init, rule);
      if before.Failure? {
        StillFirstUnrateable(ratings, init, last, before.error);
      } else {
        LastDecides(ratings, init, last);
      }
    }
  }

  lemma BookSums(ratings: Ratings, done: seq<Fixture>, deltas: map<TeamId, real>, f: Fixture, rule: Rule)
    requires f.home in ratings && f.away in ratings && deltas.Keys == ratings.Keys
    requires forall team :: team in ratings ==> deltas[team] == Sum(Gain(ratings, rule, team), done)
    ensures
      var r := Book(deltas, f, rule(ratings, f));
      r.Keys == ratings.Keys
      && forall team :: team in ratings ==> r[team] == Sum(Gain(ratings, rule, team), done + [f])
  {
    forall team | team in ratings
      ensures Sum(Gain(ratings, rule, team), done + [f]) == deltas[team] + GainFrom(ratings, f, team, rule)
    {
      SumAppend(Gain(ratings, rule, team), done, f);
    }
  }

  method ApplyDeltas(ratings: Ratings, deltas: map<TeamId, real>) returns (updated: Ratings)
    requires deltas.Keys == ratings.Keys
    ensures updated.Keys == ratings.Keys
    ensures forall team :: team in ratings ==> updated[team] == ratings[team] + deltas[team]
  {
    updated := ratings;
    var pending := deltas.Keys;
    while pending != {}
      invariant pending <= deltas.Keys && updated.Keys == ratings.Keys
      invariant forall team :: team in ratings ==>
                  updated[team] == if team in pending then ratings[team] else ratings[team] + deltas[team]
      decreases |pending|
    {
      ghost var some := AnyMember(pending);
      var team :| team in pending;
      updated := updated[team := updated[team] + deltas[team]];
      pending := pending - {team};
    }
  }

  /** Sums each club's deltas over the batch, all read from the ratings before it, then books the sums. */
  method UpdateEloBatch(ratings: Ratings, fixtures: seq<Fixture>, p: EloParameters, curve: LogisticCurve)
    returns (r: Result<Ratings, EloError>)
    requires p.Valid()
    ensures r.Success? <==> forall f :: f in fixtures ==> Rateable(ratings, f)
    ensures r.Success? ==> r.value == AfterBatch(ratings, fixtures, EloRule(p, curve))
    ensures r.Failure? ==> FirstUnrateable(ratings, fixtures, r.error)
  {
    ghost var rule := EloRule(p, curve);
    LedgerExists(ratings, fixtures, rule);
    var deltas :- BookDeltas(ratings, fixtures, p, curve, rule);
    LedgerSums(ratings, fixtures, rule);
    var updated := ApplyDeltas(ratings, deltas);
    AppliedIsAfterBatch(ratings, fixtures, deltas, updated, rule);
    return Success(updated);
  }

  lemma AppliedIsAfterBatch(
      ratings: Ratings, fixtures: seq<Fixture>, deltas: map<TeamId, real>, updated: Ratings, rule: Rule)
    requires updated.Keys == ratings.Keys == deltas.Keys
    requires forall team :: team in ratings ==> updated[team] == ratings[team] + deltas[team]
    requires forall team :: team in ratings ==> deltas[team] == Sum(Gain(ratings, rule, team), fixtures)
    ensures updated == AfterBatch(ratings, fixtures, rule)
  {
  }

  /** What a win, a draw and a defeat count for the home club. */
  ghost predicate Counts(score: Score, actual: real) {
    && (score.home > score.away ==> actual == 1.0) && (score.home == score.away ==> actual == 0.5)
    && (score.home < score.away ==> actual == 0.0)
  }

  /** No other fixture of the batch involves the club. */
  ghost predicate OnlyMatch(fixtures: seq<Fixture>, i: nat, team: TeamId) {
    forall j :: 0 <= j < |fixtures| && j != i ==> fixtures[j].home != team && fixtures[j].away != team
  }

  lemma OnlyGain(ratings: Ratings, fixtures: seq<Fixture>, i: nat, team: TeamId, rule: Rule)
    requires i < |fixtures| && OnlyMatch(fixtures, i, team) && team in ratings
    ensures AfterBatch(ratings, fixtures, rule)[team] == ratings[team] + GainFrom(ratings, fixtures[i], team, rule)
  {
    var gain, early, late := Gain(ratings, rule, team), fixtures[..i], fixtures[i + 1..];
    assert fixtures == early + ([fixtures[i]] + late);
    forall f | f in early + late
      ensures gain(f) == 0.0
    {
      var j :| 0 <= j < |fixtures| && j != i && fixtures[j] == f;
    }
    SumAround(gain, early, fixtures[i], late);
    SumZero(gain, early + late);
  }

  lemma ActualIsCount(score: Score, actual: real)
    requires Counts(score, actual)
    ensures ActualHome(score) == actual
  {
  }

  lemma PredictedIsExpectation(home: TeamId, away: TeamId, ratings: Ratings, p: EloParameters, curve: LogisticCurve)
    requires p.Valid() && home in ratings && away in ratings
    ensures PredictEloMatch(home, away, ratings, p, curve).value.homeExpected
         == Expectation(p, curve, ratings[away] - ratings[home])
  {
  }

  lemma TransferIsExchange(ratings: Ratings, f: Fixture, p: EloParameters, curve: LogisticCurve)
    requires p.Valid() && Rateable(ratings, f)
    ensures Transfer(ratings, f, p, curve)
         == Exchange(p.kFactor, ActualHome(f.fullTime.value), Expectation(p, curve, ratings[f.away] - ratings[f.home]))
  {
  }

  lemma ExchangeIsSurprise(k: real, actual: real, expected: real)
    requires k > 0.0 && 0.0 <= actual <= 1.0 && 0.0 < expected < 1.0
    ensures Exchange(k, actual, expected) == Times(k, actual - expected)
  {
  }

  /** What the rule gives for a match goes to the home club and comes from the away club. */
  lemma MatchMoves(ratings: Ratings, fixtures: seq<Fixture>, i: nat, rule: Rule)
    requires i < |fixtures| && fixtures[i].home != fixtures[i].away
    requires fixtures[i].home in ratings && fixtures[i].away in ratings
    requires OnlyMatch(fixtures, i, fixtures[i].home) && OnlyMatch(fixtures, i, fixtures[i].away)
    ensures var after, f := AfterBatch(ratings, fixtures, rule), fixtures[i];
      after[f.home] == ratings[f.home] + rule(ratings, f) && after[f.away] == ratings[f.away] - rule(ratings, f)
  {
    OnlyGain(ratings, fixtures, i, fixtures[i].home, rule);
    OnlyGain(ratings, fixtures, i, fixtures[i].away, rule);
  }

  lemma MoveIsSurprise(ratings: Ratings, f: Fixture, p: EloParameters, curve: LogisticCurve, actual: real, expected: real)
    requires p.Valid() && Rateable(ratings, f) && Counts(f.fullTime.value, actual)
    requires expected == PredictEloMatch(f.home, f.away, ratings, p, curve).value.homeExpected
    ensures EloRule(p, curve)(ratings, f) == Times(p.kFactor, actual - expected)
  {
    ActualIsCount(f.fullTime.value, actual);
    PredictedIsExpectation(f.home, f.away, ratings, p, curve);
    TransferIsExchange(ratings, f, p, curve);
    ExchangeIsSurprise(p.kFactor, actual, expected);
  }

  /**
   A match moves the factor K times the surprise, the result less the expected score, to the home club
   and takes as much from the away club, both reckoned from the ratings before the batch.
   */
  lemma MatchMovesSurprise(
      ratings: Ratings, fixtures: seq<Fixture>, i: nat, p: EloParameters, curve: LogisticCurve,
      actual: real, expected: real)
    requires p.Valid() && i < |fixtures| && Rateable(ratings, fixtures[i]) && fixtures[i].home != fixtures[i].away
    requires Counts(fixtures[i].fullTime.value, actual)
    requires expected == PredictEloMatch(fixtures[i].home, fixtures[i].away, ratings, p, curve).value.homeExpected
    requires OnlyMatch(fixtures, i, fixtures[i].home) && OnlyMatch(fixtures, i, fixtures[i].away)
    ensures var after, f, moved := AfterBatch(ratings, fixtures, EloRule(p, curve)), fixtures[i],
                                   Times(p.kFactor, actual - expected);
      after[f.home] == ratings[f.home] + moved && after[f.away] == ratings[f.away] - moved
  {
    MatchMoves(ratings, fixtures, i, EloRule(p, curve));
    MoveIsSurprise(ratings, fixtures[i], p, curve, actual, expected);
  }

  /** A club without a match in the batch keeps its rating. */
  lemma IdleKeepsRating(ratings: Ratings, fixtures: seq<Fixture>, team: TeamId, rule: Rule)
    requires team in ratings && forall f :: f in fixtures ==> f.home != team && f.away != team
    ensures AfterBatch(ratings, fixtures, rule)[team] == ratings[team]
  {
    SumZero(Gain(ratings, rule, team), fixtures);
  }

  // ---------------------------------------------------------------- between seasons

  /** A continuing club keeps a share of its distance from the baseline; every other club starts on it. */
  function OpeningRating(m: Membership, previous: Option<Ratings>, p: EloParameters): real {
    if previous.None? || m.entry.Promoted? || m.team !in previous.value then p.initial
    else p.initial + Times(p.retention, previous.value[m.team] - p.initial)
  }

  predicate LacksRating(m: Membership, previous: Option<Ratings>) {
    previous.Some? && m.entry.Continued? && m.team !in previous.value
  }

  ghost predicate IsOpening(season: Season, previous: Option<Ratings>, p: EloParameters, r: Ratings) {
    && r.Keys == season.Teams()
    && forall m :: m in season.memberships ==> r[m.team] == OpeningRating(m, previous, p)
  }

  /** The opening ratings of a list of members, or the complaint about the first that has none. */
  function Opened(ms: seq<Membership>, previous: Option<Ratings>, p: EloParameters): Result<Ratings, EloError> {
    if ms == [] then Success(map[]) else
      var last := ms[|ms| - 1];
      var ratings :- Opened(ms[..|ms| - 1], previous, p);
      if LacksRating(last, previous) then Failure(NoPreviousRating(last.team))
      else Success(ratings[last.team := OpeningRating(last, previous, p)])
  }

  lemma OpenedStaysFailed(ms: seq<Membership>, n: nat, previous: Option<Ratings>, p: EloParameters)
    requires n <= |ms| && Opened(ms[..n], previous, p).Failure?
    ensures Opened(ms, previous, p) == Opened(ms[..n], previous, p)
  {
    forall m | n <= m < |ms|
      ensures Opened(ms[..m], previous, p).Failure? ==> Opened(ms[..m + 1], previous, p) == Opened(ms[..m], previous, p)
    {
      assert ms[..m + 1][..m] == ms[..m];
    }
    StaysSettled((s: seq<Membership>) => Opened(s, previous, p), (r: Result<Ratings, EloError>) => r.Failure?, ms, n);
  }

  lemma {:induction false} OpenedMeans(ms: seq<Membership>, previous: Option<Ratings>, p: EloParameters)
    requires forall i, j :: 0 <= i < j < |ms| ==> ms[i].team != ms[j].team
    ensures var r := Opened(ms, previous, p);
      && (r.Success? <==> forall m :: m in ms ==> !LacksRating(m, previous))
      && (r.Success? ==> forall t :: t in r.value <==> exists m :: m in ms && m.team == t)
      && (r.Success? ==> forall m :: m in ms ==> r.value[m.team] == OpeningRating(m, previous, p))
    decreases |ms|
  {
    if ms != [] {
      var init, last := ms[..|ms| - 1], ms[|ms| - 1];
      assert ms == init + [last];
      OpenedMeans(init, previous, p);
      assert forall m :: m in ms <==> m in init || m == last;
      assert forall m :: m in init ==> m.team != last.team;
    }
  }

  lemma OpenedIsOpening(season: Season, previous: Option<Ratings>, p: EloParameters)
    requires season.Valid()
    ensures var r := Opened(season.memberships, previous, p);
      && (r.Success? <==> forall m :: m in season.memberships ==> !LacksRating(m, previous))
      && (r.Success? ==> IsOpening(season, previous, p, r.value))
  {
    OpenedMeans(season.memberships, previous, p);
    var r := Opened(season.memberships, previous, p);
    if r.Success? {
      assert forall t :: t in r.value <==> t in season.Teams();
    }
  }

  /** Opens a season: a continuing club keeps its share of the distance to the baseline, others start on it. */
  method InitializeSeasonRatings(season: Season, previous: Option<Ratings>, p: EloParameters)
    returns (r: Result<Ratings, EloError>)
    requires season.Valid()
    ensures r.Success? <==> forall m :: m in season.memberships ==> !LacksRating(m, previous)
    ensures r.Success? ==> IsOpening(season, previous, p, r.value)
    ensures if r.Success? then Opened(season.memberships, previous, p).Success? else r == Opened(season.memberships, previous, p)
  {
    OpenedIsOpening(season, previous, p);
    if previous.None? {
      return Success(map team | team in season.Teams() :: p.initial);
    }
    r := RegressRatings(season.memberships, previous, p);
  }

  method RegressRatings(ms: seq<Membership>, previous: Option<Ratings>, p: EloParameters)
    returns (r: Result<Ratings, EloError>)
    requires previous.Some?
    ensures r == Opened(ms, previous, p)
  {
    var ratings: Ratings := map[];
    assert ms[..0] == [];
    for i := 0 to |ms|
      invariant Success(ratings) == Opened(ms[..i], previous, p)
    {
      var m := ms[i];
      assert ms[..i + 1][..i] == ms[..i];
      if m.entry.Promoted? {
        ratings := ratings[m.team := p.initial];
      } else {
        if m.team !in previous.value {
          OpenedStaysFailed(ms, i + 1, previous, p);
          return Failure(NoPreviousRating(m.team));
        }
        ratings := ratings[m.team := p.initial + Times(p.retention, previous.value[m.team] - p.initial)];
      }
    }
    assert ms[..|ms|] == ms;
    return Success(ratings);
  }
}

/** The kickoff-aware polling policy and the run of polls it produces. */
module Polling {
  import opened Wrappers
  import opened Collections
  import opened Fixtures

  /** A current fixture; the start of its local date is an instant fixed by its source time zone. */
  datatype CurrentFixture = CurrentFixture(
    id: FixtureId, kickoff: int, precision: KickoffPrecision, status: FixtureStatus, localStart: int)

  datatype PollReason =
    | PollInProgress | OverdueExactKickoff | ImminentExactKickoff | NearExactKickoff | DistantExactKickoff
    | DateOnlyUpcoming | DateOnlyActiveDay | DateOnlyOverdue | PollPostponed | Terminal

  datatype Decision = Decision(fixture: FixtureId, reason: PollReason, nextPoll: Option<int>)

  datatype Plan = Plan(evaluatedAt: int, decisions: seq<Decision>, nextPoll: Option<int>)

  datatype PollError = RepeatedIdentity

  const MINUTE := 60_000_000
  const HOUR := 60 * MINUTE
  const DAY := 24 * HOUR

  function Earlier(a: int, b: int): int {
    if a <= b then a else b
  }

  function DateOnlyDecision(f: CurrentFixture, at: int): Decision {
    if at < f.localStart then Decision(f.id, DateOnlyUpcoming, Some(Earlier(f.localStart, at + DAY)))
    else if at < f.localStart + DAY then Decision(f.id, DateOnlyActiveDay, Some(at + HOUR))
    else Decision(f.id, DateOnlyOverdue, Some(at + 6 * HOUR))
  }

  function DecisionFor(f: CurrentFixture, at: int): Decision {
    if f.status.Cancelled? || f.status.Abandoned? then Decision(f.id, Terminal, None)
    else if f.status.InProgress? then Decision(f.id, PollInProgress, Some(at + MINUTE))
    else if f.status.Postponed? then Decision(f.id, PollPostponed, Some(at + 6 * HOUR))
    else if f.status.Finished? then Decision(f.id, Terminal, None)
    else if f.precision.DateOnly? then DateOnlyDecision(f, at)
    else
      var until := f.kickoff - at;
      if until <= 0 then Decision(f.id, OverdueExactKickoff, Some(at + 5 * MINUTE))
      else if until <= 6 * HOUR then Decision(f.id, ImminentExactKickoff, Some(Earlier(f.kickoff, at + 15 * MINUTE)))
      else if until <= 2 * DAY then Decision(f.id, NearExactKickoff, Some(at + HOUR))
      else if until <= 7 * DAY then Decision(f.id, DistantExactKickoff, Some(at + 6 * HOUR))
      else Decision(f.id, DistantExactKickoff, Some(at + DAY))
  }

  /** Nothing will change any more. */
  predicate IsTerminal(f: CurrentFixture) {
    f.status.Cancelled? || f.status.Abandoned? || f.status.Finished?
  }

  /** The instant a scheduled fixture must be polled at. */
  function Target(f: CurrentFixture): int {
    if f.precision.DateOnly? then f.localStart else f.kickoff
  }

  /** One decision: later than now, within a day, and never past the instant that matters. */
  lemma DecisionBounds(f: CurrentFixture, at: int)
    ensures var next := DecisionFor(f, at).nextPoll;
      && (next.None? <==> IsTerminal(f))
      && (next.Some? ==> at < next.value <= at + DAY)
      && (f.status.Scheduled? && at < Target(f) ==> next.Some? && next.value <= Target(f))
  {
  }

  /** How often a fixture is polled that is due in at most so long. */
  datatype Pace = Pace(within: int, every: int)

  const PACES: seq<Pace> := [
    Pace(0, 5 * MINUTE), Pace(6 * HOUR, 15 * MINUTE), Pace(2 * DAY, HOUR), Pace(7 * DAY, 6 * HOUR)]

  /** The pace of the first line that covers the time left, or a day. */
  function PaceFor(left: int, paces: seq<Pace>): int {
    if paces == [] then DAY else if left <= paces[0].within then paces[0].every else PaceFor(left, paces[1..])
  }

  predicate Pending(f: CurrentFixture) {
    f.status.Scheduled? && f.precision.Exact?
  }

  /** A scheduled fixture with an exact kickoff is polled at the pace of the table, and at its kickoff. */
  lemma ExactPace(f: CurrentFixture, at: int)
    requires Pending(f)
    ensures var left, d := f.kickoff - at, DecisionFor(f, at);
      d.fixture == f.id
      && d.nextPoll == Some(if 0 < left < PaceFor(left, PACES) then f.kickoff else at + PaceFor(left, PACES))
  {
    var left, one := f.kickoff - at, PACES[1..];
    assert one == [Pace(6 * HOUR, 15 * MINUTE), Pace(2 * DAY, HOUR), Pace(7 * DAY, 6 * HOUR)];
    assert one[1..] == [Pace(2 * DAY, HOUR), Pace(7 * DAY, 6 * HOUR)];
    assert one[1..][1..] == [Pace(7 * DAY, 6 * HOUR)] && one[1..][1..][1..] == [];
    assert PaceFor(left, one[1..][1..]) == if left <= 7 * DAY then 6 * HOUR else DAY;
    assert PaceFor(left, one)
        == if left <= 6 * HOUR then 15 * MINUTE else if left <= 2 * DAY then HOUR else PaceFor(left, one[1..][1..]);
  }

  /** The nearer the kickoff the sooner the next poll: the wait never grows while the kickoff is ahead. */
  lemma PollsQuicken(f: CurrentFixture, at: int, later: int)
    requires Pending(f) && at <= later < f.kickoff
    ensures DecisionFor(f, later).nextPoll.value - later <= DecisionFor(f, at).nextPoll.value - at
  {
  }

  /** A date-only fixture is polled daily and at the start of its day, hourly on the day and then every six hours. */
  lemma DateOnlyPace(f: CurrentFixture, at: int)
    requires f.status.Scheduled? && f.precision.DateOnly?
    ensures var d, left := DecisionFor(f, at), f.localStart - at;
      d.fixture == f.id
      && d.nextPoll == Some(at + if left >= DAY then DAY else if left > 0 then left else if left > -DAY then HOUR else 6 * HOUR)
      && (d.reason.DateOnlyUpcoming? <==> left > 0) && (d.reason.DateOnlyOverdue? <==> left <= -DAY)
      && (d.reason.DateOnlyActiveDay? <==> -DAY < left <= 0)
  {
  }

  /** The reason of a decision is the state of the fixture. */
  lemma ReasonIsState(f: CurrentFixture, at: int)
    ensures var d, left := DecisionFor(f, at), f.kickoff - at;
      && (d.reason.Terminal? <==> IsTerminal(f))
      && (d.reason.PollInProgress? <==> f.status.InProgress?) && (d.reason.PollPostponed? <==> f.status.Postponed?)
      && (d.reason.OverdueExactKickoff? <==> Pending(f) && left <= 0)
      && (d.reason.ImminentExactKickoff? <==> Pending(f) && 0 < left <= 6 * HOUR)
      && (d.reason.NearExactKickoff? <==> Pending(f) && 6 * HOUR < left <= 2 * DAY)
      && (d.reason.DistantExactKickoff? <==> Pending(f) && 2 * DAY < left)
      && (f.status.InProgress? ==> d.nextPoll == Some(at + MINUTE))
      && (f.status.Postponed? ==> d.nextPoll == Some(at + 6 * HOUR))
  {
  }

  // ---------------------------------------------------------------- the plan

  function Decisions(fixtures: seq<CurrentFixture>, at: int): (d: seq<Decision>)
    ensures |d| == |fixtures| && forall i :: 0 <= i < |d| ==> d[i] == DecisionFor(fixtures[i], at)
  {
    seq(|fixtures|, i requires 0 <= i < |fixtures| => DecisionFor(fixtures[i], at))
  }

  /** The earliest pending poll. */
  function Soonest(decisions: seq<Decision>): Option<int> {
    if decisions == [] then None else
      var rest, next := Soonest(decisions[1..]), decisions[0].nextPoll;
      if next.None? then rest else if rest.None? then next else Some(Earlier(next.value, rest.value))
  }

  lemma {:induction false} SoonestIsLeast(decisions: seq<Decision>)
    ensures var r := Soonest(decisions);
      && (forall d :: d in decisions && d.nextPoll.Some? ==> r.Some? && r.value <= d.nextPoll.value)
      && (r.Some? ==> exists d :: d in decisions && d.nextPoll == r)
    decreases |decisions|
  {
    if decisions != [] {
      SoonestIsLeast(decisions[1..]);
      assert decisions[0] in decisions;
      assert forall d :: d in decisions <==> d == decisions[0] || d in decisions[1..];
    }
  }

  predicate UniqueFixtures(fixtures: seq<CurrentFixture>) {
    forall i, j :: 0 <= i < j < |fixtures| ==> fixtures[i].id != fixtures[j].id
  }

  /** Computes one deterministic plan, its decisions in fixture order. */
  function PlanFor(fixtures: seq<CurrentFixture>, at: int): (r: Result<Plan, PollError>)
    ensures r.Success? <==> UniqueFixtures(fixtures)
    ensures r.Success? ==> r.value.evaluatedAt == at && multiset(r.value.decisions) == multiset(Decisions(fixtures, at))
  {
    if !UniqueFixtures(fixtures) then Failure(RepeatedIdentity) else
      var decisions := SortBy((d: Decision) => d.fixture, Decisions(fixtures, at));
      Success(Plan(at, decisions, Soonest(decisions)))
  }

  /** A plan holds one decision for each fixture, in the order of their identities. */
  lemma PlanListsFixtures(fixtures: seq<CurrentFixture>, at: int)
    requires UniqueFixtures(fixtures)
    ensures var decisions := PlanFor(fixtures, at).value.decisions;
      && |decisions| == |fixtures|
      && (forall i, j :: 0 <= i < j < |decisions| ==> decisions[i].fixture <= decisions[j].fixture)
      && (forall f :: f in fixtures ==> DecisionFor(f, at) in decisions)
  {
    var made, decisions := Decisions(fixtures, at), PlanFor(fixtures, at).value.decisions;
    SortByOrders((d: Decision) => d.fixture, made);
    assert |multiset(decisions)| == |decisions| && |multiset(made)| == |made|;
    forall f | f in fixtures
      ensures DecisionFor(f, at) in decisions
    {
      var i :| 0 <= i < |fixtures| && fixtures[i] == f;
      assert made[i] in multiset(decisions);
    }
  }

  /** The next poll of a plan is the earliest decision, whichever fixture it is for. */
  lemma NextPollIsEarliest(fixtures: seq<CurrentFixture>, at: int)
    requires UniqueFixtures(fixtures)
    ensures var next := PlanFor(fixtures, at).value.nextPoll;
      && (next.None? <==> forall f :: f in fixtures ==> IsTerminal(f))
      && (next.Some? ==> at < next.value <= at + DAY)
      && (forall f :: f in fixtures && f.status.Scheduled? && at < Target(f) ==> next.Some? && next.value <= Target(f))
      && (next.Some? ==> exists f :: f in fixtures && DecisionFor(f, at).nextPoll == next)
  {
    var made, decisions := Decisions(fixtures, at), PlanFor(fixtures, at).value.decisions;
    SameElements(decisions, made);
    SoonestIsLeast(decisions);
    forall d
      ensures d in decisions <==> exists f :: f in fixtures && DecisionFor(f, at) == d
    {
      assert d in decisions <==> d in Elements(made);
      if f :| f in fixtures && DecisionFor(f, at) == d {
        var i :| 0 <= i < |fixtures| && fixtures[i] == f;
        assert made[i] == d;
      }
    }
    forall f | f in fixtures
      ensures DecisionFor(f, at) in decisions
    {
      DecisionBounds(f, at);
    }
    var next := PlanFor(fixtures, at).value.nextPoll;
    if next.Some? {
      var d :| d in decisions && d.nextPoll == next;
      var f :| f in fixtures && DecisionFor(f, at) == d;
      DecisionBounds(f, at);
    }
    forall f | f in fixtures && f.status.Scheduled? && at < Target(f)
      ensures next.Some? && next.value <= Target(f)
    {
      DecisionBounds(f, at);
    }
    forall f | f in fixtures
      ensures next.None? ==> IsTerminal(f)
    {
      DecisionBounds(f, at);
    }
  }

  // ---------------------------------------------------------------- the run of polls

  type Next = int -> Option<int>

  function NextPoll(fixtures: seq<CurrentFixture>): Next
    requires UniqueFixtures(fixtures)
  {
    (at: int) => PlanFor(fixtures, at).value.nextPoll
  }

  /** The n-th poll after the first evaluation, if the run gets that far. */
  function PollAfter(next: Next, at: int, n: nat): Option<int> {
    if n == 0 then Some(at) else
      var before := PollAfter(next, at, n - 1);
      if before.None? then None else next(before.value)
  }

  /** Polls move strictly forward, at most a day at a time, and never jump over a target. */
  lemma PollsStep(fixtures: seq<CurrentFixture>, at: int, n: nat)
    requires UniqueFixtures(fixtures) && PollAfter(NextPoll(fixtures), at, n).Some?
    ensures var now, next := PollAfter(NextPoll(fixtures), at, n).value, PollAfter(NextPoll(fixtures), at, n + 1);
      && (next.None? <==> forall f :: f in fixtures ==> IsTerminal(f))
      && (next.Some? ==> now < next.value <= now + DAY)
      && (forall f :: f in fixtures && f.status.Scheduled? && now < Target(f) ==> next.Some? && next.value <= Target(f))
  {
    NextPollIsEarliest(fixtures, PollAfter(NextPoll(fixtures), at, n).value);
  }

  /** A run from a later poll is the tail of the run. */
  lemma {:induction false} PollsCompose(next: Next, at: int, later: int, n: nat)
    requires next(at) == Some(later)
    ensures PollAfter(next, later, n) == PollAfter(next, at, n + 1)
  {
    if n > 0 {
      PollsCompose(next, at, later, n - 1);
    } else {
      assert PollAfter(next, at, 0) == Some(at);
    }
  }

  /** Every scheduled kickoff and every date-only local start still ahead is itself reached after finitely many polls. */
  lemma {:induction false} EveryTargetIsPolled(fixtures: seq<CurrentFixture>, at: int, f: CurrentFixture) returns (n: nat)
    requires UniqueFixtures(fixtures) && f in fixtures && f.status.Scheduled? && at < Target(f)
    ensures 0 < n <= Target(f) - at
    ensures PollAfter(NextPoll(fixtures), at, n) == Some(Target(f))
    decreases Target(f) - at
  {
    var next := NextPoll(fixtures);
    NextPollIsEarliest(fixtures, at);
    var later := next(at).value;
    if later == Target(f) {
      n := 1;
      PollsCompose(next, at, later, 0);
    } else {
      var rest := EveryTargetIsPolled(fixtures, later, f);
      PollsCompose(next, at, later, rest);
      n := rest + 1;
    }
  }
}

/** When the retry advice of a denial can be relied on, and a run in which it cannot. */
module LimiterAdvice {
  import opened LimiterLog

  /** The instant at which a denied client is told to come back. */
  function Advised(rules: Rules, log: Log, c: Client, now: real): real
    requires Filling(rules, log, c, now) != []
  {
    now + RetryAfter(rules.window, now, Filling(rules, log, c, now)[0]) as real
  }

  /** A denial and what follows it: the client stays tracked and makes no call from the given instant on. */
  ghost predicate Continues(rules: Rules, log: Log, more: Log, c: Client, now: real, until: real) {
    && more != [] && more[0] == Event(c, now, false)
    && Lawful(rules, log + more) && StaysTracked(rules, log, more, c)
    && CallsBefore(more, c, until)
  }

  /** The promise of the advice: whatever happens after the denial, the first call from then on is allowed. */
  ghost predicate AdviceHolds(rules: Rules, log: Log, c: Client, now: real)
    requires Filling(rules, log, c, now) != []
  {
    var advised := Advised(rules, log, c, now);
    forall more, at ::
      Continues(rules, log, more, c, now, advised) && advised <= at && NotBefore(log + more, at)
      ==> Allows(rules, log + more, c, at)
  }

  ghost predicate Denied(rules: Rules, log: Log, c: Client, now: real) {
    rules.Valid() && Lawful(rules, log) && NotBefore(log, now) && !Allows(rules, log, c, now)
  }

  // ---------------------------------------------------------------- a time that leaves exactly then makes room

  lemma {:induction false} AfterShrinks(s: seq<real>, low: real, high: real)
    requires low <= high
    ensures |After(s, high)| <= |After(s, low)|
    ensures low < high && high in s ==> |After(s, high)| < |After(s, low)|
    decreases |s|
  {
    if s != [] {
      var init, last := s[..|s| - 1], s[|s| - 1];
      assert s == init + [last];
      AfterShrinks(init, low, high);
    }
  }

  lemma SnocCount(s: seq<real>, t: real, threshold: real)
    ensures |After(s + [t], threshold)| == |After(s, threshold)| + if t > threshold then 1 else 0
  {
    assert (s + [t])[..|s|] == s;
  }

  lemma Thresholds(rules: Rules, a: real, b: real)
    ensures rules.Threshold(a) < rules.Threshold(b) <==> a < b
  {
  }

  /** While the leaving time is still in the window, every accepted call must leave it a place. */
  lemma JoiningLeavesRoom(rules: Rules, held: seq<real>, at: real, leaving: real, until: real)
    requires leaving == rules.Threshold(until) && leaving in held && at < until
    requires |After(held, rules.Threshold(at))| < rules.limit
    ensures |After(held + [at], leaving)| < rules.limit
  {
    Thresholds(rules, at, until);
    AfterShrinks(held, rules.Threshold(at), leaving);
    SnocCount(held, at, leaving);
  }

  lemma FirstRoom(rules: Rules, log: Log, c: Client, now: real, leaving: real)
    requires Denied(rules, log, c, now) && leaving in Filling(rules, log, c, now)
    ensures leaving in Current(rules, log, c) && |After(Current(rules, log, c), leaving)| < rules.limit
  {
    DeniedHoldsLimit(rules, log, c, now);
    AfterMembers(Current(rules, log, c), rules.Threshold(now));
    AfterShrinks(Current(rules, log, c), rules.Threshold(now), leaving);
  }

  lemma {:induction false} RoomStays(
      rules: Rules, log: Log, more: Log, c: Client, now: real, leaving: real, until: real)
    requires Denied(rules, log, c, now) && leaving in Filling(rules, log, c, now) && leaving == rules.Threshold(until)
    requires Lawful(rules, log + more) && StaysTracked(rules, log, more, c) && CallsBefore(more, c, until)
    ensures leaving in Current(rules, log + more, c) && |After(Current(rules, log + more, c), leaving)| < rules.limit
    decreases |more|
  {
    if more == [] {
      assert log + more == log;
      FirstRoom(rules, log, c, now, leaving);
    } else {
      var init, e := SnocParts(log, more);
      assert e in more && forall d :: d in init ==> d in more;
      RoomStays(rules, log, init, c, now, leaving, until);
      TrackedStep(rules, log + init, e, c);
      if e.client == c && e.allowed {
        JoiningLeavesRoom(rules, Current(rules, log + init, c), e.at, leaving, until);
      } else {
        assert Current(rules, log + init, c) + [] == Current(rules, log + init, c);
      }
    }
  }

  // ---------------------------------------------------------------- otherwise the place can be taken

  /** The same accepted call again and again. */
  function Calls(c: Client, at: real, n: nat): Log {
    if n == 0 then [] else Calls(c, at, n - 1) + [Event(c, at, true)]
  }

  lemma OwnTracked(rules: Rules, log: Log, e: Event)
    requires rules.Valid()
    ensures e.client in Tracked(rules, log + [e])
  {
    assert (log + [e])[..|log|] == log;
    var all := Recency(log + [e]);
    assert all[|all| - 1] == e.client;
    assert Tracked(rules, log + [e])[|Tracked(rules, log + [e])| - 1] == e.client;
  }

  lemma StaysTrackedStep(rules: Rules, log: Log, more: Log, e: Event)
    requires rules.Valid() && StaysTracked(rules, log, more, e.client)
    ensures StaysTracked(rules, log, more + [e], e.client)
    ensures (log + more) + [e] == log + (more + [e])
  {
    assert (log + more) + [e] == log + (more + [e]);
    assert (more + [e])[..|more|] == more;
    OwnTracked(rules, log + more, e);
  }

  /** How many held times are later than a threshold. */
  function Used(rules: Rules, log: Log, c: Client, threshold: real): nat {
    |After(Current(rules, log, c), threshold)|
  }

  /** A lawful continuation of a tracked client whose clock has not passed an instant. */
  ghost predicate Reaches(rules: Rules, log: Log, more: Log, c: Client, at: real) {
    Lawful(rules, log + more) && StaysTracked(rules, log, more, c) && NotBefore(log + more, at)
  }

  lemma AcceptOne(rules: Rules, log: Log, more: Log, c: Client, at: real)
    requires rules.Valid() && Reaches(rules, log, more, c, at)
    requires Used(rules, log + more, c, rules.Threshold(at)) < rules.limit
    ensures Reaches(rules, log, more + [Event(c, at, true)], c, at)
  {
    var e := Event(c, at, true);
    StaysTrackedStep(rules, log, more, e);
    LawfulStep(rules, log + more, e);
  }

  lemma UsesOneMore(rules: Rules, log: Log, more: Log, c: Client, at: real, threshold: real)
    requires rules.Valid() && StaysTracked(rules, log, more, c) && threshold < at
    ensures Used(rules, log + (more + [Event(c, at, true)]), c, threshold) == Used(rules, log + more, c, threshold) + 1
  {
    var e := Event(c, at, true);
    StaysTrackedStep(rules, log, more, e);
    TrackedStep(rules, log + more, e, c);
    SnocCount(Current(rules, log + more, c), at, threshold);
  }

  lemma CallsStep(more: Log, c: Client, at: real, n: nat)
    requires n > 0
    ensures (more + Calls(c, at, n - 1)) + [Event(c, at, true)] == more + Calls(c, at, n)
  {
  }

  /** A continuation with some places left, both in the window at an instant and after a threshold. */
  ghost predicate Places(rules: Rules, log: Log, c: Client, at: real, threshold: real, more: Log, room: nat) {
    && Reaches(rules, log, more, c, at)
    && Used(rules, log + more, c, rules.Threshold(at)) + room == rules.limit
    && Used(rules, log + more, c, threshold) + room == rules.limit
  }

  ghost function PlacesLeft(rules: Rules, log: Log, c: Client, at: real, threshold: real): (Log, nat) -> bool {
    (more: Log, room: nat) => Places(rules, log, c, at, threshold, more, room)
  }

  /** One more call uses one place. */
  ghost predicate UsesPlaces(state: (Log, nat) -> bool, e: Event) {
    forall more, room, later, left {:trigger state(more, room), state(later, left)} ::
      state(more, room) && room == left + 1 && later == more + [e] ==> state(later, left)
  }

  lemma OnePlace(rules: Rules, log: Log, c: Client, at: real, threshold: real, more: Log, room: nat)
    requires rules.Valid() && threshold < at && room > 0 && Places(rules, log, c, at, threshold, more, room)
    ensures Places(rules, log, c, at, threshold, more + [Event(c, at, true)], room - 1)
  {
    WindowPositive(rules, at);
    AcceptOne(rules, log, more, c, at);
    UsesOneMore(rules, log, more, c, at, threshold);
    UsesOneMore(rules, log, more, c, at, rules.Threshold(at));
  }

  lemma {:induction false} CalledAgain(state: (Log, nat) -> bool, c: Client, at: real, more: Log, room: nat, n: nat)
    requires UsesPlaces(state, Event(c, at, true)) && state(more, room) && n <= room
    ensures state(more + Calls(c, at, n), room - n)
    decreases n
  {
    if n == 0 {
      assert more + [] == more;
    } else {
      CalledAgain(state, c, at, more, room, n - 1);
      CallsStep(more, c, at, n);
      assert state(more + Calls(c, at, n - 1), room - n + 1);
      var later := (more + Calls(c, at, n - 1)) + [Event(c, at, true)];
      assert state(later, room - n);
    }
  }

  /** As many calls as there is room for are accepted at once. */
  lemma AcceptMany(rules: Rules, log: Log, c: Client, at: real, threshold: real, more: Log, room: nat)
    requires rules.Valid() && threshold < at && Places(rules, log, c, at, threshold, more, room)
    ensures Places(rules, log, c, at, threshold, more + Calls(c, at, room), 0)
  {
    var state := PlacesLeft(rules, log, c, at, threshold);
    forall more, room, later, left {:trigger state(more, room), state(later, left)} |
      state(more, room) && room == left + 1 && later == more + [Event(c, at, true)]
      ensures state(later, left)
    {
      OnePlace(rules, log, c, at, threshold, more, room);
    }
    CalledAgain(state, c, at, more, room, room);
  }

  lemma WindowPositive(rules: Rules, at: real)
    requires rules.Valid()
    ensures rules.Threshold(at) < at
  {
  }

  lemma {:induction false} CallsAre(c: Client, at: real, n: nat)
    ensures forall e :: e in Calls(c, at, n) ==> e == Event(c, at, true)
  {
    if n > 0 {
      CallsAre(c, at, n - 1);
    }
  }

  /** The greatest of some times that is no later than a bound. */
  lemma {:induction false} GreatestUpTo(s: seq<real>, bound: real) returns (p: real)
    requires exists t :: t in s && t <= bound
    ensures p in s && p <= bound && forall t :: t in s && t <= bound ==> t <= p
    decreases |s|
  {
    var init, last := s[..|s| - 1], s[|s| - 1];
    assert s == init + [last];
    if exists t :: t in init && t <= bound {
      p := GreatestUpTo(init, bound);
      if p < last <= bound {
        p := last;
      }
    } else {
      p := last;
    }
  }

  lemma {:induction false} NothingBetween(s: seq<real>, low: real, high: real)
    requires low <= high && forall t :: t in s && t <= high ==> t <= low
    ensures After(s, low) == After(s, high)
    decreases |s|
  {
    if s != [] {
      var init, last := s[..|s| - 1], s[|s| - 1];
      assert s == init + [last];
      assert last in s && forall t :: t in init ==> t in s;
      NothingBetween(init, low, high);
    }
  }

  /** The denial itself, appended to the log. */
  lemma DenialRecorded(rules: Rules, log: Log, c: Client, now: real)
    requires Denied(rules, log, c, now)
    ensures Reaches(rules, log, [Event(c, now, false)], c, now)
    ensures Current(rules, log + [Event(c, now, false)], c) == Current(rules, log, c)
  {
    var e := Event(c, now, false);
    DeniedHoldsLimit(rules, log, c, now);
    assert log + [] == log && [] + [e] == [e];
    StaysTrackedStep(rules, log, [], e);
    LawfulStep(rules, log, e);
    TrackedStep(rules, log, e, c);
    assert Current(rules, log, c) + [] == Current(rules, log, c);
  }

  /** Between a freed time and the next one still stored, equally many times are later. */
  lemma SameRoom(held: seq<real>, low: real, freed: real, leaving: real)
    requires low <= freed <= leaving
    requires forall t :: t in After(held, low) && t <= leaving ==> t <= freed
    ensures |After(held, freed)| == |After(held, leaving)| <= |After(held, low)|
  {
    NothingBetween(After(held, low), freed, leaving);
    AfterAgain(held, low, freed);
    AfterAgain(held, low, leaving);
    AfterShrinks(held, low, freed);
  }

  lemma FreedInstant(rules: Rules, freed: real, now: real, until: real)
    requires rules.Threshold(now) < freed < rules.Threshold(until) <= now
    ensures var at := freed + rules.window as real;
      rules.Threshold(at) == freed && now < at < until && rules.Threshold(until) < at && now < until
  {
  }

  lemma CallsComeBefore(c: Client, now: real, at: real, n: nat, until: real)
    requires now < until && at < until
    ensures CallsBefore([Event(c, now, false)] + Calls(c, at, n), c, until)
  {
    CallsAre(c, at, n);
  }

  /** A place freed strictly before the advised instant can be taken again before it. */
  lemma PlacesTaken(rules: Rules, log: Log, c: Client, now: real, freed: real, until: real) returns (more: Log)
    requires Denied(rules, log, c, now) && freed in Filling(rules, log, c, now)
    requires freed < rules.Threshold(until) <= now
    requires forall t :: t in Filling(rules, log, c, now) && t <= rules.Threshold(until) ==> t <= freed
    ensures Continues(rules, log, more, c, now, until) && NotBefore(log + more, until)
    ensures !Allows(rules, log + more, c, until)
  {
    var d := [Event(c, now, false)];
    var at, leaving := freed + rules.window as real, rules.Threshold(until);
    AfterMembers(Current(rules, log, c), rules.Threshold(now));
    FreedInstant(rules, freed, now, until);
    var room := PlacesFreed(rules, log, c, now, freed, at, leaving);
    AcceptMany(rules, log, c, at, leaving, d, room);
    CallsComeBefore(c, now, at, room, until);
    more := d + Calls(c, at, room);
    TakenPlaces(rules, log, more, c, at, until);
  }

  /** After the denial is recorded, the freed places are the ones left. */
  lemma PlacesFreed(rules: Rules, log: Log, c: Client, now: real, freed: real, at: real, leaving: real) returns (room: nat)
    requires Denied(rules, log, c, now) && freed in Filling(rules, log, c, now) && freed <= leaving
    requires freed == rules.Threshold(at) && now <= at
    requires forall t :: t in Filling(rules, log, c, now) && t <= leaving ==> t <= freed
    ensures Places(rules, log, c, at, leaving, [Event(c, now, false)], room)
  {
    DenialRecorded(rules, log, c, now);
    DeniedHoldsLimit(rules, log, c, now);
    AfterMembers(Current(rules, log, c), rules.Threshold(now));
    SameRoom(Current(rules, log, c), rules.Threshold(now), freed, leaving);
    room := rules.limit - Used(rules, log, c, freed);
  }

  /** With no place left after the threshold of an instant, a call at that instant is denied. */
  lemma TakenPlaces(rules: Rules, log: Log, more: Log, c: Client, at: real, until: real)
    requires Places(rules, log, c, at, rules.Threshold(until), more, 0) && at <= until
    ensures Lawful(rules, log + more) && StaysTracked(rules, log, more, c) && NotBefore(log + more, until)
    ensures !Allows(rules, log + more, c, until)
  {
  }

  /**
   The advice given with a denial holds, whatever happens next, exactly when some stored time leaves the
   window at the advised instant itself.
   */
  lemma AdviceHoldsExactly(rules: Rules, log: Log, c: Client, now: real)
    requires Denied(rules, log, c, now)
    ensures Filling(rules, log, c, now) != []
    ensures AdviceHolds(rules, log, c, now) <==>
            rules.Threshold(Advised(rules, log, c, now)) in Filling(rules, log, c, now)
  {
    FillingOrdered(rules, log, c, now);
    var filling := Filling(rules, log, c, now);
    var until := Advised(rules, log, c, now);
    var leaving := rules.Threshold(until);
    if leaving in filling {
      forall more, at | Continues(rules, log, more, c, now, until) && until <= at && NotBefore(log + more, at)
        ensures Allows(rules, log + more, c, at)
      {
        RoomStays(rules, log, more, c, now, leaving, until);
        Thresholds(rules, at, until);
        AfterShrinks(Current(rules, log + more, c), leaving, rules.Threshold(at));
      }
    } else {
      RetryIsLeast(rules.window, now, filling[0], RetryAfter(rules.window, now, filling[0]));
      assert filling[0] in filling && filling[0] <= leaving <= now;
      var freed := GreatestUpTo(filling, leaving);
      var more := PlacesTaken(rules, log, c, now, freed, until);
    }
  }

  // ---------------------------------------------------------------- a run in which the advice fails

  /** One more lawful call of the only client. */
  lemma OneMore(rules: Rules, log: Log, e: Event, held: seq<real>)
    requires rules.maxClients == 1 && Lawful(rules, log) && NotBefore(log, e.at)
    requires Recency(log) == (if log == [] then [] else [e.client]) && held == Current(rules, log, e.client)
    requires e.allowed <==> |After(held, rules.Threshold(e.at))| < rules.limit
    ensures Lawful(rules, log + [e]) && Recency(log + [e]) == [e.client] == Tracked(rules, log + [e])
    ensures Current(rules, log + [e], e.client) == held + (if e.allowed then [e.at] else [])
  {
    assert (log + [e])[..|log|] == log;
    HeldStep(rules, log, e, e.client);
    assert Without([], e.client) == [];
    assert Without([e.client], e.client) == [] by {
      assert [e.client][1..] == [];
    }
  }

  /** The times a short list keeps. */
  lemma Kept(s: seq<real>, threshold: real)
    requires |s| <= 3
    ensures After(s, threshold)
         == (if |s| > 0 && s[0] > threshold then [s[0]] else [])
          + (if |s| > 1 && s[1] > threshold then [s[1]] else [])
          + (if |s| > 2 && s[2] > threshold then [s[2]] else [])
  {
    if |s| == 3 {
      assert s[..2][..1] == s[..1];
      Kept(s[..2], threshold);
    } else if |s| == 2 {
      Kept(s[..1], threshold);
    } else if |s| == 1 {
      assert s[..0] == [];
    }
  }

  const SAMPLE := Rules(2, 10, 1)

  lemma SampleWindows()
    ensures After([0.0], SAMPLE.Threshold(5.0)) == [0.0]
    ensures After([0.0, 5.0], SAMPLE.Threshold(7.7)) == [0.0, 5.0]
    ensures After([0.0, 5.0], SAMPLE.Threshold(10.2)) == [5.0]
    ensures After([0.0, 5.0, 10.2], SAMPLE.Threshold(10.7)) == [5.0, 10.2]
  {
    Kept([0.0], SAMPLE.Threshold(5.0));
    Kept([0.0, 5.0], SAMPLE.Threshold(7.7));
    Kept([0.0, 5.0], SAMPLE.Threshold(10.2));
    Kept([0.0, 5.0, 10.2], SAMPLE.Threshold(10.7));
  }

  /** The state of the sample limiter after some calls of its one client. */
  ghost predicate Sampled(log: Log, c: Client, last: real, held: seq<real>) {
    && Lawful(SAMPLE, log) && log != [] && log[|log| - 1].at == last
    && Recency(log) == [c] == Tracked(SAMPLE, log) && Current(SAMPLE, log, c) == held
  }

  lemma SampleCall(log: Log, c: Client, last: real, held: seq<real>, at: real, allowed: bool)
    requires Sampled(log, c, last, held) && last <= at
    requires allowed <==> |After(held, SAMPLE.Threshold(at))| < 2
    ensures Sampled(log + [Event(c, at, allowed)], c, at, held + (if allowed then [at] else []))
  {
    OneMore(SAMPLE, log, Event(c, at, allowed), held);
  }

  lemma FirstCall(c: Client)
    ensures Sampled([Event(c, 0.0, true)], c, 0.0, [0.0])
  {
    OneMore(SAMPLE, [], Event(c, 0.0, true), []);
    assert [] + [Event(c, 0.0, true)] == [Event(c, 0.0, true)];
  }

  lemma StillTracked(log: Log, more: Log, e: Event, c: Client)
    requires StaysTracked(SAMPLE, log, more, c) && c in Tracked(SAMPLE, (log + more) + [e])
    ensures StaysTracked(SAMPLE, log, more + [e], c)
  {
    assert (log + more) + [e] == log + (more + [e]);
    assert (more + [e])[..|more|] == more;
  }

  /** Accepted at 0 and 5 seconds, the limit being two in ten seconds. */
  lemma SampleStart(c: Client) returns (log: Log)
    ensures Sampled(log, c, 5.0, [0.0, 5.0])
  {
    SampleWindows();
    FirstCall(c);
    SampleCall([Event(c, 0.0, true)], c, 0.0, [0.0], 5.0, true);
    log := [Event(c, 0.0, true)] + [Event(c, 5.0, true)];
    assert [0.0] + [5.0] == [0.0, 5.0];
  }

  lemma SampleDenied(log: Log, c: Client) returns (more: Log)
    requires Sampled(log, c, 5.0, [0.0, 5.0])
    ensures more == [Event(c, 7.7, false)]
    ensures Sampled(log + more, c, 7.7, [0.0, 5.0]) && StaysTracked(SAMPLE, log, more, c)
  {
    SampleWindows();
    SampleCall(log, c, 5.0, [0.0, 5.0], 7.7, false);
    assert [0.0, 5.0] + [] == [0.0, 5.0];
    more := [Event(c, 7.7, false)];
    assert log + [] == log && [] + more == more;
    StillTracked(log, [], Event(c, 7.7, false), c);
  }

  lemma SampleThird(log: Log, c: Client)
    requires Sampled(log, c, 7.7, [0.0, 5.0])
    ensures Sampled(log + [Event(c, 10.2, true)], c, 10.2, [0.0, 5.0, 10.2])
  {
    SampleWindows();
    SampleCall(log, c, 7.7, [0.0, 5.0], 10.2, true);
    assert [0.0, 5.0] + [10.2] == [0.0, 5.0, 10.2];
  }

  lemma SampleAccepted(log: Log, denied: Log, c: Client) returns (more: Log)
    requires denied == [Event(c, 7.7, false)]
    requires Sampled(log + denied, c, 7.7, [0.0, 5.0]) && StaysTracked(SAMPLE, log, denied, c)
    ensures more == denied + [Event(c, 10.2, true)]
    ensures Sampled(log + more, c, 10.2, [0.0, 5.0, 10.2]) && StaysTracked(SAMPLE, log, more, c)
  {
    var later := Event(c, 10.2, true);
    SampleThird(log + denied, c);
    more := denied + [later];
    assert (log + denied) + [later] == log + more;
    StillTracked(log, denied, later, c);
  }

  /** Denied at 7.7 seconds and accepted at 10.2. */
  lemma SampleRun(c: Client) returns (log: Log, more: Log)
    ensures Sampled(log, c, 5.0, [0.0, 5.0]) && Sampled(log + more, c, 10.2, [0.0, 5.0, 10.2])
    ensures StaysTracked(SAMPLE, log, more, c)
    ensures CallsBefore(more, c, 10.7)
  {
    log := SampleStart(c);
    var denied := SampleDenied(log, c);
    more := SampleAccepted(log, denied, c);
  }

  /** With a fractional wait a call let in before the advice can use up the room the advice promised. */
  lemma AdviceCanFail() returns (rules: Rules, log: Log, more: Log, c: Client, now: real, at: real)
    ensures rules.Valid() && Lawful(rules, log) && Lawful(rules, log + more) && NotBefore(log, now)
    ensures !Allows(rules, log, c, now) && StaysTracked(rules, log, more, c)
    ensures Filling(rules, log, c, now) != []
    ensures now + RetryAfter(rules.window, now, Filling(rules, log, c, now)[0]) as real == at
    ensures CallsBefore(more, c, at) && !Allows(rules, log + more, c, at)
  {
    rules, c, now, at := SAMPLE, "a", 7.7, 10.7;
    log, more := SampleRun(c);
    SampleWindows();
    assert RetryAfter(10, 7.7, 0.0) == 3;
  }
}

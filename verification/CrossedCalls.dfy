/** The window bound when calls are served in another order than they read the clock. */
module CrossedCalls {
  import opened LimiterLog
  import opened LimiterQueue
  import opened LimiterAdvice

  /** No call of the client read the clock later than an instant. */
  predicate ReadBy(log: Log, c: Client, t: real) {
    forall e :: e in log && e.client == c ==> e.at <= t
  }

  /** The client's own readings never go back; other clients may have read in any order. */
  ghost predicate OwnForward(log: Log, c: Client) {
    log == [] ||
    var init, e := log[..|log| - 1], log[|log| - 1];
    OwnForward(init, c) && (e.client == c ==> ReadBy(init, c, e.at))
  }

  // ---------------------------------------------------------------- the latest window

  /** Pruning at an earlier threshold removes nothing later than this one. */
  lemma {:induction false} PrunedKeepsLater(queue: seq<real>, low: real, x: real)
    requires low <= x
    ensures After(Pruned(queue, low), x) == After(queue, x)
    decreases |queue|
  {
    if queue != [] && queue[0] <= low {
      assert queue == [queue[0]] + queue[1..];
      AfterConcat([queue[0]], queue[1..], x);
      AfterOne(queue[0], x);
      PrunedKeepsLater(queue[1..], low, x);
    }
  }

  /** The queue still holds every accepted time that no call of the client could have pruned. */
  lemma {:induction false} QueuedIsHeldLater(rules: Rules, log: Log, c: Client, t: real)
    requires ReadBy(log, c, t)
    ensures After(Queued(rules, log, c), rules.Threshold(t)) == After(Held(rules, log, c), rules.Threshold(t))
    decreases |log|
  {
    if log != [] {
      var init, e := log[..|log| - 1], log[|log| - 1];
      assert log == init + [e] && forall d :: d in init ==> d in log;
      QueuedIsHeldLater(rules, init, c, t);
      if e.client == c {
        assert e in log;
        var joined, x := if e.allowed then [e.at] else [], rules.Threshold(t);
        PrunedKeepsLater(Starting(rules, init, c), rules.Threshold(e.at), x);
        AfterConcat(Waiting(rules, init, c, e.at), joined, x);
        AfterConcat(Current(rules, init, c), joined, x);
        QueuedStep(rules, init, e, c);
        HeldStep(rules, init, e, c);
      }
    }
  }

  /** A queue never outgrows the limit. */
  lemma {:induction false} QueuedIsBounded(rules: Rules, log: Log, c: Client)
    requires rules.Valid() && Served(rules, log)
    ensures |Queued(rules, log, c)| <= rules.limit
    decreases |log|
  {
    if log != [] {
      var init, e := log[..|log| - 1], log[|log| - 1];
      assert log == init + [e];
      QueuedIsBounded(rules, init, c);
      QueuedStep(rules, init, e, c);
      PrunedIsShorter(Starting(rules, init, c), rules.Threshold(e.at));
    }
  }

  lemma {:induction false} PrunedIsShorter(queue: seq<real>, threshold: real)
    ensures |Pruned(queue, threshold)| <= |queue|
    ensures forall t :: t in Pruned(queue, threshold) ==> t in queue
    decreases |queue|
  {
    if queue != [] && queue[0] <= threshold {
      PrunedIsShorter(queue[1..], threshold);
    }
  }

  /** In whatever order calls are served, the window up to the client's latest reading keeps the limit. */
  lemma LatestWindowBound(rules: Rules, log: Log, c: Client, t: real)
    requires rules.Valid() && Served(rules, log) && ReadBy(log, c, t)
    ensures |After(Current(rules, log, c), rules.Threshold(t))| <= rules.limit
  {
    QueuedIsHeldLater(rules, log, c, t);
    QueuedIsBounded(rules, log, c);
    AfterMembers(Queued(rules, log, c), rules.Threshold(t));
  }

  // ---------------------------------------------------------------- readings that go forward

  /** A call admitted no earlier than its client's latest reading finds room in the window itself. */
  lemma AdmittedHasRoom(rules: Rules, log: Log, c: Client, now: real)
    requires ReadBy(log, c, now) && Admits(rules, log, c, now)
    ensures |After(Current(rules, log, c), rules.Threshold(now))| < rules.limit
  {
    QueuedIsHeldLater(rules, log, c, now);
    PrunedKeepsLater(Starting(rules, log, c), rules.Threshold(now), rules.Threshold(now));
    AfterMembers(Waiting(rules, log, c, now), rules.Threshold(now));
  }

  /** One call that does not go back keeps the bound of every window. */
  lemma ForwardCallKeepsBound(rules: Rules, log: Log, e: Event, x: real)
    requires ReadBy(log, e.client, e.at) && (e.allowed ==> Admits(rules, log, e.client, e.at))
    requires |Within(Current(rules, log, e.client), x, rules.window)| <= rules.limit
    ensures |Within(Held(rules, log + [e], e.client), x, rules.window)| <= rules.limit
  {
    var before := Current(rules, log, e.client);
    HeldStep(rules, log, e, e.client);
    assert before + [] == before;
    if e.allowed {
      AdmittedHasRoom(rules, log, e.client, e.at);
      JoiningKeepsBound(before, e.at, x, rules.window, rules.Threshold(e.at), rules.limit);
    }
  }

  /** The window bound needs only the client's own readings to go forward. */
  lemma {:induction false} OwnForwardBound(rules: Rules, log: Log, c: Client, x: real)
    requires rules.Valid() && Served(rules, log) && OwnForward(log, c)
    ensures |Within(Held(rules, log, c), x, rules.window)| <= rules.limit
    decreases |log|
  {
    if log != [] {
      var init, e := log[..|log| - 1], log[|log| - 1];
      assert log == init + [e];
      OwnForwardBound(rules, init, c, x);
      if e.client == c {
        ForwardCallKeepsBound(rules, init, e, x);
      }
    }
  }

  // ---------------------------------------------------------------- a limit of one

  /** Accepted times that are at least a window apart, the last of them the whole queue. */
  ghost predicate Lone(held: seq<real>, kept: seq<real>) {
    if held == [] then kept == [] else kept == [held[|held| - 1]] && UpTo(held, held[|held| - 1])
  }

  lemma LoneCall(rules: Rules, held: seq<real>, kept: seq<real>, at: real, x: real)
    requires rules.Valid() && rules.limit == 1 && Lone(held, kept) && |Pruned(kept, rules.Threshold(at))| < 1
    requires |Within(held, x, rules.window)| <= 1
    ensures Lone(held + [at], [at]) && |Within(held + [at], x, rules.window)| <= 1
  {
    if held != [] {
      assert kept[0] <= rules.Threshold(at);
    }
    assert UpTo(held, rules.Threshold(at));
    AfterMembers(held, rules.Threshold(at));
    JoiningKeepsBound(held, at, x, rules.window, rules.Threshold(at), 1);
  }

  lemma PrunedLone(kept: seq<real>, threshold: real)
    requires |kept| <= 1 && |Pruned(kept, threshold)| == 1
    ensures Pruned(kept, threshold) == kept
  {
  }

  /** A limit of one is kept in every window, in whatever order calls are served. */
  lemma {:induction false} LoneBound(rules: Rules, log: Log, c: Client, x: real)
    requires rules.Valid() && rules.limit == 1 && Served(rules, log)
    ensures Lone(Held(rules, log, c), Queued(rules, log, c))
    ensures |Within(Held(rules, log, c), x, rules.window)| <= 1
    decreases |log|
  {
    if log != [] {
      var init, e := log[..|log| - 1], log[|log| - 1];
      assert log == init + [e];
      LoneBound(rules, init, c, x);
      if e.client == c {
        var held, kept := Current(rules, init, c), Starting(rules, init, c);
        HeldStep(rules, init, e, c);
        QueuedStep(rules, init, e, c);
        if e.allowed {
          LoneCall(rules, held, kept, e.at, x);
          assert Waiting(rules, init, c, e.at) == [];
        } else {
          PrunedIsShorter(kept, rules.Threshold(e.at));
          PrunedLone(kept, rules.Threshold(e.at));
          assert held + [] == held && kept + [] == kept;
        }
      }
    }
  }

  // ---------------------------------------------------------------- exactly when a call is safe

  /** What the limiter books for a call. */
  function Booked(rules: Rules, log: Log, c: Client, now: real): Log {
    log + [Event(c, now, Admits(rules, log, c, now))]
  }

  /** A run in which the client's readings went forward, none past an instant. */
  ghost predicate CameBy(rules: Rules, log: Log, c: Client, latest: real) {
    Served(rules, log) && OwnForward(log, c) && ReadBy(log, c, latest)
  }

  /** After every such run, a call keeps every window within the limit. */
  ghost predicate Safe(rules: Rules, c: Client, latest: real, now: real) {
    forall log, x ::
      CameBy(rules, log, c, latest) ==> |Within(Held(rules, Booked(rules, log, c, now), c), x, rules.window)| <= rules.limit
  }

  /** The same time a number of times. */
  function Copies(t: real, n: nat): seq<real> {
    if n == 0 then [] else Copies(t, n - 1) + [t]
  }

  lemma {:induction false} CopiesCounted(t: real, n: nat, x: real, window: nat)
    ensures |Copies(t, n)| == n && (forall u :: u in Copies(t, n) ==> u == t)
    ensures x < t <= x + window as real ==> |Within(Copies(t, n), x, window)| == n
  {
    if n > 0 {
      CopiesCounted(t, n - 1, x, window);
      WithinSnoc(Copies(t, n - 1), t, x, window);
    }
  }

  lemma {:induction false} PrunedUniform(queue: seq<real>, t: real, threshold: real)
    requires forall u :: u in queue ==> u == t
    ensures Pruned(queue, threshold) == if t > threshold then queue else []
    decreases |queue|
  {
    if queue != [] && t <= threshold {
      assert queue[0] in queue && forall u :: u in queue[1..] ==> u in queue;
      PrunedUniform(queue[1..], t, threshold);
    } else if queue != [] {
      assert queue[0] in queue;
    }
  }

  /** A run of a single client, what is stored for it and what it was granted. */
  ghost predicate Holds(rules: Rules, log: Log, c: Client, t: real, kept: seq<real>, held: seq<real>) {
    && CameBy(rules, log, c, t) && Starting(rules, log, c) == kept && Current(rules, log, c) == held
  }

  lemma Granted(rules: Rules, log: Log, c: Client, t: real, kept: seq<real>, held: seq<real>, at: real)
    requires rules.Valid() && Holds(rules, log, c, t, kept, held) && t <= at
    requires |Pruned(kept, rules.Threshold(at))| < rules.limit
    ensures Holds(rules, log + [Event(c, at, true)], c, at, Pruned(kept, rules.Threshold(at)) + [at], held + [at])
  {
    var e := Event(c, at, true);
    ServedStep(rules, log, e);
    QueuedStep(rules, log, e, c);
    HeldStep(rules, log, e, c);
    OwnTracked(rules, log, e);
    assert (log + [e])[..|log|] == log;
  }

  /** A call at the instant of all the stored ones joins them while there is room. */
  lemma AnotherGranted(rules: Rules, log: Log, c: Client, t: real, full: seq<real>)
    requires rules.Valid() && Holds(rules, log, c, t, full, full)
    requires |full| < rules.limit && forall u :: u in full ==> u == t
    ensures Holds(rules, log + [Event(c, t, true)], c, t, full + [t], full + [t])
  {
    WindowPositive(rules, t);
    PrunedUniform(full, t, rules.Threshold(t));
    Granted(rules, log, c, t, full, full, t);
  }

  /** All calls of a client were at one instant, and a number of places is left. */
  ghost predicate LeavesRoom(rules: Rules, c: Client, t: real, log: Log, room: nat) {
    && room <= rules.limit
    && Holds(rules, log, c, t, Copies(t, rules.limit - room), Copies(t, rules.limit - room))
  }

  lemma OneMoreCopy(rules: Rules, c: Client, t: real, log: Log, room: nat)
    requires rules.Valid() && LeavesRoom(rules, c, t, log, room) && room > 0
    ensures LeavesRoom(rules, c, t, log + [Event(c, t, true)], room - 1)
  {
    var n := rules.limit - room;
    CopiesCounted(t, n, t, 0);
    AnotherGranted(rules, log, c, t, Copies(t, n));
  }

  ghost function RoomLeft(rules: Rules, c: Client, t: real): (Log, nat) -> bool {
    (log: Log, room: nat) => LeavesRoom(rules, c, t, log, room)
  }

  lemma NoCallsYet(rules: Rules, c: Client, t: real)
    ensures LeavesRoom(rules, c, t, [], rules.limit)
  {
  }

  lemma AfterNothing(log: Log)
    ensures [] + log == log
  {
  }

  /** Up to the limit, calls at one instant are all granted. */
  lemma CallsGranted(rules: Rules, c: Client, t: real)
    requires rules.Valid()
    ensures LeavesRoom(rules, c, t, Calls(c, t, rules.limit), 0)
  {
    var state := RoomLeft(rules, c, t);
    forall log, room, later, left {:trigger state(log, room), state(later, left)} |
      state(log, room) && room == left + 1 && later == log + [Event(c, t, true)]
      ensures state(later, left)
    {
      OneMoreCopy(rules, c, t, log, room);
    }
    NoCallsYet(rules, c, t);
    CalledAgain(state, c, t, [], rules.limit, rules.limit);
    AfterNothing(Calls(c, t, rules.limit));
  }

  /** A full window, then a call that finds it gone, then one that read the clock before that. */
  lemma LateCallExceeds(rules: Rules, c: Client, latest: real, now: real) returns (log: Log, x: real)
    requires rules.Valid() && rules.limit >= 2 && now < latest
    ensures CameBy(rules, log, c, latest)
    ensures |Within(Held(rules, Booked(rules, log, c, now), c), x, rules.window)| > rules.limit
  {
    x := rules.Threshold(now);
    var gone := rules.Threshold(latest);
    var t := if now <= gone then now else gone;
    var full := Copies(t, rules.limit);
    CallsGranted(rules, c, t);
    CopiesCounted(t, rules.limit, x, rules.window);
    PrunedUniform(full, t, gone);
    Granted(rules, Calls(c, t, rules.limit), c, t, full, full, latest);
    log := Calls(c, t, rules.limit) + [Event(c, latest, true)];
    assert [] + [latest] == [latest];
    var e := Event(c, now, Admits(rules, log, c, now));
    assert Waiting(rules, log, c, now) == [latest];
    HeldStep(rules, log, e, c);
    WithinSnoc(full, latest, x, rules.window);
    WithinSnoc(full + [latest], now, x, rules.window);
  }

  /** A call is safe after every such run exactly when the limit is one or the client's clock has not gone back. */
  lemma CrossingExactly(rules: Rules, c: Client, latest: real, now: real)
    requires rules.Valid()
    ensures Safe(rules, c, latest, now) <==> rules.limit == 1 || latest <= now
  {
    if rules.limit == 1 || latest <= now {
      forall log, x | CameBy(rules, log, c, latest)
        ensures |Within(Held(rules, Booked(rules, log, c, now), c), x, rules.window)| <= rules.limit
      {
        CallIsSafe(rules, log, c, latest, now, x);
      }
    } else {
      var log, x := LateCallExceeds(rules, c, latest, now);
    }
  }

  lemma CallIsSafe(rules: Rules, log: Log, c: Client, latest: real, now: real, x: real)
    requires rules.Valid() && CameBy(rules, log, c, latest) && (rules.limit == 1 || latest <= now)
    ensures |Within(Held(rules, Booked(rules, log, c, now), c), x, rules.window)| <= rules.limit
  {
    var e := Event(c, now, Admits(rules, log, c, now));
    ServedStep(rules, log, e);
    if rules.limit == 1 {
      LoneBound(rules, Booked(rules, log, c, now), c, x);
    } else {
      OwnForwardBound(rules, log, c, x);
      ForwardCallKeepsBound(rules, log, e, x);
    }
  }
}

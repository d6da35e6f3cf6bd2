/**
 What the limiter stores and decides for any clock readings, in the order in which its lock was taken.
 The clock is read before the lock, so a reading may be earlier than the one served before it.
 */
module LimiterQueue {
  import opened LimiterLog

  /** A queue without the times at its front that have left the window. */
  function Pruned(queue: seq<real>, threshold: real): seq<real> {
    if queue == [] || queue[0] > threshold then queue else Pruned(queue[1..], threshold)
  }

  /** The queue kept for a client: pruned at each of its calls, and joined by the accepted ones. */
  function Queued(rules: Rules, log: Log, c: Client): seq<real> {
    if log == [] then [] else
      var init, e := log[..|log| - 1], log[|log| - 1];
      if e.client != c then Queued(rules, init, c)
      else Pruned(if c in Tracked(rules, init) then Queued(rules, init, c) else [], rules.Threshold(e.at))
           + (if e.allowed then [e.at] else [])
  }

  /** The queue a call starts from: its client's, or an empty one. */
  function Starting(rules: Rules, log: Log, c: Client): seq<real> {
    if c in Tracked(rules, log) then Queued(rules, log, c) else []
  }

  /** The times that a call finds still waiting to leave. */
  function Waiting(rules: Rules, log: Log, c: Client, now: real): seq<real> {
    Pruned(Starting(rules, log, c), rules.Threshold(now))
  }

  predicate Admits(rules: Rules, log: Log, c: Client, now: real) {
    |Waiting(rules, log, c, now)| < rules.limit
  }

  /** A log whose every decision is the limiter's own, whatever its clock read. */
  ghost predicate Served(rules: Rules, log: Log) {
    log == [] ||
    var init, e := log[..|log| - 1], log[|log| - 1];
    Served(rules, init) && (e.allowed <==> Admits(rules, init, e.client, e.at))
  }

  /** No reading is earlier than the one served before it. */
  ghost predicate Forward(log: Log) {
    log == [] || (Forward(log[..|log| - 1]) && NotBefore(log[..|log| - 1], log[|log| - 1].at))
  }

  lemma QueuedStep(rules: Rules, log: Log, e: Event, c: Client)
    ensures Queued(rules, log + [e], c)
         == if e.client != c then Queued(rules, log, c)
            else Waiting(rules, log, c, e.at) + (if e.allowed then [e.at] else [])
  {
    assert (log + [e])[..|log|] == log;
  }

  lemma ServedStep(rules: Rules, log: Log, e: Event)
    requires Served(rules, log) && (e.allowed <==> Admits(rules, log, e.client, e.at))
    ensures Served(rules, log + [e])
  {
    assert (log + [e])[..|log|] == log;
  }

  // ---------------------------------------------------------------- with a clock that never goes back

  /** Pruning an ordered queue leaves exactly the times later than the threshold. */
  lemma {:induction false} PrunedOrdered(s: seq<real>, threshold: real)
    requires Ordered(s)
    ensures Pruned(s, threshold) == After(s, threshold)
    decreases |s|
  {
    if s != [] {
      if s[0] <= threshold {
        DropFront(s, threshold);
        PrunedOrdered(s[1..], threshold);
      } else {
        forall t | t in s
          ensures t > threshold
        {
          var i :| 0 <= i < |s| && s[i] == t;
          assert s[0] <= s[i];
        }
        NothingStale(s, threshold);
      }
    }
  }

  /** A tracked client was tracked before, unless the call is its own. */
  lemma TrackedBefore(rules: Rules, log: Log, e: Event, c: Client)
    requires rules.Valid() && c != e.client && c in Tracked(rules, log + [e])
    ensures c in Tracked(rules, log)
  {
    TouchedIsTracked(rules, log, e);
    var order := Tracked(rules, log);
    TrackedIsBounded(rules, log);
    WithoutMembers(order, e.client);
  }

  lemma AfterOne(t: real, threshold: real)
    ensures After([t], threshold) == if t > threshold then [t] else []
  {
    assert [t][..0] == [];
  }

  /** Pruning twice with a call between is one look at all the client's accepted times. */
  lemma PrunedAgain(held: seq<real>, allowed: bool, at: real, low: real, high: real)
    requires Ordered(held) && UpTo(held, at) && low <= high && low < at
    ensures var joined := if allowed then [at] else [];
      Pruned(After(held, low) + joined, high) == After(held + joined, high)
  {
    var joined := if allowed then [at] else [];
    AfterOrdered(held, low);
    AfterMembers(held, low);
    SnocOrdered(After(held, low), at);
    assert After(held, low) + [] == After(held, low);
    PrunedOrdered(After(held, low) + joined, high);
    AfterConcat(After(held, low), joined, high);
    AfterAgain(held, low, high);
    AfterConcat(held, joined, high);
  }

  /** With a forward clock the stored queue, once pruned, is what a fresh look at the log gives. */
  lemma {:induction false} WaitingIsFilling(rules: Rules, log: Log, c: Client, now: real)
    requires rules.Valid() && Lawful(rules, log) && NotBefore(log, now)
    ensures Waiting(rules, log, c, now) == Filling(rules, log, c, now)
    decreases |log|
  {
    if c in Tracked(rules, log) {
      var init, e := log[..|log| - 1], log[|log| - 1];
      assert log == init + [e];
      if e.client == c {
        WaitingIsFilling(rules, init, c, e.at);
        HeldOrdered(rules, init, c, e.at);
        HeldStep(rules, init, e, c);
        PrunedAgain(Current(rules, init, c), e.allowed, e.at, rules.Threshold(e.at), rules.Threshold(now));
      } else {
        TrackedBefore(rules, init, e, c);
        WaitingIsFilling(rules, init, c, now);
      }
    }
  }

  /** A lawful log is one that the limiter served while its clock never went back. */
  lemma {:induction false} LawfulExactly(rules: Rules, log: Log)
    requires rules.Valid()
    ensures Lawful(rules, log) <==> Served(rules, log) && Forward(log)
    decreases |log|
  {
    if log != [] {
      var init, e := log[..|log| - 1], log[|log| - 1];
      LawfulExactly(rules, init);
      if Lawful(rules, init) && NotBefore(init, e.at) {
        WaitingIsFilling(rules, init, e.client, e.at);
      }
    }
  }
}

/** What a sliding-window limiter must do, as a function of the full log of its evaluations. */
module LimiterLog {
  type Client = string

  /** One evaluation: who called, when, and whether the call was accepted. */
  datatype Event = Event(client: Client, at: real, allowed: bool)

  type Log = seq<Event>

  datatype Rules = Rules(limit: nat, window: nat, maxClients: nat) {
    predicate Valid() {
      limit >= 1 && window >= 1 && maxClients >= 1
    }

    /** A time no later than this has left the window that ends now. */
    function Threshold(now: real): real {
      now - window as real
    }
  }

  // ---------------------------------------------------------------- who is tracked

  function Without(s: seq<Client>, c: Client): seq<Client> {
    if s == [] then [] else
      (if s[0] == c then [] else [s[0]]) + Without(s[1..], c)
  }

  /** Every client seen so far, the least recently evaluated first. */
  function Recency(log: Log): seq<Client> {
    if log == [] then [] else
      Without(Recency(log[..|log| - 1]), log[|log| - 1].client) + [log[|log| - 1].client]
  }

  function Latest(s: seq<Client>, n: nat): seq<Client> {
    if |s| <= n then s else s[|s| - n..]
  }

  /** The most recently evaluated clients are the tracked ones. */
  function Tracked(rules: Rules, log: Log): seq<Client> {
    Latest(Recency(log), rules.maxClients)
  }

  ghost predicate Distinct(s: seq<Client>) {
    forall i, j :: 0 <= i < j < |s| ==> s[i] != s[j]
  }

  lemma {:induction false} WithoutMembers(s: seq<Client>, c: Client)
    requires Distinct(s)
    ensures Distinct(Without(s, c))
    ensures forall d :: d in Without(s, c) <==> d in s && d != c
    ensures |Without(s, c)| == if c in s then |s| - 1 else |s|
    decreases |s|
  {
    if s != [] {
      assert s == [s[0]] + s[1..];
      assert s[0] !in s[1..];
      WithoutMembers(s[1..], c);
    }
  }

  lemma {:induction false} WithoutConcat(a: seq<Client>, b: seq<Client>, c: Client)
    ensures Without(a + b, c) == Without(a, c) + Without(b, c)
    decreases |a|
  {
    if a == [] {
      assert a + b == b;
    } else {
      assert (a + b)[1..] == a[1..] + b;
      WithoutConcat(a[1..], b, c);
    }
  }

  lemma {:induction false} WithoutAbsent(s: seq<Client>, c: Client)
    requires c !in s
    ensures Without(s, c) == s
    decreases |s|
  {
    if s != [] {
      assert s == [s[0]] + s[1..];
      WithoutAbsent(s[1..], c);
    }
  }

  lemma {:induction false} RecencyDistinct(log: Log)
    ensures Distinct(Recency(log))
    decreases |log|
  {
    if log != [] {
      RecencyDistinct(log[..|log| - 1]);
      WithoutMembers(Recency(log[..|log| - 1]), log[|log| - 1].client);
    }
  }

  /** How the dictionary of clients changes when one is evaluated. */
  function Touched(order: seq<Client>, c: Client, capacity: nat): seq<Client> {
    if c in order then Without(order, c) + [c]
    else if |order| >= capacity && order != [] then order[1..] + [c]
    else order + [c]
  }

  lemma LatestOfSplit(older: seq<Client>, kept: seq<Client>, n: nat)
    requires |kept| <= n && (older != [] ==> |kept| == n)
    ensures Latest(older + kept, n) == kept
  {
    assert older == [] ==> older + kept == kept;
  }

  /** Splitting the clients by recency into forgotten and tracked ones. */
  lemma SplitLatest(all: seq<Client>, n: nat) returns (older: seq<Client>)
    ensures all == older + Latest(all, n)
    ensures |Latest(all, n)| <= n && (older != [] ==> |Latest(all, n)| == n)
  {
    older := all[..|all| - |Latest(all, n)|];
  }

  lemma DistinctParts(older: seq<Client>, order: seq<Client>, c: Client)
    requires Distinct(older + order) && c in order
    ensures Distinct(order) && c !in older
  {
    var all := older + order;
    var j :| 0 <= j < |order| && order[j] == c;
    assert all[|older| + j] == c;
    forall i | 0 <= i < |older|
      ensures older[i] != c
    {
      assert all[i] == older[i];
    }
    forall i, k | 0 <= i < k < |order|
      ensures order[i] != order[k]
    {
      assert all[|older| + i] == order[i] && all[|older| + k] == order[k];
    }
  }

  lemma TouchTracked(older: seq<Client>, order: seq<Client>, c: Client, n: nat)
    requires Distinct(older + order) && c in order && |order| <= n && (older != [] ==> |order| == n)
    ensures Latest(Without(older + order, c) + [c], n) == Touched(order, c, n)
  {
    DistinctParts(older, order, c);
    WithoutAbsent(older, c);
    WithoutConcat(older, order, c);
    WithoutMembers(order, c);
    assert Without(older + order, c) + [c] == older + (Without(order, c) + [c]);
    LatestOfSplit(older, Without(order, c) + [c], n);
  }

  lemma TouchUntracked(older: seq<Client>, order: seq<Client>, c: Client, n: nat)
    requires c !in order && n >= 1 && |order| <= n && (older != [] ==> |order| == n)
    ensures Latest(Without(older + order, c) + [c], n) == Touched(order, c, n)
  {
    var rest := Without(older, c);
    WithoutConcat(older, order, c);
    WithoutAbsent(order, c);
    if |order| < n {
      assert Without(older + order, c) + [c] == [] + (order + [c]);
      LatestOfSplit([], order + [c], n);
    } else {
      assert Without(older + order, c) + [c] == (rest + [order[0]]) + (order[1..] + [c]);
      LatestOfSplit(rest + [order[0]], order[1..] + [c], n);
    }
  }

  /** Evicting the front and moving to the end keeps exactly the most recently evaluated clients. */
  lemma TouchedIsTracked(rules: Rules, log: Log, e: Event)
    requires rules.Valid()
    ensures Tracked(rules, log + [e]) == Touched(Tracked(rules, log), e.client, rules.maxClients)
  {
    assert (log + [e])[..|log|] == log;
    RecencyDistinct(log);
    var order := Tracked(rules, log);
    var older := SplitLatest(Recency(log), rules.maxClients);
    if e.client in order {
      TouchTracked(older, order, e.client, rules.maxClients);
    } else {
      TouchUntracked(older, order, e.client, rules.maxClients);
    }
  }

  // ---------------------------------------------------------------- what a client has used

  /** The accepted times of a client since it was last inserted; evicted clients start afresh. */
  function Held(rules: Rules, log: Log, c: Client): seq<real> {
    if log == [] then [] else
      var init, e := log[..|log| - 1], log[|log| - 1];
      if e.client != c then Held(rules, init, c)
      else (if c in Tracked(rules, init) then Held(rules, init, c) else []) + (if e.allowed then [e.at] else [])
  }

  function Current(rules: Rules, log: Log, c: Client): seq<real> {
    if c in Tracked(rules, log) then Held(rules, log, c) else []
  }

  lemma HeldStep(rules: Rules, log: Log, e: Event, c: Client)
    ensures Held(rules, log + [e], c)
         == if e.client != c then Held(rules, log, c)
            else Current(rules, log, c) + (if e.allowed then [e.at] else [])
  {
    assert (log + [e])[..|log|] == log;
  }

  /** The times later than a threshold. */
  function After(s: seq<real>, threshold: real): seq<real> {
    if s == [] then [] else
      After(s[..|s| - 1], threshold) + (if s[|s| - 1] > threshold then [s[|s| - 1]] else [])
  }

  /** Fewer than the limit were accepted in the window that ends now. */
  function Allows(rules: Rules, log: Log, c: Client, now: real): bool {
    |After(Current(rules, log, c), rules.Threshold(now))| < rules.limit
  }

  /** A log whose clock never goes back and whose every decision is the right one. */
  ghost predicate Lawful(rules: Rules, log: Log) {
    log == [] ||
    var init, e := log[..|log| - 1], log[|log| - 1];
    && Lawful(rules, init)
    && NotBefore(init, e.at)
    && (e.allowed <==> Allows(rules, init, e.client, e.at))
  }

  predicate NotBefore(log: Log, now: real) {
    log != [] ==> log[|log| - 1].at <= now
  }

  /** One right decision keeps a log lawful. */
  lemma LawfulStep(rules: Rules, log: Log, e: Event)
    requires Lawful(rules, log) && NotBefore(log, e.at) && (e.allowed <==> Allows(rules, log, e.client, e.at))
    ensures Lawful(rules, log + [e])
  {
    assert (log + [e])[..|log|] == log;
  }

  ghost predicate Ordered(s: seq<real>) {
    forall i, j :: 0 <= i <= j < |s| ==> s[i] <= s[j]
  }

  ghost predicate UpTo(s: seq<real>, now: real) {
    forall t :: t in s ==> t <= now
  }

  lemma SnocOrdered(s: seq<real>, t: real)
    requires Ordered(s) && UpTo(s, t)
    ensures Ordered(s + [t]) && UpTo(s + [t], t)
  {
    forall i, j | 0 <= i <= j < |s + [t]|
      ensures (s + [t])[i] <= (s + [t])[j]
    {
      if j == |s| && i < |s| {
        assert s[i] in s;
      }
    }
  }

  lemma {:induction false} HeldOrdered(rules: Rules, log: Log, c: Client, now: real)
    requires Lawful(rules, log) && NotBefore(log, now)
    ensures Ordered(Held(rules, log, c)) && UpTo(Held(rules, log, c), now)
    decreases |log|
  {
    if log != [] {
      var init, e := log[..|log| - 1], log[|log| - 1];
      HeldOrdered(rules, init, c, e.at);
      SnocOrdered(Current(rules, init, c), e.at);
    }
  }

  lemma {:induction false} AfterMembers(s: seq<real>, threshold: real)
    ensures forall t :: t in After(s, threshold) <==> t in s && t > threshold
    ensures |After(s, threshold)| <= |s|
    ensures UpTo(s, threshold) ==> After(s, threshold) == []
    decreases |s|
  {
    if s != [] {
      var init, last := s[..|s| - 1], s[|s| - 1];
      AfterMembers(init, threshold);
      assert s == init + [last];
      assert last in s && forall t :: t in init ==> t in s;
    }
  }

  lemma {:induction false} AfterConcat(a: seq<real>, b: seq<real>, threshold: real)
    ensures After(a + b, threshold) == After(a, threshold) + After(b, threshold)
    decreases |b|
  {
    if b == [] {
      assert a + b == a;
    } else {
      assert (a + b)[..|a + b| - 1] == a + b[..|b| - 1];
      AfterConcat(a, b[..|b| - 1], threshold);
    }
  }

  lemma {:induction false} AfterAgain(s: seq<real>, low: real, high: real)
    requires low <= high
    ensures After(After(s, low), high) == After(s, high)
    decreases |s|
  {
    if s != [] {
      var init, last := s[..|s| - 1], s[|s| - 1];
      AfterAgain(init, low, high);
      AfterConcat(After(init, low), if last > low then [last] else [], high);
      assert After([last], high) == if last > high then [last] else [] by {
        assert [last][..0] == [];
      }
    }
  }

  /** Dropping stale times from the front of an ordered queue. */
  lemma DropFront(s: seq<real>, threshold: real)
    requires s != [] && Ordered(s) && s[0] <= threshold
    ensures After(s[1..], threshold) == After(s, threshold)
  {
    assert s == [s[0]] + s[1..];
    AfterConcat([s[0]], s[1..], threshold);
    assert [s[0]][..0] == [];
  }

  lemma {:induction false} NothingStale(s: seq<real>, threshold: real)
    requires forall t :: t in s ==> t > threshold
    ensures After(s, threshold) == s
    decreases |s|
  {
    if s != [] {
      var init, last := s[..|s| - 1], s[|s| - 1];
      assert s == init + [last];
      assert last in s && forall t :: t in init ==> t in s;
      NothingStale(init, threshold);
    }
  }

  // ---------------------------------------------------------------- the window bound

  /** The accepted times in the window of length W that starts after x. */
  function Within(s: seq<real>, x: real, window: nat): seq<real> {
    if s == [] then [] else
      var last := s[|s| - 1];
      Within(s[..|s| - 1], x, window) + (if x < last <= x + window as real then [last] else [])
  }

  lemma {:induction false} WithinIsLater(s: seq<real>, x: real, window: nat, threshold: real)
    requires threshold <= x
    ensures |Within(s, x, window)| <= |After(s, threshold)|
    decreases |s|
  {
    if s != [] {
      WithinIsLater(s[..|s| - 1], x, window, threshold);
    }
  }

  lemma WithinSnoc(s: seq<real>, t: real, x: real, window: nat)
    ensures Within(s + [t], x, window) == Within(s, x, window) + (if x < t <= x + window as real then [t] else [])
  {
    assert (s + [t])[..|s|] == s;
  }

  /** An accepted time can join a window only while it has room. */
  lemma JoiningKeepsBound(before: seq<real>, at: real, x: real, window: nat, threshold: real, limit: nat)
    requires threshold == at - window as real && |After(before, threshold)| < limit
    requires |Within(before, x, window)| <= limit
    ensures |Within(before + [at], x, window)| <= limit
  {
    WithinSnoc(before, at, x, window);
    if x < at <= x + window as real {
      WithinIsLater(before, x, window, threshold);
    }
  }

  /** No half-open window holds more than the limit of accepted calls of a tracked client. */
  lemma {:induction false} WindowBound(rules: Rules, log: Log, c: Client, x: real)
    requires rules.Valid() && Lawful(rules, log)
    ensures |Within(Held(rules, log, c), x, rules.window)| <= rules.limit
    ensures |Within(Current(rules, log, c), x, rules.window)| <= rules.limit
    decreases |log|
  {
    if log != [] {
      var init, e := log[..|log| - 1], log[|log| - 1];
      assert log == init + [e];
      HeldStep(rules, init, e, c);
      WindowBound(rules, init, c, x);
      var before := Current(rules, init, c);
      assert before + [] == before;
      if e.client == c && e.allowed {
        JoiningKeepsBound(before, e.at, x, rules.window, rules.Threshold(e.at), rules.limit);
      }
    }
  }

  lemma {:induction false} WithinNow(s: seq<real>, now: real, window: nat)
    requires UpTo(s, now)
    ensures Within(s, now - window as real, window) == After(s, now - window as real)
    decreases |s|
  {
    if s != [] {
      var init := s[..|s| - 1];
      assert s[|s| - 1] in s;
      forall t | t in init
        ensures t in s
      {
      }
      WithinNow(init, now, window);
    }
  }

  /** A full window holds exactly the limit. */
  lemma DeniedHoldsLimit(rules: Rules, log: Log, c: Client, now: real)
    requires rules.Valid() && Lawful(rules, log) && NotBefore(log, now)
    requires !Allows(rules, log, c, now)
    ensures |After(Current(rules, log, c), rules.Threshold(now))| == rules.limit
    ensures c in Tracked(rules, log)
  {
    HeldOrdered(rules, log, c, now);
    WithinNow(Current(rules, log, c), now, rules.window);
    WindowBound(rules, log, c, rules.Threshold(now));
  }

  // ---------------------------------------------------------------- memory bound

  /** Never more clients than the capacity, each at most once, and always the latest ones. */
  lemma TrackedIsBounded(rules: Rules, log: Log)
    ensures |Tracked(rules, log)| <= rules.maxClients
    ensures Distinct(Tracked(rules, log))
    ensures exists forgotten :: Recency(log) == forgotten + Tracked(rules, log)
  {
    RecencyDistinct(log);
    var all, kept := Recency(log), Tracked(rules, log);
    assert all == all[..|all| - |kept|] + kept;
  }

  // ---------------------------------------------------------------- when to retry

  function Ceiling(x: real): int {
    -(-x).Floor
  }

  /** Whole seconds until the oldest stored time leaves the window, and at least one. */
  function RetryAfter(window: nat, now: real, oldest: real): int {
    var wait := Ceiling(window as real - (now - oldest));
    if wait < 1 then 1 else wait
  }

  /** The advice is the least positive whole number of seconds that outlasts the oldest stored time. */
  lemma RetryIsLeast(window: nat, now: real, oldest: real, k: int)
    requires window >= 1 && now - window as real < oldest <= now && k >= 1
    ensures 1 <= RetryAfter(window, now, oldest) <= window
    ensures oldest + window as real <= now + k as real <==> RetryAfter(window, now, oldest) <= k
  {
  }

  /** The client stays tracked while more calls are evaluated. */
  ghost predicate StaysTracked(rules: Rules, log: Log, more: Log, c: Client) {
    && c in Tracked(rules, log + more)
    && (more == [] || StaysTracked(rules, log, more[..|more| - 1], c))
  }

  /** The accepted times of one client among some calls. */
  function Accepted(more: Log, c: Client): seq<real> {
    if more == [] then [] else
      var e := more[|more| - 1];
      Accepted(more[..|more| - 1], c) + (if e.client == c && e.allowed then [e.at] else [])
  }

  lemma SnocParts(log: Log, more: Log) returns (init: Log, e: Event)
    requires more != []
    ensures init == more[..|more| - 1] && e == more[|more| - 1]
    ensures more == init + [e] && log + more == (log + init) + [e]
    ensures (log + more)[..|log + more| - 1] == log + init && (log + more)[|log + more| - 1] == e
  {
    init, e := more[..|more| - 1], more[|more| - 1];
  }

  lemma TrackedStep(rules: Rules, log: Log, e: Event, c: Client)
    requires c in Tracked(rules, log) && c in Tracked(rules, log + [e])
    ensures Current(rules, log + [e], c)
         == Current(rules, log, c) + (if e.client == c && e.allowed then [e.at] else [])
  {
    HeldStep(rules, log, e, c);
  }

  lemma AcceptedStep(more: Log, e: Event, c: Client)
    ensures Accepted(more + [e], c) == Accepted(more, c) + (if e.client == c && e.allowed then [e.at] else [])
  {
    assert (more + [e])[..|more|] == more;
  }

  lemma Regroup(a: seq<real>, b: seq<real>, d: seq<real>)
    ensures (a + b) + d == a + (b + d)
  {
  }

  /** A client that stays tracked only gains what is accepted. */
  lemma {:induction false} TrackedGains(rules: Rules, log: Log, more: Log, c: Client)
    requires StaysTracked(rules, log, more, c)
    ensures Current(rules, log + more, c) == Current(rules, log, c) + Accepted(more, c)
    decreases |more|
  {
    if more == [] {
      assert log + more == log;
    } else {
      var init, e := SnocParts(log, more);
      TrackedGains(rules, log, init, c);
      TrackedStep(rules, log + init, e, c);
      AcceptedStep(init, e, c);
      Regroup(Current(rules, log, c), Accepted(init, c), if e.client == c && e.allowed then [e.at] else []);
    }
  }

  /** The times that fill the window of a denied call, oldest first. */
  function Filling(rules: Rules, log: Log, c: Client, now: real): seq<real> {
    After(Current(rules, log, c), rules.Threshold(now))
  }

  lemma {:induction false} AfterOrdered(s: seq<real>, threshold: real)
    requires Ordered(s)
    ensures Ordered(After(s, threshold))
    decreases |s|
  {
    if s != [] {
      var init, last := s[..|s| - 1], s[|s| - 1];
      AfterOrdered(init, threshold);
      AfterMembers(init, threshold);
      forall t | t in init
        ensures t <= last
      {
        var i :| 0 <= i < |init| && init[i] == t;
        assert s[i] == t;
      }
      SnocOrdered(After(init, threshold), last);
    }
  }

  lemma CountsSplit(held: seq<real>, newer: seq<real>, low: real, high: real)
    requires low <= high
    ensures |After(held + newer, high)| == |After(After(held, low), high)| + |After(newer, high)|
  {
    AfterConcat(held, newer, high);
    AfterAgain(held, low, high);
  }

  /** How many accepted times the window of a later call holds. */
  lemma UsedLater(rules: Rules, log: Log, more: Log, c: Client, low: real, high: real) returns (used: nat)
    requires StaysTracked(rules, log, more, c) && low <= high
    ensures used == |After(Current(rules, log + more, c), high)|
    ensures used == |After(After(Current(rules, log, c), low), high)| + |After(Accepted(more, c), high)|
  {
    TrackedGains(rules, log, more, c);
    CountsSplit(Current(rules, log, c), Accepted(more, c), low, high);
    used := |After(Current(rules, log + more, c), high)|;
  }

  /** After a denial a later call is allowed exactly when more times have left the window than were accepted since. */
  lemma AllowedExactly(rules: Rules, log: Log, more: Log, c: Client, now: real, at: real)
    requires rules.Valid() && Lawful(rules, log) && NotBefore(log, now) && !Allows(rules, log, c, now) && now <= at
    requires StaysTracked(rules, log, more, c)
    ensures
      var filling, threshold := Filling(rules, log, c, now), rules.Threshold(at);
      Allows(rules, log + more, c, at) <==> |After(Accepted(more, c), threshold)| < |filling| - |After(filling, threshold)|
  {
    var used := UsedLater(rules, log, more, c, rules.Threshold(now), rules.Threshold(at));
    DeniedHoldsLimit(rules, log, c, now);
  }

  lemma OldestLeavesFirst(s: seq<real>, threshold: real)
    requires Ordered(s) && s != []
    ensures |After(s, threshold)| < |s| <==> s[0] <= threshold
  {
    if s[0] <= threshold {
      DropFront(s, threshold);
      AfterMembers(s[1..], threshold);
    } else {
      forall t | t in s
        ensures t > threshold
      {
        var i :| 0 <= i < |s| && s[i] == t;
        assert s[0] <= s[i];
      }
      NothingStale(s, threshold);
    }
  }

  lemma FillingOrdered(rules: Rules, log: Log, c: Client, now: real)
    requires rules.Valid() && Lawful(rules, log) && NotBefore(log, now) && !Allows(rules, log, c, now)
    ensures Filling(rules, log, c, now) != [] && Ordered(Filling(rules, log, c, now))
    ensures rules.Threshold(now) < Filling(rules, log, c, now)[0] <= now
  {
    var held := DeniedHeld(rules, log, c, now);
    OldestOf(held, rules.Threshold(now), now);
  }

  lemma DeniedHeld(rules: Rules, log: Log, c: Client, now: real) returns (held: seq<real>)
    requires rules.Valid() && Lawful(rules, log) && NotBefore(log, now) && !Allows(rules, log, c, now)
    ensures held == Current(rules, log, c) && Ordered(held) && UpTo(held, now)
    ensures After(held, rules.Threshold(now)) != []
  {
    DeniedHoldsLimit(rules, log, c, now);
    HeldOrdered(rules, log, c, now);
    held := Current(rules, log, c);
  }

  lemma OldestOf(s: seq<real>, threshold: real, now: real)
    requires Ordered(s) && UpTo(s, now) && After(s, threshold) != []
    ensures Ordered(After(s, threshold)) && threshold < After(s, threshold)[0] <= now
  {
    AfterOrdered(s, threshold);
    AfterMembers(s, threshold);
    assert After(s, threshold)[0] in After(s, threshold);
  }

  /** Until another call is accepted, calls are denied up to the oldest time plus the window and allowed from then on. */
  lemma NextAllowed(rules: Rules, log: Log, more: Log, c: Client, now: real, at: real)
    requires rules.Valid() && Lawful(rules, log) && NotBefore(log, now) && !Allows(rules, log, c, now) && now <= at
    requires StaysTracked(rules, log, more, c) && Accepted(more, c) == []
    ensures Filling(rules, log, c, now) != []
    ensures Allows(rules, log + more, c, at) <==> Filling(rules, log, c, now)[0] + rules.window as real <= at
  {
    FillingOrdered(rules, log, c, now);
    AllowedExactly(rules, log, more, c, now, at);
    var filling, threshold := Filling(rules, log, c, now), rules.Threshold(at);
    OldestLeavesFirst(filling, threshold);
    assert |After(Accepted(more, c), threshold)| == 0;
  }

  ghost predicate CallsBefore(more: Log, c: Client, until: real) {
    forall e :: e in more && e.client == c ==> e.at < until
  }

  lemma {:induction false} LawfulPrefix(rules: Rules, log: Log, more: Log)
    requires Lawful(rules, log + more)
    ensures Lawful(rules, log)
    decreases |more|
  {
    if more == [] {
      assert log + more == log;
    } else {
      var init, e := SnocParts(log, more);
      LawfulPrefix(rules, log, init);
    }
  }

  /** Every call before the oldest stored time plus the window is denied. */
  lemma {:induction false} DeniedUntilOldestLeaves(rules: Rules, log: Log, more: Log, c: Client, now: real)
    requires rules.Valid() && Lawful(rules, log + more) && NotBefore(log, now)
    requires !Allows(rules, log, c, now) && StaysTracked(rules, log, more, c)
    requires forall e :: e in more ==> now <= e.at
    requires Filling(rules, log, c, now) != []
    requires CallsBefore(more, c, Filling(rules, log, c, now)[0] + rules.window as real)
    ensures Accepted(more, c) == []
    decreases |more|
  {
    if more != [] {
      var init, e := SnocParts(log, more);
      LawfulPrefix(rules, log, more);
      assert e in more && forall d :: d in init ==> d in more;
      DeniedUntilOldestLeaves(rules, log, init, c, now);
      if e.client == c {
        NextAllowed(rules, log, init, c, now, e.at);
      }
    }
  }

  /**
   A client that waits as told is let in: if none of its calls after the denial came at or after the
   oldest time plus the window, its first call at or after now plus the advice is allowed.
   */
  lemma RetryIsHonoured(rules: Rules, log: Log, more: Log, c: Client, now: real, at: real)
    requires rules.Valid() && Lawful(rules, log + more) && NotBefore(log, now)
    requires !Allows(rules, log, c, now) && StaysTracked(rules, log, more, c)
    requires forall e :: e in more ==> now <= e.at
    requires Filling(rules, log, c, now) != []
    requires CallsBefore(more, c, Filling(rules, log, c, now)[0] + rules.window as real)
    requires now + RetryAfter(rules.window, now, Filling(rules, log, c, now)[0]) as real <= at
    ensures Allows(rules, log + more, c, at)
  {
    LawfulPrefix(rules, log, more);
    FillingOrdered(rules, log, c, now);
    RetryIsLeast(rules.window, now, Filling(rules, log, c, now)[0],
                 RetryAfter(rules.window, now, Filling(rules, log, c, now)[0]));
    DeniedUntilOldestLeaves(rules, log, more, c, now);
    NextAllowed(rules, log, more, c, now, at);
  }

  /** With no rounding in the advice nothing can be accepted before it, so its first call then is allowed. */
  lemma WholeSecondAdvice(rules: Rules, log: Log, more: Log, c: Client, now: real, at: real)
    requires rules.Valid() && Lawful(rules, log + more) && NotBefore(log, now)
    requires !Allows(rules, log, c, now) && StaysTracked(rules, log, more, c)
    requires forall e :: e in more ==> now <= e.at
    requires Filling(rules, log, c, now) != []
    requires var advised := now + RetryAfter(rules.window, now, Filling(rules, log, c, now)[0]) as real;
      && advised == Filling(rules, log, c, now)[0] + rules.window as real
      && CallsBefore(more, c, advised) && advised <= at
    ensures Allows(rules, log + more, c, at)
  {
    RetryIsHonoured(rules, log, more, c, now, at);
  }
}

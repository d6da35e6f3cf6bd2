/** A sliding-window limiter with a cap on clients, proved against the full log of its evaluations. */
module RateLimiter {
  import opened Wrappers
  import opened LimiterLog
  import opened LimiterQueue

  datatype Decision = Decision(
    allowed: bool, limit: nat, remaining: int, resetAfter: int, retryAfter: Option<int>)

  ghost predicate Represents(rules: Rules, log: Log, order: seq<Client>, clients: map<Client, seq<real>>) {
    && order == Tracked(rules, log)
    && (forall c :: c in clients <==> c in order)
    && (forall c :: c in clients ==> clients[c] == Queued(rules, log, c))
  }

  /** The dictionary after one evaluation. */
  function Stored(clients: map<Client, seq<real>>, order: seq<Client>, c: Client, capacity: nat, queue: seq<real>)
    : map<Client, seq<real>>
  {
    if c !in clients && |order| >= capacity && order != [] then (clients - {order[0]})[c := queue] else clients[c := queue]
  }

  lemma TouchedMembers(order: seq<Client>, c: Client, capacity: nat, d: Client)
    requires Distinct(order)
    ensures d in Touched(order, c, capacity) <==>
            d == c || (d in order && !(c !in order && |order| >= capacity && order != [] && d == order[0]))
  {
    WithoutMembers(order, c);
    if order != [] {
      assert order == [order[0]] + order[1..];
      assert order[0] !in order[1..];
    }
  }

  lemma StoredMembers(clients: map<Client, seq<real>>, order: seq<Client>, c: Client, capacity: nat, queue: seq<real>)
    requires Distinct(order) && forall d :: d in clients <==> d in order
    ensures var later := Stored(clients, order, c, capacity, queue);
      && (forall d :: d in later <==> d in Touched(order, c, capacity))
      && c in later && later[c] == queue
      && (forall d :: d in later && d != c ==> d in clients && later[d] == clients[d])
  {
    var later := Stored(clients, order, c, capacity, queue);
    forall d
      ensures d in later <==> d in Touched(order, c, capacity)
    {
      TouchedMembers(order, c, capacity, d);
    }
  }

  /** The dictionary still represents the log after one more evaluation. */
  lemma StillRepresents(
      rules: Rules, log: Log, order: seq<Client>, clients: map<Client, seq<real>>, e: Event, queue: seq<real>)
    requires rules.Valid() && Represents(rules, log, order, clients)
    requires queue == Waiting(rules, log, e.client, e.at) + (if e.allowed then [e.at] else [])
    ensures Represents(rules, log + [e], Touched(order, e.client, rules.maxClients),
                       Stored(clients, order, e.client, rules.maxClients, queue))
  {
    var later := Stored(clients, order, e.client, rules.maxClients, queue);
    TouchedIsTracked(rules, log, e);
    TrackedIsBounded(rules, log);
    StoredMembers(clients, order, e.client, rules.maxClients, queue);
    forall d | d in later
      ensures later[d] == Queued(rules, log + [e], d)
    {
      QueuedStep(rules, log, e, d);
    }
  }

  /** Replacing the client's own queue again is storing the second queue. */
  lemma StoredAgain(
      clients: map<Client, seq<real>>, order: seq<Client>, c: Client, capacity: nat, first: seq<real>, second: seq<real>)
    ensures Stored(clients, order, c, capacity, first)[c := second] == Stored(clients, order, c, capacity, second)
  {
  }

  /** The queue a client starts from: its own, or an empty one. */
  function StartingQueue(clients: map<Client, seq<real>>, c: Client): seq<real> {
    if c in clients then clients[c] else []
  }

  /** What is stored for a client is what the log says. */
  lemma StartingIsStored(rules: Rules, log: Log, order: seq<Client>, clients: map<Client, seq<real>>, c: Client)
    requires Represents(rules, log, order, clients)
    ensures StartingQueue(clients, c) == Starting(rules, log, c)
  {
  }

  /** What a decision tells the caller about the times that fill its window. */
  ghost predicate Answers(d: Decision, rules: Rules, filling: seq<real>, now: real) {
    && d.limit == rules.limit
    && (d.allowed <==> |filling| < rules.limit)
    && if d.allowed then
         && d.retryAfter.None? && d.remaining == rules.limit - |filling| - 1 >= 0
         && d.resetAfter == RetryAfter(rules.window, now, if filling == [] then now else filling[0])
       else
         && filling != [] && d.remaining == 0
         && d.retryAfter == Some(d.resetAfter) && d.resetAfter == RetryAfter(rules.window, now, filling[0])
  }

  /** The decision that the log itself demands at a reading that does not go back. */
  ghost predicate Demanded(d: Decision, rules: Rules, log: Log, client: Client, now: real) {
    && Lawful(rules, log + [Event(client, now, d.allowed)])
    && (d.allowed <==> Allows(rules, log, client, now))
    && Answers(d, rules, Filling(rules, log, client, now), now)
  }

  /** While the clock does not go back, the stored queue decides what the log demands. */
  lemma ForwardDecision(d: Decision, rules: Rules, log: Log, client: Client, now: real)
    requires rules.Valid() && Lawful(rules, log) && NotBefore(log, now)
    requires Answers(d, rules, Waiting(rules, log, client, now), now)
    ensures Demanded(d, rules, log, client, now)
  {
    WaitingIsFilling(rules, log, client, now);
    LawfulStep(rules, log, Event(client, now, d.allowed));
  }

  class SlidingWindowRateLimiter {
    const rules: Rules
    var order: seq<Client>
    var clients: map<Client, seq<real>>
    ghost var log: Log

    ghost predicate Valid()
      reads this
    {
      rules.Valid() && Served(rules, log) && Represents(rules, log, order, clients)
    }

    constructor (limit: nat, window: nat, maxClients: nat)
      requires limit >= 1 && window >= 1 && maxClients >= 1
      ensures Valid() && log == [] && rules == Rules(limit, window, maxClients)
    {
      rules := Rules(limit, window, maxClients);
      order := [];
      clients := map[];
      log := [];
    }

    /** Drops from the front the times that have left the window. */
    method Prune(queue: seq<real>, threshold: real) returns (r: seq<real>)
      ensures r == Pruned(queue, threshold)
    {
      r := queue;
      while r != [] && r[0] <= threshold
        invariant Pruned(r, threshold) == Pruned(queue, threshold)
        decreases |r|
      {
        r := r[1..];
      }
    }

    /** Makes the client the most recent one, evicting the least recent if a place is needed. */
    method Track(client: Client)
      requires rules.Valid() && forall c :: c in clients <==> c in order
      modifies this`order, this`clients
      ensures order == Touched(old(order), client, rules.maxClients)
      ensures client in clients && clients[client] == StartingQueue(old(clients), client)
      ensures clients == Stored(old(clients), old(order), client, rules.maxClients, clients[client])
    {
      if client in clients {
        order := Without(order, client) + [client];
      } else {
        if |order| >= rules.maxClients {
          clients := clients - {order[0]};
          order := order[1..];
        }
        clients := clients[client := []];
        order := order + [client];
      }
    }

    /** Decides on the pruned queue, which an accepted call joins. */
    method Consume(queue: seq<real>, now: real) returns (kept: seq<real>, d: Decision)
      requires rules.Valid()
      ensures kept == queue + (if d.allowed then [now] else [])
      ensures Answers(d, rules, queue, now)
    {
      if |queue| >= rules.limit {
        var wait := RetryAfter(rules.window, now, queue[0]);
        return queue, Decision(false, rules.limit, 0, wait, Some(wait));
      }
      kept := queue + [now];
      d := Decision(true, rules.limit, rules.limit - |kept|, RetryAfter(rules.window, now, kept[0]), None);
    }

    /** The evaluation itself, while the lock is held. */
    method Serve(client: Client, now: real) returns (d: Decision)
      requires rules.Valid() && forall c :: c in clients <==> c in order
      modifies this`order, this`clients
      ensures order == Touched(old(order), client, rules.maxClients)
      ensures var queue := Pruned(StartingQueue(old(clients), client), rules.Threshold(now));
        && Answers(d, rules, queue, now)
        && clients == Stored(old(clients), old(order), client, rules.maxClients, queue + (if d.allowed then [now] else []))
    {
      Track(client);
      var queue := Prune(clients[client], rules.Threshold(now));
      var kept;
      kept, d := Consume(queue, now);
      StoredAgain(old(clients), old(order), client, rules.maxClients, clients[client], kept);
      clients := clients[client := kept];
    }

    /** One evaluation: a request is stored and allowed, or refused with the whole seconds to wait. */
    method Evaluate(client: Client, now: real) returns (d: Decision)
      requires Valid()
      modifies this
      ensures Valid() && log == old(log) + [Event(client, now, d.allowed)]
      ensures Answers(d, rules, Waiting(rules, old(log), client, now), now)
      ensures Lawful(rules, old(log)) && NotBefore(old(log), now) ==> Demanded(d, rules, old(log), client, now)
    {
      ghost var before, wasOrder, wasClients := log, order, clients;
      StartingIsStored(rules, before, wasOrder, wasClients, client);
      d := Serve(client, now);
      ghost var e := Event(client, now, d.allowed);
      ghost var kept := Waiting(rules, before, client, now) + (if d.allowed then [now] else []);
      StillRepresents(rules, before, wasOrder, wasClients, e, kept);
      ServedStep(rules, before, e);
      if Lawful(rules, before) && NotBefore(before, now) {
        ForwardDecision(d, rules, before, client, now);
      }
      log := log + [e];
    }
  }
}

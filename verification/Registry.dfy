/** The append-only registry event chain, its deferred validator, and the prediction gate behind it. */
module Registry {
  import opened Wrappers
  import opened SqlLogic
  import opened Collections

  type EntryId = int
  type EventId = int

  datatype Action = Register | AcceptDevelopment | Reject | Activate | Retire

  datatype State = Candidate | DevelopmentAccepted | Rejected | Active | Retired

  datatype Event = Event(
    id: EventId, entry: EntryId, sequence: int, sha: string,
    previousId: Option<EventId>, previousSha: Option<string>,
    action: Action, fromState: Option<State>, toState: State,
    assessment: Option<string>, reason: Option<string>)

  // ---------------------------------------------------------------- row checks

  predicate AllSpaces(s: string) {
    forall i :: 0 <= i < |s| ==> s[i] == ' '
  }

  function ReasonGiven(reason: Option<string>): Truth {
    if reason.None? then Unknown else Is(!AllSpaces(reason.value))
  }

  function RegisterPayload(e: Event): Truth {
    Is(e.action.Register?).And(Is(e.sequence == 1)).And(Is(e.fromState.None?)).And(Is(e.toState.Candidate?))
      .And(Is(e.previousId.None?)).And(Is(e.previousSha.None?)).And(Is(e.assessment.None?)).And(Is(e.reason.None?))
  }

  function AcceptPayload(e: Event): Truth {
    Is(e.action.AcceptDevelopment?).And(Is(e.sequence > 1)).And(Equal(e.fromState, Some(Candidate)))
      .And(Is(e.toState.DevelopmentAccepted?)).And(Is(e.previousId.Some?)).And(Is(e.previousSha.Some?))
      .And(Is(e.assessment.Some?)).And(Is(e.reason.None?))
  }

  function RejectPayload(e: Event): Truth {
    Is(e.action.Reject?).And(Is(e.sequence > 1))
      .And(Equal(e.fromState, Some(Candidate)).Or(Equal(e.fromState, Some(DevelopmentAccepted))))
      .And(Is(e.toState.Rejected?)).And(Is(e.previousId.Some?)).And(Is(e.previousSha.Some?))
      .And(Is(e.assessment.None?)).And(ReasonGiven(e.reason))
  }

  /** Every check constraint of one row. */
  predicate RowChecks(e: Event) {
    && Is(e.sequence > 0).Holds()
    && RegisterPayload(e).Or(AcceptPayload(e)).Or(RejectPayload(e)).Holds()
    && Is(!e.action.Activate?).And(Is(!e.toState.Active?)).Holds()
    && Is(!e.action.Retire?).And(Is(!e.toState.Retired?)).Holds()
  }

  /** What the checks let in: an acceptance may leave its former state empty, a rejection that and its reason. */
  lemma RowChecksMean(e: Event)
    ensures RowChecks(e) <==>
      match e.action
      case Register =>
        && e.sequence == 1 && e.toState.Candidate? && e.fromState.None?
        && e.previousId.None? && e.previousSha.None? && e.assessment.None? && e.reason.None?
      case AcceptDevelopment =>
        && e.sequence > 1 && e.toState.DevelopmentAccepted? && (e.fromState.None? || e.fromState == Some(Candidate))
        && e.previousId.Some? && e.previousSha.Some? && e.assessment.Some? && e.reason.None?
      case Reject =>
        && e.sequence > 1 && e.toState.Rejected?
        && (e.fromState.None? || e.fromState == Some(Candidate) || e.fromState == Some(DevelopmentAccepted))
        && e.previousId.Some? && e.previousSha.Some? && e.assessment.None?
        && (e.reason.None? || !AllSpaces(e.reason.value))
      case Activate => false
      case Retire => false
  {
  }

  // ---------------------------------------------------------------- queries over one entry

  function CountOf(events: seq<Event>, entry: EntryId): nat {
    if events == [] then 0 else
      CountOf(events[..|events| - 1], entry) + if events[|events| - 1].entry == entry then 1 else 0
  }

  function MaxOf(events: seq<Event>, entry: EntryId): int {
    if events == [] then 0 else
      var rest, last := MaxOf(events[..|events| - 1], entry), events[|events| - 1];
      if last.entry == entry && last.sequence > rest then last.sequence else rest
  }

  function EventAt(events: seq<Event>, entry: EntryId, s: int): (r: Option<Event>)
    ensures r.Some? ==> r.value in events && r.value.entry == entry && r.value.sequence == s
  {
    if events == [] then None else
      var last := events[|events| - 1];
      if last.entry == entry && last.sequence == s then Some(last) else EventAt(events[..|events| - 1], entry, s)
  }

  /** The unique keys of the event table. */
  predicate Collide(a: Event, b: Event) {
    a.id == b.id || a.sha == b.sha || (a.entry == b.entry && a.sequence == b.sequence)
  }

  predicate KeysUnique(events: seq<Event>) {
    forall i, j :: 0 <= i < j < |events| ==> !Collide(events[i], events[j])
  }

  ghost function Sequences(events: seq<Event>, entry: EntryId): set<int> {
    set i | 0 <= i < |events| && events[i].entry == entry :: events[i].sequence
  }

  function Range(n: nat): (r: set<int>)
    ensures forall s :: s in r <==> 1 <= s <= n
    ensures |r| == n
  {
    if n == 0 then {} else Range(n - 1) + {n}
  }

  lemma SequencesGrow(events: seq<Event>, entry: EntryId)
    requires events != []
    ensures var init, last := events[..|events| - 1], events[|events| - 1];
      Sequences(events, entry)
      == if last.entry == entry then Sequences(init, entry) + {last.sequence} else Sequences(init, entry)
  {
    var n := |events| - 1;
    forall s | s in Sequences(events, entry)
      ensures s in Sequences(events[..n], entry) || (events[n].entry == entry && s == events[n].sequence)
    {
      var i :| 0 <= i < |events| && events[i].entry == entry && events[i].sequence == s;
      assert i < n ==> events[..n][i].sequence == s;
    }
    forall s | s in Sequences(events[..n], entry)
      ensures s in Sequences(events, entry)
    {
      var i :| 0 <= i < n && events[..n][i].entry == entry && events[..n][i].sequence == s;
      assert events[i].sequence == s;
    }
  }

  lemma NewSequence(events: seq<Event>)
    requires events != [] && KeysUnique(events)
    ensures KeysUnique(events[..|events| - 1])
    ensures events[|events| - 1].sequence !in Sequences(events[..|events| - 1], events[|events| - 1].entry)
  {
    var n := |events| - 1;
    forall i | 0 <= i < n && events[..n][i].entry == events[n].entry
      ensures events[..n][i].sequence != events[n].sequence
    {
      assert !Collide(events[i], events[n]);
    }
  }

  lemma {:induction false} SequencesCounted(events: seq<Event>, entry: EntryId)
    requires KeysUnique(events)
    ensures |Sequences(events, entry)| == CountOf(events, entry)
    decreases |events|
  {
    if events != [] {
      SequencesGrow(events, entry);
      NewSequence(events);
      SequencesCounted(events[..|events| - 1], entry);
    }
  }

  lemma {:induction false} SequencesFound(events: seq<Event>, entry: EntryId, s: int)
    ensures s in Sequences(events, entry) <==> EventAt(events, entry, s).Some?
    decreases |events|
  {
    if events != [] {
      SequencesGrow(events, entry);
      SequencesFound(events[..|events| - 1], entry, s);
    }
  }

  lemma {:induction false} MaxBounds(events: seq<Event>, entry: EntryId)
    requires forall e :: e in events ==> e.sequence > 0
    ensures forall s :: s in Sequences(events, entry) ==> 1 <= s <= MaxOf(events, entry)
    ensures CountOf(events, entry) > 0 ==> MaxOf(events, entry) in Sequences(events, entry)
    ensures CountOf(events, entry) == 0 ==> MaxOf(events, entry) == 0
    decreases |events|
  {
    if events != [] {
      var n := |events| - 1;
      var init := events[..n];
      assert forall e :: e in init ==> e in events;
      MaxBounds(init, entry);
      assert events[n] in events;
      forall s | s in Sequences(events, entry)
        ensures 1 <= s <= MaxOf(events, entry)
      {
        var i :| 0 <= i < |events| && events[i].entry == entry && events[i].sequence == s;
        if i < n {
          assert init[i].sequence in Sequences(init, entry);
        }
      }
      if CountOf(init, entry) > 0 && MaxOf(events, entry) == MaxOf(init, entry) {
        var i :| 0 <= i < n && init[i].entry == entry && init[i].sequence == MaxOf(init, entry);
        assert events[i] == init[i];
      }
    }
  }

  lemma SameSize(a: set<int>, b: set<int>)
    requires a <= b && |a| == |b|
    ensures a == b
  {
    assert b == a + (b - a);
  }

  /** The events of an entry are numbered 1 to n, none missing and none beyond. */
  ghost predicate Numbered(events: seq<Event>, entry: EntryId, n: nat) {
    forall s :: EventAt(events, entry, s).Some? <==> 1 <= s <= n
  }

  lemma NumberedIsRange(events: seq<Event>, entry: EntryId, n: nat)
    ensures Numbered(events, entry, n) <==> Sequences(events, entry) == Range(n)
  {
    forall s
      ensures s in Sequences(events, entry) <==> EventAt(events, entry, s).Some?
    {
      SequencesFound(events, entry, s);
    }
    if Numbered(events, entry, n) {
      forall s
        ensures s in Sequences(events, entry) <==> s in Range(n)
      {
        assert EventAt(events, entry, s).Some? <==> 1 <= s <= n;
      }
    }
  }

  /** Distinct positive sequences whose greatest is their number are exactly 1 to n. */
  lemma NoGapExactly(events: seq<Event>, entry: EntryId)
    requires KeysUnique(events) && forall e :: e in events ==> e.sequence > 0
    ensures MaxOf(events, entry) == CountOf(events, entry) <==> Numbered(events, entry, CountOf(events, entry))
  {
    var n := CountOf(events, entry);
    SequencesCounted(events, entry);
    MaxBounds(events, entry);
    NumberedIsRange(events, entry, n);
    if MaxOf(events, entry) == n {
      SameSize(Sequences(events, entry), Range(n));
    }
    if Numbered(events, entry, n) && n > 0 {
      assert n in Range(n);
      assert MaxOf(events, entry) in Range(n);
    }
  }

  // ---------------------------------------------------------------- the deferred chain validator

  function FirstFault(e: Event): Truth {
    Is(!e.action.Register?).Or(Is(e.fromState.Some?)).Or(Is(!e.toState.Candidate?))
  }

  function LinkFault(current: Event, previous: Event): Truth {
    Differ(current.previousId, Some(previous.id)).Or(Differ(current.previousSha, Some(previous.sha)))
      .Or(Differ(current.fromState, Some(previous.toState))).Or(Is(previous.toState.Rejected?))
  }

  /** A chain the validator accepts: numbered from a registration, each event linked to its predecessor. */
  ghost predicate ChainPasses(events: seq<Event>, entry: EntryId) {
    var n := CountOf(events, entry);
    && n > 0 && Numbered(events, entry, n)
    && EventAt(events, entry, 1).Some? && !FirstFault(EventAt(events, entry, 1).value).Fires()
    && forall s :: 2 <= s <= n ==> Linked(events, entry, s)
  }

  predicate Linked(events: seq<Event>, entry: EntryId, s: int) {
    && EventAt(events, entry, s).Some? && EventAt(events, entry, s - 1).Some?
    && !LinkFault(EventAt(events, entry, s).value, EventAt(events, entry, s - 1).value).Fires()
  }

  /** The trigger run once for each inserted entry and event. */
  method ValidateEventChain(events: seq<Event>, entry: EntryId) returns (ok: bool)
    requires KeysUnique(events) && forall e :: e in events ==> e.sequence > 0
    ensures ok <==> ChainPasses(events, entry)
  {
    var eventCount := CountOf(events, entry);
    var maximumSequence := MaxOf(events, entry);
    NoGapExactly(events, entry);
    if eventCount == 0 || maximumSequence != eventCount {
      return false;
    }
    assert EventAt(events, entry, 1).Some?;
    var first := EventAt(events, entry, 1).value;
    if FirstFault(first).Fires() {
      return false;
    }
    ok := LinksHold(events, entry, eventCount);
  }

  /** Compares each event after the first with the one before it. */
  method LinksHold(events: seq<Event>, entry: EntryId, n: nat) returns (ok: bool)
    requires forall s :: 1 <= s <= n ==> EventAt(events, entry, s).Some?
    ensures ok <==> forall s :: 2 <= s <= n ==> Linked(events, entry, s)
  {
    if n == 0 {
      return true;
    }
    for s := 2 to n + 1
      invariant forall k :: 2 <= k < s ==> Linked(events, entry, k)
    {
      if LinkFault(EventAt(events, entry, s).value, EventAt(events, entry, s - 1).value).Fires() {
        assert !Linked(events, entry, s);
        return false;
      }
    }
    return true;
  }

  // ---------------------------------------------------------------- the prediction gate

  datatype ModelPrediction = ModelPrediction(id: int, entry: EntryId, headEvent: EventId, headSha: string)

  datatype Evaluation = Evaluation(id: int, prediction: int)

  function HeadEvent(events: seq<Event>, p: ModelPrediction): (r: Option<Event>)
    ensures r.Some? ==> r.value in events
  {
    if events == [] then None else
      var last := events[|events| - 1];
      if last.entry == p.entry && last.id == p.headEvent && last.sha == p.headSha then Some(last)
      else HeadEvent(events[..|events| - 1], p)
  }

  function LaterEvents(events: seq<Event>, entry: EntryId, s: int): nat {
    if events == [] then 0 else
      LaterEvents(events[..|events| - 1], entry, s)
      + if events[|events| - 1].entry == entry && events[|events| - 1].sequence > s then 1 else 0
  }

  /** A prediction needs an active state at the head of its model's chain. */
  predicate PredictionPasses(events: seq<Event>, p: ModelPrediction) {
    var head := HeadEvent(events, p);
    head.Some? && head.value.toState.Active? && LaterEvents(events, p.entry, head.value.sequence) == 0
  }

  // ---------------------------------------------------------------- commits

  datatype Tables = Tables(
    entries: seq<EntryId>, events: seq<Event>, predictions: seq<ModelPrediction>, evaluations: seq<Evaluation>)

  const EMPTY := Tables([], [], [], [])

  function Inserted(t: Tables, tx: Tables): Tables {
    Tables(t.entries + tx.entries, t.events + tx.events, t.predictions + tx.predictions, t.evaluations + tx.evaluations)
  }

  predicate EventRowValid(t: Tables, e: Event) {
    && RowChecks(e) && e.entry in t.entries
    && (e.previousId.Some? ==>
          exists i :: 0 <= i < |t.events| && t.events[i].entry == e.entry && t.events[i].id == e.previousId.value)
  }

  /** Keys, foreign keys and row checks; rows already there can be neither updated nor deleted. */
  predicate Insertable(t: Tables, tx: Tables) {
    var after := Inserted(t, tx);
    && Unique(after.entries) && KeysUnique(after.events)
    && (forall i, j :: 0 <= i < j < |after.predictions| ==> after.predictions[i].id != after.predictions[j].id)
    && (forall e :: e in tx.events ==> EventRowValid(after, e))
    && (forall p :: p in tx.predictions ==> p.entry in after.entries)
    && (forall v :: v in tx.evaluations ==> exists p :: p in after.predictions && p.id == v.prediction)
  }

  /** A transaction commits when every row is valid and every deferred trigger passes in its final state. */
  ghost predicate Commits(t: Tables, tx: Tables) {
    var after := Inserted(t, tx);
    && Insertable(t, tx)
    && (forall entry :: entry in tx.entries ==> ChainPasses(after.events, entry))
    && (forall e :: e in tx.events ==> ChainPasses(after.events, e.entry))
    && (forall p :: p in tx.predictions ==> PredictionPasses(after.events, p))
  }

  class RegistryDatabase {
    var tables: Tables

    ghost predicate Valid()
      reads this
    {
      forall e :: e in tables.events ==> e.sequence > 0
    }

    constructor ()
      ensures Valid() && tables == EMPTY
    {
      tables := EMPTY;
    }

    /** Runs the chain trigger for each of a list of entries. */
    method ChainsPass(events: seq<Event>, entries: seq<EntryId>) returns (ok: bool)
      requires KeysUnique(events) && forall e :: e in events ==> e.sequence > 0
      ensures ok <==> forall entry :: entry in entries ==> ChainPasses(events, entry)
    {
      for i := 0 to |entries|
        invariant forall j :: 0 <= j < i ==> ChainPasses(events, entries[j])
      {
        ok := ValidateEventChain(events, entries[i]);
        if !ok {
          assert entries[i] in entries;
          return;
        }
      }
      return true;
    }

    /** Runs every deferred trigger of a transaction in its final state. */
    method TriggersPass(events: seq<Event>, tx: Tables) returns (ok: bool)
      requires KeysUnique(events) && forall e :: e in events ==> e.sequence > 0
      ensures ok <==>
              && (forall entry :: entry in tx.entries ==> ChainPasses(events, entry))
              && (forall e :: e in tx.events ==> ChainPasses(events, e.entry))
              && (forall p :: p in tx.predictions ==> PredictionPasses(events, p))
    {
      EntriesTouched(tx.events);
      var entriesPass := ChainsPass(events, tx.entries);
      var eventsPass := ChainsPass(events, EntriesOf(tx.events));
      ok := entriesPass && eventsPass && forall p :: p in tx.predictions ==> PredictionPasses(events, p);
    }

    /** Inserts, checks and commits, or leaves the tables as they were. */
    method Commit(tx: Tables) returns (ok: bool)
      requires Valid()
      modifies this
      ensures Valid()
      ensures ok <==> Commits(old(tables), tx)
      ensures tables == if ok then Inserted(old(tables), tx) else old(tables)
    {
      if !Insertable(tables, tx) {
        return false;
      }
      var after := Inserted(tables, tx);
      SequencesPositive(tables, tx);
      ok := TriggersPass(after.events, tx);
      if ok {
        tables := after;
      }
    }
  }

  function EntriesOf(events: seq<Event>): seq<EntryId> {
    seq(|events|, i requires 0 <= i < |events| => events[i].entry)
  }

  lemma EntriesTouched(events: seq<Event>)
    ensures forall entry :: entry in EntriesOf(events) <==> exists e :: e in events && e.entry == entry
  {
    forall e | e in events
      ensures e.entry in EntriesOf(events)
    {
      var i :| 0 <= i < |events| && events[i] == e;
      assert EntriesOf(events)[i] == e.entry;
    }
  }

  lemma SequencesPositive(t: Tables, tx: Tables)
    requires Insertable(t, tx) && forall e :: e in t.events ==> e.sequence > 0
    ensures forall e :: e in Inserted(t, tx).events ==> e.sequence > 0
  {
    forall e | e in tx.events
      ensures e.sequence > 0
    {
      RowChecksMean(e);
    }
  }

  // ---------------------------------------------------------------- every reachable state

  /** What every committed state keeps. */
  ghost predicate Lawful(t: Tables) {
    && Unique(t.entries) && KeysUnique(t.events)
    && (forall e :: e in t.events ==> RowChecks(e))
    && (forall entry :: entry in t.entries ==> ChainPasses(t.events, entry))
    && t.predictions == [] && t.evaluations == []
  }

  lemma {:induction false} UntouchedQueries(events: seq<Event>, more: seq<Event>, entry: EntryId, s: int)
    requires forall e :: e in more ==> e.entry != entry
    ensures EventAt(events + more, entry, s) == EventAt(events, entry, s)
    ensures CountOf(events + more, entry) == CountOf(events, entry)
    decreases |more|
  {
    if more == [] {
      assert events + more == events;
    } else {
      var init, last := more[..|more| - 1], more[|more| - 1];
      assert (events + more)[..|events + more| - 1] == events + init;
      assert last in more && forall e :: e in init ==> e in more;
      UntouchedQueries(events, init, entry, s);
    }
  }

  lemma UntouchedChain(events: seq<Event>, more: seq<Event>, entry: EntryId)
    requires ChainPasses(events, entry) && forall e :: e in more ==> e.entry != entry
    ensures ChainPasses(events + more, entry)
  {
    forall s
      ensures EventAt(events + more, entry, s) == EventAt(events, entry, s)
      ensures CountOf(events + more, entry) == CountOf(events, entry)
    {
      UntouchedQueries(events, more, entry, s);
    }
    var n := CountOf(events, entry);
    assert Numbered(events + more, entry, n);
    forall s | 2 <= s <= n
      ensures Linked(events + more, entry, s)
    {
      assert Linked(events, entry, s);
    }
  }

  /** No event is ever active, so no prediction passes its gate. */
  lemma NoPredictionPasses(events: seq<Event>, p: ModelPrediction)
    requires forall e :: e in events ==> RowChecks(e)
    ensures !PredictionPasses(events, p)
  {
    if HeadEvent(events, p).Some? {
      RowChecksMean(HeadEvent(events, p).value);
    }
  }

  lemma CommitKeepsLawful(t: Tables, tx: Tables)
    requires Lawful(t) && Commits(t, tx)
    ensures Lawful(Inserted(t, tx))
  {
    var after := Inserted(t, tx);
    forall entry | entry in after.entries
      ensures ChainPasses(after.events, entry)
    {
      if entry !in tx.entries && forall e :: e in tx.events ==> e.entry != entry {
        UntouchedChain(t.events, tx.events, entry);
      }
    }
    forall p | p in tx.predictions
      ensures false
    {
      NoPredictionPasses(after.events, p);
    }
    NonEmptyHasElement(tx.predictions);
    NonEmptyHasElement(tx.evaluations);
  }

  /** The tables after serial transactions, each committed or rolled back. */
  ghost function Run(txs: seq<Tables>): Tables {
    if txs == [] then EMPTY else
      var before, tx := Run(txs[..|txs| - 1]), txs[|txs| - 1];
      if Commits(before, tx) then Inserted(before, tx) else before
  }

  lemma {:induction false} RunIsLawful(txs: seq<Tables>)
    ensures Lawful(Run(txs))
    decreases |txs|
  {
    if txs != [] {
      var before, tx := Run(txs[..|txs| - 1]), txs[|txs| - 1];
      RunIsLawful(txs[..|txs| - 1]);
      if Commits(before, tx) {
        CommitKeepsLawful(before, tx);
      }
    }
  }

  /** The gate fails closed: no reachable state holds a prediction, and so none holds an evaluation. */
  lemma NoPredictionEver(txs: seq<Tables>)
    ensures Run(txs).predictions == [] && Run(txs).evaluations == []
  {
    RunIsLawful(txs);
  }

  /** In every reachable state an entry's chain is numbered 1 to n, registered first, linked, and ends at a rejection. */
  lemma ReachableChain(txs: seq<Tables>, entry: EntryId)
    requires entry in Run(txs).entries
    ensures var events := Run(txs).events;
      var n := CountOf(events, entry);
      && n >= 1 && Numbered(events, entry, n)
      && EventAt(events, entry, 1).Some? && EventAt(events, entry, 1).value.action.Register?
      && forall s :: 2 <= s <= n ==> Step(events, entry, s)
  {
    RunIsLawful(txs);
    var events := Run(txs).events;
    forall s | 2 <= s <= CountOf(events, entry)
      ensures Step(events, entry, s)
    {
      ChainStep(events, entry, s);
    }
  }

  /** An event after the first: linked to its immediate predecessor, which is not a rejection. */
  ghost predicate Step(events: seq<Event>, entry: EntryId, s: int) {
    && EventAt(events, entry, s).Some? && EventAt(events, entry, s - 1).Some?
    && var e, p := EventAt(events, entry, s).value, EventAt(events, entry, s - 1).value;
       && e.previousId == Some(p.id) && e.previousSha == Some(p.sha)
       && !p.toState.Rejected?
       && (e.fromState.Some? ==> e.fromState.value == p.toState)
       && ((e.action.AcceptDevelopment? && e.toState.DevelopmentAccepted?) || (e.action.Reject? && e.toState.Rejected?))
  }

  lemma ChainStep(events: seq<Event>, entry: EntryId, s: int)
    requires (forall e :: e in events ==> RowChecks(e)) && ChainPasses(events, entry) && 2 <= s <= CountOf(events, entry)
    ensures Step(events, entry, s)
  {
    assert Linked(events, entry, s);
    RowChecksMean(EventAt(events, entry, s).value);
  }

  // ---------------------------------------------------------------- the shape of a chain

  function ActionAt(events: seq<Event>, entry: EntryId, s: int): Action {
    if EventAt(events, entry, s).Some? then EventAt(events, entry, s).value.action else Retire
  }

  /** The actions of an entry in sequence order. */
  function Actions(events: seq<Event>, entry: EntryId): seq<Action> {
    seq(CountOf(events, entry), i requires 0 <= i < CountOf(events, entry) => ActionAt(events, entry, i + 1))
  }

  /** The chains the four actions were meant to allow. */
  predicate Intended(actions: seq<Action>) {
    || actions == [Register]
    || actions == [Register, AcceptDevelopment]
    || actions == [Register, Reject]
    || actions == [Register, AcceptDevelopment, Reject]
  }

  /** An acceptance that comes after another decision. */
  ghost predicate AcceptsAgain(events: seq<Event>, entry: EntryId) {
    exists s :: 3 <= s <= CountOf(events, entry) && ActionAt(events, entry, s).AcceptDevelopment?
  }

  lemma StepsOf(events: seq<Event>, entry: EntryId)
    requires (forall e :: e in events ==> RowChecks(e)) && ChainPasses(events, entry)
    ensures ActionAt(events, entry, 1).Register?
    ensures forall s :: 2 <= s <= CountOf(events, entry) ==>
              ActionAt(events, entry, s).AcceptDevelopment? || ActionAt(events, entry, s).Reject?
    ensures forall s :: 2 <= s < CountOf(events, entry) ==> ActionAt(events, entry, s).AcceptDevelopment?
  {
    forall s | 2 <= s <= CountOf(events, entry)
      ensures ActionAt(events, entry, s).AcceptDevelopment? || ActionAt(events, entry, s).Reject?
      ensures s < CountOf(events, entry) ==> ActionAt(events, entry, s).AcceptDevelopment?
    {
      StepActions(events, entry, s);
    }
  }

  lemma StepActions(events: seq<Event>, entry: EntryId, s: int)
    requires (forall e :: e in events ==> RowChecks(e)) && ChainPasses(events, entry) && 2 <= s <= CountOf(events, entry)
    ensures ActionAt(events, entry, s).AcceptDevelopment? || ActionAt(events, entry, s).Reject?
    ensures s < CountOf(events, entry) ==> ActionAt(events, entry, s).AcceptDevelopment?
  {
    ChainStep(events, entry, s);
    if s < CountOf(events, entry) {
      ChainStep(events, entry, s + 1);
    }
  }

  /** A lawful chain has an intended shape exactly when nothing is accepted again. */
  lemma IntendedExactly(events: seq<Event>, entry: EntryId)
    requires (forall e :: e in events ==> RowChecks(e)) && ChainPasses(events, entry)
    ensures Intended(Actions(events, entry)) <==> !AcceptsAgain(events, entry)
  {
    StepsOf(events, entry);
    var actions, n := Actions(events, entry), CountOf(events, entry);
    assert actions[0] == ActionAt(events, entry, 1);
    if n >= 3 {
      assert actions[1] == ActionAt(events, entry, 2) && actions[2] == ActionAt(events, entry, 3);
    } else if n == 2 {
      assert actions[1] == ActionAt(events, entry, 2);
    }
    if n >= 4 {
      assert ActionAt(events, entry, 3).AcceptDevelopment?;
    }
  }

  /** Something is accepted again only by leaving its former state empty. */
  lemma AcceptedAgainHasNoFormerState(events: seq<Event>, entry: EntryId, s: int)
    requires (forall e :: e in events ==> RowChecks(e)) && ChainPasses(events, entry)
    requires 3 <= s <= CountOf(events, entry) && ActionAt(events, entry, s).AcceptDevelopment?
    ensures EventAt(events, entry, s).Some? && EventAt(events, entry, s).value.fromState.None?
  {
    ChainStep(events, entry, s);
    ChainStep(events, entry, s - 1);
    RowChecksMean(EventAt(events, entry, s).value);
  }

  lemma FirstRowValid(t: Tables, e: Event)
    requires RowChecks(e) && e.entry in t.entries && e.previousId.None?
    ensures EventRowValid(t, e)
  {
  }

  /** An event linked to the one before it is a valid row. */
  lemma LinkedRowValid(t: Tables, i: nat, previous: Event, e: Event)
    requires i < |t.events| && t.events[i] == previous && RowChecks(e) && e.entry in t.entries
    requires previous.entry == e.entry && e.previousId == Some(previous.id)
    ensures EventRowValid(t, e)
  {
  }

  lemma AllOfThree(t: Tables, a: Event, b: Event, c: Event)
    requires t.events == [a, b, c] && EventRowValid(t, a) && EventRowValid(t, b) && EventRowValid(t, c)
    ensures forall e :: e in t.events ==> EventRowValid(t, e)
  {
  }

  lemma EachRowValid(tx: Tables, a: Event, b: Event, c: Event)
    requires tx == Tables([0], [a, b, c], [], []) && RowChecks(a) && RowChecks(b) && RowChecks(c)
    requires a.entry == b.entry == c.entry == 0
    requires a.previousId.None? && b.previousId == Some(a.id) && c.previousId == Some(b.id)
    ensures forall e :: e in tx.events ==> EventRowValid(Inserted(EMPTY, tx), e)
    ensures Inserted(EMPTY, tx) == tx
  {
    IntoEmpty(tx);
    assert tx.entries[0] == 0;
    FirstRowValid(tx, a);
    LinkedRowValid(tx, 0, a, b);
    LinkedRowValid(tx, 1, b, c);
    AllOfThree(tx, a, b, c);
  }

  lemma IntoEmpty(tx: Tables)
    ensures Inserted(EMPTY, tx) == tx
  {
  }

  lemma {:induction false} SnocQueries(events: seq<Event>, e: Event, entry: EntryId, s: int)
    ensures EventAt(events + [e], entry, s)
         == if e.entry == entry && e.sequence == s then Some(e) else EventAt(events, entry, s)
    ensures CountOf(events + [e], entry) == CountOf(events, entry) + if e.entry == entry then 1 else 0
  {
    assert (events + [e])[..|events|] == events;
  }

  /** Three events of one entry, numbered in order. */
  ghost predicate Three(a: Event, b: Event, c: Event) {
    a.entry == b.entry == c.entry == 0 && a.sequence == 1 && b.sequence == 2 && c.sequence == 3
  }

  lemma ThreeQueries(a: Event, b: Event, c: Event, s: int)
    requires Three(a, b, c)
    ensures EventAt([a, b, c], 0, s) == if s == 3 then Some(c) else if s == 2 then Some(b) else if s == 1 then Some(a) else None
    ensures CountOf([a, b, c], 0) == 3
  {
    SnocQueries([], a, 0, s);
    SnocQueries([a], b, 0, s);
    SnocQueries([a, b], c, 0, s);
    assert [] + [a] == [a] && [a] + [b] == [a, b] && [a, b] + [c] == [a, b, c];
  }

  lemma ThreePass(a: Event, b: Event, c: Event)
    requires Three(a, b, c)
    requires !FirstFault(a).Fires() && !LinkFault(b, a).Fires() && !LinkFault(c, b).Fires()
    ensures ChainPasses([a, b, c], 0)
    ensures Actions([a, b, c], 0) == [a.action, b.action, c.action]
  {
    forall s
      ensures EventAt([a, b, c], 0, s)
           == if s == 3 then Some(c) else if s == 2 then Some(b) else if s == 1 then Some(a) else None
      ensures CountOf([a, b, c], 0) == 3
    {
      ThreeQueries(a, b, c, s);
    }
  }

  lemma ThreeInsertable(tx: Tables, a: Event, b: Event, c: Event)
    requires tx == Tables([0], [a, b, c], [], []) && Three(a, b, c) && RowChecks(a) && RowChecks(b) && RowChecks(c)
    requires !Collide(a, b) && !Collide(a, c) && !Collide(b, c)
    requires a.previousId.None? && b.previousId == Some(a.id) && c.previousId == Some(b.id)
    ensures Insertable(EMPTY, tx) && Inserted(EMPTY, tx) == tx
  {
    EachRowValid(tx, a, b, c);
    ThreeUnique([a, b, c]);
  }

  lemma ThreeUnique(events: seq<Event>)
    requires |events| == 3
    requires !Collide(events[0], events[1]) && !Collide(events[0], events[2]) && !Collide(events[1], events[2])
    ensures KeysUnique(events)
  {
  }

  lemma OnlyEntryZero(a: Event, b: Event, c: Event)
    requires Three(a, b, c)
    ensures forall e :: e in [a, b, c] ==> e.entry == 0
  {
  }

  lemma ThreeCommit(tx: Tables, a: Event, b: Event, c: Event)
    requires tx == Tables([0], [a, b, c], [], []) && Three(a, b, c) && RowChecks(a) && RowChecks(b) && RowChecks(c)
    requires !Collide(a, b) && !Collide(a, c) && !Collide(b, c)
    requires a.previousId.None? && b.previousId == Some(a.id) && c.previousId == Some(b.id)
    requires !FirstFault(a).Fires() && !LinkFault(b, a).Fires() && !LinkFault(c, b).Fires()
    ensures Commits(EMPTY, tx) && Inserted(EMPTY, tx) == tx
    ensures Actions(tx.events, 0) == [a.action, b.action, c.action]
  {
    ThreeInsertable(tx, a, b, c);
    ThreePass(a, b, c);
    OnlyEntryZero(a, b, c);
  }

  /** Three events that the checks and the validator let in although the model is accepted twice. */
  lemma AcceptedTwiceCommits() returns (tx: Tables)
    ensures Commits(EMPTY, tx) && Inserted(EMPTY, tx) == tx
    ensures Actions(tx.events, 0) == [Register, AcceptDevelopment, AcceptDevelopment]
  {
    var a := Event(1, 0, 1, "a", None, None, Register, None, Candidate, None, None);
    var b := Event(2, 0, 2, "b", Some(1), Some("a"), AcceptDevelopment, Some(Candidate), DevelopmentAccepted, Some("m"), None);
    var c := Event(3, 0, 3, "c", Some(2), Some("b"), AcceptDevelopment, None, DevelopmentAccepted, Some("m"), None);
    tx := Tables([0], [a, b, c], [], []);
    RowChecksMean(a);
    RowChecksMean(b);
    RowChecksMean(c);
    assert a.sha[0] != b.sha[0] && a.sha[0] != c.sha[0] && b.sha[0] != c.sha[0];
    ThreeCommit(tx, a, b, c);
  }

  // ---------------------------------------------------------------- what one more event needs

  /** An event that continues a chain: fresh, next in number, linked to the head, and a decision the head allows. */
  ghost predicate Continues(events: seq<Event>, e: Event) {
    var n := CountOf(events, e.entry);
    var head := EventAt(events, e.entry, n);
    && (forall x :: x in events ==> x.id != e.id && x.sha != e.sha)
    && e.sequence == n + 1 && head.Some?
    && e.previousId == Some(head.value.id) && e.previousSha == Some(head.value.sha)
    && (e.fromState.None? || e.fromState == Some(head.value.toState))
    && (Accepts(e, head.value) || Rejects(e, head.value))
  }

  ghost predicate Accepts(e: Event, head: Event) {
    && e.action == AcceptDevelopment && e.toState == DevelopmentAccepted && e.assessment.Some? && e.reason.None?
    && (head.toState.Candidate? || (head.toState.DevelopmentAccepted? && e.fromState.None?))
  }

  ghost predicate Rejects(e: Event, head: Event) {
    && e.action == Reject && e.toState == Rejected && e.assessment.None?
    && (e.reason.None? || !AllSpaces(e.reason.value))
    && (head.toState.Candidate? || head.toState.DevelopmentAccepted?)
  }

  lemma EventStates(e: Event)
    requires RowChecks(e)
    ensures e.toState.Candidate? || e.toState.DevelopmentAccepted? || e.toState.Rejected?
    ensures e.action.Register? ==> e.sequence == 1
  {
    RowChecksMean(e);
  }

  /** The queries after one more event, which takes the next number. */
  ghost predicate OneMore(events: seq<Event>, more: seq<Event>, e: Event) {
    && CountOf(more, e.entry) == CountOf(events, e.entry) + 1
    && forall s :: EventAt(more, e.entry, s) == if s == e.sequence then Some(e) else EventAt(events, e.entry, s)
  }

  lemma SnocIsOneMore(events: seq<Event>, e: Event)
    ensures OneMore(events, events + [e], e)
  {
    forall s
      ensures EventAt(events + [e], e.entry, s) == if s == e.sequence then Some(e) else EventAt(events, e.entry, s)
      ensures CountOf(events + [e], e.entry) == CountOf(events, e.entry) + 1
    {
      SnocQueries(events, e, e.entry, s);
    }
  }

  lemma LongerChainPasses(events: seq<Event>, more: seq<Event>, e: Event)
    requires ChainPasses(events, e.entry) && OneMore(events, more, e) && e.sequence == CountOf(events, e.entry) + 1
    ensures ChainPasses(more, e.entry) <==> Linked(more, e.entry, e.sequence)
  {
    var n := CountOf(events, e.entry);
    assert Numbered(more, e.entry, n + 1);
    forall s | 2 <= s <= n
      ensures Linked(more, e.entry, s)
    {
      assert Linked(events, e.entry, s);
    }
  }

  lemma OnlyNextPasses(events: seq<Event>, more: seq<Event>, e: Event)
    requires ChainPasses(events, e.entry) && OneMore(events, more, e) && ChainPasses(more, e.entry)
    ensures e.sequence == CountOf(events, e.entry) + 1
  {
    var n := CountOf(events, e.entry);
    assert EventAt(more, e.entry, n + 1).Some? && EventAt(events, e.entry, n + 1).None?;
  }

  /** The chain trigger after one more event looks at its number and at the new link alone. */
  lemma SnocPasses(events: seq<Event>, e: Event)
    requires ChainPasses(events, e.entry)
    ensures ChainPasses(events + [e], e.entry) <==>
              && e.sequence == CountOf(events, e.entry) + 1
              && !LinkFault(e, EventAt(events, e.entry, CountOf(events, e.entry)).value).Fires()
  {
    var more, n := events + [e], CountOf(events, e.entry);
    SnocIsOneMore(events, e);
    assert EventAt(events, e.entry, n).Some?;
    if ChainPasses(more, e.entry) {
      OnlyNextPasses(events, more, e);
    }
    if e.sequence == n + 1 {
      LongerChainPasses(events, more, e);
    }
  }

  lemma FreshIsUnique(events: seq<Event>, e: Event)
    requires KeysUnique(events)
    ensures KeysUnique(events + [e]) <==> forall x :: x in events ==> !Collide(x, e)
  {
    var more := events + [e];
    if KeysUnique(more) {
      forall x | x in events
        ensures !Collide(x, e)
      {
        var i :| 0 <= i < |events| && events[i] == x;
        assert more[i] == x && more[|events|] == e;
      }
    }
  }

  lemma UnlinkedFires(e: Event, head: Event)
    ensures !LinkFault(e, head).Fires() <==>
              && (e.previousId.None? || e.previousId == Some(head.id))
              && (e.previousSha.None? || e.previousSha == Some(head.sha))
              && (e.fromState.None? || e.fromState == Some(head.toState)) && !head.toState.Rejected?
  {
  }

  lemma NumberedUpToCount(events: seq<Event>, x: Event)
    requires ChainPasses(events, x.entry) && x in events
    ensures 1 <= x.sequence <= CountOf(events, x.entry)
  {
    FoundAt(events, x);
  }

  lemma {:induction false} FoundAt(events: seq<Event>, x: Event)
    requires x in events
    ensures EventAt(events, x.entry, x.sequence).Some?
    decreases |events|
  {
    var init, last := events[..|events| - 1], events[|events| - 1];
    assert events == init + [last];
    if x != last {
      FoundAt(init, x);
    }
  }

  /** The transaction that adds one event. */
  function Adding(e: Event): Tables {
    Tables([], [e], [], [])
  }

  lemma InsertableExactly(t: Tables, e: Event)
    requires Lawful(t) && e.entry in t.entries
    ensures Inserted(t, Adding(e)).events == t.events + [e]
    ensures Insertable(t, Adding(e)) <==> KeysUnique(t.events + [e]) && EventRowValid(Inserted(t, Adding(e)), e)
  {
    var after := Inserted(t, Adding(e));
    assert after.entries == t.entries && after.events == t.events + [e] && after.predictions == [];
    assert Adding(e).events[0] == e;
  }

  lemma AddingCommits(t: Tables, e: Event)
    requires Lawful(t) && e.entry in t.entries
    ensures Commits(t, Adding(e)) <==>
              KeysUnique(t.events + [e]) && EventRowValid(Inserted(t, Adding(e)), e) && ChainPasses(t.events + [e], e.entry)
  {
    InsertableExactly(t, e);
    assert Adding(e).events[0] == e;
  }

  /** The rows that can follow a head are the decisions it allows, linked to it. */
  lemma LinkedDecision(e: Event, head: Event)
    requires RowChecks(head) && e.sequence > 1
    ensures RowChecks(e) && !LinkFault(e, head).Fires() <==>
              && e.previousId == Some(head.id) && e.previousSha == Some(head.sha)
              && (e.fromState.None? || e.fromState == Some(head.toState)) && (Accepts(e, head) || Rejects(e, head))
  {
    RowChecksMean(e);
    EventStates(head);
    UnlinkedFires(e, head);
  }

  /**
   One more event of a registered entry commits exactly when it is fresh, next in number, linked to the
   head of its chain, and a decision that the head allows.
   */
  lemma OneMoreCommitsExactly(t: Tables, e: Event)
    requires Lawful(t) && e.entry in t.entries
    ensures Commits(t, Adding(e)) <==> Continues(t.events, e)
  {
    var n := CountOf(t.events, e.entry);
    var head := EventAt(t.events, e.entry, n).value;
    AddingCommits(t, e);
    FreshIsUnique(t.events, e);
    if Commits(t, Adding(e)) {
      SnocPasses(t.events, e);
      LinkedDecision(e, head);
    }
    if Continues(t.events, e) {
      LinkedDecision(e, head);
      forall x | x in t.events
        ensures !Collide(x, e)
      {
        if x.entry == e.entry {
          NumberedUpToCount(t.events, x);
        }
      }
      SnocPasses(t.events, e);
      HeadRowValid(t, e, head);
    }
  }

  lemma HeadRowValid(t: Tables, e: Event, head: Event)
    requires RowChecks(e) && e.entry in t.entries && head in t.events && head.entry == e.entry
    requires e.previousId == Some(head.id)
    ensures EventRowValid(Inserted(t, Adding(e)), e)
  {
    var after := Inserted(t, Adding(e));
    var i :| 0 <= i < |t.events| && t.events[i] == head;
    assert after.events[i] == head && after.entries == t.entries;
  }

  // ---------------------------------------------------------------- what the gate asks

  ghost predicate IsHead(events: seq<Event>, p: ModelPrediction, head: Event) {
    && head in events && head.entry == p.entry && head.id == p.headEvent && head.sha == p.headSha
  }

  lemma {:induction false} HeadFound(events: seq<Event>, p: ModelPrediction)
    ensures var r := HeadEvent(events, p);
      (r.Some? ==> IsHead(events, p, r.value)) && ((exists e :: IsHead(events, p, e)) ==> r.Some?)
    decreases |events|
  {
    if events != [] {
      var init, last := events[..|events| - 1], events[|events| - 1];
      assert events == init + [last];
      HeadFound(init, p);
      if e :| IsHead(events, p, e) && e != last {
        assert IsHead(init, p, e);
      }
    }
  }

  lemma {:induction false} NoLaterEvents(events: seq<Event>, entry: EntryId, s: int)
    ensures LaterEvents(events, entry, s) == 0 <==> forall e :: e in events && e.entry == entry ==> e.sequence <= s
    decreases |events|
  {
    if events != [] {
      var init, last := events[..|events| - 1], events[|events| - 1];
      assert events == init + [last];
      NoLaterEvents(init, entry, s);
    }
  }

  lemma SameIdSameEvent(events: seq<Event>, a: Event, b: Event)
    requires KeysUnique(events) && a in events && b in events && a.id == b.id
    ensures a == b
  {
    var i :| 0 <= i < |events| && events[i] == a;
    var j :| 0 <= j < |events| && events[j] == b;
    assert Collide(events[i], events[j]) && Collide(events[j], events[i]);
  }

  /** A prediction passes exactly when it names the last event of its model's chain and that event made the model active. */
  lemma GateExactly(events: seq<Event>, p: ModelPrediction)
    requires KeysUnique(events)
    ensures PredictionPasses(events, p) <==>
            exists head :: IsHead(events, p, head) && head.toState == Active
                           && forall e :: e in events && e.entry == p.entry ==> e.sequence <= head.sequence
  {
    HeadFound(events, p);
    var r := HeadEvent(events, p);
    if r.Some? {
      NoLaterEvents(events, p.entry, r.value.sequence);
      forall e | IsHead(events, p, e)
        ensures e == r.value
      {
        SameIdSameEvent(events, e, r.value);
      }
    }
  }
}

/** Append-only fixture observations guarded by a deferred validator, over every reachable committed state. */
module ObservationHistory {
  import opened Wrappers
  import opened Fixtures

  datatype SourceKey = SourceKey(source: string, external: string)

  datatype Response = Response(source: string, capability: string, fetchedAt: int)

  datatype Revision = Revision(fixture: FixtureId, status: FixtureStatus, precision: KickoffPrecision)

  datatype Observation = Observation(
    id: int, fixture: FixtureId, revision: int, key: SourceKey, cacheKey: string,
    providerUpdated: Option<int>, providerObserved: Option<int>, retrieved: int)

  /** The guarded tables; a transaction is the rows it adds to each. */
  datatype Tables = Tables(
    references: map<SourceKey, FixtureId>, responses: map<string, Response>,
    revisions: map<int, Revision>, observations: seq<Observation>)

  const EMPTY := Tables(map[], map[], map[], [])

  function Inserted(t: Tables, tx: Tables): Tables {
    Tables(t.references + tx.references, t.responses + tx.responses, t.revisions + tx.revisions,
           t.observations + tx.observations)
  }

  // ---------------------------------------------------------------- constraints checked on insertion

  /** Foreign keys and column checks of one observation. */
  predicate RowValid(t: Tables, o: Observation) {
    && o.key in t.references && o.cacheKey in t.responses
    && o.revision in t.revisions && t.revisions[o.revision].fixture == o.fixture
    && !t.revisions[o.revision].status.Finished?
    && (o.providerUpdated.Some? ==> o.providerUpdated.value <= o.retrieved)
    && (o.providerObserved.Some? ==> o.providerObserved.value <= o.retrieved)
  }

  /** The primary key and the two unique keys of the observation table. */
  predicate Collide(a: Observation, b: Observation) {
    a.id == b.id || (a.key == b.key && (a.cacheKey == b.cacheKey || a.retrieved == b.retrieved))
  }

  predicate KeysUnique(observations: seq<Observation>) {
    forall i, j :: 0 <= i < j < |observations| ==> !Collide(observations[i], observations[j])
  }

  /** Only new rows: existing ones can be neither updated nor deleted. */
  predicate Insertable(t: Tables, tx: Tables) {
    && t.references.Keys !! tx.references.Keys && t.responses.Keys !! tx.responses.Keys
    && t.revisions.Keys !! tx.revisions.Keys
    && KeysUnique(t.observations + tx.observations)
    && forall i :: 0 <= i < |tx.observations| ==> RowValid(Inserted(t, tx), tx.observations[i])
  }

  // ---------------------------------------------------------------- the deferred validator

  predicate Provenance(t: Tables, o: Observation) {
    && o.cacheKey in t.responses && o.key in t.references
    && t.responses[o.cacheKey] == Response(o.key.source, "fixtures", o.retrieved)
    && t.references[o.key] == o.fixture
  }

  predicate StatusMayFollow(a: FixtureStatus, b: FixtureStatus) {
    && (a.Cancelled? ==> b.Cancelled?)
    && (a.Abandoned? ==> b.Abandoned?)
    && (a.InProgress? ==> b.InProgress? || b.Abandoned?)
  }

  predicate UpdatedMayFollow(a: Option<int>, b: Option<int>) {
    a.Some? ==> b.Some? && a.value <= b.value
  }

  /** A later observation of the same fixture that takes nothing back. */
  predicate MayFollow(t: Tables, a: Observation, b: Observation)
    requires a.revision in t.revisions && b.revision in t.revisions
  {
    var before, after := t.revisions[a.revision], t.revisions[b.revision];
    && StatusMayFollow(before.status, after.status)
    && (before.precision.Exact? ==> after.precision.Exact?)
    && UpdatedMayFollow(a.providerUpdated, b.providerUpdated)
  }

  predicate Other(x: Observation, o: Observation) {
    x.key == o.key && x.id != o.id
  }

  predicate Candidate(x: Observation, o: Observation) {
    Other(x, o) && x.retrieved <= o.retrieved
  }

  predicate Newer(x: Observation, y: Observation) {
    x.retrieved > y.retrieved || (x.retrieved == y.retrieved && x.id > y.id)
  }

  /** The newest other observation of the same source row retrieved no later. */
  function Latest(observations: seq<Observation>, o: Observation): Option<Observation> {
    if observations == [] then None else
      var best, x := Latest(observations[..|observations| - 1], o), observations[|observations| - 1];
      if Candidate(x, o) && (best.None? || Newer(x, best.value)) then Some(x) else best
  }

  function LaterCount(observations: seq<Observation>, o: Observation): nat {
    if observations == [] then 0 else
      var x := observations[|observations| - 1];
      LaterCount(observations[..|observations| - 1], o) + if Other(x, o) && x.retrieved > o.retrieved then 1 else 0
  }

  lemma {:induction false} LatestIsNewest(observations: seq<Observation>, o: Observation)
    ensures var r := Latest(observations, o);
      && (r.Some? ==> r.value in observations && Candidate(r.value, o))
      && (forall x :: x in observations && Candidate(x, o) ==> r.Some? && !Newer(x, r.value))
    decreases |observations|
  {
    if observations != [] {
      var init, x := observations[..|observations| - 1], observations[|observations| - 1];
      assert observations == init + [x];
      LatestIsNewest(init, o);
    }
  }

  lemma {:induction false} LaterCountZero(observations: seq<Observation>, o: Observation)
    ensures LaterCount(observations, o) == 0 <==> forall x :: x in observations && Other(x, o) ==> x.retrieved <= o.retrieved
    decreases |observations|
  {
    if observations != [] {
      var init, x := observations[..|observations| - 1], observations[|observations| - 1];
      assert observations == init + [x];
      LaterCountZero(init, o);
    }
  }

  /** What the trigger lets pass, in the final state of its transaction. */
  ghost predicate Passes(t: Tables, o: Observation)
    requires RowsKnown(t) && o.revision in t.revisions
  {
    && Provenance(t, o)
    && (forall x :: x in t.observations && Other(x, o) ==> x.retrieved <= o.retrieved)
    && var latest := Latest(t.observations, o);
       LatestIsNewest(t.observations, o);
       latest.Some? ==> MayFollow(t, latest.value, o)
  }

  predicate RowsKnown(t: Tables) {
    forall i :: 0 <= i < |t.observations| ==> t.observations[i].revision in t.revisions
  }

  /** The deferred trigger, its two queries and its checks in order. */
  method ValidateCurrentFixtureObservation(t: Tables, o: Observation) returns (ok: bool)
    requires RowsKnown(t) && o.revision in t.revisions
    ensures ok <==> Passes(t, o)
  {
    LatestIsNewest(t.observations, o);
    LaterCountZero(t.observations, o);
    if !Provenance(t, o) {
      return false;
    }
    var current := Latest(t.observations, o);
    var laterCount := LaterCount(t.observations, o);
    if laterCount != 0 {
      return false;
    }
    if current.Some? {
      var was, now := t.revisions[current.value.revision], t.revisions[o.revision];
      if (was.status.Cancelled? && !now.status.Cancelled?)
         || (was.status.Abandoned? && !now.status.Abandoned?)
         || (was.status.InProgress? && !(now.status.InProgress? || now.status.Abandoned?))
         || (was.precision.Exact? && now.precision.DateOnly?)
         || (current.value.providerUpdated.Some?
             && (o.providerUpdated.None? || o.providerUpdated.value < current.value.providerUpdated.value)) {
        return false;
      }
    }
    return true;
  }

  // ---------------------------------------------------------------- commits

  lemma InsertedRowsKnown(t: Tables, tx: Tables)
    requires RowsKnown(t) && Insertable(t, tx)
    ensures RowsKnown(Inserted(t, tx))
  {
    var after := Inserted(t, tx);
    forall i | 0 <= i < |after.observations|
      ensures after.observations[i].revision in after.revisions
    {
      if i >= |t.observations| {
        assert RowValid(after, tx.observations[i - |t.observations|]);
      }
    }
  }

  /** A transaction commits when every immediate constraint holds and every deferred check passes. */
  ghost predicate Commits(t: Tables, tx: Tables)
    requires RowsKnown(t)
  {
    && Insertable(t, tx)
    && (InsertedRowsKnown(t, tx);
        forall i :: 0 <= i < |tx.observations| ==>
          (assert RowValid(Inserted(t, tx), tx.observations[i]); Passes(Inserted(t, tx), tx.observations[i])))
  }

  class Database {
    var tables: Tables

    ghost predicate Valid()
      reads this
    {
      RowsKnown(tables)
    }

    constructor ()
      ensures Valid() && tables == EMPTY
    {
      tables := EMPTY;
    }

    /** Inserts, checks and commits, or leaves the tables as they were. */
    method Commit(tx: Tables) returns (ok: bool)
      requires Valid()
      modifies this
      ensures Valid()
      ensures ok <==> Commits(old(tables), tx)
      ensures tables == if ok then Inserted(old(tables), tx) else old(tables)
    {
      if !Insertable(tables, tx) {
        return false;
      }
      InsertedRowsKnown(tables, tx);
      var after := Inserted(tables, tx);
      for i := 0 to |tx.observations|
        invariant tables == old(tables)
        invariant forall j :: 0 <= j < i ==>
                    tx.observations[j].revision in after.revisions && Passes(after, tx.observations[j])
      {
        assert RowValid(after, tx.observations[i]);
        var passed := ValidateCurrentFixtureObservation(after, tx.observations[i]);
        if !passed {
          return false;
        }
      }
      tables := after;
      return true;
    }
  }

  // ---------------------------------------------------------------- every reachable state

  ghost predicate Follows(t: Tables, a: Observation, b: Observation) {
    && a.revision in t.revisions && b.revision in t.revisions
    && a.retrieved < b.retrieved && a.fixture == b.fixture && MayFollow(t, a, b)
  }

  /** What every committed state keeps: each source row's history moves strictly forward. */
  ghost predicate Lawful(t: Tables) {
    && RowsKnown(t) && KeysUnique(t.observations)
    && (forall i :: 0 <= i < |t.observations| ==>
          t.observations[i].key in t.references && t.references[t.observations[i].key] == t.observations[i].fixture)
    && forall i, j :: 0 <= i < j < |t.observations| && t.observations[i].key == t.observations[j].key ==>
         Follows(t, t.observations[i], t.observations[j])
  }

  lemma FollowsTransitive(t: Tables, a: Observation, b: Observation, c: Observation)
    requires Follows(t, a, b) && Follows(t, b, c)
    ensures Follows(t, a, c)
  {
  }

  lemma FollowsStays(t: Tables, tx: Tables, a: Observation, b: Observation)
    requires Insertable(t, tx) && Follows(t, a, b)
    ensures Follows(Inserted(t, tx), a, b)
  {
  }

  lemma NewOnePasses(t: Tables, tx: Tables, j: nat)
    requires RowsKnown(t) && Commits(t, tx) && j < |tx.observations|
    ensures RowsKnown(Inserted(t, tx)) && RowValid(Inserted(t, tx), tx.observations[j])
    ensures Passes(Inserted(t, tx), tx.observations[j])
    ensures tx.observations[j] in Inserted(t, tx).observations
  {
    InsertedRowsKnown(t, tx);
    assert RowValid(Inserted(t, tx), tx.observations[j]);
    assert Inserted(t, tx).observations[|t.observations| + j] == tx.observations[j];
  }

  lemma RowsDiffer(t: Tables, tx: Tables, i: nat, j: nat)
    requires Insertable(t, tx) && i < j < |t.observations| + |tx.observations|
    ensures !Collide(Inserted(t, tx).observations[i], Inserted(t, tx).observations[j])
  {
  }

  /** A commit adds at most one observation to each source row. */
  lemma AtMostOneNew(t: Tables, tx: Tables, i: nat, j: nat)
    requires RowsKnown(t) && Commits(t, tx) && i < j < |tx.observations|
    ensures tx.observations[i].key != tx.observations[j].key
  {
    var after, x, y := Inserted(t, tx), tx.observations[i], tx.observations[j];
    NewOnePasses(t, tx, i);
    NewOnePasses(t, tx, j);
    NewOnesDiffer(t, tx, i, j);
    if x.key == y.key {
      NoneLater(after, x, y);
      NoneLater(after, y, x);
    }
  }

  lemma NewOnesDiffer(t: Tables, tx: Tables, i: nat, j: nat)
    requires Insertable(t, tx) && i < j < |tx.observations|
    ensures !Collide(tx.observations[i], tx.observations[j])
  {
    var after, k := Inserted(t, tx), |t.observations|;
    RowsDiffer(t, tx, k + i, k + j);
    assert after.observations[k + i] == tx.observations[i] && after.observations[k + j] == tx.observations[j];
  }

  lemma NoneLater(t: Tables, o: Observation, x: Observation)
    requires RowsKnown(t) && o.revision in t.revisions && Passes(t, o) && x in t.observations && Other(x, o)
    ensures x.retrieved <= o.retrieved
  {
  }

  lemma NewKeysDiffer(t: Tables, tx: Tables, i: nat, j: nat)
    requires RowsKnown(t) && Commits(t, tx) && i < |tx.observations| && j < |tx.observations| && i != j
    ensures tx.observations[i].key != tx.observations[j].key
  {
    if i < j {
      AtMostOneNew(t, tx, i, j);
    } else {
      AtMostOneNew(t, tx, j, i);
    }
  }

  lemma LatestIsOld(t: Tables, tx: Tables, j: nat, p: Observation) returns (q: nat)
    requires RowsKnown(t) && Commits(t, tx) && j < |tx.observations|
    requires p in Inserted(t, tx).observations && Other(p, tx.observations[j])
    ensures q < |t.observations| && t.observations[q] == p
  {
    q := OldOrNew(t, tx, p);
    var n := |t.observations|;
    if q >= n {
      if q - n != j {
        NewKeysDiffer(t, tx, q - n, j);
      }
      assert false;
    }
  }

  lemma OldOrNew(t: Tables, tx: Tables, p: Observation) returns (q: nat)
    requires p in Inserted(t, tx).observations
    ensures q < |t.observations| + |tx.observations|
    ensures p == if q < |t.observations| then t.observations[q] else tx.observations[q - |t.observations|]
  {
    var all := Inserted(t, tx).observations;
    q :| 0 <= q < |all| && all[q] == p;
  }

  lemma NewFollowsOld(t: Tables, tx: Tables, i: nat, j: nat)
    requires Lawful(t) && Commits(t, tx) && i < |t.observations| && j < |tx.observations|
    requires t.observations[i].key == tx.observations[j].key
    ensures Follows(Inserted(t, tx), t.observations[i], tx.observations[j])
  {
    var after, x, o := Inserted(t, tx), t.observations[i], tx.observations[j];
    NewOnePasses(t, tx, j);
    RowsDiffer(t, tx, i, |t.observations| + j);
    assert after.observations[i] == x;
    LatestIsNewest(after.observations, o);
    var p := Latest(after.observations, o).value;
    var q := LatestIsOld(t, tx, j, p);
    RowsDiffer(t, tx, q, |t.observations| + j);
    assert after.observations[q] == p && t.references[p.key] == p.fixture == x.fixture;
    assert Follows(after, p, o);
    assert q < i ==> Follows(t, p, x);
    if i < q {
      FollowsStays(t, tx, x, p);
      FollowsTransitive(after, x, p, o);
    }
  }

  /** A commit keeps every history lawful. */
  lemma CommitKeepsLawful(t: Tables, tx: Tables)
    requires Lawful(t) && Commits(t, tx)
    ensures Lawful(Inserted(t, tx))
  {
    var after, n := Inserted(t, tx), |t.observations|;
    InsertedRowsKnown(t, tx);
    forall i | 0 <= i < |after.observations|
      ensures after.observations[i].key in after.references
      ensures after.references[after.observations[i].key] == after.observations[i].fixture
    {
      if i >= n {
        NewOnePasses(t, tx, i - n);
      }
    }
    forall i: nat, j: nat | i < j < |tx.observations|
      ensures tx.observations[i].key != tx.observations[j].key
    {
      AtMostOneNew(t, tx, i, j);
    }
    forall i, j | 0 <= i < j < |after.observations| && after.observations[i].key == after.observations[j].key
      ensures Follows(after, after.observations[i], after.observations[j])
    {
      if i < n {
        FollowsInserted(t, tx, i, j);
      }
    }
  }

  lemma FollowsInserted(t: Tables, tx: Tables, i: nat, j: nat)
    requires Lawful(t) && Commits(t, tx) && i < |t.observations| && i < j < |t.observations| + |tx.observations|
    requires Inserted(t, tx).observations[i].key == Inserted(t, tx).observations[j].key
    ensures Follows(Inserted(t, tx), Inserted(t, tx).observations[i], Inserted(t, tx).observations[j])
  {
    var n := |t.observations|;
    if j < n {
      FollowsStays(t, tx, t.observations[i], t.observations[j]);
    } else {
      NewFollowsOld(t, tx, i, j - n);
    }
  }

  /** The tables after serial transactions, each committed or rolled back. */
  ghost function Run(txs: seq<Tables>): (t: Tables)
    ensures RowsKnown(t)
  {
    if txs == [] then EMPTY else
      var before, tx := Run(txs[..|txs| - 1]), txs[|txs| - 1];
      if Commits(before, tx) then InsertedRowsKnown(before, tx); Inserted(before, tx) else before
  }

  lemma {:induction false} RunIsLawful(txs: seq<Tables>)
    ensures Lawful(Run(txs))
    decreases |txs|
  {
    if txs != [] {
      var before, tx := Run(txs[..|txs| - 1]), txs[|txs| - 1];
      RunIsLawful(txs[..|txs| - 1]);
      if Commits(before, tx) {
        CommitKeepsLawful(before, tx);
      }
    }
  }

  /**
   In every reachable state and for any two observations of one source row: the later one was retrieved
   later, belongs to the same fixture, and never revives, un-starts, blurs or back-dates the earlier one.
   */
  lemma HistoryMovesForward(txs: seq<Tables>, i: nat, j: nat)
    requires i < j < |Run(txs).observations| && Run(txs).observations[i].key == Run(txs).observations[j].key
    ensures var t := Run(txs);
      var a, b := t.observations[i], t.observations[j];
      var before, after := t.revisions[a.revision], t.revisions[b.revision];
      && a.retrieved < b.retrieved && a.fixture == b.fixture
      && (before.status.Cancelled? ==> after.status.Cancelled?)
      && (before.status.Abandoned? ==> after.status.Abandoned?)
      && (before.status.InProgress? ==> after.status.InProgress? || after.status.Abandoned?)
      && (before.precision.Exact? ==> after.precision.Exact?)
      && (a.providerUpdated.Some? ==> b.providerUpdated.Some? && a.providerUpdated.value <= b.providerUpdated.value)
  {
    RunIsLawful(txs);
    assert Follows(Run(txs), Run(txs).observations[i], Run(txs).observations[j]);
  }

  /** The observation follows every earlier one of its source row. */
  ghost predicate FollowsAll(t: Tables, tx: Tables, o: Observation) {
    forall i :: 0 <= i < |t.observations| && t.observations[i].key == o.key ==> Follows(Inserted(t, tx), t.observations[i], o)
  }

  /** The conditions a single new observation can be checked for. */
  ghost predicate Fits(t: Tables, tx: Tables, j: nat)
    requires j < |tx.observations|
  {
    Provenance(Inserted(t, tx), tx.observations[j]) && FollowsAll(t, tx, tx.observations[j])
  }

  ghost predicate OneEach(tx: Tables) {
    forall i, j :: 0 <= i < j < |tx.observations| ==> tx.observations[i].key != tx.observations[j].key
  }

  lemma FittingPasses(t: Tables, tx: Tables, j: nat)
    requires Lawful(t) && Insertable(t, tx) && OneEach(tx) && j < |tx.observations| && Fits(t, tx, j)
    ensures RowsKnown(Inserted(t, tx)) && tx.observations[j].revision in Inserted(t, tx).revisions
    ensures Passes(Inserted(t, tx), tx.observations[j])
  {
    var all, o := Inserted(t, tx).observations, tx.observations[j];
    InsertedRowsKnown(t, tx);
    assert RowValid(Inserted(t, tx), o);
    LatestIsNewest(all, o);
    forall x | x in all && Other(x, o)
      ensures Follows(Inserted(t, tx), x, o)
    {
      OnlyOldOthers(t, tx, j, x);
    }
  }

  /** With one new observation a source row, every other observation of the row is an old one. */
  lemma OnlyOldOthers(t: Tables, tx: Tables, j: nat, x: Observation)
    requires OneEach(tx) && j < |tx.observations| && x in Inserted(t, tx).observations && Other(x, tx.observations[j])
    ensures exists i :: 0 <= i < |t.observations| && t.observations[i] == x && t.observations[i].key == tx.observations[j].key
  {
    var q := OldOrNew(t, tx, x);
  }

  /**
   Checking each new observation against the newest is exact: a transaction of any number of them commits
   when, and only when, it brings one a source row and each follows the whole history of its row.
   */
  lemma CommitsExactly(t: Tables, tx: Tables)
    requires Lawful(t) && Insertable(t, tx)
    ensures Commits(t, tx) <==> OneEach(tx) && forall j :: 0 <= j < |tx.observations| ==> Fits(t, tx, j)
  {
    if Commits(t, tx) {
      forall i: nat, j: nat | i < j < |tx.observations|
        ensures tx.observations[i].key != tx.observations[j].key
      {
        AtMostOneNew(t, tx, i, j);
      }
      forall j: nat | j < |tx.observations|
        ensures Fits(t, tx, j)
      {
        CommittedFits(t, tx, j);
      }
    }
    if OneEach(tx) && forall j :: 0 <= j < |tx.observations| ==> Fits(t, tx, j) {
      InsertedRowsKnown(t, tx);
      forall j: nat | j < |tx.observations|
        ensures Passes(Inserted(t, tx), tx.observations[j])
      {
        FittingPasses(t, tx, j);
      }
    }
  }

  lemma CommittedFits(t: Tables, tx: Tables, j: nat)
    requires Lawful(t) && Commits(t, tx) && j < |tx.observations|
    ensures Fits(t, tx, j)
  {
    var o := tx.observations[j];
    NewOnePasses(t, tx, j);
    forall i | 0 <= i < |t.observations| && t.observations[i].key == o.key
      ensures Follows(Inserted(t, tx), t.observations[i], o)
    {
      NewFollowsOld(t, tx, i, j);
    }
  }

  /** The statuses between which a source row may move: a called-off or abandoned match is final. */
  ghost predicate MayMove(a: FixtureStatus, b: FixtureStatus) {
    a == b || a.Scheduled? || a.Postponed? || a.Finished? || (a.InProgress? && b.Abandoned?)
  }

  /** What a new observation must be, spelled out: nothing more is asked of it than this. */
  ghost predicate Continues(t: Tables, a: Observation, b: Observation)
    requires a.revision in t.revisions && b.revision in t.revisions
  {
    var before, after := t.revisions[a.revision], t.revisions[b.revision];
    && a.retrieved < b.retrieved && a.fixture == b.fixture && MayMove(before.status, after.status)
    && !(before.precision.Exact? && after.precision.DateOnly?)
    && (a.providerUpdated.None? || (b.providerUpdated.Some? && b.providerUpdated.value >= a.providerUpdated.value))
  }

  /** The observation continues every earlier one of its source row. */
  ghost predicate ContinuesRow(t: Tables, tx: Tables, o: Observation) {
    forall i :: 0 <= i < |t.observations| && t.observations[i].key == o.key ==>
      && t.observations[i].revision in Inserted(t, tx).revisions && o.revision in Inserted(t, tx).revisions
      && Continues(Inserted(t, tx), t.observations[i], o)
  }

  lemma FollowsIsContinues(t: Tables, a: Observation, b: Observation)
    ensures Follows(t, a, b) <==> a.revision in t.revisions && b.revision in t.revisions && Continues(t, a, b)
  {
  }

  lemma FollowsRow(t: Tables, tx: Tables, o: Observation)
    ensures FollowsAll(t, tx, o) <==> ContinuesRow(t, tx, o)
  {
    forall i | 0 <= i < |t.observations|
      ensures Follows(Inserted(t, tx), t.observations[i], o) <==>
              && t.observations[i].revision in Inserted(t, tx).revisions && o.revision in Inserted(t, tx).revisions
              && Continues(Inserted(t, tx), t.observations[i], o)
    {
      FollowsIsContinues(Inserted(t, tx), t.observations[i], o);
    }
  }

  /** The cached response was fetched from the observation's source when it was retrieved, and the row is its fixture's. */
  ghost predicate OwnSource(t: Tables, o: Observation) {
    && o.cacheKey in t.responses && t.responses[o.cacheKey] == Response(o.key.source, "fixtures", o.retrieved)
    && o.key in t.references && t.references[o.key] == o.fixture
  }

  lemma FitsExactly(t: Tables, tx: Tables, j: nat)
    requires j < |tx.observations|
    ensures Fits(t, tx, j) <==>
            OwnSource(Inserted(t, tx), tx.observations[j]) && ContinuesRow(t, tx, tx.observations[j])
  {
    FollowsRow(t, tx, tx.observations[j]);
  }

  /** One new observation commits exactly when its response and its fixture are its own and it continues its row. */
  lemma OneCommitsExactly(t: Tables, tx: Tables)
    requires Lawful(t) && Insertable(t, tx) && |tx.observations| == 1
    ensures Commits(t, tx) <==>
            OwnSource(Inserted(t, tx), tx.observations[0]) && ContinuesRow(t, tx, tx.observations[0])
  {
    CommitsExactly(t, tx);
    FitsExactly(t, tx, 0);
  }

  // ---------------------------------------------------------------- where observations come from

  /** The response, the fixture and the revision of an observation are its own. */
  ghost predicate Sourced(t: Tables, o: Observation) {
    && OwnSource(t, o) && o.revision in t.revisions && t.revisions[o.revision].fixture == o.fixture
    && !t.revisions[o.revision].status.Finished?
    && (o.providerUpdated.Some? ==> o.providerUpdated.value <= o.retrieved)
    && (o.providerObserved.Some? ==> o.providerObserved.value <= o.retrieved)
  }

  ghost predicate AllSourced(t: Tables) {
    forall i :: 0 <= i < |t.observations| ==> Sourced(t, t.observations[i])
  }

  lemma CommitKeepsSourced(t: Tables, tx: Tables)
    requires RowsKnown(t) && AllSourced(t) && Commits(t, tx)
    ensures AllSourced(Inserted(t, tx))
  {
    var after, n := Inserted(t, tx), |t.observations|;
    forall i | 0 <= i < |after.observations|
      ensures Sourced(after, after.observations[i])
    {
      if i < n {
        assert Sourced(t, t.observations[i]);
      } else {
        NewOnePasses(t, tx, i - n);
      }
    }
  }

  /** In every reachable state each observation has the cached response it was read from and its own fixture. */
  lemma {:induction false} ReachableIsSourced(txs: seq<Tables>)
    ensures AllSourced(Run(txs))
    decreases |txs|
  {
    if txs != [] {
      var before, tx := Run(txs[..|txs| - 1]), txs[|txs| - 1];
      ReachableIsSourced(txs[..|txs| - 1]);
      if Commits(before, tx) {
        CommitKeepsSourced(before, tx);
      }
    }
  }

  /** In every reachable state no identity is used twice, and a source row reads each response once, at one instant. */
  lemma ReachableIsUnique(txs: seq<Tables>, i: nat, j: nat)
    requires i < j < |Run(txs).observations|
    ensures var a, b := Run(txs).observations[i], Run(txs).observations[j];
      a.id != b.id && (a.key == b.key ==> a.cacheKey != b.cacheKey && a.retrieved != b.retrieved)
  {
    RunIsLawful(txs);
    assert !Collide(Run(txs).observations[i], Run(txs).observations[j]);
  }
}

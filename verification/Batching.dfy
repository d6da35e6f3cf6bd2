/**
 The conservative simultaneous-batch rule, stated once for anything that has a kickoff slot: every
 local date that holds a date-only slot is one batch, and every other date is split by kickoff.
 */
module Batching {
  import opened Calendar
  import opened Collections

  datatype Slot = Slot(id: int, kickoff: int, dateOnly: bool)

  datatype Batch<T> = Batch(cutoff: int, members: seq<T>, dateOnly: bool)

  /** A local zone together with the slot of each item. */
  datatype Timeline<!T(!new)> = Timeline(zone: Zone, slot: T -> Slot) {

    function Id(): T -> int {
      (x: T) => slot(x).id
    }

    function Date(x: T): int {
      zone.dateOf(slot(x).kickoff)
    }

    function Dating(): T -> int {
      (x: T) => Date(x)
    }

    /** The date holds at least one date-only item. */
    ghost predicate DateOnlyDay(S: set<T>, day: int) {
      exists x :: x in S && Date(x) == day && slot(x).dateOnly
    }

    /** One integer orders all batches: the start of a date-only date, or else the kickoff. */
    ghost function Key(S: set<T>, x: T): int {
      if DateOnlyDay(S, Date(x)) then zone.startOf(Date(x)) else slot(x).kickoff
    }

    /** Items are simultaneous when nothing in the data orders them. */
    ghost function Simultaneous(S: set<T>, k: int): set<T> {
      set x | x in S && Key(S, x) == k
    }

    ghost function Before(S: set<T>, k: int): set<T> {
      set x | x in S && Key(S, x) < k
    }

    ghost function BatchAt(S: set<T>, k: int): Batch<T> {
      var members := Simultaneous(S, k);
      var dateOnly := exists x :: x in members && DateOnlyDay(S, Date(x));
      Batch(if dateOnly then k - 1 else k, Listing(Id(), members), dateOnly)
    }

    ghost function KeySet(S: set<T>): set<int> {
      set x | x in S :: Key(S, x)
    }

    /** The distinct keys in increasing order. */
    ghost function Keys(S: set<T>): seq<int> {
      Listing((k: int) => k, KeySet(S))
    }

    /** The chronology of a set of items: one batch for each key, in key order. */
    ghost function Batches(S: set<T>): seq<Batch<T>> {
      var ks := Keys(S);
      seq(|ks|, i requires 0 <= i < |ks| => BatchAt(S, ks[i]))
    }

    // -------------------------------------------------------------- keys and dates

    /** A part of S that contains every simultaneous group it meets. */
    ghost predicate WholeGroups(part: set<T>, S: set<T>) {
      && part <= S
      && forall x, y :: x in part && y in S && Key(S, x) == Key(S, y) ==> y in part
    }

    /** A key lies on the date of every item that has it. */
    lemma KeyDate(S: set<T>, x: T)
      requires x in S
      ensures zone.dateOf(Key(S, x)) == Date(x)
      ensures Key(S, x) <= slot(x).kickoff
    {
      StartOfOwnDate(zone, slot(x).kickoff);
    }

    /** Dropping whole groups changes no remaining key. */
    lemma KeyStable(part: set<T>, S: set<T>, x: T)
      requires WholeGroups(part, S) && x in part
      ensures DateOnlyDay(part, Date(x)) <==> DateOnlyDay(S, Date(x))
      ensures Key(part, x) == Key(S, x)
    {
      if DateOnlyDay(S, Date(x)) {
        var y :| y in S && Date(y) == Date(x) && slot(y).dateOnly;
        assert Key(S, y) == Key(S, x);
        assert y in part;
      }
    }

    lemma BatchStable(part: set<T>, S: set<T>, k: int)
      requires WholeGroups(part, S)
      requires exists x :: x in part && Key(S, x) == k
      ensures Simultaneous(part, k) == Simultaneous(S, k)
      ensures BatchAt(part, k) == BatchAt(S, k)
    {
      forall x
        ensures x in Simultaneous(part, k) <==> x in Simultaneous(S, k)
      {
        if x in part {
          KeyStable(part, S, x);
        }
      }
      forall x | x in Simultaneous(S, k)
        ensures DateOnlyDay(part, Date(x)) <==> DateOnlyDay(S, Date(x))
      {
        KeyStable(part, S, x);
      }
    }

    lemma BeforeIsWhole(S: set<T>, k: int)
      ensures WholeGroups(Before(S, k), S)
      ensures WholeGroups(S - Before(S, k), S)
      ensures WholeGroups(S - Simultaneous(S, k), S)
    {
    }

    // -------------------------------------------------------------- the chronology

    lemma KeysList(S: set<T>)
      ensures forall i, j :: 0 <= i < j < |Keys(S)| ==> Keys(S)[i] < Keys(S)[j]
      ensures Elements(Keys(S)) == KeySet(S)
    {
      var id := (k: int) => k;
      ListingLists(id, KeySet(S));
      assert forall i :: 0 <= i < |Keys(S)| ==> id(Keys(S)[i]) == Keys(S)[i];
    }

    /** Any strictly increasing listing of the keys of a whole-group part is the keys of that part. */
    lemma KeysOfPart(part: set<T>, S: set<T>, ks: seq<int>)
      requires WholeGroups(part, S)
      requires forall i, j :: 0 <= i < j < |ks| ==> ks[i] < ks[j]
      requires forall k :: k in ks <==> exists x :: x in part && Key(S, x) == k
      ensures Keys(part) == ks
    {
      KeysStable(part, S);
      var id := (k: int) => k;
      forall k
        ensures k in Elements(ks) <==> k in KeySet(part)
      {
        if k in ks {
          var x :| x in part && Key(S, x) == k;
          assert Key(part, x) == k;
        }
      }
      AscendingIsListing(id, ks, KeySet(part));
    }

    lemma NoBatches()
      ensures Batches({}) == []
    {
      KeysOfPart({}, {}, []);
    }

    /** The keys of the two parts of a cut. */
    lemma CutKeys(S: set<T>, n: nat)
      requires n <= |Keys(S)|
      ensures
        var early := set x | x in S && Key(S, x) in Keys(S)[..n];
        && WholeGroups(early, S) && Keys(early) == Keys(S)[..n]
        && WholeGroups(S - early, S) && Keys(S - early) == Keys(S)[n..]
    {
      var ks := Keys(S);
      var early := set x | x in S && Key(S, x) in ks[..n];
      KeysList(S);
      assert ks == ks[..n] + ks[n..];
      forall k
        ensures k in ks[..n] <==> exists x :: x in early && Key(S, x) == k
        ensures k in ks[n..] <==> exists x :: x in S - early && Key(S, x) == k
      {
        assert k in Elements(ks) <==> k in KeySet(S);
        if x :| x in S && Key(S, x) == k {
          assert k in ks;
        }
      }
      KeysOfPart(early, S, ks[..n]);
      KeysOfPart(S - early, S, ks[n..]);
    }

    lemma CutBatchAt(S: set<T>, n: nat, i: nat)
      requires n <= |Keys(S)| && i < |Keys(S)|
      ensures
        var early := set x | x in S && Key(S, x) in Keys(S)[..n];
        BatchAt(if i < n then early else S - early, Keys(S)[i]) == BatchAt(S, Keys(S)[i])
    {
      var k := Keys(S)[i];
      var early := set x | x in S && Key(S, x) in Keys(S)[..n];
      CutKeys(S, n);
      KeysList(S);
      assert k in Elements(Keys(S));
      var x :| x in S && Key(S, x) == k;
      if i < n {
        assert Keys(S)[..n][i] == k;
        BatchStable(early, S, k);
      } else {
        assert x !in early;
        BatchStable(S - early, S, k);
      }
    }

    /** Batches that agree key by key with those of two parts are theirs, one part after the other. */
    lemma JoinBatches(S: set<T>, early: set<T>, late: set<T>, n: nat)
      requires n <= |Keys(S)| && Keys(early) == Keys(S)[..n] && Keys(late) == Keys(S)[n..]
      requires forall i :: 0 <= i < |Keys(S)| ==> BatchAt(if i < n then early else late, Keys(S)[i]) == BatchAt(S, Keys(S)[i])
      ensures Batches(S) == Batches(early) + Batches(late)
    {
    }

    /** Cutting the keys in two cuts the chronology in two. */
    lemma CutBatches(S: set<T>, n: nat)
      requires n <= |Keys(S)|
      ensures
        var early := set x | x in S && Key(S, x) in Keys(S)[..n];
        Batches(S) == Batches(early) + Batches(S - early)
    {
      CutKeys(S, n);
      var early := set x | x in S && Key(S, x) in Keys(S)[..n];
      forall i | 0 <= i < |Keys(S)|
        ensures BatchAt(if i < n then early else S - early, Keys(S)[i]) == BatchAt(S, Keys(S)[i])
      {
        CutBatchAt(S, n, i);
      }
      JoinBatches(S, early, S - early, n);
    }

    lemma {:induction false} PrefixLength(ks: seq<int>, k: int) returns (n: nat)
      requires forall i, j :: 0 <= i < j < |ks| ==> ks[i] < ks[j]
      ensures n <= |ks|
      ensures forall i :: 0 <= i < |ks| ==> (i < n <==> ks[i] < k)
    {
      n := 0;
      while n < |ks| && ks[n] < k
        invariant n <= |ks| && forall i :: 0 <= i < n ==> ks[i] < k
      {
        n := n + 1;
      }
    }

    /** The batches strictly before any key are the chronology of the items strictly before it. */
    lemma SplitAt(S: set<T>, k: int)
      ensures Batches(S) == Batches(Before(S, k)) + Batches(S - Before(S, k))
    {
      KeysList(S);
      var n := PrefixLength(Keys(S), k);
      forall x | x in S
        ensures x in Before(S, k) <==> Key(S, x) in Keys(S)[..n]
      {
        assert Key(S, x) in Elements(Keys(S));
      }
      assert Before(S, k) == set x | x in S && Key(S, x) in Keys(S)[..n];
      CutBatches(S, n);
    }

    /** The i-th batch and everything that precedes it. */
    lemma PrefixAt(S: set<T>, i: nat)
      requires i < |Keys(S)|
      ensures var k := Keys(S)[i];
        && (exists x :: x in S && Key(S, x) == k)
        && Batches(S)[i] == BatchAt(S, k)
        && Batches(S)[..i] == Batches(Before(S, k))
    {
      var ks := Keys(S);
      KeysList(S);
      assert ks[i] in Elements(ks);
      var early := set x | x in S && Key(S, x) in ks[..i];
      forall x | x in S
        ensures x in early <==> x in Before(S, ks[i])
      {
        assert Key(S, x) in Elements(ks);
      }
      CutKeys(S, i);
      CutBatches(S, i);
      assert early == Before(S, ks[i]);
    }

    /** Unfolding at the least key. */
    lemma BatchesFrom(S: set<T>, y: T)
      requires y in S && forall x :: x in S ==> Key(S, y) <= Key(S, x)
      ensures Batches(S) == [BatchAt(S, Key(S, y))] + Batches(S - Simultaneous(S, Key(S, y)))
    {
      var k := Key(S, y);
      var group := Simultaneous(S, k);
      SplitAt(S, k + 1);
      assert Before(S, k + 1) == group;
      assert y in group;
      assert Batches(group) == [BatchAt(S, k)] by {
        SingleBatch(S, k);
      }
    }

    lemma SingleBatch(S: set<T>, k: int)
      requires Simultaneous(S, k) != {}
      ensures Batches(Simultaneous(S, k)) == [BatchAt(S, k)]
    {
      var group := Simultaneous(S, k);
      var x :| x in group;
      KeysOfPart(group, S, [k]);
      BatchStable(group, S, k);
    }

    lemma KeysStable(part: set<T>, S: set<T>)
      requires WholeGroups(part, S)
      ensures forall x :: x in part ==> Key(part, x) == Key(S, x)
    {
      forall x | x in part
        ensures Key(part, x) == Key(S, x)
      {
        KeyStable(part, S, x);
      }
    }

    /** Where an item's batch sits: after the chronology of everything strictly before it. */
    lemma Locate(S: set<T>, x: T)
      requires x in S
      ensures
        var k := Key(S, x);
        var early := Before(S, k);
        && Batches(S) == Batches(early) + [BatchAt(S, k)] + Batches(S - early - Simultaneous(S, k))
    {
      var k := Key(S, x);
      var early := Before(S, k);
      var late := S - early;
      BeforeIsWhole(S, k);
      SplitAt(S, k);
      KeysStable(late, S);
      BatchStable(late, S, k);
      assert x in late && forall y :: y in late ==> Key(late, x) <= Key(late, y);
      BatchesFrom(late, x);
      ConcatAssociates(Batches(early), [BatchAt(S, k)], Batches(late - Simultaneous(S, k)));
    }

    /** Every item is a member of one of the batches, and every member is an item. */
    lemma MembersAreItems(S: set<T>)
      requires Injective(Id(), S)
      ensures forall x :: x in S ==> BatchAt(S, Key(S, x)) in Batches(S) && x in BatchAt(S, Key(S, x)).members
      ensures forall b, x :: b in Batches(S) && x in b.members ==> x in S && b == BatchAt(S, Key(S, x))
    {
      forall x | x in S
        ensures BatchAt(S, Key(S, x)) in Batches(S) && x in BatchAt(S, Key(S, x)).members
      {
        Locate(S, x);
        BatchLists(S, Key(S, x));
        assert x in Elements(BatchAt(S, Key(S, x)).members);
      }
      forall b, x | b in Batches(S) && x in b.members
        ensures x in S && b == BatchAt(S, Key(S, x))
      {
        CutoffsOrdered(S);
        var y :| y in S && b == BatchAt(S, Key(S, y));
        BatchLists(S, Key(S, y));
        assert x in Elements(b.members);
      }
    }

    /** The batch of a key lists exactly the items with that key, in increasing id order. */
    lemma BatchLists(S: set<T>, k: int)
      requires Injective(Id(), S)
      ensures Elements(BatchAt(S, k).members) == Simultaneous(S, k)
      ensures Ascending(Id(), BatchAt(S, k).members)
    {
      ListingLists(Id(), Simultaneous(S, k));
    }

    /** Nothing leaks between batches: an item comes earlier exactly when the data orders it earlier. */
    lemma EarlierExactly(S: set<T>, x: T, y: T)
      requires x in S && y in S
      ensures x in Before(S, Key(S, y)) <==>
              || Date(x) < Date(y)
              || (Date(x) == Date(y) && !DateOnlyDay(S, Date(y)) && slot(x).kickoff < slot(y).kickoff)
      ensures x in Simultaneous(S, Key(S, y)) <==>
              Date(x) == Date(y) && (DateOnlyDay(S, Date(y)) || slot(x).kickoff == slot(y).kickoff)
    {
      KeyDate(S, x);
      KeyDate(S, y);
      if Key(S, x) <= Key(S, y) {
        DatesFollowInstants(zone, Key(S, x), Key(S, y));
      } else {
        DatesFollowInstants(zone, Key(S, y), Key(S, x));
      }
    }

    /** The point-in-time row contract on an item's cutoff, and what the cutoff separates. */
    lemma CutoffContract(S: set<T>, x: T)
      requires x in S
      ensures var b := BatchAt(S, Key(S, x));
        && b.dateOnly == DateOnlyDay(S, Date(x))
        && b.cutoff == (if b.dateOnly then zone.startOf(Date(x)) - 1 else slot(x).kickoff)
        && b.cutoff <= slot(x).kickoff
        && (slot(x).dateOnly ==> b.cutoff < zone.startOf(Date(x)))
        && (forall y :: y in Before(S, Key(S, x)) ==> slot(y).kickoff <= b.cutoff)
    {
      var k := Key(S, x);
      var b := BatchAt(S, k);
      assert x in Simultaneous(S, k);
      KeyDate(S, x);
      StartOfOwnDate(zone, slot(x).kickoff);
      forall y | y in Simultaneous(S, k)
        ensures Date(y) == Date(x)
      {
        KeyDate(S, y);
      }
      forall y | y in Before(S, k)
        ensures slot(y).kickoff <= b.cutoff
      {
        EarlierExactly(S, y, x);
        if Date(y) < Date(x) {
          assert slot(y).kickoff < zone.startOf(Date(x)) <= k;
        }
      }
    }

    // -------------------------------------------------------------- the whole listing

    static function Flatten(bs: seq<Batch<T>>): seq<T> {
      if bs == [] then [] else bs[0].members + Flatten(bs[1..])
    }

    /** The first batch lists its group, the rest of the listing lists the rest. */
    lemma FirstThenRest(S: set<T>, y: T, rest: set<T>)
      requires Injective(Id(), S) && y in S && forall x :: x in S ==> Key(S, y) <= Key(S, x)
      requires rest == S - Simultaneous(S, Key(S, y))
      ensures Flatten(Batches(S)) == Listing(Id(), Simultaneous(S, Key(S, y))) + Flatten(Batches(rest))
    {
      BatchesFrom(S, y);
      FlattenCons(BatchAt(S, Key(S, y)), Batches(rest));
    }

    /** The batches partition the items: every item is in exactly one batch, exactly once. */
    lemma {:induction false} BatchesPartition(S: set<T>)
      requires Injective(Id(), S)
      ensures Elements(Flatten(Batches(S))) == S
      ensures |Flatten(Batches(S))| == |S|
      decreases |S|
    {
      if S == {} {
        NoBatches();
      } else {
        var y := First(S);
        var group := Simultaneous(S, Key(S, y));
        var rest := S - group;
        var head := Listing(Id(), group);
        assert y in group;
        ListingLists(Id(), group);
        AscendingSize(Id(), head);
        BatchesPartition(rest);
        FirstThenRest(S, y, rest);
        ElementsConcat(head, Flatten(Batches(rest)));
        PartSizes(group, rest, S);
      }
    }

    static lemma FlattenCons(b: Batch<T>, bs: seq<Batch<T>>)
      ensures Flatten([b] + bs) == b.members + Flatten(bs)
    {
      assert ([b] + bs)[1..] == bs;
    }

    static lemma {:induction false} FlattenConcat(a: seq<Batch<T>>, b: seq<Batch<T>>)
      ensures Flatten(a + b) == Flatten(a) + Flatten(b)
      decreases |a|
    {
      if a == [] {
        assert a + b == b;
      } else {
        assert (a + b)[1..] == a[1..] + b;
        FlattenConcat(a[1..], b);
        ConcatAssociates(a[0].members, Flatten(a[1..]), Flatten(b));
      }
    }

    static lemma FlattenSnoc(bs: seq<Batch<T>>, b: Batch<T>)
      ensures Flatten(bs + [b]) == Flatten(bs) + b.members
    {
      FlattenConcat(bs, [b]);
      assert Flatten([b]) == b.members + Flatten([]);
    }

    /** An item of the first batch. */
    ghost function First(S: set<T>): (y: T)
      requires S != {}
      ensures y in S
      ensures forall x :: x in S ==> Key(S, y) <= Key(S, x)
    {
      LeastBy((x: T) => Key(S, x), S)
    }

    /** Every batch is the batch of one of the items, and cutoffs never go back. */
    lemma CutoffsOrdered(S: set<T>)
      ensures forall i, j :: 0 <= i < j < |Batches(S)| ==> Batches(S)[i].cutoff <= Batches(S)[j].cutoff
      ensures forall b :: b in Batches(S) ==> exists x :: x in S && b == BatchAt(S, Key(S, x))
    {
      KeysList(S);
      forall b | b in Batches(S)
        ensures exists x :: x in S && b == BatchAt(S, Key(S, x))
      {
        var i :| 0 <= i < |Keys(S)| && b == BatchAt(S, Keys(S)[i]);
        assert Keys(S)[i] in Elements(Keys(S));
        var x :| x in S && Key(S, x) == Keys(S)[i];
      }
    }

    // -------------------------------------------------------------- one step of the grouping loops

    ghost function OnDate(R: set<T>, day: int): set<T> {
      set x | x in R && Date(x) == day
    }

    ghost function AtKickoff(R: set<T>, day: int, kickoff: int): set<T> {
      set x | x in R && Date(x) == day && slot(x).kickoff == kickoff
    }

    /** A date-only item on the earliest date is simultaneous with that whole date, and comes first. */
    lemma DateOnlyDayIsFirst(R: set<T>, day: int, y: T)
      requires y in OnDate(R, day) && slot(y).dateOnly && forall x :: x in R ==> day <= Date(x)
      ensures Simultaneous(R, Key(R, y)) == OnDate(R, day)
      ensures forall x :: x in R ==> Key(R, y) <= Key(R, x)
    {
      forall x | x in R
        ensures Key(R, y) <= Key(R, x)
        ensures x in Simultaneous(R, Key(R, y)) <==> x in OnDate(R, day)
      {
        KeyDate(R, x);
        EarlierExactly(R, x, y);
      }
    }

    lemma EarliestKickoffIsFirst(R: set<T>, day: int, y: T)
      requires !DateOnlyDay(R, day) && forall x :: x in R ==> day <= Date(x)
      requires y in OnDate(R, day) && forall x :: x in OnDate(R, day) ==> slot(y).kickoff <= slot(x).kickoff
      ensures Simultaneous(R, Key(R, y)) == AtKickoff(R, day, slot(y).kickoff)
      ensures forall x :: x in R ==> Key(R, y) <= Key(R, x)
    {
      forall x | x in R
        ensures Key(R, y) <= Key(R, x)
        ensures x in Simultaneous(R, Key(R, y)) <==> x in AtKickoff(R, day, slot(y).kickoff)
      {
        EarlierExactly(R, x, y);
      }
    }

    /** The batch of a date-only date holds the whole date, sorted, and is cut off just before it. */
    lemma DateOnlyBatch(R: set<T>, day: int, dated: seq<T>, y: T)
      requires y in R && DateOnlyDay(R, day) && Date(y) == day && Simultaneous(R, Key(R, y)) == OnDate(R, day)
      requires DistinctKeys(Id(), dated) && Elements(dated) == OnDate(R, day)
      ensures BatchAt(R, Key(R, y)) == Batch(zone.startOf(day) - 1, SortBy(Id(), dated), true)
    {
      SortByLists(Id(), dated);
      CutoffContract(R, y);
    }

    /** The earliest date holds a date-only item: the whole date, sorted, is the next batch. */
    lemma NextDateOnlyDay(R: set<T>, day: int, dated: seq<T>)
      requires DateOnlyDay(R, day) && forall x :: x in R ==> day <= Date(x)
      requires DistinctKeys(Id(), dated) && Elements(dated) == OnDate(R, day)
      ensures Batches(R) == [Batch(zone.startOf(day) - 1, SortBy(Id(), dated), true)] + Batches(R - OnDate(R, day))
    {
      var y :| y in R && Date(y) == day && slot(y).dateOnly;
      DateOnlyDayIsFirst(R, day, y);
      DateOnlyBatch(R, day, dated, y);
      BatchesFrom(R, y);
    }

    /** The earliest date is all exact: the items of its earliest kickoff, sorted, are the next batch. */
    lemma NextKickoff(R: set<T>, day: int, kickoff: int, together: seq<T>)
      requires !DateOnlyDay(R, day) && forall x :: x in R ==> day <= Date(x)
      requires DistinctKeys(Id(), together) && Elements(together) == AtKickoff(R, day, kickoff)
      requires together != [] && forall x :: x in OnDate(R, day) ==> kickoff <= slot(x).kickoff
      ensures Batches(R) == [Batch(kickoff, SortBy(Id(), together), false)] + Batches(R - AtKickoff(R, day, kickoff))
    {
      var y := together[0];
      assert y in Elements(together);
      EarliestKickoffIsFirst(R, day, y);
      SortByLists(Id(), together);
      CutoffContract(R, y);
      BatchesFrom(R, y);
    }

    // -------------------------------------------------------------- what the schedule alone decides

    ghost function Slots(S: set<T>): set<Slot> {
      set x | x in S :: slot(x)
    }

    function Schedule(): Timeline<Slot> {
      Timeline(zone, (s: Slot) => s)
    }

    lemma KeyBySlot(S: set<T>, x: T)
      requires x in S
      ensures DateOnlyDay(S, Date(x)) <==> Schedule().DateOnlyDay(Slots(S), Date(x))
      ensures Key(S, x) == Schedule().Key(Slots(S), slot(x))
    {
      assert slot(x) in Slots(S);
      if DateOnlyDay(S, Date(x)) {
        var y :| y in S && Date(y) == Date(x) && slot(y).dateOnly;
        assert slot(y) in Slots(S) && Schedule().Date(slot(y)) == Date(x);
      }
      if Schedule().DateOnlyDay(Slots(S), Date(x)) {
        var t :| t in Slots(S) && Schedule().Date(t) == Date(x) && t.dateOnly;
        var y :| y in S && slot(y) == t;
        assert Date(y) == Date(x);
      }
    }

    function SlotsOf(members: seq<T>): seq<Slot> {
      seq(|members|, i requires 0 <= i < |members| => slot(members[i]))
    }

    function Projected(b: Batch<T>): Batch<Slot> {
      Batch(b.cutoff, SlotsOf(b.members), b.dateOnly)
    }

    function ProjectedAll(bs: seq<Batch<T>>): seq<Batch<Slot>> {
      seq(|bs|, i requires 0 <= i < |bs| => Projected(bs[i]))
    }

    lemma GroupBySlot(S: set<T>, k: int)
      ensures KeySet(S) == Schedule().KeySet(Slots(S))
      ensures Slots(Simultaneous(S, k)) == Schedule().Simultaneous(Slots(S), k)
    {
      forall x | x in S
        ensures Key(S, x) == Schedule().Key(Slots(S), slot(x))
      {
        KeyBySlot(S, x);
      }
      forall t | t in Slots(S)
        ensures Schedule().Key(Slots(S), t) in KeySet(S)
      {
        var x :| x in S && slot(x) == t;
      }
    }

    lemma SlotsOfElements(members: seq<T>)
      ensures Elements(SlotsOf(members)) == Slots(Elements(members))
    {
      var projected := SlotsOf(members);
      forall t | t in Slots(Elements(members))
        ensures t in projected
      {
        var x :| x in Elements(members) && slot(x) == t;
        var i :| 0 <= i < |members| && members[i] == x;
        assert projected[i] == t;
      }
    }

    lemma SlotsOfAscending(members: seq<T>)
      requires Ascending(Id(), members)
      ensures Ascending(Schedule().Id(), SlotsOf(members))
    {
      var key := Schedule().Id();
      var projected := SlotsOf(members);
      forall i, j | 0 <= i < j < |projected|
        ensures key(projected[i]) < key(projected[j])
      {
        assert Id()(members[i]) < Id()(members[j]);
      }
    }

    lemma ListingBySlot(group: set<T>)
      requires Injective(Id(), group)
      ensures SlotsOf(Listing(Id(), group)) == Listing(Schedule().Id(), Slots(group))
    {
      var members := Listing(Id(), group);
      ListingLists(Id(), group);
      SlotsOfElements(members);
      SlotsOfAscending(members);
      AscendingIsListing(Schedule().Id(), SlotsOf(members), Slots(group));
    }

    /** The grouping is decided by the slots alone: projecting commutes with batching. */
    lemma BatchesBySlot(S: set<T>)
      requires Injective(Id(), S)
      ensures ProjectedAll(Batches(S)) == Schedule().Batches(Slots(S))
    {
      KeysList(S);
      forall k | k in Keys(S)
        ensures Projected(BatchAt(S, k)) == Schedule().BatchAt(Slots(S), k)
      {
        assert k in Elements(Keys(S));
        var y :| y in S && Key(S, y) == k;
        GroupBySlot(S, k);
        ListingBySlot(Simultaneous(S, k));
        BatchFlagBySlot(S, y);
      }
      GroupBySlot(S, 0);
    }

    lemma BatchFlagBySlot(S: set<T>, y: T)
      requires y in S
      ensures BatchAt(S, Key(S, y)).dateOnly == Schedule().BatchAt(Slots(S), Key(S, y)).dateOnly
    {
      CutoffContract(S, y);
      KeyBySlot(S, y);
      Schedule().CutoffContract(Slots(S), slot(y));
    }
  }

  // ---------------------------------------------------------------- the grouping loops

  /** The bucket of a key holds exactly the items with that key. */
  lemma BucketGroup<T(!new)>(tl: Timeline<T>, items: seq<T>, tag: T -> int, k: int, group: set<T>)
    requires DistinctKeys(tl.Id(), items)
    requires forall x :: x in group <==> x in items && tag(x) == k
    ensures Elements(Bucket(tag, k, items)) == group
    ensures DistinctKeys(tl.Id(), Bucket(tag, k, items))
  {
    BucketElements(tag, k, items);
    BucketDistinct(tl.Id(), tag, k, items);
  }

  /** Splits one all-exact date by identical kickoff. */
  method KickoffBatches<T(!new,==)>(tl: Timeline<T>, dated: seq<T>, day: int, ghost R: set<T>)
    returns (batches: seq<Batch<T>>)
    requires DistinctKeys(tl.Id(), dated)
    requires Elements(dated) == tl.OnDate(R, day)
    requires !tl.DateOnlyDay(R, day) && forall x :: x in R ==> day <= tl.Date(x)
    ensures tl.Batches(R) == batches + tl.Batches(R - tl.OnDate(R, day))
  {
    var kickoff := (x: T) => tl.slot(x).kickoff;
    var byKickoff: map<int, seq<T>> := map[];
    for i := 0 to |dated|
      invariant Bucketed(byKickoff, kickoff, dated[..i])
    {
      AddKeepsBuckets(byKickoff, kickoff, dated[..i], dated[i]);
      byKickoff := AddToBucket(byKickoff, kickoff(dated[i]), dated[i]);
      assert dated[..i + 1] == dated[..i] + [dated[i]];
    }
    assert dated[..|dated|] == dated;

    batches := [];
    var pending := byKickoff.Keys;
    ghost var left := R;
    forall x | x in R && tl.Date(x) == day
      ensures kickoff(x) in pending
    {
      assert x in Elements(dated);
    }
    while pending != {}
      invariant pending <= byKickoff.Keys
      invariant left == set x | x in R && (tl.Date(x) == day ==> kickoff(x) in pending)
      invariant tl.Batches(R) == batches + tl.Batches(left)
      decreases |pending|
    {
      HasLeast(pending);
      var k :| k in pending && forall j :: j in pending ==> k <= j;
      ghost var group := tl.AtKickoff(left, day, k);
      var batch := Batch(k, SortBy(tl.Id(), byKickoff[k]), false);
      assert forall x :: x in group <==> x in Elements(dated) && kickoff(x) == k;
      BucketGroup(tl, dated, kickoff, k, group);
      tl.NextKickoff(left, day, k, byKickoff[k]);
      ConcatAssociates(batches, [batch], tl.Batches(left - group));
      batches := batches + [batch];
      pending := pending - {k};
      left := left - group;
    }
    assert left == R - tl.OnDate(R, day);
  }

  lemma DayPrecision<T(!new)>(tl: Timeline<T>, dated: seq<T>, day: int, R: set<T>)
    requires Elements(dated) == tl.OnDate(R, day)
    ensures tl.DateOnlyDay(R, day) <==> exists i :: 0 <= i < |dated| && tl.slot(dated[i]).dateOnly
  {
    if tl.DateOnlyDay(R, day) {
      var x :| x in R && tl.Date(x) == day && tl.slot(x).dateOnly;
      assert x in Elements(dated);
      var i :| 0 <= i < |dated| && dated[i] == x;
    }
    forall i | 0 <= i < |dated|
      ensures dated[i] in R && tl.Date(dated[i]) == day
    {
      assert dated[i] in Elements(dated);
    }
  }

  /** The batches of the earliest remaining date. */
  method DateBatches<T(!new,==)>(tl: Timeline<T>, dated: seq<T>, day: int, ghost R: set<T>)
    returns (batches: seq<Batch<T>>)
    requires DistinctKeys(tl.Id(), dated)
    requires Elements(dated) == tl.OnDate(R, day)
    requires forall x :: x in R ==> day <= tl.Date(x)
    ensures tl.Batches(R) == batches + tl.Batches(R - tl.OnDate(R, day))
  {
    DayPrecision(tl, dated, day, R);
    if exists i :: 0 <= i < |dated| && tl.slot(dated[i]).dateOnly {
      tl.NextDateOnlyDay(R, day, dated);
      return [Batch(tl.zone.startOf(day) - 1, SortBy(tl.Id(), dated), true)];
    }
    batches := KickoffBatches(tl, dated, day, R);
  }

  /** Runs through the dates in order. */
  method CollectBatches<T(!new,==)>(tl: Timeline<T>, items: seq<T>, byDate: map<int, seq<T>>)
    returns (batches: seq<Batch<T>>)
    requires DistinctKeys(tl.Id(), items)
    requires Bucketed(byDate, tl.Dating(), items)
    ensures batches == tl.Batches(Elements(items))
  {
    ghost var S := Elements(items);
    ghost var date := tl.Dating();
    batches := [];
    var pending := byDate.Keys;
    ghost var left := S;
    while pending != {}
      invariant pending <= byDate.Keys
      invariant left == set x | x in S && date(x) in pending
      invariant tl.Batches(S) == batches + tl.Batches(left)
      decreases |pending|
    {
      HasLeast(pending);
      var day :| day in pending && forall d :: d in pending ==> day <= d;
      ghost var today := tl.OnDate(left, day);
      BucketGroup(tl, items, date, day, today);
      var dayBatches := DateBatches(tl, byDate[day], day, left);
      ConcatAssociates(batches, dayBatches, tl.Batches(left - today));
      batches := batches + dayBatches;
      pending := pending - {day};
      left := left - today;
    }
    assert left == {};
    tl.NoBatches();
    assert batches + [] == batches;
  }
}

/** Ordering, folding and summing of finite collections, shared by every component. */
module Collections {

  /** The elements of a sequence. */
  ghost function Elements<T>(s: seq<T>): set<T> {
    set x | x in s
  }

  /** Strictly increasing keys, hence also pairwise distinct elements. */
  ghost predicate Ascending<T(!new)>(key: T -> int, s: seq<T>) {
    forall i, j :: 0 <= i < j < |s| ==> key(s[i]) < key(s[j])
  }

  /** No two elements of the set share a key. */
  ghost predicate Injective<T(!new)>(key: T -> int, S: set<T>) {
    forall x, y :: x in S && y in S && key(x) == key(y) ==> x == y
  }

  /** No two positions of the sequence share a key. */
  ghost predicate DistinctKeys<T(!new)>(key: T -> int, s: seq<T>) {
    forall i, j :: 0 <= i < j < |s| ==> key(s[i]) != key(s[j])
  }

  // ---------------------------------------------------------------- least elements

  lemma {:induction false} HasLeastBy<T(!new)>(key: T -> int, S: set<T>)
    requires S != {}
    ensures exists m :: m in S && forall x :: x in S ==> key(m) <= key(x)
    decreases |S|
  {
    var x :| x in S;
    if S == {x} {
      assert forall y :: y in S ==> key(x) <= key(y);
    } else {
      var rest := S - {x};
      HasLeastBy(key, rest);
      var m :| m in rest && forall y :: y in rest ==> key(m) <= key(y);
      var least := if key(x) <= key(m) then x else m;
      assert forall z :: z in S ==> z == x || z in rest;
      assert least in S && forall z :: z in S ==> key(least) <= key(z);
    }
  }

  lemma AnyMember<T>(S: set<T>) returns (x: T)
    requires S != {}
    ensures x in S
  {
    x :| x in S;
  }

  lemma HasLeast(S: set<int>)
    requires S != {}
    ensures exists m :: m in S && forall x :: x in S ==> m <= x
  {
    var id := (x: int) => x;
    HasLeastBy(id, S);
    var m :| m in S && forall x :: x in S ==> id(m) <= id(x);
  }

  /** An element of a non-empty set whose key is least. */
  ghost function LeastBy<T(!new)>(key: T -> int, S: set<T>): (m: T)
    requires S != {}
    ensures m in S && forall x :: x in S ==> key(m) <= key(x)
  {
    HasLeastBy(key, S);
    var m :| m in S && forall x :: x in S ==> key(m) <= key(x);
    m
  }

  /** The one sequence that lists a set in increasing key order. */
  ghost function Listing<T(!new)>(key: T -> int, S: set<T>): seq<T> {
    if Injective(key, S) then
      ListingExists(key, S);
      var s :| Ascending(key, s) && Elements(s) == S;
      s
    else []
  }

  lemma ListingLists<T(!new)>(key: T -> int, S: set<T>)
    requires Injective(key, S)
    ensures Ascending(key, Listing(key, S))
    ensures Elements(Listing(key, S)) == S
  {
  }

  lemma {:induction false} ListingExists<T(!new)>(key: T -> int, S: set<T>)
    requires Injective(key, S)
    ensures exists s :: Ascending(key, s) && Elements(s) == S
    decreases |S|
  {
    if S == {} {
      var s: seq<T> := [];
      assert Ascending(key, s) && Elements(s) == S;
    } else {
      var m := LeastBy(key, S);
      ListingExists(key, S - {m});
      var rest :| Ascending(key, rest) && Elements(rest) == S - {m};
      ConsLists(key, m, rest, S);
    }
  }

  lemma ConsLists<T(!new)>(key: T -> int, m: T, rest: seq<T>, S: set<T>)
    requires Injective(key, S)
    requires m in S && forall x :: x in S ==> key(m) <= key(x)
    requires Ascending(key, rest) && Elements(rest) == S - {m}
    ensures Ascending(key, [m] + rest)
    ensures Elements([m] + rest) == S
  {
    var s := [m] + rest;
    forall j | 1 <= j < |s|
      ensures s[j] in S - {m}
    {
      assert s[j] == rest[j - 1];
      assert s[j] in Elements(rest);
    }
    forall x | x in S
      ensures x in s
    {
      if x != m {
        assert x in Elements(rest);
        assert x in s[1..];
      }
    }
    forall i, j | 0 <= i < j < |s|
      ensures key(s[i]) < key(s[j])
    {
      assert s[j] == rest[j - 1];
      assert i > 0 ==> s[i] == rest[i - 1];
    }
  }

  lemma {:induction false} AscendingSize<T(!new)>(key: T -> int, s: seq<T>)
    requires Ascending(key, s)
    ensures |Elements(s)| == |s|
    decreases |s|
  {
    if s != [] {
      TailElements(key, s);
      AscendingSize(key, s[1..]);
      assert s[0] in Elements(s);
    }
  }

  /** A strictly increasing sequence is determined by its elements. */
  lemma {:induction false} AscendingUnique<T(!new)>(key: T -> int, a: seq<T>, b: seq<T>)
    requires Ascending(key, a) && Ascending(key, b)
    requires Elements(a) == Elements(b)
    ensures a == b
    decreases |a|
  {
    AscendingSize(key, a);
    AscendingSize(key, b);
    if a != [] {
      assert a[0] in Elements(b);
      var i :| 0 <= i < |b| && b[i] == a[0];
      assert b[0] in Elements(a);
      var j :| 0 <= j < |a| && a[j] == b[0];
      assert i == 0 && j == 0;
      TailElements(key, a);
      TailElements(key, b);
      AscendingUnique(key, a[1..], b[1..]);
      assert a == [a[0]] + a[1..] && b == [b[0]] + b[1..];
    }
  }

  /** Any strictly increasing sequence of the elements of a set is its listing. */
  lemma AscendingIsListing<T(!new)>(key: T -> int, s: seq<T>, S: set<T>)
    requires Ascending(key, s) && Elements(s) == S
    ensures Injective(key, S)
    ensures s == Listing(key, S)
  {
    forall x, y | x in S && y in S && key(x) == key(y)
      ensures x == y
    {
      var i :| 0 <= i < |s| && s[i] == x;
      var j :| 0 <= j < |s| && s[j] == y;
    }
    ListingLists(key, S);
    AscendingUnique(key, s, Listing(key, S));
  }

  lemma TailElements<T(!new)>(key: T -> int, a: seq<T>)
    requires a != [] && Ascending(key, a)
    ensures Elements(a[1..]) == Elements(a) - {a[0]}
  {
    forall x | x in Elements(a) - {a[0]}
      ensures x in Elements(a[1..])
    {
      var i :| 0 <= i < |a| && a[i] == x;
      assert a[1..][i - 1] == x;
    }
  }

  // ---------------------------------------------------------------- sorting by key

  function InsertBy<T>(key: T -> int, x: T, s: seq<T>): (r: seq<T>)
    ensures multiset(r) == multiset(s) + multiset{x}
  {
    if s == [] || key(x) <= key(s[0]) then
      assert [x] + s == [x] + s[..];
      [x] + s
    else
      assert s == [s[0]] + s[1..];
      [s[0]] + InsertBy(key, x, s[1..])
  }

  /** The library sort of a list by an integer key. */
  function SortBy<T>(key: T -> int, s: seq<T>): (r: seq<T>)
    ensures multiset(r) == multiset(s)
  {
    if s == [] then [] else
      assert s == [s[0]] + s[1..];
      InsertBy(key, s[0], SortBy(key, s[1..]))
  }

  ghost predicate Nondecreasing<T(!new)>(key: T -> int, s: seq<T>) {
    forall i, j :: 0 <= i < j < |s| ==> key(s[i]) <= key(s[j])
  }

  lemma {:induction false} InsertKeepsOrder<T(!new)>(key: T -> int, x: T, s: seq<T>)
    requires Nondecreasing(key, s)
    ensures Nondecreasing(key, InsertBy(key, x, s))
    decreases |s|
  {
    if s == [] || key(x) <= key(s[0]) {
    } else {
      InsertKeepsOrder(key, x, s[1..]);
      var r := InsertBy(key, x, s[1..]);
      forall y | y in r
        ensures key(s[0]) <= key(y)
      {
        assert y in multiset(r);
        if y != x {
          assert y in multiset(s[1..]);
        }
      }
    }
  }

  lemma {:induction false} SortByOrders<T(!new)>(key: T -> int, s: seq<T>)
    ensures Nondecreasing(key, SortBy(key, s))
    decreases |s|
  {
    if s != [] {
      SortByOrders(key, s[1..]);
      InsertKeepsOrder(key, s[0], SortBy(key, s[1..]));
    }
  }

  /** Sorting a list without repeated keys lists its elements in increasing key order. */
  lemma SortByLists<T(!new)>(key: T -> int, s: seq<T>)
    requires DistinctKeys(key, s)
    ensures SortBy(key, s) == Listing(key, Elements(s))
  {
    var r := SortBy(key, s);
    SortByOrders(key, s);
    SameElements(r, s);
    forall i, j | 0 <= i < j < |r|
      ensures key(r[i]) < key(r[j])
    {
      if key(r[i]) == key(r[j]) {
        SharedKeyRepeats(key, s, r, i, j);
      }
    }
    AscendingIsListing(key, r, Elements(s));
  }

  lemma SameElements<T>(a: seq<T>, b: seq<T>)
    requires multiset(a) == multiset(b)
    ensures Elements(a) == Elements(b)
  {
    forall x
      ensures x in Elements(a) <==> x in Elements(b)
    {
      assert x in a <==> x in multiset(a);
      assert x in b <==> x in multiset(b);
    }
  }

  lemma SharedKeyRepeats<T(!new)>(key: T -> int, s: seq<T>, r: seq<T>, i: nat, j: nat)
    requires DistinctKeys(key, s) && multiset(r) == multiset(s)
    requires i < j < |r|
    ensures key(r[i]) != key(r[j])
  {
    assert r[i] in multiset(r) && r[j] in multiset(r);
    assert r == r[..j] + [r[j]] + r[j + 1..];
    assert r[i] == r[..j][i];
    DistinctOnce(key, s, r[i]);
  }

  lemma {:induction false} DistinctOnce<T(!new)>(key: T -> int, s: seq<T>, x: T)
    requires DistinctKeys(key, s)
    ensures multiset(s)[x] <= 1
    decreases |s|
  {
    if s != [] {
      assert s == [s[0]] + s[1..];
      DistinctOnce(key, s[1..], x);
      if x == s[0] {
        assert x !in s[1..];
      }
    }
  }

  lemma DistinctKeysInject<T(!new)>(key: T -> int, s: seq<T>)
    requires DistinctKeys(key, s)
    ensures Injective(key, Elements(s))
  {
    forall x, y | x in Elements(s) && y in Elements(s) && key(x) == key(y)
      ensures x == y
    {
      var i :| 0 <= i < |s| && s[i] == x;
      var j :| 0 <= j < |s| && s[j] == y;
    }
  }

  lemma {:induction false} DistinctKeysSize<T(!new)>(key: T -> int, s: seq<T>)
    requires DistinctKeys(key, s)
    ensures |Elements(s)| == |s|
    decreases |s|
  {
    if s != [] {
      DistinctKeysSize(key, s[1..]);
      assert s == [s[0]] + s[1..];
      assert s[0] !in s[1..];
      assert Elements(s) == {s[0]} + Elements(s[1..]);
    }
  }

  lemma {:induction false} ElementsBound<T>(s: seq<T>)
    ensures |Elements(s)| <= |s|
    decreases |s|
  {
    if s != [] {
      ElementsBound(s[1..]);
      assert s == [s[0]] + s[1..];
      assert Elements(s) == {s[0]} + Elements(s[1..]);
    }
  }

  /** No identifier occurs twice. */
  predicate Unique(ids: seq<int>) {
    forall i, j :: 0 <= i < j < |ids| ==> ids[i] != ids[j]
  }

  /** Counting distinct identifiers finds exactly the repeats. */
  lemma {:induction false} UniqueCount(ids: seq<int>)
    ensures |Elements(ids)| == |ids| <==> Unique(ids)
    decreases |ids|
  {
    if ids != [] {
      UniqueCount(ids[1..]);
      ElementsBound(ids[1..]);
      assert ids == [ids[0]] + ids[1..];
      assert Elements(ids) == {ids[0]} + Elements(ids[1..]);
      assert Unique(ids) <==> ids[0] !in ids[1..] && Unique(ids[1..]);
    }
  }

  /** A sequence as long as it has elements lists each of them once. */
  lemma {:induction false} SizedMultiset<T>(s: seq<T>)
    requires |Elements(s)| == |s|
    ensures multiset(s) == multiset(Elements(s))
    decreases |s|
  {
    if s != [] {
      ElementsBound(s[1..]);
      assert s == [s[0]] + s[1..];
      assert Elements(s) == {s[0]} + Elements(s[1..]);
      SizedMultiset(s[1..]);
    }
  }

  // ---------------------------------------------------------------- grouping into buckets

  /** The items with one key, in their original order. */
  function Bucket<T>(tag: T -> int, k: int, items: seq<T>): seq<T> {
    if items == [] then [] else
      var last := items[|items| - 1];
      var rest := Bucket(tag, k, items[..|items| - 1]);
      if tag(last) == k then rest + [last] else rest
  }

  /** A dictionary of lists that holds every item under its key. */
  ghost predicate Bucketed<T(!new)>(m: map<int, seq<T>>, tag: T -> int, items: seq<T>) {
    && (forall x :: x in items ==> tag(x) in m)
    && (forall k :: k in m ==> m[k] == Bucket(tag, k, items) && m[k] != [])
  }

  function AddToBucket<T>(m: map<int, seq<T>>, k: int, x: T): map<int, seq<T>> {
    m[k := (if k in m then m[k] else []) + [x]]
  }

  lemma NonEmptyHasElement<T>(s: seq<T>)
    ensures s != [] ==> exists x :: x in s
  {
    if s != [] {
      assert s[0] in s;
    }
  }

  lemma AddKeepsBuckets<T(!new)>(m: map<int, seq<T>>, tag: T -> int, items: seq<T>, x: T)
    requires Bucketed(m, tag, items)
    ensures Bucketed(AddToBucket(m, tag(x), x), tag, items + [x])
  {
    var grown := items + [x];
    assert grown[..|grown| - 1] == items;
    var grownMap := AddToBucket(m, tag(x), x);
    forall k | k in grownMap
      ensures grownMap[k] == Bucket(tag, k, grown)
    {
      if k == tag(x) && k !in m {
        BucketElements(tag, k, items);
        NonEmptyHasElement(Bucket(tag, k, items));
      }
    }
  }

  lemma {:induction false} BucketElements<T(!new)>(tag: T -> int, k: int, items: seq<T>)
    ensures forall x :: x in Bucket(tag, k, items) <==> x in items && tag(x) == k
    decreases |items|
  {
    if items != [] {
      BucketElements(tag, k, items[..|items| - 1]);
      assert items == items[..|items| - 1] + [items[|items| - 1]];
    }
  }

  lemma {:induction false} BucketDistinct<T(!new)>(key: T -> int, tag: T -> int, k: int, items: seq<T>)
    requires DistinctKeys(key, items)
    ensures DistinctKeys(key, Bucket(tag, k, items))
    decreases |items|
  {
    if items != [] {
      var init := items[..|items| - 1];
      BucketDistinct(key, tag, k, init);
      BucketElements(tag, k, init);
      forall x | x in Bucket(tag, k, init)
        ensures key(x) != key(items[|items| - 1])
      {
        var i :| 0 <= i < |init| && init[i] == x;
        assert items[i] == x;
      }
    }
  }

  lemma TakeStep<T>(s: seq<T>, i: nat)
    requires i < |s|
    ensures s[..i + 1] == s[..i] + [s[i]]
  {
  }

  /** Disjoint parts: sizes add up. */
  lemma PartSizes<T>(part: set<T>, rest: set<T>, S: set<T>)
    requires part <= S && rest == S - part
    ensures |S| == |part| + |rest| && S == part + rest
  {
    assert S == part + rest;
  }

  lemma ElementsConcat<T>(a: seq<T>, b: seq<T>)
    ensures Elements(a + b) == Elements(a) + Elements(b)
  {
  }

  lemma ConcatAssociates<T>(a: seq<T>, b: seq<T>, c: seq<T>)
    ensures (a + b) + c == a + (b + c)
  {
  }

  // ---------------------------------------------------------------- sums over a sequence

  function Sum<T>(f: T -> real, s: seq<T>): real {
    if s == [] then 0.0 else f(s[0]) + Sum(f, s[1..])
  }

  lemma {:induction false} SumConcat<T>(f: T -> real, a: seq<T>, b: seq<T>)
    ensures Sum(f, a + b) == Sum(f, a) + Sum(f, b)
    decreases |a|
  {
    if a == [] {
      assert a + b == b;
    } else {
      assert (a + b)[1..] == a[1..] + b;
      SumConcat(f, a[1..], b);
    }
  }

  lemma SumAppend<T>(f: T -> real, a: seq<T>, x: T)
    ensures Sum(f, a + [x]) == Sum(f, a) + f(x)
  {
    SumConcat(f, a, [x]);
  }

  lemma {:induction false} SumPlus<T>(f: T -> real, g: T -> real, h: T -> real, s: seq<T>)
    requires forall x :: x in s ==> h(x) == f(x) + g(x)
    ensures Sum(h, s) == Sum(f, s) + Sum(g, s)
    decreases |s|
  {
    if s != [] {
      SumPlus(f, g, h, s[1..]);
    }
  }

  lemma WithoutElement<T>(s: seq<T>, i: nat)
    requires i < |s|
    ensures multiset(s[..i] + s[i + 1..]) == multiset(s) - multiset{s[i]}
  {
    assert s == s[..i] + ([s[i]] + s[i + 1..]);
  }

  /** Two listings of one multiset, less the first element of one. */
  lemma WithoutFirst<T>(a: seq<T>, b: seq<T>) returns (i: nat)
    requires multiset(a) == multiset(b) && a != []
    ensures i < |b| && b[i] == a[0] && multiset(a[1..]) == multiset(b[..i] + b[i + 1..])
  {
    assert a[0] in multiset(b);
    i :| 0 <= i < |b| && b[i] == a[0];
    WithoutElement(a, 0);
    assert a[..0] + a[1..] == a[1..];
    WithoutElement(b, i);
  }

  lemma NoneOfNone<T>(a: seq<T>, b: seq<T>)
    requires multiset(a) == multiset(b)
    ensures a == [] <==> b == []
  {
    assert |multiset(a)| == |a| && |multiset(b)| == |b|;
  }

  /** A sum does not depend on the order of its terms. */
  lemma {:induction false} SumPermutation<T>(f: T -> real, a: seq<T>, b: seq<T>)
    requires multiset(a) == multiset(b)
    ensures Sum(f, a) == Sum(f, b)
    decreases |a|
  {
    NoneOfNone(a, b);
    if a != [] {
      var i := WithoutFirst(a, b);
      SumPermutation(f, a[1..], b[..i] + b[i + 1..]);
      SumMoveFirst(f, b, i);
    }
  }

  lemma SumCons<T>(f: T -> real, x: T, s: seq<T>)
    ensures Sum(f, [x] + s) == f(x) + Sum(f, s)
  {
    assert ([x] + s)[1..] == s;
  }

  lemma SumMoveFirst<T>(f: T -> real, s: seq<T>, i: nat)
    requires i < |s|
    ensures Sum(f, s) == f(s[i]) + Sum(f, s[..i] + s[i + 1..])
  {
    SplitAround(s, i);
    SumAround(f, s[..i], s[i], s[i + 1..]);
  }

  lemma SplitAround<T>(s: seq<T>, i: nat)
    requires i < |s|
    ensures s == s[..i] + ([s[i]] + s[i + 1..])
  {
  }

  lemma SumAround<T>(f: T -> real, early: seq<T>, x: T, late: seq<T>)
    ensures Sum(f, early + ([x] + late)) == f(x) + Sum(f, early + late)
  {
    SumConcat(f, early, [x] + late);
    SumConcat(f, early, late);
    SumCons(f, x, late);
  }

  lemma {:induction false} SumZero<T>(f: T -> real, s: seq<T>)
    requires forall x :: x in s ==> f(x) == 0.0
    ensures Sum(f, s) == 0.0
    decreases |s|
  {
    if s != [] {
      SumZero(f, s[1..]);
    }
  }

  /** The only non-zero term of a sum over distinct elements is the sum. */
  lemma {:induction false} SumSingle<T>(f: T -> real, s: seq<T>, x: T)
    requires forall i, j :: 0 <= i < j < |s| ==> s[i] != s[j]
    requires x in s
    requires forall y :: y in s && y != x ==> f(y) == 0.0
    ensures Sum(f, s) == f(x)
    decreases |s|
  {
    if s[0] == x {
      SumZero(f, s[1..]);
    } else {
      SumSingle(f, s[1..], x);
    }
  }

  /** How many elements of a sequence pass a test. */
  function Count<T>(test: T -> bool, s: seq<T>): nat {
    if s == [] then 0 else (if test(s[0]) then 1 else 0) + Count(test, s[1..])
  }

  /** An integer total over a sequence. */
  function SumInt<T>(f: T -> int, s: seq<T>): int {
    if s == [] then 0 else f(s[0]) + SumInt(f, s[1..])
  }

  lemma {:induction false} CountIsBelow<T>(p: T -> bool, q: T -> bool, s: seq<T>)
    requires forall x :: x in s && p(x) ==> q(x)
    ensures Count(p, s) <= Count(q, s) <= |s|
    decreases |s|
  {
    if s != [] {
      CountIsBelow(p, q, s[1..]);
    }
  }

  // ---------------------------------------------------------------- passes that stop

  /** A pass that has settled at a prefix and then stays as it is gives the same for the whole. */
  lemma {:induction false} StaysSettled<T, R>(result: seq<T> -> R, settled: R -> bool, s: seq<T>, n: nat)
    requires n <= |s| && settled(result(s[..n]))
    requires forall m :: n <= m < |s| && settled(result(s[..m])) ==> result(s[..m + 1]) == result(s[..m])
    ensures result(s) == result(s[..n])
    decreases |s| - n
  {
    if n < |s| {
      StaysSettled(result, settled, s, n + 1);
    } else {
      assert s[..n] == s;
    }
  }
}

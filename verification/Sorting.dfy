/** Stable sorting by a comparison that says when the left element may stand before the right one.

    An order that is total and transitive sorts; distinct elements come out once, each behind
    exactly those ahead of it. Below are sorting into buckets and the byte order of strings. */
module Sorting {

  ghost predicate IsOrder<T(!new)>(le: (T, T) -> bool) {
    && (forall x, y :: le(x, y) || le(y, x))
    && (forall x, y, z :: le(x, y) && le(y, z) ==> le(x, z))
  }

  ghost predicate Sorted<T>(le: (T, T) -> bool, s: seq<T>) {
    forall i, j :: 0 <= i < j < |s| ==> le(s[i], s[j])
  }

  /** After every element that may stand before x. */
  function Insert<T>(le: (T, T) -> bool, s: seq<T>, x: T): (r: seq<T>)
    ensures |r| == |s| + 1
  {
    if s == [] || le(s[|s| - 1], x) then s + [x]
    else Insert(le, s[..|s| - 1], x) + [s[|s| - 1]]
  }

  function Sort<T>(le: (T, T) -> bool, s: seq<T>): (r: seq<T>)
    ensures |r| == |s|
  {
    if s == [] then [] else Insert(le, Sort(le, s[..|s| - 1]), s[|s| - 1])
  }

  lemma {:induction false} InsertKeepsElements<T>(le: (T, T) -> bool, s: seq<T>, x: T)
    ensures multiset(Insert(le, s, x)) == multiset(s) + multiset{x}
  {
    if s != [] && !le(s[|s| - 1], x) {
      InsertKeepsElements(le, s[..|s| - 1], x);
      assert s == s[..|s| - 1] + [s[|s| - 1]];
    }
  }

  lemma {:induction false} InsertSorts<T(!new)>(le: (T, T) -> bool, s: seq<T>, x: T)
    requires IsOrder(le) && Sorted(le, s)
    ensures Sorted(le, Insert(le, s, x))
  {
    if s != [] && !le(s[|s| - 1], x) {
      var n := |s| - 1;
      InsertSorts(le, s[..n], x);
      InsertKeepsElements(le, s[..n], x);
      var r := Insert(le, s[..n], x);
      forall i | 0 <= i < |r| ensures le(r[i], s[n]) {
        assert r[i] in multiset(r);
      }
    } else {
      forall i | 0 <= i < |s| ensures le(s[i], x) {
      }
    }
  }

  lemma {:induction false} SortSorts<T(!new)>(le: (T, T) -> bool, s: seq<T>)
    requires IsOrder(le)
    ensures Sorted(le, Sort(le, s))
  {
    if s != [] {
      SortSorts(le, s[..|s| - 1]);
      InsertSorts(le, Sort(le, s[..|s| - 1]), s[|s| - 1]);
    }
  }

  lemma {:induction false} SortKeepsElements<T>(le: (T, T) -> bool, s: seq<T>)
    ensures multiset(Sort(le, s)) == multiset(s)
  {
    if s != [] {
      SortKeepsElements(le, s[..|s| - 1]);
      InsertKeepsElements(le, Sort(le, s[..|s| - 1]), s[|s| - 1]);
      assert s == s[..|s| - 1] + [s[|s| - 1]];
    }
  }

  lemma SortMembers<T>(le: (T, T) -> bool, s: seq<T>, x: T)
    ensures x in Sort(le, s) <==> x in s
  {
    SortKeepsElements(le, s);
    assert x in Sort(le, s) <==> x in multiset(Sort(le, s));
    assert x in s <==> x in multiset(s);
  }

  /** A sorted sequence is left alone, which is what makes the sort stable and idempotent. */
  lemma {:induction false} SortedIsKept<T>(le: (T, T) -> bool, s: seq<T>)
    requires Sorted(le, s)
    ensures Sort(le, s) == s
  {
    if s != [] {
      SortedIsKept(le, s[..|s| - 1]);
    }
  }

  predicate Distinct<T(==)>(s: seq<T>) {
    forall i, j :: 0 <= i < j < |s| ==> s[i] != s[j]
  }

  lemma {:induction false} DistinctCounts<T>(s: seq<T>, x: T)
    requires Distinct(s)
    ensures multiset(s)[x] <= 1
  {
    if s != [] {
      var n := |s| - 1;
      DistinctCounts(s[..n], x);
      assert s == s[..n] + [s[n]];
      assert s[n] !in s[..n];
    }
  }

  lemma RepeatCounts<T>(s: seq<T>, i: nat, j: nat)
    requires i < j < |s| && s[i] == s[j]
    ensures multiset(s)[s[i]] > 1
  {
    assert s == s[..j] + s[j..];
    assert s[i] == s[..j][i] && s[j] == s[j..][0];
    assert s[i] in multiset(s[..j]) && s[i] in multiset(s[j..]);
  }

  lemma SortKeepsDistinct<T>(le: (T, T) -> bool, s: seq<T>)
    requires Distinct(s)
    ensures Distinct(Sort(le, s))
  {
    var r := Sort(le, s);
    forall i, j | 0 <= i < j < |r| ensures r[i] != r[j] {
      if r[i] == r[j] {
        RepeatCounts(r, i, j);
        SortKeepsElements(le, s);
        DistinctCounts(s, r[i]);
      }
    }
  }

  predicate DistinctBy<T, K(==)>(key: T -> K, s: seq<T>) {
    forall i, j :: 0 <= i < j < |s| ==> key(s[i]) != key(s[j])
  }

  /** Sorting keeps the keys distinct. */
  lemma SortKeepsKeys<T, K>(le: (T, T) -> bool, key: T -> K, s: seq<T>)
    requires DistinctBy(key, s)
    ensures DistinctBy(key, Sort(le, s))
  {
    var r := Sort(le, s);
    SortKeepsDistinct(le, s);
    forall i, j | 0 <= i < j < |r| ensures key(r[i]) != key(r[j]) {
      SortMembers(le, s, r[i]);
      SortMembers(le, s, r[j]);
      assert r[i] != r[j];
    }
  }

  lemma {:induction false} DistinctSize<T>(s: seq<T>)
    requires Distinct(s)
    ensures |set x | x in s| == |s|
  {
    if s != [] {
      var n := |s| - 1;
      DistinctSize(s[..n]);
      assert (set x | x in s) == (set x | x in s[..n]) + {s[n]};
    }
  }

  lemma {:induction false} SubsetSize<T>(a: set<T>, b: set<T>)
    requires a <= b
    ensures |a| <= |b|
  {
    if a != {} {
      var x :| x in a;
      SubsetSize(a - {x}, b - {x});
    }
  }

  /** The elements of s that stand before x. */
  ghost function Ahead<T(!new)>(le: (T, T) -> bool, s: seq<T>, x: T): set<T> {
    set y | y in s && y != x && le(y, x)
  }

  ghost predicate Strict<T(!new)>(le: (T, T) -> bool, s: seq<T>) {
    forall x, y :: x in s && y in s && le(x, y) && le(y, x) ==> x == y
  }

  lemma AheadInSort<T(!new)>(le: (T, T) -> bool, s: seq<T>, r: seq<T>, k: nat, y: T)
    requires Sorted(le, r) && Distinct(r) && Strict(le, s) && k < |r|
    requires r[k] in s && (y in r <==> y in s)
    ensures y in Ahead(le, s, r[k]) <==> y in r[..k]
  {
    if y in s {
      var i :| 0 <= i < |r| && r[i] == y;
      if i < k {
        assert y == r[..k][i];
      }
    }
  }

  /** Without ties the place of an element is the number of elements ahead of it. */
  lemma PlaceInSort<T(!new)>(le: (T, T) -> bool, s: seq<T>, k: nat)
    requires IsOrder(le) && Distinct(s) && Strict(le, s) && k < |s|
    ensures |Ahead(le, s, Sort(le, s)[k])| == k
  {
    var r := Sort(le, s);
    SortSorts(le, s);
    SortKeepsDistinct(le, s);
    SortMembers(le, s, r[k]);
    forall y ensures y in Ahead(le, s, r[k]) <==> y in (set x | x in r[..k]) {
      SortMembers(le, s, y);
      AheadInSort(le, s, r, k, y);
    }
    assert Ahead(le, s, r[k]) == set x | x in r[..k];
    DistinctSize(r[..k]);
  }

  /** Keeping the first n of the sorted elements keeps exactly those with fewer than n ahead. */
  lemma KeptIffFewAhead<T(!new)>(le: (T, T) -> bool, s: seq<T>, n: nat, x: T)
    requires IsOrder(le) && Distinct(s) && Strict(le, s) && n <= |s|
    ensures x in Sort(le, s)[..n] <==> x in s && |Ahead(le, s, x)| < n
  {
    var r := Sort(le, s);
    SortMembers(le, s, x);
    if x in s {
      var k :| 0 <= k < |r| && r[k] == x;
      PlaceInSort(le, s, k);
      SortKeepsDistinct(le, s);
      if k < n {
        assert r[..n][k] == x;
      }
    }
  }

  // ---- stable grouping by rank ----

  /** The elements of a rank, in order. */
  function Bucket<T>(rank: T -> nat, s: seq<T>, r: nat): seq<T> {
    if s == [] then []
    else
      var n := |s| - 1;
      Bucket(rank, s[..n], r) + (if rank(s[n]) == r then [s[n]] else [])
  }

  /** The elements of the first n ranks, rank by rank. */
  function Buckets<T>(rank: T -> nat, s: seq<T>, n: nat): seq<T> {
    if n == 0 then [] else Buckets(rank, s, n - 1) + Bucket(rank, s, n - 1)
  }

  lemma {:induction false} BucketAppend<T>(rank: T -> nat, a: seq<T>, b: seq<T>, r: nat)
    ensures Bucket(rank, a + b, r) == Bucket(rank, a, r) + Bucket(rank, b, r)
  {
    if b == [] {
      assert a + b == a;
      assert Bucket(rank, a, r) + [] == Bucket(rank, a, r);
    } else {
      var n := |b| - 1;
      assert (a + b)[..|a + b| - 1] == a + b[..n];
      BucketAppend(rank, a, b[..n], r);
    }
  }

  lemma BucketOne<T>(rank: T -> nat, x: T, r: nat)
    ensures Bucket(rank, [x], r) == if rank(x) == r then [x] else []
  {
    assert [x][..0] == [];
  }

  lemma {:induction false} BucketAgain<T>(rank: T -> nat, s: seq<T>, q: nat, r: nat)
    ensures Bucket(rank, Bucket(rank, s, q), r) == if q == r then Bucket(rank, s, q) else []
  {
    if s != [] {
      var n := |s| - 1;
      BucketAgain(rank, s[..n], q, r);
      if rank(s[n]) == q {
        BucketAppend(rank, Bucket(rank, s[..n], q), [s[n]], r);
        BucketOne(rank, s[n], r);
      } else {
        assert Bucket(rank, s[..n], q) + [] == Bucket(rank, s[..n], q);
      }
    }
  }

  lemma NothingAdded<T>(s: seq<T>)
    ensures s + [] == s && [] + s == s
  {
  }

  /** The bucket of the next rank, appended to those of the lower ranks. */
  lemma NextBucket<T>(rank: T -> nat, s: seq<T>, lower: seq<T>, all: seq<T>, q: nat, r: nat)
    requires Bucket(rank, lower, r) == if r < q then Bucket(rank, s, r) else []
    requires all == lower + Bucket(rank, s, q)
    ensures Bucket(rank, all, r) == if r <= q then Bucket(rank, s, r) else []
  {
    BucketAgain(rank, s, q, r);
    BucketAppend(rank, lower, Bucket(rank, s, q), r);
    NothingAdded(Bucket(rank, s, r));
  }

  lemma BucketsStep<T>(rank: T -> nat, s: seq<T>, n: nat, r: nat)
    requires Bucket(rank, Buckets(rank, s, n), r) == if r < n then Bucket(rank, s, r) else []
    ensures Bucket(rank, Buckets(rank, s, n + 1), r) == if r <= n then Bucket(rank, s, r) else []
  {
    NextBucket(rank, s, Buckets(rank, s, n), Buckets(rank, s, n + 1), n, r);
  }

  lemma {:induction false} BucketOfBuckets<T>(rank: T -> nat, s: seq<T>, n: nat, r: nat)
    ensures Bucket(rank, Buckets(rank, s, n), r) == if r < n then Bucket(rank, s, r) else []
  {
    if n > 0 {
      BucketOfBuckets(rank, s, n - 1, r);
      BucketsStep(rank, s, n - 1, r);
    }
  }

  lemma {:induction false} SameBuckets<T>(rank: T -> nat, a: seq<T>, b: seq<T>, n: nat)
    requires forall r :: 0 <= r < n ==> Bucket(rank, a, r) == Bucket(rank, b, r)
    ensures Buckets(rank, a, n) == Buckets(rank, b, n)
  {
    if n > 0 {
      SameBuckets(rank, a, b, n - 1);
    }
  }

  /** Grouping what is grouped already changes nothing. */
  lemma BucketsTwice<T>(rank: T -> nat, s: seq<T>, n: nat)
    ensures Buckets(rank, Buckets(rank, s, n), n) == Buckets(rank, s, n)
  {
    forall r | 0 <= r < n ensures Bucket(rank, Buckets(rank, s, n), r) == Bucket(rank, s, r) {
      BucketOfBuckets(rank, s, n, r);
    }
    SameBuckets(rank, Buckets(rank, s, n), s, n);
  }

  function Count<T(==)>(s: seq<T>, x: T): nat {
    if s == [] then 0 else Count(s[..|s| - 1], x) + (if s[|s| - 1] == x then 1 else 0)
  }

  lemma {:induction false} CountAppend<T>(a: seq<T>, b: seq<T>, x: T)
    ensures Count(a + b, x) == Count(a, x) + Count(b, x)
  {
    if b == [] {
      assert a + b == a;
    } else {
      assert (a + b)[..|a + b| - 1] == a + b[..|b| - 1];
      CountAppend(a, b[..|b| - 1], x);
    }
  }

  lemma {:induction false} BucketCounts<T>(rank: T -> nat, s: seq<T>, r: nat, x: T)
    ensures Count(Bucket(rank, s, r), x) == if rank(x) == r then Count(s, x) else 0
  {
    if s != [] {
      var n := |s| - 1;
      BucketCounts(rank, s[..n], r, x);
      if rank(s[n]) == r {
        CountAppend(Bucket(rank, s[..n], r), [s[n]], x);
        assert [s[n]][..0] == [];
      } else {
        assert Bucket(rank, s[..n], r) + [] == Bucket(rank, s[..n], r);
      }
    }
  }

  /** Grouping by ranks below n neither loses nor repeats an element. */
  lemma {:induction false} BucketsCount<T>(rank: T -> nat, s: seq<T>, n: nat, x: T)
    ensures Count(Buckets(rank, s, n), x) == if rank(x) < n then Count(s, x) else 0
  {
    if n > 0 {
      BucketsCount(rank, s, n - 1, x);
      BucketCounts(rank, s, n - 1, x);
      CountAppend(Buckets(rank, s, n - 1), Bucket(rank, s, n - 1), x);
    }
  }

  // ---- strings in byte order ----

  predicate Before(a: string, b: string) {
    if b == [] then false
    else if a == [] then true
    else a[0] < b[0] || (a[0] == b[0] && Before(a[1..], b[1..]))
  }

  lemma {:induction false} BeforeIsStrict(a: string, b: string)
    ensures a == b <==> !Before(a, b) && !Before(b, a)
    ensures !(Before(a, b) && Before(b, a))
  {
    if a != [] && b != [] {
      BeforeIsStrict(a[1..], b[1..]);
      assert a == [a[0]] + a[1..] && b == [b[0]] + b[1..];
    }
  }

  lemma {:induction false} BeforeIsTransitive(a: string, b: string, c: string)
    requires Before(a, b) && Before(b, c)
    ensures Before(a, c)
  {
    if a != [] {
      if a[0] == b[0] && b[0] == c[0] {
        BeforeIsTransitive(a[1..], b[1..], c[1..]);
      }
    }
  }
}

/**
 * The array operations the application applies to its collections:
 * `filter`, `findIndex`, a stable `sort` with a comparator, and the
 * mutable list (`Collection`) that the editing code updates in place.
 */
module Seqs {

  /** `a` is obtained from `b` by deleting elements, keeping the order of the rest. */
  predicate IsSubsequence<T(==)>(a: seq<T>, b: seq<T>)
    decreases |b|
  {
    if a == [] then true
    else if b == [] then false
    else if a[0] == b[0] then IsSubsequence(a[1..], b[1..])
    else IsSubsequence(a, b[1..])
  }

  /** `s.filter(p)`. */
  function Filter<T>(s: seq<T>, p: T -> bool): (r: seq<T>)
    ensures |r| <= |s|
    ensures forall x :: x in r ==> x in s && p(x)
    ensures forall i :: 0 <= i < |s| && p(s[i]) ==> s[i] in r
  {
    if s == [] then []
    else if p(s[0]) then [s[0]] + Filter(s[1..], p)
    else Filter(s[1..], p)
  }

  lemma {:induction false} FilterIsSubsequence<T>(s: seq<T>, p: T -> bool)
    ensures IsSubsequence(Filter(s, p), s)
  {
    if s != [] {
      FilterIsSubsequence(s[1..], p);
      if !p(s[0]) {
        var f := Filter(s[1..], p);
        if f != [] {
          SubsequenceOfTail(f, s);
        }
      }
    }
  }

  lemma {:induction false} SubsequenceOfTail<T>(a: seq<T>, b: seq<T>)
    requires b != [] && IsSubsequence(a, b[1..])
    ensures IsSubsequence(a, b)
    decreases |b|, 0
  {
    if a != [] && a[0] == b[0] {
      SubsequenceDropHead(a, b[1..]);
    }
  }

  lemma {:induction false} SubsequenceDropHead<T>(a: seq<T>, b: seq<T>)
    requires a != [] && IsSubsequence(a, b)
    ensures IsSubsequence(a[1..], b)
    decreases |b|, 1
  {
    if a[0] == b[0] {
      if a[1..] != [] {
        SubsequenceOfTail(a[1..], b);
      }
    } else {
      SubsequenceDropHead(a, b[1..]);
      if a[1..] != [] {
        SubsequenceOfTail(a[1..], b);
      }
    }
  }

  /** Filtering never grows the multiset of elements. */
  lemma {:induction false} FilterMultiset<T>(s: seq<T>, p: T -> bool)
    ensures multiset(Filter(s, p)) <= multiset(s)
  {
    if s != [] {
      FilterMultiset(s[1..], p);
      assert s == [s[0]] + s[1..];
    }
  }

  /** A filter keeps every copy of each element that passes and no copy of the others. */
  lemma {:induction false} FilterCounts<T>(s: seq<T>, p: T -> bool)
    ensures forall x :: multiset(Filter(s, p))[x] == if p(x) then multiset(s)[x] else 0
  {
    if s != [] {
      FilterCounts(s[1..], p);
      assert s == [s[0]] + s[1..];
    }
  }

  /** A filter that every element passes keeps the whole sequence. */
  lemma {:induction false} FilterAll<T>(s: seq<T>, p: T -> bool)
    requires forall x :: x in s ==> p(x)
    ensures Filter(s, p) == s
  {
    if s != [] {
      FilterAll(s[1..], p);
    }
  }

  /** A stricter predicate keeps a subsequence of what a looser one keeps. */
  lemma {:induction false} FilterNarrows<T>(s: seq<T>, p: T -> bool, q: T -> bool)
    requires forall x :: p(x) ==> q(x)
    ensures IsSubsequence(Filter(s, p), Filter(s, q))
  {
    if s != [] {
      FilterNarrows(s[1..], p, q);
      if !p(s[0]) && q(s[0]) && Filter(s[1..], p) != [] {
        SubsequenceOfTail(Filter(s[1..], p), Filter(s, q));
      }
    }
  }

  /** Filtering a sequence extended by one element filters that element on its own. */
  lemma {:induction false} FilterSnoc<T>(s: seq<T>, x: T, p: T -> bool)
    ensures Filter(s + [x], p) == Filter(s, p) + (if p(x) then [x] else [])
  {
    if s != [] {
      assert (s + [x])[1..] == s[1..] + [x];
      FilterSnoc(s[1..], x, p);
    }
  }

  /** One more element of `s` taken into a filtered prefix. */
  lemma FilterStep<T>(s: seq<T>, i: int, p: T -> bool)
    requires 0 <= i < |s|
    ensures Filter(s[..i + 1], p) == Filter(s[..i], p) + (if p(s[i]) then [s[i]] else [])
  {
    assert s[..i + 1] == s[..i] + [s[i]];
    FilterSnoc(s[..i], s[i], p);
  }

  /** The elements kept and the elements dropped by a filter together make up the input. */
  lemma {:induction false} FilterPartition<T>(s: seq<T>, p: T -> bool, q: T -> bool)
    requires forall x :: q(x) == !p(x)
    ensures multiset(Filter(s, p)) + multiset(Filter(s, q)) == multiset(s)
  {
    if s != [] {
      FilterPartition(s[1..], p, q);
      assert s == [s[0]] + s[1..];
    }
  }

  /** Filters by pairwise exclusive predicates select disjoint parts of the input. */
  lemma {:induction false} FilterExclusive3<T>(s: seq<T>, p: T -> bool, q: T -> bool, r: T -> bool)
    requires forall x :: !(p(x) && q(x)) && !(p(x) && r(x)) && !(q(x) && r(x))
    ensures multiset(Filter(s, p)) + multiset(Filter(s, q)) + multiset(Filter(s, r)) <= multiset(s)
  {
    if s != [] {
      FilterExclusive3(s[1..], p, q, r);
      assert s == [s[0]] + s[1..];
    }
  }

  /** `s.findIndex(p)`: the first index whose element satisfies `p`, or -1. */
  function FirstIndex<T>(s: seq<T>, p: T -> bool): (r: int)
    ensures -1 <= r < |s|
    ensures r >= 0 ==> p(s[r])
    ensures forall j :: 0 <= j < |s| && (r == -1 || j < r) ==> !p(s[j])
  {
    if s == [] then -1
    else if p(s[0]) then 0
    else
      var k := FirstIndex(s[1..], p);
      if k == -1 then -1 else k + 1
  }

  /** `findIndex` as the loop the runtime performs. */
  method FindIndex<T>(s: seq<T>, p: T -> bool) returns (r: int)
    ensures r == FirstIndex(s, p)
  {
    var i := 0;
    while i < |s|
      invariant 0 <= i <= |s|
      invariant forall j :: 0 <= j < i ==> !p(s[j])
      invariant FirstIndex(s, p) == -1 || FirstIndex(s, p) >= i
    {
      if p(s[i]) {
        return i;
      }
      i := i + 1;
    }
    return -1;
  }

  /** `cmp` orders `x` no later than `y`. */
  predicate Le<T>(cmp: (T, T) -> int, x: T, y: T) {
    cmp(x, y) <= 0
  }

  /** Each element of `s` is in comparator order with the next one. */
  predicate SortedBy<T>(cmp: (T, T) -> int, s: seq<T>) {
    forall i :: 0 <= i < |s| - 1 ==> Le(cmp, s[i], s[i + 1])
  }

  /** The sign of `cmp` flips when its arguments are swapped, on the elements of `xs`. */
  predicate Antisymmetric<T(!new)>(cmp: (T, T) -> int, xs: multiset<T>) {
    forall x, y :: x in xs && y in xs && cmp(x, y) > 0 ==> cmp(y, x) < 0
  }

  /** Inserts `x` before the first element of `s` that it does not follow. */
  function Insert<T>(x: T, s: seq<T>, cmp: (T, T) -> int): (r: seq<T>)
    ensures multiset(r) == multiset{x} + multiset(s)
    ensures |r| == |s| + 1
    ensures r[0] == x || (s != [] && r[0] == s[0])
  {
    if s == [] then [x]
    else if cmp(x, s[0]) <= 0 then [x] + s
    else
      assert s == [s[0]] + s[1..];
      [s[0]] + Insert(x, s[1..], cmp)
  }

  /**
   * `s.slice().sort(cmp)`: a stable sort of a copy. Each element is inserted,
   * from the last to the first, ahead of the elements it does not follow, so
   * elements that compare equal keep their original order.
   */
  function SortBy<T>(s: seq<T>, cmp: (T, T) -> int): (r: seq<T>)
    ensures multiset(r) == multiset(s)
    ensures |r| == |s|
  {
    if s == [] then []
    else
      assert s == [s[0]] + s[1..];
      Insert(s[0], SortBy(s[1..], cmp), cmp)
  }

  lemma {:induction false} InsertSorted<T(!new)>(x: T, s: seq<T>, cmp: (T, T) -> int, all: multiset<T>)
    requires Antisymmetric(cmp, all)
    requires x in all && multiset(s) <= all
    requires SortedBy(cmp, s)
    ensures SortedBy(cmp, Insert(x, s, cmp))
  {
    if s != [] && cmp(x, s[0]) > 0 {
      assert s[0] in multiset(s);
      var tail := s[1..];
      assert s == [s[0]] + tail;
      InsertSorted(x, tail, cmp, all);
      var ins := Insert(x, tail, cmp);
      if ins[0] == x {
        assert s[0] in all;
        assert cmp(s[0], x) < 0;
      } else {
        assert ins[0] == s[1];
        assert Le(cmp, s[0], s[1]);
      }
      var r := [s[0]] + ins;
      assert Insert(x, s, cmp) == r;
      forall i | 0 <= i < |r| - 1 ensures Le(cmp, r[i], r[i + 1]) {
        if i > 0 {
          assert r[i] == ins[i - 1] && r[i + 1] == ins[i];
        }
      }
    }
  }

  /** With a comparator whose sign is antisymmetric on the input, `SortBy` puts the input in order. */
  lemma {:induction false} SortBySorted<T(!new)>(s: seq<T>, cmp: (T, T) -> int)
    requires Antisymmetric(cmp, multiset(s))
    ensures SortedBy(cmp, SortBy(s, cmp))
  {
    SortBySortedIn(s, cmp, multiset(s));
  }

  lemma {:induction false} SortBySortedIn<T(!new)>(s: seq<T>, cmp: (T, T) -> int, all: multiset<T>)
    requires Antisymmetric(cmp, all) && multiset(s) <= all
    ensures SortedBy(cmp, SortBy(s, cmp))
  {
    if s != [] {
      assert s == [s[0]] + s[1..];
      SortBySortedIn(s[1..], cmp, all);
      InsertSorted(s[0], SortBy(s[1..], cmp), cmp, all);
    }
  }

  /** A comparator that finds every pair equal leaves the order as it is. */
  lemma {:induction false} SortByAllEqual<T>(s: seq<T>, cmp: (T, T) -> int)
    requires forall x, y :: cmp(x, y) == 0
    ensures SortBy(s, cmp) == s
  {
    if s != [] {
      SortByAllEqual(s[1..], cmp);
      assert s == [s[0]] + s[1..];
    }
  }

  /** Adjacent order gives order of every pair when "no later than" is transitive. */
  lemma {:induction false} SortedPairwise<T(!new)>(s: seq<T>, cmp: (T, T) -> int, i: int, j: int)
    requires SortedBy(cmp, s)
    requires forall x, y, z :: x in s && y in s && z in s && Le(cmp, x, y) && Le(cmp, y, z) ==> Le(cmp, x, z)
    requires 0 <= i < j < |s|
    ensures Le(cmp, s[i], s[j])
    decreases j - i
  {
    if j > i + 1 {
      SortedPairwise(s, cmp, i + 1, j);
      assert Le(cmp, s[i], s[i + 1]);
    }
  }

  /** A JavaScript array that the application edits in place. */
  class Collection<T> {
    var items: seq<T>

    constructor (init: seq<T>)
      ensures items == init
    {
      items := init;
    }
  }
}

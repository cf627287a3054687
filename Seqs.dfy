/** The array operations the store and the pages rely on
    (`filter`, `map`, `findIndex`), stated once over sequences. */
module Seqs {

  /** `Array.prototype.filter`: the elements of `s` that satisfy `p`, in order. */
  function Filter<T(==,!new)>(s: seq<T>, p: T -> bool): (r: seq<T>)
    ensures |r| <= |s|
    ensures forall x :: x in r <==> x in s && p(x)
    ensures forall x :: multiset(r)[x] == if p(x) then multiset(s)[x] else 0
  {
    if s == [] then []
    else
      assert s == [s[0]] + s[1..];
      if p(s[0]) then [s[0]] + Filter(s[1..], p) else Filter(s[1..], p)
  }

  /** `Array.prototype.map`. */
  function Map<T, U>(s: seq<T>, f: T -> U): (r: seq<U>)
    ensures |r| == |s|
    ensures forall i :: 0 <= i < |s| ==> r[i] == f(s[i])
  {
    if s == [] then [] else [f(s[0])] + Map(s[1..], f)
  }

  /** `Array.prototype.findIndex`: the first index whose element satisfies `p`, or -1. */
  function FindIndex<T>(s: seq<T>, p: T -> bool): (i: int)
    ensures -1 <= i < |s|
    ensures 0 <= i ==> p(s[i]) && forall j :: 0 <= j < i ==> !p(s[j])
    ensures i == -1 <==> forall j :: 0 <= j < |s| ==> !p(s[j])
  {
    if s == [] then -1
    else if p(s[0]) then 0
    else
      var k := FindIndex(s[1..], p);
      if k == -1 then -1 else k + 1
  }

  /** `a` can be obtained from `b` by deleting elements, so `a` keeps `b`'s order. */
  ghost predicate IsSubsequence<T>(a: seq<T>, b: seq<T>)
    decreases |b|
  {
    a == [] ||
    (b != [] &&
     if a[0] == b[0] then IsSubsequence(a[1..], b[1..]) else IsSubsequence(a, b[1..]))
  }

  /** Filtering only deletes elements: the result is an order-preserving subsequence. */
  lemma {:induction false} FilterIsSubsequence<T(!new)>(s: seq<T>, p: T -> bool)
    ensures IsSubsequence(Filter(s, p), s)
  {
    if s != [] {
      FilterIsSubsequence(s[1..], p);
      var r := Filter(s, p);
      if !p(s[0]) && r != [] {
        assert r[0] in r;
        assert r[0] != s[0];
      }
    }
  }

  /** When every element satisfies `p`, filtering returns the sequence unchanged. */
  lemma {:induction false} FilterKeepsAll<T(!new)>(s: seq<T>, p: T -> bool)
    requires forall i :: 0 <= i < |s| ==> p(s[i])
    ensures Filter(s, p) == s
  {
    if s != [] {
      FilterKeepsAll(s[1..], p);
    }
  }

  /** Filters by two complementary tests split the sequence: each element lands in exactly one. */
  lemma {:induction false} FilterPartition<T(!new)>(s: seq<T>, p: T -> bool, q: T -> bool)
    requires forall x :: q(x) == !p(x)
    ensures multiset(Filter(s, p)) + multiset(Filter(s, q)) == multiset(s)
  {
    if s != [] {
      FilterPartition(s[1..], p, q);
      assert s == [s[0]] + s[1..];
    }
  }

  /** Two filters commute. */
  lemma {:induction false} FilterCommutes<T(!new)>(s: seq<T>, p: T -> bool, q: T -> bool)
    ensures Filter(Filter(s, p), q) == Filter(Filter(s, q), p)
  {
    if s != [] {
      FilterCommutes(s[1..], p, q);
    }
  }

  /** Mapping an order-preserving subsequence gives an order-preserving subsequence of the image. */
  lemma {:induction false} MapKeepsSubsequence<T, U>(a: seq<T>, b: seq<T>, f: T -> U)
    requires IsSubsequence(a, b)
    ensures IsSubsequence(Map(a, f), Map(b, f))
    decreases |b|
  {
    if a != [] {
      var fa, fb := Map(a, f), Map(b, f);
      assert fa[1..] == Map(a[1..], f);
      assert fb[1..] == Map(b[1..], f);
      if a[0] == b[0] {
        MapKeepsSubsequence(a[1..], b[1..], f);
      } else {
        MapKeepsSubsequence(a, b[1..], f);
        SubsequenceOfTail(fa, fb);
      }
    }
  }

  /** Dropping the head of a subsequence leaves a subsequence. */
  lemma {:induction false} SubsequenceDropHead<T>(a: seq<T>, b: seq<T>)
    requires a != [] && IsSubsequence(a, b)
    ensures IsSubsequence(a[1..], b)
    decreases |b|, 1
  {
    if a[0] != b[0] {
      SubsequenceDropHead(a, b[1..]);
    }
    SubsequenceOfTail(a[1..], b);
  }

  /** A subsequence of the tail of `b` is a subsequence of `b`. */
  lemma {:induction false} SubsequenceOfTail<T>(a: seq<T>, b: seq<T>)
    requires b != [] && IsSubsequence(a, b[1..])
    ensures IsSubsequence(a, b)
    decreases |b|, 0
  {
    if a != [] && a[0] == b[0] {
      SubsequenceDropHead(a, b[1..]);
    }
  }
}

/** Sequence operations behind JavaScript's Array.prototype.filter and
    Array.prototype.map, the two list transformations the task tracker uses
    on both the server and the client, with the facts the rest of the model
    relies on. */
module Seqs {

  /** The elements of `s` that satisfy `p`, in their original order. */
  function Filter<T(==)>(s: seq<T>, p: T -> bool): (r: seq<T>)
    ensures |r| <= |s|
    ensures forall i :: 0 <= i < |r| ==> r[i] in s && p(r[i])
    ensures forall i :: 0 <= i < |s| && p(s[i]) ==> s[i] in r
  {
    if s == [] then []
    else
      (if p(s[0]) then [s[0]] else []) + Filter(s[1..], p)
  }

  /** Filtering keeps each passing element exactly as often as it occurs,
      and no failing one. */
  lemma {:induction false} FilterCount<T>(s: seq<T>, p: T -> bool, x: T)
    ensures multiset(Filter(s, p))[x] == (if p(x) then multiset(s)[x] else 0)
  {
    if s != [] {
      FilterCount(s[1..], p, x);
      assert s == [s[0]] + s[1..];
      assert Filter(s, p) == (if p(s[0]) then [s[0]] else []) + Filter(s[1..], p);
    }
  }

  /** `FilterCount` for every element of `s`. */
  lemma FilterCounts<T>(s: seq<T>, p: T -> bool)
    ensures forall i :: 0 <= i < |s| ==>
      multiset(Filter(s, p))[s[i]] == (if p(s[i]) then multiset(s)[s[i]] else 0)
  {
    forall i | 0 <= i < |s|
      ensures multiset(Filter(s, p))[s[i]] == (if p(s[i]) then multiset(s)[s[i]] else 0)
    {
      FilterCount(s, p, s[i]);
    }
  }

  /** `f` applied to every element of `s`, position by position. */
  function Map<T, U>(s: seq<T>, f: T -> U): (r: seq<U>)
    ensures |r| == |s|
    ensures forall i :: 0 <= i < |s| ==> r[i] == f(s[i])
  {
    if s == [] then [] else [f(s[0])] + Map(s[1..], f)
  }

  /** `a` can be obtained from `b` by deleting elements: `a` keeps the
      relative order its elements have in `b`. */
  predicate IsSubsequence<T(==)>(a: seq<T>, b: seq<T>)
    decreases |b|
  {
    a == [] || (b != [] && ((a[0] == b[0] && IsSubsequence(a[1..], b[1..])) || IsSubsequence(a, b[1..])))
  }

  /** Filtering keeps the survivors in their original relative order. */
  lemma {:induction false} FilterIsSubsequence<T>(s: seq<T>, p: T -> bool)
    ensures IsSubsequence(Filter(s, p), s)
  {
    if s != [] {
      FilterIsSubsequence(s[1..], p);
      var rest := Filter(s[1..], p);
      if p(s[0]) {
        assert Filter(s, p) == [s[0]] + rest;
        assert Filter(s, p)[1..] == rest;
      } else {
        assert Filter(s, p) == rest;
      }
    }
  }

  /** Filtering by a predicate and by its negation splits `s` in two:
      together the two results hold every element of `s` exactly once. */
  lemma FilterPartition<T>(s: seq<T>, p: T -> bool, q: T -> bool)
    requires forall x :: q(x) == !p(x)
    ensures |Filter(s, p)| + |Filter(s, q)| == |s|
    ensures multiset(Filter(s, p)) + multiset(Filter(s, q)) == multiset(s)
  {
    forall x
      ensures multiset(Filter(s, p))[x] + multiset(Filter(s, q))[x] == multiset(s)[x]
    {
      FilterCount(s, p, x);
      FilterCount(s, q, x);
    }
    assert multiset(Filter(s, p)) + multiset(Filter(s, q)) == multiset(s);
    assert |multiset(Filter(s, p))| + |multiset(Filter(s, q))| == |multiset(s)|;
  }

  /** Filtering leaves nothing exactly when no element passes. */
  lemma FilterNoneIff<T>(s: seq<T>, p: T -> bool)
    ensures |Filter(s, p)| == 0 <==> forall i :: 0 <= i < |s| ==> !p(s[i])
  {
    if |Filter(s, p)| != 0 {
      assert Filter(s, p)[0] in s;
    }
  }

  /** Filtering a concatenation filters each part. */
  lemma {:induction false} FilterAppend<T>(a: seq<T>, b: seq<T>, p: T -> bool)
    ensures Filter(a + b, p) == Filter(a, p) + Filter(b, p)
  {
    if a != [] {
      var x := a[0];
      assert (a + b)[0] == x && (a + b)[1..] == a[1..] + b;
      FilterAppend(a[1..], b, p);
      assert Filter(a + b, p) == (if p(x) then [x] else []) + Filter(a[1..] + b, p);
      assert Filter(a, p) == (if p(x) then [x] else []) + Filter(a[1..], p);
    } else {
      assert a + b == b;
    }
  }

  /** Two predicates that agree on the elements of `s` filter it alike. */
  lemma {:induction false} FilterCongruent<T>(s: seq<T>, p: T -> bool, q: T -> bool)
    requires forall x :: x in s ==> p(x) == q(x)
    ensures Filter(s, p) == Filter(s, q)
  {
    if s != [] {
      assert forall x :: x in s[1..] ==> x in s;
      FilterCongruent(s[1..], p, q);
    }
  }

  /** A filter that every element passes changes nothing. */
  lemma {:induction false} FilterKeepsAll<T>(s: seq<T>, p: T -> bool)
    requires forall x :: x in s ==> p(x)
    ensures Filter(s, p) == s
  {
    if s != [] {
      assert forall x :: x in s[1..] ==> x in s;
      FilterKeepsAll(s[1..], p);
      assert s == [s[0]] + s[1..];
    }
  }

  /** Two filters may be applied in either order. */
  lemma {:induction false} FilterCommutes<T>(s: seq<T>, p: T -> bool, q: T -> bool)
    ensures Filter(Filter(s, p), q) == Filter(Filter(s, q), p)
  {
    if s != [] {
      FilterCommutes(s[1..], p, q);
      var x := s[0];
      FilterAppend(if p(x) then [x] else [], Filter(s[1..], p), q);
      FilterAppend(if q(x) then [x] else [], Filter(s[1..], q), p);
    }
  }
}

/** Generic sequence helpers: filtering, summing, and the facts that make
    folds over a sequence independent of its order. */
module Seqs {

  /** The elements of `s` that satisfy `p`, in their original order
      (JavaScript's `Array.prototype.filter`). */
  function Filter<T>(s: seq<T>, p: T -> bool): (r: seq<T>)
    ensures |r| <= |s|
    ensures forall i :: 0 <= i < |r| ==> p(r[i])
    ensures multiset(r) <= multiset(s)
  {
    if |s| == 0 then []
    else
      var rest := Filter(s[1..], p);
      assert s == [s[0]] + s[1..];
      if p(s[0]) then [s[0]] + rest else rest
  }

  /** `a` is `b` with some elements left out and the others in their order. */
  predicate IsSubseq<T(==)>(a: seq<T>, b: seq<T>)
    decreases |b|
  {
    || |a| == 0
    || (&& |b| > 0
        && ((a[0] == b[0] && IsSubseq(a[1..], b[1..])) || IsSubseq(a, b[1..])))
  }

  /** Filtering keeps the order of what it keeps. */
  lemma {:induction false} FilterSubseq<T>(s: seq<T>, p: T -> bool)
    ensures IsSubseq(Filter(s, p), s)
    decreases |s|
  {
    if |s| > 0 {
      FilterSubseq(s[1..], p);
    }
  }

  lemma {:induction false} FilterAppend<T>(a: seq<T>, b: seq<T>, p: T -> bool)
    ensures Filter(a + b, p) == Filter(a, p) + Filter(b, p)
    decreases |a|
  {
    if |a| == 0 {
      assert a + b == b;
    } else {
      assert (a + b)[1..] == a[1..] + b;
      FilterAppend(a[1..], b, p);
    }
  }

  /** Filtering keeps every copy of an element satisfying `p` and no copy of any other. */
  lemma {:induction false} FilterMultiplicity<T>(s: seq<T>, p: T -> bool, x: T)
    ensures multiset(Filter(s, p))[x] == if p(x) then multiset(s)[x] else 0
    decreases |s|
  {
    if |s| > 0 {
      var rest := Filter(s[1..], p);
      FilterMultiplicity(s[1..], p, x);
      assert s == [s[0]] + s[1..];
      assert multiset(s) == multiset{s[0]} + multiset(s[1..]);
      if p(s[0]) {
        assert Filter(s, p) == [s[0]] + rest;
        assert multiset(Filter(s, p)) == multiset{s[0]} + multiset(rest);
      } else {
        assert Filter(s, p) == rest;
      }
    }
  }

  /** Filtering commutes with reordering: equal multisets filter to equal multisets. */
  lemma {:induction false} FilterPerm<T>(a: seq<T>, b: seq<T>, p: T -> bool)
    requires multiset(a) == multiset(b)
    ensures multiset(Filter(a, p)) == multiset(Filter(b, p))
    ensures |Filter(a, p)| == |Filter(b, p)|
  {
    forall x
      ensures multiset(Filter(a, p))[x] == multiset(Filter(b, p))[x]
    {
      FilterMultiplicity(a, p, x);
      FilterMultiplicity(b, p, x);
    }
    assert |Filter(a, p)| == |multiset(Filter(a, p))|;
    assert |Filter(b, p)| == |multiset(Filter(b, p))|;
  }

  /** The sum of `g` over the elements of `s`. */
  function SumBy<T>(s: seq<T>, g: T -> int): int
  {
    if |s| == 0 then 0 else g(s[0]) + SumBy(s[1..], g)
  }

  lemma {:induction false} SumByAppend<T>(a: seq<T>, b: seq<T>, g: T -> int)
    ensures SumBy(a + b, g) == SumBy(a, g) + SumBy(b, g)
    decreases |a|
  {
    if |a| == 0 {
      assert a + b == b;
    } else {
      assert (a + b)[1..] == a[1..] + b;
      SumByAppend(a[1..], b, g);
    }
  }

  lemma {:induction false} SumBySnoc<T>(a: seq<T>, x: T, g: T -> int)
    ensures SumBy(a + [x], g) == SumBy(a, g) + g(x)
  {
    SumByAppend(a, [x], g);
    assert [x][1..] == [];
  }

  /** The pieces `f(x)` of the elements of `s`, joined in order. */
  function ConcatMap<T, U>(s: seq<T>, f: T -> seq<U>): seq<U>
  {
    if |s| == 0 then [] else f(s[0]) + ConcatMap(s[1..], f)
  }

  lemma {:induction false} ConcatMapAppend<T, U>(a: seq<T>, b: seq<T>, f: T -> seq<U>)
    ensures ConcatMap(a + b, f) == ConcatMap(a, f) + ConcatMap(b, f)
    decreases |a|
  {
    if |a| == 0 {
      assert a + b == b;
    } else {
      assert (a + b)[1..] == a[1..] + b;
      ConcatMapAppend(a[1..], b, f);
    }
  }

  lemma {:induction false} ConcatMapCons<T, U>(s: seq<T>, f: T -> seq<U>)
    requires |s| > 0
    ensures ConcatMap(s, f) == f(s[0]) + ConcatMap(s[1..], f)
  {
  }

  lemma {:induction false} ConcatMapOne<T, U>(x: T, f: T -> seq<U>)
    ensures ConcatMap([x], f) == f(x)
  {
    assert [x][1..] == [];
    assert ConcatMap([x][1..], f) == [];
  }

  /** A sum over a sequence depends only on the multiset of its elements. */
  lemma {:induction false} SumByPerm<T>(a: seq<T>, b: seq<T>, g: T -> int)
    requires multiset(a) == multiset(b)
    ensures SumBy(a, g) == SumBy(b, g)
    decreases |a|
  {
    if |a| == 0 {
      assert |b| == |multiset(b)| == 0;
    } else {
      var x := a[0];
      assert x in multiset(b);
      var i :| 0 <= i < |b| && b[i] == x;
      assert a == [x] + a[1..];
      assert multiset(a[1..]) == multiset(a) - multiset{x};
      RemoveAt(b, i);
      SumByPerm(a[1..], b[..i] + b[i+1..], g);
      SumByRemove(b, i, g);
    }
  }

  /** Removing the element at `i` removes one copy of it. */
  lemma {:induction false} RemoveAt<T>(b: seq<T>, i: nat)
    requires i < |b|
    ensures multiset(b[..i] + b[i+1..]) == multiset(b) - multiset{b[i]}
  {
    assert b == b[..i] + [b[i]] + b[i+1..];
  }

  /** The sum is the removed element's share plus the sum of the rest. */
  lemma {:induction false} SumByRemove<T>(b: seq<T>, i: nat, g: T -> int)
    requires i < |b|
    ensures SumBy(b, g) == g(b[i]) + SumBy(b[..i] + b[i+1..], g)
  {
    var x := b[i];
    assert b == b[..i] + ([x] + b[i+1..]);
    SumByAppend(b[..i], [x] + b[i+1..], g);
    SumByAppend(b[..i], b[i+1..], g);
    assert SumBy([x] + b[i+1..], g) == g(x) + SumBy(b[i+1..], g) by {
      assert ([x] + b[i+1..])[1..] == b[i+1..];
    }
  }

  /** The sum of a sequence of integers. */
  function Sum(s: seq<int>): int
  {
    if |s| == 0 then 0 else s[0] + Sum(s[1..])
  }

  /** Adding `d` to one position adds `d` to the sum. */
  lemma {:induction false} SumUpdate(s: seq<int>, i: nat, d: int)
    requires i < |s|
    ensures Sum(s[i := s[i] + d]) == Sum(s) + d
    decreases |s|
  {
    if i > 0 {
      assert s[i := s[i] + d][1..] == s[1..][i - 1 := s[i] + d];
      SumUpdate(s[1..], i - 1, d);
    }
  }

  /** A sequence of `n` zeros. */
  function Zeros(n: nat): (r: seq<int>)
    ensures |r| == n
    ensures forall i :: 0 <= i < n ==> r[i] == 0
    ensures Sum(r) == 0
  {
    if n == 0 then [] else [0] + Zeros(n - 1)
  }

  /** No element of `s` is negative. */
  predicate AllNonNeg(s: seq<int>) {
    forall i :: 0 <= i < |s| ==> s[i] >= 0
  }
}

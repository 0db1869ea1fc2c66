/** Stable sorting by an integer key and top-K selection.

    Both scripts that rank sessions and the report's capping of counters
    use the same shape: `Array.prototype.sort` with a numeric comparator
    (stable since ECMAScript 2019) followed by `slice(0, k)`. Sorting
    descending by `x.score` is sorting ascending by the key `-x.score`. */
module Ranking {

  predicate SortedBy<T>(s: seq<T>, key: T -> int) {
    forall i, j :: 0 <= i < j < |s| ==> key(s[i]) <= key(s[j])
  }

  /** The elements of `s` whose key is `v`, in their order in `s`. */
  function WithKey<T>(s: seq<T>, key: T -> int, v: int): seq<T> {
    if |s| == 0 then [] else (if key(s[0]) == v then [s[0]] else []) + WithKey(s[1..], key, v)
  }

  ghost predicate IsPrefix<T>(a: seq<T>, b: seq<T>) {
    |a| <= |b| && b[..|a|] == a
  }

  lemma {:induction false} WithKeyAppend<T>(a: seq<T>, b: seq<T>, key: T -> int, v: int)
    ensures WithKey(a + b, key, v) == WithKey(a, key, v) + WithKey(b, key, v)
    decreases |a|
  {
    if |a| == 0 {
      assert a + b == b;
    } else {
      var ab := a + b;
      var head := if key(a[0]) == v then [a[0]] else [];
      assert ab[0] == a[0] && ab[1..] == a[1..] + b;
      assert WithKey(ab, key, v) == head + WithKey(ab[1..], key, v);
      assert WithKey(a, key, v) == head + WithKey(a[1..], key, v);
      WithKeyAppend(a[1..], b, key, v);
    }
  }

  lemma {:induction false} WithKeyNone<T>(s: seq<T>, key: T -> int, v: int)
    requires forall i :: 0 <= i < |s| ==> key(s[i]) != v
    ensures WithKey(s, key, v) == []
    decreases |s|
  {
    if |s| > 0 {
      WithKeyNone(s[1..], key, v);
    }
  }

  /** Puts `x` into the sorted `s` after every element whose key is not larger than its own. */
  function Insert<T>(x: T, s: seq<T>, key: T -> int): (r: seq<T>)
    requires SortedBy(s, key)
    ensures |r| == |s| + 1
    ensures multiset(r) == multiset(s) + multiset{x}
    ensures SortedBy(r, key)
    ensures forall i :: 0 <= i < |r| ==> r[i] == x || r[i] in s
  {
    if |s| == 0 then [x]
    else if key(x) < key(s[0]) then [x] + s
    else
      var rest := Insert(x, s[1..], key);
      assert s == [s[0]] + s[1..];
      assert forall i :: 0 <= i < |rest| ==> key(s[0]) <= key(rest[i]) by {
        forall i | 0 <= i < |rest|
          ensures key(s[0]) <= key(rest[i])
        {
          assert rest[i] == x || rest[i] in s[1..];
        }
      }
      [s[0]] + rest
  }

  /** Insertion keeps equal keys in arrival order: `x` goes after its equals. */
  lemma {:induction false} InsertWithKey<T>(x: T, s: seq<T>, key: T -> int, v: int)
    requires SortedBy(s, key)
    ensures WithKey(Insert(x, s, key), key, v) == WithKey(s, key, v) + (if key(x) == v then [x] else [])
    decreases |s|
  {
    var tail := if key(x) == v then [x] else [];
    if |s| == 0 {
      assert Insert(x, s, key) == [x];
      assert WithKey([x], key, v) == tail + WithKey([x][1..], key, v);
      assert [x][1..] == [];
    } else if key(x) < key(s[0]) {
      var r := [x] + s;
      assert Insert(x, s, key) == r;
      assert r[1..] == s;
      assert WithKey(r, key, v) == tail + WithKey(s, key, v);
      if key(x) == v {
        WithKeyNone(s, key, v);
      }
    } else {
      var rest := Insert(x, s[1..], key);
      assert Insert(x, s, key) == [s[0]] + rest;
      assert s == [s[0]] + s[1..];
      InsertWithKey(x, s[1..], key, v);
      WithKeyAppend([s[0]], rest, key, v);
      WithKeyAppend([s[0]], s[1..], key, v);
    }
  }

  /** Stable insertion sort of `s`, ascending by `key`. */
  function SortBy<T>(s: seq<T>, key: T -> int): (r: seq<T>)
    ensures |r| == |s|
    ensures multiset(r) == multiset(s)
    ensures SortedBy(r, key)
  {
    if |s| == 0 then []
    else
      assert s == s[..|s| - 1] + [s[|s| - 1]];
      Insert(s[|s| - 1], SortBy(s[..|s| - 1], key), key)
  }

  /** The sort is stable: for every key, the elements with that key keep their input order. */
  lemma {:induction false} SortByStable<T>(s: seq<T>, key: T -> int, v: int)
    ensures WithKey(SortBy(s, key), key, v) == WithKey(s, key, v)
    decreases |s|
  {
    if |s| > 0 {
      var init := s[..|s| - 1];
      SortByStable(init, key, v);
      SortByLast(s, key, v);
      WithKeyLast(s, key, v);
    }
  }

  lemma {:induction false} SortByLast<T>(s: seq<T>, key: T -> int, v: int)
    requires |s| > 0
    ensures var last := s[|s| - 1];
      WithKey(SortBy(s, key), key, v)
      == WithKey(SortBy(s[..|s| - 1], key), key, v) + (if key(last) == v then [last] else [])
  {
    InsertWithKey(s[|s| - 1], SortBy(s[..|s| - 1], key), key, v);
  }

  lemma {:induction false} WithKeyLast<T>(s: seq<T>, key: T -> int, v: int)
    requires |s| > 0
    ensures var last := s[|s| - 1];
      WithKey(s, key, v) == WithKey(s[..|s| - 1], key, v) + (if key(last) == v then [last] else [])
  {
    var init := s[..|s| - 1];
    var last := s[|s| - 1];
    assert s == init + [last];
    WithKeyAppend(init, [last], key, v);
    assert [last][1..] == [];
  }

  /** `SortBy(s, key).slice(0, k)`: the `k` elements with the smallest keys,
      ties broken by input order. */
  function TopK<T>(s: seq<T>, key: T -> int, k: nat): (r: seq<T>)
    ensures |r| == if |s| < k then |s| else k
    ensures multiset(r) <= multiset(s)
    ensures SortedBy(r, key)
    ensures forall v :: IsPrefix(WithKey(r, key, v), WithKey(s, key, v))
    ensures forall x, y :: x in multiset(s) - multiset(r) && y in r ==> key(y) <= key(x)
  {
    var m := if |s| < k then |s| else k;
    TopKProperties(s, key, m);
    SortBy(s, key)[..m]
  }

  lemma {:induction false} TopKProperties<T>(s: seq<T>, key: T -> int, m: nat)
    requires m <= |s|
    ensures var r := SortBy(s, key)[..m];
      && multiset(r) <= multiset(s)
      && (forall v :: IsPrefix(WithKey(r, key, v), WithKey(s, key, v)))
      && (forall x, y :: x in multiset(s) - multiset(r) && y in r ==> key(y) <= key(x))
  {
    var sorted := SortBy(s, key);
    var r := sorted[..m];
    var rest := sorted[m..];
    assert sorted == r + rest;
    assert multiset(sorted) == multiset(r) + multiset(rest);
    forall v
      ensures IsPrefix(WithKey(r, key, v), WithKey(s, key, v))
    {
      SortByStable(s, key, v);
      WithKeyAppend(r, rest, key, v);
    }
    forall x, y | x in multiset(s) - multiset(r) && y in r
      ensures key(y) <= key(x)
    {
      assert x in multiset(rest);
      var j :| 0 <= j < |rest| && rest[j] == x;
      var i :| 0 <= i < |r| && r[i] == y;
      assert sorted[i] == y && sorted[m + j] == x;
    }
  }
}

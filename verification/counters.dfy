/** JavaScript objects used as counters (`obj[k] = (obj[k] || 0) + 1`),
    kept as entry lists in key-insertion order, which is the order
    `Object.entries` reports them in. */
module Counters {

  /** The entries of a counter object, oldest key first. */
  type Counts = seq<(string, int)>

  /** The keys of `c`, in insertion order. */
  function Keys(c: Counts): (r: seq<string>)
    ensures |r| == |c|
    ensures forall i :: 0 <= i < |c| ==> r[i] == c[i].0
  {
    if |c| == 0 then [] else [c[0].0] + Keys(c[1..])
  }

  /** No key appears twice, as in every JavaScript object. */
  predicate Distinct(c: Counts) {
    forall i, j :: 0 <= i < j < |c| ==> c[i].0 != c[j].0
  }

  /** `c[k] || 0`: what the entries of `c` hold under `k` (0 when there is none). */
  function Get(c: Counts, k: string): int {
    if |c| == 0 then 0 else (if c[0].0 == k then c[0].1 else 0) + Get(c[1..], k)
  }

  /** The sum of all values of `c` (`Object.values(c)` summed). */
  function Total(c: Counts): int {
    if |c| == 0 then 0 else c[0].1 + Total(c[1..])
  }

  /** `c[k] = (c[k] || 0) + n`: an existing key keeps its place, a new key goes last. */
  function Bump(c: Counts, k: string, n: int): (r: Counts)
    ensures Keys(r) == if k in Keys(c) then Keys(c) else Keys(c) + [k]
    ensures forall k' :: Get(r, k') == Get(c, k') + (if k' == k then n else 0)
    ensures Total(r) == Total(c) + n
    ensures Distinct(c) ==> Distinct(r)
  {
    if |c| == 0 then [(k, n)]
    else if c[0].0 == k then [(k, c[0].1 + n)] + c[1..]
    else
      var rest := Bump(c[1..], k, n);
      assert Keys(c) == [c[0].0] + Keys(c[1..]);
      assert ([c[0]] + rest)[1..] == rest;
      assert Keys([c[0]] + rest) == [c[0].0] + Keys(rest);
      [c[0]] + rest
  }

  /** Adds every entry of `entries` to `c`, in order
      (`Object.entries(entries).forEach(([k, n]) => c[k] = (c[k] || 0) + n)`). */
  function AddAll(c: Counts, entries: Counts): (r: Counts)
    ensures forall k :: Get(r, k) == Get(c, k) + Get(entries, k)
    ensures Total(r) == Total(c) + Total(entries)
    ensures Distinct(c) ==> Distinct(r)
    decreases |entries|
  {
    if |entries| == 0 then c
    else AddAll(Bump(c, entries[0].0, entries[0].1), entries[1..])
  }

  /** A key that holds a non-zero count is one of the keys. */
  lemma {:induction false} GetNonZeroIsKey(c: Counts, k: string)
    requires Get(c, k) != 0
    ensures k in Keys(c)
    decreases |c|
  {
    if c[0].0 != k {
      GetNonZeroIsKey(c[1..], k);
    }
  }

  /** In an object with distinct keys, `Get` reads the value of the entry with that key. */
  lemma {:induction false} GetDistinct(c: Counts, i: nat)
    requires Distinct(c) && i < |c|
    ensures Get(c, c[i].0) == c[i].1
    decreases |c|
  {
    if i == 0 {
      GetAbsent(c[1..], c[0].0);
    } else {
      GetDistinct(c[1..], i - 1);
    }
  }

  lemma {:induction false} GetAbsent(c: Counts, k: string)
    requires forall i :: 0 <= i < |c| ==> c[i].0 != k
    ensures Get(c, k) == 0
    decreases |c|
  {
    if |c| > 0 {
      GetAbsent(c[1..], k);
    }
  }
}

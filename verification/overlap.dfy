/** `detectMultiClauding` of `aggregate-stats.js`: user messages of
    different sessions sent less than 30 minutes apart.

    The source sorts the (timestamp, session) pairs and, for every entry,
    scans backward and then forward while the neighbour lies inside the
    window, stopping at the first neighbour of another session. The
    declarative reading is that an entry overlaps when some entry of another
    session lies less than `WindowMs` away from it, whichever order the
    entries came in. The lemmas below show the scans compute exactly that. */
module Overlap {
  import opened Wrappers
  import opened Ranking
  import opened Seqs
  import opened JsMath

  /** An entry of `userMessageTimestamps`: when a user message was sent, and
      by which session. */
  datatype Stamp = Stamp(ts: int, sessionId: string)

  /** The result object: `overlap_events`, `sessions_involved` and
      `user_messages_during`. */
  datatype Multi = Multi(events: int, involved: nat, during: nat)

  /** `WINDOW_MS`: 30 minutes. */
  const WindowMs: int := 30 * 60 * 1000

  function TsOf(s: Stamp): int { s.ts }

  // ---------------------------------------------------------------------------
  // The declarative reading

  /** `x` has a partner in `pool`: an entry of another session less than the
      window away, in either direction. */
  ghost predicate Overlaps(pool: multiset<Stamp>, x: Stamp) {
    exists e :: e in pool && e.sessionId != x.sessionId && -WindowMs < e.ts - x.ts < WindowMs
  }

  /** The number of entries of `s` (counted with repetition) that overlap in `pool`. */
  ghost function OverlapCount(s: seq<Stamp>, pool: multiset<Stamp>): nat {
    if |s| == 0 then 0 else (if Overlaps(pool, s[0]) then 1 else 0) + OverlapCount(s[1..], pool)
  }

  /** The sessions of the entries of `stamps` that overlap with another entry. */
  ghost function InvolvedIds(stamps: seq<Stamp>): set<string> {
    set x | x in stamps && Overlaps(multiset(stamps), x) :: x.sessionId
  }

  // ---------------------------------------------------------------------------
  // The scans of the source

  /** The backward scan for entry `i`, at candidate `j - 1`: it stops at the
      window's edge, and at the first entry of another session. */
  function ScanBack(t: seq<Stamp>, i: nat, j: nat): (r: Option<nat>)
    requires i < |t| && j <= i
    ensures r.Some? ==> r.value < j && t[r.value].sessionId != t[i].sessionId
                        && t[i].ts - t[r.value].ts < WindowMs
    decreases j
  {
    if j == 0 then None
    else if t[i].ts - t[j - 1].ts >= WindowMs then None
    else if t[j - 1].sessionId != t[i].sessionId then Some(j - 1)
    else ScanBack(t, i, j - 1)
  }

  /** The forward scan for entry `i`, at candidate `j`. */
  function ScanFwd(t: seq<Stamp>, i: nat, j: nat): (r: Option<nat>)
    requires i < j
    requires i < |t|
    ensures r.Some? ==> j <= r.value < |t| && t[r.value].sessionId != t[i].sessionId
                        && t[r.value].ts - t[i].ts < WindowMs
    decreases |t| - j
  {
    if j >= |t| then None
    else if t[j].ts - t[i].ts >= WindowMs then None
    else if t[j].sessionId != t[i].sessionId then Some(j)
    else ScanFwd(t, i, j + 1)
  }

  /** The neighbour that gives entry `i` its overlap: the backward scan's
      find, else the forward scan's. */
  function Partner(t: seq<Stamp>, i: nat): Option<nat>
    requires i < |t|
  {
    match ScanBack(t, i, i)
    case Some(j) => Some(j)
    case None => ScanFwd(t, i, i + 1)
  }

  /** The loop over the sorted entries from `i` on, with the running
      `messagesDuring` and `involved`. */
  function Scan(t: seq<Stamp>, i: nat, during: nat, involved: set<string>): (nat, set<string>)
    requires i <= |t|
    decreases |t| - i
  {
    if i == |t| then (during, involved)
    else match Partner(t, i)
      case None => Scan(t, i + 1, during, involved)
      case Some(j) => Scan(t, i + 1, during + 1, involved + {t[j].sessionId, t[i].sessionId})
  }

  /** `detectMultiClauding(timestamps)`. */
  function DetectOverlap(stamps: seq<Stamp>): (r: Multi)
    ensures r.during == OverlapCount(stamps, multiset(stamps))
    ensures r.involved == |InvolvedIds(stamps)|
    ensures r.during <= |stamps|
    ensures r.involved > 0 <==> r.during > 0
    ensures r.events == if r.during > 0 then RoundDiv(r.during, 5) else 0
  {
    if |stamps| == 0 then
      assert InvolvedIds(stamps) == {};
      Multi(0, 0, 0)
    else
      var t := SortBy(stamps, TsOf);
      var s := Scan(t, 0, 0, {});
      ScanCounts(t);
      OverlapCountPerm(t, stamps, multiset(stamps));
      OverlapCountBound(stamps, multiset(stamps));
      InvolvedPerm(t, stamps);
      InvolvedNonEmpty(stamps);
      Multi(if |s.1| > 0 then RoundDiv(s.0, 5) else 0, |s.1|, s.0)
  }

  // ---------------------------------------------------------------------------
  // The scans compute the declarative reading

  /** On sorted entries, the backward scan from `j` finds a partner whenever
      an entry `k < j` of another session lies inside the window. */
  lemma {:induction false} ScanBackComplete(t: seq<Stamp>, i: nat, j: nat, k: nat)
    requires SortedBy(t, TsOf)
    requires i < |t| && k < j <= i
    requires t[k].sessionId != t[i].sessionId && t[i].ts - t[k].ts < WindowMs
    ensures ScanBack(t, i, j).Some?
    decreases j
  {
    assert TsOf(t[k]) <= TsOf(t[j - 1]);
    if t[j - 1].sessionId == t[i].sessionId {
      ScanBackComplete(t, i, j - 1, k);
    }
  }

  /** On sorted entries, the forward scan from `j` finds a partner whenever
      an entry `k >= j` of another session lies inside the window. */
  lemma {:induction false} ScanFwdComplete(t: seq<Stamp>, i: nat, j: nat, k: nat)
    requires SortedBy(t, TsOf)
    requires i < j <= k < |t|
    requires t[k].sessionId != t[i].sessionId && t[k].ts - t[i].ts < WindowMs
    ensures ScanFwd(t, i, j).Some?
    decreases |t| - j
  {
    assert TsOf(t[j]) <= TsOf(t[k]);
    if t[j].sessionId == t[i].sessionId {
      ScanFwdComplete(t, i, j + 1, k);
    }
  }

  /** The main property: on sorted entries the bounded scans find a partner
      for entry `i` exactly when `i` overlaps with some other entry. */
  lemma {:induction false} PartnerIff(t: seq<Stamp>, i: nat)
    requires SortedBy(t, TsOf) && i < |t|
    ensures Partner(t, i).Some? <==> Overlaps(multiset(t), t[i])
  {
    var p := Partner(t, i);
    if p.Some? {
      var k := p.value;
      assert TsOf(t[k]) <= TsOf(t[i]) || TsOf(t[i]) <= TsOf(t[k]);
      if k < i {
        assert TsOf(t[k]) <= TsOf(t[i]);
      } else {
        assert TsOf(t[i]) <= TsOf(t[k]);
      }
      assert t[k] in multiset(t);
    }
    if Overlaps(multiset(t), t[i]) {
      var e :| e in multiset(t) && e.sessionId != t[i].sessionId && -WindowMs < e.ts - t[i].ts < WindowMs;
      var k :| 0 <= k < |t| && t[k] == e;
      if k < i {
        ScanBackComplete(t, i, i, k);
      } else {
        assert k != i;
        if ScanBack(t, i, i).None? {
          ScanFwdComplete(t, i, i + 1, k);
        }
      }
    }
  }

  /** The sessions of the entries of `t` from index `i` on that overlap in `pool`. */
  ghost function SuffixIds(t: seq<Stamp>, pool: multiset<Stamp>, i: nat): set<string>
    requires i <= |t|
    decreases |t| - i
  {
    if i == |t| then {}
    else (if Overlaps(pool, t[i]) then {t[i].sessionId} else {}) + SuffixIds(t, pool, i + 1)
  }

  lemma {:induction false} SuffixIdsMember(t: seq<Stamp>, pool: multiset<Stamp>, i: nat, id: string)
    requires i <= |t|
    ensures id in SuffixIds(t, pool, i) <==>
            exists k :: i <= k < |t| && Overlaps(pool, t[k]) && t[k].sessionId == id
    decreases |t| - i
  {
    if i < |t| {
      SuffixIdsMember(t, pool, i + 1, id);
    }
  }

  /** The partner found for `i` overlaps too: with `i` itself. */
  lemma {:induction false} PartnerOverlaps(t: seq<Stamp>, i: nat, j: nat)
    requires SortedBy(t, TsOf) && i < |t|
    requires Partner(t, i) == Some(j)
    ensures j < |t| && j != i && Overlaps(multiset(t), t[j])
  {
    assert t[i] in multiset(t);
    if j < i {
      assert TsOf(t[j]) <= TsOf(t[i]);
    } else {
      assert TsOf(t[i]) <= TsOf(t[j]);
    }
  }

  /** Every overlapping entry before `i` has its session in `involved`. */
  ghost predicate PrefixCovered(t: seq<Stamp>, i: nat, involved: set<string>)
    requires i <= |t|
  {
    forall k :: 0 <= k < i && Overlaps(multiset(t), t[k]) ==> t[k].sessionId in involved
  }

  /** The fold adds, from index `i` on, one to `during` per overlapping entry
      and the session of each overlapping entry to `involved`. The partner's
      session it also adds is one of those, because overlapping is
      symmetric: a partner before `i` was added when the fold passed it, one
      after `i` is part of the suffix. */
  lemma {:induction false} ScanSuffix(t: seq<Stamp>, i: nat, during: nat, involved: set<string>)
    requires SortedBy(t, TsOf) && i <= |t|
    requires PrefixCovered(t, i, involved)
    ensures Scan(t, i, during, involved).0 == during + OverlapCount(t[i..], multiset(t))
    ensures Scan(t, i, during, involved).1 == involved + SuffixIds(t, multiset(t), i)
    decreases |t| - i
  {
    if i == |t| {
      assert t[i..] == [];
    } else {
      assert t[i..][1..] == t[i + 1..];
      PartnerIff(t, i);
      match Partner(t, i)
      case None =>
        ScanSuffix(t, i + 1, during, involved);
      case Some(j) =>
        PartnerOverlaps(t, i, j);
        ScanSuffixPartner(t, i, j, during, involved);
    }
  }

  /** The step of `ScanSuffix` at an overlapping entry `i` whose partner is `j`. */
  lemma {:induction false} ScanSuffixPartner(t: seq<Stamp>, i: nat, j: nat, during: nat, involved: set<string>)
    requires SortedBy(t, TsOf) && i < |t| && j < |t| && j != i
    requires PrefixCovered(t, i, involved)
    requires Overlaps(multiset(t), t[i]) && Overlaps(multiset(t), t[j])
    ensures var s := Scan(t, i + 1, during + 1, involved + {t[j].sessionId, t[i].sessionId});
      && s.0 == during + OverlapCount(t[i..], multiset(t))
      && s.1 == involved + SuffixIds(t, multiset(t), i)
    decreases |t| - i, 0
  {
    var pool := multiset(t);
    var involved' := involved + {t[j].sessionId, t[i].sessionId};
    CoveredStep(t, i, involved, {t[j].sessionId, t[i].sessionId});
    ScanSuffix(t, i + 1, during + 1, involved');
    assert OverlapCount(t[i..], pool) == 1 + OverlapCount(t[i + 1..], pool) by {
      assert t[i..][1..] == t[i + 1..];
    }
    var rest := SuffixIds(t, pool, i + 1);
    assert SuffixIds(t, pool, i) == {t[i].sessionId} + rest;
    assert t[j].sessionId in involved + rest by {
      if j > i {
        SuffixIdsMember(t, pool, i + 1, t[j].sessionId);
      }
    }
    UnionAbsorb(involved, rest, t[j].sessionId, t[i].sessionId);
  }

  lemma {:induction false} UnionAbsorb<T>(a: set<T>, rest: set<T>, x: T, y: T)
    requires x in a + rest
    ensures (a + {x, y}) + rest == a + ({y} + rest)
  {
  }

  /** Passing an overlapping entry `i` while adding its session keeps the prefix covered. */
  lemma {:induction false} CoveredStep(t: seq<Stamp>, i: nat, involved: set<string>, added: set<string>)
    requires i < |t| && PrefixCovered(t, i, involved)
    requires Overlaps(multiset(t), t[i]) ==> t[i].sessionId in added
    ensures PrefixCovered(t, i + 1, involved + added)
  {
  }

  lemma {:induction false} ScanCounts(t: seq<Stamp>)
    requires SortedBy(t, TsOf)
    ensures Scan(t, 0, 0, {}).0 == OverlapCount(t, multiset(t))
    ensures Scan(t, 0, 0, {}).1 == InvolvedIds(t)
  {
    var pool := multiset(t);
    assert PrefixCovered(t, 0, {});
    ScanSuffix(t, 0, 0, {});
    assert t[0..] == t;
    forall id
      ensures id in InvolvedIds(t) <==> id in SuffixIds(t, pool, 0)
    {
      SuffixIdsMember(t, pool, 0, id);
      if id in InvolvedIds(t) {
        var x :| x in t && Overlaps(pool, x) && x.sessionId == id;
        var k :| 0 <= k < |t| && t[k] == x;
      }
      if id in SuffixIds(t, pool, 0) {
        var k :| 0 <= k < |t| && Overlaps(pool, t[k]) && t[k].sessionId == id;
        assert t[k] in t;
      }
    }
  }

  /** The count of an indicator, written as a sum. */
  lemma {:induction false} OverlapCountIsSum(s: seq<Stamp>, pool: multiset<Stamp>, g: Stamp -> int)
    requires forall x :: g(x) == if Overlaps(pool, x) then 1 else 0
    ensures OverlapCount(s, pool) == SumBy(s, g)
    decreases |s|
  {
    if |s| > 0 {
      OverlapCountIsSum(s[1..], pool, g);
    }
  }

  /** The count does not depend on the order of the entries. */
  lemma {:induction false} OverlapCountPerm(a: seq<Stamp>, b: seq<Stamp>, pool: multiset<Stamp>)
    requires multiset(a) == multiset(b)
    ensures OverlapCount(a, pool) == OverlapCount(b, pool)
  {
    var g: Stamp -> int := x => if Overlaps(pool, x) then 1 else 0;
    OverlapCountIsSum(a, pool, g);
    OverlapCountIsSum(b, pool, g);
    SumByPerm(a, b, g);
  }

  lemma {:induction false} OverlapCountBound(s: seq<Stamp>, pool: multiset<Stamp>)
    ensures OverlapCount(s, pool) <= |s|
    ensures OverlapCount(s, pool) > 0 <==> exists i :: 0 <= i < |s| && Overlaps(pool, s[i])
    decreases |s|
  {
    if |s| > 0 {
      OverlapCountBound(s[1..], pool);
      if exists i :: 0 <= i < |s| && Overlaps(pool, s[i]) {
        var i :| 0 <= i < |s| && Overlaps(pool, s[i]);
        if i > 0 {
          assert s[1..][i - 1] == s[i];
        }
      }
      if exists i :: 0 <= i < |s| - 1 && Overlaps(pool, s[1..][i]) {
        var i :| 0 <= i < |s| - 1 && Overlaps(pool, s[1..][i]);
        assert s[i + 1] == s[1..][i];
      }
    }
  }

  lemma {:induction false} InvolvedPerm(a: seq<Stamp>, b: seq<Stamp>)
    requires multiset(a) == multiset(b)
    ensures InvolvedIds(a) == InvolvedIds(b)
  {
    forall x ensures x in a <==> x in b {
      assert x in a <==> x in multiset(a);
      assert x in b <==> x in multiset(b);
    }
  }

  lemma {:induction false} InvolvedNonEmpty(stamps: seq<Stamp>)
    ensures |InvolvedIds(stamps)| > 0 <==> OverlapCount(stamps, multiset(stamps)) > 0
  {
    var pool := multiset(stamps);
    OverlapCountBound(stamps, pool);
    if OverlapCount(stamps, pool) > 0 {
      var i :| 0 <= i < |stamps| && Overlaps(pool, stamps[i]);
      assert stamps[i].sessionId in InvolvedIds(stamps);
    }
    if |InvolvedIds(stamps)| > 0 {
      var id :| id in InvolvedIds(stamps);
      var x :| x in stamps && Overlaps(pool, x) && x.sessionId == id;
      var i :| 0 <= i < |stamps| && stamps[i] == x;
    }
  }

  /** Messages of a single session never overlap with each other. */
  lemma {:induction false} SingleSession(stamps: seq<Stamp>, id: string)
    requires forall k :: 0 <= k < |stamps| ==> stamps[k].sessionId == id
    ensures DetectOverlap(stamps) == Multi(0, 0, 0)
  {
    var pool := multiset(stamps);
    forall e | e in pool
      ensures e.sessionId == id
    {
      var k :| 0 <= k < |stamps| && stamps[k] == e;
    }
    OverlapCountBound(stamps, pool);
  }

  /** Overlapping is mutual: a reported overlap always involves at least two sessions. */
  lemma {:induction false} OverlapIsMutual(stamps: seq<Stamp>)
    ensures DetectOverlap(stamps).during > 0 ==> DetectOverlap(stamps).involved >= 2
  {
    var pool := multiset(stamps);
    OverlapCountBound(stamps, pool);
    if OverlapCount(stamps, pool) > 0 {
      var i :| 0 <= i < |stamps| && Overlaps(pool, stamps[i]);
      var x := stamps[i];
      var e :| e in pool && e.sessionId != x.sessionId && -WindowMs < e.ts - x.ts < WindowMs;
      assert x in pool;
      assert Overlaps(pool, e);
      var ids := InvolvedIds(stamps);
      assert x.sessionId in ids;
      assert e in stamps;
      assert e.sessionId in ids;
      var pair := {x.sessionId, e.sessionId};
      assert ids == pair + (ids - pair);
      assert |pair| == 2;
    }
  }
}

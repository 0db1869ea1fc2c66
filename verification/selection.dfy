/** Which sessions get a qualitative look: `topSessions` of `orchestrate.js`
    (lines 45-48) and the selection at the top of `prepare-sampling.js`
    (lines 7-15), which applies the same rule unless it is given a list of
    session ids. */
module Selection {
  import opened Wrappers
  import opened Seqs
  import opened Text
  import opened Ranking
  import opened Aggregate

  /** `.slice(0, 15)`. */
  const TopCount: nat := 15

  /** `s.userMessages > 1`. */
  predicate Eligible(s: Summary) {
    s.userMessages > 1
  }

  /** The sort key: `(a, b) => b.score - a.score` sorts by this ascending. */
  function Rank(s: Summary): int {
    -s.score
  }

  function Min(a: nat, b: nat): nat {
    if a < b then a else b
  }

  /** `sessionList.filter(s => s.userMessages > 1).sort(byScoreDesc).slice(0, 15)`.
      The result takes its sessions from the list, holds only sessions with
      more than one user message and at most 15 of them (fewer only when
      fewer are eligible), is ordered by non-increasing score, keeps the
      list order among equal scores (the sort is stable), and leaves out no
      eligible session that scores higher than a selected one. */
  function TopSessions(list: seq<Summary>): (r: seq<Summary>)
    ensures |r| == Min(TopCount, |Filter(list, Eligible)|)
    ensures multiset(r) <= multiset(list)
    ensures forall i :: 0 <= i < |r| ==> Eligible(r[i])
    ensures forall i, j :: 0 <= i < j < |r| ==> r[i].score >= r[j].score
    ensures forall v :: IsPrefix(WithKey(r, Rank, v), WithKey(Filter(list, Eligible), Rank, v))
    ensures forall x, y :: x in multiset(list) - multiset(r) && Eligible(x) && y in r ==> x.score <= y.score
  {
    var eligible := Filter(list, Eligible);
    var r := TopK(eligible, Rank, TopCount);
    forall i | 0 <= i < |r|
      ensures Eligible(r[i])
    {
      assert r[i] in multiset(r);
      var k :| 0 <= k < |eligible| && eligible[k] == r[i];
    }
    forall i, j | 0 <= i < j < |r|
      ensures r[i].score >= r[j].score
    {
      assert Rank(r[i]) <= Rank(r[j]);
    }
    forall x, y | x in multiset(list) - multiset(r) && Eligible(x) && y in r
      ensures x.score <= y.score
    {
      FilterMultiplicity(list, Eligible, x);
      assert x in multiset(eligible) - multiset(r);
      assert Rank(y) <= Rank(x);
    }
    r
  }

  /** `SELECTED_SESSION_IDS`: unset and empty both mean "no ids"; otherwise
      the comma-separated pieces. */
  function SelectedIds(env: Option<string>): (ids: seq<string>)
    ensures |ids| == 0 <==> env.None? || env.value == ""
    ensures env.Some? && env.value != "" ==> |ids| == CountChar(env.value, ',') + 1
    ensures env.Some? && env.value != "" ==>
      && Join(ids, [',']) == env.value
      && forall k, i :: 0 <= k < |ids| && 0 <= i < |ids[k]| ==> ids[k][i] != ','
  {
    if env.None? || env.value == "" then []
    else
      SplitLength(env.value, ',');
      SplitJoin(env.value, ',');
      Split(env.value, ',')
  }

  /** The sessions `prepare-sampling.js` works on. With ids, exactly the
      listed sessions whose id is among them, in list order and with their
      multiplicity; without, the same top sessions the orchestrator picks. */
  function SelectSessions(env: Option<string>, list: seq<Summary>): (r: seq<Summary>)
    ensures |SelectedIds(env)| == 0 ==> r == TopSessions(list)
    ensures |SelectedIds(env)| > 0 ==>
      && IsSubseq(r, list)
      && forall x :: multiset(r)[x] == if x.id in SelectedIds(env) then multiset(list)[x] else 0
  {
    var ids := SelectedIds(env);
    if |ids| > 0 then
      var r := Filter(list, (s: Summary) => s.id in ids);
      FilterSubseq(list, (s: Summary) => s.id in ids);
      forall x
        ensures multiset(r)[x] == if x.id in ids then multiset(list)[x] else 0
      {
        FilterMultiplicity(list, (s: Summary) => s.id in ids, x);
      }
      r
    else TopSessions(list)
  }

  /** The orchestrator hands `prepare-sampling.js` one id at a time; for an
      id without a comma that selects exactly the sessions with that id. */
  lemma {:induction false} SingleIdSelection(id: string, list: seq<Summary>)
    requires id != "" && forall i :: 0 <= i < |id| ==> id[i] != ','
    ensures forall x :: x in SelectSessions(Some(id), list) <==> x in list && x.id == id
  {
    SplitNoSeparator(id, ',');
    var r := SelectSessions(Some(id), list);
    forall x
      ensures x in r <==> x in list && x.id == id
    {
      assert x in r <==> multiset(r)[x] > 0;
      assert x in list <==> multiset(list)[x] > 0;
    }
  }
}

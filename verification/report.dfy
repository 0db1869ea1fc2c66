/** The data preparation of `generate-report.js` (lines 8-59): the
    response-time histogram, the cleaned and capped statistics, and the
    shortened synthesis. What becomes of them afterwards (compression and
    the HTML template) is not modelled. */
module Report {
  import opened Wrappers
  import opened Seqs
  import opened Counters
  import opened Ranking
  import opened Overlap
  import opened Facets

  // ---------------------------------------------------------------------------
  // The response-time histogram

  /** The lower edges, in seconds, of the seven upper bins: `< 2s`,
      `2-10s`, `10-30s`, `30s-1m`, `1-2m`, `2-5m`, `5-15m`, `>15m`. */
  const Edges: seq<real> := [2.0, 10.0, 30.0, 60.0, 120.0, 300.0, 900.0]
  const BinCount: nat := 8

  /** The bin the `if … else if` chain puts a time into: the one bin whose
      half-open range `[lower edge, upper edge)` holds the time. */
  function BinOf(t: real): (b: nat)
    ensures b < BinCount
    ensures b > 0 ==> Edges[b - 1] <= t
    ensures b < BinCount - 1 ==> t < Edges[b]
    ensures forall k :: 0 <= k < BinCount ==>
      (k == b <==> (k > 0 ==> Edges[k - 1] <= t) && (k < BinCount - 1 ==> t < Edges[k]))
  {
    if t < 2.0 then 0
    else if t < 10.0 then 1
    else if t < 30.0 then 2
    else if t < 60.0 then 3
    else if t < 120.0 then 4
    else if t < 300.0 then 5
    else if t < 900.0 then 6
    else 7
  }

  /** How many of `times` fall into bin `b`. */
  function CountIn(times: seq<real>, b: nat): nat {
    if |times| == 0 then 0
    else CountIn(times[..|times| - 1], b) + (if BinOf(times[|times| - 1]) == b then 1 else 0)
  }

  /** The loop over `userResponseTimes`; `None` when the field is absent. */
  function Histogram(times: Option<seq<real>>): (bins: seq<int>)
    ensures |bins| == BinCount
    ensures times.None? ==> forall b :: 0 <= b < BinCount ==> bins[b] == 0
    ensures times.Some? ==> forall b :: 0 <= b < BinCount ==> bins[b] == CountIn(times.value, b)
    ensures times.Some? ==> Sum(bins) == |times.value|
  {
    match times
    case None => Zeros(BinCount)
    case Some(ts) => Fill(ts)
  }

  /** The bins after the first `|ts|` times, one increment per time. */
  function Fill(ts: seq<real>): (bins: seq<int>)
    ensures |bins| == BinCount
    ensures forall b :: 0 <= b < BinCount ==> bins[b] == CountIn(ts, b)
    ensures Sum(bins) == |ts|
    decreases |ts|
  {
    if |ts| == 0 then Zeros(BinCount)
    else
      var prev := Fill(ts[..|ts| - 1]);
      var b := BinOf(ts[|ts| - 1]);
      SumUpdate(prev, b, 1);
      prev[b := prev[b] + 1]
  }

  /** 1 for a time in bin `b`. */
  function InBin(b: nat): real -> int {
    (t: real) => if BinOf(t) == b then 1 else 0
  }

  lemma {:induction false} CountInIsSum(ts: seq<real>, b: nat)
    ensures CountIn(ts, b) == SumBy(ts, InBin(b))
    decreases |ts|
  {
    if |ts| > 0 {
      var init := ts[..|ts| - 1];
      CountInIsSum(init, b);
      assert ts == init + [ts[|ts| - 1]];
      SumBySnoc(init, ts[|ts| - 1], InBin(b));
    }
  }

  /** The histogram depends only on which times there are, not on the
      order the sessions produced them in. */
  lemma {:induction false} HistogramOrderFree(a: seq<real>, b: seq<real>)
    requires multiset(a) == multiset(b)
    ensures Histogram(Some(a)) == Histogram(Some(b))
  {
    forall k | 0 <= k < BinCount
      ensures Histogram(Some(a))[k] == Histogram(Some(b))[k]
    {
      CountInIsSum(a, k);
      CountInIsSum(b, k);
      SumByPerm(a, b, InBin(k));
    }
  }

  // ---------------------------------------------------------------------------
  // cleanStats

  /** `Object.fromEntries(Object.entries(c).sort(byCountDesc).slice(0, n))`:
      the `n` largest entries, largest first, equal counts in their original
      order, each keeping its count, and none left out that is larger than
      one kept. */
  function TopCounts(c: Counts, n: nat): (r: Counts)
    ensures |r| == if |c| < n then |c| else n
    ensures multiset(r) <= multiset(c)
    ensures forall i, j :: 0 <= i < j < |r| ==> r[i].1 >= r[j].1
    ensures forall e, kept :: e in multiset(c) - multiset(r) && kept in r ==> e.1 <= kept.1
    ensures forall v :: IsPrefix(WithKey(r, Desc, v), WithKey(c, Desc, v))
  {
    var r := TopK(c, Desc, n);
    forall i, j | 0 <= i < j < |r|
      ensures r[i].1 >= r[j].1
    {
      assert Desc(r[i]) <= Desc(r[j]);
    }
    forall e, kept | e in multiset(c) - multiset(r) && kept in r
      ensures e.1 <= kept.1
    {
      assert Desc(kept) <= Desc(e);
    }
    r
  }

  function Desc(e: (string, int)): int {
    -e.1
  }

  /** A kept entry reads the same count as in the full counter. */
  lemma {:induction false} TopCountsKeepCounts(c: Counts, n: nat, i: nat)
    requires Distinct(c) && i < |c| && i < n
    ensures Get(c, TopCounts(c, n)[i].0) == TopCounts(c, n)[i].1
  {
    var r := TopCounts(c, n);
    assert r[i] in multiset(r);
    assert r[i] in multiset(c);
    var k :| 0 <= k < |c| && c[k] == r[i];
    GetDistinct(c, k);
  }

  /** The statistics fields `generate-report.js` reads. `None` stands for an
      absent or falsy value. */
  datatype StatsIn = StatsIn(
    totalMessages: Option<int>, sessionsAnalyzed: Option<int>, linesAdded: Option<int>,
    linesRemoved: Option<int>, filesTouchedCount: Option<int>, activeDays: Option<int>,
    tools: Option<Counts>, languages: Option<Counts>, toolErrors: Option<Counts>,
    hourlyActivity: Option<seq<int>>, userResponseTimes: Option<seq<real>>,
    medianResponseTime: Option<real>, avgResponseTime: Option<real>,
    multiClauding: Option<Multi>, qualitative: Option<Qualitative>, meta: Option<Meta>)

  /** `stats.meta`, as the orchestrator writes it. */
  datatype Meta = Meta(generationTimeMs: int, qualitativeSessionsAnalyzed: nat,
                       totalSessionsScanned: nat, sessionsAnalyzedCount: nat)

  /** `cleanStats.me`. */
  datatype Me = Me(qs: nat, gt: int)

  /** `cleanStats`; `mc` and `ql` are `None` where the source writes `{}`. */
  datatype Clean = Clean(
    tm: int, sa: int, la: int, lr: int, ft: int, ad: int,
    to: Counts, lg: Counts, er: Counts, ha: seq<int>, rt: seq<int>,
    mrt: real, art: real, mc: Option<Multi>, ql: Option<Qualitative>, me: Option<Me>)

  const ToolsKept: nat := 8
  const LanguagesKept: nat := 8
  const ErrorsKept: nat := 6

  function CleanStats(s: StatsIn): (c: Clean)
    ensures c.tm == s.totalMessages.GetOr(0) && c.sa == s.sessionsAnalyzed.GetOr(0)
    ensures c.la == s.linesAdded.GetOr(0) && c.lr == s.linesRemoved.GetOr(0)
    ensures c.ft == s.filesTouchedCount.GetOr(0) && c.ad == s.activeDays.GetOr(0)
    ensures c.to == TopCounts(s.tools.GetOr([]), ToolsKept)
    ensures c.lg == TopCounts(s.languages.GetOr([]), LanguagesKept)
    ensures c.er == TopCounts(s.toolErrors.GetOr([]), ErrorsKept)
    ensures c.ha == s.hourlyActivity.GetOr([])
    ensures c.rt == Histogram(s.userResponseTimes)
    ensures c.mrt == s.medianResponseTime.GetOr(0.0) && c.art == s.avgResponseTime.GetOr(0.0)
    ensures c.mc == s.multiClauding && c.ql == s.qualitative
    ensures c.me.Some? <==> s.meta.Some?
    ensures s.meta.Some? ==> c.me.value == Me(s.meta.value.qualitativeSessionsAnalyzed, s.meta.value.generationTimeMs)
  {
    Clean(
      s.totalMessages.GetOr(0), s.sessionsAnalyzed.GetOr(0), s.linesAdded.GetOr(0),
      s.linesRemoved.GetOr(0), s.filesTouchedCount.GetOr(0), s.activeDays.GetOr(0),
      TopCounts(s.tools.GetOr([]), ToolsKept),
      TopCounts(s.languages.GetOr([]), LanguagesKept),
      TopCounts(s.toolErrors.GetOr([]), ErrorsKept),
      s.hourlyActivity.GetOr([]),
      Histogram(s.userResponseTimes),
      s.medianResponseTime.GetOr(0.0), s.avgResponseTime.GetOr(0.0),
      s.multiClauding, s.qualitative,
      match s.meta
      case None => None
      case Some(m) => Some(Me(m.qualitativeSessionsAnalyzed, m.generationTimeMs)))
  }

  /** What the report receives: at most 8 tools, 8 languages and 6 error
      categories, each drawn from the statistics, largest first and never
      smaller than one left out; and a histogram that accounts for every
      response time, or is all zero when there are none. */
  lemma {:induction false} CleanStatsRanked(s: StatsIn)
    ensures var c := CleanStats(s);
      && |c.to| <= ToolsKept && |c.lg| <= LanguagesKept && |c.er| <= ErrorsKept
      && multiset(c.to) <= multiset(s.tools.GetOr([]))
      && multiset(c.lg) <= multiset(s.languages.GetOr([]))
      && multiset(c.er) <= multiset(s.toolErrors.GetOr([]))
      && (forall i, j :: 0 <= i < j < |c.to| ==> c.to[i].1 >= c.to[j].1)
      && (forall e, kept :: e in multiset(s.tools.GetOr([])) - multiset(c.to) && kept in c.to ==> e.1 <= kept.1)
      && |c.rt| == BinCount
      && (s.userResponseTimes.Some? ==> Sum(c.rt) == |s.userResponseTimes.value|)
      && (s.userResponseTimes.None? ==> forall b :: 0 <= b < BinCount ==> c.rt[b] == 0)
  {
  }

  /** The cleaned statistics do not depend on the order of the response
      times: a run that reorders them (as the median computation does, by
      sorting the array in place) yields the same report data. */
  lemma {:induction false} CleanStatsOrderFree(s: StatsIn, times: seq<real>)
    requires s.userResponseTimes.Some? && multiset(times) == multiset(s.userResponseTimes.value)
    ensures CleanStats(s.(userResponseTimes := Some(times))) == CleanStats(s)
  {
    HistogramOrderFree(times, s.userResponseTimes.value);
  }

  // ---------------------------------------------------------------------------
  // minSy

  /** The synthesis fields the report reads, each an uninterpreted JSON
      value; `None` for an absent or falsy one. */
  datatype Synthesis<V> = Synthesis(
    atAGlance: Option<V>, projectAreas: Option<seq<V>>, interactionStyle: Option<V>,
    whatWorks: Option<V>, frictionAnalysis: Option<V>, suggestions: Option<V>,
    onTheHorizon: Option<V>, notableMoment: Option<V>, funMoment: Option<V>)

  /** `minSy` (its key `is` is `iStyle` here); `empty` is the value `{}`. `fm` is `None` when both moments
      are falsy (the key is then dropped by `JSON.stringify`). */
  datatype MinSy<V> = MinSy(ag: V, pa: seq<V>, iStyle: V, ww: V, fa: V, su: V, oh: V, fm: Option<V>)

  const ProjectAreasKept: nat := 5

  function MinSynthesis<V>(sy: Synthesis<V>, empty: V): (m: MinSy<V>)
    ensures |m.pa| <= ProjectAreasKept
    ensures sy.projectAreas.Some? ==>
      && |m.pa| == (if |sy.projectAreas.value| < ProjectAreasKept then |sy.projectAreas.value| else ProjectAreasKept)
      && m.pa == sy.projectAreas.value[..|m.pa|]
    ensures sy.projectAreas.None? ==> m.pa == []
    ensures sy.notableMoment.Some? ==> m.fm == sy.notableMoment
    ensures sy.notableMoment.None? ==> m.fm == sy.funMoment
    ensures m.ag == sy.atAGlance.GetOr(empty) && m.iStyle == sy.interactionStyle.GetOr(empty)
    ensures m.ww == sy.whatWorks.GetOr(empty) && m.fa == sy.frictionAnalysis.GetOr(empty)
    ensures m.su == sy.suggestions.GetOr(empty) && m.oh == sy.onTheHorizon.GetOr(empty)
  {
    var areas := sy.projectAreas.GetOr([]);
    MinSy(
      sy.atAGlance.GetOr(empty),
      if |areas| <= ProjectAreasKept then areas else areas[..ProjectAreasKept],
      sy.interactionStyle.GetOr(empty), sy.whatWorks.GetOr(empty),
      sy.frictionAnalysis.GetOr(empty), sy.suggestions.GetOr(empty),
      sy.onTheHorizon.GetOr(empty),
      if sy.notableMoment.Some? then sy.notableMoment else sy.funMoment)
  }

  /** The synthesis whose sections are exactly those of `m`, the moment
      given as the notable one. */
  function Expand<V>(m: MinSy<V>): Synthesis<V> {
    Synthesis(Some(m.ag), Some(m.pa), Some(m.iStyle), Some(m.ww), Some(m.fa), Some(m.su), Some(m.oh),
              m.fm, None)
  }

  /** Minifying loses nothing of a synthesis that is already minimal: at
      most five project areas survive unchanged, and so does every other
      section and the moment. */
  lemma {:induction false} MinSynthesisExpand<V>(m: MinSy<V>, empty: V)
    requires |m.pa| <= ProjectAreasKept
    ensures MinSynthesis(Expand(m), empty) == m
  {
  }
}

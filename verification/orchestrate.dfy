/** One run of `orchestrate.js` (lines 26-138) over the files it keeps between
    runs. The scripts it spawns are the functions that model them: the
    statistics are what `aggregate-stats.js` produced, the transcripts are
    `PrepareSampling`, and the report is the cleaned statistics of
    `generate-report.js`. A run stops at the first pass that needs an agent
    and leaves a to-do for it; the agent answers through `save-facet.js` or
    by writing the synthesis, and the next run goes further. */
module Orchestrate {
  import opened Wrappers
  import opened Seqs
  import opened Session
  import opened Aggregate
  import opened Selection
  import opened Sampling
  import opened Facets
  import opened Report

  /** `state.json`: missing, present but not JSON, or parsed; a parsed
      `startTime` is `None` when it is missing or falsy. */
  datatype StateFile = NoState | Unparseable | Parsed(startTime: Option<int>)

  /** `TODO.json`: the transcripts of the sessions that need a facet, or
      the request for the global synthesis. */
  datatype Todo = ExtractFacets(sessions: seq<(string, string)>) | GlobalSynthesis

  /** What survives from one run to the next: the facet cache, the state
      file, the to-do file and whether `synthesis.json` exists. */
  datatype Cache = Cache(facets: Store, state: StateFile, todo: Option<Todo>, synthesis: bool)

  /** How a run ends: asking for facets, asking for the synthesis, or with
      the report data. */
  datatype Outcome =
    | NeedFacets(ids: seq<string>)
    | NeedSynthesis(qualitative: Qualitative)
    | Rendered(meta: Meta, report: Clean)

  datatype Step = Step(outcome: Outcome, cache: Cache)

  // ---------------------------------------------------------------------------
  // The state file

  /** The state file after lines 27-32: written with the clock reading
      `start` only when there was none; an existing file, whether it
      parses or not, is left as it is. */
  function StateAfterStart(state: StateFile, start: int): (r: StateFile)
    ensures state.NoState? ==> r == Parsed(Some(start))
    ensures !state.NoState? ==> r == state
  {
    if state.NoState? then Parsed(Some(start)) else state
  }

  /** Starting again never replaces a recorded start time. */
  lemma {:induction false} StartIdempotent(state: StateFile, t1: int, t2: int)
    ensures StateAfterStart(StateAfterStart(state, t1), t2) == StateAfterStart(state, t1)
  {
  }

  /** `state.startTime` in memory: the clock reading unless a state file
      parsed, then whatever it holds. */
  function StartTime(state: StateFile, start: int): Option<int> {
    match state
    case Parsed(t) => t
    case _ => Some(start)
  }

  /** `Date.now() - (state.startTime || Date.now())`, both readings of the
      clock taken as `end`. */
  function GenerationTime(startTime: Option<int>, end: int): (ms: int)
    ensures startTime.None? || startTime.value == 0 ==> ms == 0
    ensures startTime.Some? && startTime.value != 0 ==> ms + startTime.value == end
  {
    if startTime.Some? && startTime.value != 0 then end - startTime.value else 0
  }

  // ---------------------------------------------------------------------------
  // Pass 2: the facets

  /** Every top session has a cached facet file, readable or not. */
  predicate AllCached(top: seq<Summary>, store: Store) {
    forall s :: s in top ==> s.id in store
  }

  /** `topSessions.filter(s => !exists(facet of s))`. */
  function Missing(top: seq<Summary>, store: Store): (r: seq<Summary>)
    ensures forall s :: s in r <==> s in top && s.id !in store
    ensures IsSubseq(r, top) && |r| <= |top|
    ensures |r| == 0 <==> AllCached(top, store)
  {
    var keep := (s: Summary) => s.id !in store;
    var r := Filter(top, keep);
    FilterSubseq(top, keep);
    forall s
      ensures s in r <==> s in top && s.id !in store
    {
      FilterMultiplicity(top, keep, s);
      assert s in r <==> multiset(r)[s] > 0;
      assert s in top <==> multiset(top)[s] > 0;
    }
    r
  }

  /** `missing.map(s => s.id)`: exactly the ids of the top sessions that
      have no facet file, in top-session order. */
  function MissingIds(top: seq<Summary>, store: Store): (ids: seq<string>)
    ensures |ids| == |Missing(top, store)| <= |top|
    ensures forall i :: 0 <= i < |ids| ==> ids[i] == Missing(top, store)[i].id
    ensures forall id :: id in ids <==> exists s :: s in top && s.id == id && id !in store
  {
    var missing := Missing(top, store);
    var ids := seq(|missing|, i requires 0 <= i < |missing| => missing[i].id);
    forall id
      ensures id in ids <==> exists s :: s in top && s.id == id && id !in store
    {
      if id in ids {
        var i :| 0 <= i < |ids| && ids[i] == id;
        assert missing[i] in missing;
      }
      if exists s :: s in top && s.id == id && id !in store {
        var s :| s in top && s.id == id && id !in store;
        var i :| 0 <= i < |missing| && missing[i] == s;
        assert ids[i] == id;
      }
    }
    ids
  }

  /** The to-do entries: each missing session with its transcript, made by
      `prepare-sampling.js` with that session's id as the selection. */
  function FacetTodo(missing: seq<Summary>, list: seq<Summary>, disk: Disk): (r: seq<(string, string)>)
    ensures |r| == |missing|
    ensures forall i :: 0 <= i < |r| ==> r[i] == (missing[i].id, PrepareSampling(Some(missing[i].id), list, disk))
  {
    seq(|missing|, i requires 0 <= i < |missing| => (missing[i].id, PrepareSampling(Some(missing[i].id), list, disk)))
  }

  /** The facet of one session, if its file parses. */
  function LoadOne(store: Store, s: Summary): seq<Facet> {
    if s.id in store && store[s.id].Valid? then [store[s.id].facet] else []
  }

  /** Pass 3's `facets`: the readable facets of the top sessions, in their
      order; an unreadable file is dropped. */
  function Loaded(top: seq<Summary>, store: Store): (r: seq<Facet>)
    ensures |r| <= |top|
    ensures forall f :: f in r ==> exists s :: s in top && s.id in store && store[s.id] == Valid(f)
    ensures forall s :: s in top && s.id in store && store[s.id].Valid? ==> store[s.id].facet in r
    decreases |top|
  {
    if |top| == 0 then []
    else
      var init := top[..|top| - 1];
      var last := top[|top| - 1];
      var r := Loaded(init, store) + LoadOne(store, last);
      assert top == init + [last];
      r
  }

  // ---------------------------------------------------------------------------
  // One run

  /** The statistics record `generate-report.js` reads after pass 4. The
      median and average response times are left unset. */
  function ReportInput(f: Final, q: Qualitative, meta: Meta): StatsIn {
    StatsIn(
      Some(f.stats.msgs.totalMessages), Some(f.stats.analyzed), Some(f.stats.calls.linesAdded),
      Some(f.stats.calls.linesRemoved), Some(f.filesTouchedCount), Some(f.activeDays),
      Some(f.stats.calls.tools), Some(f.stats.calls.languages), Some(f.stats.calls.toolErrors),
      Some(f.stats.msgs.hourly), Some(f.stats.msgs.responseTimes), None, None,
      Some(f.multi), Some(q), Some(meta))
  }

  /** `run()`, given the statistics, the session files, and the clock read
      at the start (`start`) and in pass 4 (`end`). A run asks for facets
      exactly when some top session has no facet file, asks for the
      synthesis exactly when all have one but the synthesis is missing, and
      renders otherwise. The facet cache and the synthesis are never
      changed by the orchestrator itself; the state file and the to-do are
      cleared only by a run that renders. */
  function RunStep(cache: Cache, f: Final, disk: Disk, start: int, end: int): (r: Step)
    ensures r.cache.facets == cache.facets && r.cache.synthesis == cache.synthesis
    ensures r.outcome.NeedFacets? <==> !AllCached(TopSessions(f.stats.sessionList), cache.facets)
    ensures r.outcome.NeedSynthesis? <==>
      AllCached(TopSessions(f.stats.sessionList), cache.facets) && !cache.synthesis
    ensures !r.outcome.Rendered? ==> r.cache.state == StateAfterStart(cache.state, start) && r.cache.todo.Some?
    ensures r.outcome.Rendered? ==> r.cache.state == NoState && r.cache.todo.None?
  {
    var state := StateAfterStart(cache.state, start);
    var top := TopSessions(f.stats.sessionList);
    var missing := Missing(top, cache.facets);
    if |missing| > 0 then
      Step(NeedFacets(MissingIds(top, cache.facets)),
           cache.(state := state, todo := Some(ExtractFacets(FacetTodo(missing, f.stats.sessionList, disk)))))
    else
      var q := Tally(Loaded(top, cache.facets));
      if !cache.synthesis then
        Step(NeedSynthesis(q), cache.(state := state, todo := Some(GlobalSynthesis)))
      else
        var meta := Meta(GenerationTime(StartTime(cache.state, start), end), |top|,
                         f.stats.scanned, f.stats.analyzed);
        Step(Rendered(meta, CleanStats(ReportInput(f, q, meta))),
             cache.(state := NoState, todo := None))
  }

  /** A run that asks for facets names each top session without a facet
      file, at most 15 of them, and the to-do carries, for each, the
      transcript `prepare-sampling.js` makes for that id alone. */
  lemma {:induction false} FacetRequest(cache: Cache, f: Final, disk: Disk, start: int, end: int)
    requires RunStep(cache, f, disk, start, end).outcome.NeedFacets?
    ensures var r := RunStep(cache, f, disk, start, end);
      && 0 < |r.outcome.ids| <= TopCount
      && (forall id :: id in r.outcome.ids <==>
            exists s :: s in TopSessions(f.stats.sessionList) && s.id == id && id !in cache.facets)
      && r.cache.todo.value.ExtractFacets?
      && |r.cache.todo.value.sessions| == |r.outcome.ids|
      && (forall i :: 0 <= i < |r.outcome.ids| ==>
            r.cache.todo.value.sessions[i]
              == (r.outcome.ids[i], PrepareSampling(Some(r.outcome.ids[i]), f.stats.sessionList, disk)))
  {
  }

  /** A run that asks for the synthesis has tallied the readable facets of
      the top sessions, and its to-do asks for the synthesis. */
  lemma {:induction false} SynthesisRequest(cache: Cache, f: Final, disk: Disk, start: int, end: int)
    requires RunStep(cache, f, disk, start, end).outcome.NeedSynthesis?
    ensures var r := RunStep(cache, f, disk, start, end);
      && r.outcome.qualitative == Tally(Loaded(TopSessions(f.stats.sessionList), cache.facets))
      && r.cache.todo == Some(GlobalSynthesis)
  {
  }

  /** A run that renders reports how many sessions got a qualitative look
      (at most 15), the counts of the statistics, and the time since the
      recorded start; the report data carries the same numbers and the
      tallies of the readable facets. */
  lemma {:induction false} RenderedMeta(cache: Cache, f: Final, disk: Disk, start: int, end: int)
    requires RunStep(cache, f, disk, start, end).outcome.Rendered?
    ensures var r := RunStep(cache, f, disk, start, end);
      && r.outcome.meta.qualitativeSessionsAnalyzed == |TopSessions(f.stats.sessionList)| <= TopCount
      && r.outcome.meta.totalSessionsScanned == f.stats.scanned
      && r.outcome.meta.sessionsAnalyzedCount == f.stats.analyzed
      && r.outcome.meta.generationTimeMs == GenerationTime(StartTime(cache.state, start), end)
      && r.outcome.report.me == Some(Me(|TopSessions(f.stats.sessionList)|, r.outcome.meta.generationTimeMs))
      && r.outcome.report.ql == Some(Tally(Loaded(TopSessions(f.stats.sessionList), cache.facets)))
  {
  }

  // ---------------------------------------------------------------------------
  // Across runs

  /** The start time recorded by the first run of a report is the one the
      finishing run measures from, however many runs lie between; a run
      that found a state file it could not parse measures from its own
      start. */
  lemma {:induction false} StartTimeKept(cache: Cache, f: Final, disk: Disk, start: int, end: int,
                      later: Cache, f2: Final, disk2: Disk, start2: int, end2: int)
    requires cache.state.NoState? && start != 0
    requires !RunStep(cache, f, disk, start, end).outcome.Rendered?
    requires later.state == RunStep(cache, f, disk, start, end).cache.state
    requires RunStep(later, f2, disk2, start2, end2).outcome.Rendered?
    ensures RunStep(later, f2, disk2, start2, end2).outcome.meta.generationTimeMs == end2 - start
  {
    assert StartTime(later.state, start2) == Some(start);
    RenderedMeta(later, f2, disk2, start2, end2);
  }

  /** A sequence of separate `save-facet.js` calls, one per answer, each
      writing into the store the previous one left. No script batches
      them: this is a device for stating what the agent's saves achieve,
      and only its success case is used (by `AnsweredTodoProgresses`).
      A failure is reported as that of the first failing call. */
  function SaveAll(store: Store, answers: seq<(string, string)>, parse: string -> Option<Facet>)
    : (r: Result<Store, SaveError>)
    ensures r.Success? ==> store.Keys <= r.value.Keys
    ensures r.Success? ==> forall i :: 0 <= i < |answers| ==> answers[i].0 in r.value
    decreases |answers|
  {
    if |answers| == 0 then Success(store)
    else
      match SaveFacet(store, answers[0].0, answers[0].1, parse)
      case Failure(e) => Failure(e)
      case Success(next) =>
        assert forall i :: 1 <= i < |answers| ==> answers[i].0 == answers[1..][i - 1].0;
        SaveAll(next, answers[1..], parse)
  }

  /** When a run asks for facets and the agent saves one for every id it
      was given, the next run over the same statistics no longer asks for
      facets: the extraction pass cannot loop. */
  lemma {:induction false} AnsweredTodoProgresses(cache: Cache, f: Final, disk: Disk, start: int, end: int,
                               answers: seq<(string, string)>, parse: string -> Option<Facet>,
                               start2: int, end2: int)
    requires RunStep(cache, f, disk, start, end).outcome.NeedFacets?
    requires |answers| == |RunStep(cache, f, disk, start, end).outcome.ids|
    requires forall i :: 0 <= i < |answers| ==> answers[i].0 == RunStep(cache, f, disk, start, end).outcome.ids[i]
    requires SaveAll(cache.facets, answers, parse).Success?
    ensures !RunStep(cache.(facets := SaveAll(cache.facets, answers, parse).value), f, disk, start2, end2)
             .outcome.NeedFacets?
  {
    FacetRequest(cache, f, disk, start, end);
    var ids := RunStep(cache, f, disk, start, end).outcome.ids;
    var saved := SaveAll(cache.facets, answers, parse).value;
    var top := TopSessions(f.stats.sessionList);
    forall s | s in top
      ensures s.id in saved
    {
      if s.id !in cache.facets {
        assert s.id in ids;
        var i :| 0 <= i < |ids| && ids[i] == s.id;
        assert answers[i].0 == s.id;
      }
    }
  }

  /** A facet file that does not parse counts as present, so it is never
      asked for again, and it never reaches the tallies: the run goes on
      as if that session had no facet. */
  lemma {:induction false} CorruptFacetSkipped(top: seq<Summary>, store: Store, id: string)
    requires id in store && store[id].Corrupt?
    ensures forall s :: s in Missing(top, store) ==> s.id != id
    ensures forall fc :: fc in Loaded(top, store) ==>
      exists s :: s in top && s.id in store && s.id != id && store[s.id] == Valid(fc)
  {
  }
}

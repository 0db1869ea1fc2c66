/** The facet cache and what is computed from it: `save-facet.js`, which
    writes one facet per session id, and the qualitative tallies of
    `orchestrate.js` (lines 82-103), which count the loaded facets. */
module Facets {
  import opened Wrappers
  import opened Seqs
  import opened Counters
  import opened JsonExtract

  /** The fields of a facet object the tallies read; "" stands for a falsy
      field and `None` for a falsy `friction_counts`. */
  datatype Facet = Facet(
    outcome: string, helpfulness: string, sessionType: string, primarySuccess: string,
    frictionCounts: Option<Counts>)

  /** A cached facet file: one that parses, or one that does not. */
  datatype FacetFile = Valid(facet: Facet) | Corrupt

  /** The facet cache directory: the file `<id>.json` for each id present.
      The writer and the reader are taken to share one directory. */
  type Store = map<string, FacetFile>

  /** Why `save-facet.js` exits with status 1. */
  datatype SaveError = Usage | NoJson

  // ---------------------------------------------------------------------------
  // save-facet.js

  /** `node save-facet.js <sessionId> <jsonStr>`. Both arguments are needed;
      the facet is the first object `extractJson` finds in the text, and
      only the file of that one id is written. */
  function SaveFacet(store: Store, sessionId: string, jsonStr: string, parse: string -> Option<Facet>)
    : (r: Result<Store, SaveError>)
    ensures sessionId == "" || jsonStr == "" ==> r == Failure(Usage)
    ensures sessionId != "" && jsonStr != "" && ExtractJson(jsonStr, parse).None? ==> r == Failure(NoJson)
    ensures r.Success? <==> sessionId != "" && jsonStr != "" && ExtractJson(jsonStr, parse).Some?
    ensures r.Success? ==> r.value.Keys == store.Keys + {sessionId}
    ensures r.Success? ==> r.value[sessionId] == Valid(ExtractJson(jsonStr, parse).value)
    ensures r.Success? ==> forall id :: id in store && id != sessionId ==> r.value[id] == store[id]
  {
    if sessionId == "" || jsonStr == "" then Failure(Usage)
    else
      match ExtractJson(jsonStr, parse)
      case None => Failure(NoJson)
      case Some(data) => Success(store[sessionId := Valid(data)])
  }

  /** Saving again under the same id replaces the earlier facet: the last
      write wins, whatever was stored before. */
  lemma {:induction false} LastWriteWins(store: Store, id: string, first: string, second: string, parse: string -> Option<Facet>)
    requires SaveFacet(store, id, first, parse).Success?
    requires SaveFacet(store, id, second, parse).Success?
    ensures SaveFacet(SaveFacet(store, id, first, parse).value, id, second, parse)
         == SaveFacet(store, id, second, parse)
  {
    var v := Valid(ExtractJson(second, parse).value);
    var once := SaveFacet(store, id, first, parse).value;
    assert SaveFacet(once, id, second, parse) == Success(once[id := v]);
    assert SaveFacet(store, id, second, parse) == Success(store[id := v]);
    assert once[id := v] == store[id := v];
  }

  // ---------------------------------------------------------------------------
  // The qualitative tallies

  /** `stats.qualitative`. */
  datatype Qualitative = Qualitative(
    outcomes: Counts, satisfaction: Counts, sessionTypes: Counts, frictionTypes: Counts, successTypes: Counts)

  const EmptyTallies := Qualitative([], [], [], [], [])

  /** `if (f.x) t[f.x] = (t[f.x] || 0) + 1`. */
  function CountField(t: Counts, value: string): (r: Counts)
    ensures forall k :: Get(r, k) == Get(t, k) + (if value != "" && k == value then 1 else 0)
    ensures Total(r) == Total(t) + (if value != "" then 1 else 0)
    ensures Distinct(t) ==> Distinct(r)
  {
    if value != "" then Bump(t, value, 1) else t
  }

  /** The friction counts of a facet, added key by key. */
  function AddFriction(t: Counts, f: Facet): (r: Counts)
    ensures forall k :: Get(r, k) == Get(t, k) + FrictionOf(f, k)
    ensures Distinct(t) ==> Distinct(r)
  {
    match f.frictionCounts
    case None => t
    case Some(c) => AddAll(t, c)
  }

  /** What one facet adds to the friction count of `k`. */
  function FrictionOf(f: Facet, k: string): int {
    match f.frictionCounts
    case None => 0
    case Some(c) => Get(c, k)
  }

  /** The body of `facets.forEach`. */
  function TallyOne(q: Qualitative, f: Facet): Qualitative {
    Qualitative(
      CountField(q.outcomes, f.outcome),
      CountField(q.satisfaction, f.helpfulness),
      CountField(q.sessionTypes, f.sessionType),
      AddFriction(q.frictionTypes, f),
      CountField(q.successTypes, f.primarySuccess))
  }

  /** The tallies after `facets.forEach`, starting from empty counters. */
  function Tally(facets: seq<Facet>): Qualitative
    decreases |facets|
  {
    if |facets| == 0 then EmptyTallies
    else TallyOne(Tally(facets[..|facets| - 1]), facets[|facets| - 1])
  }

  /** 1 when the facet's field holds `k`, an empty field holding nothing. */
  function Has(value: string, k: string): int {
    if value != "" && value == k then 1 else 0
  }

  function OutcomeIs(k: string): Facet -> int { (f: Facet) => Has(f.outcome, k) }
  function HelpfulnessIs(k: string): Facet -> int { (f: Facet) => Has(f.helpfulness, k) }
  function SessionTypeIs(k: string): Facet -> int { (f: Facet) => Has(f.sessionType, k) }
  function SuccessIs(k: string): Facet -> int { (f: Facet) => Has(f.primarySuccess, k) }
  function FrictionFor(k: string): Facet -> int { (f: Facet) => FrictionOf(f, k) }

  /** Each tally entry is the number of facets whose field holds that value;
      each friction entry is the sum of that type's counts over the facets. */
  lemma {:induction false} TallyCounts(facets: seq<Facet>, k: string)
    ensures Get(Tally(facets).outcomes, k) == SumBy(facets, OutcomeIs(k))
    ensures Get(Tally(facets).satisfaction, k) == SumBy(facets, HelpfulnessIs(k))
    ensures Get(Tally(facets).sessionTypes, k) == SumBy(facets, SessionTypeIs(k))
    ensures Get(Tally(facets).successTypes, k) == SumBy(facets, SuccessIs(k))
    ensures Get(Tally(facets).frictionTypes, k) == SumBy(facets, FrictionFor(k))
    decreases |facets|
  {
    if |facets| > 0 {
      var init := facets[..|facets| - 1];
      var last := facets[|facets| - 1];
      assert facets == init + [last];
      TallyCounts(init, k);
      SumBySnoc(init, last, OutcomeIs(k));
      SumBySnoc(init, last, HelpfulnessIs(k));
      SumBySnoc(init, last, SessionTypeIs(k));
      SumBySnoc(init, last, SuccessIs(k));
      SumBySnoc(init, last, FrictionFor(k));
    }
  }

  /** The tallies do not depend on the order the facets come in: every
      counter reads the same under every key. */
  lemma {:induction false} TallyOrderFree(a: seq<Facet>, b: seq<Facet>, k: string)
    requires multiset(a) == multiset(b)
    ensures Get(Tally(a).outcomes, k) == Get(Tally(b).outcomes, k)
    ensures Get(Tally(a).satisfaction, k) == Get(Tally(b).satisfaction, k)
    ensures Get(Tally(a).sessionTypes, k) == Get(Tally(b).sessionTypes, k)
    ensures Get(Tally(a).successTypes, k) == Get(Tally(b).successTypes, k)
    ensures Get(Tally(a).frictionTypes, k) == Get(Tally(b).frictionTypes, k)
  {
    TallyCounts(a, k);
    TallyCounts(b, k);
    SumByPerm(a, b, OutcomeIs(k));
    SumByPerm(a, b, HelpfulnessIs(k));
    SumByPerm(a, b, SessionTypeIs(k));
    SumByPerm(a, b, SuccessIs(k));
    SumByPerm(a, b, FrictionFor(k));
  }

  /** The number of facets whose field is truthy. */
  function Present(facets: seq<Facet>, field: Facet -> string): nat {
    if |facets| == 0 then 0
    else Present(facets[..|facets| - 1], field) + (if field(facets[|facets| - 1]) != "" then 1 else 0)
  }

  function OutcomeField(f: Facet): string { f.outcome }

  /** The outcome counts add up to the number of facets with an outcome,
      and no key is listed twice. */
  lemma {:induction false} TallyTotals(facets: seq<Facet>)
    ensures Total(Tally(facets).outcomes) == Present(facets, OutcomeField)
    ensures Distinct(Tally(facets).outcomes) && Distinct(Tally(facets).frictionTypes)
    decreases |facets|
  {
    if |facets| > 0 {
      TallyTotals(facets[..|facets| - 1]);
    }
  }
}

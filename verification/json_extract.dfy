/** The tolerant JSON extractor of `utils.js` (`extractJson`).

    The scanner walks the text once, keeping a brace depth and the index
    where the current top-level `{` opened. Whenever a `}` brings the depth
    back to 0 it hands the span to `JSON.parse`; the first span that parses
    is the result, and a span that fails is skipped. The scanner counts
    every brace, including braces inside JSON string literals, and lets the
    depth go negative on a stray `}`; both quirks are kept here.

    `JSON.parse` itself is not modelled: it is the parameter `parse`, an
    arbitrary partial function from text to a value (`None` = it throws). */
module JsonExtract {
  import opened Wrappers

  /** How a character moves the depth. */
  function Step(c: char): int {
    if c == '{' then 1 else if c == '}' then -1 else 0
  }

  /** The depth after scanning the first `k` characters of `s`. */
  function DepthAt(s: string, k: nat): int
    requires k <= |s|
  {
    if k == 0 then 0 else DepthAt(s, k - 1) + Step(s[k - 1])
  }

  /** `s[a..b]` (inclusive) is a span the scanner hands to `JSON.parse`:
      it opens with a `{` read at depth 0, closes with the `}` that brings
      the depth back to 0, and the depth stays positive in between. */
  ghost predicate Span(s: string, a: int, b: int) {
    && 0 <= a < b < |s|
    && s[a] == '{' && DepthAt(s, a) == 0
    && s[b] == '}' && DepthAt(s, b + 1) == 0
    && forall k :: a < k <= b ==> DepthAt(s, k) >= 1
  }

  /** The text of the span `[a, b]`. */
  function SpanText(s: string, a: int, b: int): string
    requires 0 <= a <= b < |s|
  {
    s[a..b + 1]
  }

  /** `[a, b]` is the first span (in scanning order) whose text parses. */
  ghost predicate FirstParsed<J>(s: string, parse: string -> Option<J>, a: int, b: int) {
    && Span(s, a, b)
    && parse(SpanText(s, a, b)).Some?
    && forall a', b' :: Span(s, a', b') && b' < b ==> parse(SpanText(s, a', b')).None?
  }

  /** The scanning loop from index `i`, with the current `depth` and the
      index `start` of the last top-level `{` (-1 before the first one). */
  function Scan<J>(s: string, parse: string -> Option<J>, i: nat, depth: int, start: int): Option<J>
    requires i <= |s|
    requires -1 <= start < i || start == -1
    decreases |s| - i
  {
    if i == |s| then None
    else if s[i] == '{' then
      Scan(s, parse, i + 1, depth + 1, if depth == 0 then i else start)
    else if s[i] == '}' then
      if depth - 1 == 0 && start != -1 then
        match parse(SpanText(s, start, i))
        case Some(v) => Some(v)
        case None => Scan(s, parse, i + 1, depth - 1, start)
      else
        Scan(s, parse, i + 1, depth - 1, start)
    else
      Scan(s, parse, i + 1, depth, start)
  }

  /** `extractJson(str)`: `null` for an empty (or absent) input, otherwise
      the first balanced span that parses, or `null` when none does. */
  function ExtractJson<J>(s: string, parse: string -> Option<J>): (r: Option<J>)
    ensures r.Some? ==> exists a, b :: FirstParsed(s, parse, a, b) && r == parse(SpanText(s, a, b))
    ensures r.None? ==> forall a, b :: Span(s, a, b) ==> parse(SpanText(s, a, b)).None?
  {
    if |s| == 0 then None
    else
      ScanSpec(s, parse, 0, 0, -1);
      Scan(s, parse, 0, 0, -1)
  }

  /** What the scanner knows when it reaches index `i`. */
  ghost predicate ScanInvariant<J>(s: string, parse: string -> Option<J>, i: nat, depth: int, start: int)
    requires i <= |s|
  {
    && depth == DepthAt(s, i)
    && (-1 <= start < i || start == -1)
    && (depth >= 1 ==>
          && 0 <= start < i && s[start] == '{' && DepthAt(s, start) == 0
          && forall k :: start < k <= i ==> DepthAt(s, k) >= 1)
    && forall a, b :: Span(s, a, b) && b < i ==> parse(SpanText(s, a, b)).None?
  }

  /** Two spans never close at the same `}`. */
  lemma {:induction false} SpanEndUnique(s: string, a: int, a': int, b: int)
    requires Span(s, a, b) && Span(s, a', b)
    ensures a == a'
  {
    assert DepthAt(s, a) == 0 && DepthAt(s, a') == 0;
  }

  /** The scanner, run from a state satisfying the invariant, returns the
      first parsing span that closes at or after `i`. */
  lemma {:induction false} ScanSpec<J>(s: string, parse: string -> Option<J>, i: nat, depth: int, start: int)
    requires i <= |s|
    requires ScanInvariant(s, parse, i, depth, start)
    ensures var r := Scan(s, parse, i, depth, start);
      && (r.Some? ==> exists a, b :: FirstParsed(s, parse, a, b) && r == parse(SpanText(s, a, b)))
      && (r.None? ==> forall a, b :: Span(s, a, b) ==> parse(SpanText(s, a, b)).None?)
    decreases |s| - i
  {
    if i == |s| {
      return;
    }
    if FoundAt(s, parse, i, depth, start) {
      CloseFound(s, parse, i, depth, start);
    } else {
      var next := Next(s, i, depth, start);
      Advance(s, parse, i, depth, start);
      ScanSpec(s, parse, i + 1, next.0, next.1);
    }
  }

  /** The character at `i` is a `}` that closes a span whose text parses. */
  predicate FoundAt<J>(s: string, parse: string -> Option<J>, i: nat, depth: int, start: int)
    requires i < |s|
    requires -1 <= start < i
  {
    s[i] == '}' && depth - 1 == 0 && start != -1 && parse(SpanText(s, start, i)).Some?
  }

  /** The depth and opening index after reading the character at `i`. */
  function Next(s: string, i: nat, depth: int, start: int): (int, int)
    requires i < |s|
  {
    if s[i] == '{' then (depth + 1, if depth == 0 then i else start)
    else if s[i] == '}' then (depth - 1, start)
    else (depth, start)
  }

  /** A step that does not find a result moves the scanner to the next
      state and keeps the invariant. */
  lemma {:induction false} Advance<J>(s: string, parse: string -> Option<J>, i: nat, depth: int, start: int)
    requires i < |s|
    requires ScanInvariant(s, parse, i, depth, start)
    requires !FoundAt(s, parse, i, depth, start)
    ensures var next := Next(s, i, depth, start);
      && (-1 <= next.1 < i + 1)
      && Scan(s, parse, i, depth, start) == Scan(s, parse, i + 1, next.0, next.1)
      && ScanInvariant(s, parse, i + 1, next.0, next.1)
  {
    if s[i] == '}' {
      CloseSkipped(s, parse, i, depth, start);
    } else {
      NoSpanEndsAt(s, parse, i, depth, start);
    }
  }

  /** A `}` that closes a span whose text parses ends the scan with the
      first parsing span. */
  lemma {:induction false} CloseFound<J>(s: string, parse: string -> Option<J>, i: nat, depth: int, start: int)
    requires i < |s|
    requires ScanInvariant(s, parse, i, depth, start)
    requires FoundAt(s, parse, i, depth, start)
    ensures Scan(s, parse, i, depth, start) == parse(SpanText(s, start, i))
    ensures FirstParsed(s, parse, start, i)
  {
    assert DepthAt(s, i + 1) == depth + Step(s[i]);
  }

  /** Any other `}` keeps the invariant: a span it closes is the one that
      opened at `start`, and that one did not parse. */
  lemma {:induction false} CloseSkipped<J>(s: string, parse: string -> Option<J>, i: nat, depth: int, start: int)
    requires i < |s| && s[i] == '}'
    requires ScanInvariant(s, parse, i, depth, start)
    requires !FoundAt(s, parse, i, depth, start)
    ensures ScanInvariant(s, parse, i + 1, depth - 1, start)
  {
    assert DepthAt(s, i + 1) == depth + Step(s[i]);
    forall a | Span(s, a, i)
      ensures parse(SpanText(s, a, i)).None?
    {
      assert depth == 1;
      SpanEndUnique(s, a, start, i);
    }
  }

  /** Reading a character other than `}` keeps the invariant's span facts. */
  lemma {:induction false} NoSpanEndsAt<J>(s: string, parse: string -> Option<J>, i: nat, depth: int, start: int)
    requires i < |s| && s[i] != '}'
    requires ScanInvariant(s, parse, i, depth, start)
    ensures ScanInvariant(s, parse, i + 1, depth + Step(s[i]),
                          if s[i] == '{' && depth == 0 then i else start)
  {
    assert DepthAt(s, i + 1) == depth + Step(s[i]);
  }

  /** A text that is exactly one balanced object yields that object when it
      parses, nested objects included: the scanner only records the opening
      index at depth 0, so inner objects never start a span. */
  lemma {:induction false} WholeObject<J>(o: string, parse: string -> Option<J>)
    requires Span(o, 0, |o| - 1)
    requires parse(o).Some?
    ensures ExtractJson(o, parse) == parse(o)
  {
    assert SpanText(o, 0, |o| - 1) == o;
    forall a', b' | Span(o, a', b')
      ensures b' == |o| - 1
    {
      assert DepthAt(o, b' + 1) == 0;
    }
    assert FirstParsed(o, parse, 0, |o| - 1);
    var r := ExtractJson(o, parse);
    assert r.Some?;
    var a, b :| FirstParsed(o, parse, a, b) && r == parse(SpanText(o, a, b));
    SpanEndUnique(o, a, 0, b);
  }

  predicate BraceFree(p: string) {
    forall i :: 0 <= i < |p| ==> p[i] != '{' && p[i] != '}'
  }

  lemma {:induction false} DepthAfterBraceFree(p: string, o: string, q: string, k: nat)
    requires BraceFree(p) && k <= |o|
    ensures DepthAt(p + o + q, |p| + k) == DepthAt(o, k)
    decreases k
  {
    var s := p + o + q;
    if k == 0 {
      BraceFreeDepth(s, |p|);
    } else {
      DepthAfterBraceFree(p, o, q, k - 1);
      assert s[|p| + k - 1] == o[k - 1];
    }
  }

  lemma {:induction false} BraceFreeDepth(s: string, n: nat)
    requires n <= |s|
    requires forall i :: 0 <= i < n ==> s[i] != '{' && s[i] != '}'
    ensures DepthAt(s, n) == 0
    decreases n
  {
    if n > 0 {
      BraceFreeDepth(s, n - 1);
    }
  }

  /** Prose before the object (a greeting, an opening markdown fence) and
      anything after it (a closing fence, a second object) do not change the
      result: the extractor returns the object itself. */
  lemma {:induction false} SurroundedObject<J>(p: string, o: string, q: string, parse: string -> Option<J>)
    requires BraceFree(p)
    requires Span(o, 0, |o| - 1)
    requires parse(o).Some?
    ensures ExtractJson(p + o + q, parse) == parse(o)
  {
    var s := p + o + q;
    var a, b := |p|, |p| + |o| - 1;
    forall k | 0 <= k <= |o|
      ensures DepthAt(s, |p| + k) == DepthAt(o, k)
    {
      DepthAfterBraceFree(p, o, q, k);
    }
    assert SpanText(s, a, b) == o by {
      assert s[a..b + 1] == (p + o + q)[|p|..|p| + |o|];
    }
    assert Span(s, a, b) by {
      assert s[a] == o[0] && s[b] == o[|o| - 1];
      forall k | a < k <= b
        ensures DepthAt(s, k) >= 1
      {
        assert DepthAt(s, |p| + (k - |p|)) == DepthAt(o, k - |p|);
      }
    }
    assert forall i :: 0 <= i < |p| ==> s[i] == p[i];
    forall a', b' | Span(s, a', b')
      ensures b' >= b
    {
      assert b' >= |p|;
      if b' + 1 - |p| <= |o| {
        assert DepthAt(s, |p| + (b' + 1 - |p|)) == DepthAt(o, b' + 1 - |p|);
      }
    }
    assert FirstParsed(s, parse, a, b);
    var r := ExtractJson(s, parse);
    assert r.Some?;
    var a2, b2 :| FirstParsed(s, parse, a2, b2) && r == parse(SpanText(s, a2, b2));
    assert b2 == b;
    SpanEndUnique(s, a2, a, b);
  }

  /** A text without any `}` never yields a value: an unterminated object
      (`{"f":5`) is rejected. */
  lemma {:induction false} NoClosingBrace<J>(s: string, parse: string -> Option<J>)
    requires forall i :: 0 <= i < |s| ==> s[i] != '}'
    ensures ExtractJson(s, parse) == None
  {
    assert forall a, b :: !Span(s, a, b);
  }

  /** Braces inside JSON string literals are counted. In the object
      `{` + x + `}` + z + `}`, where x opens a string literal and z closes
      it (so the first `}` is quoted, as in `{"a":"}"}`), the quoted `}`
      closes the only span, `{` + x + `}`; when that text does not parse,
      the final `}` only drives the depth to -1 and nothing is found. */
  lemma {:induction false} BraceInStringLiteral<J>(x: string, z: string, parse: string -> Option<J>)
    requires BraceFree(x) && BraceFree(z)
    ensures var s := "{" + x + "}" + z + "}";
      && Span(s, 0, |x| + 1)
      && (forall a, b :: Span(s, a, b) ==> a == 0 && b == |x| + 1)
      && (parse("{" + x + "}").None? ==> ExtractJson(s, parse) == None)
  {
    var s := "{" + x + "}" + z + "}";
    var e := |x| + 1;
    assert DepthAt(s, 1) == 1;
    FlatDepth(s, 1, e);
    assert DepthAt(s, e + 1) == 0;
    FlatDepth(s, e + 1, |s| - 1);
    assert DepthAt(s, |s|) == -1;
    forall k | 0 < k <= e
      ensures DepthAt(s, k) >= 1
    {
      FlatDepth(s, 1, k);
    }
    assert Span(s, 0, e);
    forall a, b | Span(s, a, b)
      ensures a == 0 && b == e
    {
    }
    assert SpanText(s, 0, e) == "{" + x + "}";
  }

  /** Characters other than braces leave the depth alone. */
  lemma {:induction false} FlatDepth(s: string, i: nat, j: nat)
    requires i <= j <= |s|
    requires forall k :: i <= k < j ==> s[k] != '{' && s[k] != '}'
    ensures DepthAt(s, j) == DepthAt(s, i)
    decreases j - i
  {
    if i < j {
      FlatDepth(s, i, j - 1);
    }
  }
}

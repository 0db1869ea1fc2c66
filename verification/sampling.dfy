/** `prepare-sampling.js`: for each selected session, a transcript of a few
    of its messages (the first eight, the last six and every message with a
    failed tool call), in timestamp order, each as a role-labelled line of
    cleaned text followed by one line per failed tool call. */
module Sampling {
  import opened Wrappers
  import opened Seqs
  import opened Text
  import opened Ranking
  import opened Session
  import opened Aggregate
  import opened Selection

  /** `.slice(0, 4000)` on cleaned content. */
  const MaxContent: nat := 4000
  /** `messages.slice(0, 8)`. */
  const HeadCount: nat := 8
  /** `messages.slice(-6)`. */
  const TailCount: nat := 6

  // ---------------------------------------------------------------------------
  // cleanContent

  /** One element of an array-valued `content`. A falsy `text` under type
      `text` is returned as is, and `join` prints it as the empty string. */
  function RenderItem(p: ContentItem): string {
    match p
    case StrItem(s) => s
    case ObjItem(text, kind) =>
      if text != "" then text
      else if kind == "text" then text
      else "[" + (if kind != "" then kind else "unknown") + "]"
  }

  /** One element of `msg.parts`. */
  function RenderPart(p: Part): string {
    if p.text != "" then p.text
    else if p.functionCall.Some? then "[CALL: " + p.functionCall.value + "]"
    else if p.functionResponse.Some? then "[RESPONSE: " + p.functionResponse.value + "]"
    else "[PART]"
  }

  function RenderItems(items: seq<ContentItem>): (r: seq<string>)
    ensures |r| == |items| && forall k :: 0 <= k < |items| ==> r[k] == RenderItem(items[k])
  {
    seq(|items|, k requires 0 <= k < |items| => RenderItem(items[k]))
  }

  function RenderParts(parts: seq<Part>): (r: seq<string>)
    ensures |r| == |parts| && forall k :: 0 <= k < |parts| ==> r[k] == RenderPart(parts[k])
  {
    seq(|parts|, k requires 0 <= k < |parts| => RenderPart(parts[k]))
  }

  /** `msg.content || msg.text || ''`, with `Absent` for the final `''`. */
  function Chosen(msg: Message): Content {
    if Truthy(msg.content) then msg.content
    else if Truthy(msg.text) then msg.text
    else Absent
  }

  /** The text the rendering starts from, before the cut at 4000 characters:
      a string as is, an array's rendered elements joined by newlines, for
      any other value the rendered parts joined by newlines, and nothing
      when there are no parts. */
  function Uncut(msg: Message): string {
    match Chosen(msg)
    case Absent => ""
    case Str(s) => s
    case List(items) => Join(RenderItems(items), "\n")
    case OtherValue => if msg.parts.Some? then Join(RenderParts(msg.parts.value), "\n") else ""
  }

  /** `cleanContent(msg)`: always at most 4000 characters, and the start of
      the uncut rendering, cut only when that is longer. */
  function CleanContent(msg: Message): (r: string)
    ensures |r| <= MaxContent
    ensures StartsWith(Uncut(msg), r)
    ensures |r| == Min(|Uncut(msg)|, MaxContent)
    ensures !Truthy(msg.content) && !Truthy(msg.text) ==> r == ""
  {
    match Chosen(msg)
    case Absent => ""
    case Str(s) => Prefix(s, MaxContent)
    case List(items) => Prefix(Join(RenderItems(items), "\n"), MaxContent)
    case OtherValue => if msg.parts.Some? then Prefix(Join(RenderParts(msg.parts.value), "\n"), MaxContent) else ""
  }

  /** The parts are read only when the chosen content is neither a string
      nor an array. */
  lemma {:induction false} PartsOnlyForOtherValues(msg: Message, parts: Option<seq<Part>>)
    requires !Chosen(msg).OtherValue?
    ensures CleanContent(msg.(parts := parts)) == CleanContent(msg)
  {
    assert Chosen(msg.(parts := parts)) == Chosen(msg);
  }

  /** When nothing is cut, every element of an array-valued content shows up
      whole in the cleaned text. */
  lemma {:induction false} ItemsShown(msg: Message, k: nat)
    requires Chosen(msg).List? && k < |Chosen(msg).items|
    requires |Uncut(msg)| <= MaxContent
    ensures Contains(CleanContent(msg), RenderItem(Chosen(msg).items[k]))
  {
    JoinContains(RenderItems(Chosen(msg).items), "\n", k);
  }

  /** When nothing is cut, every part shows up whole in the cleaned text. */
  lemma {:induction false} PartsShown(msg: Message, k: nat)
    requires Chosen(msg).OtherValue? && msg.parts.Some? && k < |msg.parts.value|
    requires |Uncut(msg)| <= MaxContent
    ensures Contains(CleanContent(msg), RenderPart(msg.parts.value[k]))
  {
    JoinContains(RenderParts(msg.parts.value), "\n", k);
  }

  // ---------------------------------------------------------------------------
  // Choosing the messages

  /** The indices `lo, lo + 1, …, hi - 1`. */
  function Range(lo: nat, hi: nat): (r: seq<nat>)
    ensures |r| == if lo <= hi then hi - lo else 0
    ensures forall k :: 0 <= k < |r| ==> r[k] == lo + k
    decreases hi - lo
  {
    if lo >= hi then [] else [lo] + Range(lo + 1, hi)
  }

  /** The indices, from `from` on, of the messages with a failed tool call,
      in order (`messages.filter(m => m.toolCalls.some(…))`). */
  function ErrorIndices(msgs: seq<Message>, from: nat): (r: seq<nat>)
    requires from <= |msgs|
    ensures |r| <= |msgs| - from
    ensures forall i :: i in r <==> from <= i < |msgs| && HasError(msgs[i])
    decreases |msgs| - from
  {
    if from == |msgs| then []
    else (if HasError(msgs[from]) then [from] else []) + ErrorIndices(msgs, from + 1)
  }

  predicate NoRepeats(s: seq<nat>) {
    forall a, b :: 0 <= a < b < |s| ==> s[a] != s[b]
  }

  /** `Array.from(new Set(s))`: the first occurrence of every element, in order. */
  function Dedup(s: seq<nat>): (r: seq<nat>)
    ensures forall x :: x in r <==> x in s
    ensures NoRepeats(r)
    ensures |r| <= |s|
  {
    if |s| == 0 then []
    else
      var init := s[..|s| - 1];
      var last := s[|s| - 1];
      assert s == init + [last];
      var p := Dedup(init);
      if last in init then p else p + [last]
  }

  /** `new Date(m.timestamp || 0)` in milliseconds. A timestamp that does
      not parse gives NaN, which the comparator cannot order; it is taken as
      0 here. */
  function SortKey(m: Message): int {
    if m.timestamp.text == "" then 0 else m.timestamp.ms.GetOr(0)
  }

  /** The key of the message at index `i`. */
  function KeyAt(msgs: seq<Message>, i: nat): int {
    if i < |msgs| then SortKey(msgs[i]) else 0
  }

  function KeyOf(msgs: seq<Message>): nat -> int {
    (i: nat) => KeyAt(msgs, i)
  }

  lemma {:induction false} RangeMember(lo: nat, hi: nat, i: nat)
    ensures i in Range(lo, hi) <==> lo <= i < hi
  {
    if lo <= i < hi {
      assert Range(lo, hi)[i - lo] == i;
    }
  }

  /** The indices `new Set([...start, ...errors, ...end])` holds, in
      insertion order: the first 8, the failed ones and the last 6, each once. */
  function Combined(msgs: seq<Message>): (c: seq<nat>)
    ensures forall i: nat :: i in c <==> i < |msgs| && (i < HeadCount || i + TailCount >= |msgs| || HasError(msgs[i]))
    ensures NoRepeats(c)
    ensures |c| <= HeadCount + TailCount + |ErrorIndices(msgs, 0)|
  {
    var n := |msgs|;
    var headEnd := if n < HeadCount then n else HeadCount;
    var tailStart := if n < TailCount then 0 else n - TailCount;
    var errors := ErrorIndices(msgs, 0);
    var all := Range(0, headEnd) + errors + Range(tailStart, n);
    forall i: nat
      ensures i in all <==> i < n && (i < HeadCount || i + TailCount >= n || HasError(msgs[i]))
    {
      RangeMember(0, headEnd, i);
      RangeMember(tailStart, n, i);
    }
    Dedup(all)
  }

  /** The sampled messages, as indices into `msgs`: the combined indices
      sorted by timestamp, each once, with no other index. */
  function Sample(msgs: seq<Message>): (r: seq<nat>)
    ensures forall i: nat :: i in r <==> i < |msgs| && (i < HeadCount || i + TailCount >= |msgs| || HasError(msgs[i]))
    ensures forall k :: 0 <= k < |r| ==> r[k] < |msgs|
    ensures NoRepeats(r)
    ensures |r| <= HeadCount + TailCount + |ErrorIndices(msgs, 0)|
    ensures forall a, b :: 0 <= a < b < |r| ==> SortKey(msgs[r[a]]) <= SortKey(msgs[r[b]])
  {
    var c := Combined(msgs);
    var r := SortBy(c, KeyOf(msgs));
    PermFacts(c, r);
    assert forall k :: 0 <= k < |r| ==> r[k] in c;
    SortedKeys(msgs, r);
    r
  }

  lemma {:induction false} SortedKeys(msgs: seq<Message>, r: seq<nat>)
    requires SortedBy(r, KeyOf(msgs))
    requires forall k :: 0 <= k < |r| ==> r[k] < |msgs|
    ensures forall a, b :: 0 <= a < b < |r| ==> SortKey(msgs[r[a]]) <= SortKey(msgs[r[b]])
  {
    forall a, b | 0 <= a < b < |r|
      ensures SortKey(msgs[r[a]]) <= SortKey(msgs[r[b]])
    {
      assert KeyOf(msgs)(r[a]) <= KeyOf(msgs)(r[b]);
    }
  }

  /** A reordering keeps the elements and the absence of repeats. */
  lemma {:induction false} PermFacts(c: seq<nat>, r: seq<nat>)
    requires multiset(c) == multiset(r) && NoRepeats(c)
    ensures forall x :: x in r <==> x in c
    ensures NoRepeats(r) && |r| == |c|
  {
    assert |r| == |multiset(r)| == |multiset(c)| == |c|;
    forall x ensures x in r <==> x in c {
      assert x in r <==> x in multiset(r);
      assert x in c <==> x in multiset(c);
    }
    forall a, b | 0 <= a < b < |r| ensures r[a] != r[b] {
      DistinctPerm(c, r, a, b);
    }
  }

  /** A reordering of a sequence without repeats has no repeats. */
  lemma {:induction false} DistinctPerm(s: seq<nat>, t: seq<nat>, a: nat, b: nat)
    requires NoRepeats(s) && multiset(s) == multiset(t)
    requires a < b < |t|
    ensures t[a] != t[b]
  {
    if t[a] == t[b] {
      var x := t[a];
      assert t == t[..b] + [x] + t[b + 1..];
      assert x in t[..b];
      assert multiset(t)[x] >= 2;
      DistinctCount(s, x);
      assert false;
    }
  }

  lemma {:induction false} DistinctCount(s: seq<nat>, x: nat)
    requires NoRepeats(s)
    ensures multiset(s)[x] <= 1
    decreases |s|
  {
    if |s| > 0 {
      assert s == [s[0]] + s[1..];
      DistinctCount(s[1..], x);
      if s[0] == x {
        assert x !in s[1..];
      }
    }
  }

  /** Messages with equal keys keep the order in which the three groups
      listed them: the sort is stable. */
  lemma {:induction false} SampleTies(msgs: seq<Message>, v: int)
    ensures WithKey(Sample(msgs), KeyOf(msgs), v) == WithKey(Combined(msgs), KeyOf(msgs), v)
  {
    SortByStable(Combined(msgs), KeyOf(msgs), v);
  }

  // ---------------------------------------------------------------------------
  // The transcript

  /** `msg.type === 'gemini' ? 'ASSISTANT' : (msg.type || 'USER').toUpperCase()`. */
  function Role(kind: string): string {
    if kind == "gemini" then "ASSISTANT" else ToUpper(if kind != "" then kind else "USER")
  }

  /** `${call.resultDisplay}`: a missing value prints as `undefined`. */
  function Display(v: Option<string>): string {
    match v
    case None => "undefined"
    case Some(s) => s
  }

  function ErrorLine(call: ToolCall): string {
    "[TOOL_ERROR] " + call.name + ": " + Display(call.resultDisplay) + "\n\n"
  }

  /** One line per failed tool call, in call order: the error lines of the
      failed calls, joined, and nothing else. */
  function ErrorLines(calls: seq<ToolCall>): (r: string)
    ensures r == "" <==> forall k :: 0 <= k < |calls| ==> !IsError(calls[k])
    ensures forall k :: 0 <= k < |calls| && IsError(calls[k]) ==> Contains(r, ErrorLine(calls[k]))
    ensures r == ConcatMap(Filter(calls, IsError), ErrorLine)
  {
    if |calls| == 0 then ""
    else
      var head := if IsError(calls[0]) then ErrorLine(calls[0]) else "";
      var rest := ErrorLines(calls[1..]);
      var failed := Filter(calls, IsError);
      assert ConcatMap(failed, ErrorLine) == head + ConcatMap(Filter(calls[1..], IsError), ErrorLine) by {
        if IsError(calls[0]) {
          assert failed == [calls[0]] + Filter(calls[1..], IsError);
          ConcatMapCons(failed, ErrorLine);
          assert failed[1..] == Filter(calls[1..], IsError);
        } else {
          assert failed == Filter(calls[1..], IsError);
        }
      }
      forall k | 0 <= k < |calls| && IsError(calls[k])
        ensures Contains(head + rest, ErrorLine(calls[k]))
      {
        if k == 0 {
          assert (head + rest)[..|head|] == head;
          assert OccursAt(head + rest, head, 0);
        } else {
          assert calls[1..][k - 1] == calls[k];
          ContainsAppend(head, rest, ErrorLine(calls[k]));
        }
      }
      head + rest
  }

  /** Text found in the tail of a string is found in the whole. */
  lemma {:induction false} ContainsAppend(a: string, b: string, p: string)
    requires Contains(b, p)
    ensures Contains(a + b, p)
  {
    var i :| 0 <= i <= |b| - |p| && OccursAt(b, p, i);
    assert (a + b)[|a| + i..|a| + i + |p|] == b[i..i + |p|];
    assert OccursAt(a + b, p, |a| + i);
  }

  /** The lines of one sampled message: a role-labelled content line when
      the cleaned content is non-empty, then the failed tool calls. */
  function MessageLines(msg: Message): (r: string)
    ensures CleanContent(msg) == "" ==> r == ErrorLines(msg.toolCalls)
    ensures CleanContent(msg) != "" ==>
      StartsWith(r, "[" + Role(msg.kind) + "] " + CleanContent(msg) + "\n\n")
    ensures EndsWith(r, ErrorLines(msg.toolCalls))
    ensures |r| == (if CleanContent(msg) != "" then |Role(msg.kind)| + |CleanContent(msg)| + 5 else 0)
                   + |ErrorLines(msg.toolCalls)|
  {
    var content := CleanContent(msg);
    var line := if content != "" then "[" + Role(msg.kind) + "] " + content + "\n\n" else "";
    var r := line + ErrorLines(msg.toolCalls);
    assert r[..|line|] == line;
    assert r[|r| - |ErrorLines(msg.toolCalls)|..] == ErrorLines(msg.toolCalls);
    r
  }

  /** The lines of the sampled messages, in sampled order. */
  function Lines(msgs: seq<Message>, picked: seq<nat>): string
    requires forall k :: 0 <= k < |picked| ==> picked[k] < |msgs|
  {
    if |picked| == 0 then "" else MessageLines(msgs[picked[0]]) + Lines(msgs, picked[1..])
  }

  /** The session boundary line. */
  function Boundary(s: Summary): string {
    "===SESSION_BOUNDARY::" + s.id + "===\n"
  }

  /** The metadata line of a session. */
  function Metadata(s: Summary): string {
    "[METADATA] ID: " + s.id + ", Date: " + (if s.date != "" then s.date else "unknown")
      + ", Duration: " + IntToString(s.durationMinutes) + "m, Tools: " + IntToString(s.toolCount)
      + ", Errors: " + IntToString(s.errorCount) + "\n\n"
  }

  /** The boundary and metadata lines of a session. */
  function Header(s: Summary): (r: string)
    ensures StartsWith(r, Boundary(s))
  {
    var b := Boundary(s);
    assert b[..|b|] == b;
    StartsWithAppend(b, Metadata(s), b);
    b + Metadata(s)
  }

  /** What one selected session adds. A session whose file cannot be read
      or parsed adds nothing; a `messages` value that is not an array makes
      the loop throw after the header is written; a missing one reads as no
      messages. */
  function SessionBlock(s: Summary, conv: Option<Conversation>): (r: string)
    ensures conv.None? ==> r == ""
    ensures conv.Some? ==> StartsWith(r, Boundary(s))
  {
    match conv
    case None => ""
    case Some(c) =>
      var h := Header(s);
      var body := match c.messages
        case NotArray => ""
        case NoMessages => "\n"
        case Arr(msgs) => Lines(msgs, Sample(msgs)) + "\n";
      StartsWithAppend(h, body, Boundary(s));
      h + body
  }

  lemma {:induction false} StartsWithAppend(a: string, b: string, p: string)
    requires StartsWith(a, p)
    ensures StartsWith(a + b, p)
  {
    assert (a + b)[..|p|] == a[..|p|];
  }

  /** The conversation stored at a session's path, if it could be read. */
  function Load(disk: Disk, s: Summary): Option<Conversation> {
    if s.path in disk then Some(disk[s.path]) else None
  }

  /** The block of a session as read from `disk`. */
  function BlockOn(disk: Disk): Summary -> string {
    (s: Summary) => SessionBlock(s, Load(disk, s))
  }

  /** The blocks of the selected sessions, in selection order. */
  function Transcript(selected: seq<Summary>, disk: Disk): string {
    ConcatMap(selected, BlockOn(disk))
  }

  /** The script's output for a stats record and a session id variable. */
  function PrepareSampling(env: Option<string>, list: seq<Summary>, disk: Disk): string {
    Transcript(SelectSessions(env, list), disk)
  }

  lemma {:induction false} TranscriptAppend(a: seq<Summary>, b: seq<Summary>, disk: Disk)
    ensures Transcript(a + b, disk) == Transcript(a, disk) + Transcript(b, disk)
  {
    ConcatMapAppend(a, b, BlockOn(disk));
  }

  /** A session whose file cannot be read is skipped; the others are
      emitted exactly as without it. */
  lemma {:induction false} UnreadableSkipped(a: seq<Summary>, s: Summary, b: seq<Summary>, disk: Disk)
    requires s.path !in disk
    ensures Transcript(a + [s] + b, disk) == Transcript(a + b, disk)
  {
    TranscriptAppend(a + [s], b, disk);
    TranscriptAppend(a, [s], disk);
    TranscriptAppend(a, b, disk);
    ConcatMapOne(s, BlockOn(disk));
    assert BlockOn(disk)(s) == SessionBlock(s, None) == "";
  }

  /** Every selected session whose file can be read has its boundary line
      in the output. */
  lemma {:induction false} ReadableShown(selected: seq<Summary>, k: nat, disk: Disk)
    requires k < |selected| && selected[k].path in disk
    ensures Contains(Transcript(selected, disk), Boundary(selected[k]))
    decreases |selected|
  {
    var head := SessionBlock(selected[0], Load(disk, selected[0]));
    var rest := Transcript(selected[1..], disk);
    if k == 0 {
      assert (head + rest)[..|Boundary(selected[0])|] == Boundary(selected[0]);
      assert OccursAt(head + rest, Boundary(selected[0]), 0);
    } else {
      ReadableShown(selected[1..], k - 1, disk);
      ContainsAppend(head, rest, Boundary(selected[k]));
    }
  }
}

/** The metric fold of `aggregate-stats.js`: every session file adds to one
    statistics record, and every admitted session with a message array adds
    one ranking summary.

    The fold is written as nested folds over files, messages and tool calls.
    The wall clock and the local hour of an instant are the `Clock`
    parameter; the directory walk and the reading of files are replaced by
    the list of files with their parsed contents (`None` when reading or
    parsing failed). */
module Aggregate {
  import opened Wrappers
  import opened Seqs
  import opened Text
  import opened Counters
  import opened Session
  import opened JsMath
  import opened Ranking
  import opened Overlap

  /** `DAYS_AGO`: the retention window, in days. */
  const DaysAgo: int := 30
  const DayMs: int := 24 * 60 * 60 * 1000
  /** A gap between a reply and the next user message counts as a response
      time only below one hour. */
  const MaxResponseMs: int := 3600 * 1000
  const MinuteMs: int := 60000

  /** `TIME_LIMIT`: sessions that started before this instant are ignored. */
  function TimeLimit(now: int): int {
    now - DaysAgo * DayMs
  }

  type Hour = h: int | 0 <= h < 24

  /** The two readings of the environment: `Date.now()` and the local hour
      `new Date(ms).getHours()` of an instant. */
  datatype Clock = Clock(now: int, hourOf: int -> Hour)

  datatype TokenTotals = TokenTotals(input: int, output: int, thoughts: int, total: int)

  /** An entry of `sessionList`: what the ranking step knows about a session. */
  datatype Summary = Summary(
    id: string, path: string, startTime: int, date: string, durationMinutes: int,
    userMessages: nat, toolCount: nat, errorCount: nat, score: int)

  /** The counters of `stats` that tool calls move. `uniqueFilesTouched` is
      a set: only its size reaches the report. */
  datatype ToolStats = ToolStats(
    tools: Counts, toolErrors: Counts, languages: Counts, filesTouched: set<string>,
    filesOverwritten: nat, linesAdded: nat, linesRemoved: nat, commits: nat, pushes: nat)

  /** The counters of `stats` that messages move. */
  datatype MessageStats = MessageStats(
    totalMessages: nat, userMessages: nat, geminiMessages: nat, tokens: TokenTotals,
    hourly: seq<int>, responseTimes: seq<real>, timestamps: seq<Stamp>)

  /** The `stats` object. `activeDays` is a set: only its size reaches the report. */
  datatype Stats = Stats(
    scanned: nat, analyzed: nat, totalDurationMs: int, activeDays: set<string>,
    sessionList: seq<Summary>, msgs: MessageStats, calls: ToolStats)

  /** The per-session counters `errorCount`, `toolCount`, `userMsgCount` and
      `lastGeminiTime`; a `lastGemini` of 0 is falsy, like `null`. */
  datatype Local = Local(errors: nat, tools: nat, users: nat, lastGemini: int)

  const NoLocal := Local(0, 0, 0, 0)

  /** The state of the message loop of one session. */
  datatype Acc = Acc(m: MessageStats, t: ToolStats, loc: Local)

  function Initial(): (r: Stats)
    ensures Inv(r, 0) && |r.sessionList| == 0 && r.scanned == 0
  {
    Stats(0, 0, 0, {}, [],
          MessageStats(0, 0, 0, TokenTotals(0, 0, 0, 0), Zeros(24), [], []),
          ToolStats([], [], [], {}, 0, 0, 0, 0, 0))
  }

  // ---------------------------------------------------------------------------
  // Error classification

  /** The keyword rules for error categories, in the order they are tried. */
  const ErrorRules: seq<(string, string)> := [
    ("string to replace", "Edit Failed"),
    ("not found", "File Not Found"),
    ("timeout", "Timeout"),
    ("rejected", "User Rejected")]

  const OtherCategory := "Other"

  /** The category of a lowercased error text. */
  function Classify(text: string): (cat: string)
    ensures cat == OtherCategory <==> forall j :: 0 <= j < |ErrorRules| ==> !Contains(text, ErrorRules[j].0)
    ensures forall i :: 0 <= i < |ErrorRules| ==>
      (cat == ErrorRules[i].1 <==>
        Contains(text, ErrorRules[i].0) && forall j :: 0 <= j < i ==> !Contains(text, ErrorRules[j].0))
  {
    CategoriesDistinct();
    assert ErrorRules[0].0 == "string to replace" && ErrorRules[1].0 == "not found";
    assert ErrorRules[2].0 == "timeout" && ErrorRules[3].0 == "rejected";
    if Contains(text, "string to replace") then "Edit Failed"
    else if Contains(text, "not found") then "File Not Found"
    else if Contains(text, "timeout") then "Timeout"
    else if Contains(text, "rejected") then "User Rejected"
    else "Other"
  }

  lemma {:induction false} CategoriesDistinct()
    ensures forall i, j :: 0 <= i < j < |ErrorRules| ==> ErrorRules[i].1 != ErrorRules[j].1
    ensures forall i :: 0 <= i < |ErrorRules| ==> ErrorRules[i].1 != OtherCategory
  {
    assert ErrorRules[0].1[0] == 'E' && ErrorRules[1].1[0] == 'F';
    assert ErrorRules[2].1[0] == 'T' && ErrorRules[3].1[0] == 'U' && OtherCategory[0] == 'O';
  }

  /** The category an erroring call is filed under: the classification of
      its lowercased `resultDisplay`, "" when that is absent. */
  function ErrorCategory(call: ToolCall): string {
    Classify(ToLower(call.resultDisplay.GetOr("")))
  }

  // ---------------------------------------------------------------------------
  // Tool calls

  /** `call.args && (call.args.file_path || call.args.path)`; "" when neither is set. */
  function FilePathOf(call: ToolCall): string {
    if call.args.None? then ""
    else if call.args.value.filePath != "" then call.args.value.filePath
    else call.args.value.path
  }

  predicate IsEdit(name: string) {
    name == "replace" || name == "edit"
  }

  /** The file effects of one call: the touched-file set, the language
      counter, overwrites and edited line counts. */
  function FileEffects(st: ToolStats, call: ToolCall): (r: ToolStats)
    ensures var fp := FilePathOf(call);
      && (fp == "" ==> r == st)
      && (fp != "" ==> r.filesTouched == st.filesTouched + {fp})
      && Total(r.languages) == Total(st.languages) + (if fp != "" && Extname(fp) != "" then 1 else 0)
      && (fp != "" && Extname(fp) != "" ==>
            Get(r.languages, Extname(fp)) == Get(st.languages, Extname(fp)) + 1)
      && r.filesOverwritten == st.filesOverwritten + (if fp != "" && call.name == "write_file" then 1 else 0)
      && r.linesAdded == st.linesAdded
           + (if fp != "" && IsEdit(call.name) then CountChar(call.args.value.newString, '\n') + 1 else 0)
      && r.linesRemoved == st.linesRemoved
           + (if fp != "" && IsEdit(call.name) then CountChar(call.args.value.oldString, '\n') + 1 else 0)
      && r.(filesTouched := st.filesTouched, languages := st.languages, filesOverwritten := st.filesOverwritten,
            linesAdded := st.linesAdded, linesRemoved := st.linesRemoved) == st
  {
    var fp := FilePathOf(call);
    if fp == "" then st
    else
      var ext := Extname(fp);
      var st1 := st.(filesTouched := st.filesTouched + {fp},
                     languages := if ext != "" then Bump(st.languages, ext, 1) else st.languages);
      if call.name == "write_file" then
        st1.(filesOverwritten := st1.filesOverwritten + 1)
      else if IsEdit(call.name) then
        var args := call.args.value;
        SplitLength(args.newString, '\n');
        SplitLength(args.oldString, '\n');
        st1.(linesAdded := st1.linesAdded + |Split(args.newString, '\n')|,
             linesRemoved := st1.linesRemoved + |Split(args.oldString, '\n')|)
      else st1
  }

  /** A `run_shell_command` call whose trimmed command starts with `git `. */
  predicate IsGitCommand(call: ToolCall) {
    call.name == "run_shell_command" && call.args.Some? && StartsWith(Trim(call.args.value.command), "git ")
  }

  /** Git commits and pushes issued through the shell tool. */
  function GitEffects(st: ToolStats, call: ToolCall): (r: ToolStats)
    ensures !IsGitCommand(call) ==> r == st
    ensures IsGitCommand(call) ==>
      var cmd := Trim(call.args.value.command);
      && r.commits == st.commits + (if Contains(cmd, " commit") then 1 else 0)
      && r.pushes == st.pushes + (if Contains(cmd, " push") then 1 else 0)
    ensures r.(commits := st.commits, pushes := st.pushes) == st
  {
    if !IsGitCommand(call) then st
    else
      var cmd := Trim(call.args.value.command);
      st.(commits := st.commits + (if Contains(cmd, " commit") then 1 else 0),
          pushes := st.pushes + (if Contains(cmd, " push") then 1 else 0))
  }

  /** One entry of `msg.toolCalls`: it is counted as a tool use, filed under
      an error category when its status is `error`, and then contributes its
      file and git effects. */
  function ProcessCall(st: ToolStats, loc: Local, call: ToolCall): (r: (ToolStats, Local))
    ensures r.1 == loc.(tools := loc.tools + 1, errors := loc.errors + (if IsError(call) then 1 else 0))
    ensures Get(r.0.tools, call.name) == Get(st.tools, call.name) + 1
    ensures Total(r.0.tools) == Total(st.tools) + 1
    ensures Total(r.0.toolErrors) == Total(st.toolErrors) + (if IsError(call) then 1 else 0)
    ensures IsError(call) ==>
      Get(r.0.toolErrors, ErrorCategory(call)) == Get(st.toolErrors, ErrorCategory(call)) + 1
  {
    var errs := if IsError(call) then Bump(st.toolErrors, ErrorCategory(call), 1) else st.toolErrors;
    var st1 := st.(tools := Bump(st.tools, call.name, 1), toolErrors := errs);
    var st2 := GitEffects(FileEffects(st1, call), call);
    (st2, loc.(tools := loc.tools + 1, errors := loc.errors + (if IsError(call) then 1 else 0)))
  }

  /** The number of erroring calls in `calls`. */
  function CountErrors(calls: seq<ToolCall>): (n: nat)
    ensures n <= |calls|
  {
    if |calls| == 0 then 0 else (if IsError(calls[0]) then 1 else 0) + CountErrors(calls[1..])
  }

  /** The tool-call loop of one reply. */
  function ProcessCalls(st: ToolStats, loc: Local, calls: seq<ToolCall>): (r: (ToolStats, Local))
    ensures r.1 == loc.(tools := loc.tools + |calls|, errors := loc.errors + CountErrors(calls))
    ensures Total(r.0.tools) == Total(st.tools) + |calls|
    ensures Total(r.0.toolErrors) == Total(st.toolErrors) + CountErrors(calls)
    decreases |calls|
  {
    if |calls| == 0 then (st, loc)
    else
      var s1 := ProcessCall(st, loc, calls[0]);
      ProcessCalls(s1.0, s1.1, calls[1..])
  }

  // ---------------------------------------------------------------------------
  // Messages

  /** A message whose timestamp is present and parses. */
  predicate Stamped(msg: Message) {
    msg.timestamp.text != "" && msg.timestamp.ms.Some?
  }

  /** Token totals plus one reply's `tokens` (absent entries read as 0). */
  function AddTokens(t: TokenTotals, tk: Option<Tokens>): (r: TokenTotals)
    ensures tk.None? ==> r == t
    ensures tk.Some? ==>
      && r.input == t.input + tk.value.input.GetOr(0) && r.output == t.output + tk.value.output.GetOr(0)
      && r.thoughts == t.thoughts + tk.value.thoughts.GetOr(0) && r.total == t.total + tk.value.total.GetOr(0)
  {
    match tk
    case None => t
    case Some(k) =>
      TokenTotals(t.input + k.input.GetOr(0), t.output + k.output.GetOr(0),
                  t.thoughts + k.thoughts.GetOr(0), t.total + k.total.GetOr(0))
  }

  /** Every recorded response time lies strictly between 0 and one hour. */
  predicate InRange(times: seq<real>) {
    forall i :: 0 <= i < |times| ==> 0.0 < times[i] < 3600.0
  }

  /** How the statistics and the session counters move together while the
      messages of the session `key` are read: the global counters grow by
      what the session counters grow by, and a message adds to the hourly
      buckets at most once and to the user or reply counters only when it
      was added to a bucket. */
  predicate MessageStep(a: Acc, b: Acc, key: string) {
    && |b.m.hourly| == |a.m.hourly|
    && a.m.totalMessages <= b.m.totalMessages
    && Sum(b.m.hourly) - Sum(a.m.hourly) <= b.m.totalMessages - a.m.totalMessages
    && (b.m.userMessages + b.m.geminiMessages) - (a.m.userMessages + a.m.geminiMessages)
       <= Sum(b.m.hourly) - Sum(a.m.hourly)
    && a.loc.users <= b.loc.users && a.loc.tools <= b.loc.tools && a.loc.errors <= b.loc.errors
    && b.m.userMessages - a.m.userMessages == b.loc.users - a.loc.users
    && |b.m.timestamps| - |a.m.timestamps| == b.loc.users - a.loc.users
    && Total(b.t.tools) - Total(a.t.tools) == b.loc.tools - a.loc.tools
    && Total(b.t.toolErrors) - Total(a.t.toolErrors) == b.loc.errors - a.loc.errors
    && b.loc.errors - a.loc.errors <= b.loc.tools - a.loc.tools
    && (InRange(a.m.responseTimes) ==> InRange(b.m.responseTimes))
    && |a.m.timestamps| <= |b.m.timestamps| && b.m.timestamps[..|a.m.timestamps|] == a.m.timestamps
    && (forall i :: |a.m.timestamps| <= i < |b.m.timestamps| ==> b.m.timestamps[i].sessionId == key)
  }

  lemma {:induction false} MessageStepTrans(a: Acc, b: Acc, c: Acc, key: string)
    requires MessageStep(a, b, key) && MessageStep(b, c, key)
    ensures MessageStep(a, c, key)
  {
    assert c.m.timestamps[..|a.m.timestamps|] == c.m.timestamps[..|b.m.timestamps|][..|a.m.timestamps|];
  }

  /** One message of the session `key`. It always counts towards
      `totalMessages`; without a parseable timestamp it counts towards
      nothing else. A user message records its timestamp and, when the
      session has had a reply at a truthy instant less than an hour
      earlier, the response time in seconds; a reply records its time,
      tokens and tool calls. */
  function ProcessMessage(a: Acc, key: string, clock: Clock, msg: Message): (r: Acc)
    requires |a.m.hourly| == 24
    ensures MessageStep(a, r, key)
    ensures r.m.totalMessages == a.m.totalMessages + 1
    ensures !Stamped(msg) ==> r == a.(m := a.m.(totalMessages := a.m.totalMessages + 1))
    ensures Stamped(msg) ==> Sum(r.m.hourly) == Sum(a.m.hourly) + 1
    ensures msg.kind != "gemini" ==> r.loc.lastGemini == a.loc.lastGemini
    ensures msg.kind != "gemini" && a.loc.lastGemini == 0 ==> r.m.responseTimes == a.m.responseTimes
    ensures |r.m.responseTimes| > |a.m.responseTimes| ==>
      && Stamped(msg) && msg.kind == "user" && a.loc.lastGemini != 0
      && 0 < msg.timestamp.ms.value - a.loc.lastGemini < MaxResponseMs
    ensures r.loc.users == a.loc.users + UserWeight(msg)
    ensures r.loc.tools == a.loc.tools + ToolWeight(msg)
    ensures r.loc.errors == a.loc.errors + ErrorWeight(msg)
    ensures r.m.timestamps == a.m.timestamps + StampOf(key)(msg)
  {
    var m0 := a.m.(totalMessages := a.m.totalMessages + 1);
    assert a.m.timestamps[..|a.m.timestamps|] == a.m.timestamps;
    if !Stamped(msg) then a.(m := m0)
    else
      var t := msg.timestamp.ms.value;
      var h := clock.hourOf(t);
      SumUpdate(m0.hourly, h, 1);
      var m1 := m0.(hourly := m0.hourly[h := m0.hourly[h] + 1]);
      if msg.kind == "user" then
        var m2 := m1.(userMessages := m1.userMessages + 1,
                      timestamps := m1.timestamps + [Stamp(t, key)],
                      responseTimes := m1.responseTimes + ResponseTime(a.loc.lastGemini, t));
        assert m2.timestamps[..|a.m.timestamps|] == a.m.timestamps;
        Acc(m2, a.t, a.loc.(users := a.loc.users + 1))
      else if msg.kind == "gemini" then
        var m2 := m1.(geminiMessages := m1.geminiMessages + 1, tokens := AddTokens(m1.tokens, msg.tokens));
        var c := ProcessCalls(a.t, a.loc.(lastGemini := t), msg.toolCalls);
        Acc(m2, c.0, c.1)
      else a.(m := m1)
  }

  /** What a stamped message changes besides the counts: the bucket of its
      hour; for a user message the user count, its overlap record and,
      when a reply came less than an hour before, the response time in
      seconds; for a reply its count, its tokens, the time of the last
      reply and the tool totals. */
  lemma {:induction false} MessageEffects(a: Acc, key: string, clock: Clock, msg: Message)
    requires |a.m.hourly| == 24
    ensures var r := ProcessMessage(a, key, clock, msg);
      Stamped(msg) ==>
        var t := msg.timestamp.ms.value;
        var h := clock.hourOf(t);
        && r.m.hourly == a.m.hourly[h := a.m.hourly[h] + 1]
        && (msg.kind == "user" ==>
              && r.m.userMessages == a.m.userMessages + 1
              && r.m.timestamps == a.m.timestamps + [Stamp(t, key)]
              && r.m.responseTimes == a.m.responseTimes + ResponseTime(a.loc.lastGemini, t)
              && r.t == a.t)
        && (msg.kind == "gemini" ==>
              && r.m.geminiMessages == a.m.geminiMessages + 1
              && r.m.userMessages == a.m.userMessages && r.m.timestamps == a.m.timestamps
              && r.m.responseTimes == a.m.responseTimes
              && r.m.tokens == AddTokens(a.m.tokens, msg.tokens)
              && r.loc.lastGemini == t
              && Total(r.t.tools) == Total(a.t.tools) + |msg.toolCalls|
              && Total(r.t.toolErrors) == Total(a.t.toolErrors) + CountErrors(msg.toolCalls))
  {
  }

  /** The response time a user message at `t` records: the gap to the last
      reply in seconds, when there was a reply at a truthy instant and the
      gap is positive and under an hour. */
  function ResponseTime(lastGemini: int, t: int): (r: seq<real>)
    ensures |r| <= 1
    ensures |r| == 1 <==> lastGemini != 0 && 0 < t - lastGemini < MaxResponseMs
    ensures |r| == 1 ==> r[0] * 1000.0 == (t - lastGemini) as real && 0.0 < r[0] < 3600.0
  {
    if lastGemini != 0 && 0 < t - lastGemini < MaxResponseMs then [(t - lastGemini) as real / 1000.0] else []
  }

  // What a single message contributes to its session's summary, read off
  // the message alone.

  /** 1 for a user message with a valid timestamp. */
  function UserWeight(msg: Message): int {
    if Stamped(msg) && msg.kind == "user" then 1 else 0
  }

  /** The number of tool calls of a reply with a valid timestamp. */
  function ToolWeight(msg: Message): int {
    if Stamped(msg) && msg.kind == "gemini" then |msg.toolCalls| else 0
  }

  /** The number of erroring tool calls of a reply with a valid timestamp. */
  function ErrorWeight(msg: Message): int {
    if Stamped(msg) && msg.kind == "gemini" then CountErrors(msg.toolCalls) else 0
  }

  /** The overlap record of a user message with a valid timestamp. */
  function StampOf(key: string): Message -> seq<Stamp> {
    (msg: Message) => if Stamped(msg) && msg.kind == "user" then [Stamp(msg.timestamp.ms.value, key)] else []
  }

  /** No message of `msgs` is a reply. */
  predicate NoReplies(msgs: seq<Message>) {
    forall i :: 0 <= i < |msgs| ==> msgs[i].kind != "gemini"
  }

  /** The message loop of one session. */
  function ProcessMessages(a: Acc, key: string, clock: Clock, msgs: seq<Message>): (r: Acc)
    requires |a.m.hourly| == 24
    ensures MessageStep(a, r, key)
    ensures r.m.totalMessages == a.m.totalMessages + |msgs|
    ensures NoReplies(msgs) && a.loc.lastGemini == 0 ==> r.m.responseTimes == a.m.responseTimes
    decreases |msgs|
  {
    if |msgs| == 0 then
      assert a.m.timestamps[..|a.m.timestamps|] == a.m.timestamps;
      a
    else
      var a1 := ProcessMessage(a, key, clock, msgs[0]);
      var r := ProcessMessages(a1, key, clock, msgs[1..]);
      MessageStepTrans(a, a1, r, key);
      r
  }

  /** The session counters after the message loop are the declarative
      counts over the session's messages: the user messages, tool calls and
      erroring tool calls with a valid timestamp. */
  lemma {:induction false} SessionCounts(a: Acc, key: string, clock: Clock, msgs: seq<Message>)
    requires |a.m.hourly| == 24
    ensures var r := ProcessMessages(a, key, clock, msgs);
      && r.loc.users == a.loc.users + SumBy(msgs, UserWeight)
      && r.loc.tools == a.loc.tools + SumBy(msgs, ToolWeight)
      && r.loc.errors == a.loc.errors + SumBy(msgs, ErrorWeight)
    decreases |msgs|
  {
    if |msgs| > 0 {
      var a1 := ProcessMessage(a, key, clock, msgs[0]);
      var r := ProcessMessages(a1, key, clock, msgs[1..]);
      assert ProcessMessages(a, key, clock, msgs) == r;
      assert a1.loc.users == a.loc.users + UserWeight(msgs[0]);
      assert a1.loc.tools == a.loc.tools + ToolWeight(msgs[0]);
      assert a1.loc.errors == a.loc.errors + ErrorWeight(msgs[0]);
      SessionCounts(a1, key, clock, msgs[1..]);
    }
  }

  /** The overlap records the message loop appends are those of the
      session's stamped user messages, in message order. */
  lemma {:induction false} SessionStamps(a: Acc, key: string, clock: Clock, msgs: seq<Message>)
    requires |a.m.hourly| == 24
    ensures ProcessMessages(a, key, clock, msgs).m.timestamps == a.m.timestamps + ConcatMap(msgs, StampOf(key))
    decreases |msgs|
  {
    if |msgs| > 0 {
      var a1 := ProcessMessage(a, key, clock, msgs[0]);
      var r := ProcessMessages(a1, key, clock, msgs[1..]);
      assert ProcessMessages(a, key, clock, msgs) == r;
      assert a1.m.timestamps == a.m.timestamps + StampOf(key)(msgs[0]);
      SessionStamps(a1, key, clock, msgs[1..]);
      ConcatMapCons(msgs, StampOf(key));
    }
  }

  // ---------------------------------------------------------------------------
  // Sessions

  /** The session passes the admission checks and counts as analyzed: both
      timestamps are present and the start parses and lies inside the
      retention window. */
  predicate Admitted(conv: Option<Conversation>, now: int) {
    && conv.Some?
    && conv.value.startTime.text != "" && conv.value.lastUpdated.text != ""
    && conv.value.startTime.ms.Some? && conv.value.startTime.ms.value >= TimeLimit(now)
  }

  /** An admitted session that also reaches the message loop and so gets a summary. */
  predicate Summarized(conv: Option<Conversation>, now: int) {
    Admitted(conv, now) && conv.value.lastUpdated.ms.Some? && conv.value.messages.Arr?
  }

  /** `conversation.sessionId || file`: the session key of its timestamps. */
  function SessionKey(file: string, c: Conversation): string {
    if c.sessionId != "" then c.sessionId else file
  }

  /** `conversation.sessionId || path.basename(file, '.json')`: the summary id. */
  function SessionName(file: string, c: Conversation): string {
    if c.sessionId != "" then c.sessionId else Basename(file, ".json")
  }

  /** The ranking score of a session. */
  function Score(users: int, tools: int, errors: int): int {
    users * 2 + tools + errors * 5
  }

  function UsersOf(s: Summary): int { s.userMessages }
  function ToolsOf(s: Summary): int { s.toolCount }
  function ErrorsOf(s: Summary): int { s.errorCount }

  /** What every summary satisfies: its errors are among its tool calls,
      its score is `2·users + tools + 5·errors`, and it started inside the
      retention window. */
  predicate WellFormed(s: Summary, now: int) {
    && s.errorCount <= s.toolCount
    && s.score == Score(s.userMessages, s.toolCount, s.errorCount)
    && s.startTime >= TimeLimit(now)
  }

  /** The invariant of the statistics record. */
  predicate Inv(st: Stats, now: int) {
    && |st.msgs.hourly| == 24
    && Sum(st.msgs.hourly) <= st.msgs.totalMessages
    && st.msgs.userMessages + st.msgs.geminiMessages <= Sum(st.msgs.hourly)
    && |st.sessionList| <= st.analyzed <= st.scanned
    && |st.msgs.timestamps| == st.msgs.userMessages
    && st.msgs.userMessages == SumBy(st.sessionList, UsersOf)
    && Total(st.calls.tools) == SumBy(st.sessionList, ToolsOf)
    && Total(st.calls.toolErrors) == SumBy(st.sessionList, ErrorsOf)
    && (forall i :: 0 <= i < |st.sessionList| ==> WellFormed(st.sessionList[i], now))
    && InRange(st.msgs.responseTimes)
  }

  /** The summary pushed for a session once its messages are read. */
  function MakeSummary(file: string, c: Conversation, start: int, lastUpdated: int, loc: Local): Summary {
    Summary(SessionName(file, c), file, start, DatePart(c.startTime.text),
            RoundDiv(lastUpdated - start, MinuteMs), loc.users, loc.tools, loc.errors,
            Score(loc.users, loc.tools, loc.errors))
  }

  /** One session file. */
  function ProcessFile(st: Stats, clock: Clock, file: string, conv: Option<Conversation>): (r: Stats)
    requires Inv(st, clock.now)
    ensures Inv(r, clock.now)
    ensures r.scanned == st.scanned + 1
    ensures r.analyzed == st.analyzed + (if Admitted(conv, clock.now) then 1 else 0)
    ensures !Admitted(conv, clock.now) ==> r == st.(scanned := st.scanned + 1)
    ensures Admitted(conv, clock.now) ==> DatePart(conv.value.startTime.text) in r.activeDays
    ensures |r.sessionList| == |st.sessionList| + (if Summarized(conv, clock.now) then 1 else 0)
    ensures r.sessionList[..|st.sessionList|] == st.sessionList
    ensures Summarized(conv, clock.now) ==>
      var s := r.sessionList[|st.sessionList|];
      var c := conv.value;
      && s.id == SessionName(file, c) && s.path == file
      && s.startTime == c.startTime.ms.value
      && s.durationMinutes == RoundDiv(c.lastUpdated.ms.value - c.startTime.ms.value, MinuteMs)
    ensures Summarized(conv, clock.now) && NoReplies(conv.value.messages.msgs) ==>
      r.msgs.responseTimes == st.msgs.responseTimes
  {
    var st0 := st.(scanned := st.scanned + 1);
    assert st.sessionList[..|st.sessionList|] == st.sessionList;
    if !Admitted(conv, clock.now) then st0
    else
      var c := conv.value;
      var start := c.startTime.ms.value;
      var st1 := st0.(analyzed := st0.analyzed + 1, activeDays := st0.activeDays + {DatePart(c.startTime.text)});
      if c.lastUpdated.ms.None? || !c.messages.Arr? then
        st1.(totalDurationMs := st1.totalDurationMs + (if c.lastUpdated.ms.Some? then c.lastUpdated.ms.value - start else 0))
      else
        var lastUpdated := c.lastUpdated.ms.value;
        var st2 := st1.(totalDurationMs := st1.totalDurationMs + (lastUpdated - start));
        var a := Acc(st2.msgs, st2.calls, NoLocal);
        var b := ProcessMessages(a, SessionKey(file, c), clock, c.messages.msgs);
        var s := MakeSummary(file, c, start, lastUpdated, b.loc);
        PushSummary(st2, a, b, s, SessionKey(file, c), clock.now);
        assert (st2.sessionList + [s])[..|st.sessionList|] == st.sessionList;
        st2.(sessionList := st2.sessionList + [s], msgs := b.m, calls := b.t)
  }

  /** The summary of a session counts its stamped user messages, the tool
      calls of its stamped replies and the erroring ones among them, and
      its score weighs those counts 2, 1 and 5. */
  lemma {:induction false} SummaryCounts(st: Stats, clock: Clock, file: string, conv: Option<Conversation>)
    requires Inv(st, clock.now) && Summarized(conv, clock.now)
    ensures var s := ProcessFile(st, clock, file, conv).sessionList[|st.sessionList|];
      var msgs := conv.value.messages.msgs;
      && s.userMessages == SumBy(msgs, UserWeight)
      && s.toolCount == SumBy(msgs, ToolWeight)
      && s.errorCount == SumBy(msgs, ErrorWeight)
      && s.score == Score(s.userMessages, s.toolCount, s.errorCount)
  {
    var c := conv.value;
    var st2 := st.(scanned := st.scanned + 1, analyzed := st.analyzed + 1,
                   activeDays := st.activeDays + {DatePart(c.startTime.text)},
                   totalDurationMs := st.totalDurationMs + (c.lastUpdated.ms.value - c.startTime.ms.value));
    var a := Acc(st2.msgs, st2.calls, NoLocal);
    SessionCounts(a, SessionKey(file, c), clock, c.messages.msgs);
  }

  /** Pushing the summary of a session whose messages moved the counters
      from `a` to `b` keeps the invariant. */
  lemma {:induction false} PushSummary(st: Stats, a: Acc, b: Acc, s: Summary, key: string, now: int)
    requires |st.sessionList| < st.analyzed <= st.scanned
    requires Inv(st.(analyzed := |st.sessionList|), now)
    requires a == Acc(st.msgs, st.calls, NoLocal)
    requires MessageStep(a, b, key)
    requires s.userMessages == b.loc.users && s.toolCount == b.loc.tools && s.errorCount == b.loc.errors
    requires s.score == Score(s.userMessages, s.toolCount, s.errorCount) && s.startTime >= TimeLimit(now)
    ensures Inv(st.(sessionList := st.sessionList + [s], msgs := b.m, calls := b.t), now)
  {
    var list := st.sessionList + [s];
    SumBySnoc(st.sessionList, s, UsersOf);
    SumBySnoc(st.sessionList, s, ToolsOf);
    SumBySnoc(st.sessionList, s, ErrorsOf);
    forall i | 0 <= i < |list|
      ensures WellFormed(list[i], now)
    {
      if i < |st.sessionList| {
        assert list[i] == st.sessionList[i];
      }
    }
  }

  /** The number of files whose session is admitted. */
  function CountAdmitted(files: seq<(string, Option<Conversation>)>, now: int): nat {
    if |files| == 0 then 0
    else (if Admitted(files[0].1, now) then 1 else 0) + CountAdmitted(files[1..], now)
  }

  /** The loop over all session files. */
  function ProcessFiles(st: Stats, clock: Clock, files: seq<(string, Option<Conversation>)>): (r: Stats)
    requires Inv(st, clock.now)
    ensures Inv(r, clock.now)
    ensures r.scanned == st.scanned + |files|
    ensures r.analyzed == st.analyzed + CountAdmitted(files, clock.now)
    decreases |files|
  {
    if |files| == 0 then st
    else ProcessFiles(ProcessFile(st, clock, files[0].0, files[0].1), clock, files[1..])
  }

  /** The statistics of a run over `files`: every file is scanned, exactly
      the admitted ones are analyzed, and the invariant holds, so in
      particular the bucket, session and per-summary bounds hold. */
  function Aggregate(clock: Clock, files: seq<(string, Option<Conversation>)>): (r: Stats)
    ensures Inv(r, clock.now)
    ensures r.scanned == |files|
    ensures r.analyzed == CountAdmitted(files, clock.now)
  {
    ProcessFiles(Initial(), clock, files)
  }

  /** `finalStats`: the record with the two sets replaced by their sizes and
      the overlap summary added. `detectMultiClauding` sorts the timestamp
      array in place, so the record carries it sorted. */
  datatype Final = Final(stats: Stats, filesTouchedCount: nat, activeDays: nat, multi: Multi)

  function FinalStats(st: Stats): (r: Final)
    requires |st.msgs.timestamps| == st.msgs.userMessages
    ensures r.filesTouchedCount == |st.calls.filesTouched| && r.activeDays == |st.activeDays|
    ensures r.multi.during <= st.msgs.userMessages
    ensures r.multi.during == OverlapCount(st.msgs.timestamps, multiset(st.msgs.timestamps))
    ensures r.multi.involved == |InvolvedIds(st.msgs.timestamps)|
    ensures multiset(r.stats.msgs.timestamps) == multiset(st.msgs.timestamps)
    ensures SortedBy(r.stats.msgs.timestamps, TsOf)
    ensures r.stats == st.(msgs := st.msgs.(timestamps := r.stats.msgs.timestamps))
  {
    var multi := DetectOverlap(st.msgs.timestamps);
    var sorted := SortBy(st.msgs.timestamps, TsOf);
    Final(st.(msgs := st.msgs.(timestamps := sorted)), |st.calls.filesTouched|, |st.activeDays|, multi)
  }

  /** The whole script: the fold over the session files, then `finalStats`.
      Every overlapping user message is one of the counted user messages. */
  function Run(clock: Clock, files: seq<(string, Option<Conversation>)>): (f: Final)
    ensures f.multi.during <= f.stats.msgs.userMessages
    ensures |f.stats.sessionList| <= f.stats.analyzed <= f.stats.scanned == |files|
    ensures forall i :: 0 <= i < |f.stats.sessionList| ==> WellFormed(f.stats.sessionList[i], clock.now)
  {
    FinalStats(Aggregate(clock, files))
  }
}

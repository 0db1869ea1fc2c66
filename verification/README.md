# gemini-insights: the synthesis scripts, modelled in Dafny

gemini-insights turns the Gemini CLI's saved chat sessions into an HTML
"insights" report. A set of Node scripts does the work:

- `aggregate-stats.js` folds every session file of the last 30 days into one
  statistics record. The record holds message, token, tool, error, file,
  language and git counters, an hourly histogram and user response times. It
  also keeps a ranking summary per session and detects "multi-clauding", that
  is, user messages sent while another session was active less than 30
  minutes away.
- `prepare-sampling.js` picks sessions and writes a transcript sample of each.
  The sample holds the first eight and the last six messages, plus every
  message with a failed tool call, in timestamp order.
- `save-facet.js` stores an agent's JSON answer about one session in the
  facet cache.
- `orchestrate.js` runs the passes and stops at the first one that needs an
  agent, leaving a to-do file. The passes are: aggregation, facet extraction
  for the 15 top-scoring sessions, qualitative tallies with the global
  synthesis, and the report.
- `generate-report.js` bins response times, caps and defaults the statistics,
  and shortens the synthesis before embedding them in the page.
- `utils.js` provides `extractJson`, which returns the first balanced `{…}`
  span that parses, and `escapeHtml`.

The model is functional. Each script is a pure function over datatypes, and
whatever the script reads from the outside world is a parameter:

- the session files, as parsed conversations;
- the clock and the local hour of an instant;
- `JSON.parse` of a facet, as an uninterpreted function;
- the facet cache, as a map from session id to a facet file.

JavaScript objects used as counters are insertion-ordered association lists
(`Counters.Counts`). This keeps the tie order of the report's stable
`sort(...).slice(...)` exactly as `Object.entries` yields it. A JavaScript
`Set` of messages deduplicates by object identity, so the model identifies
messages by their index.

Modules:

| module | file | what it holds |
|---|---|---|
| `Wrappers`, `Seqs`, `Text` | wrappers.dfy, seqs.dfy, text.dfy | option and result types; sums, filters and permutation facts; the string functions the scripts use (`includes`, `trim`, `split`, `path.extname`, …) |
| `Counters`, `Ranking`, `JsMath` | counters.dfy, ranking.dfy, js_math.dfy | object counters; a stable sort and top-k by an integer key; `Math.round(n / d)` |
| `Session` | session.dfy | the parsed session file |
| `Aggregate`, `Overlap` | aggregate.dfy, overlap.dfy | `aggregate-stats.js` |
| `Selection`, `Sampling` | selection.dfy, sampling.dfy | session choice and `prepare-sampling.js` |
| `Facets` | facets.dfy | `save-facet.js` and the qualitative tallies |
| `JsonExtract`, `HtmlEscape` | json_extract.dfy, html_escape.dfy | the two `utils.js` functions |
| `Report` | report.dfy | the data preparation of `generate-report.js` |
| `Orchestrate` | orchestrate.dfy | one run of `orchestrate.js`, and what holds across runs |

## Model

| member | source | states |
|---|---|---|
| Aggregate.Classify | skills/skill-synthesis-protocol/scripts/aggregate-stats.js:121-129 | An error text is filed under the first rule whose phrase it contains, and under "Other" exactly when it contains none of the four phrases. |
| Aggregate.CategoriesDistinct | skills/skill-synthesis-protocol/scripts/aggregate-stats.js:124-128 | The five categories are pairwise different, so a category names exactly one rule. |
| Aggregate.FileEffects | skills/skill-synthesis-protocol/scripts/aggregate-stats.js:132-146 | A call without a file path changes nothing. Otherwise the path joins the touched set, its extension (if any) gains one language count, `write_file` adds one overwrite, and an edit adds the line counts of its new and old strings. No other counter moves. |
| Aggregate.GitEffects | skills/skill-synthesis-protocol/scripts/aggregate-stats.js:148-152 | Only a shell call whose trimmed command starts with `git ` counts. It adds a commit if the command contains ` commit` and a push if it contains ` push`, and nothing else changes. |
| Aggregate.ProcessCall | skills/skill-synthesis-protocol/scripts/aggregate-stats.js:117-153 | Every call adds one to its tool's count and to the session's tool count. An erroring call adds one to its error category and to the session's error count. |
| Aggregate.ProcessCalls | skills/skill-synthesis-protocol/scripts/aggregate-stats.js:116-154 | After a message's calls, the tool total has grown by the number of calls and the error total by the number of erroring calls, in step with the session counters. |
| Aggregate.AddTokens | skills/skill-synthesis-protocol/scripts/aggregate-stats.js:109-114 | Missing token data adds nothing; otherwise each total grows by its field, with an absent field counting as 0. |
| Aggregate.ProcessMessage | skills/skill-synthesis-protocol/scripts/aggregate-stats.js:86-155 | Every message counts toward the total. A message without a valid timestamp changes nothing else, and a stamped one adds exactly one to the hourly histogram. A message adds to the session's user, tool and error counts exactly what it holds itself: one for a stamped user message, and the calls and failed calls of a stamped reply. Its overlap record is appended under the session's key. A response time is recorded only for a user message after a reply less than an hour earlier. |
| Aggregate.MessageEffects | skills/skill-synthesis-protocol/scripts/aggregate-stats.js:92-115 | A stamped message raises the bucket of its own hour. A user message adds one user, its overlap record and, when the last reply came less than an hour before, that gap in seconds as a response time; it leaves the tool counters alone. A reply adds one reply and its tokens, becomes the last reply time, and adds its calls and failed calls to the tool totals; it records no user data. |
| Aggregate.ResponseTime | skills/skill-synthesis-protocol/scripts/aggregate-stats.js:100-104 | A response time is recorded exactly when there was a reply at a truthy instant and the gap is positive and under an hour; it is that gap in seconds. |
| Aggregate.ProcessMessages | skills/skill-synthesis-protocol/scripts/aggregate-stats.js:86-156 | The message loop counts every message. The global user, tool and error counters grow by exactly what the session's counters grow by. New timestamps are appended under the session's key. A session without replies records no response time. |
| Aggregate.SessionCounts | skills/skill-synthesis-protocol/scripts/aggregate-stats.js:86-156 | After the loop, the session's user, tool and error counts are the declarative counts over its messages: the stamped user messages, the calls of stamped replies, and the failed calls among them. |
| Aggregate.SessionStamps | skills/skill-synthesis-protocol/scripts/aggregate-stats.js:95-98 | The overlap records the loop appends are exactly those of the session's stamped user messages, in message order. |
| Aggregate.ProcessFile | skills/skill-synthesis-protocol/scripts/aggregate-stats.js:51-173 | Every file counts as scanned. Only an admitted session counts as analyzed and adds its day; any other file leaves the record otherwise alone. A session that has a valid end time and a message array appends exactly one summary, with its name, path, start and rounded duration. Earlier summaries and the record's invariant are kept. |
| Aggregate.SummaryCounts | skills/skill-synthesis-protocol/scripts/aggregate-stats.js:159-169 | The summary of a session counts its stamped user messages, the calls of its stamped replies and the failed ones, and scores them 2, 1 and 5. |
| Aggregate.ProcessFiles | skills/skill-synthesis-protocol/scripts/aggregate-stats.js:51-174 | After the loop, the scanned count is the number of files, the analyzed count is the number admitted, and the invariant holds. |
| Aggregate.Aggregate | skills/skill-synthesis-protocol/scripts/aggregate-stats.js:22-174 | Starting from the empty record, the scanned and analyzed counts are the number of files and of admitted sessions. The user, tool and error totals are the sums over the summaries. Every summary has no more errors than tool calls, a score of 2·users + tools + 5·errors, and a start inside the 30-day window. |
| Aggregate.FinalStats | skills/skill-synthesis-protocol/scripts/aggregate-stats.js:224-240 | The touched-file and active-day counts are the sizes of their sets. The multi-session figures equal the declarative overlap count and the set of involved sessions. The timestamps are sorted in place: a sorted permutation, with nothing else changed. |
| Aggregate.Run | skills/skill-synthesis-protocol/scripts/aggregate-stats.js:51-240 | The whole script never has more summaries than analyzed sessions, nor more analyzed sessions than files. Messages sent during overlap never outnumber user messages. |
| Overlap.DetectOverlap | skills/skill-synthesis-protocol/scripts/aggregate-stats.js:177-222 | The backward-then-forward scan counts exactly the user messages that have a message from another session less than 30 minutes away. The sessions it reports are exactly the sessions of such messages. Events are that count divided by 5 and rounded, and 0 when there is no overlap. |
| Overlap.OverlapIsMutual | skills/skill-synthesis-protocol/scripts/aggregate-stats.js:187-214 | Any overlap involves at least two sessions. |
| Overlap.SingleSession | skills/skill-synthesis-protocol/scripts/aggregate-stats.js:177-222 | Messages of a single session never overlap: all three figures are 0. |
| Overlap.OverlapCountPerm | skills/skill-synthesis-protocol/scripts/aggregate-stats.js:180 | The overlap count does not depend on the order of the timestamps, so sorting before scanning loses nothing. |
| Overlap.InvolvedPerm | skills/skill-synthesis-protocol/scripts/aggregate-stats.js:180 | Nor does the set of involved sessions. |
| Overlap.PartnerIff | skills/skill-synthesis-protocol/scripts/aggregate-stats.js:191-209 | On sorted timestamps, the two bounded scans find a partner exactly when some message of another session lies within the window. |
| JsMath.RoundDiv | skills/skill-synthesis-protocol/scripts/aggregate-stats.js:164 | The result is `n / d` rounded to the nearest integer, with halves rounded up, as `Math.round` does. |
| Selection.TopSessions | skills/skill-synthesis-protocol/scripts/orchestrate.js:45-48 | The top sessions come from the list, and each has more than one user message. There are 15 of them, or all eligible ones if fewer. They are in non-increasing score order, equal scores keep list order, and no eligible session left out scores higher than one kept. |
| Selection.SelectedIds | skills/skill-synthesis-protocol/scripts/prepare-sampling.js:7 | An unset or empty variable gives no ids. Otherwise the ids are the comma-separated pieces of the variable: none contains a comma, joining them with commas gives the variable back, and there is one more piece than there are commas. |
| Selection.SelectSessions | skills/skill-synthesis-protocol/scripts/prepare-sampling.js:9-15 | With ids, the result is exactly the listed sessions whose id is named, in list order and with their multiplicity. Without ids, it is the same top sessions the orchestrator picks. |
| Selection.SingleIdSelection | skills/skill-synthesis-protocol/scripts/prepare-sampling.js:7-11 | A single comma-free id selects exactly the sessions that carry it. |
| Sampling.CleanContent | skills/skill-synthesis-protocol/scripts/prepare-sampling.js:17-37 | The cleaned text is a prefix of the full rendering, cut at 4000 characters. It is empty when neither `content` nor `text` is truthy. |
| Sampling.PartsOnlyForOtherValues | skills/skill-synthesis-protocol/scripts/prepare-sampling.js:18-28 | `parts` matters only when the chosen content is neither a string nor an array. |
| Sampling.ItemsShown | skills/skill-synthesis-protocol/scripts/prepare-sampling.js:20-26 | Below the cap, every element of an array content appears in the cleaned text. |
| Sampling.PartsShown | skills/skill-synthesis-protocol/scripts/prepare-sampling.js:28-34 | Below the cap, every part appears in the cleaned text. |
| Sampling.ErrorIndices | skills/skill-synthesis-protocol/scripts/prepare-sampling.js:50 | The selected messages are exactly those with a failed tool call. |
| Sampling.Combined | skills/skill-synthesis-protocol/scripts/prepare-sampling.js:47-52 | A message is sampled exactly when it is among the first 8, among the last 6, or has a failed call. No message appears twice. |
| Sampling.Sample | skills/skill-synthesis-protocol/scripts/prepare-sampling.js:52 | The sample is the same message set as above, ordered by timestamp (an unparseable timestamp sorts as 0). |
| Sampling.SampleTies | skills/skill-synthesis-protocol/scripts/prepare-sampling.js:52 | The sort is stable: messages with equal timestamps keep their first-8, errors, last-6 order. |
| Sampling.ErrorLines | skills/skill-synthesis-protocol/scripts/prepare-sampling.js:59-65 | The lines are exactly the error lines of the failed calls, in call order, and nothing else. They are empty exactly when no call failed. |
| Sampling.MessageLines | skills/skill-synthesis-protocol/scripts/prepare-sampling.js:54-65 | A message's lines are its role-labelled content line, present only when the cleaned content is non-empty, followed directly by its error lines, with nothing in between. |
| Sampling.Header | skills/skill-synthesis-protocol/scripts/prepare-sampling.js:43-44 | A session's block opens with its boundary line. |
| Sampling.SessionBlock | skills/skill-synthesis-protocol/scripts/prepare-sampling.js:41-68 | An unreadable session adds nothing. A readable one adds a block starting with its boundary. |
| Sampling.TranscriptAppend | skills/skill-synthesis-protocol/scripts/prepare-sampling.js:39-69 | The transcript is the concatenation of the sessions' blocks: the transcript of two lists is the two transcripts joined. |
| Sampling.UnreadableSkipped | skills/skill-synthesis-protocol/scripts/prepare-sampling.js:68 | A session whose file cannot be read leaves the transcript as if it were not selected. |
| Sampling.ReadableShown | skills/skill-synthesis-protocol/scripts/prepare-sampling.js:42-43 | Every readable selected session has its boundary in the transcript. |
| Facets.SaveFacet | skills/skill-synthesis-protocol/scripts/save-facet.js:8-22 | A missing argument is a usage error, and text without a parsable object is a second error. Otherwise only the given id's file is written, holding the extracted object. |
| Facets.LastWriteWins | skills/skill-synthesis-protocol/scripts/save-facet.js:21-22 | Saving twice under one id leaves exactly what the second save alone would. |
| Facets.CountField | skills/skill-synthesis-protocol/scripts/orchestrate.js:94-97 | A truthy field value gains one count and no other key changes. A falsy one changes nothing. |
| Facets.AddFriction | skills/skill-synthesis-protocol/scripts/orchestrate.js:98-102 | Each friction type grows by that facet's count for it. |
| Facets.TallyCounts | skills/skill-synthesis-protocol/scripts/orchestrate.js:82-104 | Each tally counts the facets whose field holds that value. Each friction tally is the sum of that type over all facets. |
| Facets.TallyOrderFree | skills/skill-synthesis-protocol/scripts/orchestrate.js:93-103 | The tallies do not depend on the order of the facets. |
| Facets.TallyTotals | skills/skill-synthesis-protocol/scripts/orchestrate.js:93-97 | The outcome counts add up to the number of facets with an outcome, and no key is listed twice. |
| JsonExtract.ExtractJson | skills/skill-synthesis-protocol/scripts/utils.js:9-26 | A found value is the parse of the first balanced span, in order of closing brace, that parses. Nothing is found exactly when no balanced span parses. |
| JsonExtract.WholeObject | skills/skill-synthesis-protocol/scripts/utils.js:9-26 | A text that is one balanced, parsable object extracts to itself. |
| JsonExtract.SurroundedObject | skills/skill-synthesis-protocol/scripts/utils.js:9-26 | Brace-free prose before an object does not disturb extraction, and neither does anything after it. |
| JsonExtract.NoClosingBrace | skills/skill-synthesis-protocol/scripts/utils.js:13-25 | Text with no `}` yields nothing. |
| JsonExtract.BraceInStringLiteral | skills/skill-synthesis-protocol/scripts/utils.js:14-21 | Braces are counted without regard to strings. In any object whose only brace inside a string literal is a `}` (like `{"a":"}"}`), the quoted `}` ends the only span. If that cut-off text does not parse, nothing is found. |
| HtmlEscape.EscapeHtml | skills/skill-synthesis-protocol/scripts/utils.js:95-103 | A non-string gives "". Otherwise the five chained replacements equal escaping each character on its own. |
| HtmlEscape.EscapedIsSafe | skills/skill-synthesis-protocol/scripts/utils.js:95-103 | Escaped text has no `<`, `>`, `"` or `'`, and every `&` in it opens one of the five entities. |
| HtmlEscape.EscapeIdentity | skills/skill-synthesis-protocol/scripts/utils.js:97-102 | Text without special characters is unchanged. |
| HtmlEscape.UnescapeEscape | skills/skill-synthesis-protocol/scripts/utils.js:97-102 | Escaping loses nothing: decoding the five entities gives back the original. |
| Report.BinOf | skills/skill-synthesis-protocol/scripts/generate-report.js:11-18 | A time goes into exactly the one bin whose half-open range holds it. |
| Report.Histogram | skills/skill-synthesis-protocol/scripts/generate-report.js:8-20 | There are eight bins, and each counts the times in its range. The bins add up to the number of times, and are all zero when the field is absent. |
| Report.HistogramOrderFree | skills/skill-synthesis-protocol/scripts/generate-report.js:9-19 | The histogram depends only on which times there are, not on their order. |
| Report.TopCounts | skills/skill-synthesis-protocol/scripts/generate-report.js:30-32 | The `n` largest counter entries, largest first. Equal counts keep their original order, and no entry left out is larger than one kept. |
| Report.TopCountsKeepCounts | skills/skill-synthesis-protocol/scripts/generate-report.js:30-32 | A kept entry carries the count the full counter has for that key. |
| Report.CleanStats | skills/skill-synthesis-protocol/scripts/generate-report.js:23-47 | Each count is the statistic when it is present and 0 otherwise. The tool, language and error lists are the top 8, 8 and 6 entries of their counters. The histogram is that of the response times. The hourly activity, overlap figures and tallies are passed along. `me` is present exactly when `meta` is, and copies its two fields. |
| Report.CleanStatsRanked | skills/skill-synthesis-protocol/scripts/generate-report.js:23-47 | The report receives at most 8 tools, 8 languages and 6 error categories, all drawn from the statistics. The tools come largest first, and none left out is larger than one kept. The histogram accounts for every response time, and is all zero when there are none. |
| Report.CleanStatsOrderFree | skills/skill-synthesis-protocol/scripts/generate-report.js:9-19 | Reordering the response times, as the median computation does, leaves the report data unchanged. |
| Report.MinSynthesis | skills/skill-synthesis-protocol/scripts/generate-report.js:50-59 | At most the first five project areas are kept. The moment is the notable one, falling back to the fun one. Every other section is passed through when present and becomes `{}` when absent. |
| Report.MinSynthesisExpand | skills/skill-synthesis-protocol/scripts/generate-report.js:50-59 | Minifying loses nothing of a synthesis that is already minimal: re-minifying a minified synthesis gives it back. |
| Orchestrate.StateAfterStart | skills/skill-synthesis-protocol/scripts/orchestrate.js:27-32 | A missing state file is written with the current clock reading. An existing one, whether it parses or not, is left as it is. |
| Orchestrate.GenerationTime | skills/skill-synthesis-protocol/scripts/orchestrate.js:124 | The generation time is the time since the recorded start, or 0 when the start is missing or falsy. |
| Orchestrate.Missing | skills/skill-synthesis-protocol/scripts/orchestrate.js:50 | The missing sessions are exactly the top sessions without a facet file, in order. There are none exactly when every top session is cached. |
| Orchestrate.MissingIds | skills/skill-synthesis-protocol/scripts/orchestrate.js:50-61 | The ids asked for are exactly the ids of top sessions without a facet file. |
| Orchestrate.Loaded | skills/skill-synthesis-protocol/scripts/orchestrate.js:70-79 | Every loaded facet is the readable facet of a top session, and every readable facet of a top session is loaded. |
| Orchestrate.RunStep | skills/skill-synthesis-protocol/scripts/orchestrate.js:26-138 | A run asks for facets exactly when some top session lacks one, and for the synthesis exactly when all have one but the synthesis is missing; otherwise it renders. It never touches the facet cache or the synthesis. A run that stops keeps the state file and leaves a to-do. Only a rendering run removes both. |
| Orchestrate.FacetRequest | skills/skill-synthesis-protocol/scripts/orchestrate.js:52-66 | A facet request names between 1 and 15 uncached top sessions. The to-do holds, for each, the transcript that `prepare-sampling.js` makes for that id. |
| Orchestrate.SynthesisRequest | skills/skill-synthesis-protocol/scripts/orchestrate.js:82-118 | A synthesis request carries the tallies of the readable top-session facets. |
| Orchestrate.RenderedMeta | skills/skill-synthesis-protocol/scripts/orchestrate.js:123-128 | The rendered meta records the number of top sessions (at most 15), the scan counts and the generation time. The report data carries the same figures and the tallies. |
| Orchestrate.StartTimeKept | skills/skill-synthesis-protocol/scripts/orchestrate.js:27-32 | The first run's start time survives the runs that stop, so the finishing run measures from it. |
| Orchestrate.SaveAll | skills/skill-synthesis-protocol/scripts/save-facet.js:13-22 | Separate saves, one per answer, keep every earlier facet file and add one for each answered id. |
| Orchestrate.AnsweredTodoProgresses | skills/skill-synthesis-protocol/scripts/orchestrate.js:50-67 | Once every requested facet has been saved, the next run does not ask for facets again, so the extraction pass cannot loop. |
| Orchestrate.CorruptFacetSkipped | skills/skill-synthesis-protocol/scripts/orchestrate.js:70-79 | A facet file that does not parse is never asked for again and never reaches the tallies. |

## Left out

- File-system access is not modelled: the recursive directory walk, reading and writing files, creating directories and deleting the state and to-do files. Session files come in as a list of parsed conversations, the facet cache as a map, and the state, to-do and synthesis files as fields of `Orchestrate.Cache`. The walk's file-name filter (`session-*.json`) is therefore not modelled.
- `resolveSessionDir`, `resolveCacheDir`, `getTempDir` and `logger` of `utils.js` are not modelled: they only locate directories and write log lines.
- `spawnSync` and the sub-processes are not modelled as processes: `orchestrate.js` calls the functions that model the scripts directly. A failing sub-process, and the exception that ends the run, are not modelled.
- `JSON.parse` and `JSON.stringify` are not modelled: a parse is an uninterpreted parameter (facets) or already done (session files, statistics), and output formatting is not modelled.
- Date parsing and `getHours` are parameters: a timestamp carries its text and its parsed milliseconds (`None` for NaN), and the local hour is part of `Aggregate.Clock`.
- Floating-point values are left out: `totalDurationHours`, `msgsPerDay`, `dateRange` and the report's `dr`. The median and average response times are handed to the report as unset, so the report shows 0 for them. Response times are exact reals rather than doubles.
- The in-place sort of `userResponseTimes` while taking the median is not modelled. By `Report.HistogramOrderFree`, the histogram does not depend on that order.
- The HTML template, gzip and base64 embedding, and writing the report are left out. Only the data that is embedded is modelled.
- Malformed values that make the scripts throw are not modelled: `messages` holding a non-object, or a state file holding `null`. Only the cases the scripts handle are modelled: a missing value, a non-array `messages`, an unreadable file, and a state file that is not JSON.
- Sampling.Sample: an unparseable message timestamp sorts as 0. In JavaScript the comparator then returns NaN, and the order is implementation-defined; key 0 is one order an engine may produce.
- Text.ToLower and Text.ToUpper are ASCII-only, and string lengths count characters, not UTF-16 code units.
- `Object.entries` lists integer-like keys first. The counters keep plain insertion order.
- The facet cache `save-facet.js` writes to and the one `orchestrate.js` reads from are taken to be the same directory. They are the same when the extension path argument is the extension root.
- The two `Date.now()` readings in pass 4 are taken to be the same instant, `end`.
- The intermediate files `stats.json` and `all-facets.json`, console messages and the instruction strings of the to-do files are not modelled.
- Aggregate.ProcessMessage: the hour bucket, the response-time value and the reply's tokens are not in its own contract. They are stated by `Aggregate.MessageEffects`, and the per-field token sums by `Aggregate.AddTokens`.
- Sampling.Header: states only the boundary line. The metadata line's layout is defined in the body and is not restated.
- Sampling.SessionBlock: states only the unreadable case and the leading boundary. The message lines are described by `Sampling.MessageLines` and `Sampling.Sample`.
- Orchestrate.SaveAll: states which ids are present afterwards, not their contents. `Facets.SaveFacet` states the contents of each save.
- Orchestrate.Loaded: states membership, not order or multiplicity. The tallies do not depend on order (`Facets.TallyOrderFree`).

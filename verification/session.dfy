/** A recorded chat session as the scripts see it after `JSON.parse`.

    Only the fields the scripts read are kept. A string field the scripts
    test for truthiness is a `string` whose "" stands for both the empty
    string and a missing field; the scripts never tell the two apart. */
module Session {
  import opened Wrappers

  /** A timestamp field: its text ("" when missing) and the epoch
      milliseconds `new Date(text).getTime()` yields, `None` for NaN.
      Date parsing itself depends on the host time zone and is not modelled. */
  datatype DateField = DateField(text: string, ms: Option<int>)

  /** `msg.tokens`; a missing or zero entry reads as 0 (`tokens.input || 0`). */
  datatype Tokens = Tokens(input: Option<int>, output: Option<int>, thoughts: Option<int>, total: Option<int>)

  /** `call.args`: the file paths, edit strings and shell command a tool call carries. */
  datatype Args = Args(filePath: string, path: string, newString: string, oldString: string, command: string)

  /** One entry of `msg.toolCalls`. `resultDisplay` is `None` when the field is absent. */
  datatype ToolCall = ToolCall(name: string, status: string, resultDisplay: Option<string>, args: Option<Args>)

  /** One element of an array-valued `content`: a bare string, or an object
      with its `text` and `type` fields. */
  datatype ContentItem = StrItem(s: string) | ObjItem(text: string, kind: string)

  /** The value of `msg.content` or `msg.text`: absent (or another falsy
      value), a string, an array, or some other truthy value. */
  datatype Content = Absent | Str(s: string) | List(items: seq<ContentItem>) | OtherValue

  /** One element of `msg.parts`: its `text`, and the rendered names of its
      `functionCall` and `functionResponse` when those are present. */
  datatype Part = Part(text: string, functionCall: Option<string>, functionResponse: Option<string>)

  datatype Message = Message(
    kind: string,
    timestamp: DateField,
    tokens: Option<Tokens>,
    toolCalls: seq<ToolCall>,
    content: Content,
    text: Content,
    parts: Option<seq<Part>>)

  /** `conversation.messages`: missing, an array, or a truthy non-array value. */
  datatype Messages = NoMessages | Arr(msgs: seq<Message>) | NotArray

  datatype Conversation = Conversation(
    sessionId: string,
    startTime: DateField,
    lastUpdated: DateField,
    messages: Messages)

  /** The session files as read and parsed: a path that is absent could not
      be read or parsed. */
  type Disk = map<string, Conversation>

  /** The JavaScript truthiness of a content value. */
  predicate Truthy(c: Content) {
    match c
    case Absent => false
    case Str(s) => s != ""
    case List(_) => true
    case OtherValue => true
  }

  /** A tool call whose status is `error`. */
  predicate IsError(call: ToolCall) {
    call.status == "error"
  }

  /** `m.toolCalls && m.toolCalls.some(tc => tc.status === 'error')`. */
  predicate HasError(m: Message) {
    exists i :: 0 <= i < |m.toolCalls| && IsError(m.toolCalls[i])
  }
}

/**
 * One line of a conversation log, after JSON decoding: the fields the viewer and the
 * history parser read. Fields JavaScript may leave `undefined` are `Option`s; a string
 * field that is only ever tested for truthiness is `Some("")` or `None` when empty.
 */
module Records {
  import opened Wrappers

  /** The record's `type` field. */
  datatype Kind = User | Assistant | OtherKind(name: string)

  /** One entry of a TodoWrite payload. */
  datatype Todo = Todo(content: string, status: string, priority: string)

  /**
   * One element of an array-valued `message.content`. A tool call's `input` is only ever
   * serialised for display, so it is not kept.
   */
  datatype Part =
    | Text(text: string)
    | Thinking(thinking: string)
    | ToolUse(id: string, name: string)
    | ToolResult(toolUseId: string, content: string, isError: bool)
    | OtherPart(partType: string)

  /** `message.content`: absent, a plain string, or an array of parts. */
  datatype Content = Absent | Str(s: string) | Parts(parts: seq<Part>)

  /** JavaScript truthiness of `message.content`: a non-empty string or any array. */
  predicate ContentTruthy(c: Content)
  {
    match c
    case Absent => false
    case Str(s) => s != ""
    case Parts(_) => true
  }

  /** `message.usage`; a counter that is missing (or 0) reads as 0 under `|| 0`. */
  datatype Usage = Usage(inputTokens: Option<nat>, outputTokens: Option<nat>)

  /**
   * The out-of-band `toolUseResult` object of a tool-result record. `stdout`/`stderr` are
   * `Some` exactly when the key is present; the other `Option` fields are `Some` when the
   * key holds a value. `hasDetailsObject` says that `details` is an object.
   */
  datatype ToolResultData = ToolResultData(
    summary: Option<string>,
    sidechainId: Option<string>,
    messagesInSidechain: Option<nat>,
    tokensUsed: Option<nat>,
    hasDetailsObject: bool,
    stdout: Option<string>,
    stderr: Option<string>,
    interrupted: bool,
    oldTodos: Option<seq<Todo>>,
    newTodos: Option<seq<Todo>>)

  /** A decoded log line. Timestamps are instants in milliseconds since the epoch. */
  datatype Record = Record(
    uuid: string,
    parentUuid: Option<string>,
    kind: Kind,
    sessionId: string,
    isSidechain: bool,
    timestamp: Option<nat>,
    content: Content,
    usage: Option<Usage>,
    toolUseResult: Option<ToolResultData>)

  /** JavaScript truthiness of an optional string field. */
  predicate StrTruthy(s: Option<string>)
  {
    s.Some? && s.value != ""
  }

  /** JavaScript truthiness of an optional number field. */
  predicate NatTruthy(n: Option<nat>)
  {
    n.Some? && n.value != 0
  }
}

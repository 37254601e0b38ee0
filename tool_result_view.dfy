/**
 * What the tool-flow card of the viewer (public/app.js) decides to show for a tool call
 * and its result, with the markup stripped away: the result text, split into a preview
 * and a collapsed remainder when it is long, and the out-of-band `toolUseResult` payload,
 * classified as a task summary, shell output, a todo change or a generic object.
 */
module ToolResultView {
  import opened Wrappers
  import opened Records
  import opened ContentParts
  import opened ViewerState
  import opened FlowGrouper
  import Seqs

  /** Plain text longer than this many characters is shown as a preview plus the rest. */
  const LongContentLimit: nat := 1000

  /** The number of characters in the preview of a long text. */
  const PreviewLength: nat := 500

  /** How the result text is shown. */
  datatype ContentView =
    | JsonBlock(json: string)
    | TextBlock(text: string)
    | LongBlock(preview: string, rest: string)

  /**
   * How `toolUseResult` is shown. An item is `Some` exactly when the source emits it; a
   * todo section is `Some` only for a non-empty list.
   */
  datatype DataView =
    | TaskSummary(summary: Option<string>, sidechainId: Option<string>,
                  messagesInSidechain: Option<nat>, tokensUsed: Option<nat>, showsDetails: bool)
    | BashOutput(stdout: Option<string>, stderr: Option<string>, interrupted: bool)
    | TodoChanges(previous: Option<seq<Todo>>, updated: Option<seq<Todo>>)
    | GenericData

  /** The output pane of a tool card: "No result", or the text and the payload. */
  datatype ResultView = NoResult | Shown(content: ContentView, data: Option<DataView>)

  /** The tool card of a flow: the tool's name and icon, its status and its output. */
  datatype FlowCard = FlowCard(toolName: string, icon: string, failed: bool, output: ResultView)

  /** `toolResult.content || ''`: the text of a result part. */
  function ResultText(p: Part): string
  {
    if p.ToolResult? then p.content else ""
  }

  /** The characters a content view puts on the page, the collapsed remainder included. */
  function ShownText(v: ContentView): string
  {
    match v
    case JsonBlock(t) => t
    case TextBlock(t) => t
    case LongBlock(p, r) => p + r
  }

  /**
   * The text part of `formatToolResultContent`: text that parses as JSON is re-indented,
   * other text longer than the limit is split into a fixed-length preview and the rest.
   * Decoding and re-serialising JSON is the parameter `isJson` plus the raw text.
   */
  function ViewContent(content: string, isJson: string -> bool): (v: ContentView)
    ensures v.JsonBlock? <==> isJson(content)
    ensures v.LongBlock? <==> !isJson(content) && |content| > LongContentLimit
    ensures v.LongBlock? ==> |v.preview| == PreviewLength && |v.rest| > LongContentLimit - PreviewLength
  {
    if isJson(content) then JsonBlock(content)
    else if |content| > LongContentLimit then LongBlock(content[..PreviewLength], content[PreviewLength..])
    else TextBlock(content)
  }

  /** Nothing of the result text is lost: preview and remainder concatenate back to it. */
  lemma ContentIsRecoverable(content: string, isJson: string -> bool)
    ensures ShownText(ViewContent(content, isJson)) == content
    ensures ViewContent(content, isJson).LongBlock? ==>
      ViewContent(content, isJson).preview == content[..PreviewLength]
  {
    if !isJson(content) && |content| > LongContentLimit {
      assert content[..PreviewLength] + content[PreviewLength..] == content;
    }
  }

  /** The payload belongs to a Task call: a truthy `summary` or `sidechainId`. */
  predicate IsTaskData(d: ToolResultData)
  {
    StrTruthy(d.summary) || StrTruthy(d.sidechainId)
  }

  /** The payload belongs to a shell call: the `stdout` or `stderr` key is present. */
  predicate IsBashData(d: ToolResultData)
  {
    d.stdout.Some? || d.stderr.Some?
  }

  /** The payload belongs to a TodoWrite call: an `oldTodos` or `newTodos` array (even an empty one). */
  predicate IsTodoData(d: ToolResultData)
  {
    d.oldTodos.Some? || d.newTodos.Some?
  }

  /** A string item, kept when it is truthy. */
  function TruthyStr(s: Option<string>): (r: Option<string>)
    ensures r.Some? <==> StrTruthy(s)
    ensures r.Some? ==> r == s
  {
    if StrTruthy(s) then s else None
  }

  /** A number item, kept when it is truthy. */
  function TruthyNat(n: Option<nat>): (r: Option<nat>)
    ensures r.Some? <==> NatTruthy(n)
    ensures r.Some? ==> r == n
  {
    if NatTruthy(n) then n else None
  }

  /** A todo list, kept when it is present and not empty. */
  function ShownTodos(t: Option<seq<Todo>>): (r: Option<seq<Todo>>)
    ensures r.Some? <==> t.Some? && |t.value| > 0
    ensures r.Some? ==> r == t
  {
    if t.Some? && |t.value| > 0 then t else None
  }

  /**
   * `formatToolResultData`: the first of the task, shell and todo tests that holds decides
   * the kind; inside a kind, each item is shown when it is truthy.
   */
  function ClassifyToolResultData(d: ToolResultData): (v: DataView)
    ensures v.TaskSummary? <==> IsTaskData(d)
    ensures v.BashOutput? <==> !IsTaskData(d) && IsBashData(d)
    ensures v.TodoChanges? <==> !IsTaskData(d) && !IsBashData(d) && IsTodoData(d)
    ensures v.GenericData? <==> !IsTaskData(d) && !IsBashData(d) && !IsTodoData(d)
    ensures v.TaskSummary? ==>
      && (v.summary.Some? <==> StrTruthy(d.summary))
      && (v.sidechainId.Some? <==> StrTruthy(d.sidechainId))
      && (v.messagesInSidechain.Some? <==> NatTruthy(d.messagesInSidechain))
      && (v.tokensUsed.Some? <==> NatTruthy(d.tokensUsed))
      && v.showsDetails == d.hasDetailsObject
    ensures v.BashOutput? ==>
      && (v.stdout.Some? <==> StrTruthy(d.stdout))
      && (v.stderr.Some? <==> StrTruthy(d.stderr))
      && v.interrupted == d.interrupted
    ensures v.TodoChanges? ==>
      && (v.previous.Some? <==> d.oldTodos.Some? && |d.oldTodos.value| > 0)
      && (v.updated.Some? <==> d.newTodos.Some? && |d.newTodos.value| > 0)
  {
    if IsTaskData(d) then
      TaskSummary(TruthyStr(d.summary), TruthyStr(d.sidechainId),
                  TruthyNat(d.messagesInSidechain), TruthyNat(d.tokensUsed), d.hasDetailsObject)
    else if IsBashData(d) then
      BashOutput(TruthyStr(d.stdout), TruthyStr(d.stderr), d.interrupted)
    else if IsTodoData(d) then
      TodoChanges(ShownTodos(d.oldTodos), ShownTodos(d.newTodos))
    else
      GenericData
  }

  /** The classifier's tests, in the order it tries them. */
  const DataTests: seq<ToolResultData -> bool> := [IsTaskData, IsBashData, IsTodoData]

  /** The kind a classification stands for, as an index into `DataTests` (3 for generic). */
  function KindIndex(v: DataView): nat
  {
    match v
    case TaskSummary(_, _, _, _, _) => 0
    case BashOutput(_, _, _) => 1
    case TodoChanges(_, _) => 2
    case GenericData => 3
  }

  /**
   * The classifier picks the first test of `DataTests` that holds for the payload, and the
   * generic view exactly when none does.
   */
  lemma ClassifierTakesFirstTestThatHolds(d: ToolResultData)
    ensures var k := Seqs.FindFirst(DataTests, (t: ToolResultData -> bool) => t(d));
      && (k.Some? ==> KindIndex(ClassifyToolResultData(d)) == k.value)
      && (k.None? <==> ClassifyToolResultData(d).GenericData?)
  {
    Seqs.FindFirstSpec(DataTests, (t: ToolResultData -> bool) => t(d));
    var k := Seqs.FindFirst(DataTests, (t: ToolResultData -> bool) => t(d));
    assert DataTests[0] == IsTaskData && DataTests[1] == IsBashData && DataTests[2] == IsTodoData;
    if IsTaskData(d) {
      assert k == Some(0);
    } else if IsBashData(d) {
      assert k == Some(1);
    } else if IsTodoData(d) {
      assert k == Some(2);
    } else {
      assert k.None?;
    }
  }

  /** A shell payload whose `stdout` is empty still counts as shell output; the block is just left out. */
  lemma EmptyStdoutIsStillBash(d: ToolResultData)
    requires !IsTaskData(d) && d.stdout == Some("") && d.stderr.None?
    ensures ClassifyToolResultData(d) == BashOutput(None, None, d.interrupted)
  {
  }

  /**
   * `formatToolResultContent`: "No result" when there is no result part; otherwise the
   * result text, followed by the payload when the record carries one.
   */
  function FormatToolResultContent(toolResult: Option<Part>, data: Option<ToolResultData>,
                                   isJson: string -> bool): (v: ResultView)
    ensures v.NoResult? <==> toolResult.None?
    ensures v.Shown? ==> ShownText(v.content) == ResultText(toolResult.value)
    ensures v.Shown? ==> (v.data.Some? <==> data.Some?)
    ensures v.Shown? && data.Some? ==> KindIndex(v.data.value) == KindIndex(ClassifyToolResultData(data.value))
  {
    if toolResult.None? then NoResult
    else
      ContentIsRecoverable(ResultText(toolResult.value), isJson);
      Shown(ViewContent(ResultText(toolResult.value), isJson),
            if data.Some? then Some(ClassifyToolResultData(data.value)) else None)
  }

  /** The test for a part that answers the call `id`. */
  function AnswersCallFor(id: string): Part -> bool
  {
    (q: Part) => AnswersCall(q, id)
  }

  /** The first result part that answers the call `id`. */
  function MatchingResultPart(r: Record, id: string): (p: Option<Part>)
    ensures p.Some? <==> HasToolResult(r, id)
    ensures p.Some? ==> AnswersCall(p.value, id)
    ensures p.Some? ==> exists k :: 0 <= k < |PartsOf(r)| && PartsOf(r)[k] == p.value
                                    && forall j :: 0 <= j < k ==> !AnswersCall(PartsOf(r)[j], id)
  {
    Seqs.FindFirstSpec(PartsOf(r), AnswersCallFor(id));
    match Seqs.FindFirst(PartsOf(r), AnswersCallFor(id))
    case None => None
    case Some(k) => Some(PartsOf(r)[k])
  }

  /**
   * The card `renderToolFlow` draws, as written: its status and output come from the first
   * result part of the answering record, whichever call that part answers.
   */
  function FlowCardAsWritten(use: Record, result: Record, isJson: string -> bool): (c: FlowCard)
    requires HasToolUse(use)
    ensures c.toolName == GetToolUseContent(use).value.name && c.icon == GetToolIcon(c.toolName)
    ensures c.output.NoResult? <==> !exists i :: 0 <= i < |PartsOf(result)| && PartsOf(result)[i].ToolResult?
    ensures c.output.Shown? ==>
      && ShownText(c.output.content) == GetToolResultContent(result).value.content
      && c.failed == GetToolResultContent(result).value.isError
  {
    var call := GetToolUseContent(use).value;
    var part := GetToolResultContent(result);
    FlowCard(call.name, GetToolIcon(call.name), part.Some? && part.value.isError,
             FormatToolResultContent(part, result.toolUseResult, isJson))
  }

  /** A call `b` answered by a record whose first result part answers another call `a`. */
  function CallB(): Record
  {
    Record("u1", None, Assistant, "s", false, None, Parts([ToolUse("b", "Bash")]), None, None)
  }

  function AnswersAThenB(): Record
  {
    Record("u2", Some("u1"), User, "s", false, None,
           Parts([ToolResult("a", "failure of a", true), ToolResult("b", "output of b", false)]), None, None)
  }

  /**
   * As written, the card of call `b` reports the failure and the text of call `a`, though
   * the part answering `b` succeeded with other text.
   */
  lemma AsWrittenCardShowsAnotherCallsResult(isJson: string -> bool)
    requires !isJson("failure of a")
    ensures HasToolUse(CallB()) && GetToolUseId(CallB()) == Some("b")
    ensures AnswersCall(PartsOf(AnswersAThenB())[1], "b") && !PartsOf(AnswersAThenB())[1].isError
    ensures FlowCardAsWritten(CallB(), AnswersAThenB(), isJson).failed
    ensures FlowCardAsWritten(CallB(), AnswersAThenB(), isJson).output.content == TextBlock("failure of a")
  {
    assert IsToolUsePart(PartsOf(CallB())[0]);
    assert IsToolResultPart(PartsOf(AnswersAThenB())[0]);
  }

  /**
   * The card `renderToolFlow` evidently means to draw: status and output come from the
   * result part that answers the card's own call.
   */
  function ToolFlowCard(use: Record, result: Record, isJson: string -> bool): (c: FlowCard)
    requires HasToolUse(use)
    ensures c.toolName == GetToolUseContent(use).value.name && c.icon == GetToolIcon(c.toolName)
    ensures c.output.NoResult? <==> !HasToolResult(result, GetToolUseId(use).value)
    ensures c.output.Shown? ==> exists k :: (
      && 0 <= k < |PartsOf(result)|
      && AnswersCall(PartsOf(result)[k], GetToolUseId(use).value)
      && ShownText(c.output.content) == PartsOf(result)[k].content
      && c.failed == PartsOf(result)[k].isError)
    ensures c.output.Shown? ==>
      && ShownText(c.output.content) == MatchingResultPart(result, GetToolUseId(use).value).value.content
      && c.failed == MatchingResultPart(result, GetToolUseId(use).value).value.isError
  {
    var call := GetToolUseContent(use).value;
    var part := MatchingResultPart(result, GetToolUseId(use).value);
    FlowCard(call.name, GetToolIcon(call.name), part.Some? && part.value.isError,
             FormatToolResultContent(part, result.toolUseResult, isJson))
  }

  /**
   * Every flow of the grouping gets a card with an output, taken from the part answering
   * the flow's own call.
   */
  lemma FlowCardShowsItsOwnAnswer(g: Group, isJson: string -> bool)
    requires g.ToolFlow? && FlowOk(g)
    ensures HasToolUse(g.toolUse.record)
    ensures ToolFlowCard(g.toolUse.record, g.toolResult.record, isJson).output.Shown?
  {
  }

  /** With the corrected card, call `b` of the example shows its own success and text. */
  lemma CorrectedCardShowsItsOwnResult(isJson: string -> bool)
    requires !isJson("output of b")
    ensures HasToolUse(CallB())
    ensures !ToolFlowCard(CallB(), AnswersAThenB(), isJson).failed
    ensures ToolFlowCard(CallB(), AnswersAThenB(), isJson).output.content == TextBlock("output of b")
  {
    assert IsToolUsePart(PartsOf(CallB())[0]);
    assert AnswersCall(PartsOf(AnswersAThenB())[1], "b");
  }
}

/**
 * The content-part helpers of the viewer (public/app.js): does a record call a tool, does
 * it answer a given call, which part is the call, which the result, and the icon per tool.
 * Each helper first checks that `message.content` is an array; anything else has no parts.
 */
module ContentParts {
  import opened Wrappers
  import opened Records
  import Seqs

  /** The parts of a record whose content is an array, and none otherwise. */
  function PartsOf(r: Record): seq<Part>
  {
    if r.content.Parts? then r.content.parts else []
  }

  predicate IsToolUsePart(p: Part) { p.ToolUse? }

  predicate IsToolResultPart(p: Part) { p.ToolResult? }

  /** A `tool_result` part whose `tool_use_id` is `id`. */
  predicate AnswersCall(p: Part, id: string) { p.ToolResult? && p.toolUseId == id }

  /** `hasToolUse`: some part is a `tool_use`. */
  predicate HasToolUse(r: Record): (b: bool)
    ensures b ==> r.content.Parts?
  {
    exists i :: 0 <= i < |PartsOf(r)| && IsToolUsePart(PartsOf(r)[i])
  }

  /** `hasToolResult`: some part is a `tool_result` for the call `id`. */
  predicate HasToolResult(r: Record, id: string): (b: bool)
    ensures b ==> r.content.Parts?
  {
    exists i :: 0 <= i < |PartsOf(r)| && AnswersCall(PartsOf(r)[i], id)
  }

  /** `getToolUseContent`: the first `tool_use` part. */
  function GetToolUseContent(r: Record): (p: Option<Part>)
    ensures p.Some? <==> HasToolUse(r)
  {
    Seqs.FindFirstSpec(PartsOf(r), IsToolUsePart);
    match Seqs.FindFirst(PartsOf(r), IsToolUsePart)
    case None => None
    case Some(k) => Some(PartsOf(r)[k])
  }

  /** The part `getToolUseContent` returns is a `tool_use` part with none before it. */
  lemma ToolUseIsFirstCall(r: Record)
    requires HasToolUse(r)
    ensures exists k :: 0 <= k < |PartsOf(r)| && PartsOf(r)[k] == GetToolUseContent(r).value
                        && PartsOf(r)[k].ToolUse? && forall j :: 0 <= j < k ==> !PartsOf(r)[j].ToolUse?
  {
    Seqs.FindFirstSpec(PartsOf(r), IsToolUsePart);
    var k := Seqs.FindFirst(PartsOf(r), IsToolUsePart).value;
    assert PartsOf(r)[k] == GetToolUseContent(r).value;
  }

  /** `getToolUseId`: the id of the first `tool_use` part (a record with none has no id). */
  function GetToolUseId(r: Record): (id: Option<string>)
    ensures id.Some? <==> HasToolUse(r)
  {
    match GetToolUseContent(r)
    case None => None
    case Some(p) => Some(p.id)
  }

  /** The id `getToolUseId` returns is that of the first `tool_use` part. */
  lemma ToolUseIdOfFirstCall(r: Record)
    requires HasToolUse(r)
    ensures exists k :: 0 <= k < |PartsOf(r)| && PartsOf(r)[k].ToolUse? && PartsOf(r)[k].id == GetToolUseId(r).value
                        && forall j :: 0 <= j < k ==> !PartsOf(r)[j].ToolUse?
  {
    Seqs.FindFirstSpec(PartsOf(r), IsToolUsePart);
    var k := Seqs.FindFirst(PartsOf(r), IsToolUsePart).value;
    assert PartsOf(r)[k].id == GetToolUseId(r).value;
  }

  /** `getToolResultContent`: the first `tool_result` part, whichever call it answers. */
  function GetToolResultContent(r: Record): (p: Option<Part>)
    ensures p.Some? <==> exists i :: 0 <= i < |PartsOf(r)| && PartsOf(r)[i].ToolResult?
  {
    Seqs.FindFirstSpec(PartsOf(r), IsToolResultPart);
    match Seqs.FindFirst(PartsOf(r), IsToolResultPart)
    case None => None
    case Some(k) => Some(PartsOf(r)[k])
  }

  /** The part `getToolResultContent` returns is a `tool_result` part with none before it. */
  lemma ToolResultIsFirstResult(r: Record)
    requires GetToolResultContent(r).Some?
    ensures exists k :: 0 <= k < |PartsOf(r)| && PartsOf(r)[k] == GetToolResultContent(r).value
                        && PartsOf(r)[k].ToolResult? && forall j :: 0 <= j < k ==> !PartsOf(r)[j].ToolResult?
  {
    Seqs.FindFirstSpec(PartsOf(r), IsToolResultPart);
    var k := Seqs.FindFirst(PartsOf(r), IsToolResultPart).value;
    assert PartsOf(r)[k] == GetToolResultContent(r).value;
  }

  /**
   * `getSpawnedSidechainId`: reports no spawned session on every path; the link from a call
   * to its sub-agent session is not implemented.
   */
  function GetSpawnedSidechainId(r: Record): Option<string>
  {
    // The source's lookup of a `Task` call decides nothing, since both of its outcomes
    // return null, so it is not modelled.
    None
  }

  /** No record ever names a spawned sub-agent session. */
  lemma NoSidechainIsSpawned(r: Record)
    ensures GetSpawnedSidechainId(r) == None
  {
  }

  /** The wrench shown for every tool without an icon of its own. */
  const DefaultIcon: string := "\U{1F527}"

  /** The icon table of `getToolIcon`. */
  const ToolIcons: map<string, string> := map[
    "Bash" := "\U{26A1}",
    "WebFetch" := "\U{1F310}",
    "WebSearch" := "\U{1F50D}",
    "Read" := "\U{1F4D6}",
    "Write" := "\U{270F}\U{FE0F}",
    "Edit" := "\U{1F4DD}",
    "MultiEdit" := "\U{1F4DD}",
    "TodoWrite" := "\U{2705}",
    "TodoRead" := "\U{1F4CB}",
    "Task" := "\U{1F3AF}",
    "Agent" := "\U{1F916}",
    "Glob" := "\U{1F50D}",
    "Grep" := "\U{1F50E}",
    "LS" := "\U{1F4C1}",
    "NotebookRead" := "\U{1F4D3}",
    "NotebookEdit" := "\U{1F4D3}",
    "exit_plan_mode" := "\U{1F3AF}"
  ]

  /**
   * `getToolIcon`: the table's icon for a listed tool, the wrench for any other name. No
   * listed tool uses the wrench, so the wrench means exactly "not a listed tool".
   */
  function GetToolIcon(toolName: string): (icon: string)
    ensures icon != ""
    ensures toolName in ToolIcons ==> icon == ToolIcons[toolName]
    ensures icon == DefaultIcon <==> toolName !in ToolIcons
  {
    if toolName in ToolIcons && ToolIcons[toolName] != "" then ToolIcons[toolName] else DefaultIcon
  }

  /**
   * Whether `renderAssistantMessage` produces no markup for a record: it has no truthy
   * content, or it calls a tool (calls are drawn by the tool-flow view instead).
   */
  predicate AssistantRendersEmpty(r: Record)
  {
    !ContentTruthy(r.content) || HasToolUse(r)
  }
}

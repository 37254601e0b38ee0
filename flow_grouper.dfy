/**
 * `groupMessagesByFlow` (public/app.js): one forward scan that merges an assistant tool call,
 * the first later user message answering it, and everything between them into one
 * tool-flow group; every other message becomes a group of its own.
 *
 * The source also has a branch that emits a sidechain group when
 * `getSpawnedSidechainId` names a known session; that function never names one
 * (ContentParts.NoSidechainIsSpawned), so the branch cannot be taken and is not written.
 */
module FlowGrouper {
  import opened Wrappers
  import opened Records
  import opened ContentParts
  import opened ViewerState

  /** A group of the thread view. */
  datatype Group =
    | ToolFlow(toolUse: Message, toolResult: Message, messages: seq<Message>)
    | Plain(message: Message)

  /** An assistant message that calls a tool: the only kind of message that opens a flow. */
  predicate StartsFlow(m: Message)
  {
    m.record.kind == Assistant && HasToolUse(m.record)
  }

  /** The call id a flow opened by `m` waits for: its first `tool_use` part's id. */
  function FlowId(m: Message): string
    requires StartsFlow(m)
  {
    GetToolUseId(m.record).value
  }

  /** A user message that carries a `tool_result` for the call `id`. */
  predicate AnswersFlow(m: Message, id: string)
  {
    m.record.kind == User && HasToolResult(m.record, id)
  }

  /** The first index at or after `from` whose message answers `id` (the inner `j` scan). */
  function FindResult(ms: seq<Message>, id: string, from: nat): (j: Option<nat>)
    decreases |ms| - from
    ensures j.Some? ==> from <= j.value < |ms|
  {
    if from >= |ms| then None
    else if AnswersFlow(ms[from], id) then Some(from)
    else FindResult(ms, id, from + 1)
  }

  /** `FindResult` finds the first answer at or after `from`, and finds none only when there is none. */
  lemma {:induction false} FindResultSpec(ms: seq<Message>, id: string, from: nat)
    decreases |ms| - from
    ensures var j := FindResult(ms, id, from);
      && (j.Some? ==> AnswersFlow(ms[j.value], id))
      && (j.Some? ==> forall l :: from <= l < j.value ==> !AnswersFlow(ms[l], id))
      && (j.None? ==> forall l :: from <= l < |ms| ==> !AnswersFlow(ms[l], id))
  {
    if from < |ms| && !AnswersFlow(ms[from], id) {
      FindResultSpec(ms, id, from + 1);
    }
  }

  /**
   * The group the scan emits at `i`, and the index it resumes from: the flow up to the
   * first answer when `ms[i]` is an answered tool call, the message alone otherwise.
   */
  function NextGroup(ms: seq<Message>, i: nat): (r: (Group, nat))
    requires i < |ms|
    ensures i < r.1 <= |ms|
  {
    if StartsFlow(ms[i]) && FindResult(ms, FlowId(ms[i]), i + 1).Some? then
      var j := FindResult(ms, FlowId(ms[i]), i + 1).value;
      (ToolFlow(ms[i], ms[j], ms[i..j + 1]), j + 1)
    else
      (Plain(ms[i]), i + 1)
  }

  /**
   * The emitted group covers exactly `ms[i..next]` and is well formed, and a message
   * emitted alone is never a call that something after it answers.
   */
  lemma NextGroupSound(ms: seq<Message>, i: nat)
    requires i < |ms|
    ensures Covered(NextGroup(ms, i).0) == ms[i..NextGroup(ms, i).1]
    ensures FlowOk(NextGroup(ms, i).0)
    ensures NextGroup(ms, i).0.Plain? ==>
      NextGroup(ms, i).1 == i + 1 && UnansweredIn(NextGroup(ms, i).0.message, ms[i + 1..])
  {
    if StartsFlow(ms[i]) && FindResult(ms, FlowId(ms[i]), i + 1).Some? {
      var j := FindResult(ms, FlowId(ms[i]), i + 1).value;
      NextGroupAtFlow(ms, i, j);
      EmittedFlowOk(ms, i, j);
    } else {
      if StartsFlow(ms[i]) {
        FindResultSpec(ms, FlowId(ms[i]), i + 1);
        UnansweredAfter(ms, i);
      }
      assert ms[i..i + 1] == [ms[i]];
    }
  }

  /** A call with no answer among `ms[i + 1..]` is unanswered in that suffix. */
  lemma UnansweredAfter(ms: seq<Message>, i: nat)
    requires i < |ms| && StartsFlow(ms[i])
    requires forall l :: i + 1 <= l < |ms| ==> !AnswersFlow(ms[l], FlowId(ms[i]))
    ensures UnansweredIn(ms[i], ms[i + 1..])
  {
    var rest := ms[i + 1..];
    forall l | 0 <= l < |rest|
      ensures !AnswersFlow(rest[l], FlowId(ms[i]))
    {
      assert rest[l] == ms[i + 1 + l];
    }
  }

  /** The flow the scan emits at `i` is well formed. */
  lemma EmittedFlowOk(ms: seq<Message>, i: nat, j: nat)
    requires i < |ms| && StartsFlow(ms[i]) && FindResult(ms, FlowId(ms[i]), i + 1) == Some(j)
    ensures FlowOk(ToolFlow(ms[i], ms[j], ms[i..j + 1]))
  {
    FindResultSpec(ms, FlowId(ms[i]), i + 1);
    var g := ToolFlow(ms[i], ms[j], ms[i..j + 1]);
    forall l | 1 <= l < |g.messages| - 1
      ensures !AnswersFlow(g.messages[l], FlowId(g.toolUse))
    {
      assert g.messages[l] == ms[i + l];
    }
  }

  /** The groups of `ms[i..]`, in the order the scan emits them. */
  function GroupedFrom(ms: seq<Message>, i: nat): seq<Group>
    requires i <= |ms|
    decreases |ms| - i
  {
    if i == |ms| then []
    else
      var step := NextGroup(ms, i);
      [step.0] + GroupedFrom(ms, step.1)
  }

  /** The grouping of a whole thread. */
  function Grouped(ms: seq<Message>): seq<Group>
  {
    GroupedFrom(ms, 0)
  }

  /** The messages a group covers. */
  function Covered(g: Group): seq<Message>
  {
    match g
    case ToolFlow(_, _, msgs) => msgs
    case Plain(m) => [m]
  }

  /** The messages of all groups, in order. */
  function Flatten(gs: seq<Group>): seq<Message>
  {
    if gs == [] then [] else Covered(gs[0]) + Flatten(gs[1..])
  }

  /**
   * A well-formed flow: it opens with an assistant tool call, ends with the first message
   * after it that answers that call, and holds every message in between.
   */
  predicate FlowOk(g: Group)
  {
    g.ToolFlow? ==>
      && |g.messages| >= 2
      && g.messages[0] == g.toolUse
      && g.messages[|g.messages| - 1] == g.toolResult
      && StartsFlow(g.toolUse)
      && AnswersFlow(g.toolResult, FlowId(g.toolUse))
      && forall l :: 1 <= l < |g.messages| - 1 ==> !AnswersFlow(g.messages[l], FlowId(g.toolUse))
  }

  /** A plain tool call stands alone only when nothing after it answers it. */
  predicate UnansweredIn(m: Message, rest: seq<Message>)
  {
    StartsFlow(m) ==> forall l :: 0 <= l < |rest| ==> !AnswersFlow(rest[l], FlowId(m))
  }

  /** Group `k` keeps the first-match discipline with respect to the messages after it. */
  predicate GroupOkAt(gs: seq<Group>, k: nat)
    requires k < |gs|
  {
    FlowOk(gs[k]) && (gs[k].Plain? ==> UnansweredIn(gs[k].message, Flatten(gs[k + 1..])))
  }

  /** The greedy first-match discipline of the scan, group by group. */
  predicate Greedy(gs: seq<Group>)
  {
    forall k :: 0 <= k < |gs| ==> GroupOkAt(gs, k)
  }

  lemma {:induction false} FlattenAppend(a: seq<Group>, b: seq<Group>)
    ensures Flatten(a + b) == Flatten(a) + Flatten(b)
  {
    if a != [] {
      calc {
        Flatten(a + b);
        { assert (a + b)[0] == a[0]; assert (a + b)[1..] == a[1..] + b; }
        Covered(a[0]) + Flatten(a[1..] + b);
        { FlattenAppend(a[1..], b); }
        Covered(a[0]) + (Flatten(a[1..]) + Flatten(b));
        Flatten(a) + Flatten(b);
      }
    } else {
      assert a + b == b;
    }
  }

  /** Every group of a greedy grouping covers at least one message. */
  lemma {:induction false} FlattenLength(gs: seq<Group>)
    requires Greedy(gs)
    ensures |Flatten(gs)| >= |gs|
  {
    if gs != [] {
      assert GroupOkAt(gs, 0);
      GreedyTail(gs);
      FlattenLength(gs[1..]);
    }
  }

  /** The scan's groups cover `ms[i..]` exactly and in order. */
  lemma {:induction false} GroupedFromCovers(ms: seq<Message>, i: nat)
    requires i <= |ms|
    decreases |ms| - i
    ensures Flatten(GroupedFrom(ms, i)) == ms[i..]
  {
    if i < |ms| {
      var g, next := NextGroup(ms, i).0, NextGroup(ms, i).1;
      NextGroupSound(ms, i);
      GroupedFromStep(ms, i, g, next);
      GroupedFromCovers(ms, next);
      FlattenCons(g, GroupedFrom(ms, next));
      assert Flatten(GroupedFrom(ms, i)) == ms[i..next] + ms[next..];
      SliceConcat(ms, i, next);
    }
  }

  lemma SliceConcat(ms: seq<Message>, i: nat, next: nat)
    requires i <= next <= |ms|
    ensures ms[i..next] + ms[next..] == ms[i..]
  {
  }

  lemma FlattenCons(g: Group, rest: seq<Group>)
    ensures Flatten([g] + rest) == Covered(g) + Flatten(rest)
  {
    assert ([g] + rest)[1..] == rest;
  }

  /** Each group the scan emits from `i` on keeps the greedy first-match discipline. */
  lemma {:induction false} GroupedFromGreedy(ms: seq<Message>, i: nat)
    requires i <= |ms|
    decreases |ms| - i
    ensures Greedy(GroupedFrom(ms, i))
  {
    if i < |ms| {
      var g, next := NextGroup(ms, i).0, NextGroup(ms, i).1;
      NextGroupSound(ms, i);
      GroupedFromGreedy(ms, next);
      GroupedFromCovers(ms, next);
      assert GroupedFrom(ms, i) == [g] + GroupedFrom(ms, next);
      GreedyCons(g, GroupedFrom(ms, next));
    }
  }

  /** Greedy for a group followed by a greedy tail. */
  lemma GreedyCons(g: Group, rest: seq<Group>)
    requires FlowOk(g) && (g.Plain? ==> UnansweredIn(g.message, Flatten(rest)))
    requires Greedy(rest)
    ensures Greedy([g] + rest)
  {
    var gs := [g] + rest;
    forall k | 0 <= k < |gs|
      ensures GroupOkAt(gs, k)
    {
      if k == 0 {
        assert gs[1..] == rest;
      } else {
        assert GroupOkAt(rest, k - 1);
        assert gs[k] == rest[k - 1];
        assert gs[k + 1..] == rest[k..];
      }
    }
  }

  /** The tail of a greedy grouping is greedy. */
  lemma GreedyTail(gs: seq<Group>)
    requires gs != [] && Greedy(gs)
    ensures Greedy(gs[1..])
  {
    var rest := gs[1..];
    forall k | 0 <= k < |rest|
      ensures GroupOkAt(rest, k)
    {
      assert GroupOkAt(gs, k + 1);
      assert rest[k] == gs[k + 1];
      assert rest[k + 1..] == gs[k + 2..];
    }
  }

  /** A group that opens at `ms[i]` and covers `n` messages covers `ms[i..i + n]`. */
  lemma HeadCovers(ms: seq<Message>, i: nat, gs: seq<Group>)
    requires i < |ms| && gs != []
    requires Flatten(gs) == ms[i..]
    ensures i + |Covered(gs[0])| <= |ms|
    ensures Covered(gs[0]) == ms[i..i + |Covered(gs[0])|]
    ensures Flatten(gs[1..]) == ms[i + |Covered(gs[0])|..]
  {
    assert Flatten(gs) == Covered(gs[0]) + Flatten(gs[1..]);
  }

  /** An answer at `to` with none between `from` and it is the one `FindResult` finds. */
  lemma {:induction false} FirstAnswerAt(ms: seq<Message>, id: string, from: nat, to: nat)
    requires from <= to < |ms| && AnswersFlow(ms[to], id)
    requires forall l :: from <= l < to ==> !AnswersFlow(ms[l], id)
    ensures FindResult(ms, id, from) == Some(to)
    decreases |ms| - from
  {
    if from < to {
      FirstAnswerAt(ms, id, from + 1, to);
    }
  }

  /** A well-formed flow lying at `ms[i..i + n]` ends at the first answer after `ms[i]`. */
  lemma FlowLiesAt(ms: seq<Message>, i: nat, g: Group)
    requires g.ToolFlow? && FlowOk(g)
    requires i + |g.messages| <= |ms| && g.messages == ms[i..i + |g.messages|]
    ensures StartsFlow(ms[i])
    ensures FindResult(ms, FlowId(ms[i]), i + 1) == Some(i + |g.messages| - 1)
    ensures g == ToolFlow(ms[i], ms[i + |g.messages| - 1], ms[i..i + |g.messages|])
  {
    var n := |g.messages|;
    assert g.toolUse == ms[i] by { assert g.messages[0] == ms[i]; }
    assert g.toolResult == ms[i + n - 1] by { assert g.messages[n - 1] == ms[i + n - 1]; }
    var id := FlowId(ms[i]);
    forall l | i + 1 <= l < i + n - 1
      ensures !AnswersFlow(ms[l], id)
    {
      assert g.messages[l - i] == ms[l];
    }
    FirstAnswerAt(ms, id, i + 1, i + n - 1);
  }

  /** A message that opens no answered flow is emitted alone. */
  lemma UnansweredIsPlain(ms: seq<Message>, i: nat)
    requires i < |ms| && UnansweredIn(ms[i], ms[i + 1..])
    ensures NextGroup(ms, i).0 == Plain(ms[i])
  {
    if StartsFlow(ms[i]) {
      var id := FlowId(ms[i]);
      forall l | i + 1 <= l < |ms|
        ensures !AnswersFlow(ms[l], id)
      {
        assert ms[i + 1..][l - i - 1] == ms[l];
      }
      FindResultSpec(ms, id, i + 1);
    }
  }

  /** The first group of a greedy grouping of `ms[i..]` is the one the scan emits at `i`. */
  lemma HeadIsNextGroup(ms: seq<Message>, i: nat, gs: seq<Group>)
    requires i < |ms| && gs != []
    requires Flatten(gs) == ms[i..]
    requires GroupOkAt(gs, 0)
    ensures gs[0] == NextGroup(ms, i).0
  {
    HeadCovers(ms, i, gs);
    var g := gs[0];
    if g.Plain? {
      PlainIsNextGroup(ms, i, g, Flatten(gs[1..]));
    } else {
      FlowIsNextGroup(ms, i, g);
    }
  }

  /** A message standing alone at `ms[i]`, with nothing after it answering it, is the scan's group at `i`. */
  lemma PlainIsNextGroup(ms: seq<Message>, i: nat, g: Group, rest: seq<Message>)
    requires i < |ms| && g.Plain? && [g.message] == ms[i..i + 1]
    requires rest == ms[i + 1..] && UnansweredIn(g.message, rest)
    ensures NextGroup(ms, i).0 == g
  {
    assert g.message == ms[i] by { assert [g.message][0] == ms[i..i + 1][0]; }
    UnansweredIsPlain(ms, i);
  }

  /** A well-formed flow lying at `ms[i..]` is the group the scan emits at `i`. */
  lemma FlowIsNextGroup(ms: seq<Message>, i: nat, g: Group)
    requires g.ToolFlow? && FlowOk(g)
    requires i + |g.messages| <= |ms| && g.messages == ms[i..i + |g.messages|]
    ensures NextGroup(ms, i).0 == g
  {
    var j := i + |g.messages| - 1;
    FlowLiesAt(ms, i, g);
    NextGroupAtFlow(ms, i, j);
    assert ms[i..j + 1] == ms[i..i + |g.messages|];
  }

  /**
   * The scan's grouping is the only greedy one: any sequence of groups that covers
   * `ms[i..]` in order and keeps the first-match discipline is exactly `GroupedFrom(ms, i)`.
   */
  lemma {:induction false} GreedyGroupingIsUnique(ms: seq<Message>, i: nat, gs: seq<Group>)
    requires i <= |ms|
    requires Flatten(gs) == ms[i..]
    requires Greedy(gs)
    decreases |ms| - i
    ensures gs == GroupedFrom(ms, i)
  {
    if i == |ms| {
      FlattenLength(gs);
    } else {
      assert gs != [];
      HeadIsNextStep(ms, i, gs);
      GreedyTail(gs);
      GreedyGroupingIsUnique(ms, NextGroup(ms, i).1, gs[1..]);
      assert gs == [gs[0]] + gs[1..];
    }
  }

  /** The head of a greedy grouping of `ms[i..]` is the scan's step; the rest covers what follows. */
  lemma HeadIsNextStep(ms: seq<Message>, i: nat, gs: seq<Group>)
    requires i < |ms| && gs != []
    requires Flatten(gs) == ms[i..]
    requires Greedy(gs)
    ensures gs[0] == NextGroup(ms, i).0
    ensures Flatten(gs[1..]) == ms[NextGroup(ms, i).1..]
  {
    assert GroupOkAt(gs, 0);
    HeadIsNextGroup(ms, i, gs);
    HeadCovers(ms, i, gs);
    NextGroupSound(ms, i);
  }

  /** One step of the scan: the group emitted at `i`, then the groups from where it resumes. */
  lemma GroupedFromStep(ms: seq<Message>, i: nat, g: Group, next: nat)
    requires i < |ms| && NextGroup(ms, i) == (g, next)
    ensures GroupedFrom(ms, i) == [g] + GroupedFrom(ms, next)
  {
  }

  /** Emitting `g` and resuming at `next` keeps the scan's running grouping on track. */
  lemma EmitKeepsTrack(ms: seq<Message>, i: nat, groups: seq<Group>, g: Group, next: nat)
    requires i < |ms| && NextGroup(ms, i) == (g, next)
    requires groups + GroupedFrom(ms, i) == GroupedFrom(ms, 0)
    ensures next <= |ms| && (groups + [g]) + GroupedFrom(ms, next) == GroupedFrom(ms, 0)
  {
    GroupedFromStep(ms, i, g, next);
    assert groups + ([g] + GroupedFrom(ms, next)) == (groups + [g]) + GroupedFrom(ms, next);
  }

  /** At an answered tool call the scan emits the flow up to the first answer. */
  lemma NextGroupAtFlow(ms: seq<Message>, i: nat, j: nat)
    requires i < |ms| && StartsFlow(ms[i]) && FindResult(ms, FlowId(ms[i]), i + 1) == Some(j)
    ensures NextGroup(ms, i) == (ToolFlow(ms[i], ms[j], ms[i..j + 1]), j + 1)
  {
  }

  /** The scan's step at an answered tool call. */
  lemma EmitFlowKeepsTrack(ms: seq<Message>, i: nat, groups: seq<Group>, j: nat)
    requires i < |ms| && StartsFlow(ms[i]) && FindResult(ms, FlowId(ms[i]), i + 1) == Some(j)
    requires groups + GroupedFrom(ms, i) == GroupedFrom(ms, 0)
    ensures j + 1 <= |ms|
    ensures (groups + [ToolFlow(ms[i], ms[j], ms[i..j + 1])]) + GroupedFrom(ms, j + 1) == GroupedFrom(ms, 0)
  {
    NextGroupAtFlow(ms, i, j);
    EmitKeepsTrack(ms, i, groups, ToolFlow(ms[i], ms[j], ms[i..j + 1]), j + 1);
  }

  /** The scan's step at any other message. */
  lemma EmitPlainKeepsTrack(ms: seq<Message>, i: nat, groups: seq<Group>)
    requires i < |ms| && !(StartsFlow(ms[i]) && FindResult(ms, FlowId(ms[i]), i + 1).Some?)
    requires groups + GroupedFrom(ms, i) == GroupedFrom(ms, 0)
    ensures (groups + [Plain(ms[i])]) + GroupedFrom(ms, i + 1) == GroupedFrom(ms, 0)
  {
    EmitKeepsTrack(ms, i, groups, Plain(ms[i]), i + 1);
  }

  /** What the whole scan promises, once its groups are `Grouped(ms)`. */
  lemma GroupedSound(ms: seq<Message>)
    ensures Flatten(Grouped(ms)) == ms
    ensures |Grouped(ms)| <= |ms|
    ensures Greedy(Grouped(ms))
  {
    GroupedFromCovers(ms, 0);
    GroupedFromGreedy(ms, 0);
    FlattenLength(Grouped(ms));
  }

  /**
   * `groupMessagesByFlow`: scan with `i`; at an assistant tool call, scan on with `j` for
   * the first user message answering it; on a hit emit the flow `messages[i..j]` and
   * resume after it, otherwise emit the message alone and step to the next one.
   */
  method GroupMessagesByFlow(messages: seq<Message>) returns (groups: seq<Group>)
    ensures groups == Grouped(messages)
  {
    groups := [];
    var i := 0;
    while i < |messages|
      invariant 0 <= i <= |messages|
      invariant groups + GroupedFrom(messages, i) == Grouped(messages)
      decreases |messages| - i
    {
      var msg := messages[i];
      if msg.record.kind == Assistant && HasToolUse(msg.record) {
        var toolUseId := GetToolUseId(msg.record).value;
        var found := FindToolResult(messages, toolUseId, i + 1);
        if found.Some? {
          var j := found.value;
          EmitFlowKeepsTrack(messages, i, groups, j);
          groups := groups + [ToolFlow(msg, messages[j], messages[i..j + 1])];
          i := j + 1;
          continue;
        }
      }
      EmitPlainKeepsTrack(messages, i, groups);
      groups := groups + [Plain(msg)];
      i := i + 1;
    }
    assert groups == groups + GroupedFrom(messages, i);
  }

  /**
   * The inner scan of `groupMessagesByFlow`: from `from` on, the index of the first user
   * message carrying a `tool_result` for `toolUseId`.
   */
  method FindToolResult(messages: seq<Message>, toolUseId: string, from: nat) returns (found: Option<nat>)
    ensures found == FindResult(messages, toolUseId, from)
  {
    var j := from;
    while j < |messages|
      invariant from <= j
      invariant FindResult(messages, toolUseId, from) == FindResult(messages, toolUseId, j)
      decreases |messages| - j
    {
      var nextMsg := messages[j];
      if nextMsg.record.kind == User && HasToolResult(nextMsg.record, toolUseId) {
        return Some(j);
      }
      j := j + 1;
    }
    return None;
  }

  /**
   * A plain group that holds a tool call draws nothing. This follows from a call being a
   * record with a `tool_use` part alone; that such a call is one nothing answers is stated
   * by NextGroupSound.
   */
  lemma UnansweredCallRendersEmpty(ms: seq<Message>, k: nat)
    requires k < |Grouped(ms)| && Grouped(ms)[k].Plain? && StartsFlow(Grouped(ms)[k].message)
    ensures AssistantRendersEmpty(Grouped(ms)[k].message.record)
  {
  }

  /** Without assistant tool calls, the grouping is one plain group per message, in order. */
  lemma {:induction false} NoCallsAllPlain(ms: seq<Message>, i: nat)
    requires i <= |ms|
    requires forall k :: 0 <= k < |ms| ==> !StartsFlow(ms[k])
    decreases |ms| - i
    ensures GroupedFrom(ms, i) == seq(|ms| - i, k requires 0 <= k < |ms| - i => Plain(ms[i + k]))
  {
    if i < |ms| {
      NoCallsAllPlain(ms, i + 1);
    }
  }
}

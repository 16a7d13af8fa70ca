/** The mapper from the events of a run to the events of the chat stream
    (koraku/streaming/koraku_sse.py), for the lead agent and its sub-agents together. */
module SseMapper {
  import opened Wrappers
  import opened Text
  import opened Json
  import opened Messages

  /** The `subagent` entry of an event. */
  datatype Tag = Tag(composio: bool, task: bool, agent: string)

  /** `_nested_subagent_payload` */
  datatype Sub = Composio | Task(agent: string)

  function Nested(tag: Option<Tag>): Option<Sub> {
    if tag.None? then None
    else if tag.value.composio then Some(Composio)
    else if tag.value.task then Some(Task(Strip(tag.value.agent)))
    else None
  }

  datatype StartedBlock = ToolUseStart(id: string, name: string, input: Json) | OtherStart(kind: string)

  datatype Raw =
    | ToolUsePending(id: string, name: string, input: Option<Json>)
    | BlockStart(index: Option<int>, block: StartedBlock)
    | BlockDelta(index: Option<int>, isJson: bool, text: string)
    | BlockStop(index: Option<int>)
    | AssistantMessage(content: Option<seq<Block>>)
    | MessageDelta(usage: seq<int>)
    | OtherRaw(kind: string)

  /** Traced stands for the events that become one trace, question, approval, action or sub-agent event. */
  datatype Body =
    | Traced(trace: string)
    | ToolExecution(id: string, tool: string, input: Option<Json>, mode: string)
    | StreamEvent(raw: Option<Raw>)
    | UserMessage(blocks: Option<seq<Block>>)
    | Completed(reason: string)
    | Cancelled
    | Failed(error: string)
    | Unknown

  datatype Event = Event(tag: Option<Tag>, body: Body)

  datatype Phase = Started | Succeeded | Errored

  datatype Output =
    | Note(trace: string)
    | ToolEvent(phase: Phase, id: string, tool: string, input: Option<Json>, mode: string, summary: string, sub: Option<Sub>)
    | TurnUsage(usage: seq<int>)
    | Wrapped(raw: Raw, sub: Option<Sub>)
    | ResultEnvelope(isError: bool, stopReason: string)
    | KorakuCompleted(exitCode: int, failed: bool, cancelled: bool, error: Option<string>)
    | OutputMarker

  datatype Call = Call(tool: string, input: Option<Json>)

  // Scopes.

  /** The name space of an event's tool ids. */
  datatype Scope = Lead | ComposioScope | TaskScope(agent: string)

  function ScopeOf(sub: Option<Sub>): Scope {
    match sub
    case None => Lead
    case Some(Composio) => ComposioScope
    case Some(Task(agent)) =>
      var name := LowerAll(Strip(if agent != "" then agent else "task"));
      TaskScope(if name != "" then name else "task")
  }

  function Prefix(scope: Scope): string {
    match scope
    case Lead => ""
    case ComposioScope => "composio:"
    case TaskScope(agent) => "task:" + agent + ":"
  }

  /** `_scoped_tool_use_id` */
  function ScopedToolUseId(id: string, sub: Option<Sub>): string {
    var tid := Strip(id);
    if tid == "" || Prefix(ScopeOf(sub)) <= tid then tid else Prefix(ScopeOf(sub)) + tid
  }

  /** `(name or "tool").strip() or "tool"` */
  function ToolName(name: string): string {
    var stripped := Strip(if name != "" then name else "tool");
    if stripped != "" then stripped else "tool"
  }

  // The mapper as a function of its state.

  datatype Mapper = Mapper(calls: map<string, Call>, suppressed: set<int>, started: set<string>)

  const INIT := Mapper(map[], {}, {})

  /** `_tool_started_events`; it emits for a started id again, with the new input. */
  function ToolStarted(m: Mapper, id: string, tool: string, input: Option<Json>, mode: string, sub: Option<Sub>)
      : (Mapper, seq<Output>)
  {
    if Strip(id) == "" then (m, [])
    else (m.(calls := m.calls[Strip(id) := Call(ToolName(tool), input)], started := m.started + {Strip(id)}),
          [ToolEvent(Started, Strip(id), ToolName(tool), input, mode, "", sub)])
  }

  /** One result block. */
  function ResultEvent(calls: map<string, Call>, b: Block, sub: Option<Sub>): (map<string, Call>, Output)
    requires b.ResultBlock?
  {
    var id := ScopedToolUseId(b.toolUseId, sub);
    var call := if id != "" && id in calls then calls[id] else Call("", None);
    (if id != "" then calls - {id} else calls,
     ToolEvent(if b.isError then Errored else Succeeded, id, if call.tool != "" then call.tool else "tool",
               call.input, "", b.content, sub))
  }

  function ResultEvents(calls: map<string, Call>, blocks: seq<Block>, sub: Option<Sub>): (map<string, Call>, seq<Output>)
    decreases |blocks|
  {
    if blocks == [] then (calls, [])
    else if !blocks[0].ResultBlock? then ResultEvents(calls, blocks[1..], sub)
    else
      var (after, output) := ResultEvent(calls, blocks[0], sub);
      var (last, outputs) := ResultEvents(after, blocks[1..], sub);
      (last, [output] + outputs)
  }

  /** `completion_sequence` */
  function CompletionSequence(failed: bool, cancelled: bool, reason: string, error: Option<string>): seq<Output> {
    var stop := if cancelled then "cancelled" else if failed then "error" else if reason != "" then reason else "end_turn";
    [ResultEnvelope(failed && !cancelled, stop),
     KorakuCompleted(if cancelled then 130 else if failed then 1 else 0, failed && !cancelled, cancelled, error),
     OutputMarker]
  }

  function WithoutToolCalls(blocks: seq<Block>): seq<Block> {
    if blocks == [] then []
    else (if blocks[0].ToolBlock? then [] else [blocks[0]]) + WithoutToolCalls(blocks[1..])
  }

  function MapRaw(m: Mapper, raw: Raw, sub: Option<Sub>): (Mapper, seq<Output>) {
    match raw
    case MessageDelta(usage) =>
      (m, (if exists k :: 0 <= k < |usage| && usage[k] > 0 then [TurnUsage(usage)] else []) + [Wrapped(raw, sub)])
    case ToolUsePending(id, name, input) => ToolStarted(m, ScopedToolUseId(id, sub), name, input, "", sub)
    case BlockStart(index, block) =>
      if index.Some? && block.ToolUseStart? then
        ToolStarted(m.(suppressed := m.suppressed + {index.value}), ScopedToolUseId(block.id, sub), block.name,
                    Some(if block.input.Obj? then block.input else Obj(map[])), "", sub)
      else (m, [Wrapped(raw, sub)])
    case BlockDelta(index, isJson, _) =>
      if (index.Some? && index.value in m.suppressed) || isJson then (m, []) else (m, [Wrapped(raw, sub)])
    case BlockStop(index) =>
      if index.Some? && index.value in m.suppressed
      then (m.(suppressed := m.suppressed - {index.value}), [])
      else (m, [Wrapped(raw, sub)])
    case AssistantMessage(content) =>
      if content.None? then (m, [Wrapped(raw, sub)])
      else
        var kept := WithoutToolCalls(content.value);
        (m, if kept == [] then [] else [Wrapped(AssistantMessage(Some(kept)), sub)])
    case OtherRaw(_) => (m, [Wrapped(raw, sub)])
  }

  function MapOne(m: Mapper, e: Event): (Mapper, seq<Output>) {
    var sub := Nested(e.tag);
    match e.body
    case Traced(trace) => (m, [Note(trace)])
    case ToolExecution(id, tool, input, mode) => ToolStarted(m, ScopedToolUseId(id, sub), tool, input, mode, sub)
    case StreamEvent(raw) => if raw.None? then (m, []) else MapRaw(m, raw.value, sub)
    case UserMessage(blocks) =>
      if blocks.None? then (m, [])
      else
        var (calls, outputs) := ResultEvents(m.calls, blocks.value, sub);
        (m.(calls := calls), outputs)
    case Completed(reason) => (m, if sub.Some? then [] else CompletionSequence(false, false, reason, None))
    case Cancelled => (m, if sub.Some? then [] else CompletionSequence(false, true, "cancelled", None))
    case Failed(error) => (m, if sub.Some? then [] else CompletionSequence(true, false, "", Some(error)))
    case Unknown => (m, [])
  }

  function MapAll(m: Mapper, events: seq<Event>): (Mapper, seq<Output>)
    decreases |events|
  {
    if events == [] then (m, [])
    else
      var (after, first) := MapOne(m, events[0]);
      var (last, others) := MapAll(after, events[1..]);
      (last, first + others)
  }

  // The mapper as the program keeps it.

  class KorakuStreamState {
    var toolCallsById: map<string, Call>
    var suppressedToolBlockIndexes: set<int>
    var startedToolUseIds: set<string>

    ghost function Now(): Mapper
      reads this
    {
      Mapper(toolCallsById, suppressedToolBlockIndexes, startedToolUseIds)
    }

    constructor ()
      ensures Now() == INIT
    {
      toolCallsById, suppressedToolBlockIndexes, startedToolUseIds := map[], {}, {};
    }

    method ToolStartedEvents(id: string, tool: string, input: Option<Json>, mode: string, sub: Option<Sub>)
        returns (outs: seq<Output>)
      modifies this
      ensures (Now(), outs) == ToolStarted(old(Now()), id, tool, input, mode, sub)
    {
      var scoped, name := Strip(id), ToolName(tool);
      if scoped == "" {
        return [];
      }
      toolCallsById := toolCallsById[scoped := Call(name, input)];
      startedToolUseIds := startedToolUseIds + {scoped};
      outs := [ToolEvent(Started, scoped, name, input, mode, "", sub)];
    }

    method MapRawEvent(raw: Raw, sub: Option<Sub>) returns (outs: seq<Output>)
      modifies this
      ensures (Now(), outs) == MapRaw(old(Now()), raw, sub)
    {
      hide ScopedToolUseId, ToolStarted;
      outs := [];
      match raw {
        case MessageDelta(usage) =>
          if exists k :: 0 <= k < |usage| && usage[k] > 0 {
            outs := [TurnUsage(usage)];
          }
        case ToolUsePending(id, name, input) =>
          outs := ToolStartedEvents(ScopedToolUseId(id, sub), name, input, "", sub);
          return;
        case BlockStart(index, block) =>
          if index.Some? && block.ToolUseStart? {
            suppressedToolBlockIndexes := suppressedToolBlockIndexes + {index.value};
            var input := if block.input.Obj? then block.input else Obj(map[]);
            outs := ToolStartedEvents(ScopedToolUseId(block.id, sub), block.name, Some(input), "", sub);
            return;
          }
        case BlockDelta(index, isJson, _) =>
          if index.Some? && index.value in suppressedToolBlockIndexes {
            return;
          }
          if isJson {
            return;
          }
        case BlockStop(index) =>
          if index.Some? && index.value in suppressedToolBlockIndexes {
            suppressedToolBlockIndexes := suppressedToolBlockIndexes - {index.value};
            return;
          }
        case AssistantMessage(content) =>
          if content.Some? {
            var kept := WithoutToolCalls(content.value);
            if kept == [] {
              return;
            }
            return [Wrapped(AssistantMessage(Some(kept)), sub)];
          }
        case OtherRaw(_) =>
      }
      assert [] + [Wrapped(raw, sub)] == [Wrapped(raw, sub)];
      outs := outs + [Wrapped(raw, sub)];
    }

    method MapResult(b: Block, sub: Option<Sub>) returns (output: Output)
      requires b.ResultBlock?
      modifies this`toolCallsById
      ensures (toolCallsById, output) == ResultEvent(old(toolCallsById), b, sub)
    {
      hide ScopedToolUseId;
      var id, call := ScopedToolUseId(b.toolUseId, sub), Call("", None);
      if id != "" {
        if id in toolCallsById {
          call := toolCallsById[id];
        }
        toolCallsById := toolCallsById - {id};
      }
      output := ToolEvent(if b.isError then Errored else Succeeded, id, if call.tool != "" then call.tool else "tool",
                          call.input, "", b.content, sub);
    }

    method MapResults(blocks: seq<Block>, sub: Option<Sub>) returns (outs: seq<Output>)
      modifies this`toolCallsById
      ensures (toolCallsById, outs) == ResultEvents(old(toolCallsById), blocks, sub)
    {
      hide *;
      outs := [];
      ghost var whole := ResultEvents(toolCallsById, blocks, sub);
      assert blocks[0..] == blocks;
      for k := 0 to |blocks|
        invariant ResultEvents(toolCallsById, blocks[k..], sub).0 == whole.0
        invariant outs + ResultEvents(toolCallsById, blocks[k..], sub).1 == whole.1
      {
        ResultNext(toolCallsById, blocks, k, sub);
        if blocks[k].ResultBlock? {
          var output := MapResult(blocks[k], sub);
          ghost var later := ResultEvents(toolCallsById, blocks[k + 1..], sub).1;
          assert outs + ([output] + later) == (outs + [output]) + later;
          outs := outs + [output];
        }
      }
      ResultEnd(toolCallsById, blocks, sub);
      assert outs + [] == outs;
    }

    /** `map_koraku_stream_events` */
    method MapKorakuStreamEvents(e: Event) returns (outs: seq<Output>)
      modifies this
      ensures (Now(), outs) == MapOne(old(Now()), e)
    {
      hide ScopedToolUseId, ToolStarted, MapRaw, ResultEvents;
      var sub := Nested(e.tag);
      outs := [];
      match e.body
      case Traced(trace) => outs := [Note(trace)];
      case ToolExecution(id, tool, input, mode) =>
        outs := ToolStartedEvents(ScopedToolUseId(id, sub), tool, input, mode, sub);
      case StreamEvent(raw) =>
        if raw.Some? {
          outs := MapRawEvent(raw.value, sub);
        }
      case UserMessage(blocks) =>
        if blocks.Some? {
          outs := MapResults(blocks.value, sub);
        }
      case Completed(reason) =>
        if sub.None? {
          outs := CompletionSequence(false, false, reason, None);
        }
      case Cancelled =>
        if sub.None? {
          outs := CompletionSequence(false, true, "cancelled", None);
        }
      case Failed(error) =>
        if sub.None? {
          outs := CompletionSequence(true, false, "", Some(error));
        }
      case Unknown =>
    }
  }

  lemma ResultIs(calls: map<string, Call>, b: Block, sub: Option<Sub>)
    requires b.ResultBlock?
    ensures var id := ScopedToolUseId(b.toolUseId, sub);
            var call := if id != "" && id in calls then calls[id] else Call("", None);
            ResultEvent(calls, b, sub) ==
              (if id != "" then calls - {id} else calls, ToolEvent(if b.isError then Errored else Succeeded, id,
                                       if call.tool != "" then call.tool else "tool", call.input, "", b.content, sub))
  {
  }

  lemma ResultNext(calls: map<string, Call>, blocks: seq<Block>, k: nat, sub: Option<Sub>)
    requires k < |blocks|
    ensures blocks[k].ResultBlock? ==>
              var one := ResultEvent(calls, blocks[k], sub);
              var rest := ResultEvents(one.0, blocks[k + 1..], sub);
              ResultEvents(calls, blocks[k..], sub) == (rest.0, [one.1] + rest.1)
    ensures !blocks[k].ResultBlock? ==> ResultEvents(calls, blocks[k..], sub) == ResultEvents(calls, blocks[k + 1..], sub)
  {
    hide ResultEvent;
    assert blocks[k..][1..] == blocks[k + 1..];
  }

  lemma ResultEnd(calls: map<string, Call>, blocks: seq<Block>, sub: Option<Sub>)
    ensures ResultEvents(calls, blocks[|blocks|..], sub) == (calls, [])
  {
  }

  /** The tag of an integration sub-agent. */
  const SUB := Some(Tag(true, false, ""))
}

/** One tool call from its approval to its result (koraku/agent/tool_executor.py), and the tool phase
    of a step. Every effect that matters for approvals is recorded in the order it happens. */
module ToolExecutor {
  import opened Wrappers
  import opened Text
  import opened Json
  import opened Messages
  import P = PendingInteractions

  datatype Mode = Default | Plan | ReadOnly | ConfirmSensitive

  const READ_ONLY_TOOLS: set<string> := {"AskUser", "Read", "Glob", "Grep", "WebSearch", "WebFetch"}
  const PLAN_MODE_TOOLS: set<string> := READ_ONLY_TOOLS + {"TodoWrite"}
  const SENSITIVE_TOOLS: set<string> :=
    {"Bash", "Write", "Edit", "ComposioRun", "AutomationsCreate", "AutomationsUpdate", "AutomationsDelete"}

  const MAX_RETRIES: nat := 2
  const DECLINED := "Blocked: user declined approval for this tool call."
  const TRUNCATED :=
    "' arguments were truncated (incomplete JSON). Retry with a shorter payload or split large writes into smaller chunks."
  const APPROVAL_TIMED_OUT := "Error: approval timed out waiting for the user."
  const READ_ONLY_BLOCKED := "Blocked: permission mode is read_only. Only read and search tools are allowed."
  const PLAN_BLOCKED :=
    "Blocked: permission mode is plan. Ask clarifying questions with AskUser before using write, shell, or integration tools."

  /** What a handler call comes to. */
  datatype Outcome = Output(text: string) | Raises(text: string)

  /** An active tool; `run(input, attempt)` is what its handler does on that attempt. */
  datatype Tool = Tool(name: string, run: (Json, nat) -> Outcome)

  /** What the embedder's `pre_tool_use` hook answers; Nothing also stands for having no hook. An exception
      of the hook may be a `TimeoutError`. */
  datatype Hook =
    | Nothing
    | Says(allow: bool, message: string, updated: Option<Json>)
    | HookRaises(message: string, timeout: bool)

  /** How a wait for the user ends when the wait itself is not cancelled. */
  type Answer = o: P.Outcome | !o.WasCancelled? witness P.TimedOut

  /** Everything a tool call meets outside itself. `hook` is given the tool's input. */
  datatype Env = Env(
    mode: Mode,
    emitBound: bool,
    interaction: P.Id,
    answer: Answer,
    hook: Json -> Hook,
    indicatesError: (string, string) -> bool)

  datatype Action =
    | Asked(interaction: P.Id, useId: string, input: Json)
    | Answered(interaction: P.Id, answer: P.Outcome)
    | Ran(tool: string, input: Json, outcome: Outcome)

  /** A call ends with its result, or an exception of the hook escapes from it. */
  datatype End = Done(result: Block) | Escaped(message: string, timeout: bool)

  /** `HookResult` */
  datatype HookResult = HookResult(allow: bool, message: string, updated: Option<Json>)

  predicate NeedsApproval(name: string, mode: Mode) {
    mode.ConfirmSensitive? && name in SENSITIVE_TOOLS
  }

  predicate Blocked(name: string, mode: Mode) {
    (mode.ReadOnly? && name !in READ_ONLY_TOOLS) || (mode.Plan? && name !in PLAN_MODE_TOOLS)
  }

  /** `dict(tool_input) if isinstance(tool_input, dict) else {}` */
  function AsObject(input: Json): Json {
    if input.Obj? then input else Obj(map[])
  }

  predicate IsTruncated(input: Json) {
    input.Obj? && "_partial_json" in input.fields
  }

  function Alias(name: string): string {
    if name == "WebPage" then "WebFetch" else name
  }

  /** `_resolve_tool_from_active` */
  method ResolveToolFromActive(name: string, tools: seq<Tool>) returns (tool: Option<Tool>)
    ensures tool.None? <==> forall k :: 0 <= k < |tools| ==> tools[k].name != Alias(name)
    ensures tool.Some? ==> exists k :: IsFirst(name, tools, k) && tool.value == tools[k]
  {
    tool := None;
    for k := 0 to |tools|
      invariant forall j :: 0 <= j < k ==> tools[j].name != Alias(name)
    {
      if tools[k].name == Alias(name) {
        assert IsFirst(name, tools, k);
        return Some(tools[k]);
      }
    }
  }

  predicate IsFirst(name: string, tools: seq<Tool>, k: int) {
    0 <= k < |tools| && tools[k].name == Alias(name) && forall j :: 0 <= j < k ==> tools[j].name != Alias(name)
  }

  // What a call is meant to do.

  predicate Approved(env: Env) {
    env.answer.Got? && env.answer.body.approved
  }

  /** The input an approval puts in place of the model's, if it is an object. */
  function ApprovalInput(use: ToolUse, env: Env): Option<Json> {
    if NeedsApproval(use.name, env.mode) && Approved(env) && env.answer.body.updatedInput.Some?
       && env.answer.body.updatedInput.value.Obj?
    then env.answer.body.updatedInput else None
  }

  function HookAnswer(use: ToolUse, env: Env): Hook {
    env.hook(ApprovalInput(use, env).GetOr(AsObject(use.input)))
  }

  /** The call is allowed as far as the mode and the user. */
  predicate Cleared(use: ToolUse, env: Env) {
    !Blocked(use.name, env.mode) && (NeedsApproval(use.name, env.mode) ==> Approved(env))
  }

  /** The handler is to run: there is such a tool, its arguments are whole, and nothing that guards
      the call objects. Without an event sink the guards are not asked. */
  predicate MayRun(use: ToolUse, tools: seq<Tool>, env: Env) {
    && !IsTruncated(use.input)
    && (exists k :: 0 <= k < |tools| && tools[k].name == Alias(use.name))
    && (env.emitBound ==>
          && Cleared(use, env)
          && (HookAnswer(use, env).Says? ==> HookAnswer(use, env).allow)
          && !HookAnswer(use, env).HookRaises?)
  }

  predicate HookEscapes(use: ToolUse, tools: seq<Tool>, env: Env) {
    && !IsTruncated(use.input)
    && (exists k :: 0 <= k < |tools| && tools[k].name == Alias(use.name))
    && env.emitBound && Cleared(use, env) && HookAnswer(use, env).HookRaises?
  }

  function OrBlocked(use: ToolUse, message: string): string {
    if message != "" then message else "Error: Tool '" + use.name + "' was blocked."
  }

  /** What the first guard that objects says: the mode, then the user, then the hook. */
  function Objection(use: ToolUse, env: Env): string {
    if Blocked(use.name, env.mode) then (if env.mode.ReadOnly? then READ_ONLY_BLOCKED else PLAN_BLOCKED)
    else if NeedsApproval(use.name, env.mode) && !Approved(env) then
      (if env.answer.TimedOut? then APPROVAL_TIMED_OUT else DECLINED)
    else OrBlocked(use, if HookAnswer(use, env).Says? then HookAnswer(use, env).message else "")
  }

  /** The text of the error result of a call whose handler does not run. */
  function Refusal(use: ToolUse, tools: seq<Tool>, env: Env): string {
    if IsTruncated(use.input) then "Error: Tool '" + use.name + TRUNCATED
    else if forall k :: 0 <= k < |tools| ==> tools[k].name != Alias(use.name) then
      "Error: Tool '" + use.name + "' not found."
    else Objection(use, env)
  }

  /** The hook's override, else the approval's, else the model's input. */
  function ChosenInput(use: ToolUse, env: Env): Json {
    if !env.emitBound then use.input
    else if HookAnswer(use, env).Says? && HookAnswer(use, env).updated.Some? then HookAnswer(use, env).updated.value
    else ApprovalInput(use, env).GetOr(use.input)
  }

  predicate Failed(use: ToolUse, env: Env, outcome: Outcome) {
    outcome.Raises? || env.indicatesError(outcome.text, use.name)
  }

  function FailureText(text: string): string {
    if text != "" && !Contains(text, "failed after") then text + " (failed after 3 attempts)" else text
  }

  /** At most three attempts on one input, each but the last a failure; a failed last one is the third. */
  ghost predicate Attempts(use: ToolUse, tool: Tool, env: Env, runs: seq<Action>, result: Block) {
    && 1 <= |runs| <= 3
    && (forall k :: 0 <= k < |runs| ==> runs[k] == AttemptAt(use, tool, env, k))
    && (forall k :: 0 <= k < |runs| - 1 ==> Failed(use, env, runs[k].outcome))
    && var last := runs[|runs| - 1].outcome;
       && (Failed(use, env, last) ==> |runs| == 3)
       && result == ResultBlock(use.id, if Failed(use, env, last) then FailureText(last.text) else last.text,
                                Failed(use, env, last))
  }

  function AttemptAt(use: ToolUse, tool: Tool, env: Env, k: nat): (run: Action)
    ensures run.Ran?
  {
    Ran(tool.name, ChosenInput(use, env), tool.run(ChosenInput(use, env), k))
  }

  /** The user is asked about this call. */
  predicate QuestionDue(use: ToolUse, tools: seq<Tool>, env: Env) {
    && env.emitBound && NeedsApproval(use.name, env.mode) && !IsTruncated(use.input)
    && exists k :: 0 <= k < |tools| && tools[k].name == Alias(use.name)
  }

  function QuestionFor(use: ToolUse, env: Env): seq<Action> {
    [Asked(env.interaction, use.id, AsObject(use.input)), Answered(env.interaction, env.answer)]
  }

  /** The whole record of a call: first the question, if one is due, then the attempts. */
  ghost predicate Recorded(use: ToolUse, tools: seq<Tool>, env: Env, actions: seq<Action>, end: End) {
    var question := if QuestionDue(use, tools, env) then QuestionFor(use, env) else [];
    question <= actions && RunsFor(use, tools, env, actions[|question|..], end)
  }

  ghost predicate RunsFor(use: ToolUse, tools: seq<Tool>, env: Env, runs: seq<Action>, end: End) {
    if MayRun(use, tools, env) then
      end.Done? && exists k :: IsFirst(use.name, tools, k) && Attempts(use, tools[k], env, runs, end.result)
    else runs == []
  }

  // The code.

  datatype Pre = Verdict(result: HookResult) | HookFailed(message: string, timeout: bool)

  /** `_maybe_request_tool_approval` */
  method MaybeRequestToolApproval(use: ToolUse, env: Env) returns (approval: Option<HookResult>, actions: seq<Action>)
    ensures !NeedsApproval(use.name, env.mode) ==> approval == None && actions == []
    ensures NeedsApproval(use.name, env.mode) ==>
              && approval.Some? && approval.value.allow == Approved(env)
              && (!Approved(env) ==>
                    approval.value.message == if env.answer.TimedOut? then APPROVAL_TIMED_OUT else DECLINED)
              && approval.value.updated == ApprovalInput(use, env)
              && actions == QuestionFor(use, env)
    ensures actions != [] ==>
              actions == [Asked(env.interaction, use.id, if use.input.Obj? then use.input else Obj(map[])),
                          Answered(env.interaction, env.answer)]
  {
    approval, actions := None, [];
    if NeedsApproval(use.name, env.mode) {
      actions := [Asked(env.interaction, use.id, AsObject(use.input)), Answered(env.interaction, env.answer)];
      match env.answer
      case TimedOut => approval := Some(HookResult(false, APPROVAL_TIMED_OUT, None));
      case Got(body) =>
        if !body.approved {
          approval := Some(HookResult(false, DECLINED, None));
        } else if body.updatedInput.Some? && body.updatedInput.value.Obj? {
          approval := Some(HookResult(true, "", body.updatedInput));
        } else {
          approval := Some(HookResult(true, "", None));
        }
    }
  }

  /** `_apply_pre_tool_hooks` */
  method ApplyPreToolHooks(use: ToolUse, env: Env) returns (pre: Pre, actions: seq<Action>)
    requires env.emitBound
    ensures actions == if NeedsApproval(use.name, env.mode) then QuestionFor(use, env) else []
    ensures pre.HookFailed? <==> Cleared(use, env) && HookAnswer(use, env).HookRaises?
    ensures pre.HookFailed? ==> HookAnswer(use, env) == HookRaises(pre.message, pre.timeout)
    ensures pre.Verdict? && !pre.result.allow ==> OrBlocked(use, pre.result.message) == Objection(use, env)
    ensures pre.Verdict? ==>
              && (pre.result.allow <==> Cleared(use, env) && (HookAnswer(use, env).Says? ==> HookAnswer(use, env).allow))
              && (pre.result.allow ==> pre.result.updated.GetOr(use.input) == ChosenInput(use, env))
    ensures pre.Verdict? && pre.result.allow ==>
              var asked := env.mode.ConfirmSensitive? && use.name in SENSITIVE_TOOLS;
              var replaced := asked && env.answer.Got? && env.answer.body.updatedInput.Some?
                              && env.answer.body.updatedInput.value.Obj?;
              var hook := env.hook(if replaced then env.answer.body.updatedInput.value else AsObject(use.input));
              pre.result.updated ==
                if hook.Says? && hook.updated.Some? then hook.updated
                else if replaced then env.answer.body.updatedInput
                else None
  {
    actions := [];
    if env.mode.ReadOnly? && use.name !in READ_ONLY_TOOLS {
      return Verdict(HookResult(false, READ_ONLY_BLOCKED, None)), [];
    }
    if env.mode.Plan? && use.name !in PLAN_MODE_TOOLS {
      return Verdict(HookResult(false, PLAN_BLOCKED, None)), [];
    }
    var approval;
    approval, actions := MaybeRequestToolApproval(use, env);
    if approval.Some? && !approval.value.allow {
      return Verdict(approval.value), actions;
    }
    var input := AsObject(use.input);
    if approval.Some? && approval.value.updated.Some? {
      input := approval.value.updated.value;
    }
    match env.hook(input) {
      case HookRaises(message, timeout) =>
        return HookFailed(message, timeout), actions;
      case Says(allow, message, updated) =>
        if !allow {
          return Verdict(HookResult(false, message, updated)), actions;
        }
        if updated.Some? {
          return Verdict(HookResult(true, "", updated)), actions;
        }
      case Nothing =>
    }
    pre := Verdict(HookResult(true, "", if approval.Some? then approval.value.updated else None));
  }

  /** The attempts of `_execute_single_tool`. */
  method RunWithRetries(use: ToolUse, tool: Tool, env: Env, input: Json) returns (runs: seq<Action>, result: Block)
    requires input == ChosenInput(use, env)
    ensures Attempts(use, tool, env, runs, result)
  {
    var lastError, resultText, isError := "", "", true;
    runs := [];
    for attempt := 0 to MAX_RETRIES + 1
      invariant |runs| == attempt && isError
      invariant forall k :: 0 <= k < |runs| ==>
                  runs[k] == AttemptAt(use, tool, env, k) && Failed(use, env, runs[k].outcome)
      invariant lastError == resultText == if runs == [] then "" else runs[|runs| - 1].outcome.text
    {
      var outcome := tool.run(input, attempt);
      runs := runs + [Ran(tool.name, input, outcome)];
      match outcome
      case Output(text) =>
        resultText := text;
        isError := env.indicatesError(text, use.name);
        if !isError { break; }
        lastError := text;
      case Raises(text) =>
        lastError, resultText, isError := text, text, true;
    }
    if !isError {
      return runs, ResultBlock(use.id, resultText, false);
    }
    result := ResultBlock(use.id, FailureText(lastError), true);
  }

  function ErrorResult(use: ToolUse, message: string): End {
    Done(ResultBlock(use.id, message, true))
  }

  /** `_execute_single_tool` */
  method ExecuteSingleTool(use: ToolUse, tools: seq<Tool>, env: Env) returns (actions: seq<Action>, end: End)
    ensures end.Escaped? <==> HookEscapes(use, tools, env)
    ensures end.Escaped? ==> HookAnswer(use, env) == HookRaises(end.message, end.timeout)
    ensures end.Done? ==> end.result.ResultBlock? && end.result.toolUseId == use.id
    ensures end.Done? && !MayRun(use, tools, env) ==> end.result == ResultBlock(use.id, Refusal(use, tools, env), true)
    ensures Recorded(use, tools, env, actions, end)
  {
    hide Attempts, ApprovalInput, HookAnswer, AsObject, Blocked, NeedsApproval, Approved, Objection;
    actions := [];
    if IsTruncated(use.input) {
      return [], ErrorResult(use, "Error: Tool '" + use.name + TRUNCATED);
    }
    var tool := ResolveToolFromActive(use.name, tools);
    if tool.None? {
      return [], ErrorResult(use, "Error: Tool '" + use.name + "' not found.");
    }
    var input := use.input;
    if env.emitBound {
      var pre;
      pre, actions := ApplyPreToolHooks(use, env);
      if pre.HookFailed? {
        return actions, Escaped(pre.message, pre.timeout);
      }
      if !pre.result.allow {
        return actions, ErrorResult(use,
          if pre.result.message != "" then pre.result.message else "Error: Tool '" + use.name + "' was blocked.");
      }
      input := pre.result.updated.GetOr(use.input);
    }
    var runs, result := RunWithRetries(use, tool.value, env, input);
    end := Done(result);
    assert RunsFor(use, tools, env, runs, end);
    assert (actions + runs)[|actions|..] == runs;
    actions := actions + runs;
  }

  datatype Phase = Results(blocks: seq<Block>) | PhaseRaised(message: string, timeout: bool)

  /** `_execute_tools_parallel`: the calls run side by side, each with its own record. */
  method ExecuteToolsParallel(uses: seq<ToolUse>, tools: seq<Tool>, envs: seq<Env>)
      returns (records: seq<seq<Action>>, ends: seq<End>, phase: Phase)
    requires |envs| == |uses|
    ensures |records| == |ends| == |uses|
    ensures forall k :: 0 <= k < |uses| ==> Recorded(uses[k], tools, envs[k], records[k], ends[k])
    ensures phase.PhaseRaised? <==> |uses| == 1 && HookEscapes(uses[0], tools, envs[0])
    ensures phase.PhaseRaised? ==> HookAnswer(uses[0], envs[0]) == HookRaises(phase.message, phase.timeout)
    ensures phase.Results? ==>
              && |phase.blocks| == |uses|
              && forall k :: 0 <= k < |uses| ==>
                   && phase.blocks[k].ResultBlock? && phase.blocks[k].toolUseId == uses[k].id
                   && (ends[k].Done? ==> phase.blocks[k] == ends[k].result)
                   && (ends[k].Escaped? ==> phase.blocks[k] == ResultBlock(uses[k].id, "Error: " + ends[k].message, true))
  {
    hide Recorded, HookEscapes, HookAnswer;
    records, ends := [], [];
    for k := 0 to |uses|
      invariant |records| == |ends| == k
      invariant forall j :: 0 <= j < k ==>
                  && Recorded(uses[j], tools, envs[j], records[j], ends[j])
                  && (ends[j].Escaped? <==> HookEscapes(uses[j], tools, envs[j]))
                  && (ends[j].Escaped? ==> HookAnswer(uses[j], envs[j]) == HookRaises(ends[j].message, ends[j].timeout))
                  && (ends[j].Done? ==> ends[j].result.ResultBlock? && ends[j].result.toolUseId == uses[j].id)
    {
      var actions, end := ExecuteSingleTool(uses[k], tools, envs[k]);
      records, ends := records + [actions], ends + [end];
    }
    if |uses| == 1 {
      match ends[0]
      case Done(result) => return records, ends, Results([result]);
      case Escaped(message, timeout) => return records, ends, PhaseRaised(message, timeout);
    }
    var processed: seq<Block> := [];
    for i := 0 to |ends|
      invariant |processed| == i
      invariant forall j :: 0 <= j < i ==>
                  && processed[j].ResultBlock? && processed[j].toolUseId == uses[j].id
                  && (ends[j].Done? ==> processed[j] == ends[j].result)
                  && (ends[j].Escaped? ==> processed[j] == ResultBlock(uses[j].id, "Error: " + ends[j].message, true))
    {
      match ends[i]
      case Escaped(message, _) => processed := processed + [ResultBlock(uses[i].id, "Error: " + message, true)];
      case Done(result) => processed := processed + [result];
    }
    phase := Results(processed);
  }

  // What the handler is given.

  /** The handler of `tool` was called, for the `attempt`-th time, with the recorded input. */
  predicate IsRun(tool: Tool, action: Action, attempt: int) {
    attempt >= 0 && action.Ran? && action.tool == tool.name && action.outcome == tool.run(action.input, attempt)
  }

  /** Every recorded attempt is one of the first tool with the call's aliased name, in the order of the attempts
      behind the question, if there was one. */
  lemma RanIsAttempt(use: ToolUse, tools: seq<Tool>, env: Env, actions: seq<Action>, end: End, k: nat)
    requires Recorded(use, tools, env, actions, end) && k < |actions| && actions[k].Ran?
    ensures MayRun(use, tools, env)
    ensures actions[k].input == ChosenInput(use, env)
    ensures exists i ::
              && IsFirst(use.name, tools, i)
              && IsRun(tools[i], actions[k], k - if QuestionDue(use, tools, env) then 2 else 0)
  {
    hide MayRun, ChosenInput, NeedsApproval, AsObject, Failed, FailureText;
    var question := if QuestionDue(use, tools, env) then QuestionFor(use, env) else [];
    assert k >= |question| by { assert forall j :: 0 <= j < |question| ==> actions[j] == question[j]; }
    var runs := actions[|question|..];
    assert actions[k] == runs[k - |question|];
    assert MayRun(use, tools, env);
    var i :| IsFirst(use.name, tools, i) && Attempts(use, tools[i], env, runs, end.result);
    assert actions[k] == AttemptAt(use, tools[i], env, k - |question|);
    assert IsRun(tools[i], actions[k], k - |question|);
  }

  /** The input of every attempt: with a sink the hook's override when it has one; else what the user put in its
      place when asked about the call, if that is an object; and otherwise the model's. The hook itself is
      shown the user's input or the model's, as an object. */
  lemma RanInputs(use: ToolUse, tools: seq<Tool>, env: Env, actions: seq<Action>, end: End, k: nat)
    requires Recorded(use, tools, env, actions, end) && k < |actions| && actions[k].Ran?
    ensures var replaced := env.mode.ConfirmSensitive? && use.name in SENSITIVE_TOOLS && env.answer.Got?
                            && env.answer.body.updatedInput.Some? && env.answer.body.updatedInput.value.Obj?;
            var shown := if replaced then env.answer.body.updatedInput.value
                         else if use.input.Obj? then use.input else Obj(map[]);
            var hook := env.hook(shown);
            && (!env.emitBound ==> actions[k].input == use.input)
            && (env.emitBound && hook.Says? && hook.updated.Some? ==> actions[k].input == hook.updated.value)
            && (env.emitBound && !(hook.Says? && hook.updated.Some?) && replaced ==>
                  actions[k].input == env.answer.body.updatedInput.value)
            && (env.emitBound && !(hook.Says? && hook.updated.Some?) && !replaced ==> actions[k].input == use.input)
  {
    hide Recorded, IsFirst;
    RanIsAttempt(use, tools, env, actions, end, k);
  }

  /** The user's replacement is what runs: approved with another input and no override of the hook. */
  lemma ReplacementRuns(use: ToolUse, tools: seq<Tool>, env: Env, actions: seq<Action>, end: End, fields: map<string, Json>)
    requires Recorded(use, tools, env, actions, end) && env.emitBound
    requires env.mode.ConfirmSensitive? && use.name in SENSITIVE_TOOLS
    requires env.answer.Got? && env.answer.body.updatedInput == Some(Obj(fields))
    requires env.hook(Obj(fields)).Nothing?
    ensures forall k :: 0 <= k < |actions| && actions[k].Ran? ==> actions[k].input == Obj(fields)
  {
    hide Recorded;
    forall k | 0 <= k < |actions| && actions[k].Ran?
      ensures actions[k].input == Obj(fields)
    {
      RanInputs(use, tools, env, actions, end, k);
    }
  }

  /** With a sink, the read-only and the plan mode let only the tools of their lists run. */
  lemma ModesRestrict(use: ToolUse, tools: seq<Tool>, env: Env, actions: seq<Action>, end: End, k: nat)
    requires Recorded(use, tools, env, actions, end) && k < |actions| && actions[k].Ran? && env.emitBound
    ensures env.mode.ReadOnly? ==> actions[k].tool in {"AskUser", "Read", "Glob", "Grep", "WebSearch", "WebFetch"}
    ensures env.mode.Plan? ==>
              actions[k].tool in {"AskUser", "Read", "Glob", "Grep", "WebSearch", "WebFetch", "TodoWrite"}
  {
    hide Recorded;
    RanIsAttempt(use, tools, env, actions, end, k);
  }

  /** The result of a call whose handler ran: the text of the last attempt, as an error exactly when that one
      failed; a failure that does not say how often it was tried gets the note that says so. */
  lemma RanResult(use: ToolUse, tools: seq<Tool>, env: Env, actions: seq<Action>, end: End)
    requires Recorded(use, tools, env, actions, end) && actions != [] && actions[|actions| - 1].Ran?
    ensures end.Done? && end.result.ResultBlock? && end.result.toolUseId == use.id
    ensures var last := actions[|actions| - 1].outcome;
            var failed := last.Raises? || env.indicatesError(last.text, use.name);
            && end.result.isError == failed
            && end.result.content ==
                 if failed && last.text != "" && !Contains(last.text, "failed after")
                 then last.text + " (failed after 3 attempts)" else last.text
  {
    hide ChosenInput, NeedsApproval, AsObject, Contains;
    var question := if QuestionDue(use, tools, env) then QuestionFor(use, env) else [];
    RanIsAttempt(use, tools, env, actions, end, |actions| - 1);
    var runs := actions[|question|..];
    assert |actions| > |question| by { assert forall j :: 0 <= j < |question| ==> actions[j] == question[j]; }
    assert runs[|runs| - 1] == actions[|actions| - 1];
  }

  /** What a refused call is told, by its first obstacle: arguments that are not whole, no such tool, the mode, the
      user, the hook. */
  lemma RefusedFor(use: ToolUse, tools: seq<Tool>, env: Env)
    ensures var sensitive := env.mode.ConfirmSensitive? && use.name in SENSITIVE_TOOLS;
            var replaced := sensitive && env.answer.Got? && env.answer.body.approved
                            && env.answer.body.updatedInput.Some? && env.answer.body.updatedInput.value.Obj?;
            var hook := env.hook(if replaced then env.answer.body.updatedInput.value
                                 else if use.input.Obj? then use.input else Obj(map[]));
            var name := if use.name == "WebPage" then "WebFetch" else use.name;
            Refusal(use, tools, env) ==
            if use.input.Obj? && "_partial_json" in use.input.fields then "Error: Tool '" + use.name + TRUNCATED
            else if forall k :: 0 <= k < |tools| ==> tools[k].name != name then "Error: Tool '" + use.name + "' not found."
            else if env.mode.ReadOnly? && use.name !in READ_ONLY_TOOLS then READ_ONLY_BLOCKED
            else if env.mode.Plan? && use.name !in PLAN_MODE_TOOLS then PLAN_BLOCKED
            else if sensitive && env.answer.TimedOut? then APPROVAL_TIMED_OUT
            else if sensitive && !env.answer.body.approved then DECLINED
            else if hook.Says? && hook.message != "" then hook.message
            else "Error: Tool '" + use.name + "' was blocked."
  {
  }

  // Approvals.

  /** Some attempt of the record ran a sensitive tool. */
  ghost predicate RanSensitive(actions: seq<Action>) {
    exists k :: 0 <= k < |actions| && actions[k].Ran? && actions[k].tool in SENSITIVE_TOOLS
  }

  /** Every sensitive attempt comes after a question of its own call that was answered with approval. */
  ghost predicate ApprovedFirst(use: ToolUse, env: Env, actions: seq<Action>) {
    forall k :: 0 <= k < |actions| && actions[k].Ran? && actions[k].tool in SENSITIVE_TOOLS ==>
      exists i, j :: 0 <= i < j < k
        && actions[i] == Asked(env.interaction, use.id, AsObject(use.input))
        && actions[j] == Answered(env.interaction, env.answer) && Approved(env)
  }

  /** The call names a sensitive tool, and nothing keeps its handler from running. */
  predicate WillRunSensitive(use: ToolUse, tools: seq<Tool>, env: Env) {
    Alias(use.name) in SENSITIVE_TOOLS && MayRun(use, tools, env)
  }

  /** In confirm_sensitive mode sensitive attempts come only after their own approval, exactly when an event
      sink is bound or no sensitive tool is about to run: without a sink such a tool runs unasked. */
  lemma SensitiveRunsAreApproved(use: ToolUse, tools: seq<Tool>, env: Env, actions: seq<Action>, end: End)
    requires env.mode.ConfirmSensitive? && Recorded(use, tools, env, actions, end)
    ensures ApprovedFirst(use, env, actions) <==> env.emitBound || !WillRunSensitive(use, tools, env)
  {
    hide AsObject, HookAnswer, ChosenInput, Recorded, IsRun;
    forall k | 0 <= k < |actions| && actions[k].Ran?
      ensures actions[k].tool == Alias(use.name) && MayRun(use, tools, env)
    {
      RanIsAttempt(use, tools, env, actions, end, k);
      RanTool(use, tools, env, actions, end, k);
    }
    if env.emitBound {
      forall k | 0 <= k < |actions| && actions[k].Ran? && actions[k].tool in SENSITIVE_TOOLS
        ensures exists i, j :: 0 <= i < j < k && actions[i] == Asked(env.interaction, use.id, AsObject(use.input))
                               && actions[j] == Answered(env.interaction, env.answer) && Approved(env)
      {
        QuestionFirst(use, tools, env, actions, end, k);
      }
    }
    if !env.emitBound && MayRun(use, tools, env) {
      RunsUnasked(use, tools, env, actions, end);
    }
  }

  lemma RanTool(use: ToolUse, tools: seq<Tool>, env: Env, actions: seq<Action>, end: End, k: nat)
    requires Recorded(use, tools, env, actions, end) && k < |actions| && actions[k].Ran?
    ensures actions[k].tool == Alias(use.name)
  {
    hide Recorded;
    RanIsAttempt(use, tools, env, actions, end, k);
  }

  lemma QuestionFirst(use: ToolUse, tools: seq<Tool>, env: Env, actions: seq<Action>, end: End, k: nat)
    requires Recorded(use, tools, env, actions, end) && k < |actions| && actions[k].Ran?
    requires QuestionDue(use, tools, env)
    ensures 2 <= k && actions[0] == Asked(env.interaction, use.id, AsObject(use.input))
    ensures actions[1] == Answered(env.interaction, env.answer)
  {
    hide AsObject, RunsFor, QuestionDue;
    var question := QuestionFor(use, env);
    assert forall j :: 0 <= j < |question| ==> actions[j] == question[j];
  }

  /** Without a sink, a call that will run a sensitive tool does so at once. */
  lemma RunsUnasked(use: ToolUse, tools: seq<Tool>, env: Env, actions: seq<Action>, end: End)
    requires Recorded(use, tools, env, actions, end) && !env.emitBound && MayRun(use, tools, env)
    ensures actions != [] && actions[0].Ran? && actions[0].tool == Alias(use.name)
  {
  }

  /** Without an event sink: one shell call, in confirm_sensitive mode, whatever the user would say. */
  lemma UnboundRunsUnasked(use: ToolUse, env: Env, handler: (Json, nat) -> Outcome)
    requires use.name == "Bash" && use.input == Obj(map[])
    requires env.mode.ConfirmSensitive? && !env.emitBound
    requires handler(use.input, 0) == Output("done") && !env.indicatesError("done", "Bash")
    ensures var actions := [Ran("Bash", use.input, Output("done"))];
            && Recorded(use, [Tool("Bash", handler)], env, actions, Done(ResultBlock(use.id, "done", false)))
            && !ApprovedFirst(use, env, actions)
  {
    var bash := Tool("Bash", handler);
    var actions := [Ran("Bash", use.input, Output("done"))];
    var end := Done(ResultBlock(use.id, "done", false));
    assert [bash][0].name == Alias(use.name);
    assert IsFirst(use.name, [bash], 0) && Attempts(use, [bash][0], env, actions, end.result);
    assert actions[0..] == actions;
    assert actions[0].Ran? && actions[0].tool in SENSITIVE_TOOLS;
  }

  /** In the protocol run `steps`, the question of a call was registered by step `at`, and its wait ended
      with the call's answer. */
  ghost predicate TookPartIn(env: Env, steps: seq<P.Step>, at: nat)
    requires P.Run(P.INIT, steps).Some?
  {
    && at < |steps| && steps[at].Register? && steps[at].id == env.interaction
    && P.WaiterAt(P.Run(P.INIT, steps).value, env.interaction) == Some(P.Finished(env.answer))
  }

  ghost predicate ApprovedBy(s: P.State, env: Env, call: nat) {
    exists body: P.Reply :: P.Won(s, call, env.interaction, body) && body.approved
  }

  /** The answer that let a sensitive tool run is the body of a `resolve` that returned true. */
  lemma ApprovalWasResolved(use: ToolUse, tools: seq<Tool>, env: Env, actions: seq<Action>, end: End,
                            steps: seq<P.Step>, at: nat)
    requires env.mode.ConfirmSensitive? && env.emitBound && Recorded(use, tools, env, actions, end)
    requires RanSensitive(actions) && P.Run(P.INIT, steps).Some? && TookPartIn(env, steps, at)
    ensures exists call: nat :: ApprovedBy(P.Run(P.INIT, steps).value, env, call)
  {
    hide P.Run, Recorded;
    var s := P.Run(P.INIT, steps).value;
    SensitiveRunsAreApproved(use, tools, env, actions, end);
    var k :| 0 <= k < |actions| && actions[k].Ran? && actions[k].tool in SENSITIVE_TOOLS;
    assert Approved(env);
    P.SafeInEveryRun(steps);
    assert P.GotBy(s, env.interaction, env.answer.body);
    var call: nat :| P.Won(s, call, env.interaction, env.answer.body);
    assert ApprovedBy(s, env, call);
  }

  /** Whatever else happens in the process, every call that runs a sensitive tool in confirm_sensitive
      mode has been approved by a `resolve` of its own: no answer serves two calls. */
  lemma OwnApprovals(uses: seq<ToolUse>, tools: seq<Tool>, envs: seq<Env>, records: seq<seq<Action>>, ends: seq<End>,
                     steps: seq<P.Step>, at: seq<nat>)
    requires |uses| == |envs| == |records| == |ends| == |at|
    requires P.Run(P.INIT, steps).Some?
    requires forall k :: 0 <= k < |uses| ==>
               && envs[k].mode.ConfirmSensitive? && envs[k].emitBound
               && Recorded(uses[k], tools, envs[k], records[k], ends[k])
               && (RanSensitive(records[k]) ==> TookPartIn(envs[k], steps, at[k]))
    requires forall j, k :: 0 <= j < k < |at| ==> at[j] != at[k]
    ensures forall k :: 0 <= k < |uses| && RanSensitive(records[k]) ==>
              exists call: nat :: ApprovedBy(P.Run(P.INIT, steps).value, envs[k], call)
    ensures forall j, k, call ::
              0 <= j < k < |uses| && RanSensitive(records[j]) && RanSensitive(records[k]) ==>
                !(ApprovedBy(P.Run(P.INIT, steps).value, envs[j], call)
                  && ApprovedBy(P.Run(P.INIT, steps).value, envs[k], call))
  {
    hide P.Run, Recorded, RanSensitive;
    forall k | 0 <= k < |uses| && RanSensitive(records[k])
      ensures exists call: nat :: ApprovedBy(P.Run(P.INIT, steps).value, envs[k], call)
    {
      ApprovalWasResolved(uses[k], tools, envs[k], records[k], ends[k], steps, at[k]);
    }
    forall j, k | 0 <= j < k < |uses| && RanSensitive(records[j]) && RanSensitive(records[k])
      ensures envs[j].interaction != envs[k].interaction
    {
      if at[j] < at[k] {
        P.RegisteredOnce(P.INIT, steps, at[j], at[k]);
      } else {
        P.RegisteredOnce(P.INIT, steps, at[k], at[j]);
      }
    }
  }
}

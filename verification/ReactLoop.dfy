/** The ReAct loop (`_iterate_react_steps` and `_synthesize_final_reply` in koraku/agent/run.py, with the
    loop tracker of koraku/agent/budget.py) against an arbitrary model, clock, user and set of tools. */
module ReactLoop {
  import opened Wrappers
  import opened Json
  import opened Messages
  import C = ContextManager
  import S = SentContents
  import T = ToolExecutor

  const LOOP_STEERING_USER := "System: You repeated the same tool with the same arguments."
  const BUDGET_STEERING_USER := "System: Turn time or step budget is almost exhausted."
  const BUDGET_EXHAUSTED_USER := "System: Turn budget is exhausted."

  datatype Limits = Limits(maxRounds: int, warnRounds: int, synthesizeOnExhaust: bool)

  /** An event of the model's stream, as far as the loop looks at it. */
  datatype ModelEvent = AssistantMessage(content: seq<Block>) | Passing(payload: string)

  /** What one turn of the reading loop meets. */
  datatype Poll =
    | SeesCancel
    | PastDeadline
    | ChunkTimesOut
    | Fails(message: string)
    | Gets(event: ModelEvent)

  /** What the loop meets in one round. A stream whose polls run out has ended by itself. A request to
      cancel is never taken back, so one that was seen while reading is still there afterwards. */
  datatype Round = Round(
    wallAtTop: bool,
    cancelAtTop: bool,
    wallAtWarning: bool,
    memoryNote: string,
    polls: seq<Poll>,
    cancelAfter: bool,
    toolsTimeOut: bool,
    envs: nat -> T.Env,
    findings: nat)

  /** The stream of the closing call without tools. */
  datatype Finale = Finale(events: seq<ModelEvent>, fails: bool)

  datatype Output =
    | Context(messages: nat)
    | Stream(event: ModelEvent)
    | ToolExecution(use: ToolUse, parallel: bool)
    | ToolResult(result: Block)
    | Memory(findings: nat)
    | Completed(reason: string, steps: int)
    | Cancelled(steps: int)
    | TimedOut

  /** How the loop ends: by itself; with a synthesized reply; or with an exception that escapes from the
      model's stream or from the tool phase. */
  datatype Ending = Finished | Synthesized(reply: seq<Block>) | StreamRaised | ToolsRaised {
    predicate Raised() {
      StreamRaised? || ToolsRaised?
    }
  }

  class Session {
    var messages: seq<Message>
    var stepCount: int

    constructor (messages: seq<Message>, stepCount: int)
      ensures this.messages == messages && this.stepCount == stepCount
    {
      this.messages, this.stepCount := messages, stepCount;
    }

    /** `add_message` */
    method AddMessage(role: Role, content: Content)
      modifies this`messages
      ensures messages == old(messages) + [Message(role, content)]
    {
      messages := messages + [Message(role, content)];
    }
  }

  predicate Terminal(o: Output) {
    o.Completed? || o.Cancelled? || o.TimedOut?
  }

  ghost predicate NoTerminal(outs: seq<Output>) {
    forall k :: 0 <= k < |outs| ==> !Terminal(outs[k])
  }

  /** Exactly one terminal event, and nothing behind it. */
  ghost predicate EndsOnce(outs: seq<Output>) {
    outs != [] && Terminal(outs[|outs| - 1]) && NoTerminal(outs[..|outs| - 1])
  }

  // The loop tracker.

  type CallKey = (string, string)

  function CallKeys(key: Json -> string, uses: seq<ToolUse>): seq<CallKey> {
    seq(|uses|, k requires 0 <= k < |uses| => (uses[k].name, key(uses[k].input)))
  }

  /** `recent` is the end of `history`, all of it unless that is longer than sixteen calls. */
  ghost predicate Remembers(recent: seq<CallKey>, history: seq<CallKey>) {
    && |recent| <= |history| && recent == history[|history| - |recent|..]
    && (|recent| == |history| || 16 <= |recent|)
  }

  lemma RemembersOneMore(recent: seq<CallKey>, history: seq<CallKey>, call: CallKey)
    requires Remembers(recent, history)
    ensures Remembers(recent + [call], history + [call])
  {
  }

  lemma RemembersSixteen(recent: seq<CallKey>, history: seq<CallKey>)
    requires Remembers(recent, history) && |recent| > 16
    ensures Remembers(recent[|recent| - 16..], history)
  {
  }

  /** `LoopTracker`: it keeps at most sixteen calls, `history` all of them. */
  class LoopTracker {
    var recent: seq<CallKey>
    ghost var history: seq<CallKey>

    ghost predicate Valid()
      reads this
    {
      Remembers(recent, history)
    }

    constructor ()
      ensures Valid() && history == []
    {
      recent, history := [], [];
    }

    method Record(key: Json -> string, uses: seq<ToolUse>)
      requires Valid()
      modifies this
      ensures Valid() && history == old(history) + CallKeys(key, uses)
    {
      hide Remembers;
      ghost var calls := CallKeys(key, uses);
      for k := 0 to |uses|
        invariant Valid() && history == old(history) + calls[..k]
      {
        var call := (uses[k].name, key(uses[k].input));
        RemembersOneMore(recent, history, call);
        assert calls[..k + 1] == calls[..k] + [call];
        recent, history := recent + [call], history + [call];
      }
      if |recent| > 16 {
        RemembersSixteen(recent, history);
        recent := recent[|recent| - 16..];
      }
    }

    /** The bounded list decides as the whole history would. */
    method HasRepeat() returns (repeat: bool)
      requires Valid()
      ensures repeat <==> 2 <= |history| && history[|history| - 1] == history[|history| - 2]
    {
      if |recent| < 2 {
        return false;
      }
      repeat := recent[|recent| - 1] == recent[|recent| - 2];
    }
  }

  // Reading one model stream.

  /** The content of the last `assistant_message` among the outputs. */
  function ReplyIn(outs: seq<Output>): seq<Block> {
    if outs == [] then []
    else
      var last := outs[|outs| - 1];
      if last.Stream? && last.event.AssistantMessage? then last.event.content else ReplyIn(outs[..|outs| - 1])
  }

  datatype Stop = Whole | Late | CancelSeen | Broken

  /** What the polls up to the first interruption deliver. */
  function Delivered(polls: seq<Poll>): (outs: seq<Output>)
    ensures forall k :: 0 <= k < |outs| ==> outs[k].Stream?
  {
    if polls == [] || !polls[0].Gets? then [] else [Stream(polls[0].event)] + Delivered(polls[1..])
  }

  function StopOf(polls: seq<Poll>): Stop {
    if polls == [] then Whole
    else
      match polls[0]
      case Gets(_) => StopOf(polls[1..])
      case SeesCancel => CancelSeen
      case Fails(_) => Broken
      case _ => Late
  }

  lemma DeliveredNext(polls: seq<Poll>, i: nat)
    requires i < |polls|
    ensures polls[i].Gets? ==>
              && Delivered(polls[i..]) == [Stream(polls[i].event)] + Delivered(polls[i + 1..])
              && StopOf(polls[i..]) == StopOf(polls[i + 1..])
    ensures !polls[i].Gets? ==> Delivered(polls[i..]) == []
    ensures polls[i].SeesCancel? ==> StopOf(polls[i..]) == CancelSeen
    ensures polls[i].Fails? ==> StopOf(polls[i..]) == Broken
    ensures polls[i].PastDeadline? || polls[i].ChunkTimesOut? ==> StopOf(polls[i..]) == Late
  {
    assert polls[i..][1..] == polls[i + 1..];
  }

  lemma DeliveredEnd(polls: seq<Poll>)
    ensures Delivered(polls[|polls|..]) == [] && StopOf(polls[|polls|..]) == Whole
  {
  }

  lemma ReplyNext(outs: seq<Output>, event: ModelEvent)
    ensures ReplyIn(outs + [Stream(event)]) == if event.AssistantMessage? then event.content else ReplyIn(outs)
  {
    assert (outs + [Stream(event)])[..|outs|] == outs;
  }

  lemma NoReply()
    ensures ReplyIn([]) == []
  {
  }

  method ReadStream(polls: seq<Poll>) returns (content: seq<Block>, outs: seq<Output>, stop: Stop)
    ensures outs == Delivered(polls) && stop == StopOf(polls)
    ensures content == ReplyIn(outs)
  {
    hide *;
    content, outs := [], [];
    var i := 0;
    NoReply();
    DeliveredEnd(polls);
    assert polls[0..] == polls;
    while i < |polls|
      invariant i <= |polls| && content == ReplyIn(outs)
      invariant outs + Delivered(polls[i..]) == Delivered(polls)
      invariant StopOf(polls[i..]) == StopOf(polls)
    {
      DeliveredNext(polls, i);
      match polls[i] {
        case SeesCancel => return content, outs, CancelSeen;
        case PastDeadline => return content, outs, Late;
        case ChunkTimesOut => return content, outs, Late;
        case Fails(_) => return content, outs, Broken;
        case Gets(event) =>
          ReplyNext(outs, event);
          assert outs + ([Stream(event)] + Delivered(polls[i + 1..])) == outs + [Stream(event)] + Delivered(polls[i + 1..]);
          outs := outs + [Stream(event)];
          if event.AssistantMessage? {
            content := event.content;
          }
      }
      i := i + 1;
    }
    stop := Whole;
  }

  // Appending to a paired transcript.

  lemma AppendOne(msgs: seq<Message>, m: Message)
    requires Paired(msgs) && ResultIds(m) == []
    ensures Paired(msgs + [m]) <==> UseIds(m) == []
    ensures PairedSoFar([], msgs + [m]) && Due([], msgs + [m]) == UseIds(m)
  {
    hide UseIds, ResultIds, Answers;
    PairedIsComplete([], msgs);
    PairedConcat([], msgs, [m]);
    assert [m][1..] == [];
    SoFarConcat([], msgs, m);
  }

  lemma {:induction false} SoFarConcat(pending: seq<string>, a: seq<Message>, m: Message)
    requires PairedAfter(pending, a) && ResultIds(m) == []
    ensures PairedSoFar(pending, a + [m]) && Due(pending, a + [m]) == UseIds(m)
    decreases |a|
  {
    hide UseIds, ResultIds, Answers;
    if a == [] {
      assert a + [m] == [m] && [m][1..] == [];
    } else {
      assert (a + [m])[1..] == a[1..] + [m];
      SoFarConcat(if pending != [] then [] else UseIds(a[0]), a[1..], m);
    }
  }

  lemma AppendAnswer(msgs: seq<Message>, m: Message, results: Message)
    requires Paired(msgs) && ResultIds(m) == [] && UseIds(m) != [] && Answers(results, UseIds(m))
    ensures Paired(msgs + [m] + [results])
  {
    hide UseIds, ResultIds, Answers;
    AppendOne(msgs, m);
    PairedConcat([], msgs + [m], [results]);
    assert [results][1..] == [];
  }

  lemma {:induction false} ResultIdsAre(blocks: seq<Block>, ids: seq<string>)
    requires |blocks| == |ids|
    requires forall k :: 0 <= k < |blocks| ==> blocks[k].ResultBlock? && blocks[k].toolUseId == ids[k]
    ensures ResultsIn(blocks) == ids
    decreases |blocks|
  {
    if blocks != [] {
      ResultIdsAre(blocks[1..], ids[1..]);
    }
  }

  lemma ResultsAnswer(content: seq<Block>, blocks: seq<Block>)
    requires UsesIn(content) != [] && |blocks| == |UsesIn(content)|
    requires forall k :: 0 <= k < |blocks| ==> blocks[k].ResultBlock? && blocks[k].toolUseId == UsesIn(content)[k].id
    ensures Answers(Message(User, Blocks(blocks)), UseIds(Message(Assistant, Blocks(content))))
  {
    hide UsesIn, ResultsIn;
    ResultIdsAre(blocks, Ids(UsesIn(content)));
  }

  // What is sent to the model.

  function Note(text: string): Message {
    Message(User, Plain(text))
  }

  /** Paired up to the seam of the context manager, and behind it but for one orphan. */
  ghost predicate SentPaired(context: seq<Message>) {
    exists seam: nat :: seam <= 2 && PairedAround(context, seam)
  }

  predicate PairedAround(context: seq<Message>, seam: nat) {
    seam <= |context| && Paired(context[..seam]) && C.PairedButFirst(context[seam..])
  }

  /** What the pairing of everything that is sent rests on. */
  predicate GoodStart(manager: C.Manager, msgs: seq<Message>) {
    Paired(msgs) && msgs != [] && UseIds(msgs[0]) == [] && manager.maxMessages >= 2
  }

  lemma ProcessedIsSentPaired(manager: C.Manager, msgs: seq<Message>)
    requires GoodStart(manager, msgs)
    ensures SentPaired(C.Process(manager, msgs))
  {
    hide UseIds, PairedAfter, C.PairedButFirst, C.Process, C.Cleaned;
    C.ProcessKeepsPairing(manager, msgs);
    assert PairedAround(C.Process(manager, msgs), C.Seam(manager, |C.Cleaned(manager, msgs)|));
  }

  lemma NoteIsPlain(text: string)
    ensures UseIds(Note(text)) == [] && ResultIds(Note(text)) == [] && !ResultsOnly(Note(text))
  {
  }

  lemma NoteKeepsSentPaired(context: seq<Message>, text: string)
    requires SentPaired(context)
    ensures SentPaired(context + [Note(text)])
  {
    hide UseIds, ResultIds, PairedAfter, ResultsOnly;
    var seam: nat :| seam <= 2 && PairedAround(context, seam);
    var back, more := context[seam..], context + [Note(text)];
    assert more[..seam] == context[..seam] && more[seam..] == back + [Note(text)];
    NoteIsPlain(text);
    if Paired(back) {
      AppendOne(back, Note(text));
    } else {
      AppendOne(back[1..], Note(text));
      assert (back + [Note(text)])[1..] == back[1..] + [Note(text)];
    }
    assert PairedAround(more, seam);
  }

  // The loop.

  /** How far a run that starts at `steps` may count. */
  function StepLimit(limits: Limits, steps: int): int {
    if steps < limits.maxRounds then limits.maxRounds else steps
  }

  function Notes(texts: seq<string>): seq<Message> {
    seq(|texts|, k requires 0 <= k < |texts| => Note(texts[k]))
  }

  /** The context is what the context manager makes of the transcript as it stood at some time, and notes. */
  ghost predicate SentFrom(manager: C.Manager, msgs: seq<Message>, context: seq<Message>) {
    exists n: nat, texts: seq<string> :: n <= |msgs| && context == C.Process(manager, msgs[..n]) + Notes(texts)
  }

  ghost predicate AllSentFrom(manager: C.Manager, msgs: seq<Message>, sent: seq<seq<Message>>) {
    forall k :: 0 <= k < |sent| ==> SentFrom(manager, msgs, sent[k])
  }

  lemma SentFromNow(manager: C.Manager, msgs: seq<Message>, texts: seq<string>)
    ensures SentFrom(manager, msgs, C.Process(manager, msgs) + Notes(texts))
  {
    assert msgs[..|msgs|] == msgs;
  }

  /** A longer transcript accounts for the same contexts. */
  lemma SentFromGrows(manager: C.Manager, msgs: seq<Message>, more: seq<Message>, sent: seq<seq<Message>>)
    requires AllSentFrom(manager, msgs, sent) && msgs <= more
    ensures AllSentFrom(manager, more, sent)
  {
    forall k | 0 <= k < |sent|
      ensures SentFrom(manager, more, sent[k])
    {
      assert SentFrom(manager, msgs, sent[k]);
      var n: nat, texts :| n <= |msgs| && sent[k] == C.Process(manager, msgs[..n]) + Notes(texts);
      assert more[..n] == msgs[..n];
    }
  }

  /** What every state of a run keeps about the transcript and what was sent. */
  ghost predicate Keeps(manager: C.Manager, start: seq<Message>, msgs: seq<Message>, sent: seq<seq<Message>>) {
    && start <= msgs
    && (Paired(start) ==> Paired(msgs))
    && AllSentPaired(manager, start, sent)
    && AllSentFrom(manager, msgs, sent)
  }

  ghost predicate AllSentPaired(manager: C.Manager, start: seq<Message>, sent: seq<seq<Message>>) {
    GoodStart(manager, start) ==> forall k :: 0 <= k < |sent| ==> SentPaired(sent[k])
  }

  /** The transcript is paired at the end of a run, unless the synthesized reply used tools or an
      exception left a call unanswered. */
  predicate LeavesPaired(ending: Ending) {
    (ending.Synthesized? ==> UsesIn(ending.reply) == []) && !ending.ToolsRaised?
  }

  lemma NoteKeeps(manager: C.Manager, start: seq<Message>, msgs: seq<Message>, sent: seq<seq<Message>>, text: string)
    requires Keeps(manager, start, msgs, sent)
    ensures Keeps(manager, start, msgs + [Message(User, Plain(text))], sent)
  {
    hide UseIds, ResultIds, PairedAfter, AllSentPaired, AllSentFrom;
    NoteIsPlain(text);
    SentFromGrows(manager, msgs, msgs + [Note(text)], sent);
    if Paired(start) {
      AppendOne(msgs, Note(text));
    }
  }

  lemma GoodStays(manager: C.Manager, start: seq<Message>, msgs: seq<Message>)
    requires GoodStart(manager, start) && start <= msgs && Paired(msgs)
    ensures GoodStart(manager, msgs)
  {
  }

  /** `process_messages` and the notes put behind it. */
  method BuildContext(manager: C.Manager, ghost start: seq<Message>, messages: seq<Message>, notes: seq<string>)
      returns (context: seq<Message>)
    requires start <= messages && (Paired(start) ==> Paired(messages))
    ensures context == C.Process(manager, messages) + Notes(notes)
    ensures GoodStart(manager, start) ==> SentPaired(context)
  {
    hide PairedAfter, UseIds, SentPaired, C.Process;
    context := C.ProcessMessages(manager, messages);
    if GoodStart(manager, start) {
      GoodStays(manager, start, messages);
      ProcessedIsSentPaired(manager, messages);
    }
    for k := 0 to |notes|
      invariant context == C.Process(manager, messages) + Notes(notes)[..k]
      invariant GoodStart(manager, start) ==> SentPaired(context)
    {
      if GoodStart(manager, start) {
        NoteKeepsSentPaired(context, notes[k]);
      }
      assert Notes(notes)[..k + 1] == Notes(notes)[..k] + [Note(notes[k])];
      context := context + [Note(notes[k])];
    }
  }

  lemma AssistantUses(content: seq<Block>)
    ensures UseIds(Message(Assistant, Blocks(content))) == Ids(UsesIn(content))
    ensures ResultIds(Message(Assistant, Blocks(content))) == []
    ensures UseIds(Message(Assistant, Blocks(content))) == [] <==> UsesIn(content) == []
  {
  }

  method ToolUsesIn(content: seq<Block>) returns (uses: seq<ToolUse>)
    ensures uses == UsesIn(content)
  {
    uses := [];
    for i := 0 to |content|
      invariant uses + UsesIn(content[i..]) == UsesIn(content)
    {
      if content[i].ToolBlock? {
        uses := uses + [content[i].use];
      }
    }
  }

  /** The hook of a lone call raises. */
  predicate HookRaised(tools: seq<T.Tool>, round: Round, uses: seq<ToolUse>) {
    !round.toolsTimeOut && |uses| == 1 && T.HookEscapes(uses[0], tools, round.envs(0))
  }

  /** An exception leaves the tool phase: the hook of a lone call raises, and not a `TimeoutError`, which
      the phase takes for its own. */
  predicate ToolsEscape(tools: seq<T.Tool>, round: Round, uses: seq<ToolUse>) {
    HookRaised(tools, round, uses) && !T.HookAnswer(uses[0], round.envs(0)).timeout
  }

  predicate ToolsLate(tools: seq<T.Tool>, round: Round, uses: seq<ToolUse>) {
    round.toolsTimeOut || (HookRaised(tools, round, uses) && T.HookAnswer(uses[0], round.envs(0)).timeout)
  }

  function LateResults(uses: seq<ToolUse>): seq<Block> {
    seq(|uses|, k requires 0 <= k < |uses| =>
      ResultBlock(uses[k].id, "Error: Tool execution exceeded the limit for this step.", true))
  }

  function Executions(uses: seq<ToolUse>): seq<Output> {
    seq(|uses|, k requires 0 <= k < |uses| => ToolExecution(uses[k], |uses| > 1))
  }

  function Results(results: seq<Block>): seq<Output> {
    seq(|results|, k requires 0 <= k < |results| => ToolResult(results[k]))
  }

  lemma PhaseIsQuiet(uses: seq<ToolUse>, results: seq<Block>, returned: bool)
    ensures NoTerminal(Executions(uses) + if returned then Results(results) else [])
  {
  }

  /** The events in front of the tool phase. */
  method AnnounceTools(uses: seq<ToolUse>) returns (outs: seq<Output>)
    ensures outs == Executions(uses)
    ensures |outs| == |uses| && forall k :: 0 <= k < |uses| ==> outs[k] == ToolExecution(uses[k], |uses| > 1)
  {
    outs := [];
    for k := 0 to |uses|
      invariant outs == Executions(uses)[..k]
    {
      outs := outs + [ToolExecution(uses[k], |uses| > 1)];
    }
  }

  /** The events behind it. */
  method ReportResults(results: seq<Block>) returns (outs: seq<Output>)
    ensures outs == Results(results)
  {
    outs := [];
    for k := 0 to |results|
      invariant outs == Results(results)[..k]
    {
      outs := outs + [ToolResult(results[k])];
    }
  }

  /** `result` is what the call `use` comes to: the notice of a phase that was late, or else the end of the call's
      own record, with an exception that escaped turned into an error. */
  ghost predicate ResultOf(use: ToolUse, tools: seq<T.Tool>, env: T.Env, late: bool, result: Block) {
    if late then result == ResultBlock(use.id, "Error: Tool execution exceeded the limit for this step.", true)
    else exists actions, end ::
      T.Recorded(use, tools, env, actions, end)
      && result == if end.Done? then end.result else ResultBlock(use.id, "Error: " + end.message, true)
  }

  /** One result for each of the calls, in their order. */
  ghost predicate AllAnswered(tools: seq<T.Tool>, round: Round, uses: seq<ToolUse>, results: seq<Block>) {
    && |results| == |uses|
    && forall k :: 0 <= k < |uses| ==>
         && results[k].ResultBlock? && results[k].toolUseId == uses[k].id
         && ResultOf(uses[k], tools, round.envs(k), ToolsLate(tools, round, uses), results[k])
  }

  /** The tool phase of a round: the results, each for its own call, timed out or not. */
  method RunTools(session: Session, tools: seq<T.Tool>, round: Round, uses: seq<ToolUse>)
      returns (results: seq<Block>, outs: seq<Output>, returned: bool)
    modifies session`messages
    ensures returned <==> !ToolsEscape(tools, round, uses)
    ensures outs == Executions(uses) + if returned then Results(results) else []
    ensures !returned ==> session.messages == old(session.messages)
    ensures returned ==>
              && session.messages == old(session.messages) + [Message(User, Blocks(results))]
              && AllAnswered(tools, round, uses, results)
  {
    hide T.HookEscapes, T.Recorded, Results;
    outs := AnnounceTools(uses);
    if round.toolsTimeOut {
      results := LateResults(uses);
    } else {
      var records, ends, phase :=
        T.ExecuteToolsParallel(uses, tools, seq(|uses|, k requires 0 <= k < |uses| => round.envs(k)));
      if phase.PhaseRaised? && !phase.timeout {
        assert outs + [] == outs;
        return [], outs, false;
      }
      results := if phase.PhaseRaised? then LateResults(uses) else phase.blocks;
      forall k | 0 <= k < |uses|
        ensures ResultOf(uses[k], tools, round.envs(k), ToolsLate(tools, round, uses), results[k])
      {
        assert T.Recorded(uses[k], tools, round.envs(k), records[k], ends[k]);
      }
    }
    var reports := ReportResults(results);
    outs := outs + reports;
    session.AddMessage(User, Blocks(results));
    returned := true;
  }

  /** The content of the last message that the round's stream delivers, and the calls in it. */
  function Reply(now: Round): seq<Block> {
    ReplyIn(Delivered(now.polls))
  }

  function Calls(now: Round): seq<ToolUse> {
    UsesIn(Reply(now))
  }

  lemma RoundKeeps(manager: C.Manager, start: seq<Message>, msgs: seq<Message>, sent: seq<seq<Message>>,
                   content: seq<Block>, results: seq<Block>)
    requires Keeps(manager, start, msgs, sent) && UsesIn(content) != [] && |results| == |UsesIn(content)|
    requires forall k :: 0 <= k < |results| ==>
               results[k].ResultBlock? && results[k].toolUseId == UsesIn(content)[k].id
    ensures Keeps(manager, start, msgs + [Message(Assistant, Blocks(content))] + [Message(User, Blocks(results))], sent)
  {
    hide UseIds, ResultIds, PairedAfter, AllSentPaired, AllSentFrom, UsesIn;
    AssistantUses(content);
    ResultsAnswer(content, results);
    SentFromGrows(manager, msgs, msgs + [Message(Assistant, Blocks(content))] + [Message(User, Blocks(results))], sent);
    if Paired(start) {
      AppendAnswer(msgs, Message(Assistant, Blocks(content)), Message(User, Blocks(results)));
    }
  }

  lemma OneMoreSent(manager: C.Manager, start: seq<Message>, msgs: seq<Message>, sent: seq<seq<Message>>,
                    context: seq<Message>, texts: seq<string>)
    requires AllSentPaired(manager, start, sent) && (GoodStart(manager, start) ==> SentPaired(context))
    requires AllSentFrom(manager, msgs, sent) && context == C.Process(manager, msgs) + Notes(texts)
    ensures AllSentPaired(manager, start, sent + [context]) && AllSentFrom(manager, msgs, sent + [context])
  {
    hide SentFrom, SentPaired, C.Process;
    SentFromNow(manager, msgs, texts);
  }

  lemma OneMoreOutput(outs: seq<Output>, more: seq<Output>)
    requires NoTerminal(outs)
    ensures NoTerminal(more) ==> NoTerminal(outs + more)
    ensures EndsOnce(more) ==> EndsOnce(outs + more) && (outs + more)[|outs + more| - 1] == more[|more| - 1]
  {
    if EndsOnce(more) {
      assert (outs + more)[..|outs + more| - 1] == outs + more[..|more| - 1];
    }
  }

  /** A result of the model's stream that ends the run, or None. */
  function StreamOutcome(round: Round, stop: Stop, steps: int): Option<Output> {
    if stop.Late? then Some(TimedOut)
    else if stop.CancelSeen? || round.cancelAfter then Some(Cancelled(steps))
    else None
  }

  /** The one way a run may end where it ends. */
  datatype Verdict = GoesOn | WallOut | CancelRequested | StreamLate | Replied | StreamBreaks | ToolsBreak

  /** What the round `now` means for the run. */
  function VerdictOf(tools: seq<T.Tool>, now: Round): Verdict {
    if now.wallAtTop then WallOut
    else if now.cancelAtTop then CancelRequested
    else if StopOf(now.polls).Broken? then StreamBreaks
    else if StopOf(now.polls).Late? then StreamLate
    else if StopOf(now.polls).CancelSeen? || now.cancelAfter then CancelRequested
    else
      var uses := UsesIn(ReplyIn(Delivered(now.polls)));
      if uses == [] then Replied else if ToolsEscape(tools, now, uses) then ToolsBreak else GoesOn
  }

  predicate EndsWith(outs: seq<Output>, o: Output) {
    outs != [] && outs[|outs| - 1] == o
  }

  /** The closing call without tools: its reply ends the run, unless its stream fails. */
  predicate ClosesBy(reason: string, finale: Finale, ending: Ending, outs: seq<Output>, steps: int) {
    if finale.fails then ending.StreamRaised?
    else ending == Synthesized(LastReply(finale.events)) && EndsWith(outs, Completed(reason, steps))
  }

  function LastReply(events: seq<ModelEvent>): seq<Block> {
    ReplyIn(Streams(events))
  }

  function Streams(events: seq<ModelEvent>): seq<Output> {
    seq(|events|, k requires 0 <= k < |events| => Stream(events[k]))
  }

  /** How a verdict ends the run. */
  predicate Decides(v: Verdict, finale: Finale, ending: Ending, outs: seq<Output>, steps: int) {
    match v
    case GoesOn => false
    case WallOut => ClosesBy("wall_clock_exhausted", finale, ending, outs, steps)
    case CancelRequested => ending.Finished? && EndsWith(outs, Cancelled(steps))
    case StreamLate => ending.Finished? && EndsWith(outs, TimedOut)
    case Replied => ending.Finished? && EndsWith(outs, Completed("end_turn", steps))
    case StreamBreaks => ending.StreamRaised?
    case ToolsBreak => ending.ToolsRaised?
  }

  /** What the closing call without tools leaves in the transcript: its instruction, and its reply if it has one. */
  function Synthesis(finale: Finale): seq<Message> {
    [Note(BUDGET_EXHAUSTED_USER)]
    + if finale.fails then [] else [Message(Assistant, Blocks(LastReply(finale.events)))]
  }

  function SynthesisOutputs(reason: string, finale: Finale, steps: int): seq<Output> {
    Streams(finale.events) + if finale.fails then [] else [Completed(reason, steps)]
  }

  /** What the round that ends a run leaves in the transcript. */
  function Closing(v: Verdict, now: Round, finale: Finale): seq<Message> {
    match v
    case WallOut => Synthesis(finale)
    case Replied => [Message(Assistant, Blocks(Reply(now)))]
    case ToolsBreak => [Message(Assistant, Blocks(Reply(now)))]
    case _ => []
  }

  /** What it emits behind its context. */
  function ClosingOutputs(v: Verdict, now: Round, steps: int): seq<Output> {
    Delivered(now.polls) +
    match v
    case CancelRequested => [Cancelled(steps)]
    case StreamLate => [TimedOut]
    case Replied => [Completed("end_turn", steps)]
    case ToolsBreak => Executions(Calls(now))
    case _ => []
  }

  /** How a run ends that has used up its rounds. */
  predicate RunsOut(limits: Limits, finale: Finale, ending: Ending, outs: seq<Output>, steps: int) {
    if limits.synthesizeOnExhaust then ClosesBy("max_rounds_reached", finale, ending, outs, steps)
    else ending.Finished? && EndsWith(outs, Completed("max_steps_reached", steps))
  }

  /** What holds when a run ends with `ending`, behind the outputs `outs`. */
  ghost predicate Ends(ending: Ending, outs: seq<Output>, start: seq<Message>, msgs: seq<Message>) {
    && (if ending.Raised() then NoTerminal(outs) else EndsOnce(outs))
    && (Paired(start) ==> (Paired(msgs) <==> LeavesPaired(ending)))
  }

  lemma FinishedEnds(o: Output, outs: seq<Output>, start: seq<Message>, msgs: seq<Message>)
    requires Terminal(o) && NoTerminal(outs) && (Paired(start) ==> Paired(msgs))
    ensures Ends(Finished, outs + [o], start, msgs)
  {
    hide PairedAfter;
    OneMoreOutput(outs, [o]);
  }

  lemma EndsLater(ending: Ending, outs: seq<Output>, more: seq<Output>, start: seq<Message>, msgs: seq<Message>)
    requires NoTerminal(outs) && Ends(ending, more, start, msgs)
    ensures Ends(ending, outs + more, start, msgs)
  {
    hide PairedAfter, NoTerminal;
    OneMoreOutput(outs, more);
  }

  /** `_synthesize_final_reply` */
  method SynthesizeFinalReply(session: Session, manager: C.Manager, reason: string, finale: Finale,
                              ghost start: seq<Message>, ghost before: seq<seq<Message>>)
      returns (outs: seq<Output>, context: seq<Message>, ending: Ending)
    requires Keeps(manager, start, session.messages, before)
    modifies session`messages
    ensures start <= session.messages && AllSentPaired(manager, start, before + [context])
    ensures AllSentFrom(manager, session.messages, before + [context])
    ensures context == C.Process(manager, old(session.messages) + [Note(BUDGET_EXHAUSTED_USER)])
    ensures Ends(ending, outs, start, session.messages)
    ensures ClosesBy(reason, finale, ending, outs, session.stepCount)
    ensures session.messages == old(session.messages) + Synthesis(finale)
    ensures session.messages == old(session.messages) + [Message(User, Plain(BUDGET_EXHAUSTED_USER))]
                                + if finale.fails then [] else [Message(Assistant, Blocks(LastReply(finale.events)))]
    ensures outs == SynthesisOutputs(reason, finale, session.stepCount)
  {
    hide UseIds, ResultIds, PairedAfter, SentPaired, AllSentPaired, AllSentFrom, SentFrom, ReplyIn, UsesIn, C.Process;
    ghost var began := session.messages;
    NoteKeeps(manager, start, session.messages, before, BUDGET_EXHAUSTED_USER);
    session.AddMessage(User, Plain(BUDGET_EXHAUSTED_USER));
    context := BuildContext(manager, start, session.messages, []);
    OneMoreSent(manager, start, session.messages, before, context, []);
    ghost var noted := session.messages;
    assert context + Notes([]) == context;
    var reply: seq<Block> := [];
    outs := [];
    assert ReplyIn(outs) == [] by { NoReply(); }
    ghost var all := Streams(finale.events);
    for i := 0 to |finale.events|
      invariant outs == all[..i]
      invariant NoTerminal(outs) && reply == ReplyIn(outs)
      invariant session.messages == noted
    {
      ReplyNext(outs, finale.events[i]);
      OneMoreOutput(outs, [Stream(finale.events[i])]);
      outs := outs + [Stream(finale.events[i])];
      if finale.events[i].AssistantMessage? {
        reply := finale.events[i].content;
      }
    }
    assert outs == all;
    if finale.fails {
      StreamRaisedEnds(outs, start, session.messages);
      assert Synthesis(finale) == [Note(BUDGET_EXHAUSTED_USER)] && all + [] == all;
      return outs, context, StreamRaised;
    }
    if Paired(start) {
      AssistantUses(reply);
      AppendOne(session.messages, Message(Assistant, Blocks(reply)));
    }
    session.AddMessage(Assistant, Blocks(reply));
    SentFromGrows(manager, noted, session.messages, before + [context]);
    assert session.messages == began + Synthesis(finale);
    assert (outs + [Completed(reason, session.stepCount)])[..|outs|] == outs;
    outs := outs + [Completed(reason, session.stepCount)];
    ending := Synthesized(reply);
  }

  /** The reading of the model's stream in a round, and what the transcript gains by it. */
  method ReadRound(session: Session, now: Round, ghost tools: seq<T.Tool>, ghost finale: Finale,
                   ghost start: seq<Message>)
      returns (uses: seq<ToolUse>, content: seq<Block>, outs: seq<Output>, ending: Option<Ending>)
    requires start <= session.messages && (Paired(start) ==> Paired(session.messages))
    requires !now.wallAtTop && !now.cancelAtTop
    modifies session`messages
    ensures start <= session.messages && old(session.messages) <= session.messages && Delivered(now.polls) <= outs
    ensures ending.Some? ==> Ends(ending.value, outs, start, session.messages)
    ensures ending.Some? ==>
              Decides(VerdictOf(tools, now), finale, ending.value, outs, session.stepCount) && !ending.value.ToolsRaised?
    ensures ending.None? ==>
              && VerdictOf(tools, now) == (if ToolsEscape(tools, now, uses) then ToolsBreak else GoesOn)
              && NoTerminal(outs) && content == Reply(now) && uses == Calls(now) != [] && outs == Delivered(now.polls)
              && session.messages == old(session.messages) + [Message(Assistant, Blocks(content))]
    ensures ending.Some? ==>
              && session.messages == old(session.messages) + Closing(VerdictOf(tools, now), now, finale)
              && outs == ClosingOutputs(VerdictOf(tools, now), now, session.stepCount)
  {
    hide UseIds, ResultIds, PairedAfter, UsesIn, EndsOnce, NoTerminal, Ends, ToolsEscape, Delivered, StopOf, ReplyIn;
    var stop;
    uses := [];
    content, outs, stop := ReadStream(now.polls);
    Quiet(outs);
    if stop.Broken? {
      StreamRaisedEnds(outs, start, session.messages);
      return uses, content, outs, Some(StreamRaised);
    }
    var outcome := StreamOutcome(now, stop, session.stepCount);
    if outcome.Some? {
      FinishedEnds(outcome.value, outs, start, session.messages);
      return uses, content, outs + [outcome.value], Some(Finished);
    }
    uses := ToolUsesIn(content);
    if uses == [] && Paired(start) {
      AssistantUses(content);
      AppendOne(session.messages, Message(Assistant, Blocks(content)));
    }
    session.AddMessage(Assistant, Blocks(content));
    if uses == [] {
      FinishedEnds(Completed("end_turn", session.stepCount), outs, start, session.messages);
      return uses, content, outs + [Completed("end_turn", session.stepCount)], Some(Finished);
    }
    ending := None;
  }

  lemma StreamRaisedEnds(outs: seq<Output>, start: seq<Message>, msgs: seq<Message>)
    requires NoTerminal(outs) && (Paired(start) ==> Paired(msgs))
    ensures Ends(StreamRaised, outs, start, msgs)
  {
  }

  lemma ToolsRaisedEnds(outs: seq<Output>, start: seq<Message>, before: seq<Message>, content: seq<Block>)
    requires NoTerminal(outs) && (Paired(start) ==> Paired(before)) && UsesIn(content) != []
    ensures Ends(ToolsRaised, outs, start, before + [Message(Assistant, Blocks(content))])
  {
    hide PairedAfter, UseIds, ResultIds;
    AssistantUses(content);
    if Paired(start) {
      AppendOne(before, Message(Assistant, Blocks(content)));
    }
  }

  /** One round behind its checks: what is sent, read, run and added to the transcript. */
  method CallModel(session: Session, tools: seq<T.Tool>, manager: C.Manager, now: Round, notes: seq<string>,
                   ghost finale: Finale, ghost start: seq<Message>, ghost sent: seq<seq<Message>>)
      returns (uses: seq<ToolUse>, results: seq<Block>, context: seq<Message>, outs: seq<Output>, ending: Option<Ending>)
    requires Keeps(manager, start, session.messages, sent) && !now.wallAtTop && !now.cancelAtTop
    modifies session`messages
    ensures start <= session.messages && AllSentPaired(manager, start, sent + [context])
    ensures AllSentFrom(manager, session.messages, sent + [context])
    ensures context == C.Process(manager, old(session.messages)) + Notes(notes)
    ensures ending.None? ==>
              && NoTerminal(outs) && VerdictOf(tools, now) == GoesOn
              && Keeps(manager, start, session.messages, sent + [context])
    ensures ending.None? ==>
              && uses == Calls(now) && AllAnswered(tools, now, uses, results)
              && session.messages == old(session.messages)
                                     + [Message(Assistant, Blocks(Reply(now))), Message(User, Blocks(results))]
              && outs == [Context(|context|)] + Delivered(now.polls) + Executions(uses) + Results(results)
    ensures ending.Some? ==> Ends(ending.value, outs, start, session.messages)
    ensures ending.Some? ==> Decides(VerdictOf(tools, now), finale, ending.value, outs, session.stepCount)
    ensures ending.Some? ==>
              && session.messages == old(session.messages) + Closing(VerdictOf(tools, now), now, finale)
              && outs == [Context(|context|)] + ClosingOutputs(VerdictOf(tools, now), now, session.stepCount)
  {
    hide *;
    KeepsGives(manager, start, session.messages, sent);
    context := BuildContext(manager, start, session.messages, notes);
    OneMoreSent(manager, start, session.messages, sent, context, notes);
    ghost var before := session.messages;
    var content, read;
    uses, content, read, ending := ReadRound(session, now, tools, finale, start);
    SentFromGrows(manager, before, session.messages, sent + [context]);
    ContextIsQuiet(|context|);
    outs, results := [Context(|context|)] + read, [];
    if ending.Some? {
      EndsLater(ending.value, [Context(|context|)], read, start, session.messages);
      DecidesLater(VerdictOf(tools, now), finale, ending.value, [Context(|context|)], read, session.stepCount);
      return;
    }
    CallsAre(now);
    OneMoreOutput([Context(|context|)], read);
    var shown, returned;
    results, shown, returned := RunTools(session, tools, now, uses);
    PhaseIsQuiet(uses, results, returned);
    OneMoreOutput(outs, shown);
    outs := outs + shown;
    if !returned {
      ToolsRaisedEnds(outs, start, before, content);
      ToolsBreakCloses(now, finale, outs, session.stepCount);
      ConcatAssociates([Context(|context|)], read, shown);
      ending := Some(ToolsRaised);
      return;
    }
    ResultsAreTools(tools, now, uses, results);
    KeepsAre(manager, start, before, sent + [context]);
    RoundKeeps(manager, start, before, sent + [context], content, results);
    KeepsGives(manager, start, session.messages, sent + [context]);
    ConcatAssociates(before, [Message(Assistant, Blocks(content))], [Message(User, Blocks(results))]);
    ConcatAssociates([Context(|context|)] + read, Executions(uses), Results(results));
  }

  lemma CallsAre(now: Round)
    ensures Calls(now) == UsesIn(Reply(now))
  {
  }

  lemma KeepsAre(manager: C.Manager, start: seq<Message>, msgs: seq<Message>, sent: seq<seq<Message>>)
    requires start <= msgs && (Paired(start) ==> Paired(msgs))
    requires AllSentPaired(manager, start, sent) && AllSentFrom(manager, msgs, sent)
    ensures Keeps(manager, start, msgs, sent)
  {
    hide AllSentPaired, AllSentFrom, PairedAfter;
  }

  lemma ContextIsQuiet(messages: nat)
    ensures NoTerminal([Context(messages)])
  {
  }

  lemma ResultsAreTools(tools: seq<T.Tool>, now: Round, uses: seq<ToolUse>, results: seq<Block>)
    requires AllAnswered(tools, now, uses, results)
    ensures |results| == |uses|
    ensures forall k :: 0 <= k < |results| ==> results[k].ResultBlock? && results[k].toolUseId == uses[k].id
  {
    hide ResultOf, ToolsLate;
  }

  lemma DecidesLater(v: Verdict, finale: Finale, ending: Ending, outs: seq<Output>, more: seq<Output>, steps: int)
    requires Decides(v, finale, ending, more, steps)
    ensures Decides(v, finale, ending, outs + more, steps)
  {
    hide LastReply;
  }

  lemma ToolsBreakCloses(now: Round, finale: Finale, outs: seq<Output>, steps: int)
    ensures Decides(ToolsBreak, finale, ToolsRaised, outs, steps)
    ensures Closing(ToolsBreak, now, finale) == [Message(Assistant, Blocks(Reply(now)))]
    ensures ClosingOutputs(ToolsBreak, now, steps) == Delivered(now.polls) + Executions(Calls(now))
  {
    hide Reply, Calls, Executions, Delivered;
  }

  lemma KeepsGives(manager: C.Manager, start: seq<Message>, msgs: seq<Message>, sent: seq<seq<Message>>)
    requires Keeps(manager, start, msgs, sent)
    ensures start <= msgs && (Paired(start) ==> Paired(msgs))
    ensures AllSentPaired(manager, start, sent) && AllSentFrom(manager, msgs, sent)
  {
  }

  lemma WallDecides(tools: seq<T.Tool>, now: Round, finale: Finale, ending: Ending, outs: seq<Output>, steps: int)
    requires now.wallAtTop && ClosesBy("wall_clock_exhausted", finale, ending, outs, steps)
    ensures VerdictOf(tools, now) == WallOut && Decides(VerdictOf(tools, now), finale, ending, outs, steps)
  {
    hide LastReply;
  }

  lemma CancelDecides(tools: seq<T.Tool>, now: Round, finale: Finale, steps: int)
    requires !now.wallAtTop && now.cancelAtTop
    ensures VerdictOf(tools, now) == CancelRequested
    ensures Decides(VerdictOf(tools, now), finale, Finished, [Cancelled(steps)], steps)
  {
  }

  /** The budget is nearly used up, by rounds. */
  predicate Warns(limits: Limits, now: Round, steps: int) {
    steps >= limits.warnRounds && !now.wallAtWarning
  }

  /** The notes behind the context of a round: the working memory, and once the warning. */
  function NotesFor(limits: Limits, now: Round, findings: nat, steered: bool, steps: int): seq<string> {
    (if findings > 0 then [now.memoryNote] else [])
    + if !steered && Warns(limits, now, steps) then [BUDGET_STEERING_USER] else []
  }

  /** What a round sends: the closing call in its place when the time is up, nothing when it is cancelled. */
  function RoundContexts(manager: C.Manager, now: Round, messages: seq<Message>, notes: seq<string>)
      : seq<seq<Message>> {
    if now.wallAtTop then [C.Process(manager, messages + [Note(BUDGET_EXHAUSTED_USER)])]
    else if now.cancelAtTop then []
    else [C.Process(manager, messages) + Notes(notes)]
  }

  /** What the round that ends a run emits. */
  function LastOutputs(v: Verdict, now: Round, finale: Finale, contexts: seq<seq<Message>>, steps: int): seq<Output> {
    if now.wallAtTop then SynthesisOutputs("wall_clock_exhausted", finale, steps)
    else if now.cancelAtTop || contexts == [] then [Cancelled(steps)]
    else [Context(|contexts[0]|)] + ClosingOutputs(v, now, steps)
  }

  /** One round: the checks at its top, then the call of the model. */
  method TakeRound(session: Session, tools: seq<T.Tool>, manager: C.Manager, limits: Limits, now: Round, findings: nat,
                   steered: bool, finale: Finale, ghost start: seq<Message>, ghost sent: seq<seq<Message>>)
      returns (uses: seq<ToolUse>, results: seq<Block>, contexts: seq<seq<Message>>, outs: seq<Output>, steering: bool,
               ending: Option<Ending>)
    requires Keeps(manager, start, session.messages, sent)
    modifies session
    ensures session.stepCount == old(session.stepCount) + 1 && |contexts| <= 1
    ensures start <= session.messages && AllSentPaired(manager, start, sent + contexts)
    ensures AllSentFrom(manager, session.messages, sent + contexts)
    ensures contexts == RoundContexts(manager, now, old(session.messages),
                                      NotesFor(limits, now, findings, steered, session.stepCount))
    ensures !now.wallAtTop && !now.cancelAtTop ==>
              && contexts == [C.Process(manager, old(session.messages))
                              + Notes((if findings > 0 then [now.memoryNote] else [])
                                      + if !steered && session.stepCount >= limits.warnRounds && !now.wallAtWarning
                                        then [BUDGET_STEERING_USER] else [])]
              && steering == (steered || Warns(limits, now, session.stepCount))
    ensures ending.None? ==>
              && VerdictOf(tools, now) == GoesOn && NoTerminal(outs)
              && Keeps(manager, start, session.messages, sent + contexts)
    ensures ending.None? ==>
              && !now.wallAtTop && !now.cancelAtTop
              && uses == Calls(now) && AllAnswered(tools, now, uses, results)
              && session.messages == old(session.messages)
                                     + [Message(Assistant, Blocks(Reply(now))), Message(User, Blocks(results))]
              && outs == [Context(|contexts[0]|)] + Delivered(now.polls) + Executions(uses) + Results(results)
    ensures ending.Some? ==> Ends(ending.value, outs, start, session.messages)
    ensures ending.Some? ==> Decides(VerdictOf(tools, now), finale, ending.value, outs, session.stepCount)
    ensures ending.Some? ==>
              && session.messages == old(session.messages) + Closing(VerdictOf(tools, now), now, finale)
              && outs == LastOutputs(VerdictOf(tools, now), now, finale, contexts, session.stepCount)
  {
    hide *;
    uses, results, contexts, outs, steering := [], [], [], [], steered;
    KeepsGives(manager, start, session.messages, sent);
    session.stepCount := session.stepCount + 1;
    ghost var messages := session.messages;
    ghost var texts := NotesFor(limits, now, findings, steered, session.stepCount);
    NotesAre(limits, now, findings, steered, session.stepCount);
    RoundContextsAre(manager, now, messages, texts);
    if now.wallAtTop {
      var context, closing;
      outs, context, closing := SynthesizeFinalReply(session, manager, "wall_clock_exhausted", finale, start, sent);
      WallDecides(tools, now, finale, closing, outs, session.stepCount);
      LastOutputsAre(WallOut, now, finale, [context], session.stepCount);
      return uses, results, [context], outs, steering, Some(closing);
    }
    if now.cancelAtTop {
      assert sent + contexts == sent && [] + [Cancelled(session.stepCount)] == [Cancelled(session.stepCount)];
      NothingIsQuiet();
      CancelledIsTerminal(session.stepCount);
      FinishedEnds(Cancelled(session.stepCount), [], start, session.messages);
      CancelDecides(tools, now, finale, session.stepCount);
      LastOutputsAre(CancelRequested, now, finale, [], session.stepCount);
      assert messages + [] == messages;
      return uses, results, [], [Cancelled(session.stepCount)], steering, Some(Finished);
    }
    var notes := if findings > 0 then [now.memoryNote] else [];
    if !steered && session.stepCount >= limits.warnRounds && !now.wallAtWarning {
      steering := true;
      notes := notes + [BUDGET_STEERING_USER];
    } else {
      assert notes + [] == notes;
    }
    var context;
    uses, results, context, outs, ending := CallModel(session, tools, manager, now, notes, finale, start, sent);
    contexts := [context];
    LastOutputsAre(VerdictOf(tools, now), now, finale, contexts, session.stepCount);
  }

  lemma NotesAre(limits: Limits, now: Round, findings: nat, steered: bool, steps: int)
    ensures NotesFor(limits, now, findings, steered, steps)
            == (if findings > 0 then [now.memoryNote] else [])
               + if !steered && steps >= limits.warnRounds && !now.wallAtWarning then [BUDGET_STEERING_USER] else []
    ensures Warns(limits, now, steps) <==> steps >= limits.warnRounds && !now.wallAtWarning
  {
  }

  lemma RoundContextsAre(manager: C.Manager, now: Round, messages: seq<Message>, notes: seq<string>)
    ensures RoundContexts(manager, now, messages, notes) ==
            if now.wallAtTop then [C.Process(manager, messages + [Note(BUDGET_EXHAUSTED_USER)])]
            else if now.cancelAtTop then [] else [C.Process(manager, messages) + Notes(notes)]
  {
    hide C.Process, Notes;
  }

  lemma LastOutputsAre(v: Verdict, now: Round, finale: Finale, contexts: seq<seq<Message>>, steps: int)
    ensures LastOutputs(v, now, finale, contexts, steps) ==
            if now.wallAtTop then SynthesisOutputs("wall_clock_exhausted", finale, steps)
            else if now.cancelAtTop || contexts == [] then [Cancelled(steps)]
            else [Context(|contexts[0]|)] + ClosingOutputs(v, now, steps)
    ensures Closing(WallOut, now, finale) == Synthesis(finale) && Closing(CancelRequested, now, finale) == []
  {
    hide SynthesisOutputs, ClosingOutputs, Synthesis;
  }

  lemma NothingIsQuiet()
    ensures NoTerminal([])
  {
  }

  lemma CancelledIsTerminal(steps: int)
    ensures Terminal(Cancelled(steps))
  {
  }

  ghost predicate AllGoOn(tools: seq<T.Tool>, world: nat -> Round, n: nat) {
    forall r: nat :: r < n ==> VerdictOf(tools, world(r)) == GoesOn
  }

  lemma OneMoreGoesOn(tools: seq<T.Tool>, world: nat -> Round, n: nat)
    requires AllGoOn(tools, world, n) && VerdictOf(tools, world(n)) == GoesOn
    ensures AllGoOn(tools, world, n + 1)
  {
    hide VerdictOf;
  }

  /** A run that starts at `first` steps ends in the first round that gives it a reason to, in the way
      that fits the reason, and at `maxRounds` otherwise. */
  ghost predicate EndsWhereItMust(tools: seq<T.Tool>, limits: Limits, world: nat -> Round, finale: Finale, first: int,
                                  ending: Ending, outs: seq<Output>, steps: int) {
    && first <= steps <= StepLimit(limits, first)
    && (|| (AllGoOn(tools, world, steps - first) && limits.maxRounds <= steps
            && RunsOut(limits, finale, ending, outs, steps))
        || (first < steps && AllGoOn(tools, world, steps - first - 1)
            && Decides(VerdictOf(tools, world(steps - first - 1)), finale, ending, outs, steps)))
  }

  lemma DecidedHere(tools: seq<T.Tool>, limits: Limits, world: nat -> Round, finale: Finale, first: int,
                    ending: Ending, outs: seq<Output>, more: seq<Output>, steps: int)
    requires first < steps <= limits.maxRounds && AllGoOn(tools, world, steps - first - 1)
    requires Decides(VerdictOf(tools, world(steps - first - 1)), finale, ending, more, steps)
    ensures steps <= StepLimit(limits, first)
    ensures EndsWhereItMust(tools, limits, world, finale, first, ending, outs + more, steps)
  {
    hide VerdictOf, AllGoOn, LastReply;
  }

  lemma RunOutHere(tools: seq<T.Tool>, limits: Limits, world: nat -> Round, finale: Finale, first: int,
                   ending: Ending, outs: seq<Output>, more: seq<Output>, steps: int)
    requires first <= steps && limits.maxRounds <= steps && (steps == first || steps <= limits.maxRounds)
    requires AllGoOn(tools, world, steps - first)
    requires if limits.synthesizeOnExhaust then ClosesBy("max_rounds_reached", finale, ending, more, steps)
             else ending == Finished && more == [Completed("max_steps_reached", steps)]
    ensures steps <= StepLimit(limits, first)
    ensures EndsWhereItMust(tools, limits, world, finale, first, ending, outs + more, steps)
  {
    hide VerdictOf, AllGoOn, LastReply;
  }

  // Whole runs.

  /** The last two recorded calls are equal. */
  predicate Repeats(calls: seq<CallKey>) {
    2 <= |calls| && calls[|calls| - 1] == calls[|calls| - 2]
  }

  /** A run's surroundings; it starts at `first` steps. */
  datatype Setting = Setting(
    tools: seq<T.Tool>,
    manager: C.Manager,
    limits: Limits,
    key: Json -> string,
    world: nat -> Round,
    finale: Finale,
    first: int)

  /** What a run has come to at the top of a round. */
  datatype Top = Top(messages: seq<Message>, outs: seq<Output>, calls: seq<CallKey>, warned: bool, findings: nat)

  /** Round `r` goes on and takes the run from one top to the next: it sends the processed transcript with its
      notes, and appends the reply and the results that answer it, and a warning when the last two calls recorded
      so far are equal. */
  ghost predicate Turns(s: Setting, r: nat, before: Top, context: seq<Message>, results: seq<Block>, after: Top) {
    var now := s.world(r);
    && AllAnswered(s.tools, now, Calls(now), results)
    && context == C.Process(s.manager, before.messages)
                  + Notes(NotesFor(s.limits, now, before.findings, before.warned, s.first + r + 1))
    && after.calls == before.calls + CallKeys(s.key, Calls(now))
    && after.messages == before.messages
                         + [Message(Assistant, Blocks(Reply(now))), Message(User, Blocks(results))]
                         + (if Repeats(after.calls) then [Note(LOOP_STEERING_USER)] else [])
    && after.outs == before.outs
                     + ([Context(|context|)] + Delivered(now.polls) + Executions(Calls(now)) + Results(results))
                     + (if now.findings > 0 then [Memory(now.findings)] else [])
    && after.warned == (before.warned || Warns(s.limits, now, s.first + r + 1))
    && after.findings == now.findings
  }

  /** The rounds that go on, one behind the other. */
  ghost predicate Trace(s: Setting, tops: seq<Top>, sent: seq<seq<Message>>, results: seq<seq<Block>>) {
    && |tops| == |results| + 1 == |sent| + 1
    && tops[0] == Top(tops[0].messages, [], [], false, 0)
    && forall r: nat :: r < |results| ==> Turns(s, r, tops[r], sent[r], results[r], tops[r + 1])
  }

  /** The end of a run behind `n` rounds that went on: the next round ends it, or there is none left. */
  ghost predicate Stops(s: Setting, n: nat, top: Top, contexts: seq<seq<Message>>, messages: seq<Message>,
                        outs: seq<Output>, steps: int) {
    if steps == s.first + n then
      if s.limits.synthesizeOnExhaust then
        && contexts == [C.Process(s.manager, top.messages + [Note(BUDGET_EXHAUSTED_USER)])]
        && messages == top.messages + Synthesis(s.finale)
        && outs == top.outs + SynthesisOutputs("max_rounds_reached", s.finale, steps)
      else
        contexts == [] && messages == top.messages && outs == top.outs + [Completed("max_steps_reached", steps)]
    else
      var now := s.world(n);
      var v := VerdictOf(s.tools, now);
      && steps == s.first + n + 1
      && contexts == RoundContexts(s.manager, now, top.messages,
                                   NotesFor(s.limits, now, top.findings, top.warned, steps))
      && messages == top.messages + Closing(v, now, s.finale)
      && outs == top.outs + LastOutputs(v, now, s.finale, contexts, steps)
  }

  lemma TraceStarts(s: Setting, messages: seq<Message>)
    ensures Trace(s, [Top(messages, [], [], false, 0)], [], [])
  {
  }

  lemma TraceGrows(s: Setting, tops: seq<Top>, sent: seq<seq<Message>>, results: seq<seq<Block>>,
                   context: seq<Message>, more: seq<Block>, top: Top)
    requires Trace(s, tops, sent, results)
    requires Turns(s, |results|, tops[|results|], context, more, top)
    ensures Trace(s, tops + [top], sent + [context], results + [more])
  {
    hide Turns;
  }

  /** The calls of a round are recorded, and a warning is put behind the results when the last two are equal. */
  method Steer(session: Session, tracker: LoopTracker, key: Json -> string, uses: seq<ToolUse>,
               ghost manager: C.Manager, ghost start: seq<Message>, ghost sent: seq<seq<Message>>)
    requires tracker.Valid() && Keeps(manager, start, session.messages, sent)
    modifies session`messages, tracker
    ensures tracker.Valid() && tracker.history == old(tracker.history) + CallKeys(key, uses)
    ensures session.messages == old(session.messages)
                                + if Repeats(tracker.history) then [Note(LOOP_STEERING_USER)] else []
    ensures Keeps(manager, start, session.messages, sent)
  {
    hide Keeps, Remembers, CallKeys;
    tracker.Record(key, uses);
    var repeat := tracker.HasRepeat();
    if repeat {
      NoteKeeps(manager, start, session.messages, sent, LOOP_STEERING_USER);
      session.AddMessage(User, Plain(LOOP_STEERING_USER));
    }
  }

  /** Behind the last round. */
  method RunOut(session: Session, manager: C.Manager, limits: Limits, finale: Finale, ghost start: seq<Message>,
                ghost sent: seq<seq<Message>>)
      returns (outs: seq<Output>, contexts: seq<seq<Message>>, ending: Ending)
    requires Keeps(manager, start, session.messages, sent)
    modifies session`messages
    ensures start <= session.messages && AllSentPaired(manager, start, sent + contexts)
    ensures AllSentFrom(manager, session.messages, sent + contexts)
    ensures Ends(ending, outs, start, session.messages)
    ensures if limits.synthesizeOnExhaust then
              && contexts == [C.Process(manager, old(session.messages) + [Note(BUDGET_EXHAUSTED_USER)])]
              && session.messages == old(session.messages) + Synthesis(finale)
              && outs == SynthesisOutputs("max_rounds_reached", finale, session.stepCount)
              && ClosesBy("max_rounds_reached", finale, ending, outs, session.stepCount)
            else
              && contexts == [] && session.messages == old(session.messages)
              && outs == [Completed("max_steps_reached", session.stepCount)] && ending == Finished
  {
    hide *;
    if limits.synthesizeOnExhaust {
      var context;
      outs, context, ending := SynthesizeFinalReply(session, manager, "max_rounds_reached", finale, start, sent);
      return outs, [context], ending;
    }
    outs := [Completed("max_steps_reached", session.stepCount)];
    KeepsGives(manager, start, session.messages, sent);
    CompletedIsTerminal("max_steps_reached", session.stepCount);
    NothingIsQuiet();
    FinishedEnds(outs[0], [], start, session.messages);
    assert [] + [outs[0]] == outs && sent + [] == sent;
    return outs, [], Finished;
  }

  /** `_iterate_react_steps`. `key` renders a tool input for the tracker. */
  method IterateReactSteps(session: Session, tools: seq<T.Tool>, manager: C.Manager, limits: Limits,
                           key: Json -> string, world: nat -> Round, finale: Finale)
      returns (outs: seq<Output>, sent: seq<seq<Message>>, ending: Ending,
               ghost tops: seq<Top>, ghost results: seq<seq<Block>>)
    modifies session
    ensures old(session.messages) <= session.messages
    ensures old(session.stepCount) <= session.stepCount <= StepLimit(limits, old(session.stepCount))
    ensures |sent| <= session.stepCount - old(session.stepCount) + 1
    ensures Ends(ending, outs, old(session.messages), session.messages)
    ensures AllSentPaired(manager, old(session.messages), sent) && AllSentFrom(manager, session.messages, sent)
    ensures EndsWhereItMust(tools, limits, world, finale, old(session.stepCount), ending, outs, session.stepCount)
    ensures var s, n := Setting(tools, manager, limits, key, world, finale, old(session.stepCount)), |results|;
            && n <= |sent| && |tops| == n + 1 && tops[0].messages == old(session.messages)
            && Trace(s, tops, sent[..n], results)
            && Stops(s, n, tops[n], sent[n..], session.messages, outs, session.stepCount)
  {
    hide *;
    ghost var start, first := session.messages, session.stepCount;
    ghost var s := Setting(tools, manager, limits, key, world, finale, first);
    var tracker := new LoopTracker();
    var steered, findings := false, 0;
    var round: nat := 0;
    outs, sent := [], [];
    tops, results := [Top(start, [], [], false, 0)], [];
    NothingYet(manager, start, tools, world);
    TraceStarts(s, start);
    while session.stepCount < limits.maxRounds
      invariant tracker.Valid() && fresh(tracker)
      invariant session.stepCount == first + round && (round == 0 || session.stepCount <= limits.maxRounds)
      invariant Keeps(manager, start, session.messages, sent) && NoTerminal(outs) && AllGoOn(tools, world, round)
      invariant |results| == |sent| == round && |tops| == round + 1 && tops[0].messages == start
      invariant Trace(s, tops, sent, results)
      invariant tops[round] == Top(session.messages, outs, tracker.history, steered, findings)
      decreases limits.maxRounds - session.stepCount
    {
      var now := world(round);
      var uses, answers, contexts, more, stop;
      ghost var top, steps := tops[round], session.stepCount + 1;
      uses, answers, contexts, more, steered, stop :=
        TakeRound(session, tools, manager, limits, now, findings, steered, finale, start, sent);
      if stop.Some? {
        EndsLater(stop.value, outs, more, start, session.messages);
        DecidedHere(tools, limits, world, finale, first, stop.value, outs, more, session.stepCount);
        RoundStops(s, round, top, contexts, session.messages, more, session.stepCount);
        CutBehind(sent, contexts);
        return outs + more, sent + contexts, stop.value, tops, results;
      }
      OneMoreGoesOn(tools, world, round);
      OneMoreOutput(outs, more);
      outs, sent := outs + more, sent + contexts;

      Steer(session, tracker, key, uses, manager, start, sent);
      findings := now.findings;
      if findings > 0 {
        MemoryIsQuiet(findings);
        OneMoreOutput(outs, [Memory(findings)]);
        outs := outs + [Memory(findings)];
      }
      ghost var next := Top(session.messages, outs, tracker.history, steered, findings);
      RoundTurns(s, round, top, contexts, answers, more, next);
      TraceGrows(s, tops, sent[..round], results, contexts[0], answers, next);
      tops, results := tops + [next], results + [answers];
      round := round + 1;
    }
    var more, contexts;
    more, contexts, ending := RunOut(session, manager, limits, finale, start, sent);
    EndsLater(ending, outs, more, start, session.messages);
    RunOutHere(tools, limits, world, finale, first, ending, outs, more, session.stepCount);
    RunStops(s, round, tops[round], contexts, session.messages, more);
    CutBehind(sent, contexts);
    return outs + more, sent + contexts, ending, tops, results;
  }

  lemma RoundStops(s: Setting, n: nat, top: Top, contexts: seq<seq<Message>>, messages: seq<Message>,
                   more: seq<Output>, steps: int)
    requires steps == s.first + n + 1
    requires contexts == RoundContexts(s.manager, s.world(n), top.messages,
                                       NotesFor(s.limits, s.world(n), top.findings, top.warned, steps))
    requires messages == top.messages + Closing(VerdictOf(s.tools, s.world(n)), s.world(n), s.finale)
    requires more == LastOutputs(VerdictOf(s.tools, s.world(n)), s.world(n), s.finale, contexts, steps)
    ensures Stops(s, n, top, contexts, messages, top.outs + more, steps)
  {
    hide RoundContexts, NotesFor, Closing, VerdictOf, LastOutputs;
  }

  lemma RunStops(s: Setting, n: nat, top: Top, contexts: seq<seq<Message>>, messages: seq<Message>, more: seq<Output>)
    requires if s.limits.synthesizeOnExhaust then
               && contexts == [C.Process(s.manager, top.messages + [Note(BUDGET_EXHAUSTED_USER)])]
               && messages == top.messages + Synthesis(s.finale)
               && more == SynthesisOutputs("max_rounds_reached", s.finale, s.first + n)
             else
               && contexts == [] && messages == top.messages
               && more == [Completed("max_steps_reached", s.first + n)]
    ensures Stops(s, n, top, contexts, messages, top.outs + more, s.first + n)
  {
    hide C.Process, Synthesis, SynthesisOutputs;
  }

  lemma RoundTurns(s: Setting, r: nat, before: Top, contexts: seq<seq<Message>>, results: seq<Block>, more: seq<Output>,
                   after: Top)
    requires var now, steps := s.world(r), s.first + r + 1;
             && !now.wallAtTop && !now.cancelAtTop && AllAnswered(s.tools, now, Calls(now), results)
             && contexts == RoundContexts(s.manager, now, before.messages,
                                          NotesFor(s.limits, now, before.findings, before.warned, steps))
             && |contexts| == 1
             && more == [Context(|contexts[0]|)] + Delivered(now.polls) + Executions(Calls(now)) + Results(results)
             && after.calls == before.calls + CallKeys(s.key, Calls(now))
             && after.messages == before.messages
                                  + [Message(Assistant, Blocks(Reply(now))), Message(User, Blocks(results))]
                                  + (if Repeats(after.calls) then [Note(LOOP_STEERING_USER)] else [])
             && after.outs == before.outs + more + (if now.findings > 0 then [Memory(now.findings)] else [])
             && after.warned == (before.warned || Warns(s.limits, now, steps))
             && after.findings == now.findings
    ensures Turns(s, r, before, contexts[0], results, after)
  {
    hide AllAnswered, Calls, NotesFor, Delivered, Executions, Results, CallKeys, Reply, Warns, C.Process, Notes, Repeats;
  }

  lemma NothingYet(manager: C.Manager, start: seq<Message>, tools: seq<T.Tool>, world: nat -> Round)
    ensures NoTerminal([]) && AllGoOn(tools, world, 0) && Keeps(manager, start, start, [])
  {
  }

  lemma CompletedIsTerminal(reason: string, steps: int)
    ensures Terminal(Completed(reason, steps))
  {
  }

  lemma MemoryIsQuiet(findings: nat)
    ensures NoTerminal([Memory(findings)])
  {
  }

  lemma Quiet(outs: seq<Output>)
    requires forall k :: 0 <= k < |outs| ==> !Terminal(outs[k])
    ensures NoTerminal(outs)
  {
  }

  /** What a round learns, the next one sends: right in front of its notes stands the last message of the
      transcript, which is the warning behind a repeated call and otherwise the results, cut down. */
  lemma ResultsReachTheModel(s: Setting, tops: seq<Top>, sent: seq<seq<Message>>, results: seq<seq<Block>>, r: nat)
      returns (n: nat)
    requires Trace(s, tops, sent, results) && r + 1 < |results|
    ensures n < |sent[r + 1]|
    ensures S.Sends(s.manager.maxToolResultChars,
                    if Repeats(tops[r + 1].calls) then Note(LOOP_STEERING_USER) else Message(User, Blocks(results[r])),
                    sent[r + 1][n])
    ensures sent[r + 1][n + 1..] ==
            Notes(NotesFor(s.limits, s.world(r + 1), s.world(r).findings, tops[r + 1].warned, s.first + r + 2))
  {
    hide AllAnswered, Calls, NotesFor, Delivered, Executions, Results, CallKeys, Reply, Warns, C.Process, Notes, Repeats;
    hide S.Sends;
    assert Turns(s, r, tops[r], sent[r], results[r], tops[r + 1]);
    assert Turns(s, r + 1, tops[r + 1], sent[r + 1], results[r + 1], tops[r + 2]);
    S.LastIsSent(s.manager, tops[r + 1].messages);
    n := |C.Process(s.manager, tops[r + 1].messages)| - 1;
  }

  /** Where `LeavesPaired` fails: a synthesized reply that uses a tool, and a reply whose tool phase raises,
      leave their calls unanswered. */
  lemma UnansweredReply(msgs: seq<Message>, content: seq<Block>)
    requires Paired(msgs) && UsesIn(content) != []
    ensures !Paired(msgs + [Note(BUDGET_EXHAUSTED_USER)] + [Message(Assistant, Blocks(content))])
    ensures !Paired(msgs + [Message(Assistant, Blocks(content))])
  {
    hide UseIds, ResultIds, PairedAfter, UsesIn;
    NoteIsPlain(BUDGET_EXHAUSTED_USER);
    AppendOne(msgs, Note(BUDGET_EXHAUSTED_USER));
    AssistantUses(content);
    AppendOne(msgs + [Note(BUDGET_EXHAUSTED_USER)], Message(Assistant, Blocks(content)));
    AppendOne(msgs, Message(Assistant, Blocks(content)));
  }
}

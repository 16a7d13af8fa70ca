/** How often the chat stream completes (koraku/streaming/koraku_sse.py, with the nested runs that
    koraku/agent/delegation.py tags). */
module SseCompletion {
  import opened Wrappers
  import opened Text
  import opened Messages
  import M = SseMapper
  import R = ReactLoop

  function Completions(outs: seq<M.Output>): seq<M.Output> {
    if outs == [] then [] else (if outs[0].KorakuCompleted? then [outs[0]] else []) + Completions(outs[1..])
  }

  /** The completion that a terminal event of the lead agent stands for. */
  function Completion(body: M.Body): M.Output {
    match body
    case Cancelled => M.KorakuCompleted(130, false, true, None)
    case Failed(error) => M.KorakuCompleted(1, true, false, Some(error))
    case _ => M.KorakuCompleted(0, false, false, None)
  }

  predicate IsTerminal(body: M.Body) {
    body.Completed? || body.Cancelled? || body.Failed?
  }

  /** The terminal events of the lead agent; those of nested runs carry a tag. */
  function LeadEnds(events: seq<M.Event>): seq<M.Body> {
    if events == [] then []
    else
      (if M.Nested(events[0].tag).None? && IsTerminal(events[0].body) then [events[0].body] else [])
      + LeadEnds(events[1..])
  }

  function CompletionsOf(bodies: seq<M.Body>): seq<M.Output> {
    seq(|bodies|, k requires 0 <= k < |bodies| => Completion(bodies[k]))
  }

  lemma CompletionsNext(outs: seq<M.Output>)
    requires outs != []
    ensures Completions(outs) == (if outs[0].KorakuCompleted? then [outs[0]] else []) + Completions(outs[1..])
  {
  }

  lemma {:induction false} CompletionsConcat(a: seq<M.Output>, b: seq<M.Output>)
    ensures Completions(a + b) == Completions(a) + Completions(b)
    decreases |a|
  {
    if a == [] {
      assert a + b == b;
    } else {
      hide Completions;
      assert (a + b)[1..] == a[1..] + b;
      CompletionsNext(a);
      CompletionsNext(a + b);
      CompletionsConcat(a[1..], b);
    }
  }

  lemma {:induction false} NoCompletions(outs: seq<M.Output>)
    requires forall k :: 0 <= k < |outs| ==> !outs[k].KorakuCompleted?
    ensures Completions(outs) == []
    decreases |outs|
  {
    if outs != [] {
      NoCompletions(outs[1..]);
    }
  }

  lemma SequenceCompletesOnce(envelope: M.Output, completed: M.Output, marker: M.Output)
    requires envelope.ResultEnvelope? && completed.KorakuCompleted? && marker.OutputMarker?
    ensures Completions([envelope, completed, marker]) == [completed]
  {
    var outs := [envelope, completed, marker];
    assert outs[1..] == [completed, marker] && [completed, marker][1..] == [marker];
    NoCompletions([marker]);
  }

  lemma {:induction false} ResultsAreToolEvents(calls: map<string, M.Call>, blocks: seq<Block>, sub: Option<M.Sub>)
    ensures forall k :: 0 <= k < |M.ResultEvents(calls, blocks, sub).1| ==> M.ResultEvents(calls, blocks, sub).1[k].ToolEvent?
    decreases |blocks|
  {
    if blocks != [] {
      if blocks[0].ResultBlock? {
        ResultsAreToolEvents(M.ResultEvent(calls, blocks[0], sub).0, blocks[1..], sub);
      } else {
        ResultsAreToolEvents(calls, blocks[1..], sub);
      }
    }
  }

  lemma OneEvent(m: M.Mapper, e: M.Event)
    ensures Completions(M.MapOne(m, e).1) ==
              if M.Nested(e.tag).None? && IsTerminal(e.body) then [Completion(e.body)] else []
  {
    hide Completions, M.ResultEvents, M.ScopedToolUseId, M.ToolName;
    var outs := M.MapOne(m, e).1;
    if M.Nested(e.tag).None? && IsTerminal(e.body) {
      SequenceCompletesOnce(outs[0], outs[1], outs[2]);
    } else {
      if e.body.UserMessage? && e.body.blocks.Some? {
        ResultsAreToolEvents(m.calls, e.body.blocks.value, M.Nested(e.tag));
      }
      NoCompletions(outs);
    }
  }

  /** The chat stream completes once for each terminal event of the lead agent, in order, and never for
      one of a nested run. */
  lemma {:induction false} CompletesForLeadOnly(m: M.Mapper, events: seq<M.Event>)
    ensures Completions(M.MapAll(m, events).1) == CompletionsOf(LeadEnds(events))
    decreases |events|
  {
    hide M.MapOne, M.Nested, IsTerminal, Completion, Completions;
    if events == [] {
      NoCompletions([]);
    } else {
      OneEvent(m, events[0]);
      var (after, first) := M.MapOne(m, events[0]);
      CompletesForLeadOnly(after, events[1..]);
      CompletionsConcat(first, M.MapAll(after, events[1..]).1);
    }
  }

  // The events of one chat request.

  const MODEL_TOO_LATE :=
    "The model took too long to finish this step. Try a shorter question, a smaller scope, or again in a moment."

  /** The event that an output of the loop is. `raws` says what the provider's events look like to the mapper. */
  function BodyOf(raws: R.ModelEvent -> Option<M.Raw>, out: R.Output): M.Body {
    match out
    case Context(_) => M.Traced("context")
    case Stream(event) => M.StreamEvent(raws(event))
    case ToolExecution(use, parallel) =>
      M.ToolExecution(use.id, use.name, Some(use.input), if parallel then "parallel" else "sequential")
    case ToolResult(result) => M.UserMessage(Some([result]))
    case Memory(_) => M.Traced("memory")
    case Completed(reason, _) => M.Completed(reason)
    case Cancelled(_) => M.Cancelled
    case TimedOut => M.Failed(MODEL_TOO_LATE)
  }

  /** The lead agent's run: what the loop emits and, when the run fails, the error that is emitted for it. */
  function LeadEvents(raws: R.ModelEvent -> Option<M.Raw>, outs: seq<R.Output>, failure: Option<string>): seq<M.Event> {
    seq(|outs|, k requires 0 <= k < |outs| => M.Event(None, BodyOf(raws, outs[k])))
    + if failure.Some? then [M.Event(None, M.Failed(failure.value))] else []
  }

  /** Who a nested run is for. */
  datatype Delegate = IntegrationWorker | TaskAgent(agent: string)

  function TagOf(delegate: Delegate): M.Tag {
    match delegate
    case IntegrationWorker => M.Tag(true, false, "")
    case TaskAgent(agent) => M.Tag(false, true, Strip(agent))
  }

  /** `nested_emit`; a tag that the event has already is replaced. */
  function NestedEmit(delegate: Delegate, e: M.Event): M.Event {
    e.(tag := Some(TagOf(delegate)))
  }

  datatype NestedRun = NestedRun(delegate: Delegate, emitted: seq<M.Event>)

  function NestedEvents(run: NestedRun): seq<M.Event> {
    seq(|run.emitted|, k requires 0 <= k < |run.emitted| => NestedEmit(run.delegate, run.emitted[k]))
  }

  /** Where an event comes from: the lead agent's loop, one of its tools or hooks, or a nested run. */
  datatype Source = Loop | Aside | Nested(run: nat)

  function From(source: Source, sources: seq<Source>, events: seq<M.Event>): seq<M.Event>
    requires |sources| == |events|
  {
    if events == [] then []
    else (if sources[0] == source then [events[0]] else []) + From(source, sources[1..], events[1..])
  }

  /** `events` mixes a lead run with what its tools emit and with its nested runs, each in its own order. */
  ghost predicate Mixes(events: seq<M.Event>, sources: seq<Source>, lead: seq<M.Event>, runs: seq<NestedRun>) {
    && |sources| == |events|
    && From(Loop, sources, events) == lead
    && (forall e | e in From(Aside, sources, events) :: !IsTerminal(e.body))
    && (forall k: nat :: From(Nested(k), sources, events) == if k < |runs| then NestedEvents(runs[k]) else [])
  }

  lemma {:induction false} ComesFrom(sources: seq<Source>, events: seq<M.Event>, k: nat)
    requires k < |sources| == |events|
    ensures events[k] in From(sources[k], sources, events)
    decreases |events|
  {
    if k > 0 {
      ComesFrom(sources[1..], events[1..], k - 1);
    }
  }

  predicate EndsLead(e: M.Event) {
    M.Nested(e.tag).None? && IsTerminal(e.body)
  }

  /** A tag of a nested run is one that the mapper knows. */
  lemma NestedEndsNothing(run: NestedRun, e: M.Event)
    requires e in NestedEvents(run)
    ensures !EndsLead(e)
  {
    var k :| 0 <= k < |run.emitted| && e == NestedEmit(run.delegate, run.emitted[k]);
  }

  lemma OnlyTheLoopEnds(events: seq<M.Event>, sources: seq<Source>, lead: seq<M.Event>, runs: seq<NestedRun>, k: nat)
    requires Mixes(events, sources, lead, runs) && k < |events|
    ensures sources[k].Loop? || !EndsLead(events[k])
  {
    ComesFrom(sources, events, k);
    match sources[k]
    case Nested(j) =>
      if j < |runs| {
        NestedEndsNothing(runs[j], events[k]);
      }
    case _ =>
  }

  lemma LeadEndsNext(events: seq<M.Event>)
    requires events != []
    ensures LeadEnds(events) == (if EndsLead(events[0]) then [events[0].body] else []) + LeadEnds(events[1..])
  {
  }

  lemma {:induction false} EndsOfLoop(events: seq<M.Event>, sources: seq<Source>)
    requires |sources| == |events|
    requires forall k :: 0 <= k < |events| ==> sources[k].Loop? || !EndsLead(events[k])
    ensures LeadEnds(events) == LeadEnds(From(Loop, sources, events))
    decreases |events|
  {
    hide EndsLead, LeadEnds;
    if events != [] {
      var later := From(Loop, sources[1..], events[1..]);
      EndsOfLoop(events[1..], sources[1..]);
      LeadEndsNext(events);
      if sources[0].Loop? {
        LeadEndsNext([events[0]] + later);
        assert ([events[0]] + later)[1..] == later;
      } else {
        assert From(Loop, sources, events) == later;
      }
    }
  }

  /** The way the chat stream is to complete: as the run's error says, or else its last output. */
  function Outcome(outs: seq<R.Output>, failure: Option<string>): M.Body
    requires failure.None? ==> outs != []
  {
    if failure.Some? then M.Failed(failure.value) else BodyOf(_ => None, outs[|outs| - 1])
  }

  lemma TerminalBodies(raws: R.ModelEvent -> Option<M.Raw>, out: R.Output)
    ensures IsTerminal(BodyOf(raws, out)) <==> R.Terminal(out)
    ensures R.Terminal(out) ==> BodyOf(raws, out) == BodyOf(_ => None, out)
  {
  }

  lemma {:induction false} EndsOfLead(raws: R.ModelEvent -> Option<M.Raw>, outs: seq<R.Output>, failure: Option<string>)
    requires if failure.Some? then R.NoTerminal(outs) else R.EndsOnce(outs)
    ensures LeadEnds(LeadEvents(raws, outs, failure)) == [Outcome(outs, failure)]
    decreases |outs|
  {
    hide BodyOf, LeadEnds, IsTerminal, R.Terminal;
    var events := LeadEvents(raws, outs, failure);
    LeadEndsNext(events);
    if |outs| + (if failure.Some? then 1 else 0) == 1 {
      assert events[1..] == [];
      assert LeadEnds([]) == [] by { NoEvents(); }
      if outs != [] {
        TerminalBodies(raws, outs[0]);
      }
      FailuresAreTerminal();
    } else {
      assert events[1..] == LeadEvents(raws, outs[1..], failure);
      assert failure.None? ==> outs[..|outs| - 1][0] == outs[0] && outs[1..][..|outs| - 2] == outs[..|outs| - 1][1..];
      TerminalBodies(raws, outs[0]);
      EndsOfLead(raws, outs[1..], failure);
    }
  }

  lemma NoEvents()
    ensures LeadEnds([]) == []
  {
  }

  lemma FailuresAreTerminal()
    ensures forall error :: IsTerminal(M.Failed(error))
  {
  }

  /** The chat stream of one request completes exactly once, for a run that returns as for one that raises,
      with whatever nested runs and side events are mixed in: as the last output of the lead agent's loop
      says, or as the error does that is emitted for a run that failed. */
  lemma RequestCompletesOnce(m: M.Mapper, raws: R.ModelEvent -> Option<M.Raw>, outs: seq<R.Output>,
                             failure: Option<string>, events: seq<M.Event>, sources: seq<Source>, runs: seq<NestedRun>)
    requires if failure.Some? then R.NoTerminal(outs) else R.EndsOnce(outs)
    requires Mixes(events, sources, LeadEvents(raws, outs, failure), runs)
    ensures Completions(M.MapAll(m, events).1) == [Completion(Outcome(outs, failure))]
  {
    hide M.MapAll, LeadEnds, LeadEvents, Outcome, R.NoTerminal, Completion, Completions, EndsLead, From;
    forall k | 0 <= k < |events|
      ensures sources[k].Loop? || !EndsLead(events[k])
    {
      OnlyTheLoopEnds(events, sources, LeadEvents(raws, outs, failure), runs, k);
    }
    EndsOfLoop(events, sources);
    EndsOfLead(raws, outs, failure);
    CompletesForLeadOnly(m, events);
    assert CompletionsOf([Outcome(outs, failure)]) == [Completion(Outcome(outs, failure))];
  }

  /** For every way in which the loop ends, with the error of a run that raised. */
  lemma LoopCompletesOnce(ending: R.Ending, outs: seq<R.Output>, start: seq<Message>, msgs: seq<Message>, error: string,
                          raws: R.ModelEvent -> Option<M.Raw>, events: seq<M.Event>, sources: seq<Source>,
                          runs: seq<NestedRun>)
    requires R.Ends(ending, outs, start, msgs)
    requires var failure := if ending.Raised() then Some(error) else None;
             Mixes(events, sources, LeadEvents(raws, outs, failure), runs)
    ensures var completions := Completions(M.MapAll(M.INIT, events).1);
            && |completions| == 1
            && (ending.Raised() ==> completions[0] == M.KorakuCompleted(1, true, false, Some(error)))
            && (!ending.Raised() && outs[|outs| - 1].Completed? ==>
                  completions[0] == M.KorakuCompleted(0, false, false, None))
            && (!ending.Raised() && outs[|outs| - 1].Cancelled? ==>
                  completions[0] == M.KorakuCompleted(130, false, true, None))
            && (!ending.Raised() && outs[|outs| - 1].TimedOut? ==>
                  completions[0] == M.KorakuCompleted(1, true, false, Some(MODEL_TOO_LATE)))
  {
    hide M.MapAll, LeadEvents, Mixes, Completions, PairedAfter, R.NoTerminal;
    RequestCompletesOnce(M.INIT, raws, outs, if ending.Raised() then Some(error) else None, events, sources, runs);
  }
}

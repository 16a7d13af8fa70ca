/** The name spaces of the mapper's tool ids (koraku/streaming/koraku_sse.py): one dictionary for the lead
    agent and all sub-agents, told apart by prefixes. */
module SseScopes {
  import opened Wrappers
  import opened Text
  import opened Json
  import opened Messages
  import opened SseMapper

  /** What an event does to the tool calls. */
  datatype Op = Begin(id: string, tool: string, input: Option<Json>, mode: string) | Finish(result: Block)

  function Finishes(blocks: seq<Block>): seq<Op> {
    if blocks == [] then []
    else (if blocks[0].ResultBlock? then [Finish(blocks[0])] else []) + Finishes(blocks[1..])
  }

  function Ops(body: Body): seq<Op> {
    match body
    case ToolExecution(id, tool, input, mode) => [Begin(id, tool, input, mode)]
    case StreamEvent(Some(ToolUsePending(id, name, input))) => [Begin(id, name, input, "")]
    case StreamEvent(Some(BlockStart(Some(_), ToolUseStart(id, name, input)))) =>
      [Begin(id, name, Some(if input.Obj? then input else Obj(map[])), "")]
    case UserMessage(Some(blocks)) => Finishes(blocks)
    case _ => []
  }

  function IdOf(op: Op): string {
    match op
    case Begin(id, _, _, _) => Strip(id)
    case Finish(b) => if b.ResultBlock? then Strip(b.toolUseId) else ""
  }

  // Keys.

  /** An id without the prefix of its scope, if it carries that itself. */
  function Bare(scope: Scope, tid: string): string {
    if Prefix(scope) <= tid then tid[|Prefix(scope)|..] else tid
  }

  /** What a trimmed id is stored under. */
  function Key(scope: Scope, tid: string): string {
    if tid == "" then "" else Prefix(scope) + Bare(scope, tid)
  }

  lemma AgentsDiffer(a: string, b: string, s: string, t: string)
    requires a != b && ':' !in a && ':' !in b
    ensures a + ":" + s != b + ":" + t
  {
    var x, y := a + ":" + s, b + ":" + t;
    if |a| < |b| {
      assert x[|a|] == ':' && y[|a|] == b[|a|];
    } else if |b| < |a| {
      assert y[|b|] == ':' && x[|b|] == a[|b|];
    } else {
      assert x[..|a|] == a && y[..|a|] == b;
    }
  }

  lemma StripEnds(s: string)
    ensures var t := Strip(s); t != "" ==> !IsSpace(t[0]) && !IsSpace(t[|t| - 1])
  {
    SkipSpaceStops(s, 0);
  }

  /** `_scoped_tool_use_id` stores every id under its key, which has no white space at its ends. */
  lemma ScopedIs(id: string, sub: Option<Sub>)
    ensures ScopedToolUseId(id, sub) == Key(ScopeOf(sub), Strip(id))
    ensures Strip(ScopedToolUseId(id, sub)) == ScopedToolUseId(id, sub)
  {
    hide Strip, LowerAll, ScopeOf;
    var scope, tid := ScopeOf(sub), Strip(id);
    StripEnds(id);
    KeyEnds(scope, tid);
    hide Prefix;
    if Prefix(scope) <= tid {
      assert Prefix(scope) + Bare(scope, tid) == tid;
    }
    StripTrimmed(Key(scope, tid));
  }

  lemma KeyEnds(scope: Scope, tid: string)
    requires tid != "" ==> !IsSpace(tid[0]) && !IsSpace(tid[|tid| - 1])
    ensures var key := Key(scope, tid); key != "" ==> !IsSpace(key[0]) && !IsSpace(key[|key| - 1])
  {
    var key, prefix := Key(scope, tid), Prefix(scope);
    if prefix <= tid {
      assert tid != "" ==> key == tid;
    } else {
      assert prefix[0] == 'c' || prefix[0] == 't';
    }
  }

  lemma SameConcat(p: string, u: string, q: string, v: string)
    ensures p + u == q + v <==> (p <= q && u == q[|p|..] + v) || (q <= p && v == p[|q|..] + u)
  {
    if |p| <= |q| {
      SameConcatShorter(p, u, q, v);
    } else {
      SameConcatShorter(q, v, p, u);
    }
  }

  lemma SameConcatShorter(p: string, u: string, q: string, v: string)
    requires |p| <= |q|
    ensures p + u == q + v <==> p <= q && u == q[|p|..] + v
  {
    if p <= q && u == q[|p|..] + v {
      assert q == p + q[|p|..];
      assert p + (q[|p|..] + v) == (p + q[|p|..]) + v;
    }
    if p + u == q + v {
      assert p == (p + u)[..|p|] == (q + v)[..|p|] == q[..|p|];
      assert u == (p + u)[|p|..] == (q + v)[|p|..] == q[|p|..] + v;
    }
  }

  /** Two ids share a key exactly when one prefix starts with the other and the rest of it, put before the
      one bare id, gives the other. */
  lemma SharedKeyIff(a: Scope, s: string, b: Scope, t: string)
    requires s != "" && t != ""
    ensures Key(a, s) == Key(b, t) <==>
              || (Prefix(a) <= Prefix(b) && Bare(a, s) == Prefix(b)[|Prefix(a)|..] + Bare(b, t))
              || (Prefix(b) <= Prefix(a) && Bare(b, t) == Prefix(a)[|Prefix(b)|..] + Bare(a, s))
  {
    hide Prefix, Bare;
    SameConcat(Prefix(a), Bare(a, s), Prefix(b), Bare(b, t));
  }

  predicate IsPlainId(tid: string) {
    tid != "" && !("composio:" <= tid) && !("task:" <= tid)
  }

  predicate IsPlainScope(scope: Scope) {
    scope.TaskScope? ==> scope.agent != "" && ':' !in scope.agent
  }

  /** The ids carry no prefix of their own, and no agent name holds a colon. */
  predicate IsPlain(e: Event) {
    && IsPlainScope(ScopeOfEvent(e))
    && PlainOps(Ops(e.body))
  }

  predicate PlainOps(ops: seq<Op>) {
    forall k :: 0 <= k < |ops| ==> IdOf(ops[k]) == "" || IsPlainId(IdOf(ops[k]))
  }

  /** Among scopes whose agent names hold no colon, only the lead's prefix starts another's. */
  lemma PlainPrefixes(a: Scope, b: Scope)
    requires a != b && IsPlainScope(a) && IsPlainScope(b)
    ensures Prefix(a) <= Prefix(b) <==> a.Lead?
  {
    if a.TaskScope? && b.TaskScope? {
      TaskPrefixes(a.agent, b.agent);
    } else if !a.Lead? {
      assert b.Lead? || Prefix(a)[0] != Prefix(b)[0];
    }
  }

  lemma TaskPrefixes(a: string, b: string)
    requires a != b && ':' !in a && ':' !in b
    ensures !(("task:" + a + ":") <= ("task:" + b + ":"))
  {
    var x, y := "task:" + a + ":", "task:" + b + ":";
    if x <= y {
      var rest := y[|x|..];
      assert y == x + rest;
      assert y[5..] == b + ":" + "" && (x + rest)[5..] == a + ":" + rest;
      AgentsDiffer(a, b, rest, "");
    }
  }

  /** Among such scopes two ids share a key exactly when one is the lead's and spells out the other's. */
  lemma PlainScopesShareIff(a: Scope, s: string, b: Scope, t: string)
    requires a != b && IsPlainScope(a) && IsPlainScope(b) && s != "" && t != ""
    ensures Key(a, s) == Key(b, t) <==> (a.Lead? && s == Key(b, t)) || (b.Lead? && t == Key(a, s))
  {
    SharedKeyIff(a, s, b, t);
    PlainPrefixes(a, b);
    PlainPrefixes(b, a);
    LeadKey(s);
    LeadKey(t);
    hide Prefix, Bare;
  }

  lemma LeadKey(s: string)
    ensures Key(Lead, s) == s && Bare(Lead, s) == s && Prefix(Lead) == ""
  {
  }

  // One dictionary, or one for each scope.

  /** One operation on calls that are kept under `prefix` and the bare id. */
  function RunOp(prefix: string, scope: Scope, calls: map<string, Call>, op: Op, sub: Option<Sub>)
      : (map<string, Call>, seq<Output>)
  {
    var tid := IdOf(op);
    var kept := prefix + Bare(scope, tid);
    match op
    case Begin(_, tool, input, mode) =>
      if tid == "" then (calls, [])
      else (calls[kept := Call(ToolName(tool), input)],
            [ToolEvent(Started, Key(scope, tid), ToolName(tool), input, mode, "", sub)])
    case Finish(b) =>
      if !b.ResultBlock? then (calls, [])
      else
        var call := if tid != "" && kept in calls then calls[kept] else Call("", None);
        (if tid != "" then calls - {kept} else calls,
         [ToolEvent(if b.isError then Errored else Succeeded, Key(scope, tid),
                    if call.tool != "" then call.tool else "tool", call.input, "", b.content, sub)])
  }

  function RunOps(prefix: string, scope: Scope, calls: map<string, Call>, ops: seq<Op>, sub: Option<Sub>)
      : (map<string, Call>, seq<Output>)
    decreases |ops|
  {
    if ops == [] then (calls, [])
    else
      var (after, first) := RunOp(prefix, scope, calls, ops[0], sub);
      var (last, others) := RunOps(prefix, scope, after, ops[1..], sub);
      (last, first + others)
  }

  function ToolOuts(outs: seq<Output>): seq<Output> {
    if outs == [] then [] else (if outs[0].ToolEvent? then [outs[0]] else []) + ToolOuts(outs[1..])
  }

  function ScopeOfEvent(e: Event): Scope {
    ScopeOf(Nested(e.tag))
  }

  function Only(scope: Scope, events: seq<Event>): seq<Event> {
    if events == [] then [] else (if ScopeOfEvent(events[0]) == scope then [events[0]] else []) + Only(scope, events[1..])
  }

  /** The tool events of the whole run that stem from one scope. */
  function OutsOf(scope: Scope, m: Mapper, events: seq<Event>): seq<Output>
    decreases |events|
  {
    if events == [] then []
    else
      var (after, first) := MapOne(m, events[0]);
      (if ScopeOfEvent(events[0]) == scope then ToolOuts(first) else []) + OutsOf(scope, after, events[1..])
  }

  /** The reference: a scope with a dictionary of its own, keyed by the bare ids. */
  function Alone(scope: Scope, calls: map<string, Call>, events: seq<Event>): seq<Output>
    decreases |events|
  {
    if events == [] then []
    else
      var (after, first) := RunOps("", scope, calls, Ops(events[0].body), Nested(events[0].tag));
      first + Alone(scope, after, events[1..])
  }

  lemma ToolOutsNext(outs: seq<Output>)
    requires outs != []
    ensures ToolOuts(outs) == (if outs[0].ToolEvent? then [outs[0]] else []) + ToolOuts(outs[1..])
    ensures ToolOuts([]) == []
  {
  }

  lemma {:induction false} ToolOutsConcat(a: seq<Output>, b: seq<Output>)
    ensures ToolOuts(a + b) == ToolOuts(a) + ToolOuts(b)
    decreases |a|
  {
    hide ToolOuts;
    if a == [] {
      assert a + b == b;
      NoTools([]);
    } else {
      assert (a + b)[1..] == a[1..] + b;
      ToolOutsNext(a);
      ToolOutsNext(a + b);
      ToolOutsConcat(a[1..], b);
    }
  }

  lemma {:induction false} NoTools(outs: seq<Output>)
    requires forall k :: 0 <= k < |outs| ==> !outs[k].ToolEvent?
    ensures ToolOuts(outs) == []
    decreases |outs|
  {
    if outs != [] {
      NoTools(outs[1..]);
    }
  }

  lemma OneResult(calls: map<string, Call>, b: Block, sub: Option<Sub>)
    requires b.ResultBlock?
    ensures var scope := ScopeOf(sub);
            RunOp(Prefix(scope), scope, calls, Finish(b), sub) == (ResultEvent(calls, b, sub).0, [ResultEvent(calls, b, sub).1])
  {
    hide Strip, LowerAll;
    ScopedIs(b.toolUseId, sub);
    KeyOfSome(ScopeOf(sub), Strip(b.toolUseId));
    hide ScopedToolUseId, ScopeOf, Prefix, Bare, Key;
  }

  lemma KeyOfSome(scope: Scope, tid: string)
    ensures tid != "" ==> Key(scope, tid) == Prefix(scope) + Bare(scope, tid) && Key(scope, tid) != ""
    ensures tid == "" ==> Key(scope, tid) == ""
  {
  }

  lemma {:induction false} ResultsAreOps(calls: map<string, Call>, blocks: seq<Block>, sub: Option<Sub>)
    ensures var scope := ScopeOf(sub);
            && RunOps(Prefix(scope), scope, calls, Finishes(blocks), sub) == ResultEvents(calls, blocks, sub)
            && ToolOuts(ResultEvents(calls, blocks, sub).1) == ResultEvents(calls, blocks, sub).1
    decreases |blocks|
  {
    hide Strip, ScopeOf, Prefix, RunOp, ResultEvent;
    if blocks != [] {
      var ops := Finishes(blocks);
      if blocks[0].ResultBlock? {
        assert ops == [Finish(blocks[0])] + Finishes(blocks[1..]);
        assert ops[1..] == Finishes(blocks[1..]);
        OneResult(calls, blocks[0], sub);
        var (after, output) := ResultEvent(calls, blocks[0], sub);
        assert output.ToolEvent? by { ResultIs(calls, blocks[0], sub); }
        ResultsAreOps(after, blocks[1..], sub);
        ToolOutsConcat([output], ResultEvents(after, blocks[1..], sub).1);
      } else {
        assert ops == Finishes(blocks[1..]);
        ResultsAreOps(calls, blocks[1..], sub);
      }
    }
  }

  lemma StartIsOp(m: Mapper, id: string, tool: string, input: Option<Json>, mode: string, sub: Option<Sub>)
    ensures var scope := ScopeOf(sub);
            var (after, outs) := ToolStarted(m, ScopedToolUseId(id, sub), tool, input, mode, sub);
            && (after.calls, outs) == RunOps(Prefix(scope), scope, m.calls, [Begin(id, tool, input, mode)], sub)
            && ToolOuts(outs) == outs
  {
    hide Strip, LowerAll;
    ScopedIs(id, sub);
    var scope := ScopeOf(sub);
    KeyOfSome(scope, Strip(id));
    hide ScopedToolUseId, ScopeOf, Prefix, ToolName, Bare, Key;
    var ops := [Begin(id, tool, input, mode)];
    assert ops[1..] == [];
    var one := RunOp(Prefix(scope), scope, m.calls, ops[0], sub);
    assert RunOps(Prefix(scope), scope, one.0, [], sub) == (one.0, []) && one.1 + [] == one.1;
  }

  lemma RawIsOps(m: Mapper, raw: Raw, sub: Option<Sub>)
    ensures var scope := ScopeOf(sub);
            var (after, outs) := MapRaw(m, raw, sub);
            (after.calls, ToolOuts(outs)) == RunOps(Prefix(scope), scope, m.calls, Ops(StreamEvent(Some(raw))), sub)
  {
    hide Strip, ScopedToolUseId, ScopeOf, Prefix, ToolStarted, RunOp;
    match raw
    case ToolUsePending(id, name, input) => StartIsOp(m, id, name, input, "", sub);
    case BlockStart(Some(i), ToolUseStart(id, name, input)) =>
      StartIsOp(m.(suppressed := m.suppressed + {i}), id, name, Some(if input.Obj? then input else Obj(map[])), "", sub);
    case _ => NoTools(MapRaw(m, raw, sub).1);
  }

  /** The one dictionary is worked on by the event's operations under its scope's prefix. */
  lemma MapIsOps(m: Mapper, e: Event)
    ensures var scope := ScopeOfEvent(e);
            var (after, outs) := MapOne(m, e);
            (after.calls, ToolOuts(outs)) == RunOps(Prefix(scope), scope, m.calls, Ops(e.body), Nested(e.tag))
  {
    hide Strip, ScopedToolUseId, ScopeOf, Prefix, ToolStarted, RunOp, ResultEvents, Nested, MapRaw;
    var sub := Nested(e.tag);
    match e.body
    case ToolExecution(id, tool, input, mode) => StartIsOp(m, id, tool, input, mode, sub);
    case StreamEvent(Some(raw)) => RawIsOps(m, raw, sub);
    case UserMessage(Some(blocks)) => ResultsAreOps(m.calls, blocks, sub);
    case _ => NoTools(MapOne(m, e).1);
  }

  /** On the bare ids `ids` the one dictionary holds under the prefix of `scope` what that scope's own holds. */
  ghost predicate Agree(scope: Scope, ids: set<string>, flat: map<string, Call>, own: map<string, Call>) {
    forall b :: b in ids ==>
      && (Prefix(scope) + b in flat <==> b in own)
      && (b in own ==> flat[Prefix(scope) + b] == own[b])
  }

  /** The bare ids that `scope` gives to `ops`. */
  function BareIds(scope: Scope, ops: seq<Op>): set<string> {
    set k | 0 <= k < |ops| && IdOf(ops[k]) != "" :: Bare(scope, IdOf(ops[k]))
  }

  /** None of the operations, which belong to another scope, has a key of `scope` and one of `ids`. */
  ghost predicate KeepsOff(scope: Scope, ids: set<string>, other: Scope, ops: seq<Op>) {
    forall k, b :: 0 <= k < |ops| && IdOf(ops[k]) != "" && b in ids ==> Prefix(scope) + b != Key(other, IdOf(ops[k]))
  }

  lemma SamePrefix(p: string, s: string, t: string)
    ensures p + s == p + t <==> s == t
  {
    SameConcat(p, s, p, t);
    assert p[|p|..] + t == t && p[|p|..] + s == s;
  }

  lemma OwnOp(scope: Scope, ids: set<string>, flat: map<string, Call>, own: map<string, Call>, op: Op, sub: Option<Sub>)
    requires Agree(scope, ids, flat, own) && (IdOf(op) != "" ==> Bare(scope, IdOf(op)) in ids)
    ensures var P := Prefix(scope);
            && RunOp(P, scope, flat, op, sub).1 == RunOp("", scope, own, op, sub).1
            && Agree(scope, ids, RunOp(P, scope, flat, op, sub).0, RunOp("", scope, own, op, sub).0)
  {
    hide IdOf, Prefix, ToolName, Bare, Key;
    var P, bare := Prefix(scope), Bare(scope, IdOf(op));
    assert "" + bare == bare;
    forall b: string
      ensures P + b == P + bare <==> b == bare
    {
      SamePrefix(P, b, bare);
    }
  }

  lemma OtherOp(scope: Scope, ids: set<string>, other: Scope, flat: map<string, Call>, own: map<string, Call>, op: Op,
                sub: Option<Sub>)
    requires Agree(scope, ids, flat, own)
    requires forall b :: b in ids && IdOf(op) != "" ==> Prefix(scope) + b != Key(other, IdOf(op))
    ensures Agree(scope, ids, RunOp(Prefix(other), other, flat, op, sub).0, own)
  {
    KeyOfSome(other, IdOf(op));
    hide IdOf, Prefix, ToolName, Bare, Key;
  }

  lemma {:induction false} OwnOps(scope: Scope, ids: set<string>, flat: map<string, Call>, own: map<string, Call>,
                                  ops: seq<Op>, sub: Option<Sub>)
    requires Agree(scope, ids, flat, own) && BareIds(scope, ops) <= ids
    ensures var P := Prefix(scope);
            && RunOps(P, scope, flat, ops, sub).1 == RunOps("", scope, own, ops, sub).1
            && Agree(scope, ids, RunOps(P, scope, flat, ops, sub).0, RunOps("", scope, own, ops, sub).0)
    decreases |ops|
  {
    hide RunOp, Agree, IdOf, Prefix, Bare;
    if ops != [] {
      BareIdsSplit(scope, ops);
      OwnOp(scope, ids, flat, own, ops[0], sub);
      var P := Prefix(scope);
      OwnOps(scope, ids, RunOp(P, scope, flat, ops[0], sub).0, RunOp("", scope, own, ops[0], sub).0, ops[1..], sub);
    }
  }

  lemma BareIdsSplit(scope: Scope, ops: seq<Op>)
    requires ops != []
    ensures IdOf(ops[0]) != "" ==> Bare(scope, IdOf(ops[0])) in BareIds(scope, ops)
    ensures BareIds(scope, ops[1..]) <= BareIds(scope, ops)
  {
    hide IdOf, Bare;
    forall b | b in BareIds(scope, ops[1..])
      ensures b in BareIds(scope, ops)
    {
      var k :| 0 <= k < |ops[1..]| && IdOf(ops[1..][k]) != "" && b == Bare(scope, IdOf(ops[1..][k]));
      assert ops[1..][k] == ops[k + 1];
    }
  }

  lemma {:induction false} OtherOps(scope: Scope, ids: set<string>, other: Scope, flat: map<string, Call>,
                                    own: map<string, Call>, ops: seq<Op>, sub: Option<Sub>)
    requires Agree(scope, ids, flat, own) && KeepsOff(scope, ids, other, ops)
    ensures Agree(scope, ids, RunOps(Prefix(other), other, flat, ops, sub).0, own)
    decreases |ops|
  {
    hide RunOp, Agree, IdOf, Prefix, Key;
    if ops != [] {
      OtherOp(scope, ids, other, flat, own, ops[0], sub);
      assert forall k :: 0 <= k < |ops[1..]| ==> ops[1..][k] == ops[k + 1];
      OtherOps(scope, ids, other, RunOp(Prefix(other), other, flat, ops[0], sub).0, own, ops[1..], sub);
    }
  }

  /** Every event of `scope` uses only `ids`, and every other keeps off them. */
  ghost predicate Separate(scope: Scope, ids: set<string>, events: seq<Event>) {
    forall k :: 0 <= k < |events| ==>
      if ScopeOfEvent(events[k]) == scope then BareIds(scope, Ops(events[k].body)) <= ids
      else KeepsOff(scope, ids, ScopeOfEvent(events[k]), Ops(events[k].body))
  }

  lemma SeparateTail(scope: Scope, ids: set<string>, events: seq<Event>)
    requires events != [] && Separate(scope, ids, events)
    ensures Separate(scope, ids, events[1..])
    ensures if ScopeOfEvent(events[0]) == scope then BareIds(scope, Ops(events[0].body)) <= ids
            else KeepsOff(scope, ids, ScopeOfEvent(events[0]), Ops(events[0].body))
  {
    hide ScopeOfEvent, BareIds, KeepsOff, Ops;
    assert forall k :: 0 <= k < |events[1..]| ==> events[1..][k] == events[k + 1];
  }

  lemma {:induction false} OutsAreAlone(scope: Scope, ids: set<string>, m: Mapper, own: map<string, Call>, events: seq<Event>)
    requires Separate(scope, ids, events) && Agree(scope, ids, m.calls, own)
    ensures OutsOf(scope, m, events) == Alone(scope, own, Only(scope, events))
    decreases |events|
  {
    hide RunOps, Agree, Prefix, MapOne, Ops, ScopeOf, Nested, ToolOuts, Separate, BareIds, KeepsOff;
    if events != [] {
      var e := events[0];
      var sub, ops := Nested(e.tag), Ops(e.body);
      SeparateTail(scope, ids, events);
      MapIsOps(m, e);
      var after := MapOne(m, e).0;
      var later := Only(scope, events[1..]);
      if ScopeOfEvent(e) == scope {
        assert Only(scope, events) == [e] + later && ([e] + later)[1..] == later;
        OwnOps(scope, ids, m.calls, own, ops, sub);
        OutsAreAlone(scope, ids, after, RunOps("", scope, own, ops, sub).0, events[1..]);
      } else {
        OtherOps(scope, ids, ScopeOfEvent(e), m.calls, own, ops, sub);
        OutsAreAlone(scope, ids, after, own, events[1..]);
        assert [] + later == later;
      }
    }
  }

  /** The bare ids that `scope` uses in `events`. */
  function UsedIds(scope: Scope, events: seq<Event>): set<string> {
    set k, b | 0 <= k < |events| && ScopeOfEvent(events[k]) == scope && b in BareIds(scope, Ops(events[k].body)) :: b
  }

  /** No operation of another scope shares a key with one of `scope`. */
  ghost predicate NoSharedKeys(scope: Scope, events: seq<Event>) {
    forall k :: 0 <= k < |events| && ScopeOfEvent(events[k]) != scope ==>
      KeepsOff(scope, UsedIds(scope, events), ScopeOfEvent(events[k]), Ops(events[k].body))
  }

  lemma NoSharedIsSeparate(scope: Scope, events: seq<Event>)
    requires NoSharedKeys(scope, events)
    ensures Separate(scope, UsedIds(scope, events), events)
  {
    hide KeepsOff, BareIds, Ops, ScopeOfEvent;
  }

  lemma {:induction false} OnlyIsSeparate(scope: Scope, ids: set<string>, events: seq<Event>)
    requires Separate(scope, ids, events)
    ensures Separate(scope, ids, Only(scope, events)) && Only(scope, Only(scope, events)) == Only(scope, events)
    ensures forall k :: 0 <= k < |Only(scope, events)| ==> ScopeOfEvent(Only(scope, events)[k]) == scope
    decreases |events|
  {
    hide ScopeOfEvent, BareIds, KeepsOff, Ops;
    if events != [] {
      SeparateTail(scope, ids, events);
      OnlyIsSeparate(scope, ids, events[1..]);
      var later := Only(scope, events[1..]);
      if ScopeOfEvent(events[0]) == scope {
        assert Only(scope, events) == [events[0]] + later && ([events[0]] + later)[1..] == later;
      } else {
        assert Only(scope, events) == later;
      }
    }
  }

  lemma {:induction false} OneScopeOuts(scope: Scope, m: Mapper, events: seq<Event>)
    requires forall k :: 0 <= k < |events| ==> ScopeOfEvent(events[k]) == scope
    ensures OutsOf(scope, m, events) == ToolOuts(MapAll(m, events).1)
    decreases |events|
  {
    hide MapOne, ScopeOfEvent;
    if events != [] {
      var (after, first) := MapOne(m, events[0]);
      OneScopeOuts(scope, after, events[1..]);
      ToolOutsConcat(first, MapAll(after, events[1..]).1);
    }
  }

  /** In any interleaving of the lead agent and its sub-agents in which no operation of another scope shares
      a key, the tool events of one scope are those of that scope run alone, and those of a dictionary of
      its own keyed by the bare ids. */
  lemma ScopesDoNotInterfere(scope: Scope, events: seq<Event>)
    requires NoSharedKeys(scope, events)
    ensures OutsOf(scope, INIT, events) == Alone(scope, map[], Only(scope, events))
    ensures OutsOf(scope, INIT, events) == ToolOuts(MapAll(INIT, Only(scope, events)).1)
  {
    hide OutsOf, Alone, MapAll, ToolOuts, Only, ScopeOfEvent, Prefix, NoSharedKeys, Separate, UsedIds;
    var ids := UsedIds(scope, events);
    NoSharedIsSeparate(scope, events);
    OnlyIsSeparate(scope, ids, events);
    OutsAreAlone(scope, ids, INIT, map[], events);
    OutsAreAlone(scope, ids, INIT, map[], Only(scope, events));
    OneScopeOuts(scope, INIT, Only(scope, events));
  }

  ghost predicate AllPlain(events: seq<Event>) {
    forall k :: 0 <= k < |events| ==> IsPlain(events[k])
  }

  lemma PlainBare(scope: Scope, tid: string)
    requires IsPlainId(tid)
    ensures Bare(scope, tid) == tid && Key(scope, tid) == Prefix(scope) + tid
  {
    assert scope.TaskScope? ==> "task:" <= Prefix(scope);
  }

  /** Plain events share no keys between scopes. */
  lemma PlainEventsShareNone(scope: Scope, events: seq<Event>)
    requires AllPlain(events)
    ensures NoSharedKeys(scope, events)
  {
    hide IdOf, Ops, ScopeOf, Nested, Prefix, Bare, Key, IsPlainId, IsPlainScope;
    var ids := UsedIds(scope, events);
    forall k, j, b | 0 <= k < |events| && ScopeOfEvent(events[k]) != scope && b in ids
                     && 0 <= j < |Ops(events[k].body)| && IdOf(Ops(events[k].body)[j]) != ""
      ensures Prefix(scope) + b != Key(ScopeOfEvent(events[k]), IdOf(Ops(events[k].body)[j]))
    {
      var i :| 0 <= i < |events| && ScopeOfEvent(events[i]) == scope && b in BareIds(scope, Ops(events[i].body));
      var mine := Ops(events[i].body);
      var h :| 0 <= h < |mine| && IdOf(mine[h]) != "" && b == Bare(scope, IdOf(mine[h]));
      assert IsPlain(events[i]) && IsPlain(events[k]);
      var s, t := IdOf(mine[h]), IdOf(Ops(events[k].body)[j]);
      assert IsPlainId(s) && IsPlainId(t);
      PlainBare(scope, s);
      PlainKeysDiffer(scope, s, ScopeOfEvent(events[k]), t);
    }
  }

  lemma PlainKeysDiffer(a: Scope, s: string, b: Scope, t: string)
    requires a != b && IsPlainScope(a) && IsPlainScope(b) && IsPlainId(s) && IsPlainId(t)
    ensures Key(a, s) != Key(b, t)
  {
    PlainScopesShareIff(a, s, b, t);
    if a.Lead? {
      LeadDiffers(b, s, Bare(b, t));
    } else if b.Lead? {
      LeadDiffers(a, t, Bare(a, s));
    }
  }

  lemma LeadDiffers(scope: Scope, lead: string, t: string)
    requires !scope.Lead? && IsPlainId(lead)
    ensures lead != Prefix(scope) + t
  {
    assert "composio:" <= Prefix(scope) + t || "task:" <= Prefix(scope) + t;
  }

  const FIRST := Event(SUB, ToolExecution("x", "Gmail", None, ""))
  const SECOND := Event(None, ToolExecution("composio:x", "Bash", None, ""))
  const THIRD := Event(SUB, UserMessage(Some([ResultBlock("x", "ok", false)])))

  /** Without plain ids a scope can take another's call: the lead's id "composio:x" is where the id "x" of
      the composio sub-agent is kept, so the result of "x" is shown for the lead's tool. */
  lemma IdsMayCollide()
    ensures OutsOf(ComposioScope, INIT, [FIRST, SECOND, THIRD]) !=
              ToolOuts(MapAll(INIT, Only(ComposioScope, [FIRST, SECOND, THIRD])).1)
  {
    hide *;
    var gmail, bash := TheBeginnings();
    TheScopes();
    Shown(gmail, "Gmail");
    Shown(bash, "Bash");
    StepOver(ComposioScope, INIT, FIRST, [SECOND, THIRD]);
    StepOver(ComposioScope, gmail, SECOND, [THIRD]);
    StepOver(ComposioScope, bash, THIRD, []);
    StepOver(ComposioScope, INIT, FIRST, [THIRD]);
    StepOver(ComposioScope, gmail, THIRD, []);
    var begun := MapOne(INIT, FIRST).1[0];
    assert [FIRST] + [SECOND, THIRD] == [FIRST, SECOND, THIRD] && [SECOND] + [THIRD] == [SECOND, THIRD];
    assert [THIRD] + [] == [THIRD];
    OneToolOut(begun);
    OneToolOut(MapOne(gmail, THIRD).1[0]);
    OneToolOut(MapOne(bash, THIRD).1[0]);
    assert OutsOf(ComposioScope, INIT, [FIRST, SECOND, THIRD])[1].tool == "Bash";
    assert MapAll(INIT, [FIRST] + [THIRD]).1 == [begun] + MapOne(gmail, THIRD).1;
    ToolOutsConcat([begun], MapOne(gmail, THIRD).1);
    assert ToolOuts(MapAll(INIT, [FIRST] + [THIRD]).1)[1].tool == "Gmail";
    assert Only(ComposioScope, [THIRD]) == [THIRD] && Only(ComposioScope, [SECOND, THIRD]) == [THIRD];
    assert Only(ComposioScope, [FIRST, SECOND, THIRD]) == [FIRST] + [THIRD];
    assert "Bash"[0] != "Gmail"[0];
  }

  lemma TheScopes()
    ensures ScopeOfEvent(FIRST) == ScopeOfEvent(THIRD) == ComposioScope && ScopeOfEvent(SECOND) == Lead
  {
  }

  lemma TheBeginnings() returns (gmail: Mapper, bash: Mapper)
    ensures gmail.calls == map["composio:x" := Call("Gmail", None)]
    ensures bash.calls == map["composio:x" := Call("Bash", None)]
    ensures MapOne(INIT, FIRST) == (gmail, [ToolEvent(Started, "composio:x", "Gmail", None, "", "", Some(Composio))])
    ensures MapOne(gmail, SECOND).0 == bash
  {
    hide MapOne, Strip;
    assert Prefix(ScopeOf(Nested(SUB))) + "x" == "composio:x" && !("composio:" <= "x");
    assert Prefix(ScopeOf(Nested(None))) + "composio:x" == "composio:x";
    gmail := Begins(INIT, SUB, "x", "Gmail", "composio:x");
    bash := Begins(gmail, None, "composio:x", "Bash", "composio:x");
  }

  lemma OneToolOut(out: Output)
    ensures ToolOuts([out]) == if out.ToolEvent? then [out] else []
  {
    assert [out][1..] == [];
  }

  lemma StepOver(scope: Scope, m: Mapper, e: Event, rest: seq<Event>)
    ensures MapAll(m, [e] + rest).1 == MapOne(m, e).1 + MapAll(MapOne(m, e).0, rest).1
    ensures OutsOf(scope, m, [e] + rest) ==
              (if ScopeOfEvent(e) == scope then ToolOuts(MapOne(m, e).1) else []) + OutsOf(scope, MapOne(m, e).0, rest)
    ensures Only(scope, [e] + rest) == (if ScopeOfEvent(e) == scope then [e] else []) + Only(scope, rest)
    ensures MapAll(MapOne(m, e).0, []).1 == [] && OutsOf(scope, MapOne(m, e).0, []) == [] && Only(scope, []) == []
  {
    hide MapOne, ScopeOfEvent, ToolOuts;
    assert ([e] + rest)[1..] == rest;
  }

  /** The start of a call whose id and name hold no white space at their ends. */
  lemma Begins(m: Mapper, tag: Option<Tag>, id: string, tool: string, key: string) returns (after: Mapper)
    requires id != "" && !IsSpace(id[0]) && !IsSpace(id[|id| - 1])
    requires tool != "" && !IsSpace(tool[0]) && !IsSpace(tool[|tool| - 1])
    requires key == Prefix(ScopeOf(Nested(tag))) + id
    requires ScopeOf(Nested(tag)).Lead? || !(Prefix(ScopeOf(Nested(tag))) <= id)
    ensures after == m.(calls := m.calls[key := Call(tool, None)], started := m.started + {key})
    ensures MapOne(m, Event(tag, ToolExecution(id, tool, None, ""))) ==
              (after, [ToolEvent(Started, key, tool, None, "", "", Nested(tag))])
  {
    hide *;
    after := m.(calls := m.calls[key := Call(tool, None)], started := m.started + {key});
    StripTrimmed(id);
    ScopedIs(id, Nested(tag));
    BareKey(ScopeOf(Nested(tag)), id, key);
    TrimmedName(tool);
    ExecutionStarts(m, tag, id, tool);
    StartedAs(m, key, tool, Nested(tag));
  }

  lemma BareKey(scope: Scope, tid: string, key: string)
    requires tid != "" && key == Prefix(scope) + tid && (scope.Lead? || !(Prefix(scope) <= tid))
    ensures Key(scope, tid) == key
  {
  }

  lemma TrimmedName(tool: string)
    requires tool != "" && !IsSpace(tool[0]) && !IsSpace(tool[|tool| - 1])
    ensures ToolName(tool) == tool
  {
    StripTrimmed(tool);
    hide Strip;
  }

  lemma ExecutionStarts(m: Mapper, tag: Option<Tag>, id: string, tool: string)
    ensures MapOne(m, Event(tag, ToolExecution(id, tool, None, ""))) ==
              ToolStarted(m, ScopedToolUseId(id, Nested(tag)), tool, None, "", Nested(tag))
  {
    hide ToolStarted, ScopedToolUseId, Nested;
  }

  lemma StartedAs(m: Mapper, key: string, tool: string, sub: Option<Sub>)
    requires key != "" && Strip(key) == key && ToolName(tool) == tool
    ensures ToolStarted(m, key, tool, None, "", sub) ==
              (m.(calls := m.calls[key := Call(tool, None)], started := m.started + {key}),
               [ToolEvent(Started, key, tool, None, "", "", sub)])
  {
    hide Strip, ToolName;
  }

  lemma Shown(m: Mapper, tool: string)
    requires m.calls == map["composio:x" := Call(tool, None)] && tool != ""
    ensures MapOne(m, THIRD).1 == [ToolEvent(Succeeded, "composio:x", tool, None, "", "ok", Some(Composio))]
  {
    StripTrimmed("x");
    var blocks := [ResultBlock("x", "ok", false)];
    assert blocks[1..] == [];
    assert ScopedToolUseId("x", Some(Composio)) == "composio:x";
  }

  // How often a call is started.

  /** The `started` events of a key. */
  function Starts(key: string, outs: seq<Output>): nat {
    if outs == [] then 0
    else (if outs[0].ToolEvent? && outs[0].phase.Started? && outs[0].id == key then 1 else 0) + Starts(key, outs[1..])
  }

  /** The operations that begin a call under a key. */
  function BeginsOf(key: string, scope: Scope, ops: seq<Op>): nat {
    if ops == [] then 0
    else (if ops[0].Begin? && Key(scope, IdOf(ops[0])) == key then 1 else 0) + BeginsOf(key, scope, ops[1..])
  }

  function BeginsIn(key: string, events: seq<Event>): nat {
    if events == [] then 0
    else BeginsOf(key, ScopeOfEvent(events[0]), Ops(events[0].body)) + BeginsIn(key, events[1..])
  }

  lemma StartsNext(key: string, outs: seq<Output>)
    requires outs != []
    ensures Starts(key, outs) ==
              (if outs[0].ToolEvent? && outs[0].phase.Started? && outs[0].id == key then 1 else 0) + Starts(key, outs[1..])
    ensures Starts(key, []) == 0
  {
  }

  lemma {:induction false} StartsConcat(key: string, a: seq<Output>, b: seq<Output>)
    ensures Starts(key, a + b) == Starts(key, a) + Starts(key, b)
    decreases |a|
  {
    hide Starts;
    if a == [] {
      assert a + b == b;
      StartsNext(key, [OutputMarker]);
    } else {
      assert (a + b)[1..] == a[1..] + b;
      StartsNext(key, a);
      StartsNext(key, a + b);
      StartsConcat(key, a[1..], b);
    }
  }

  lemma {:induction false} StartsAreToolEvents(key: string, outs: seq<Output>)
    ensures Starts(key, ToolOuts(outs)) == Starts(key, outs)
    decreases |outs|
  {
    if outs != [] {
      var later := ToolOuts(outs[1..]);
      StartsAreToolEvents(key, outs[1..]);
      if outs[0].ToolEvent? {
        assert ([outs[0]] + later)[1..] == later;
      } else {
        assert [] + later == later;
      }
    }
  }

  lemma OpStarts(key: string, prefix: string, scope: Scope, calls: map<string, Call>, op: Op, sub: Option<Sub>)
    requires key != ""
    ensures Starts(key, RunOp(prefix, scope, calls, op, sub).1) ==
              if op.Begin? && Key(scope, IdOf(op)) == key then 1 else 0
  {
    hide IdOf, Bare, Prefix, ToolName, Starts;
    KeyOfSome(scope, IdOf(op));
    hide Key;
    var outs := RunOp(prefix, scope, calls, op, sub).1;
    if outs != [] {
      assert outs == [outs[0]] && [outs[0]][1..] == [];
      StartsNext(key, outs);
    } else {
      StartsNext(key, [OutputMarker]);
    }
  }

  lemma {:induction false} OpsStart(key: string, prefix: string, scope: Scope, calls: map<string, Call>, ops: seq<Op>,
                                    sub: Option<Sub>)
    requires key != ""
    ensures Starts(key, RunOps(prefix, scope, calls, ops, sub).1) == BeginsOf(key, scope, ops)
    decreases |ops|
  {
    hide RunOp, Starts, Key, IdOf;
    if ops == [] {
      StartsNext(key, [OutputMarker]);
    } else {
      var (after, first) := RunOp(prefix, scope, calls, ops[0], sub);
      OpStarts(key, prefix, scope, calls, ops[0], sub);
      OpsStart(key, prefix, scope, after, ops[1..], sub);
      StartsConcat(key, first, RunOps(prefix, scope, after, ops[1..], sub).1);
    }
  }

  /** The `started` events of a key are exactly as many as the operations that begin a call under it. */
  lemma {:induction false} StartedAsOftenAsBegun(key: string, m: Mapper, events: seq<Event>)
    requires key != ""
    ensures Starts(key, MapAll(m, events).1) == BeginsIn(key, events)
    decreases |events|
  {
    hide MapOne, Starts, BeginsOf, ScopeOfEvent, Ops, RunOps, Prefix, ToolOuts, Nested;
    if events == [] {
      StartsNext(key, [OutputMarker]);
    } else {
      var e := events[0];
      var scope := ScopeOfEvent(e);
      var (after, first) := MapOne(m, e);
      MapIsOps(m, e);
      StartsAreToolEvents(key, first);
      OpsStart(key, Prefix(scope), scope, m.calls, Ops(e.body), Nested(e.tag));
      StartedAsOftenAsBegun(key, after, events[1..]);
      StartsConcat(key, first, MapAll(after, events[1..]).1);
    }
  }

  ghost predicate StartedOnce(events: seq<Event>) {
    forall key: string :: key != "" ==> Starts(key, MapAll(INIT, events).1) <= 1
  }

  ghost predicate BegunOnce(events: seq<Event>) {
    forall key: string :: key != "" ==> BeginsIn(key, events) <= 1
  }

  /** No id is started more than once exactly when no two operations of the run begin calls under one key. */
  lemma StartedOnceIff(events: seq<Event>)
    ensures StartedOnce(events) <==> BegunOnce(events)
  {
    hide Starts, BeginsIn, MapAll;
    forall key: string | key != ""
      ensures BegunOnce(events) ==> Starts(key, MapAll(INIT, events).1) <= 1
      ensures StartedOnce(events) ==> BeginsIn(key, events) <= 1
    {
      StartedAsOftenAsBegun(key, INIT, events);
    }
  }

  lemma BeginsNext(key: string, e: Event, later: seq<Event>)
    ensures BeginsIn(key, [e] + later) == BeginsOf(key, ScopeOfEvent(e), Ops(e.body)) + BeginsIn(key, later)
    ensures BeginsIn(key, []) == 0
  {
    hide BeginsOf, ScopeOfEvent, Ops;
    assert ([e] + later)[1..] == later;
  }

  lemma OneBegin(id: string, e: Event)
    requires e.tag == None
    requires || (e.body.ToolExecution? && e.body.id == id)
             || (e.body.StreamEvent? && e.body.raw.Some? && e.body.raw.value.ToolUsePending? && e.body.raw.value.id == id)
    ensures BeginsOf(Strip(id), ScopeOfEvent(e), Ops(e.body)) == 1
  {
    hide Strip;
    LeadKey(Strip(id));
    assert ScopeOfEvent(e) == Lead;
    var ops := Ops(e.body);
    assert |ops| == 1 && IdOf(ops[0]) == Strip(id) && ops[1..] == [];
    if Strip(id) == "" {
      KeyOfSome(Lead, "");
    }
    hide Key, IdOf;
    assert BeginsOf(Strip(id), Lead, []) == 0;
  }

  /** A native call is announced and then executed, which starts it twice. */
  lemma NativeCallStartsTwice(id: string, name: string, input: Json)
    requires Strip(id) != ""
    ensures var announced := Event(None, StreamEvent(Some(ToolUsePending(id, name, Some(input)))));
            var executed := Event(None, ToolExecution(id, name, Some(input), "sequential"));
            Starts(Strip(id), MapAll(INIT, [announced, executed]).1) == 2
  {
    var announced := Event(None, StreamEvent(Some(ToolUsePending(id, name, Some(input)))));
    var executed := Event(None, ToolExecution(id, name, Some(input), "sequential"));
    hide *;
    StartedAsOftenAsBegun(Strip(id), INIT, [announced, executed]);
    assert [announced] + [executed] == [announced, executed] && [executed] + [] == [executed];
    BeginsNext(Strip(id), announced, [executed]);
    BeginsNext(Strip(id), executed, []);
    OneBegin(id, announced);
    OneBegin(id, executed);
  }
}

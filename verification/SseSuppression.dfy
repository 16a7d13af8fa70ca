/** The blocks of one provider stream on their way through the mapper (koraku/streaming/koraku_sse.py):
    tool use blocks are taken out whole, everything else passes. */
module SseSuppression {
  import opened Wrappers
  import M = SseMapper

  predicate IsBlockEvent(raw: M.Raw) {
    raw.BlockStart? || raw.BlockDelta? || raw.BlockStop?
  }

  /** The open blocks behind `raw`, each with whether it is a tool use, or None when `raw` is out of place.
      Argument deltas belong into tool use blocks. */
  function Advance(open: map<int, bool>, raw: M.Raw): Option<map<int, bool>> {
    match raw
    case BlockStart(Some(i), block) => if i in open then None else Some(open[i := block.ToolUseStart?])
    case BlockDelta(Some(i), isJson, _) => if i !in open || (isJson && !open[i]) then None else Some(open)
    case BlockStop(Some(i)) => if i !in open then None else Some(open - {i})
    case BlockStart(None, _) => None
    case BlockDelta(None, _, _) => None
    case BlockStop(None) => None
    case _ => Some(open)
  }

  function Opened(open: map<int, bool>, raws: seq<M.Raw>): Option<map<int, bool>>
    decreases |raws|
  {
    if raws == [] then Some(open)
    else
      var next :- Advance(open, raws[0]);
      Opened(next, raws[1..])
  }

  /** The block that `raw` belongs to is a tool use. */
  predicate InToolUse(open: map<int, bool>, raw: M.Raw) {
    match raw
    case BlockStart(_, block) => block.ToolUseStart?
    case BlockDelta(Some(i), _, _) => i in open && open[i]
    case BlockStop(Some(i)) => i in open && open[i]
    case _ => false
  }

  /** The block events of the stream without its tool use blocks. */
  function WithoutToolUses(open: map<int, bool>, raws: seq<M.Raw>): seq<M.Raw>
    decreases |raws|
  {
    if raws == [] then []
    else
      (if IsBlockEvent(raws[0]) && !InToolUse(open, raws[0]) then [raws[0]] else [])
      + (match Advance(open, raws[0])
         case None => []
         case Some(next) => WithoutToolUses(next, raws[1..]))
  }

  /** The block events among the forwarded ones. */
  function Forwarded(outs: seq<M.Output>): seq<M.Raw> {
    if outs == [] then []
    else (if outs[0].Wrapped? && IsBlockEvent(outs[0].raw) then [outs[0].raw] else []) + Forwarded(outs[1..])
  }

  function Events(tag: Option<M.Tag>, raws: seq<M.Raw>): seq<M.Event> {
    seq(|raws|, k requires 0 <= k < |raws| => M.Event(tag, M.StreamEvent(Some(raws[k]))))
  }

  function OpenToolUses(open: map<int, bool>): set<int> {
    set i | i in open && open[i]
  }

  function OpenOthers(open: map<int, bool>): map<int, bool> {
    map i | i in open && !open[i] :: false
  }

  lemma ForwardedNext(outs: seq<M.Output>)
    requires outs != []
    ensures Forwarded(outs) ==
              (if outs[0].Wrapped? && IsBlockEvent(outs[0].raw) then [outs[0].raw] else []) + Forwarded(outs[1..])
  {
  }

  lemma {:induction false} ForwardedConcat(a: seq<M.Output>, b: seq<M.Output>)
    ensures Forwarded(a + b) == Forwarded(a) + Forwarded(b)
    decreases |a|
  {
    if a == [] {
      assert a + b == b;
    } else {
      hide Forwarded;
      assert (a + b)[1..] == a[1..] + b;
      ForwardedNext(a);
      ForwardedNext(a + b);
      ForwardedConcat(a[1..], b);
    }
  }

  lemma ForwardedOne(out: M.Output)
    ensures Forwarded([out]) == if out.Wrapped? && IsBlockEvent(out.raw) then [out.raw] else []
    ensures Forwarded([]) == []
  {
    assert [out][1..] == [];
  }

  /** What an event does to the suppressed indexes. */
  function Suppress(suppressed: set<int>, raw: M.Raw): set<int> {
    match raw
    case BlockStart(Some(i), block) => if block.ToolUseStart? then suppressed + {i} else suppressed
    case BlockStop(Some(i)) => suppressed - {i}
    case _ => suppressed
  }

  /** A block event gets through. */
  predicate Passes(suppressed: set<int>, raw: M.Raw) {
    match raw
    case BlockStart(_, block) => !block.ToolUseStart?
    case BlockDelta(Some(i), isJson, _) => i !in suppressed && !isJson
    case BlockStop(Some(i)) => i !in suppressed
    case _ => false
  }

  lemma EventMaps(m: M.Mapper, open: map<int, bool>, raw: M.Raw, sub: Option<M.Sub>)
    requires Advance(open, raw).Some?
    ensures var (after, outs) := M.MapRaw(m, raw, sub);
            && after.suppressed == Suppress(m.suppressed, raw)
            && Forwarded(outs) == if IsBlockEvent(raw) && Passes(m.suppressed, raw) then [raw] else []
  {
    hide M.ToolName, M.ScopedToolUseId, Forwarded;
    var outs := M.MapRaw(m, raw, sub).1;
    ForwardedOne(M.OutputMarker);
    if |outs| == 1 {
      ForwardedOne(outs[0]);
      assert outs == [outs[0]];
    } else if |outs| == 2 {
      ForwardedOne(outs[0]);
      ForwardedOne(outs[1]);
      ForwardedConcat([outs[0]], [outs[1]]);
      assert outs == [outs[0]] + [outs[1]];
    }
  }

  /** One event of the stream: it is forwarded when its block is no tool use, and the suppressed indexes
      stay those of the open tool uses. */
  lemma OneEvent(m: M.Mapper, open: map<int, bool>, raw: M.Raw, sub: Option<M.Sub>)
    requires Advance(open, raw).Some? && m.suppressed == OpenToolUses(open)
    ensures var (after, outs) := M.MapRaw(m, raw, sub);
            && after.suppressed == OpenToolUses(Advance(open, raw).value)
            && Forwarded(outs) == if IsBlockEvent(raw) && !InToolUse(open, raw) then [raw] else []
  {
    hide M.MapRaw, Forwarded;
    EventMaps(m, open, raw, sub);
  }

  /** What is left open by the events that are kept. */
  lemma KeptAdvance(open: map<int, bool>, raw: M.Raw)
    requires Advance(open, raw).Some?
    ensures var next := Advance(open, raw).value;
            if IsBlockEvent(raw) && !InToolUse(open, raw) then Advance(OpenOthers(open), raw) == Some(OpenOthers(next))
            else OpenOthers(next) == OpenOthers(open)
  {
    var next := Advance(open, raw).value;
    match raw
    case BlockStart(Some(i), block) =>
      assert OpenOthers(next) == if block.ToolUseStart? then OpenOthers(open) else OpenOthers(open)[i := false];
    case BlockStop(Some(i)) =>
      assert OpenOthers(next) == if open[i] then OpenOthers(open) else OpenOthers(open) - {i};
    case _ =>
  }

  lemma {:induction false} StreamFrom(m: M.Mapper, open: map<int, bool>, tag: Option<M.Tag>, raws: seq<M.Raw>)
    requires Opened(open, raws).Some? && m.suppressed == OpenToolUses(open)
    ensures var (after, outs) := M.MapAll(m, Events(tag, raws));
            && Forwarded(outs) == WithoutToolUses(open, raws)
            && after.suppressed == OpenToolUses(Opened(open, raws).value)
    decreases |raws|
  {
    hide M.MapRaw, OpenToolUses, Forwarded, Advance, InToolUse, IsBlockEvent, M.Nested;
    var events := Events(tag, raws);
    assert Forwarded([]) == [] by { ForwardedOne(M.OutputMarker); }
    if raws != [] {
      assert events[1..] == Events(tag, raws[1..]);
      OneEvent(m, open, raws[0], M.Nested(tag));
      var (after, first) := M.MapOne(m, events[0]);
      StreamFrom(after, Advance(open, raws[0]).value, tag, raws[1..]);
      ForwardedConcat(first, M.MapAll(after, events[1..]).1);
    }
  }

  lemma {:induction false} KeptIsBracketed(open: map<int, bool>, raws: seq<M.Raw>)
    requires Opened(open, raws).Some?
    ensures Opened(OpenOthers(open), WithoutToolUses(open, raws)) == Some(OpenOthers(Opened(open, raws).value))
    decreases |raws|
  {
    hide Advance, InToolUse, IsBlockEvent, OpenOthers;
    if raws != [] {
      KeptAdvance(open, raws[0]);
      var next := Advance(open, raws[0]).value;
      KeptIsBracketed(next, raws[1..]);
      var later := WithoutToolUses(next, raws[1..]);
      if IsBlockEvent(raws[0]) && !InToolUse(open, raws[0]) {
        assert ([raws[0]] + later)[1..] == later;
      } else {
        assert [] + later == later;
      }
    }
  }

  /** Along one provider stream that is properly bracketed so far, the forwarded block events are the
      stream's without its tool use blocks, they are properly bracketed themselves, and the suppressed
      indexes are exactly those of the open tool uses; so none is left when every block is closed. */
  lemma ToolUsesAreTakenOut(tag: Option<M.Tag>, raws: seq<M.Raw>)
    requires Opened(map[], raws).Some?
    ensures var (after, outs) := M.MapAll(M.INIT, Events(tag, raws));
            var open := Opened(map[], raws).value;
            && Forwarded(outs) == WithoutToolUses(map[], raws)
            && Opened(map[], Forwarded(outs)) == Some(OpenOthers(open))
            && after.suppressed == OpenToolUses(open)
            && (open == map[] ==> after.suppressed == {} && OpenOthers(open) == map[])
  {
    hide Opened, WithoutToolUses, Forwarded, M.MapAll, Events;
    assert OpenOthers(map[]) == map[];
    StreamFrom(M.INIT, map[], tag, raws);
    KeptIsBracketed(map[], raws);
  }

  // A stream behind one that was cut.

  /** No delta or stop of a block that is no tool use falls at an index that is left suppressed. A stop at
      such an index frees it. */
  predicate Undisturbed(left: set<int>, open: map<int, bool>, raws: seq<M.Raw>)
    decreases |raws|
  {
    raws == [] ||
    match Advance(open, raws[0])
    case None => false
    case Some(next) => !Swallowed(left, open, raws[0]) && Undisturbed(Freed(left, raws[0]), next, raws[1..])
  }

  predicate Swallowed(left: set<int>, open: map<int, bool>, raw: M.Raw) {
    match raw
    case BlockDelta(Some(i), _, _) => i in left && !InToolUse(open, raw)
    case BlockStop(Some(i)) => i in left && !InToolUse(open, raw)
    case _ => false
  }

  function Freed(left: set<int>, raw: M.Raw): set<int> {
    match raw
    case BlockStop(Some(i)) => left - {i}
    case _ => left
  }

  lemma EventBehind(m: M.Mapper, left: set<int>, open: map<int, bool>, raw: M.Raw, sub: Option<M.Sub>)
    requires Advance(open, raw).Some? && m.suppressed == left + OpenToolUses(open)
    ensures var (after, outs) := M.MapRaw(m, raw, sub);
            && after.suppressed == Freed(left, raw) + OpenToolUses(Advance(open, raw).value)
            && Forwarded(outs) ==
                 if IsBlockEvent(raw) && !InToolUse(open, raw) && !Swallowed(left, open, raw) then [raw] else []
  {
    hide M.MapRaw, Forwarded;
    EventMaps(m, open, raw, sub);
  }

  lemma StreamBehindNext(m: M.Mapper, left: set<int>, open: map<int, bool>, tag: Option<M.Tag>, raws: seq<M.Raw>)
      returns (after: M.Mapper)
    requires raws != [] && Advance(open, raws[0]).Some? && m.suppressed == left + OpenToolUses(open)
    ensures after.suppressed == Freed(left, raws[0]) + OpenToolUses(Advance(open, raws[0]).value)
    ensures var kept := IsBlockEvent(raws[0]) && !InToolUse(open, raws[0]) && !Swallowed(left, open, raws[0]);
            Forwarded(M.MapAll(m, Events(tag, raws)).1) ==
              (if kept then [raws[0]] else []) + Forwarded(M.MapAll(after, Events(tag, raws[1..])).1)
  {
    hide M.MapRaw, OpenToolUses, Forwarded, Advance, InToolUse, IsBlockEvent, M.Nested, Freed, Swallowed;
    var events := Events(tag, raws);
    assert events[1..] == Events(tag, raws[1..]);
    EventBehind(m, left, open, raws[0], M.Nested(tag));
    var first := M.MapOne(m, events[0]).1;
    after := M.MapOne(m, events[0]).0;
    ForwardedConcat(first, M.MapAll(after, events[1..]).1);
  }

  lemma NothingForwarded(m: M.Mapper, tag: Option<M.Tag>)
    ensures Forwarded(M.MapAll(m, Events(tag, [])).1) == []
  {
  }

  lemma KeptNext(open: map<int, bool>, raws: seq<M.Raw>, next: map<int, bool>)
    requires raws != [] && Advance(open, raws[0]) == Some(next)
    ensures WithoutToolUses(open, raws) ==
              (if IsBlockEvent(raws[0]) && !InToolUse(open, raws[0]) then [raws[0]] else [])
              + WithoutToolUses(next, raws[1..])
  {
    hide Advance, InToolUse, IsBlockEvent;
  }

  lemma {:induction false} StreamBehind(m: M.Mapper, left: set<int>, open: map<int, bool>, tag: Option<M.Tag>,
                                        raws: seq<M.Raw>)
    requires Opened(open, raws).Some? && m.suppressed == left + OpenToolUses(open)
    ensures var forwarded, kept := Forwarded(M.MapAll(m, Events(tag, raws)).1), WithoutToolUses(open, raws);
            && |forwarded| <= |kept|
            && (forwarded == kept <==> Undisturbed(left, open, raws))
    decreases |raws|
  {
    hide M.MapAll, Events, OpenToolUses, Forwarded, Advance, InToolUse, IsBlockEvent, WithoutToolUses, Freed, Swallowed;
    if raws == [] {
      NothingForwarded(m, tag);
      NothingKept(open);
    } else {
      var raw, next := raws[0], Advance(open, raws[0]).value;
      var after := StreamBehindNext(m, left, open, tag, raws);
      StreamBehind(after, Freed(left, raw), next, tag, raws[1..]);
      KeptNext(open, raws, next);
      SwallowedIsKept(left, open, raw);
      SameFront(if IsBlockEvent(raw) && !InToolUse(open, raw) && !Swallowed(left, open, raw) then [raw] else [],
                Forwarded(M.MapAll(after, Events(tag, raws[1..])).1),
                if IsBlockEvent(raw) && !InToolUse(open, raw) then [raw] else [], WithoutToolUses(next, raws[1..]));
    }
  }

  lemma NothingKept(open: map<int, bool>)
    ensures WithoutToolUses(open, []) == []
  {
  }

  lemma SwallowedIsKept(left: set<int>, open: map<int, bool>, raw: M.Raw)
    ensures Swallowed(left, open, raw) ==> IsBlockEvent(raw) && !InToolUse(open, raw)
  {
  }

  lemma SameFront<T>(a: seq<T>, later: seq<T>, b: seq<T>, behind: seq<T>)
    requires (a == b || |a| < |b|) && |later| <= |behind|
    ensures |a + later| <= |b + behind|
    ensures a + later == b + behind <==> a == b && later == behind
  {
    if a == b && a + later == b + behind {
      assert later == (a + later)[|a|..] && behind == (b + behind)[|b|..];
    }
  }

  /** A stream that begins when another was cut, possibly inside tool uses, keeps everything but its own
      tool uses exactly when it is undisturbed by the indexes that the first one left suppressed. */
  lemma BehindACutStreamIff(cut: Option<M.Tag>, raws: seq<M.Raw>, tag: Option<M.Tag>, next: seq<M.Raw>)
    requires Opened(map[], raws).Some? && Opened(map[], next).Some?
    ensures var m := M.MapAll(M.INIT, Events(cut, raws)).0;
            Forwarded(M.MapAll(m, Events(tag, next)).1) == WithoutToolUses(map[], next)
            <==> Undisturbed(OpenToolUses(Opened(map[], raws).value), map[], next)
  {
    hide Opened, WithoutToolUses, Forwarded, M.MapAll, Events, Undisturbed;
    var left := OpenToolUses(Opened(map[], raws).value);
    StreamFrom(M.INIT, map[], cut, raws);
    assert left + OpenToolUses(map[]) == left;
    StreamBehind(M.MapAll(M.INIT, Events(cut, raws)).0, left, map[], tag, next);
  }

  /** A text block behind a stream that was cut inside a tool use at its index: only its start is forwarded. */
  lemma TextBehindACutToolUse(cut: Option<M.Tag>, raws: seq<M.Raw>, tag: Option<M.Tag>, i: int, text: string)
    requires Opened(map[], raws).Some? && i in OpenToolUses(Opened(map[], raws).value)
    ensures var m := M.MapAll(M.INIT, Events(cut, raws)).0;
            var next := [M.BlockStart(Some(i), M.OtherStart("text")), M.BlockDelta(Some(i), false, text),
                         M.BlockStop(Some(i))];
            && Forwarded(M.MapAll(m, Events(tag, next)).1) == [next[0]]
            && WithoutToolUses(map[], next) == next
  {
    hide Forwarded, M.MapAll, Events, Opened, WithoutToolUses;
    var next := [M.BlockStart(Some(i), M.OtherStart("text")), M.BlockDelta(Some(i), false, text), M.BlockStop(Some(i))];
    StreamFrom(M.INIT, map[], cut, raws);
    var m := M.MapAll(M.INIT, Events(cut, raws)).0;
    var none: map<int, bool> := map[];
    var m1 := StreamBehindNext(m, m.suppressed, none, tag, next);
    var m2 := StreamBehindNext(m1, m.suppressed, none[i := false], tag, next[1..]);
    var m3 := StreamBehindNext(m2, m.suppressed, none[i := false], tag, next[2..]);
    assert next[3..] == [];
    NothingForwarded(m3, tag);
    KeptNext(none, next, none[i := false]);
    KeptNext(none[i := false], next[1..], none[i := false]);
    KeptNext(none[i := false], next[2..], none[i := false] - {i});
    NothingKept(none[i := false] - {i});
  }
}

/** Several provider streams at once in the mapper (koraku/streaming/koraku_sse.py). The suppressed block
    indexes are shared by all of them, which is harmless exactly when the streams do not get in each
    other's way at an index. */
module SseInterleaving {
  import opened Wrappers
  import opened Json
  import M = SseMapper
  import opened SseSuppression

  /** The next event of one of the streams. */
  datatype Tick = Tick(stream: nat, raw: M.Raw)

  type Opens = seq<map<int, bool>>

  function AdvanceOne(opens: Opens, t: Tick): (r: Option<Opens>)
    ensures r.Some? ==> t.stream < |opens| && |r.value| == |opens|
  {
    if t.stream >= |opens| then None
    else
      var next :- Advance(opens[t.stream], t.raw);
      Some(opens[t.stream := next])
  }

  /** The open blocks of every stream behind the ticks, or None when some stream is not properly bracketed. */
  function AdvanceAll(opens: Opens, ticks: seq<Tick>): (r: Option<Opens>)
    ensures r.Some? ==> |r.value| == |opens|
    decreases |ticks|
  {
    if ticks == [] then Some(opens)
    else
      var next :- AdvanceOne(opens, ticks[0]);
      AdvanceAll(next, ticks[1..])
  }

  function NothingOpen(n: nat): Opens {
    seq(n, _ => map[])
  }

  // What is forwarded, and what should be.

  function EventAt(tags: nat -> Option<M.Tag>, t: Tick): M.Event {
    M.Event(tags(t.stream), M.StreamEvent(Some(t.raw)))
  }

  /** The block events that the mapper forwards, tick by tick. */
  function ForwardedPerTick(m: M.Mapper, tags: nat -> Option<M.Tag>, ticks: seq<Tick>): seq<seq<M.Raw>>
    decreases |ticks|
  {
    if ticks == [] then []
    else
      var (after, outs) := M.MapOne(m, EventAt(tags, ticks[0]));
      [Forwarded(outs)] + ForwardedPerTick(after, tags, ticks[1..])
  }

  /** The event itself when it is a block event and its own block is no tool use. */
  function Wanted(open: map<int, bool>, raw: M.Raw): seq<M.Raw> {
    if IsBlockEvent(raw) && !InToolUse(open, raw) then [raw] else []
  }

  function WantedPerTick(opens: Opens, ticks: seq<Tick>): seq<seq<M.Raw>>
    decreases |ticks|
  {
    if ticks == [] then []
    else
      match AdvanceOne(opens, ticks[0])
      case None => []
      case Some(next) => [Wanted(opens[ticks[0].stream], ticks[0].raw)] + WantedPerTick(next, ticks[1..])
  }

  // Clashes.

  predicate Holds(open: map<int, bool>, i: int) {
    i in open && open[i]
  }

  /** Another stream has a tool use open at `i`. */
  predicate HeldElsewhere(opens: Opens, k: nat, i: int) {
    exists j :: 0 <= j < |opens| && j != k && Holds(opens[j], i)
  }

  /** At an index at which another stream has a tool use open, a block ends, or a block that is no tool use
      goes on. */
  predicate Clash(opens: Opens, t: Tick)
    requires t.stream < |opens|
  {
    match t.raw
    case BlockDelta(Some(i), _, _) => !Holds(opens[t.stream], i) && HeldElsewhere(opens, t.stream, i)
    case BlockStop(Some(i)) => HeldElsewhere(opens, t.stream, i)
    case _ => false
  }

  predicate NoClash(opens: Opens, ticks: seq<Tick>)
    decreases |ticks|
  {
    ticks == [] ||
    match AdvanceOne(opens, ticks[0])
    case None => false
    case Some(next) => !Clash(opens, ticks[0]) && NoClash(next, ticks[1..])
  }

  // Counting.

  /** How many streams have a tool use open at `i`. */
  function Held(opens: Opens, i: int): nat {
    if opens == [] then 0 else (if Holds(opens[0], i) then 1 else 0) + Held(opens[1..], i)
  }

  function One(b: bool): nat {
    if b then 1 else 0
  }

  lemma {:induction false} HeldUpdate(opens: Opens, k: nat, m: map<int, bool>, i: int)
    requires k < |opens|
    ensures Held(opens[k := m], i) + One(Holds(opens[k], i)) == Held(opens, i) + One(Holds(m, i))
    decreases |opens|
  {
    hide Holds;
    if k == 0 {
      assert opens[0 := m][1..] == opens[1..];
    } else {
      assert opens[k := m][1..] == opens[1..][k - 1 := m];
      HeldUpdate(opens[1..], k - 1, m, i);
    }
  }

  lemma {:induction false} HeldByOthers(opens: Opens, k: nat, i: int)
    requires k < |opens|
    ensures HeldElsewhere(opens, k, i) <==> Held(opens, i) > One(Holds(opens[k], i))
    decreases |opens|
  {
    hide Holds;
    var rest := opens[1..];
    assert forall j :: 0 <= j < |rest| ==> rest[j] == opens[j + 1];
    HeldAtAll(rest, i);
    if k == 0 {
      if HeldElsewhere(opens, 0, i) {
        var j :| 0 <= j < |opens| && j != 0 && Holds(opens[j], i);
        assert Holds(rest[j - 1], i);
      }
      if Held(rest, i) > 0 {
        var j :| 0 <= j < |rest| && Holds(rest[j], i);
        assert Holds(opens[j + 1], i);
      }
    } else {
      HeldByOthers(rest, k - 1, i);
      if HeldElsewhere(opens, k, i) {
        var j :| 0 <= j < |opens| && j != k && Holds(opens[j], i);
        assert j > 0 ==> Holds(rest[j - 1], i) && j - 1 != k - 1;
        HeldHere(rest, k - 1, i);
      }
      if HeldElsewhere(rest, k - 1, i) {
        var j :| 0 <= j < |rest| && j != k - 1 && Holds(rest[j], i);
        assert Holds(opens[j + 1], i);
      }
      if Holds(opens[0], i) {
        assert HeldElsewhere(opens, k, i);
        HeldHere(rest, k - 1, i);
      }
    }
  }

  lemma {:induction false} HeldAtAll(opens: Opens, i: int)
    ensures Held(opens, i) > 0 <==> exists j :: 0 <= j < |opens| && Holds(opens[j], i)
    decreases |opens|
  {
    hide Holds;
    if opens != [] {
      HeldAtAll(opens[1..], i);
      if Held(opens[1..], i) > 0 {
        var j :| 0 <= j < |opens[1..]| && Holds(opens[1..][j], i);
        assert Holds(opens[j + 1], i);
      }
    }
  }

  lemma {:induction false} HeldHere(opens: Opens, k: nat, i: int)
    requires k < |opens|
    ensures Held(opens, i) >= One(Holds(opens[k], i))
    decreases |opens|
  {
    hide Holds;
    if k > 0 {
      HeldHere(opens[1..], k - 1, i);
    }
  }

  lemma {:induction false} NothingHeld(opens: Opens, i: int)
    requires forall k :: 0 <= k < |opens| ==> opens[k] == map[]
    ensures Held(opens, i) == 0
    decreases |opens|
  {
    if opens != [] {
      NothingHeld(opens[1..], i);
    }
  }

  // One tick.

  /** The tick is forwarded as it should be. */
  predicate Right(opens: Opens, suppressed: set<int>, t: Tick)
    requires t.stream < |opens|
  {
    IsBlockEvent(t.raw) ==> (Passes(suppressed, t.raw) <==> !InToolUse(opens[t.stream], t.raw))
  }

  /** An index is suppressed exactly when some stream has a tool use open at it. */
  ghost predicate InStep(opens: Opens, suppressed: set<int>) {
    forall i: int :: i in suppressed <==> Held(opens, i) > 0
  }

  /** At most the suppressed indexes are held, each by one stream. */
  ghost predicate Covered(opens: Opens, suppressed: set<int>) {
    forall i: int :: Held(opens, i) <= One(i in suppressed)
  }

  lemma OneAdvance(opens: Opens, t: Tick, next: Opens, i: int)
    requires AdvanceOne(opens, t) == Some(next)
    ensures var own, then' := opens[t.stream], next[t.stream];
            && Held(next, i) + One(Holds(own, i)) == Held(opens, i) + One(Holds(then', i))
            && Held(opens, i) >= One(Holds(own, i))
            && (HeldElsewhere(opens, t.stream, i) <==> Held(opens, i) > One(Holds(own, i)))
  {
    hide Advance, Holds, HeldElsewhere, Held;
    HeldUpdate(opens, t.stream, next[t.stream], i);
    HeldHere(opens, t.stream, i);
    HeldByOthers(opens, t.stream, i);
  }

  /** Without a clash a tick in step is forwarded rightly and stays in step. */
  lemma StepsTogether(opens: Opens, suppressed: set<int>, t: Tick, next: Opens)
    requires AdvanceOne(opens, t) == Some(next) && InStep(opens, suppressed) && !Clash(opens, t)
    ensures Right(opens, suppressed, t) && InStep(next, Suppress(suppressed, t.raw))
  {
    hide Held, HeldElsewhere;
    forall i: int
      ensures i in Suppress(suppressed, t.raw) <==> Held(next, i) > 0
    {
      OneAdvance(opens, t, next, i);
    }
    match t.raw
    case BlockDelta(Some(i), _, _) => OneAdvance(opens, t, next, i);
    case BlockStop(Some(i)) => OneAdvance(opens, t, next, i);
    case _ =>
  }

  /** Backwards: a tick that is forwarded rightly and leads to a covered state begins in one. */
  lemma CoveredBefore(opens: Opens, suppressed: set<int>, t: Tick, next: Opens)
    requires AdvanceOne(opens, t) == Some(next) && Right(opens, suppressed, t)
    requires Covered(next, Suppress(suppressed, t.raw))
    ensures Covered(opens, suppressed)
  {
    hide Held, HeldElsewhere;
    forall i: int
      ensures Held(opens, i) <= One(i in suppressed)
    {
      OneAdvance(opens, t, next, i);
    }
  }

  /** A tick between covered states that is forwarded rightly clashes with no other stream. */
  lemma RightIsNoClash(opens: Opens, suppressed: set<int>, t: Tick, next: Opens)
    requires AdvanceOne(opens, t) == Some(next) && Right(opens, suppressed, t)
    requires Covered(opens, suppressed) && Covered(next, Suppress(suppressed, t.raw))
    ensures !Clash(opens, t)
  {
    hide Held, HeldElsewhere;
    match t.raw
    case BlockDelta(Some(i), _, _) => OneAdvance(opens, t, next, i);
    case BlockStop(Some(i)) => OneAdvance(opens, t, next, i);
    case _ =>
  }

  // Whole runs.

  lemma TickIsRight(m: M.Mapper, tags: nat -> Option<M.Tag>, opens: Opens, t: Tick, next: Opens)
    requires AdvanceOne(opens, t) == Some(next)
    ensures var (after, outs) := M.MapOne(m, EventAt(tags, t));
            && after.suppressed == Suppress(m.suppressed, t.raw)
            && (Forwarded(outs) == Wanted(opens[t.stream], t.raw) <==> Right(opens, m.suppressed, t))
  {
    hide M.MapRaw, M.Nested, Forwarded, Advance, InToolUse, IsBlockEvent, Passes, Suppress;
    EventMaps(m, opens[t.stream], t.raw, M.Nested(tags(t.stream)));
    assert t.raw == [t.raw][0];
  }

  lemma ForwardedPerTickNext(m: M.Mapper, tags: nat -> Option<M.Tag>, ticks: seq<Tick>)
    requires ticks != []
    ensures var (after, outs) := M.MapOne(m, EventAt(tags, ticks[0]));
            var per := ForwardedPerTick(m, tags, ticks);
            |per| > 0 && per[0] == Forwarded(outs) && per[1..] == ForwardedPerTick(after, tags, ticks[1..])
  {
    hide M.MapOne, Forwarded, EventAt;
  }

  lemma WantedPerTickNext(opens: Opens, ticks: seq<Tick>, next: Opens)
    requires ticks != [] && AdvanceOne(opens, ticks[0]) == Some(next)
    ensures var per := WantedPerTick(opens, ticks);
            && |per| > 0
            && per[0] == Wanted(opens[ticks[0].stream], ticks[0].raw)
            && per[1..] == WantedPerTick(next, ticks[1..])
  {
    hide AdvanceOne, Wanted;
  }

  lemma EqualByParts<T>(a: seq<T>, b: seq<T>)
    requires |a| > 0 && |b| > 0
    ensures a == b <==> a[0] == b[0] && a[1..] == b[1..]
  {
    assert a == [a[0]] + a[1..] && b == [b[0]] + b[1..];
  }

  lemma {:induction false} WithoutClash(m: M.Mapper, tags: nat -> Option<M.Tag>, opens: Opens, ticks: seq<Tick>)
    requires AdvanceAll(opens, ticks).Some? && InStep(opens, m.suppressed) && NoClash(opens, ticks)
    ensures ForwardedPerTick(m, tags, ticks) == WantedPerTick(opens, ticks)
    decreases |ticks|
  {
    hide AdvanceOne, Clash, InStep, Suppress, Right, Wanted, WantedPerTick, Forwarded, ForwardedPerTick,
      EventAt, M.MapOne;
    if ticks == [] {
      NoTicks(m, tags, opens);
    } else {
      var next := AdvanceOne(opens, ticks[0]).value;
      var after := M.MapOne(m, EventAt(tags, ticks[0])).0;
      StepsTogether(opens, m.suppressed, ticks[0], next);
      TickIsRight(m, tags, opens, ticks[0], next);
      WithoutClash(after, tags, next, ticks[1..]);
      ForwardedPerTickNext(m, tags, ticks);
      WantedPerTickNext(opens, ticks, next);
      EqualByParts(ForwardedPerTick(m, tags, ticks), WantedPerTick(opens, ticks));
    }
  }

  lemma NoTicks(m: M.Mapper, tags: nat -> Option<M.Tag>, opens: Opens)
    ensures ForwardedPerTick(m, tags, []) == [] == WantedPerTick(opens, [])
  {
  }

  ghost predicate AllClosed(opens: Opens) {
    forall k :: 0 <= k < |opens| ==> opens[k] == map[]
  }

  lemma {:induction false} RightOnlyWithoutClash(m: M.Mapper, tags: nat -> Option<M.Tag>, opens: Opens, ticks: seq<Tick>)
    requires AdvanceAll(opens, ticks).Some? && AllClosed(AdvanceAll(opens, ticks).value)
    requires ForwardedPerTick(m, tags, ticks) == WantedPerTick(opens, ticks)
    ensures NoClash(opens, ticks) && Covered(opens, m.suppressed)
    decreases |ticks|
  {
    hide AdvanceOne, Clash, Suppress, Right, Wanted, WantedPerTick, Forwarded, ForwardedPerTick, EventAt, M.MapOne, Held;
    if ticks == [] {
      forall i: int
        ensures Held(opens, i) <= One(i in m.suppressed)
      {
        NothingHeld(opens, i);
      }
    } else {
      var next := AdvanceOne(opens, ticks[0]).value;
      var after := M.MapOne(m, EventAt(tags, ticks[0])).0;
      ForwardedPerTickNext(m, tags, ticks);
      WantedPerTickNext(opens, ticks, next);
      EqualByParts(ForwardedPerTick(m, tags, ticks), WantedPerTick(opens, ticks));
      TickIsRight(m, tags, opens, ticks[0], next);
      RightOnlyWithoutClash(after, tags, next, ticks[1..]);
      CoveredBefore(opens, m.suppressed, ticks[0], next);
      RightIsNoClash(opens, m.suppressed, ticks[0], next);
    }
  }

  /** Any number of properly bracketed streams, interleaved in any way and cut anywhere: without a clash
      every block event is treated as its own stream asks. When every block is closed at the end, only
      then. */
  lemma InterleavedStreamsIff(tags: nat -> Option<M.Tag>, n: nat, ticks: seq<Tick>)
    requires AdvanceAll(NothingOpen(n), ticks).Some?
    ensures NoClash(NothingOpen(n), ticks) ==>
              ForwardedPerTick(M.INIT, tags, ticks) == WantedPerTick(NothingOpen(n), ticks)
    ensures AllClosed(AdvanceAll(NothingOpen(n), ticks).value) ==>
              (ForwardedPerTick(M.INIT, tags, ticks) == WantedPerTick(NothingOpen(n), ticks)
               <==> NoClash(NothingOpen(n), ticks))
  {
    hide AdvanceAll, NoClash, ForwardedPerTick, WantedPerTick, Held;
    var opens := NothingOpen(n);
    forall i: int
      ensures Held(opens, i) == 0
    {
      NothingHeld(opens, i);
    }
    if NoClash(opens, ticks) {
      WithoutClash(M.INIT, tags, opens, ticks);
    } else if AllClosed(AdvanceAll(opens, ticks).value)
              && ForwardedPerTick(M.INIT, tags, ticks) == WantedPerTick(opens, ticks) {
      RightOnlyWithoutClash(M.INIT, tags, opens, ticks);
    }
  }

  function Joined(per: seq<seq<M.Raw>>): seq<M.Raw> {
    if per == [] then [] else per[0] + Joined(per[1..])
  }

  function EventsOf(tags: nat -> Option<M.Tag>, ticks: seq<Tick>): seq<M.Event> {
    seq(|ticks|, k requires 0 <= k < |ticks| => EventAt(tags, ticks[k]))
  }

  lemma JoinedNext(per: seq<seq<M.Raw>>)
    requires per != []
    ensures Joined(per) == per[0] + Joined(per[1..])
  {
  }

  lemma NothingForwarded(m: M.Mapper, tags: nat -> Option<M.Tag>)
    ensures Forwarded(M.MapAll(m, []).1) == [] == Joined(ForwardedPerTick(m, tags, []))
  {
  }

  /** The block events that the run forwards, tick by tick, are those of its output. */
  lemma {:induction false} ForwardedIsJoined(m: M.Mapper, tags: nat -> Option<M.Tag>, ticks: seq<Tick>)
    ensures Forwarded(M.MapAll(m, EventsOf(tags, ticks)).1) == Joined(ForwardedPerTick(m, tags, ticks))
    decreases |ticks|
  {
    hide M.MapOne, EventAt, Forwarded, ForwardedPerTick, Joined;
    var events := EventsOf(tags, ticks);
    if ticks == [] {
      assert events == [];
      NothingForwarded(m, tags);
    } else {
      assert events[0] == EventAt(tags, ticks[0]) && events[1..] == EventsOf(tags, ticks[1..]);
      var (after, outs) := M.MapOne(m, events[0]);
      ForwardedIsJoined(after, tags, ticks[1..]);
      ForwardedPerTickNext(m, tags, ticks);
      JoinedNext(ForwardedPerTick(m, tags, ticks));
      ForwardedConcat(outs, M.MapAll(after, events[1..]).1);
    }
  }

  // Stream by stream.

  /** The events of stream `k`. */
  function Own(k: nat, ticks: seq<Tick>): seq<M.Raw> {
    if ticks == [] then [] else (if ticks[0].stream == k then [ticks[0].raw] else []) + Own(k, ticks[1..])
  }

  /** What `per` holds for the ticks of stream `k`. */
  function Share(k: nat, ticks: seq<Tick>, per: seq<seq<M.Raw>>): seq<M.Raw>
    requires |per| == |ticks|
  {
    if ticks == [] then []
    else (if ticks[0].stream == k then per[0] else []) + Share(k, ticks[1..], per[1..])
  }

  lemma WithoutToolUsesNext(open: map<int, bool>, raws: seq<M.Raw>, next: map<int, bool>)
    requires raws != [] && Advance(open, raws[0]) == Some(next)
    ensures WithoutToolUses(open, raws) == Wanted(open, raws[0]) + WithoutToolUses(next, raws[1..])
  {
    hide Advance, InToolUse, IsBlockEvent;
  }

  lemma OwnNext(k: nat, ticks: seq<Tick>)
    requires ticks != []
    ensures Own(k, ticks) == (if ticks[0].stream == k then [ticks[0].raw] else []) + Own(k, ticks[1..])
    ensures ticks[0].stream == k ==>
              Own(k, ticks) != [] && Own(k, ticks)[0] == ticks[0].raw && Own(k, ticks)[1..] == Own(k, ticks[1..])
  {
  }

  lemma ShareNext(k: nat, ticks: seq<Tick>, per: seq<seq<M.Raw>>)
    requires ticks != [] && |per| == |ticks|
    ensures Share(k, ticks, per) == (if ticks[0].stream == k then per[0] else []) + Share(k, ticks[1..], per[1..])
  {
  }

  lemma OpenedNext(open: map<int, bool>, raws: seq<M.Raw>, next: map<int, bool>)
    requires raws != [] && Advance(open, raws[0]) == Some(next)
    ensures Opened(open, raws) == Opened(next, raws[1..])
  {
    hide Advance;
  }

  /** What the streams ask for together is, for each of them, its own block events without its tool uses;
      and every stream is bracketed on its own. */
  lemma {:induction false} WantedByStream(k: nat, opens: Opens, ticks: seq<Tick>)
    requires k < |opens| && AdvanceAll(opens, ticks).Some?
    ensures |WantedPerTick(opens, ticks)| == |ticks|
    ensures Opened(opens[k], Own(k, ticks)) == Some(AdvanceAll(opens, ticks).value[k])
    ensures Share(k, ticks, WantedPerTick(opens, ticks)) == WithoutToolUses(opens[k], Own(k, ticks))
    decreases |ticks|
  {
    hide Advance, Opened, Wanted, WithoutToolUses, Own, Share, WantedPerTick;
    if ticks == [] {
      NothingByStream(k, opens);
    } else {
      var t := ticks[0];
      var next := AdvanceOne(opens, t).value;
      WantedPerTickNext(opens, ticks, next);
      WantedByStream(k, next, ticks[1..]);
      OwnNext(k, ticks);
      ShareNext(k, ticks, WantedPerTick(opens, ticks));
      if t.stream == k {
        OpenedNext(opens[k], Own(k, ticks), next[k]);
        WithoutToolUsesNext(opens[k], Own(k, ticks), next[k]);
      } else {
        assert Own(k, ticks) == Own(k, ticks[1..]);
        assert Share(k, ticks, WantedPerTick(opens, ticks)) == Share(k, ticks[1..], WantedPerTick(next, ticks[1..]));
      }
    }
  }

  lemma NothingByStream(k: nat, opens: Opens)
    requires k < |opens|
    ensures Own(k, []) == [] && WantedPerTick(opens, []) == [] && WithoutToolUses(opens[k], []) == []
    ensures Opened(opens[k], []) == Some(opens[k]) && Share(k, [], []) == []
  {
  }

  /** Without a clash each stream's share of the forwarded block events is its own without its tool uses. */
  lemma EachStreamIsKept(tags: nat -> Option<M.Tag>, n: nat, ticks: seq<Tick>, k: nat)
    requires k < n && AdvanceAll(NothingOpen(n), ticks).Some? && NoClash(NothingOpen(n), ticks)
    ensures |ForwardedPerTick(M.INIT, tags, ticks)| == |ticks|
    ensures Share(k, ticks, ForwardedPerTick(M.INIT, tags, ticks)) == WithoutToolUses(map[], Own(k, ticks))
  {
    hide AdvanceAll, NoClash, ForwardedPerTick, WantedPerTick, Share, Own, WithoutToolUses, Opened;
    InterleavedStreamsIff(tags, n, ticks);
    WantedByStream(k, NothingOpen(n), ticks);
  }

  // An input.

  /** One tick, from any open blocks that let its event be in place. */
  lemma Forwards(m: M.Mapper, tags: nat -> Option<M.Tag>, ticks: seq<Tick>, open: map<int, bool>)
      returns (after: M.Mapper)
    requires ticks != [] && Advance(open, ticks[0].raw).Some?
    ensures after.suppressed == Suppress(m.suppressed, ticks[0].raw)
    ensures var raw := ticks[0].raw;
            ForwardedPerTick(m, tags, ticks) ==
              [if IsBlockEvent(raw) && Passes(m.suppressed, raw) then [raw] else []]
              + ForwardedPerTick(after, tags, ticks[1..])
  {
    hide M.MapRaw, M.Nested, Forwarded, Advance, IsBlockEvent, Passes, Suppress;
    after := M.MapOne(m, EventAt(tags, ticks[0])).0;
    EventMaps(m, open, ticks[0].raw, M.Nested(tags(ticks[0].stream)));
  }

  lemma Advances(opens: Opens, ticks: seq<Tick>, next: Opens)
    requires ticks != [] && ticks[0].stream < |opens| == |next|
    requires Advance(opens[ticks[0].stream], ticks[0].raw) == Some(next[ticks[0].stream])
    requires forall k :: 0 <= k < |opens| && k != ticks[0].stream ==> opens[k] == next[k]
    ensures AdvanceOne(opens, ticks[0]) == Some(next)
    ensures AdvanceAll(opens, ticks) == AdvanceAll(next, ticks[1..])
    ensures NoClash(opens, ticks) <==> !Clash(opens, ticks[0]) && NoClash(next, ticks[1..])
    ensures WantedPerTick(opens, ticks) ==
              [Wanted(opens[ticks[0].stream], ticks[0].raw)] + WantedPerTick(next, ticks[1..])
  {
    hide Advance, Clash, Wanted;
    assert opens[ticks[0].stream := next[ticks[0].stream]] == next;
  }

  function TextStart(): M.Raw { M.BlockStart(Some(0), M.OtherStart("text")) }

  function ToolStart(): M.Raw { M.BlockStart(Some(0), M.ToolUseStart("call_1", "Read", Obj(map[]))) }

  function Delta(isJson: bool, text: string): M.Raw { M.BlockDelta(Some(0), isJson, text) }

  function Stop(): M.Raw { M.BlockStop(Some(0)) }

  /** The lead agent's text block falls into a sub-agent's tool use at the same index. */
  function Collision(): seq<Tick> {
    [Tick(1, ToolStart()), Tick(0, TextStart()), Tick(0, Delta(false, "hi")), Tick(0, Stop()),
     Tick(1, Delta(true, "{}")), Tick(1, Stop())]
  }

  lemma CollisionWants()
    ensures AdvanceAll([map[], map[]], Collision()) == Some([map[], map[]])
    ensures !NoClash([map[], map[]], Collision())
    ensures WantedPerTick([map[], map[]], Collision()) == [[], [TextStart()], [Delta(false, "hi")], [Stop()], [], []]
  {
    hide AdvanceOne, AdvanceAll, NoClash, WantedPerTick;
    var none: map<int, bool> := map[];
    var tool, text := none[0 := true], none[0 := false];
    assert text - {0} == none && tool - {0} == none;
    var ticks := Collision();
    Advances([none, none], ticks, [none, tool]);
    Advances([none, tool], ticks[1..], [text, tool]);
    assert Holds([text, tool][1], 0) && Clash([text, tool], ticks[2]);
    Advances([text, tool], ticks[2..], [text, tool]);
    Advances([text, tool], ticks[3..], [none, tool]);
    Advances([none, tool], ticks[4..], [none, tool]);
    Advances([none, tool], ticks[5..], [none, none]);
    assert ticks[6..] == [];
    NothingByStream(0, [none, none]);
    assert AdvanceAll([none, none], []) == Some([none, none]) by {
      NoneAdvance([none, none]);
    }
  }

  lemma NoneAdvance(opens: Opens)
    ensures AdvanceAll(opens, []) == Some(opens)
  {
  }

  lemma CollisionForwards(tags: nat -> Option<M.Tag>)
    ensures ForwardedPerTick(M.INIT, tags, Collision()) == [[], [TextStart()], [], [], [], [Stop()]]
  {
    hide ForwardedPerTick;
    var none: map<int, bool> := map[];
    var tool, text := none[0 := true], none[0 := false];
    var ticks := Collision();
    var m1 := Forwards(M.INIT, tags, ticks, none);
    var m2 := Forwards(m1, tags, ticks[1..], none);
    var m3 := Forwards(m2, tags, ticks[2..], text);
    var m4 := Forwards(m3, tags, ticks[3..], text);
    var m5 := Forwards(m4, tags, ticks[4..], tool);
    var m6 := Forwards(m5, tags, ticks[5..], tool);
    assert ticks[6..] == [];
    NoTicks(m6, tags, []);
  }

  /** Two properly bracketed streams that clash, however they are tagged: the lead agent's text and its end
      are lost, and the end of the sub-agent's tool use gets through in their place. */
  lemma CollisionLosesText(tags: nat -> Option<M.Tag>)
    ensures AdvanceAll(NothingOpen(2), Collision()) == Some(NothingOpen(2))
    ensures !NoClash(NothingOpen(2), Collision())
    ensures WantedPerTick(NothingOpen(2), Collision()) == [[], [TextStart()], [Delta(false, "hi")], [Stop()], [], []]
    ensures ForwardedPerTick(M.INIT, tags, Collision()) == [[], [TextStart()], [], [], [], [Stop()]]
  {
    hide AdvanceAll, NoClash, WantedPerTick, ForwardedPerTick, Collision;
    assert NothingOpen(2) == [map[], map[]];
    CollisionWants();
    CollisionForwards(tags);
  }
}

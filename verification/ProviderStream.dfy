/** `_process_openai_stream` (koraku/llm/providers/openai_compat_backend.py): from the chunks of a
    provider response to the events of a whole message. */
module ProviderStream {
  import opened Wrappers
  import opened Text
  import opened Json
  import opened Messages
  import opened IntSets
  import opened OpenAiDelta
  import opened VisibleFilter
  import opened ToolCallParse
  import opened StreamHandler
  import A = Announcements
  import SseFraming

  const DONE_LINE := "data: [DONE]"

  /** The inner loop on a buffer: the stripped lines it hands on, and the buffer it leaves. A done
      marker ends the loop for this chunk only; the text behind it waits for the next chunk. */
  function TakeLines(buffer: string): (c: SseFraming.Cut)
    decreases |buffer|
  {
    var b := SseFraming.Break(buffer, 0);
    if b.None? then SseFraming.Cut([], buffer) else
    var line := Strip(buffer[..b.value]);
    var rest := buffer[b.value + 1..];
    if line == DONE_LINE then SseFraming.Cut([], rest) else
    var later := TakeLines(rest);
    SseFraming.Cut([line] + later.lines, later.rest)
  }

  /** All lines handed on while the chunks arrive, from a buffer on. */
  function Passed(buffer: string, chunks: seq<string>): seq<string>
    decreases |chunks|
  {
    if chunks == [] then [] else
    var c := TakeLines(buffer + chunks[0]);
    c.lines + Passed(c.rest, chunks[1..])
  }

  datatype State = State(calls: A.Calls, contents: seq<string>, reasoned: seq<string>)

  const START := State(A.NO_CALLS, [], [])

  function Step(codec: Codec, parse: string -> Option<Delta>, st: State, line: string): State {
    var d := DeltaOf(parse, line);
    if d.None? then st
    else State(CallsAfter(codec, st.calls, d.value), TextAfter(st.contents, d.value),
               ReasonedAfter(st.reasoned, st.contents, d.value))
  }

  /** What the lines leave in the handler. */
  function After(codec: Codec, parse: string -> Option<Delta>, st: State, lines: seq<string>): State
    decreases |lines|
  {
    if lines == [] then st else After(codec, parse, Step(codec, parse, st, lines[0]), lines[1..])
  }

  /** What a whole response yields when it leaves `st` in the handler: a legal block stream that shows
      exactly what the filter shows of the contents, thinks exactly the reasoning before them, and
      announces exactly what the native calls say, then the closing messages built from the same contents and calls. */
  ghost predicate Response(reader: Reader, st: State, blocks: seq<Event>, closing: seq<Event>) {
    hide *;
    var content := FinalBlocks(reader, st.calls.slots, Join(st.contents));
    && LegalStream(blocks)
    && DeltaText(blocks) == Join(Shown(Stream(reader.decode, "", st.contents)))
    && ThinkingText(blocks) == Join(st.reasoned)
    && Pendings(blocks) == EventsOf(st.calls.announced)
    && |closing| == 3
    && closing[0] == MessageDelta(StopReason(content))
    && closing[1] == MessageStop
    && closing[2].AssistantMessage? && closing[2].content == content
  }

  ghost function StateOf(handler: OpenAiStreamHandler): State
    reads handler, handler.native
  {
    State(handler.CallsNow(), handler.contents, handler.reasoned)
  }

  /** `_process_openai_stream` */
  method ProcessOpenAiStream(reader: Reader, parse: string -> Option<Delta>, chunks: seq<string>)
    returns (events: seq<Event>)
    ensures |events| >= 3
    ensures Response(reader, After(reader.codec, parse, START, Passed("", chunks)), events[..|events| - 3], events[|events| - 3..])
  {
    hide OpenAiStreamHandler.Streaming, Response, After, TakeLines, Passed;
    var handler := new OpenAiStreamHandler(reader, parse);
    StreamingText(handler);
    var buffer := "";
    var i := 0;
    while i < |chunks|
      invariant i <= |chunks|
      invariant handler.Streaming() && handler.reader == reader && handler.parse == parse
      invariant fresh(handler) && fresh(handler.filter) && fresh(handler.native)
      invariant After(reader.codec, parse, StateOf(handler), Passed(buffer, chunks[i..])) ==
                After(reader.codec, parse, START, Passed("", chunks))
    {
      PassedNext(buffer, chunks[i..]);
      assert chunks[i..][1..] == chunks[i + 1..];
      ghost var later := Passed(TakeLines(buffer + chunks[i]).rest, chunks[i + 1..]);
      buffer := DrainLines(handler, buffer + chunks[i], later);
      i := i + 1;
    }
    PassedNone(buffer, chunks[i..]);
    AfterNone(reader.codec, parse, StateOf(handler));
    events := Finish(handler);
  }

  // The native calls of a response.

  /** The batches of fragments that the lines bring, two for each payload. */
  function BatchesOf(parse: string -> Option<Delta>, lines: seq<string>): seq<seq<Fragment>> {
    if lines == [] then []
    else
      (match DeltaOf(parse, lines[0])
       case None => []
       case Some(d) => [d.messageCalls, d.calls])
      + BatchesOf(parse, lines[1..])
  }

  lemma {:induction false} CallsAreBatches(codec: Codec, parse: string -> Option<Delta>, st: State, lines: seq<string>)
    ensures After(codec, parse, st, lines).calls == A.Batches(codec, st.calls, BatchesOf(parse, lines))
    decreases |lines|
  {
    hide DeltaOf, A.Batch, TextAfter, ReasonedAfter;
    if lines != [] {
      var later := BatchesOf(parse, lines[1..]);
      CallsAreBatches(codec, parse, Step(codec, parse, st, lines[0]), lines[1..]);
      match DeltaOf(parse, lines[0])
      case None => assert [] + later == later;
      case Some(d) =>
        var all := [d.messageCalls, d.calls] + later;
        assert all[1..] == [d.calls] + later && all[1..][1..] == later;
    }
  }

  lemma {:induction false} KeyHasBlock(codec: Codec, slots: map<int, Slot>, keys: seq<int>, i: int)
    requires i in keys && SlotBlock(codec, i, SlotAt(slots, i)).Some?
    ensures SlotBlock(codec, i, SlotAt(slots, i)).value in SlotBlocks(codec, slots, keys)
    decreases |keys|
  {
    hide SlotBlock;
    if keys[0] != i {
      KeyHasBlock(codec, slots, keys[1..], i);
    }
  }

  lemma UseHasBlock(uses: seq<ToolUse>, use: ToolUse)
    requires use in uses
    ensures ToolBlock(use) in ToolBlocks(uses)
  {
    var k :| 0 <= k < |uses| && uses[k] == use;
    assert ToolBlocks(uses)[k] == ToolBlock(use);
  }

  /** What becomes of call `i`: it is announced exactly when its fragments ever name it, once, as they
      stand when the first name is complete; it is in the message at the end exactly when its last name is
      not blank, and then it was announced. */
  ghost predicate Settled(codec: Codec, batches: seq<seq<Fragment>>, announced: seq<A.Announcement>,
                          message: seq<Block>, i: int)
  {
    hide *;
    var first := A.FirstNamed(batches, 0, i);
    var use := A.FinalUse(codec, batches, i);
    && A.About(announced, i) ==
         (if first.Some? then [A.AnnouncementOf(codec, i, A.Merged(batches, first.value, i))] else [])
    && (use.Some? <==> A.Named(A.Merged(batches, |batches|, i)))
    && (use.Some? ==> first.Some? && ToolBlock(use.value) in message)
  }

  lemma CallIsSettled(reader: Reader, batches: seq<seq<Fragment>>, text: string, i: int)
    ensures var calls := A.Batches(reader.codec, A.NO_CALLS, batches);
            Settled(reader.codec, batches, calls.announced, FinalBlocks(reader, calls.slots, text), i)
  {
    hide A.FirstNamed, A.About, A.AnnouncementOf, A.Merged, A.Batches, A.Named, A.FinalUse, FinalBlocks;
    A.AnnouncedOnceWhenNamed(reader.codec, batches, i);
    A.AnnouncementMatchesBlock(reader.codec, batches, i);
    if A.FinalUse(reader.codec, batches, i).Some? {
      UseIsInMessage(reader, batches, text, i);
    }
  }

  lemma UseIsInMessage(reader: Reader, batches: seq<seq<Fragment>>, text: string, i: int)
    requires A.FinalUse(reader.codec, batches, i).Some?
    ensures ToolBlock(A.FinalUse(reader.codec, batches, i).value) in
              FinalBlocks(reader, A.Batches(reader.codec, A.NO_CALLS, batches).slots, text)
  {
    hide *;
    var slots := A.Batches(reader.codec, A.NO_CALLS, batches).slots;
    var use := A.FinalUse(reader.codec, batches, i).value;
    A.FinalIs(reader.codec, batches, i);
    SlotIsKey(reader.codec, slots, i);
    KeyHasBlock(reader.codec, slots, Sorted(slots.Keys), i);
    BlocksAre(reader.codec, slots);
    UseHasBlock(OpenAiDelta.Blocks(reader.codec, slots), use);
    NativeIsFinal(reader, slots, text, ToolBlock(use));
  }

  lemma SlotIsKey(codec: Codec, slots: map<int, Slot>, i: int)
    requires SlotBlock(codec, i, SlotAt(slots, i)).Some?
    ensures i in Sorted(slots.Keys)
  {
    hide SlotBlock, Sorted;
    EmptySlotHasNoBlock(codec, i);
  }

  lemma BlocksAre(codec: Codec, slots: map<int, Slot>)
    ensures OpenAiDelta.Blocks(codec, slots) == SlotBlocks(codec, slots, Sorted(slots.Keys))
  {
  }

  lemma NativeIsFinal(reader: Reader, slots: map<int, Slot>, text: string, b: Block)
    requires b in ToolBlocks(OpenAiDelta.Blocks(reader.codec, slots))
    ensures b in FinalBlocks(reader, slots, text)
  {
    hide OpenAiDelta.Blocks, ToolBlocks, Parse, TextParts, Strip, EmptyCompletion;
  }

  /** Every native call of a response is settled. */
  lemma CallsOfResponse(reader: Reader, parse: string -> Option<Delta>, lines: seq<string>,
                        blocks: seq<Event>, closing: seq<Event>, i: int)
    requires Response(reader, After(reader.codec, parse, START, lines), blocks, closing)
    ensures var st := After(reader.codec, parse, START, lines);
            && Pendings(blocks) == EventsOf(st.calls.announced)
            && |closing| == 3 && closing[2].AssistantMessage?
            && Settled(reader.codec, BatchesOf(parse, lines), st.calls.announced, closing[2].content, i)
  {
    hide *;
    var st := After(reader.codec, parse, START, lines);
    CallsAreBatches(reader.codec, parse, START, lines);
    StartHasNoCalls();
    CallIsSettled(reader, BatchesOf(parse, lines), Join(st.contents), i);
    ResponseSays(reader, st, blocks, closing);
  }

  lemma StartHasNoCalls()
    ensures START.calls == A.NO_CALLS
  {
  }

  lemma ResponseSays(reader: Reader, st: State, blocks: seq<Event>, closing: seq<Event>)
    requires Response(reader, st, blocks, closing)
    ensures Pendings(blocks) == EventsOf(st.calls.announced)
    ensures |closing| == 3 && closing[2].AssistantMessage?
    ensures closing[2].content == FinalBlocks(reader, st.calls.slots, Join(st.contents))
  {
    hide LegalStream, DeltaText, ThinkingText, Pendings, EventsOf, FinalBlocks, StopReason, Join, Shown, Stream;
  }

  lemma EmptySlotHasNoBlock(codec: Codec, i: int)
    ensures SlotBlock(codec, i, EMPTY_SLOT) == None
  {
    StripBlank("");
  }

  lemma StreamingText(handler: OpenAiStreamHandler)
    requires handler.Streaming()
    ensures handler.accumulatedText == Join(handler.contents)
  {
  }

  lemma PassedNone(buffer: string, chunks: seq<string>)
    requires |chunks| == 0
    ensures Passed(buffer, chunks) == []
  {
  }

  lemma AfterNone(codec: Codec, parse: string -> Option<Delta>, st: State)
    ensures After(codec, parse, st, []) == st
  {
  }

  lemma PassedNext(buffer: string, chunks: seq<string>)
    requires chunks != []
    ensures var c := TakeLines(buffer + chunks[0]);
            Passed(buffer, chunks) == c.lines + Passed(c.rest, chunks[1..])
  {
  }

  method Finish(handler: OpenAiStreamHandler) returns (events: seq<Event>)
    requires handler.Streaming()
    modifies handler, handler.filter
    ensures |events| >= 3
    ensures Response(handler.reader, old(StateOf(handler)), events[..|events| - 3], events[|events| - 3..])
  {
    hide OpenAiStreamHandler.Streaming, OpenAiStreamHandler.ValidText, OpenAiStreamHandler.ValidBlocks;
    hide LegalStream, DeltaText, ThinkingText, Pendings, EventsOf, FinalBlocks, StopReason, Strip, Join, Shown, Stream;
    StreamingText(handler);
    handler.Flush();
    ghost var blocks := handler.events;
    handler.GetFinalMessages();
    events := handler.events;
    assert events[..|events| - 3] == blocks;
  }

  /** The inner loop: hand the complete lines of the buffer to the handler. */
  method DrainLines(handler: OpenAiStreamHandler, text: string, ghost later: seq<string>) returns (buffer: string)
    requires handler.Streaming()
    modifies handler, handler.filter, handler.native
    ensures handler.Streaming()
    ensures buffer == TakeLines(text).rest
    ensures After(handler.reader.codec, handler.parse, StateOf(handler), later) ==
            After(handler.reader.codec, handler.parse, old(StateOf(handler)), TakeLines(text).lines + later)
  {
    hide OpenAiStreamHandler.Streaming, Step, DeltaOf, CallsAfter, TextAfter, Strip, TakeLines, After;
    buffer := text;
    while SseFraming.Break(buffer, 0).Some?
      invariant handler.Streaming()
      invariant TakeLines(buffer).rest == TakeLines(text).rest
      invariant After(handler.reader.codec, handler.parse, StateOf(handler), TakeLines(buffer).lines + later) ==
                After(handler.reader.codec, handler.parse, old(StateOf(handler)), TakeLines(text).lines + later)
      decreases |buffer|
    {
      TakeNext(buffer, later);
      var b := SseFraming.Break(buffer, 0).value;
      var line := Strip(buffer[..b]);
      buffer := buffer[b + 1..];
      if line == DONE_LINE { return; }
      ghost var before := StateOf(handler);
      handler.ProcessLine(line);
      StepIs(handler.reader.codec, handler.parse, before, line, StateOf(handler));
      AfterNext(handler.reader.codec, handler.parse, before, line, TakeLines(buffer).lines + later);
    }
    TakeNone(buffer, later);
  }

  lemma TakeNext(buffer: string, later: seq<string>)
    requires SseFraming.Break(buffer, 0).Some?
    ensures var b := SseFraming.Break(buffer, 0).value;
            var line := Strip(buffer[..b]);
            var rest := buffer[b + 1..];
            if line == DONE_LINE then TakeLines(buffer).rest == rest && TakeLines(buffer).lines + later == later
            else TakeLines(buffer).rest == TakeLines(rest).rest &&
                 TakeLines(buffer).lines + later == [line] + (TakeLines(rest).lines + later)
  {
    hide Strip;
  }

  lemma TakeNone(buffer: string, later: seq<string>)
    requires SseFraming.Break(buffer, 0).None?
    ensures TakeLines(buffer).rest == buffer && TakeLines(buffer).lines + later == later
  {
  }

  lemma AfterNext(codec: Codec, parse: string -> Option<Delta>, st: State, line: string, later: seq<string>)
    ensures After(codec, parse, st, [line] + later) == After(codec, parse, Step(codec, parse, st, line), later)
  {
    hide Step;
    assert ([line] + later)[1..] == later;
  }

  lemma StepIs(codec: Codec, parse: string -> Option<Delta>, before: State, line: string, after: State)
    requires match DeltaOf(parse, line)
             case None => after == before
             case Some(d) => after == State(CallsAfter(codec, before.calls, d), TextAfter(before.contents, d),
                                            ReasonedAfter(before.reasoned, before.contents, d))
    ensures Step(codec, parse, before, line) == after
  {
  }

  // The chunks do not matter, provided that the done marker is the last data line.

  function StripAll(lines: seq<string>): (r: seq<string>)
    ensures |r| == |lines|
  {
    seq(|lines|, k requires 0 <= k < |lines| => Strip(lines[k]))
  }

  predicate IsData(line: string) {
    "data: " <= line && line != DONE_LINE
  }

  /** The lines that can have an effect. */
  function Relevant(lines: seq<string>): seq<string> {
    if lines == [] then []
    else (if IsData(lines[0]) then [lines[0]] else []) + Relevant(lines[1..])
  }

  lemma RelevantNone()
    ensures Relevant([]) == []
  {
  }

  lemma RelevantFirst(line: string, later: seq<string>)
    ensures Relevant([line] + later) == if IsData(line) then [line] + Relevant(later) else Relevant(later)
  {
    hide IsData;
    assert ([line] + later)[1..] == later;
  }

  lemma DoneIsNoData()
    ensures !IsData(DONE_LINE)
  {
  }

  lemma RelevantNext(lines: seq<string>)
    requires lines != []
    ensures Relevant(lines) == (if IsData(lines[0]) then [lines[0]] else []) + Relevant(lines[1..])
  {
    hide IsData;
  }

  lemma {:induction false} RelevantConcat(a: seq<string>, b: seq<string>)
    ensures Relevant(a + b) == Relevant(a) + Relevant(b)
  {
    hide IsData;
    if a == [] {
      assert a + b == b;
    } else {
      hide Relevant;
      RelevantNext(a);
      RelevantNext(a + b);
      assert (a + b)[1..] == a[1..] + b;
      RelevantConcat(a[1..], b);
      ConcatAssociates(if IsData(a[0]) then [a[0]] else [], Relevant(a[1..]), Relevant(b));
    }
  }

  lemma {:induction false} IrrelevantAll(lines: seq<string>)
    ensures Relevant(lines) == [] <==> forall k :: 0 <= k < |lines| ==> !IsData(lines[k])
  {
    hide IsData;
    if lines != [] {
      IrrelevantAll(lines[1..]);
      assert forall k :: 1 <= k < |lines| ==> lines[k] == lines[1..][k - 1];
      assert forall k :: 0 <= k < |lines[1..]| ==> lines[1..][k] == lines[k + 1];
    }
  }

  /** No data line lies behind a done marker. */
  predicate DoneLast(lines: seq<string>) {
    forall i, j :: 0 <= i < j < |lines| && lines[i] == DONE_LINE ==> !IsData(lines[j])
  }

  /** The stripped complete lines of a text. */
  function AllLines(text: string): seq<string> {
    StripAll(SseFraming.Lines(text).lines)
  }

  lemma AllLinesFirst(text: string)
    requires SseFraming.Break(text, 0).Some?
    ensures var b := SseFraming.Break(text, 0).value;
            AllLines(text) == [Strip(text[..b])] + AllLines(text[b + 1..])
  {
    hide Strip;
  }

  /** What one chunk hands on is an initial part of the lines of the text; the rest of the buffer
      holds the others, without the done marker if one stopped the loop. */
  lemma {:induction false} TakeIs(buffer: string, ahead: string)
    ensures var all := AllLines(buffer + ahead);
            var c := TakeLines(buffer);
            var n := |c.lines|;
            && n <= |all| && c.lines == all[..n]
            && (if n < |all| && all[n] == DONE_LINE && AllLines(c.rest + ahead) == all[n + 1..]
                then true
                else AllLines(c.rest + ahead) == all[n..] && SseFraming.Break(c.rest, 0).None?)
    decreases |buffer|
  {
    hide Strip, AllLines;
    var b := SseFraming.Break(buffer, 0);
    if b.Some? {
      var line, rest := Strip(buffer[..b.value]), buffer[b.value + 1..];
      SseFraming.BreakConcat(buffer, ahead);
      AllLinesFirst(buffer + ahead);
      assert (buffer + ahead)[..b.value] == buffer[..b.value];
      assert (buffer + ahead)[b.value + 1..] == rest + ahead;
      if line != DONE_LINE {
        TakeIs(rest, ahead);
        TakesFirstLine(buffer);
        BehindFirst(line, AllLines(rest + ahead), TakeLines(rest).lines);
      }
    }
  }

  lemma TakesFirstLine(buffer: string)
    requires SseFraming.Break(buffer, 0).Some? && Strip(buffer[..SseFraming.Break(buffer, 0).value]) != DONE_LINE
    ensures var b := SseFraming.Break(buffer, 0).value;
            var later := TakeLines(buffer[b + 1..]);
            TakeLines(buffer) == SseFraming.Cut([Strip(buffer[..b])] + later.lines, later.rest)
  {
    hide Strip, SseFraming.Break;
  }

  /** What lies behind the lines `taken` in `later` lies behind them and the line in front of both, too. */
  lemma BehindFirst(line: string, later: seq<string>, taken: seq<string>)
    requires |taken| <= |later| && taken == later[..|taken|]
    ensures var all, n := [line] + later, |taken| + 1;
            && n <= |all| && [line] + taken == all[..n] && all[n..] == later[n - 1..]
            && (n < |all| ==> all[n] == later[n - 1] && all[n + 1..] == later[n..])
  {
  }

  lemma DoneLastTail(lines: seq<string>, k: nat)
    requires k <= |lines| && DoneLast(lines)
    ensures DoneLast(lines[k..])
  {
    hide IsData;
    forall i, j | 0 <= i < j < |lines[k..]| && lines[k..][i] == DONE_LINE
      ensures !IsData(lines[k..][j])
    {
      assert lines[k + i] == DONE_LINE && lines[k + j] == lines[k..][j];
    }
  }

  /** The lines of a text begin with the lines of its front. */
  lemma AllLinesFront(front: string, ahead: string)
    ensures AllLines(front) <= AllLines(front + ahead)
  {
    hide Strip;
    SseFraming.LinesConcat(front, ahead);
  }

  lemma IrrelevantFront(a: seq<string>, b: seq<string>)
    requires a <= b && forall k :: 0 <= k < |b| ==> !IsData(b[k])
    ensures Relevant(a) == []
  {
    hide IsData;
    IrrelevantAll(a);
  }

  lemma {:induction false} PassedRelevant(buffer: string, chunks: seq<string>)
    requires Relevant(AllLines(buffer)) == []
    requires DoneLast(AllLines(buffer + Join(chunks)))
    ensures Relevant(Passed(buffer, chunks)) == Relevant(AllLines(buffer + Join(chunks)))
    decreases |chunks|
  {
    hide AllLines, TakeLines, Relevant, DoneLast, IsData;
    if chunks == [] {
      assert buffer + "" == buffer;
      assert Relevant([]) == [] by { RelevantNone(); }
    } else {
      var ahead := Join(chunks[1..]);
      assert buffer + Join(chunks) == (buffer + chunks[0]) + ahead;
      var all := AllLines((buffer + chunks[0]) + ahead);
      var c := TakeLines(buffer + chunks[0]);
      var n := |c.lines|;
      TakeIs(buffer + chunks[0], ahead);
      var m := if AllLines(c.rest + ahead) == all[n..] && SseFraming.Break(c.rest, 0).None? then n else n + 1;
      DoneLastTail(all, m);
      AllLinesFront(c.rest, ahead);
      RestIrrelevant(all, n, m, c.rest, ahead);
      PassedRelevant(c.rest, chunks[1..]);
      RelevantConcat(all[..n], Passed(c.rest, chunks[1..]));
      RelevantSplit(all, n, m);
    }
  }

  lemma RestIrrelevant(all: seq<string>, n: nat, m: nat, rest: string, ahead: string)
    requires n <= m <= |all| && DoneLast(all)
    requires m == n ==> SseFraming.Break(rest, 0).None?
    requires n < m ==> m == n + 1 && all[n] == DONE_LINE && AllLines(rest) <= all[m..]
    ensures Relevant(AllLines(rest)) == []
  {
    hide IsData;
    if n < m {
      hide AllLines;
      forall k | 0 <= k < |all[m..]|
        ensures !IsData(all[m..][k])
      {
        assert all[m..][k] == all[m + k];
      }
      IrrelevantFront(AllLines(rest), all[m..]);
    }
  }

  lemma RelevantSplit(all: seq<string>, n: nat, m: nat)
    requires n <= m <= |all| && m <= n + 1 && (n < m ==> all[n] == DONE_LINE)
    ensures Relevant(all) == Relevant(all[..n]) + Relevant(all[m..])
  {
    hide Relevant, IsData;
    assert all == all[..n] + all[n..];
    RelevantConcat(all[..n], all[n..]);
    if n < m {
      assert all[n..] == [all[n]] + all[m..];
      RelevantFirst(all[n], all[m..]);
      DoneIsNoData();
    }
  }

  /** Every way of cutting a response passes the same effective lines, namely all of them. */
  ghost predicate ChunkProof(text: string) {
    forall chunks :: Join(chunks) == text ==> Relevant(Passed("", chunks)) == Relevant(AllLines(text))
  }

  /** A response may be cut anywhere exactly when no data line lies behind a done marker. */
  lemma ChunksIrrelevant(text: string)
    ensures ChunkProof(text) <==> DoneLast(AllLines(text))
  {
    hide AllLines, TakeLines, Relevant, Passed, DoneLast, IsData;
    if DoneLast(AllLines(text)) {
      forall chunks | Join(chunks) == text
        ensures Relevant(Passed("", chunks)) == Relevant(AllLines(text))
      {
        assert "" + Join(chunks) == text;
        NoLines();
        PassedRelevant("", chunks);
      }
      assert ChunkProof(text);
    }
    if ChunkProof(text) {
      JoinOne(text);
      WholeAtOnce(text);
    }
  }

  lemma NoLines()
    ensures Relevant(AllLines("")) == []
  {
  }

  /** A response that arrives in one chunk loses what lies behind its first done marker. */
  lemma WholeAtOnce(text: string)
    requires Relevant(Passed("", [text])) == Relevant(AllLines(text))
    ensures DoneLast(AllLines(text))
  {
    hide AllLines, TakeLines, Relevant, IsData;
    var all := AllLines(text);
    assert text + "" == text && "" + text == text;
    TakeIs(text, "");
    var c := TakeLines(text);
    var n := |c.lines|;
    assert [text][1..] == [];
    assert c.lines + [] == c.lines;
    assert Passed("", [text]) == c.lines;
    assert all == all[..n] + all[n..];
    RelevantConcat(all[..n], all[n..]);
    assert Relevant(all[n..]) == [];
    IrrelevantAll(all[n..]);
    TakenNotDone(text);
    assert forall k :: 0 <= k < n ==> all[k] == c.lines[k];
    forall i, j | 0 <= i < j < |all| && all[i] == DONE_LINE
      ensures !IsData(all[j])
    {
      assert n <= i;
      assert all[j] == all[n..][j - n];
    }
  }

  lemma {:induction false} TakenNotDone(buffer: string)
    ensures forall k :: 0 <= k < |TakeLines(buffer).lines| ==> TakeLines(buffer).lines[k] != DONE_LINE
    decreases |buffer|
  {
    hide Strip;
    var b := SseFraming.Break(buffer, 0);
    if b.Some? {
      TakenNotDone(buffer[b.value + 1..]);
    }
  }

  /** Only effective lines change the handler. */
  lemma {:induction false} AfterRelevant(codec: Codec, parse: string -> Option<Delta>, st: State, lines: seq<string>)
    ensures After(codec, parse, st, lines) == After(codec, parse, st, Relevant(lines))
    decreases |lines|
  {
    hide CallsAfter, TextAfter;
    if lines != [] {
      AfterRelevant(codec, parse, Step(codec, parse, st, lines[0]), lines[1..]);
      assert lines == [lines[0]] + lines[1..];
      RelevantFirst(lines[0], lines[1..]);
      if IsData(lines[0]) {
        AfterNext(codec, parse, st, lines[0], Relevant(lines[1..]));
      } else {
        assert DONE_LINE[6..] == "[DONE]";
      }
    }
  }

  /** When the done marker is the last data line, what the handler holds at the end does not depend on how
      the response was cut. */
  lemma FinalStateIgnoresChunks(codec: Codec, parse: string -> Option<Delta>, chunks: seq<string>, other: seq<string>)
    requires Join(chunks) == Join(other) && DoneLast(AllLines(Join(chunks)))
    ensures After(codec, parse, START, Passed("", chunks)) == After(codec, parse, START, Passed("", other))
  {
    hide After, Passed, AllLines, DoneLast, Join, Relevant;
    ChunksIrrelevant(Join(chunks));
    assert Relevant(Passed("", chunks)) == Relevant(Passed("", other));
    AfterRelevant(codec, parse, START, Passed("", chunks));
    AfterRelevant(codec, parse, START, Passed("", other));
  }
}

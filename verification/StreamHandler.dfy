/** `_OpenAIStreamHandler` (koraku/llm/providers/openai_compat_backend.py): turns the lines of a
    chat-completion stream into normalized events.

    The generators of the source are methods that append to `events`; a `yield` is an append. */
module StreamHandler {
  import opened Wrappers
  import opened Text
  import opened Json
  import opened IntSets
  import opened Messages
  import opened OpenAiDelta
  import A = Announcements
  import opened VisibleFilter
  import opened ToolCallParse

  datatype Kind = ThinkingKind | TextKind

  datatype Event =
    | BlockStart(index: nat, kind: Kind)
    | BlockDelta(index: nat, kind: Kind, text: string)
    | BlockStop(index: nat)
    | ToolUsePending(id: string, name: string, input: Json)
    | MessageDelta(stopReason: string)
    | MessageStop
    | AssistantMessage(id: string, content: seq<Block>, stopReason: string)

  /** One decoded `data:` payload with a non-empty `choices` list. Empty text and empty lists stand
      for fields that are absent or of another type. */
  datatype Delta = Delta(
    id: string,
    messageCalls: seq<Fragment>,
    calls: seq<Fragment>,
    reasoningContent: string,
    reasoning: string,
    content: string,
    text: string)

  // Legal block streams.

  /** Which indexes were started, and the block that is open. */
  datatype Progress = Progress(used: set<nat>, open: Option<(nat, Kind)>)

  /** One event of a legal stream: a block starts under a fresh index while none is open, its deltas
      have its index and kind, and its stop closes it; closing messages have no place in it. */
  function Advance(b: Progress, e: Event): Option<Progress> {
    match e
    case BlockStart(i, k) =>
      if b.open.None? && i !in b.used then Some(Progress(b.used + {i}, Some((i, k)))) else None
    case BlockDelta(i, k, _) => if b.open == Some((i, k)) then Some(b) else None
    case BlockStop(i) => if b.open.Some? && b.open.value.0 == i then Some(b.(open := None)) else None
    case ToolUsePending(_, _, _) => Some(b)
    case _ => None
  }

  const NO_BLOCKS := Progress({}, None)

  function Replay(events: seq<Event>): Option<Progress> {
    if events == [] then Some(NO_BLOCKS) else
    var b :- Replay(events[..|events| - 1]);
    Advance(b, events[|events| - 1])
  }

  /** Every prefix is a legal beginning, and at the end everything started is stopped. */
  predicate LegalStream(events: seq<Event>) {
    Replay(events).Some? && Replay(events).value.open.None?
  }

  lemma ReplaySnoc(events: seq<Event>, e: Event)
    ensures Replay(events + [e]) == if Replay(events).Some? then Advance(Replay(events).value, e) else None
  {
    assert (events + [e])[..|events|] == events;
  }

  /** The `tool_use_pending` events, in order. */
  function Pendings(events: seq<Event>): seq<Event> {
    if events == [] then [] else
    var e := events[|events| - 1];
    Pendings(events[..|events| - 1]) + if e.ToolUsePending? then [e] else []
  }

  lemma PendingsSnoc(events: seq<Event>, e: Event)
    ensures Pendings(events + [e]) == Pendings(events) + if e.ToolUsePending? then [e] else []
  {
    assert (events + [e])[..|events|] == events;
  }

  /** The event of an announcement. */
  function EventOf(a: A.Announcement): Event {
    ToolUsePending(a.id, a.name, a.input)
  }

  function EventsOf(announced: seq<A.Announcement>): seq<Event> {
    seq(|announced|, k requires 0 <= k < |announced| => EventOf(announced[k]))
  }

  /** The text of the text deltas. */
  function DeltaText(events: seq<Event>): string {
    if events == [] then "" else
    var e := events[|events| - 1];
    DeltaText(events[..|events| - 1]) + if e.BlockDelta? && e.kind.TextKind? then e.text else ""
  }

  lemma DeltaTextSnoc(events: seq<Event>, e: Event)
    ensures DeltaText(events + [e]) ==
            DeltaText(events) + if e.BlockDelta? && e.kind.TextKind? then e.text else ""
  {
    assert (events + [e])[..|events|] == events;
  }

  /** The text of the thinking deltas. */
  function ThinkingText(events: seq<Event>): string {
    if events == [] then "" else
    var e := events[|events| - 1];
    ThinkingText(events[..|events| - 1]) + if e.BlockDelta? && e.kind.ThinkingKind? then e.text else ""
  }

  lemma ThinkingTextSnoc(events: seq<Event>, e: Event)
    ensures ThinkingText(events + [e]) ==
            ThinkingText(events) + if e.BlockDelta? && e.kind.ThinkingKind? then e.text else ""
  {
    assert (events + [e])[..|events|] == events;
  }

  /** The filter fed all of `chunks` from the start: what it has shown, and what it holds. */
  function Fed(decode: Decoder, chunks: seq<string>): Run {
    if chunks == [] then Run([], "") else
    var before := Fed(decode, chunks[..|chunks| - 1]);
    var r := Feed(decode, before.rest, chunks[|chunks| - 1]);
    Run(before.segs + r.segs, r.rest)
  }

  lemma FedSnoc(decode: Decoder, chunks: seq<string>, c: string)
    ensures var before := Fed(decode, chunks);
            var r := Feed(decode, before.rest, c);
            Fed(decode, chunks + [c]) == Run(before.segs + r.segs, r.rest)
  {
    hide Feed;
    assert (chunks + [c])[..|chunks|] == chunks;
  }

  /** Feeding all chunks and then flushing is the run `Stream` of the filter. */
  lemma {:induction false} FedStream(decode: Decoder, chunks: seq<string>, later: seq<string>)
    ensures Stream(decode, "", chunks + later) ==
            Fed(decode, chunks).segs + Stream(decode, Fed(decode, chunks).rest, later)
  {
    hide Feed, Flush;
    if chunks == [] {
      assert chunks + later == later;
    } else {
      var front, c := chunks[..|chunks| - 1], chunks[|chunks| - 1];
      assert chunks + later == front + ([c] + later);
      FedStream(decode, front, [c] + later);
      assert ([c] + later)[1..] == later;
      var before := Fed(decode, front);
      var r := Feed(decode, before.rest, c);
      assert Stream(decode, before.rest, [c] + later) == r.segs + Stream(decode, r.rest, later);
    }
  }

  /** Python's slice test `line.startswith("data: ")` with `line[6:]`. */
  function DataOf(line: string): Option<string> {
    if "data: " <= line then Some(line[6..]) else None
  }

  /** The decoded payload that `process_line` acts on, if it acts at all. */
  function DeltaOf(parse: string -> Option<Delta>, line: string): Option<Delta> {
    var data :- DataOf(line);
    if data == "[DONE]" then None else parse(data)
  }

  function ReasoningOf(d: Delta): string {
    if d.reasoningContent != "" then d.reasoningContent else d.reasoning
  }

  function ContentOf(d: Delta): string {
    if Blank(d.content) && !Blank(d.text) then d.text else d.content
  }

  /** What a payload does to the native tool calls: the message's fragments are a batch, then the delta's. */
  function CallsAfter(codec: Codec, calls: A.Calls, d: Delta): A.Calls {
    A.Batch(codec, A.Batch(codec, calls, d.messageCalls), d.calls)
  }

  /** What it adds to the visible text: its reasoning too, once there is visible text. */
  function TextAfter(contents: seq<string>, d: Delta): seq<string> {
    var r := contents + if ReasoningOf(d) != "" && contents != [] then [ReasoningOf(d)] else [];
    r + if ContentOf(d) != "" then [ContentOf(d)] else []
  }

  /** Reasoning counts as such only until the first content; then it is shown as text. */
  function ReasonedAfter(reasoned: seq<string>, contents: seq<string>, d: Delta): seq<string> {
    reasoned + if ReasoningOf(d) != "" && contents == [] then [ReasoningOf(d)] else []
  }

  /** What a payload adds, said on its fields: reasoning from the first of two fields that is not empty, content
      from the first of two that is not blank, and nothing for an empty piece. */
  lemma DeltaAdds(contents: seq<string>, reasoned: seq<string>, d: Delta)
    ensures var thought := if d.reasoningContent != "" then d.reasoningContent else d.reasoning;
            var said := if Blank(d.content) && !Blank(d.text) then d.text else d.content;
            && TextAfter(contents, d) == contents + (if thought != "" && contents != [] then [thought] else [])
                                           + (if said != "" then [said] else [])
            && ReasonedAfter(reasoned, contents, d) == reasoned + if thought != "" && contents == [] then [thought] else []
  {
    hide Blank;
  }

  /** The facts about one more event that the invariants are stated with. */
  lemma Appended(events: seq<Event>, e: Event)
    ensures Replay(events + [e]) == if Replay(events).Some? then Advance(Replay(events).value, e) else None
    ensures Pendings(events + [e]) == Pendings(events) + if e.ToolUsePending? then [e] else []
    ensures DeltaText(events + [e]) ==
            DeltaText(events) + if e.BlockDelta? && e.kind.TextKind? then e.text else ""
    ensures ThinkingText(events + [e]) ==
            ThinkingText(events) + if e.BlockDelta? && e.kind.ThinkingKind? then e.text else ""
  {
    ReplaySnoc(events, e);
    PendingsSnoc(events, e);
    DeltaTextSnoc(events, e);
    ThinkingTextSnoc(events, e);
  }

  lemma EventsOfSnoc(announced: seq<A.Announcement>, a: A.Announcement)
    ensures EventsOf(announced + [a]) == EventsOf(announced) + [EventOf(a)]
  {
  }

  lemma JoinOne(s: string)
    ensures Join([s]) == s
  {
    assert [s][1..] == [];
  }

  lemma JoinNothing()
    ensures Join([]) == ""
  {
  }

  lemma JoinSnoc(pieces: seq<string>, k: nat)
    requires k < |pieces|
    ensures Join(pieces[..k + 1]) == Join(pieces[..k]) + pieces[k]
  {
    assert pieces[..k + 1] == pieces[..k] + [pieces[k]];
    JoinConcat(pieces[..k], [pieces[k]]);
    JoinOne(pieces[k]);
  }

  lemma FlushedStream(decode: Decoder, chunks: seq<string>)
    ensures var fed := Fed(decode, chunks);
            Join(Shown(Stream(decode, "", chunks))) ==
            Join(Shown(fed.segs)) + Join(Shown(VisibleFilter.Flush(decode, fed.rest)))
  {
    hide Fed, VisibleFilter.Flush, Shown, Join;
    var fed := Fed(decode, chunks);
    assert chunks + [] == chunks;
    FedStream(decode, chunks, []);
    ShownConcat(fed.segs, VisibleFilter.Flush(decode, fed.rest));
    JoinConcat(Shown(fed.segs), Shown(VisibleFilter.Flush(decode, fed.rest)));
  }

  /** The notice that stands in for an empty completion. */
  function EmptyCompletion(): string {
    "The model returned an empty completion (no text and no parsed tool calls). "
    + "If you were expecting tools, the upstream stream may use a format this client "
    + "does not yet map \U{2014} try again or switch model/provider."
  }

  function ToolBlocks(uses: seq<ToolUse>): seq<Block> {
    seq(|uses|, k requires 0 <= k < |uses| => ToolBlock(uses[k]))
  }

  function TextParts(blocks: seq<Block>): seq<Block> {
    if blocks == [] then []
    else (if blocks[0].TextBlock? then [blocks[0]] else []) + TextParts(blocks[1..])
  }

  /** The content of the final message: native calls with the whole streamed text, or else what the
      text itself parses to. */
  function FinalBlocks(reader: Reader, slots: map<int, Slot>, text: string): seq<Block> {
    var native := ToolBlocks(OpenAiDelta.Blocks(reader.codec, slots));
    var compact := Parse(reader, text);
    var content :=
      if native == [] then compact
      else (if Strip(text) != "" then [TextBlock(Strip(text))] else TextParts(compact)) + native;
    if content == [] then [TextBlock(EmptyCompletion())] else content
  }

  function StopReason(content: seq<Block>): string {
    if exists k :: 0 <= k < |content| && content[k].ToolBlock? then "tool_use" else "end_turn"
  }

  /** The closing content, case by case: native calls stand behind the whole text that was streamed, and only without
      any is the text itself read for calls; a message is never empty. */
  lemma FinalContentIs(reader: Reader, slots: map<int, Slot>, text: string, uses: seq<ToolUse>, compact: seq<Block>)
    requires uses == OpenAiDelta.Blocks(reader.codec, slots) && compact == Parse(reader, text)
    ensures FinalBlocks(reader, slots, text) ==
            if uses != [] && Strip(text) != "" then [TextBlock(Strip(text))] + ToolBlocks(uses)
            else if uses != [] then TextParts(compact) + ToolBlocks(uses)
            else if compact != [] then compact
            else [TextBlock(EmptyCompletion())]
  {
    hide Parse, OpenAiDelta.Blocks, EmptyCompletion, Strip, TextParts;
  }

  /** A message stops for its calls if it has some. */
  lemma StopReasonIs(content: seq<Block>)
    ensures StopReason(content) == "tool_use" <==> exists k :: 0 <= k < |content| && content[k].ToolBlock?
    ensures StopReason(content) == "end_turn" <==> forall k :: 0 <= k < |content| ==> !content[k].ToolBlock?
  {
    assert "tool_use"[0] != "end_turn"[0];
  }

  const THINKING_IDX: nat := 0

  class OpenAiStreamHandler {
    const reader: Reader
    const parse: string -> Option<Delta>
    const filter: VisibleToolJsonFilter
    const native: ToolCallSlots
    var events: seq<Event>
    var accumulatedText: string
    var messageId: string
    var emittedPending: set<int>
    var textBlockStarted: bool
    var thinkingStarted: bool
    var thinkingStopped: bool
    var textStreamIndex: Option<nat>
    /** The pieces of content given to `iter_text_stream` so far. */
    ghost var contents: seq<string>
    /** The pieces of reasoning that came before any content. */
    ghost var reasoned: seq<string>
    /** The announcements so far. */
    ghost var announced: seq<A.Announcement>

    /** The text streamed so far is what the filter shows of the contents so far. */
    ghost predicate ValidText()
      reads this`events, this`contents, this`accumulatedText, filter
    {
      && filter.decode == reader.decode
      && filter.buf == Fed(reader.decode, contents).rest
      && accumulatedText == Join(contents)
      && DeltaText(events) == Join(Shown(Fed(reader.decode, contents).segs))
    }

    /** The thinking streamed so far is the reasoning so far. */
    ghost predicate ValidThinking()
      reads this`events, this`reasoned
    {
      ThinkingText(events) == Join(reasoned)
    }

    function TextIndex(): nat
      reads this`thinkingStarted
    {
      if thinkingStarted then 1 else 0
    }

    /** The blocks that the flags say are started and open. */
    function BlocksNow(): Progress
      reads this`thinkingStarted, this`thinkingStopped, this`textBlockStarted
    {
      Progress(
        if thinkingStarted && textBlockStarted then {THINKING_IDX, TextIndex()}
        else if thinkingStarted then {THINKING_IDX}
        else if textBlockStarted then {TextIndex()}
        else {},
        if thinkingStarted && !thinkingStopped then Some((THINKING_IDX, ThinkingKind))
        else if textBlockStarted then Some((TextIndex(), TextKind))
        else None)
    }

    ghost predicate ValidBlocks()
      reads this`thinkingStarted, this`thinkingStopped, this`textBlockStarted, this`textStreamIndex, this`events
    {
      && (thinkingStopped ==> thinkingStarted)
      && (textBlockStarted && thinkingStarted ==> thinkingStopped)
      && (textStreamIndex.Some? <==> textBlockStarted)
      && (textBlockStarted ==> textStreamIndex.value == TextIndex())
      && Replay(events) == Some(BlocksNow())
    }

    /** The announcing events are those of `announced`, whose indexes are in `emittedPending`. */
    ghost predicate ValidAnnounced()
      reads this`events, this`emittedPending, this`announced
    {
      Pendings(events) == EventsOf(announced) && forall i :: i in emittedPending <==> A.IsAnnounced(announced, i)
    }

    /** The native calls so far. */
    ghost function CallsNow(): A.Calls
      reads this`announced, native
    {
      A.Calls(native.slots, announced)
    }

    ghost predicate Valid()
      reads this`events, this`contents, this`accumulatedText, this`reasoned, this`announced, this`emittedPending
      reads this`thinkingStarted, this`thinkingStopped, this`textBlockStarted, this`textStreamIndex, filter
    {
      ValidText() && ValidThinking() && ValidBlocks() && ValidAnnounced()
    }

    /** Between lines, thinking is stopped only once text has begun, which content makes it do. */
    ghost predicate Streaming()
      reads this`events, this`contents, this`accumulatedText, this`reasoned, this`announced, this`emittedPending
      reads this`thinkingStarted, this`thinkingStopped, this`textBlockStarted, this`textStreamIndex, filter
    {
      Valid() && (thinkingStopped ==> textBlockStarted) && (textBlockStarted <==> contents != [])
    }

    constructor (reader: Reader, parse: string -> Option<Delta>)
      ensures Streaming() && events == [] && contents == [] && reasoned == [] && CallsNow() == A.NO_CALLS
      ensures this.reader == reader && this.parse == parse
      ensures fresh(filter) && fresh(native)
    {
      this.reader := reader;
      this.parse := parse;
      filter := new VisibleToolJsonFilter(reader.decode);
      native := new ToolCallSlots();
      events := [];
      accumulatedText := "";
      messageId := "";
      emittedPending := {};
      textBlockStarted := false;
      thinkingStarted := false;
      thinkingStopped := false;
      textStreamIndex := None;
      contents := [];
      reasoned := [];
      announced := [];
    }

    method Yield(e: Event)
      modifies this`events
      ensures events == old(events) + [e]
      ensures Replay(old(events)).Some? ==> Replay(events) == Advance(Replay(old(events)).value, e)
      ensures Pendings(events) == if e.ToolUsePending? then Pendings(old(events)) + [e] else Pendings(old(events))
      ensures DeltaText(events) ==
              if e.BlockDelta? && e.kind.TextKind? then DeltaText(old(events)) + e.text else DeltaText(old(events))
      ensures ThinkingText(events) ==
              if e.BlockDelta? && e.kind.ThinkingKind? then ThinkingText(old(events)) + e.text else ThinkingText(old(events))
    {
      Appended(events, e);
      events := events + [e];
    }

    method CloseThinkingIfNeeded()
      requires ValidBlocks() && ValidAnnounced()
      modifies this`events, this`thinkingStopped
      ensures ValidBlocks() && ValidAnnounced()
      ensures thinkingStarted ==> thinkingStopped
      ensures old(events) <= events && DeltaText(events) == DeltaText(old(events))
      ensures ThinkingText(events) == ThinkingText(old(events))
    {
      hide Replay, Pendings, EventsOf, DeltaText, ThinkingText;
      if thinkingStarted && !thinkingStopped {
        Yield(BlockStop(THINKING_IDX));
        thinkingStopped := true;
      }
    }

    method EnsureTextStreamIndex() returns (idx: nat)
      modifies this`textStreamIndex
      ensures textStreamIndex == Some(idx)
      ensures idx == if old(textStreamIndex).Some? then old(textStreamIndex).value else TextIndex()
    {
      if textStreamIndex.None? {
        textStreamIndex := Some(if thinkingStarted then 1 else 0);
      }
      return textStreamIndex.value;
    }

    /** The opening of the text block, shared by `iter_text_stream` and `flush`. */
    method OpenTextBlock() returns (idx: nat)
      requires ValidBlocks() && ValidAnnounced()
      modifies this`events, this`thinkingStopped, this`textStreamIndex, this`textBlockStarted
      ensures ValidBlocks() && ValidAnnounced()
      ensures textBlockStarted && idx == TextIndex()
      ensures old(events) <= events && DeltaText(events) == DeltaText(old(events))
      ensures ThinkingText(events) == ThinkingText(old(events))
    {
      hide Replay, Pendings, EventsOf, DeltaText, ThinkingText;
      CloseThinkingIfNeeded();
      idx := EnsureTextStreamIndex();
      if !textBlockStarted {
        ghost var used := BlocksNow().used;
        textBlockStarted := true;
        Yield(BlockStart(idx, TextKind));
        assert BlocksNow().used == used + {idx};
      }
    }

    method EmitReasoningDelta(chunk: string)
      requires Streaming()
      modifies this, filter
      ensures Streaming()
      ensures contents == old(contents) + if chunk != "" && old(contents) != [] then [chunk] else []
      ensures reasoned == old(reasoned) + if chunk != "" && old(contents) == [] then [chunk] else []
      ensures old(events) <= events && announced == old(announced) && messageId == old(messageId)
    {
      hide Replay, Pendings, EventsOf, DeltaText, ThinkingText, Fed, Join, Shown, Strip;
      if chunk == "" { return; }
      if textBlockStarted {
        IterTextStream(chunk);
        return;
      }
      Think(chunk);
    }

    method OpenThinkingBlock()
      requires ValidBlocks() && ValidAnnounced() && !textBlockStarted && !thinkingStopped
      modifies this`events, this`thinkingStarted
      ensures ValidBlocks() && ValidAnnounced() && thinkingStarted
      ensures old(events) <= events && DeltaText(events) == DeltaText(old(events))
      ensures ThinkingText(events) == ThinkingText(old(events))
    {
      hide Replay, Pendings, EventsOf, DeltaText, ThinkingText;
      if !thinkingStarted {
        ghost var used := BlocksNow().used;
        thinkingStarted := true;
        Yield(BlockStart(THINKING_IDX, ThinkingKind));
        assert BlocksNow().used == used + {THINKING_IDX};
      }
    }

    /** A thinking delta, in a thinking block that is opened if need be. */
    method Think(chunk: string)
      requires Streaming() && !textBlockStarted && chunk != ""
      modifies this`events, this`thinkingStarted, this`reasoned
      ensures Streaming() && old(events) <= events && reasoned == old(reasoned) + [chunk]
    {
      hide Replay, Pendings, EventsOf, DeltaText, ThinkingText, Fed, Join, Shown, Strip;
      OpenThinkingBlock();
      Yield(BlockDelta(THINKING_IDX, ThinkingKind, chunk));
      JoinConcat(reasoned, [chunk]);
      JoinOne(chunk);
      reasoned := reasoned + [chunk];
    }

    /** Show the pieces that the filter lets through as text deltas. */
    method YieldTexts(idx: nat, pieces: seq<string>)
      requires textBlockStarted && ValidBlocks() && ValidAnnounced() && idx == TextIndex()
      modifies this`events
      ensures ValidBlocks() && ValidAnnounced() && old(events) <= events
      ensures DeltaText(events) == DeltaText(old(events)) + Join(pieces)
      ensures ThinkingText(events) == ThinkingText(old(events))
    {
      hide Replay, Pendings, EventsOf, DeltaText, ThinkingText;
      var k := 0;
      assert Join(pieces[..0]) == "";
      while k < |pieces|
        invariant k <= |pieces|
        invariant ValidBlocks() && ValidAnnounced() && old(events) <= events
        invariant DeltaText(events) == DeltaText(old(events)) + Join(pieces[..k])
        invariant ThinkingText(events) == ThinkingText(old(events))
      {
        var safe := pieces[k];
        JoinSnoc(pieces, k);
        if safe != "" {
          Yield(BlockDelta(idx, TextKind, safe));
        }
        k := k + 1;
      }
      assert pieces[..k] == pieces;
    }

    /** Put `chunk` through the filter; `pieces` are what remains to be shown. */
    method FilterChunk(chunk: string) returns (pieces: seq<string>)
      requires ValidText()
      modifies this`accumulatedText, this`contents, filter
      ensures contents == old(contents) + [chunk]
      ensures filter.buf == Fed(reader.decode, contents).rest
      ensures accumulatedText == Join(contents)
      ensures DeltaText(events) + Join(pieces) == Join(Shown(Fed(reader.decode, contents).segs))
    {
      hide Replay, DeltaText, Fed, Feed, Join, Shown;
      ghost var fed := Fed(reader.decode, contents);
      ghost var r := Feed(reader.decode, fed.rest, chunk);
      FedSnoc(reader.decode, contents, chunk);
      JoinConcat(contents, [chunk]);
      JoinOne(chunk);
      ShownConcat(fed.segs, r.segs);
      JoinConcat(Shown(fed.segs), Shown(r.segs));
      accumulatedText := accumulatedText + chunk;
      contents := contents + [chunk];
      pieces := filter.FeedChunk(chunk);
    }

    method IterTextStream(chunk: string)
      requires Streaming()
      modifies this, filter
      ensures Streaming()
      ensures contents == old(contents) + if chunk != "" then [chunk] else []
      ensures reasoned == old(reasoned)
      ensures old(events) <= events && announced == old(announced) && messageId == old(messageId)
    {
      hide Replay, Pendings, EventsOf, DeltaText, ThinkingText, Fed, Join, Shown, Strip;
      if chunk == "" { return; }
      var tidx := OpenTextBlock();
      var pieces := FilterChunk(chunk);
      YieldTexts(tidx, pieces);
    }

    /** The announcement of one slot. */
    method AnnounceSlot(idx: int)
      requires idx in native.slots && idx !in emittedPending && ValidBlocks() && ValidAnnounced()
      modifies this`events, this`emittedPending, this`announced
      ensures ValidBlocks() && ValidAnnounced() && old(events) <= events
      ensures announced == old(announced) + [A.AnnouncementOf(reader.codec, idx, native.slots[idx])]
      ensures DeltaText(events) == DeltaText(old(events)) && ThinkingText(events) == ThinkingText(old(events))
      ensures var slot := native.slots[idx];
              var parsed := if Blank(slot.arguments) then None else reader.codec.loads(slot.arguments);
              events == old(events)
                        + [ToolUsePending(if Strip(slot.id) != "" then Strip(slot.id) else DefaultId(idx), Strip(slot.name),
                                          if parsed.Some? && parsed.value.Obj? then parsed.value else Obj(map[]))]
    {
      hide Replay, Pendings, DeltaText, ThinkingText, Strip, Blank, DefaultId, EventsOf, A.IsAnnounced;
      var slot := native.slots[idx];
      var id := Strip(slot.id);
      var parsed := if Blank(slot.arguments) then None else reader.codec.loads(slot.arguments);
      var input := if parsed.Some? && parsed.value.Obj? then parsed.value else Obj(map[]);
      Yield(ToolUsePending(if id != "" then id else DefaultId(idx), Strip(slot.name), input));
      emittedPending := emittedPending + {idx};
      ghost var a := A.AnnouncementOf(reader.codec, idx, slot);
      EventsOfSnoc(announced, a);
      A.AnnouncedSnoc(announced, a);
      announced := announced + [a];
    }

    method EmitPendingNativeToolEvents()
      requires ValidBlocks() && ValidAnnounced()
      modifies this`events, this`emittedPending, this`announced
      ensures ValidBlocks() && ValidAnnounced()
      ensures announced == A.Announce(reader.codec, old(announced), native.slots, Sorted(native.slots.Keys))
      ensures old(events) <= events && DeltaText(events) == DeltaText(old(events))
      ensures ThinkingText(events) == ThinkingText(old(events))
    {
      hide Replay, Pendings, DeltaText, ThinkingText, Sorted, ValidBlocks, EventsOf, A.Announce, A.AnnouncementOf;
      var keys := Sorted(native.slots.Keys);
      var k := 0;
      assert keys[0..] == keys;
      while k < |keys|
        invariant k <= |keys| && ValidBlocks() && ValidAnnounced()
        invariant A.Announce(reader.codec, announced, native.slots, keys[k..]) ==
                  A.Announce(reader.codec, old(announced), native.slots, keys)
        invariant old(events) <= events && DeltaText(events) == DeltaText(old(events))
        invariant ThinkingText(events) == ThinkingText(old(events))
      {
        var idx := keys[k];
        A.AnnounceNext(reader.codec, announced, native.slots, keys[k..]);
        assert keys[k..][1..] == keys[k + 1..] && SlotAt(native.slots, idx) == native.slots[idx];
        if idx !in emittedPending && Strip(native.slots[idx].name) != "" {
          AnnounceSlot(idx);
        }
        k := k + 1;
      }
      A.AnnounceEnd(reader.codec, announced, native.slots);
      assert keys[k..] == [];
    }

    /** Merge fragments and announce what got its name. */
    method AcceptCalls(frags: seq<Fragment>)
      requires Streaming()
      modifies this`events, this`emittedPending, this`announced, native
      ensures Streaming() && old(events) <= events
      ensures CallsNow() == A.Batch(reader.codec, old(CallsNow()), frags)
    {
      hide Replay, Pendings, EventsOf, DeltaText, ThinkingText, Fed, Join, Shown, Accumulate, A.Announce, Sorted;
      if frags != [] {
        native.AccumulateDeltas(frags);
        EmitPendingNativeToolEvents();
      }
    }

    /** What `process_line` does with a decoded payload. */
    method TakePayload(d: Delta)
      requires Streaming()
      modifies this, filter, native
      ensures Streaming() && old(events) <= events
      ensures CallsNow() == CallsAfter(reader.codec, old(CallsNow()), d)
      ensures contents == TextAfter(old(contents), d) && reasoned == ReasonedAfter(old(reasoned), old(contents), d)
      ensures messageId == if old(messageId) != "" then old(messageId) else d.id
    {
      hide Streaming, A.Batch, ReasoningOf, ContentOf;
      AcceptCalls(d.messageCalls);
      AcceptCalls(d.calls);
      EmitReasoningDelta(ReasoningOf(d));
      if messageId == "" && d.id != "" {
        messageId := d.id;
      }
      IterTextStream(ContentOf(d));
    }

    /** One line of the response. */
    method ProcessLine(line: string)
      requires Streaming()
      modifies this, filter, native
      ensures Streaming() && old(events) <= events
      ensures match DeltaOf(parse, line)
              case None =>
                && contents == old(contents) && reasoned == old(reasoned) && CallsNow() == old(CallsNow())
                && events == old(events) && messageId == old(messageId)
              case Some(d) =>
                && CallsNow() == CallsAfter(reader.codec, old(CallsNow()), d) && contents == TextAfter(old(contents), d)
                && reasoned == ReasonedAfter(old(reasoned), old(contents), d)
                && messageId == if old(messageId) != "" then old(messageId) else d.id
      ensures DeltaOf(parse, line).Some? ==>
                var d := DeltaOf(parse, line).value;
                var thought := if d.reasoningContent != "" then d.reasoningContent else d.reasoning;
                var said := if Blank(d.content) && !Blank(d.text) then d.text else d.content;
                && contents == old(contents) + (if thought != "" && old(contents) != [] then [thought] else [])
                                 + (if said != "" then [said] else [])
                && reasoned == old(reasoned) + if thought != "" && old(contents) == [] then [thought] else []
    {
      hide Streaming, CallsAfter, TextAfter, ReasonedAfter, Blank;
      var data := DataOf(line);
      if data.None? || data.value == "[DONE]" { return; }
      var parsed := parse(data.value);
      if parsed.None? { return; }
      DeltaAdds(contents, reasoned, parsed.value);
      TakePayload(parsed.value);
    }

    /** The tails that `flush` shows; the first one may have to open the text block. */
    method YieldTails(tails: seq<string>)
      requires ValidBlocks() && ValidAnnounced()
      modifies this`events, this`thinkingStopped, this`textStreamIndex, this`textBlockStarted
      ensures ValidBlocks() && ValidAnnounced() && old(events) <= events
      ensures old(thinkingStopped) ==> thinkingStopped
      ensures DeltaText(events) == DeltaText(old(events)) + Join(tails)
      ensures ThinkingText(events) == ThinkingText(old(events))
    {
      hide Replay, Pendings, EventsOf, DeltaText, ThinkingText, Join;
      var k := 0;
      assert Join(tails[..0]) == "" by { JoinNothing(); }
      assert DeltaText(events) + "" == DeltaText(events);
      while k < |tails|
        invariant k <= |tails|
        invariant ValidBlocks() && ValidAnnounced() && old(events) <= events
        invariant old(thinkingStopped) ==> thinkingStopped
        invariant DeltaText(events) == DeltaText(old(events)) + Join(tails[..k])
        invariant ThinkingText(events) == ThinkingText(old(events))
      {
        var tail := tails[k];
        JoinSnoc(tails, k);
        ConcatAssociates(DeltaText(old(events)), Join(tails[..k]), tail);
        if tail != "" {
          var tidx := OpenTextBlock();
          Yield(BlockDelta(tidx, TextKind, tail));
        }
        k := k + 1;
      }
      assert tails[..k] == tails;
    }

    /** Empty the filter; `tails` are what remains to be shown. */
    method FilterTails() returns (tails: seq<string>)
      requires ValidText()
      modifies filter
      ensures filter.buf == ""
      ensures DeltaText(events) + Join(tails) == Join(Shown(Stream(reader.decode, "", contents)))
    {
      hide Replay, DeltaText, Fed, Join, Shown, Stream;
      FlushedStream(reader.decode, contents);
      tails := filter.FlushAll();
    }

    /** The end of the response: show what the filter still holds and close what is open. */
    method Flush()
      requires Streaming()
      modifies this`events, this`thinkingStopped, this`textStreamIndex, this`textBlockStarted, filter
      ensures LegalStream(events) && old(events) <= events
      ensures ValidAnnounced()
      ensures filter.buf == ""
      ensures DeltaText(events) == Join(Shown(Stream(reader.decode, "", contents)))
      ensures ThinkingText(events) == Join(reasoned)
    {
      hide Replay, Pendings, EventsOf, DeltaText, ThinkingText, Join, Shown, Stream, Fed;
      CloseThinkingIfNeeded();
      var tails := FilterTails();
      YieldTails(tails);
      if textBlockStarted {
        var idx := EnsureTextStreamIndex();
        Yield(BlockStop(idx));
      }
    }

    /** The end of the stream: the stop reason and the whole message. */
    method GetFinalMessages()
      modifies this`events
      ensures var content := FinalBlocks(reader, native.slots, accumulatedText);
              events == old(events) + [MessageDelta(StopReason(content)), MessageStop,
                                       AssistantMessage(if messageId != "" then messageId else "unknown",
                                                        content, StopReason(content))]
    {
      hide Parse, OpenAiDelta.Blocks, StopReason, EmptyCompletion, Strip, TextParts, Numbered, UsesIn, Scan, StripFences,
           SortByStart;
      var nativeBlocks := ToolCallSlotsToBlocks(reader.codec, native.slots);
      var compactBlocks := ParseToolCallsFromText(reader, accumulatedText);
      var contentBlocks;
      if nativeBlocks != [] {
        var body := Strip(accumulatedText);
        contentBlocks := (if body != "" then [TextBlock(body)] else TextParts(compactBlocks)) + ToolBlocks(nativeBlocks);
      } else {
        contentBlocks := compactBlocks;
      }
      if contentBlocks == [] {
        contentBlocks := [TextBlock(EmptyCompletion())];
      }
      var stopReason := StopReason(contentBlocks);
      events := events + [MessageDelta(stopReason)];
      events := events + [MessageStop];
      events := events + [AssistantMessage(if messageId != "" then messageId else "unknown", contentBlocks, stopReason)];
    }
  }
}

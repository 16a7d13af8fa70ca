/** The streamed text agrees with the final message.

    A consumer that joins the text deltas of a response gets the same text as one that also sees
    the final `assistant_message` (koraku/sdk_events.py), whatever the chunks, for replies without
    a brace and without a tool head; the one exception is stated exactly. */
module FinalText {
  import opened Wrappers
  import opened Text
  import opened Json
  import opened ToolMarkers
  import opened Messages
  import opened OpenAiDelta
  import opened VisibleFilter
  import opened FilterChunking
  import opened FilterDeletes
  import opened ToolCallParse
  import opened StreamHandler
  import opened ProviderStream

  // Text without tool heads is shown as it is.

  ghost predicate NoHeads(s: string) {
    && NoBrace(s)
    && forall i: nat :: i < |s| ==> CallTail(s, i).None? && AngleTail(s, i).None? && BracketTail(s, i).None?
  }

  lemma {:induction false} SkipWordStops(s: string, i: nat)
    requires i <= |s|
    ensures forall k :: i <= k < SkipWord(s, i) ==> IsWord(s[k])
    ensures SkipWord(s, i) < |s| ==> !IsWord(s[SkipWord(s, i)])
    decreases |s| - i
  {
    if i < |s| && IsWord(s[i]) {
      SkipWordStops(s, i + 1);
    }
  }

  lemma {:induction false} SkipWordIs(s: string, i: nat, r: nat)
    requires i <= r <= |s| && (r < |s| ==> !IsWord(s[r]))
    requires forall k :: i <= k < r ==> IsWord(s[k])
    ensures SkipWord(s, i) == r
    decreases r - i
  {
    if i < r {
      SkipWordIs(s, i + 1, r);
    }
  }

  lemma NameWindow(s: string, o: nat, e: nat, i: nat)
    requires o <= e <= |s| && Name(s[o..e], i).Some? && Name(s[o..e], i).value < e - o
    ensures Name(s, o + i) == Some(o + Name(s[o..e], i).value)
  {
    hide IsWord;
    var r := Name(s[o..e], i).value;
    SkipWordStops(s[o..e], i + 1);
    assert s[o..e][i] == s[o + i];
    forall k | o + i + 1 <= k < o + r
      ensures IsWord(s[k])
    {
      assert IsWord(s[o..e][k - o]);
    }
    assert s[o + r] == s[o..e][r];
    SkipWordIs(s, o + i + 1, o + r);
  }

  lemma LitInside(s: string, i: nat, lit: string)
    requires Lit(s, i, lit).Some? && lit != ""
    ensures i < |s|
  {
  }

  lemma CallTailWindow(s: string, o: nat, e: nat, i: nat)
    requires o <= e <= |s| && CallTail(s[o..e], i).Some?
    ensures CallTail(s, o + i).Some?
  {
    hide Lit, SkipSpace, Name;
    var t := s[o..e];
    var b := SkipSpace(t, i + 5);
    var c := Name(t, b).value;
    var f := SkipSpace(t, c + 1);
    LitWindow(s, o, e, i, "[call");
    SkipSpaceWindow(s, o, e, i + 5);
    LitInside(t, c, "]");
    NameWindow(s, o, e, b);
    LitWindow(s, o, e, c, "]");
    LitInside(t, f, ":");
    SkipSpaceWindow(s, o, e, c + 1);
    LitWindow(s, o, e, f, ":");
  }

  lemma AngleTailWindow(s: string, o: nat, e: nat, i: nat)
    requires o <= e <= |s| && AngleTail(s[o..e], i).Some?
    ensures AngleTail(s, o + i).Some?
  {
    hide Lit, SkipSpace, Name;
    var t := s[o..e];
    var b := SkipSpace(t, i + 11);
    var c := Name(t, b + 1).value;
    LitWindow(s, o, e, i, "<tool_call>");
    LitInside(t, b, "[");
    SkipSpaceWindow(s, o, e, i + 11);
    LitWindow(s, o, e, b, "[");
    LitInside(t, c, "]");
    NameWindow(s, o, e, b + 1);
    LitWindow(s, o, e, c, "]");
  }

  lemma NoHeadsSlice(s: string, o: nat, e: nat)
    requires o <= e <= |s| && NoHeads(s)
    ensures NoHeads(s[o..e])
  {
    hide CallTail, AngleTail, Lit;
    var t := s[o..e];
    forall i: nat | i < |t|
      ensures CallTail(t, i).None? && AngleTail(t, i).None? && BracketTail(t, i).None?
    {
      if CallTail(t, i).Some? { CallTailWindow(s, o, e, i); }
      if AngleTail(t, i).Some? { AngleTailWindow(s, o, e, i); }
      assert BracketTail(s, o + i).None?;
      if BracketTail(t, i).Some? { LitWindow(s, o, e, i, "[tool_call]"); }
    }
  }

  ghost predicate AllKept(segs: seq<Segment>) {
    forall i: nat :: i < |segs| ==> segs[i].Keep?
  }

  lemma {:induction false} KeptIsShown(segs: seq<Segment>)
    requires AllKept(segs)
    ensures Join(Shown(segs)) == Flat(segs)
  {
    if segs != [] {
      assert AllKept(segs[1..]);
      KeptIsShown(segs[1..]);
      assert Shown(segs)[1..] == Shown(segs[1..]);
    }
  }

  lemma NoBraceLit(s: string, i: nat, lit: string)
    requires NoBrace(s) && "{" <= lit
    ensures Lit(s, i, lit).None?
  {
    if i < |s| {
      assert Lower(s[i + 0]) != lit[0];
    }
  }

  lemma NoJsonTail(s: string, i: nat)
    requires NoBrace(s)
    ensures JsonTail(s, i).None?
  {
    hide Lit, SkipSpace;
    NoBraceLit(s, i, "{");
  }

  lemma NothingLeads(decode: Decoder, buf: string, eof: bool)
    requires NoHeads(buf)
    ensures Leading(decode, buf, eof).NoMatch? && JsonHead(buf).None?
  {
    hide CallTail, AngleTail, BracketTail, JsonTail, Partitions;
    var i := SkipSpace(buf, 0);
    NoJsonTail(buf, i);
    if i == |buf| {
      TailsAtEnd(buf);
    }
    BracketCases(buf, eof);
  }

  lemma TailsAtEnd(s: string)
    ensures CallTail(s, |s|).None? && AngleTail(s, |s|).None? && BracketTail(s, |s|).None?
  {
    hide Name, SkipSpace;
  }

  lemma TurnKept(decode: Decoder, buf: string)
    requires buf != "" && NoHeads(buf)
    ensures AllKept(FeedTurn(decode, buf).front)
    ensures AllKept(FlushTurn(decode, buf).front) && FlushTurn(decode, buf).back == []
  {
    hide NoHeads, Leading, FirstMarker, PartialMarker, MarkerAt, JsonHead;
    NothingLeads(decode, buf, false);
    NothingLeads(decode, buf, true);
  }

  lemma RestSlice(t: Turn, buf: string)
    requires Covers(t, buf) && t.back == [] && NoHeads(buf)
    ensures NoHeads(t.rest)
  {
    assert t.rest == buf[|Flat(t.front)|..|buf|];
    NoHeadsSlice(buf, |Flat(t.front)|, |buf|);
  }

  lemma {:induction false} LoopKept(decode: Decoder, buf: string)
    requires NoHeads(buf)
    ensures AllKept(FeedLoop(decode, buf).segs)
    decreases |buf|
  {
    hide NoHeads, FeedTurn, Covers, Flat;
    if buf != "" {
      var t := FeedTurn(decode, buf);
      TurnKept(decode, buf);
      RestSlice(t, buf);
      if t.again {
        LoopKept(decode, t.rest);
      }
    }
  }

  lemma {:induction false} FlushKept(decode: Decoder, buf: string)
    requires NoHeads(buf)
    ensures AllKept(VisibleFilter.Flush(decode, buf))
    decreases |buf|
  {
    hide NoHeads, FlushTurn, Covers, Flat;
    if buf != "" {
      var t := FlushTurn(decode, buf);
      TurnKept(decode, buf);
      RestSlice(t, buf);
      FlushKept(decode, t.rest);
    }
  }

  lemma {:induction false} StreamKept(decode: Decoder, buf: string, chunks: seq<string>)
    requires NoHeads(buf + Join(chunks))
    ensures AllKept(Stream(decode, buf, chunks))
    decreases |chunks|
  {
    hide NoHeads, VisibleFilter.Flush, FeedLoop, Flat, AllKept;
    if chunks == [] {
      assert buf + Join(chunks) == buf;
      FlushKept(decode, buf);
    } else {
      var c, ahead := chunks[0], Join(chunks[1..]);
      ConcatAssociates(buf, c, ahead);
      NoHeadsFront(buf + c, ahead);
      LoopKept(decode, buf + c);
      var r := Feed(decode, buf, c);
      assert Flat(r.segs) + r.rest == buf + c;
      ConcatAssociates(Flat(r.segs), r.rest, ahead);
      NoHeadsBack(Flat(r.segs), r.rest + ahead);
      StreamKept(decode, r.rest, chunks[1..]);
      KeptConcat(r.segs, Stream(decode, r.rest, chunks[1..]));
    }
  }

  lemma NoHeadsFront(a: string, b: string)
    requires NoHeads(a + b)
    ensures NoHeads(a)
  {
    hide NoHeads;
    assert (a + b)[0..|a|] == a;
    NoHeadsSlice(a + b, 0, |a|);
  }

  lemma NoHeadsBack(a: string, b: string)
    requires NoHeads(a + b)
    ensures NoHeads(b)
  {
    hide NoHeads;
    assert (a + b)[|a|..|a + b|] == b;
    NoHeadsSlice(a + b, |a|, |a + b|);
  }

  lemma KeptConcat(a: seq<Segment>, b: seq<Segment>)
    requires AllKept(a) && AllKept(b)
    ensures AllKept(a + b)
  {
  }

  /** However it is chunked, text without tool heads streams through the filter unchanged. */
  lemma Verbatim(decode: Decoder, chunks: seq<string>)
    requires NoHeads(Join(chunks))
    ensures Join(Shown(Stream(decode, "", chunks))) == Join(chunks)
  {
    hide NoHeads, Stream, Flat, Shown;
    assert "" + Join(chunks) == Join(chunks);
    StreamKept(decode, "", chunks);
    KeptIsShown(Stream(decode, "", chunks));
  }

  /** Such text is shown alike however it is chunked, so chunk independence holds for it as it does for
      text whose only markers are bracket blocks. */
  lemma HeadFreeChunksAgree(decode: Decoder, a: seq<string>, b: seq<string>)
    requires NoHeads(Join(a)) && Join(a) == Join(b)
    ensures Join(Shown(Stream(decode, "", a))) == Join(Shown(Stream(decode, "", b))) == Join(a)
  {
    hide NoHeads, Stream, Shown, Join;
    Verbatim(decode, a);
    Verbatim(decode, b);
  }

  // Without a brace, only the angle form can be read as a tool call in the finished text.

  lemma {:induction false} FenceNoBrace(s: string, i: nat, lit: string)
    requires i <= |s| && lit != "" && NoBrace(s)
    ensures NoBrace(RemoveFence(s, i, lit))
    decreases |s| - i
  {
    hide SkipSpace;
    if i + |lit| <= |s| && s[i..i + |lit|] == lit {
      FenceNoBrace(s, SkipSpace(s, i + |lit|), lit);
    } else if i < |s| {
      FenceNoBrace(s, i + 1, lit);
    }
  }

  lemma {:induction false} NoHits(r: Reader, s: string, form: Form, pos: nat)
    requires NoBrace(s) && (form.BracketForm? || form.CompactForm?)
    ensures CallsOf(Hits(r, s, form, pos)) == []
    decreases |s| - pos
  {
    hide HitAt, Hits, CallsOf, NoBrace;
    if pos >= |s| {
      HitsEnd(r, s, form, pos);
    } else {
      NoHitAt(r, s, form, pos);
      StepCalls(r, s, form, pos);
      NoHits(r, s, form, pos + 1);
    }
  }

  lemma NoHitAt(r: Reader, s: string, form: Form, pos: nat)
    requires NoBrace(s) && (form.BracketForm? || form.CompactForm?)
    ensures HitAt(r, s, form, pos).None?
  {
    hide BracketTail, BraceBeforeClose, Lit, SkipSpace, ParamsOf, JsonTail;
    NoJsonTail(s, pos);
    if form.BracketForm? {
      assert BracketCallAt(s, pos).None?;
    }
  }

  lemma NoDictionary(r: Reader, s: string)
    requires NoBrace(s) && r.decode(s).Some?
    ensures !r.decode(s).value.value.Obj?
  {
  }

  lemma LStripNoBrace(s: string, i: nat)
    requires i <= |s| && NoBrace(s)
    ensures NoBrace(LStrip(s[i..]))
  {
    hide SkipSpace;
  }

  lemma NoCallThere(r: Reader, s: string, pos: nat)
    requires NoBrace(s)
    ensures var h := HitAt(r, s, CallForm, pos); h.Some? ==> h.value.call.None?
  {
    hide CallTail, CallName, LStrip, NoBrace;
    var m := CallTail(s, pos);
    if m.Some? {
      LStripNoBrace(s, m.value);
      if r.decode(LStrip(s[m.value..])).Some? {
        NoDictionary(r, LStrip(s[m.value..]));
      }
    }
  }

  lemma {:induction false} NoCallCalls(r: Reader, s: string, pos: nat)
    requires NoBrace(s)
    ensures CallsOf(Hits(r, s, CallForm, pos)) == []
    decreases |s| - pos
  {
    hide HitAt, Hits, CallsOf, NoBrace;
    if pos >= |s| {
      HitsEnd(r, s, CallForm, pos);
    } else {
      NoCallThere(r, s, pos);
      StepCalls(r, s, CallForm, pos);
      var h := HitAt(r, s, CallForm, pos);
      NoCallCalls(r, s, if h.Some? then h.value.end else pos + 1);
    }
  }

  lemma NoRubyCall(r: Reader, s: string, calls: seq<Found>)
    requires Sane(r) && NoBrace(s)
    ensures ScanRuby(r, s, calls) == calls
  {
    hide NoBrace, Find, ParamsOf, Append;
    assert NoBrace(r.normalize(s));
  }

  lemma OnlyAngleCalls(r: Reader, clean: string)
    requires Sane(r) && NoBrace(clean)
    ensures Scan(r, clean) == CallsIn(r, clean, AngleForm)
  {
    hide Hits, CallsOf, ScanRuby, NoBrace, Sane, Outside;
    NoHits(r, clean, BracketForm, 0);
    NoCallCalls(r, clean, 0);
    NoHits(r, clean, CompactForm, 0);
    NothingOutside(Marked(r, clean));
    var calls := CallsIn(r, clean, AngleForm);
    assert [] + calls + [] + [] == calls;
    NoRubyCall(r, clean, calls);
  }

  // What a consumer collects.

  /** `LlmStreamEvent.text` of a message: its text blocks, joined. */
  function MessageText(content: seq<Block>): string {
    if content == [] then ""
    else (if content[0].TextBlock? then content[0].text else "") + MessageText(content[1..])
  }

  /** The text of the last message that has any. */
  function FinalText(events: seq<Event>): string {
    if events == [] then "" else
    var e := events[|events| - 1];
    if e.AssistantMessage? && MessageText(e.content) != "" then MessageText(e.content)
    else FinalText(events[..|events| - 1])
  }

  function Collected(events: seq<Event>): string {
    if FinalText(events) != "" then Strip(FinalText(events)) else Strip(DeltaText(events))
  }

  /** `collect_assistant_text`, on the stream events that carry text. */
  method CollectAssistantText(events: seq<Event>) returns (text: string)
    ensures text == Collected(events)
  {
    hide MessageText, Strip;
    var deltas, final := "", "";
    var k := 0;
    while k < |events|
      invariant k <= |events|
      invariant deltas == DeltaText(events[..k]) && final == FinalText(events[..k])
    {
      assert events[..k + 1][..k] == events[..k];
      var e := events[k];
      if e.AssistantMessage? {
        var t := MessageText(e.content);
        if t != "" { final := t; }
      } else if e.BlockDelta? && e.kind.TextKind? {
        deltas := deltas + e.text;
      }
      k := k + 1;
    }
    assert events[..k] == events;
    return if final != "" then Strip(final) else Strip(deltas);
  }

  lemma {:induction false} NoFinalText(blocks: seq<Event>)
    requires Replay(blocks).Some?
    ensures FinalText(blocks) == ""
  {
    if blocks != [] {
      NoFinalText(blocks[..|blocks| - 1]);
    }
  }

  lemma FinalTextSnoc(events: seq<Event>, e: Event)
    ensures FinalText(events + [e]) ==
            if e.AssistantMessage? && MessageText(e.content) != "" then MessageText(e.content)
            else FinalText(events)
  {
    assert (events + [e])[..|events|] == events;
  }

  lemma ClosingText(blocks: seq<Event>, closing: seq<Event>)
    requires Replay(blocks).Some? && |closing| == 3
    requires closing[0].MessageDelta? && closing[1].MessageStop? && closing[2].AssistantMessage?
    ensures FinalText(blocks + closing) == MessageText(closing[2].content)
    ensures DeltaText(blocks + closing) == DeltaText(blocks)
  {
    hide MessageText, Replay, FinalText, DeltaText;
    NoFinalText(blocks);
    var b := blocks + [closing[0]];
    var c := b + [closing[1]];
    assert blocks + closing == c + [closing[2]];
    FinalTextSnoc(blocks, closing[0]);
    FinalTextSnoc(b, closing[1]);
    FinalTextSnoc(c, closing[2]);
    DeltaTextSnoc(blocks, closing[0]);
    DeltaTextSnoc(b, closing[1]);
    DeltaTextSnoc(c, closing[2]);
  }

  // A tool call read out of the text takes ink away from the message.

  function InkOf(s: string): nat {
    |NonSpace(s)|
  }

  lemma InkConcat(a: string, b: string)
    ensures InkOf(a + b) == InkOf(a) + InkOf(b)
  {
    NonSpaceConcat(a, b);
  }

  lemma StripInk(s: string)
    ensures InkOf(Strip(s)) == InkOf(s)
  {
    hide NonSpace, TrimEnd;
    var a := SkipSpace(s, 0);
    var b := TrimEnd(s, a, |s|);
    SkipSpaceStops(s, 0);
    NonSpaceBlank(s[..a]);
    NonSpaceBlank(s[b..]);
    InkConcat(s[..a], s[a..b]);
    InkConcat(s[..a] + s[a..b], s[b..]);
    assert s == s[..a] + s[a..b] + s[b..];
  }

  lemma {:induction false} FenceInk(s: string, i: nat, lit: string)
    requires i <= |s| && lit != ""
    ensures InkOf(RemoveFence(s, i, lit)) <= InkOf(s[i..])
    decreases |s| - i
  {
    hide SkipSpace, NonSpace;
    if i + |lit| <= |s| && s[i..i + |lit|] == lit {
      var j := SkipSpace(s, i + |lit|);
      FenceInk(s, j, lit);
      InkConcat(s[i..j], s[j..]);
      assert s[i..] == s[i..j] + s[j..];
    } else if i < |s| {
      FenceInk(s, i + 1, lit);
      InkConcat([s[i]], RemoveFence(s, i + 1, lit));
      InkConcat([s[i]], s[i + 1..]);
      assert s[i..] == [s[i]] + s[i + 1..];
    } else {
      InkNothing();
    }
  }

  lemma FencesInk(s: string)
    ensures InkOf(StripFences(s)) <= InkOf(s)
  {
    hide RemoveFence, InkOf;
    var t := RemoveFence(s, 0, "```json");
    FenceInk(s, 0, "```json");
    FenceInk(t, 0, "```");
    assert s[0..] == s && t[0..] == t;
  }

  lemma {:induction false} ChainOrdered(s: string, calls: seq<Found>, lo: nat)
    requires Chain(s, calls, lo)
    ensures lo <= |s|
  {
    if calls != [] {
      ChainOrdered(s, calls[1..], calls[0].end);
    }
  }

  lemma {:induction false} ChainSorted(s: string, calls: seq<Found>)
    requires forall j, k :: 0 <= j < k < |calls| ==> calls[j].start < calls[k].start
    ensures SortByStart(calls) == calls
  {
    if calls != [] {
      ChainSorted(s, calls[..|calls| - 1]);
    }
  }

  lemma ProseText(s: string, later: seq<Block>)
    ensures InkOf(MessageText(Prose(s) + later)) == InkOf(s) + InkOf(MessageText(later))
  {
    hide NonSpace;
    if Blank(s) {
      assert Prose(s) + later == later;
      NonSpaceBlank(s);
    } else {
      assert (Prose(s) + later)[1..] == later;
      InkConcat(Strip(s), MessageText(later));
      StripInk(s);
    }
  }

  /** Each call that is taken out of the text takes at least one visible character with it. */
  lemma {:induction false} AssembleInk(clean: string, calls: seq<Found>, last: nat, i: nat)
    requires Chain(clean, calls, last)
    ensures InkOf(MessageText(Assemble(clean, calls, last, i))) + |calls| <= InkOf(clean[last..])
    decreases |calls|
  {
    hide InkOf, Prose, DefaultId;
    if calls == [] {
      assert Slice(clean, last, |clean|) == clean[last..];
      ProseText(clean[last..], []);
      assert Prose(clean[last..]) + [] == Prose(clean[last..]);
      InkNothing();
    } else {
      var c := calls[0];
      ChainOrdered(clean, calls, last);
      var tool := [ToolBlock(ToolUse(DefaultId(i), c.tool, c.params))];
      var later := Assemble(clean, calls[1..], c.end, i + 1);
      AssembleInk(clean, calls[1..], c.end, i + 1);
      assert (tool + later)[1..] == later;
      assert MessageText(tool + later) == MessageText(later);
      ProseText(clean[last..c.start], tool + later);
      assert Prose(clean[last..c.start]) + tool + later == Prose(clean[last..c.start]) + (tool + later);
      InkConcat(clean[last..c.start], clean[c.start..c.end]);
      InkConcat(clean[last..c.start] + clean[c.start..c.end], clean[c.end..]);
      assert clean[last..] == clean[last..c.start] + clean[c.start..c.end] + clean[c.end..];
      VisibleInk(clean[c.start..c.end]);
    }
  }

  lemma VisibleInk(s: string)
    requires s != "" && !IsSpace(s[0])
    ensures InkOf(s) >= 1
  {
  }

  lemma InkNothing()
    ensures InkOf("") == 0 && InkOf(MessageText([])) == 0
  {
  }

  // The agreement.

  /** The calls that the finished text is read to contain. */
  function TextCalls(r: Reader, text: string): seq<Found> {
    CallsIn(r, StripFences(text), AngleForm)
  }

  /** The prose that the final message keeps beside those calls. */
  function ProseBeside(r: Reader, text: string): string {
    MessageText(Assemble(StripFences(text), TextCalls(r, text), 0, 0))
  }

  lemma FencesNoBrace(s: string)
    requires NoBrace(s)
    ensures NoBrace(StripFences(s))
  {
    hide RemoveFence, NoBrace;
    FenceNoBrace(s, 0, "```json");
    FenceNoBrace(RemoveFence(s, 0, "```json"), 0, "```");
  }

  lemma ParsedText(r: Reader, text: string)
    requires Sane(r) && NoBrace(text) && !Blank(text)
    ensures Parse(r, text) != []
    ensures MessageText(Parse(r, text)) == if TextCalls(r, text) == [] then text else ProseBeside(r, text)
    ensures TextCalls(r, text) != [] ==> InkOf(ProseBeside(r, text)) < InkOf(text)
  {
    hide NoBrace, Sane, Blank, StripFences, CallsIn, Scan, Chain, InkOf, OfForm;
    var clean := StripFences(text);
    var calls := TextCalls(r, text);
    FencesNoBrace(text);
    OnlyAngleCalls(r, clean);
    CallsOfForm(r, clean, AngleForm);
    ChainStarts(clean, calls, 0);
    ChainSorted(clean, calls);
    AssembleInk(clean, calls, 0, 0);
    FencesInk(text);
    assert clean[0..] == clean;
    if calls == [] {
      assert [TextBlock(text)][1..] == [];
      assert text + "" == text;
    }
  }

  lemma NativeText(r: Reader, slots: map<int, Slot>, text: string)
    requires OpenAiDelta.Blocks(r.codec, slots) != [] && Strip(text) != ""
    ensures MessageText(FinalBlocks(r, slots, text)) == Strip(text)
  {
    hide Strip, OpenAiDelta.Blocks, Parse, EmptyCompletion;
    var native := ToolBlocks(OpenAiDelta.Blocks(r.codec, slots));
    ToolsHaveNoText(OpenAiDelta.Blocks(r.codec, slots), 0);
    assert native[0..] == native;
    assert ([TextBlock(Strip(text))] + native)[1..] == native;
  }

  lemma {:induction false} ToolsHaveNoText(uses: seq<ToolUse>, k: nat)
    requires k <= |uses|
    ensures MessageText(ToolBlocks(uses)[k..]) == ""
    decreases |uses| - k
  {
    if k < |uses| {
      ToolsHaveNoText(uses, k + 1);
      assert ToolBlocks(uses)[k..][1..] == ToolBlocks(uses)[k + 1..];
    }
  }

  /** Whether the text of the final message is the text itself, as far as stripping tells. */
  lemma MessageAgrees(r: Reader, slots: map<int, Slot>, text: string)
    requires Sane(r) && NoBrace(text) && !Blank(text)
    ensures var t := MessageText(FinalBlocks(r, slots, text));
            (if t != "" then Strip(t) else Strip(text)) == Strip(text) <==>
            || OpenAiDelta.Blocks(r.codec, slots) != []
            || TextCalls(r, text) == []
            || ProseBeside(r, text) == ""
  {
    hide Sane, NoBrace, Strip, OpenAiDelta.Blocks, Parse, TextCalls, ProseBeside, InkOf, EmptyCompletion, MessageText,
         Blank, TextParts;
    StripBlank(text);
    StripIdempotent(text);
    if OpenAiDelta.Blocks(r.codec, slots) != [] {
      NativeText(r, slots, text);
    } else {
      ParsedText(r, text);
      assert FinalBlocks(r, slots, text) == Parse(r, text);
      StripInk(text);
      StripInk(ProseBeside(r, text));
    }
  }

  /** Take a response whose contents, however chunked, are not blank, have no brace and no tool head.
      Its deltas alone collect to the stripped contents. Adding the final message changes nothing,
      unless there are no native calls and the text, once its code fences are gone, reads as an
      angle-form call beside some prose: then, and only then, the message says something else. */
  lemma DeltasAgreeWithMessage(r: Reader, st: State, blocks: seq<Event>, closing: seq<Event>)
    requires Sane(r) && Response(r, st, blocks, closing)
    requires !Blank(Join(st.contents)) && NoHeads(Join(st.contents))
    ensures Collected(blocks) == Strip(Join(st.contents))
    ensures Collected(blocks + closing) == Collected(blocks) <==>
            || OpenAiDelta.Blocks(r.codec, st.calls.slots) != []
            || TextCalls(r, Join(st.contents)) == []
            || ProseBeside(r, Join(st.contents)) == ""
  {
    hide Sane, NoHeads, Blank, Strip, StopReason, Stream, Shown, DeltaText, FinalText, Replay, FinalBlocks,
         Pendings, EventsOf, OpenAiDelta.Blocks, TextCalls, ProseBeside, Join, MessageText;
    var text := Join(st.contents);
    Verbatim(r.decode, st.contents);
    NoFinalText(blocks);
    ClosingText(blocks, closing);
    NoHeadsNoBrace(text);
    MessageAgrees(r, st.calls.slots, text);
  }

  lemma NoHeadsNoBrace(s: string)
    requires NoHeads(s)
    ensures NoBrace(s)
  {
  }
}

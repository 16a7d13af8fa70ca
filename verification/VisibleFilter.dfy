/** `VisibleToolJsonFilter` (koraku/llm/sanitize.py): hides inline tool calls from streamed text.

    The pure part says, for one turn of a loop of the filter, which pieces at the front of the
    buffer are shown and which are cut. The class rewrites its buffer exactly as the source does
    and is proved to follow it. */
module VisibleFilter {
  import opened Wrappers
  import opened Text
  import opened Json
  import opened ToolMarkers

  /** Why a piece of text is not shown. */
  datatype Reason =
    | BracketSpan   // `[TOOL_CALL] ... [/TOOL_CALL]`
    | CallSpan      // `[Call Name]:` with the JSON value behind it
    | AngleSpan     // `<tool_call> [Name]` with the JSON value and the closing tag behind it
    | ToolObject    // a complete JSON object with a string `tool`
    | Unfinished    // text led by a tool head that the end of the stream left incomplete
    | LineBreaks    // the newline run behind a cut or behind a decoded object

  datatype Segment =
    | Keep(text: string)
    | Cut(text: string, why: Reason)

  /** The text that the segments cover. */
  function Flat(segs: seq<Segment>): string {
    if segs == [] then "" else segs[0].text + Flat(segs[1..])
  }

  /** The pieces that are shown, one list element for each `append` of the source. */
  function Shown(segs: seq<Segment>): seq<string> {
    if segs == [] then []
    else (if segs[0].Keep? then [segs[0].text] else []) + Shown(segs[1..])
  }

  lemma FlatNext(segs: seq<Segment>)
    requires segs != []
    ensures Flat(segs) == segs[0].text + Flat(segs[1..])
  {
  }

  lemma {:induction false} FlatConcat(a: seq<Segment>, b: seq<Segment>)
    ensures Flat(a + b) == Flat(a) + Flat(b)
    decreases |a|
  {
    hide Flat;
    if a == [] {
      assert a + b == b;
      FlatNone();
    } else {
      FlatConcat(a[1..], b);
      assert (a + b)[1..] == a[1..] + b;
      FlatNext(a);
      FlatNext(a + b);
    }
  }

  lemma FlatNone()
    ensures Flat([]) == ""
  {
  }

  lemma ShownNone()
    ensures Shown([]) == []
  {
  }

  lemma FlatOne(s: Segment)
    ensures Flat([s]) == s.text
  {
    assert [s][1..] == [];
  }

  lemma ShownOne(s: Segment)
    ensures Shown([s]) == if s.Keep? then [s.text] else []
  {
    assert [s][1..] == [];
  }

  lemma ShownTwo(a: Segment, b: Segment)
    ensures Shown([a, b]) == Shown([a]) + Shown([b])
  {
    ShownConcat([a], [b]);
    assert [a, b] == [a] + [b];
  }

  lemma ShownNext(segs: seq<Segment>)
    requires segs != []
    ensures Shown(segs) == (if segs[0].Keep? then [segs[0].text] else []) + Shown(segs[1..])
  {
  }

  lemma {:induction false} ShownConcat(a: seq<Segment>, b: seq<Segment>)
    ensures Shown(a + b) == Shown(a) + Shown(b)
    decreases |a|
  {
    hide Shown;
    if a == [] {
      assert a + b == b;
      ShownNone();
    } else {
      ShownConcat(a[1..], b);
      assert (a + b)[1..] == a[1..] + b;
      ShownNext(a);
      ShownNext(a + b);
    }
  }

  /** Where a run of `\n` and `\r` that starts at `i` ends. */
  function SkipBreaks(s: string, i: nat): (r: nat)
    requires i <= |s|
    ensures i <= r <= |s|
    ensures forall k :: i <= k < r ==> IsLineBreak(s[k])
    decreases |s| - i
  {
    if i < |s| && IsLineBreak(s[i]) then SkipBreaks(s, i + 1) else i
  }

  /** `_eat_leading_newlines_only` */
  function EatLineBreaks(s: string): string {
    s[SkipBreaks(s, 0)..]
  }

  /** The outcome of a `_try_strip_*` method: no match (`False`), hold (`None`), or strip (`True`).
      A strip leaves `rest` in the buffer; `front` lies before it and `back` behind it. */
  datatype Verdict =
    | NoMatch
    | Hold
    | Stripped(front: seq<Segment>, rest: string, back: seq<Segment>)

  /** A strip shows nothing, loses nothing and shrinks the buffer. */
  ghost predicate Partitions(v: Verdict, buf: string) {
    v.Stripped? ==>
      && Flat(v.front) + v.rest + Flat(v.back) == buf
      && |v.rest| < |buf|
      && Shown(v.front) == Shown(v.back) == []
  }

  lemma TwoCuts(buf: string, end: nat, n: nat, why: Reason)
    requires 0 < end <= |buf| && n <= |buf[end..]|
    ensures Partitions(Stripped([Cut(buf[..end], why), Cut(buf[end..][..n], LineBreaks)], buf[end..][n..], []), buf)
  {
    hide Flat, Shown;
    var cut := Cut(buf[..end], why);
    var breaks := Cut(buf[end..][..n], LineBreaks);
    FlatOne(cut);
    FlatOne(breaks);
    FlatNone();
    FlatConcat([cut], [breaks]);
    ShownOne(cut);
    ShownOne(breaks);
    ShownNone();
    ShownTwo(cut, breaks);
    assert [cut, breaks] == [cut] + [breaks];
    assert buf == buf[..end] + buf[end..][..n] + buf[end..][n..];
  }

  /** Cut `buf[..end]` and the newlines right behind it. */
  function CutThrough(buf: string, end: nat, why: Reason): (v: Verdict)
    requires 0 < end <= |buf|
    ensures Partitions(v, buf)
    ensures v.Stripped? && v.rest == EatLineBreaks(buf[end..]) && v.back == []
  {
    hide Flat, Shown, SkipBreaks, Partitions;
    var n := SkipBreaks(buf[end..], 0);
    TwoCuts(buf, end, n, why);
    Stripped([Cut(buf[..end], why), Cut(buf[end..][..n], LineBreaks)], EatLineBreaks(buf[end..]), [])
  }

  /** Cut the whole buffer. */
  function CutAll(buf: string): (v: Verdict)
    requires buf != ""
    ensures Partitions(v, buf)
    ensures v.Stripped? && v.rest == ""
  {
    Stripped([Cut(buf, Unfinished)], "", [])
  }

  /** Cut the end of the buffer, from `k` on. */
  function CutTail(buf: string, k: nat): (v: Verdict)
    requires k < |buf|
    ensures Partitions(v, buf)
  {
    hide Flat, Shown;
    FlatNone();
    ShownNone();
    FlatOne(Cut(buf[k..], Unfinished));
    ShownOne(Cut(buf[k..], Unfinished));
    Stripped([], buf[..k], [Cut(buf[k..], Unfinished)])
  }

  function Bracket(buf: string, eof: bool): (v: Verdict)
    ensures Partitions(v, buf)
    ensures if eof then !v.Hold? else v.Stripped? ==> v.back == []
  {
    var head := BracketHead(buf);
    if head.None? then NoMatch else
    var rest := buf[head.value..];
    var close := Find(rest, 0, "[/tool_call]");
    if close.None? then
      if eof then CutAll(buf) else Hold
    else
      var end := BracketClose(rest[close.value..]);
      if end.None? then
        if eof then CutAll(buf) else Hold
      else CutThrough(buf, head.value + close.value + end.value, BracketSpan)
  }

  function Call(decode: Decoder, buf: string, eof: bool): (v: Verdict)
    ensures Partitions(v, buf)
    ensures if eof then !v.Hold? else v.Stripped? ==> v.back == []
  {
    var head := CallHead(buf);
    if head.None? then NoMatch else
    var rest := buf[head.value..];
    if Blank(rest) then
      if eof then CutAll(buf) else Hold
    else
      var dec := decode(rest);
      if dec.Some? then CutThrough(buf, head.value + dec.value.end, CallSpan)
      else if eof then CutAll(buf)
      else if "{" <= LStrip(rest) then Hold
      else CutThrough(buf, head.value, CallSpan)
  }

  function Angle(decode: Decoder, buf: string, eof: bool): (v: Verdict)
    ensures Partitions(v, buf)
    ensures if eof then !v.Hold? else v.Stripped? ==> v.back == []
  {
    var head := AngleHead(buf);
    if head.None? then NoMatch else
    var rest := buf[head.value..];
    if Blank(rest) then
      if eof then CutAll(buf) else Hold
    else
      var dec := decode(LStrip(rest));
      if dec.None? then
        if eof then CutAll(buf)
        else if "{" <= LStrip(rest) then Hold
        else CutThrough(buf, head.value, AngleSpan)
      else
        var leading := |rest| - |LStrip(rest)|;
        var json := leading + dec.value.end;
        var close := AngleClose(rest[json..]);
        if close.Some? then CutThrough(buf, head.value + json + close.value, AngleSpan)
        else if !eof then Hold
        else CutThrough(buf, head.value + json, AngleSpan)
  }

  /** The leftmost `\{\s*"tool"\s*:` from `i` on. */
  function FirstJsonMarker(s: string, i: nat): (r: Option<nat>)
    requires i <= |s|
    ensures r.Some? ==> i <= r.value < |s| && JsonMarkerAt(s, r.value)
    decreases |s| - i
  {
    hide JsonMarkerAt;
    if i == |s| then None
    else if JsonMarkerAt(s, i) then Some(i)
    else FirstJsonMarker(s, i + 1)
  }

  const HEAD_WINDOW: nat := 8192

  function JsonObject(decode: Decoder, buf: string, eof: bool): (v: Verdict)
    ensures Partitions(v, buf)
    ensures if eof then !v.Hold? else v.Stripped? ==> v.back == []
  {
    hide JsonHead, FirstJsonMarker, IsToolObject, Partitions;
    if buf == "" || buf[0] != '{' then NoMatch else
    var dec := decode(buf);
    if dec.None? then
      if JsonHead(buf[..Min(|buf|, HEAD_WINDOW)]).None? then NoMatch
      else if !eof then Hold
      else
        var marker := FirstJsonMarker(buf, 0);
        if marker.None? then CutAll(buf)
        else CutTail(buf, marker.value)
    else if IsToolObject(dec.value.value) then CutThrough(buf, dec.value.end, ToolObject)
    else NoMatch
  }

  /** The four `_try_strip_*` methods in the order in which both loops try them. */
  function Leading(decode: Decoder, buf: string, eof: bool): (v: Verdict)
    ensures Partitions(v, buf)
    ensures if eof then !v.Hold? else v.Stripped? ==> v.back == []
  {
    var b := Bracket(buf, eof);
    if !b.NoMatch? then b else
    var c := Call(decode, buf, eof);
    if !c.NoMatch? then c else
    var a := Angle(decode, buf, eof);
    if !a.NoMatch? then a else
    JsonObject(decode, buf, eof)
  }

  /** One turn of a loop: `front`, what stays in the buffer, `back`, and whether the loop goes on. */
  datatype Turn = Turn(front: seq<Segment>, rest: string, back: seq<Segment>, again: bool)

  ghost predicate Covers(t: Turn, buf: string) {
    Flat(t.front) + t.rest + Flat(t.back) == buf && (t.again ==> |t.rest| < |buf|)
  }

  /** Show `buf[..k]`. */
  function Emit(buf: string, k: nat, again: bool): (t: Turn)
    requires k <= |buf| && (again ==> 0 < k)
    ensures Covers(t, buf)
  {
    FlatOne(Keep(buf[..k]));
    Turn(if k > 0 then [Keep(buf[..k])] else [], buf[k..], [], again)
  }

  /** Show the decoded value `buf[..end]`, which is no tool call, and drop the newlines behind it. */
  function EmitDecoded(buf: string, end: nat): (t: Turn)
    requires 0 < end <= |buf|
    ensures Covers(t, buf)
  {
    var v := CutThrough(buf, end, LineBreaks);
    assert Flat([Keep(buf[..end]), v.front[1]]) == Flat(v.front) by {
      assert [Keep(buf[..end]), v.front[1]][1..] == v.front[1..];
    }
    Turn([Keep(buf[..end]), v.front[1]], v.rest, [], true)
  }

  /** What `feed` does once no leading tool call was found. */
  function FeedPlain(decode: Decoder, buf: string): (t: Turn)
    requires buf != ""
    ensures Covers(t, buf) && t.back == []
  {
    hide FirstMarker, PartialMarker, JsonHead, MarkerAt, Flat, IsToolObject;
    FlatNone();
    var m := FirstMarker(buf, 0);
    if m.None? then
      var split := PartialMarker(buf);
      if split.Some? then Emit(buf, split.value, false) else Emit(buf, |buf|, false)
    else if m.value > 0 then Emit(buf, m.value, true)
    else if JsonHead(buf).None? then Emit(buf, 1, true)
    else
      var dec := decode(buf);
      if dec.None? then Turn([], buf, [], false)
      else if IsToolObject(dec.value.value) then
        var v := CutThrough(buf, dec.value.end, ToolObject);
        Turn(v.front, v.rest, [], true)
      else EmitDecoded(buf, dec.value.end)
  }

  function FeedTurn(decode: Decoder, buf: string): (t: Turn)
    requires buf != ""
    ensures Covers(t, buf)
    ensures t.back == [] && (t.again ==> |t.rest| < |buf|)
  {
    hide Leading, FeedPlain, Flat, Shown;
    FlatNone();
    match Leading(decode, buf, false)
    case Stripped(front, rest, back) =>
      Turn(front, rest, back, true)
    case Hold => Turn([], buf, [], false)
    case NoMatch => FeedPlain(decode, buf)
  }

  function FlushPlain(buf: string): (t: Turn)
    requires buf != ""
    ensures Covers(t, buf) && |t.rest| < |buf|
    ensures !t.again ==> t.rest == ""
  {
    hide FirstMarker, JsonHead, MarkerAt, Flat;
    var m := FirstMarker(buf, 0);
    if m.Some? && m.value > 0 then Emit(buf, m.value, true)
    else if m.Some? && JsonHead(buf).Some? then
      var v := CutAll(buf);
      Turn(v.front, v.rest, v.back, false)
    else Emit(buf, |buf|, false)
  }

  function FlushTurn(decode: Decoder, buf: string): (t: Turn)
    requires buf != ""
    ensures Covers(t, buf) && |t.rest| < |buf|
    ensures !t.again ==> t.rest == ""
  {
    hide Leading, FlushPlain, Flat, Shown;
    match Leading(decode, buf, true)
    case Stripped(front, rest, back) => Turn(front, rest, back, true)
    case NoMatch => FlushPlain(buf)
  }

  /** A whole loop: the segments in the order of the text, and what the buffer holds at the end. */
  datatype Run = Run(segs: seq<Segment>, rest: string)

  function FeedLoop(decode: Decoder, buf: string): (r: Run)
    ensures Flat(r.segs) + r.rest == buf
    decreases |buf|
  {
    hide FeedTurn, Flat;
    FlatNone();
    if buf == "" then Run([], "") else
    var t := FeedTurn(decode, buf);
    if t.again then
      var r := FeedLoop(decode, t.rest);
      FlatConcat(t.front, r.segs);
      Run(t.front + r.segs, r.rest)
    else Run(t.front, t.rest)
  }

  lemma FeedLoopEmpty(decode: Decoder)
    ensures Shown(FeedLoop(decode, "").segs) == [] && FeedLoop(decode, "").rest == ""
  {
  }

  /** The loop shows what its first turn shows and then what the rest of the loop shows. */
  lemma FeedLoopShown(decode: Decoder, buf: string)
    requires buf != ""
    ensures var t := FeedTurn(decode, buf);
            var later := if t.again then FeedLoop(decode, t.rest) else Run([], t.rest);
            && FeedLoop(decode, buf).rest == later.rest
            && Shown(FeedLoop(decode, buf).segs) == Shown(t.front) + Shown(later.segs)
  {
    hide FeedTurn, Covers, Flat;
    var t := FeedTurn(decode, buf);
    if t.again {
      ShownConcat(t.front, FeedLoop(decode, t.rest).segs);
    }
  }

  /** `feed`: an empty chunk does not run the loop. */
  function Feed(decode: Decoder, buf: string, chunk: string): (r: Run)
    ensures Flat(r.segs) + r.rest == buf + chunk
  {
    if chunk == "" then Run([], buf) else FeedLoop(decode, buf + chunk)
  }

  function Flush(decode: Decoder, buf: string): (segs: seq<Segment>)
    ensures Flat(segs) == buf
    decreases |buf|
  {
    hide FlushTurn, Flat;
    FlatNone();
    if buf == "" then [] else
    var t := FlushTurn(decode, buf);
    var inner := Flush(decode, t.rest);
    FlatConcat(t.front, inner);
    FlatConcat(t.front + inner, t.back);
    t.front + inner + t.back
  }

  lemma FlushEmpty(decode: Decoder)
    ensures Shown(Flush(decode, "")) == []
  {
  }

  lemma FlushShown(decode: Decoder, buf: string)
    requires buf != ""
    ensures var t := FlushTurn(decode, buf);
            Shown(Flush(decode, buf)) == Shown(t.front) + Shown(Flush(decode, t.rest)) + Shown(t.back)
  {
    hide FlushTurn, Covers, Flat, Shown;
    var t := FlushTurn(decode, buf);
    var inner := Flush(decode, t.rest);
    ShownConcat(t.front, inner);
    ShownConcat(t.front + inner, t.back);
  }

  /** A filter that holds `buf`, fed all chunks and then flushed. */
  function Stream(decode: Decoder, buf: string, chunks: seq<string>): (segs: seq<Segment>)
    ensures Flat(segs) == buf + Join(chunks)
    decreases |chunks|
  {
    hide Flush, Feed, Flat;
    if chunks == [] then Flush(decode, buf) else
    var r := Feed(decode, buf, chunks[0]);
    var later := Stream(decode, r.rest, chunks[1..]);
    FlatConcat(r.segs, later);
    assert Flat(r.segs) + (r.rest + Join(chunks[1..])) == (buf + chunks[0]) + Join(chunks[1..]);
    assert (buf + chunks[0]) + Join(chunks[1..]) == buf + (chunks[0] + Join(chunks[1..]));
    r.segs + later
  }

  /** How a `_try_strip_*` method reports a verdict: its result and the buffer it leaves. */
  ghost predicate Reports(v: Verdict, r: Option<bool>, before: string, after: string) {
    match v
    case NoMatch => r == Some(false) && after == before
    case Hold => r == None && after == before
    case Stripped(_, rest, _) => r == Some(true) && after == rest
  }

  class VisibleToolJsonFilter {
    const decode: Decoder
    var buf: string

    constructor (decode: Decoder)
      ensures buf == "" && this.decode == decode
    {
      this.decode := decode;
      buf := "";
    }

    method TryStripLeadingBracketToolCall(eof: bool) returns (r: Option<bool>)
      modifies this
      ensures Reports(Bracket(old(buf), eof), r, old(buf), buf)
    {
      hide CutThrough, CutAll, BracketHead, BracketClose, Partitions, Find, Lit;
      var m := BracketHead(buf);
      if m.None? { return Some(false); }
      var rest := buf[m.value..];
      var closeIdx := Find(rest, 0, "[/tool_call]");
      if closeIdx.None? {
        if !eof { return None; }
        buf := "";
        return Some(true);
      }
      var tailFromClose := rest[closeIdx.value..];
      var cm := BracketClose(tailFromClose);
      if cm.None? {
        if !eof { return None; }
        buf := "";
        return Some(true);
      }
      assert buf[m.value + closeIdx.value + cm.value..] == tailFromClose[cm.value..];
      buf := EatLineBreaks(tailFromClose[cm.value..]);
      return Some(true);
    }

    method TryStripLeadingCallTool(eof: bool) returns (r: Option<bool>)
      modifies this
      ensures Reports(Call(decode, old(buf), eof), r, old(buf), buf)
    {
      hide CutThrough, CutAll, CallHead, Blank, Partitions;
      var m := CallHead(buf);
      if m.None? { return Some(false); }
      var rest := buf[m.value..];
      if Blank(rest) {
        if !eof { return None; }
        buf := "";
        return Some(true);
      }
      var dec := decode(rest);
      if dec.None? {
        if eof {
          buf := "";
          return Some(true);
        }
        if "{" <= LStrip(rest) { return None; }
        buf := EatLineBreaks(rest);
        return Some(true);
      }
      assert buf[m.value + dec.value.end..] == rest[dec.value.end..];
      buf := EatLineBreaks(rest[dec.value.end..]);
      return Some(true);
    }

    method TryStripLeadingAngleTool(eof: bool) returns (r: Option<bool>)
      modifies this
      ensures Reports(Angle(decode, old(buf), eof), r, old(buf), buf)
    {
      hide CutThrough, CutAll, AngleHead, AngleClose, Blank, Partitions, LStrip, EatLineBreaks;
      var m := AngleHead(buf);
      if m.None? { return Some(false); }
      var rest := buf[m.value..];
      if Blank(rest) {
        if !eof { return None; }
        buf := "";
        return Some(true);
      }
      var dec := decode(LStrip(rest));
      if dec.None? {
        if eof {
          buf := "";
          return Some(true);
        }
        if "{" <= LStrip(rest) { return None; }
        buf := EatLineBreaks(rest);
        return Some(true);
      }
      var leading := |rest| - |LStrip(rest)|;
      var tail := rest[leading + dec.value.end..];
      assert buf[m.value + leading + dec.value.end..] == tail;
      var close := AngleClose(tail);
      if close.Some? {
        assert buf[m.value + leading + dec.value.end + close.value..] == tail[close.value..];
        tail := tail[close.value..];
      } else if !eof {
        return None;
      }
      buf := EatLineBreaks(tail);
      return Some(true);
    }

    method TryStripLeadingToolJsonObject(eof: bool) returns (r: Option<bool>)
      modifies this
      ensures Reports(JsonObject(decode, old(buf), eof), r, old(buf), buf)
    {
      hide CutThrough, CutAll, JsonHead, Partitions;
      if buf == "" || buf[0] != '{' { return Some(false); }
      var dec := decode(buf);
      if dec.None? {
        if JsonHead(buf[..Min(|buf|, HEAD_WINDOW)]).None? { return Some(false); }
        if !eof { return None; }
        var mm := FirstJsonMarker(buf, 0);
        buf := if mm.Some? then buf[..mm.value] else "";
        return Some(true);
      }
      if !IsToolObject(dec.value.value) { return Some(false); }
      buf := EatLineBreaks(buf[dec.value.end..]);
      return Some(true);
    }

    /** The four heads in the order in which both loops of the source try them. */
    method TryStripLeading(eof: bool) returns (r: Option<bool>)
      modifies this
      ensures Reports(Leading(decode, old(buf), eof), r, old(buf), buf)
    {
      hide Bracket, Call, Angle, JsonObject;
      r := TryStripLeadingBracketToolCall(eof);
      if r == Some(false) {
        r := TryStripLeadingCallTool(eof);
        if r == Some(false) {
          r := TryStripLeadingAngleTool(eof);
          if r == Some(false) {
            r := TryStripLeadingToolJsonObject(eof);
          }
        }
      }
    }

    /** The rest of a turn of `feed`. The tests of the angle, call and bracket heads that the source
        repeats behind a marker at index 0 are left out: they have just failed on this buffer. */
    method FeedBehindHeads() returns (emitted: seq<string>, again: bool)
      requires buf != ""
      modifies this
      ensures var t := FeedPlain(decode, old(buf));
              buf == t.rest && emitted == Shown(t.front) && again == t.again
    {
      hide FirstMarker, PartialMarker, JsonHead, Flat, IsToolObject;
      var m := FirstMarker(buf, 0);
      if m.None? {
        var partial := PartialMarker(buf);
        if partial.Some? {
          emitted := if partial.value > 0 then [buf[..partial.value]] else [];
          buf := buf[partial.value..];
          return emitted, false;
        }
        assert buf[..|buf|] == buf;
        emitted := [buf];
        buf := "";
        return emitted, false;
      }
      if m.value > 0 {
        emitted := [buf[..m.value]];
        buf := buf[m.value..];
        return emitted, true;
      }
      if JsonHead(buf).Some? {
        var dec := decode(buf);
        if dec.None? { return [], false; }
        var Decoded(obj, end) := dec.value;
        emitted := if IsToolObject(obj) then [] else [buf[..end]];
        buf := EatLineBreaks(buf[end..]);
        return emitted, true;
      }
      emitted := [buf[..1]];
      buf := buf[1..];
      return emitted, true;
    }

    /** One turn of the loop of `feed`: what it appends, and whether the loop goes on. */
    method FeedOnce() returns (emitted: seq<string>, again: bool)
      requires buf != ""
      modifies this
      ensures var t := FeedTurn(decode, old(buf));
              buf == t.rest && emitted == Shown(t.front) && again == t.again
    {
      hide Leading, FeedPlain, Flat;
      var st := TryStripLeading(false);
      if st == Some(true) { return [], true; }
      if st.None? { return [], false; }
      emitted, again := FeedBehindHeads();
    }

    /** The loop of `feed` */
    method RunFeedLoop() returns (emitted: seq<string>)
      modifies this
      ensures buf == FeedLoop(decode, old(buf)).rest
      ensures emitted == Shown(FeedLoop(decode, old(buf)).segs)
    {
      hide *;
      emitted := [];
      while buf != ""
        invariant FeedLoop(decode, buf).rest == FeedLoop(decode, old(buf)).rest
        invariant emitted + Shown(FeedLoop(decode, buf).segs) == Shown(FeedLoop(decode, old(buf)).segs)
        decreases |buf|
      {
        FeedLoopShown(decode, buf);
        var pieces, again := FeedOnce();
        emitted := emitted + pieces;
        if !again { ShownNone(); return; }
      }
      FeedLoopEmpty(decode);
    }

    /** `feed`: an empty chunk leaves at once. */
    method FeedChunk(chunk: string) returns (emitted: seq<string>)
      modifies this
      ensures buf == Feed(decode, old(buf), chunk).rest
      ensures emitted == Shown(Feed(decode, old(buf), chunk).segs)
    {
      hide FeedLoop;
      if chunk == "" { return []; }
      buf := buf + chunk;
      emitted := RunFeedLoop();
    }

    /** The rest of a turn of `flush`; the repeated head tests are left out as in `feed`. */
    method FlushBehindHeads() returns (out: seq<string>)
      requires buf != ""
      modifies this
      ensures var t := FlushPlain(old(buf));
              buf == t.rest && out == Shown(t.front) && Shown(t.back) == []
    {
      hide FirstMarker, JsonHead, Flat;
      var m := FirstMarker(buf, 0);
      if m.Some? && m.value > 0 {
        out := [buf[..m.value]];
        buf := buf[m.value..];
        return;
      }
      if m.Some? && JsonHead(buf).Some? {
        buf := "";
        return [];
      }
      assert buf[..|buf|] == buf;
      out := [buf];
      buf := "";
    }

    method FlushOnce() returns (out: seq<string>)
      requires buf != ""
      modifies this
      ensures var t := FlushTurn(decode, old(buf));
              buf == t.rest && out == Shown(t.front) && Shown(t.back) == []
    {
      hide Leading, FlushPlain, Flat;
      var st := TryStripLeading(true);
      if st == Some(true) { return []; }
      out := FlushBehindHeads();
    }

    /** `flush` always empties the buffer. */
    method FlushAll() returns (out: seq<string>)
      modifies this
      ensures buf == ""
      ensures out == Shown(Flush(decode, old(buf)))
    {
      hide *;
      out := [];
      while buf != ""
        invariant out + Shown(Flush(decode, buf)) == Shown(Flush(decode, old(buf)))
        decreases |buf|
      {
        FlushShown(decode, buf);
        var pieces := FlushOnce();
        out := out + pieces;
      }
      FlushEmpty(decode);
    }
  }
}

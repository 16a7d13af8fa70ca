/** Lines of a server-sent event stream: how the server frames events (koraku/api/chat_routes.py),
    how the client takes them apart again (packages/koraku-client/src/index.ts), and how the
    provider backend splits its response (koraku/llm/providers/openai_compat_backend.py).
    The framing is the `data:` subset of sections 9.2.5 and 9.2.6 of the WHATWG HTML standard. */
module SseFraming {
  import opened Wrappers
  import opened Text

  /** The complete lines of a text, and what lies behind its last line break. */
  datatype Cut = Cut(lines: seq<string>, rest: string)

  function Break(s: string, i: nat): (r: Option<nat>)
    requires i <= |s|
    ensures r.Some? ==> i <= r.value < |s| && s[r.value] == '\n'
    ensures forall k :: i <= k < (if r.Some? then r.value else |s|) ==> s[k] != '\n'
    decreases |s| - i
  {
    if i == |s| then None else if s[i] == '\n' then Some(i) else Break(s, i + 1)
  }

  /** `s.split("\n")`, with the last piece set aside. */
  function Lines(s: string): (c: Cut)
    decreases |s|
  {
    var b := Break(s, 0);
    if b.None? then Cut([], s) else
    var later := Lines(s[b.value + 1..]);
    Cut([s[..b.value]] + later.lines, later.rest)
  }

  /** The leftmost break of a text is not moved by more text behind it. */
  lemma BreakConcat(a: string, b: string)
    requires Break(a, 0).Some?
    ensures Break(a + b, 0) == Break(a, 0)
  {
    var k := Break(a, 0).value;
    assert (a + b)[k] == '\n';
    assert forall j :: 0 <= j < k ==> (a + b)[j] == a[j];
  }

  lemma LinesNext(s: string, k: nat)
    requires Break(s, 0) == Some(k)
    ensures Lines(s) == Cut([s[..k]] + Lines(s[k + 1..]).lines, Lines(s[k + 1..]).rest)
  {
    hide Break;
  }

  lemma LinesEnd(s: string)
    requires Break(s, 0).None?
    ensures Lines(s) == Cut([], s)
  {
    hide Break;
  }

  /** Splitting a text in two steps gives the same lines: the second step starts with the rest. */
  lemma {:induction false} LinesConcat(a: string, b: string)
    ensures var first := Lines(a);
            var second := Lines(first.rest + b);
            Lines(a + b) == Cut(first.lines + second.lines, second.rest)
    decreases |a|
  {
    hide Lines, Break;
    var k := Break(a, 0);
    if k.Some? {
      BreakConcat(a, b);
      assert (a + b)[k.value + 1..] == a[k.value + 1..] + b;
      assert (a + b)[..k.value] == a[..k.value];
      LinesNext(a, k.value);
      LinesNext(a + b, k.value);
      LinesConcat(a[k.value + 1..], b);
      var later := Lines(a[k.value + 1..]);
      var second := Lines(later.rest + b);
      assert [a[..k.value]] + (later.lines + second.lines) == ([a[..k.value]] + later.lines) + second.lines;
    } else {
      LinesEnd(a);
      assert [] + Lines(a + b).lines == Lines(a + b).lines;
    }
  }

  lemma LinesNoBreak(s: string)
    requires forall k :: 0 <= k < |s| ==> s[k] != '\n'
    ensures Lines(s) == Cut([], s)
  {
  }

  // The client.

  /** White space as `String.prototype.trim` sees it, on ASCII. */
  predicate IsJsSpace(c: char) {
    c == ' ' || '\t' <= c <= '\r'
  }

  function JsSkip(s: string, i: nat): (r: nat)
    requires i <= |s|
    ensures i <= r <= |s|
    decreases |s| - i
  {
    if i < |s| && IsJsSpace(s[i]) then JsSkip(s, i + 1) else i
  }

  function JsTrimEnd(s: string, lo: nat, hi: nat): (r: nat)
    requires lo <= hi <= |s|
    ensures lo <= r <= hi
    decreases hi
  {
    if lo < hi && IsJsSpace(s[hi - 1]) then JsTrimEnd(s, lo, hi - 1) else hi
  }

  function Trim(s: string): string {
    var a := JsSkip(s, 0);
    s[a..JsTrimEnd(s, a, |s|)]
  }

  lemma TrimTrimmed(s: string)
    requires s != "" && !IsJsSpace(s[0]) && !IsJsSpace(s[|s| - 1])
    ensures Trim(s) == s && Trim(" " + s) == s
  {
    var t := " " + s;
    assert JsSkip(t, 1) == 1;
    assert t[1..|t|] == s;
  }

  /** `JSON.stringify`/`json.dumps` and `JSON.parse` for the events of the stream. */
  datatype EventCodec<!E> = EventCodec(dump: E -> string, parse: string -> Option<E>)

  /** Events are dictionaries: they encode to one line in braces, and parsing inverts encoding. */
  ghost predicate Faithful<E(!new)>(codec: EventCodec<E>) {
    forall e: E ::
      var s := codec.dump(e);
      && codec.parse(s) == Some(e)
      && |s| >= 2 && s[0] == '{' && s[|s| - 1] == '}'
      && forall k :: 0 <= k < |s| ==> s[k] != '\n'
  }

  /** `parseSseDataLine` */
  function ParseLine<E>(codec: EventCodec<E>, line: string): Option<E> {
    var trimmed := Trim(line);
    if !("data:" <= trimmed) then None else
    var payload := Trim(trimmed[5..]);
    if payload == "" || payload == "[DONE]" then None else codec.parse(payload)
  }

  function ParseLines<E>(codec: EventCodec<E>, lines: seq<string>): seq<E> {
    if lines == [] then [] else
    var e := ParseLine(codec, lines[0]);
    (if e.Some? then [e.value] else []) + ParseLines(codec, lines[1..])
  }

  lemma {:induction false} ParseLinesConcat<E>(codec: EventCodec<E>, a: seq<string>, b: seq<string>)
    ensures ParseLines(codec, a + b) == ParseLines(codec, a) + ParseLines(codec, b)
  {
    hide ParseLine;
    if a == [] {
      assert a + b == b;
    } else {
      assert (a + b)[1..] == a[1..] + b;
      ParseLinesConcat(codec, a[1..], b);
    }
  }

  /** What the client makes of a whole text: its lines, and its last piece unless that is blank. */
  function Decode<E>(codec: EventCodec<E>, text: string): seq<E> {
    var c := Lines(text);
    ParseLines(codec, if Trim(c.rest) != "" then c.lines + [c.rest] else c.lines)
  }

  /** `format_sse` */
  function Format<E>(codec: EventCodec<E>, e: E): string {
    "data: " + codec.dump(e) + "\n\n"
  }

  function FormatAll<E>(codec: EventCodec<E>, events: seq<E>): string {
    if events == [] then "" else Format(codec, events[0]) + FormatAll(codec, events[1..])
  }

  /** The read loop of `streamChat` on the decoded chunks of a response body. */
  method StreamChat<E>(codec: EventCodec<E>, chunks: seq<string>) returns (events: seq<E>)
    ensures events == Decode(codec, Join(chunks))
  {
    hide ParseLines, ParseLine, Lines, Trim;
    events := [];
    var buffer := "";
    var i := 0;
    ghost var lines: seq<string> := [];
    assert Lines("") == Cut([], "") by { LinesNoBreak(""); }
    assert Join(chunks[..0]) == "";
    assert ParseLines(codec, []) == [] by { ParseNone(codec); }
    while i < |chunks|
      invariant i <= |chunks|
      invariant Lines(Join(chunks[..i])) == Cut(lines, buffer)
      invariant events == ParseLines(codec, lines)
    {
      var split := Lines(buffer + chunks[i]);
      LinesConcat(Join(chunks[..i]), chunks[i]);
      JoinNext(chunks, i);
      ParseLinesConcat(codec, lines, split.lines);
      lines := lines + split.lines;
      buffer := split.rest;
      var k := 0;
      ghost var before := events;
      while k < |split.lines|
        invariant k <= |split.lines|
        invariant events + ParseLines(codec, split.lines[k..]) == before + ParseLines(codec, split.lines)
      {
        ParseNext(codec, split.lines[k..]);
        assert split.lines[k..][1..] == split.lines[k + 1..];
        var event := ParseLine(codec, split.lines[k]);
        if event.Some? {
          events := events + [event.value];
        }
        k := k + 1;
      }
      assert split.lines[k..] == [];
      ParseNone(codec);
      assert events == before + ParseLines(codec, split.lines);
      i := i + 1;
    }
    assert chunks[..i] == chunks;
    if Trim(buffer) != "" {
      ParseLinesConcat(codec, lines, [buffer]);
      ParseNext(codec, [buffer]);
      ParseNone(codec);
      assert [buffer][1..] == [];
      var event := ParseLine(codec, buffer);
      if event.Some? {
        events := events + [event.value];
      }
    }
  }

  lemma ParseNone<E>(codec: EventCodec<E>)
    ensures ParseLines(codec, []) == []
  {
  }

  lemma ParseNext<E>(codec: EventCodec<E>, lines: seq<string>)
    requires lines != []
    ensures var e := ParseLine(codec, lines[0]);
            ParseLines(codec, lines) == (if e.Some? then [e.value] else []) + ParseLines(codec, lines[1..])
  {
  }

  lemma JoinNext(chunks: seq<string>, i: nat)
    requires i < |chunks|
    ensures Join(chunks[..i + 1]) == Join(chunks[..i]) + chunks[i]
  {
    assert chunks[..i + 1] == chunks[..i] + [chunks[i]];
    JoinConcat(chunks[..i], [chunks[i]]);
    assert [chunks[i]][1..] == [];
  }

  lemma FirstLine(line: string, after: string)
    requires forall k :: 0 <= k < |line| ==> line[k] != '\n'
    ensures var c := Lines(after);
            Lines(line + "\n" + after) == Cut([line] + c.lines, c.rest)
  {
    var s := line + "\n" + after;
    assert s[|line|] == '\n';
    assert forall k :: 0 <= k < |line| ==> s[k] == line[k];
    assert Break(s, 0) == Some(|line|);
    assert s[..|line|] == line && s[|line| + 1..] == after;
  }

  lemma FormatLines<E(!new)>(codec: EventCodec<E>, e: E, after: string)
    requires Faithful(codec)
    ensures var c := Lines(after);
            Lines(Format(codec, e) + after) == Cut(["data: " + codec.dump(e)] + ([""] + c.lines), c.rest)
  {
    hide Lines;
    var line := "data: " + codec.dump(e);
    var head := "data: ";
    assert forall k :: 0 <= k < |head| ==> head[k] != '\n';
    FirstLine("", after);
    FirstLine(line, "" + "\n" + after);
    assert Format(codec, e) + after == line + "\n" + ("" + "\n" + after);
  }

  lemma ParseFormatted<E(!new)>(codec: EventCodec<E>, e: E)
    requires Faithful(codec)
    ensures ParseLine(codec, "data: " + codec.dump(e)) == Some(e)
    ensures ParseLine(codec, "").None?
  {
    var s := codec.dump(e);
    var line := "data: " + s;
    TrimTrimmed(line);
    assert line[5..] == " " + s;
    TrimTrimmed(s);
    assert s[0] != "[DONE]"[0];
  }

  /** Framing round trip: however the concatenation of the framed events is cut into chunks, the
      client yields the events themselves, in order. */
  lemma {:induction false} RoundTrip<E(!new)>(codec: EventCodec<E>, events: seq<E>)
    requires Faithful(codec)
    ensures Decode(codec, FormatAll(codec, events)) == events
    ensures Lines(FormatAll(codec, events)).rest == ""
  {
    hide ParseLine, ParseLines, Lines, Format, Trim, Faithful;
    TrimNone();
    ParseNone(codec);
    if events == [] {
      LinesNoBreak("");
    } else {
      var e, after := events[0], FormatAll(codec, events[1..]);
      RoundTrip(codec, events[1..]);
      FormatLines(codec, e, after);
      ParseFormatted(codec, e);
      var first, lines := "data: " + codec.dump(e), Lines(after).lines;
      ParseNext(codec, [first] + ([""] + lines));
      assert ([first] + ([""] + lines))[1..] == [""] + lines;
      ParseNext(codec, [""] + lines);
      assert ([""] + lines)[1..] == lines;
      assert events == [e] + events[1..];
    }
  }

  lemma TrimNone()
    ensures Trim("") == ""
  {
  }

  // What else may stand between the frames.

  lemma DecodeLine<E>(codec: EventCodec<E>, line: string, after: string)
    requires forall k :: 0 <= k < |line| ==> line[k] != '\n'
    ensures var e := ParseLine(codec, line);
            Decode(codec, line + "\n" + after) == (if e.Some? then [e.value] else []) + Decode(codec, after)
  {
    hide ParseLine, ParseLines, Lines, Trim;
    FirstLine(line, after);
    var c := Lines(after);
    var rest := if Trim(c.rest) != "" then [c.rest] else [];
    assert c.lines + [] == c.lines && [line] + c.lines + [] == [line] + c.lines;
    assert [line] + c.lines + rest == [line] + (c.lines + rest);
    ParseNext(codec, [line] + (c.lines + rest));
    assert ([line] + (c.lines + rest))[1..] == c.lines + rest;
  }

  /** Frames are decoded one by one, whatever follows. */
  lemma {:induction false} FramesFirst<E(!new)>(codec: EventCodec<E>, events: seq<E>, after: string)
    requires Faithful(codec)
    ensures Decode(codec, FormatAll(codec, events) + after) == events + Decode(codec, after)
  {
    hide ParseLine, Decode, Format;
    if events == [] {
      assert FormatAll(codec, events) + after == after;
    } else {
      var e, later := events[0], FormatAll(codec, events[1..]) + after;
      FramesFirst(codec, events[1..], after);
      OneFrame(codec, e, later);
      assert FormatAll(codec, events) + after == Format(codec, e) + later;
      assert events == [e] + events[1..];
    }
  }

  lemma OneFrame<E(!new)>(codec: EventCodec<E>, e: E, after: string)
    requires Faithful(codec)
    ensures Decode(codec, Format(codec, e) + after) == [e] + Decode(codec, after)
  {
    hide ParseLine, Decode;
    var line := "data: " + codec.dump(e);
    assert forall k :: 0 <= k < 6 ==> line[k] == "data: "[k] != '\n';
    ParseFormatted(codec, e);
    DecodeLine(codec, line, "" + "\n" + after);
    DecodeLine(codec, "", after);
    assert Format(codec, e) + after == line + "\n" + ("" + "\n" + after);
  }

  /** The end marker, and any other line that carries no event, is skipped wherever it stands between frames. */
  lemma OtherLinesAreSkipped<E(!new)>(codec: EventCodec<E>, before: seq<E>, line: string, after: seq<E>)
    requires Faithful(codec) && forall k :: 0 <= k < |line| ==> line[k] != '\n'
    requires line == "data: [DONE]" || !("data:" <= Trim(line))
    ensures Decode(codec, FormatAll(codec, before) + (line + "\n" + FormatAll(codec, after))) == before + after
  {
    hide Decode, FormatAll, Trim, Faithful;
    FramesFirst(codec, before, line + "\n" + FormatAll(codec, after));
    DecodeLine(codec, line, FormatAll(codec, after));
    RoundTrip(codec, after);
    if line == "data: [DONE]" {
      DoneIsNoEvent(codec);
    }
  }

  lemma DoneIsNoEvent<E>(codec: EventCodec<E>)
    ensures ParseLine(codec, "data: [DONE]").None?
  {
    TrimTrimmed("data: [DONE]");
    assert "data: [DONE]"[5..] == " " + "[DONE]";
    TrimTrimmed("[DONE]");
  }

  /** A last frame is read without the line break that ends it. */
  lemma LastFrameIsRead<E(!new)>(codec: EventCodec<E>, before: seq<E>, e: E)
    requires Faithful(codec)
    ensures Decode(codec, FormatAll(codec, before) + ("data: " + codec.dump(e))) == before + [e]
  {
    hide Decode, FormatAll, ParseLine;
    FramesFirst(codec, before, "data: " + codec.dump(e));
    ParseFormatted(codec, e);
    DecodeRest(codec, e);
  }

  lemma DecodeRest<E(!new)>(codec: EventCodec<E>, e: E)
    requires Faithful(codec)
    ensures Decode(codec, "data: " + codec.dump(e)) == [e]
  {
    hide ParseLine, Lines, ParseLines;
    var line := "data: " + codec.dump(e);
    assert forall k :: 0 <= k < 6 ==> line[k] == "data: "[k] != '\n';
    LinesNoBreak(line);
    ParseFormatted(codec, e);
    TrimTrimmed(line);
    ParseNext(codec, [line]);
    ParseNone(codec);
    assert [] + [line] == [line] && [line][1..] == [];
  }
}

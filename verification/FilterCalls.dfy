/** What the visible-text filter (koraku/llm/sanitize.py) makes of a buffer that begins with an inline tool call:
    the call is cut whole, and the text behind it is treated as if the call had never been there. */
module FilterCalls {
  import opened Wrappers
  import opened Text
  import opened Json
  import opened ToolMarkers
  import opened VisibleFilter
  import opened FilterChunking

  /** Both leave the same buffer and show the same. */
  ghost predicate SameRun(a: Run, b: Run) {
    a.rest == b.rest && Shown(a.segs) == Shown(b.segs)
  }

  /** The newlines in front of a text are all of them dropped, and nothing else. */
  lemma EatLineBreaksIs(s: string) returns (n: nat)
    ensures n <= |s| && EatLineBreaks(s) == s[n..]
    ensures forall k :: 0 <= k < n ==> IsLineBreak(s[k])
    ensures n < |s| ==> !IsLineBreak(s[n])
  {
    n := SkipBreaks(s, 0);
    SkipBreaksStops(s, 0);
  }

  lemma {:induction false} SkipBreaksStops(s: string, i: nat)
    requires i <= |s|
    ensures SkipBreaks(s, i) < |s| ==> !IsLineBreak(s[SkipBreaks(s, i)])
    decreases |s| - i
  {
    if i < |s| && IsLineBreak(s[i]) {
      SkipBreaksStops(s, i + 1);
    }
  }

  // Which form decides.

  lemma CallNeedsHead(decode: Decoder, buf: string, eof: bool)
    ensures Call(decode, buf, eof).NoMatch? <==> CallHead(buf).None?
  {
    hide CallHead, CutThrough, CutAll, Partitions, Blank, LStrip;
  }

  lemma AngleNeedsHead(decode: Decoder, buf: string, eof: bool)
    ensures Angle(decode, buf, eof).NoMatch? <==> AngleHead(buf).None?
  {
    hide AngleHead, AngleClose, CutThrough, CutAll, Partitions, Blank, LStrip;
  }

  lemma BracketLeads(decode: Decoder, buf: string, eof: bool)
    requires BracketHead(buf).Some?
    ensures Leading(decode, buf, eof) == Bracket(buf, eof)
  {
    hide Bracket, Call, Angle, JsonObject, BracketHead, Partitions;
    BracketCases(buf, eof);
  }

  lemma JsonLeads(decode: Decoder, buf: string, eof: bool)
    requires buf != "" && buf[0] == '{'
    ensures Leading(decode, buf, eof) == JsonObject(decode, buf, eof)
  {
    hide Bracket, Call, Angle, JsonObject, BracketHead, CallHead, AngleHead, JsonHead, Partitions;
    assert SkipSpace(buf, 0) == 0;
    HeadChars(buf);
    BracketCases(buf, eof);
    CallNeedsHead(decode, buf, eof);
    AngleNeedsHead(decode, buf, eof);
  }

  lemma CallLeads(decode: Decoder, buf: string, eof: bool)
    requires CallHead(buf).Some?
    ensures Leading(decode, buf, eof) == Call(decode, buf, eof)
  {
    hide Bracket, Call, Angle, JsonObject, BracketHead, CallHead, AngleHead, JsonHead, Partitions;
    HeadChars(buf);
    BracketCases(buf, eof);
    CallNeedsHead(decode, buf, eof);
  }

  lemma AngleLeads(decode: Decoder, buf: string, eof: bool)
    requires AngleHead(buf).Some?
    ensures Leading(decode, buf, eof) == Angle(decode, buf, eof)
  {
    hide Bracket, Call, Angle, JsonObject, BracketHead, CallHead, AngleHead, JsonHead, Partitions;
    HeadChars(buf);
    BracketCases(buf, eof);
    CallNeedsHead(decode, buf, eof);
    AngleNeedsHead(decode, buf, eof);
  }

  // What a verdict does to the loops.

  lemma StripGoesOn(decode: Decoder, buf: string)
    requires buf != "" && Leading(decode, buf, false).Stripped?
    ensures SameRun(FeedLoop(decode, buf), FeedLoop(decode, Leading(decode, buf, false).rest))
  {
    hide Leading, Shown, Flat, Covers, FeedPlain;
    FeedLoopShown(decode, buf);
  }

  lemma HoldStays(decode: Decoder, buf: string)
    requires buf != "" && Leading(decode, buf, false).Hold?
    ensures FeedLoop(decode, buf) == Run([], buf)
  {
    hide Leading, Flat, Covers, FeedPlain;
  }

  lemma StripFlushes(decode: Decoder, buf: string)
    requires buf != "" && Leading(decode, buf, true).Stripped?
    ensures Shown(Flush(decode, buf)) == Shown(Flush(decode, Leading(decode, buf, true).rest))
  {
    hide Leading, Shown, Flat, Covers, FlushPlain;
    FlushShown(decode, buf);
  }

  /** What holds of one buffer holds of every stream that fills it. */
  lemma StreamsAlike(decode: Decoder, held: string, chunk: string, behind: string, later: seq<string>)
    requires chunk != "" && SameRun(FeedLoop(decode, held + chunk), FeedLoop(decode, behind))
    ensures Shown(Stream(decode, held, [chunk] + later)) == Shown(Stream(decode, "", [behind] + later))
  {
    hide *;
    StreamNext(decode, held, chunk, later);
    StreamNext(decode, "", behind, later);
    FeedIs(decode, held, chunk);
    FeedIs(decode, "", behind);
    assert "" + behind == behind;
    SameRunIs(FeedLoop(decode, held + chunk), FeedLoop(decode, behind));
    SameRunIs(Feed(decode, held, chunk), FeedLoop(decode, held + chunk));
    SameRunIs(Feed(decode, "", behind), FeedLoop(decode, behind));
  }

  lemma SameRunIs(a: Run, b: Run)
    ensures SameRun(a, b) <==> a.rest == b.rest && Shown(a.segs) == Shown(b.segs)
  {
  }

  lemma FeedIs(decode: Decoder, held: string, chunk: string)
    requires chunk == "" ==> held == ""
    ensures SameRun(Feed(decode, held, chunk), FeedLoop(decode, held + chunk))
  {
    hide FeedTurn, Flat;
  }

  lemma StreamNext(decode: Decoder, held: string, chunk: string, later: seq<string>)
    ensures var r := Feed(decode, held, chunk);
            Shown(Stream(decode, held, [chunk] + later)) == Shown(r.segs) + Shown(Stream(decode, r.rest, later))
  {
    hide Feed, Flush, Shown, Flat;
    var r := Feed(decode, held, chunk);
    assert ([chunk] + later)[1..] == later;
    ShownConcat(r.segs, Stream(decode, r.rest, later));
  }

  // The call form.

  /** A JSON value stands behind a head, in `rest`. */
  predicate HasValue(decode: Decoder, rest: string) {
    !Blank(rest) && decode(rest).Some?
  }

  /** Something stands behind a head that is no value and will not become one. */
  predicate NoValue(decode: Decoder, rest: string) {
    !Blank(rest) && decode(rest).None? && !("{" <= LStrip(rest))
  }

  /** A buffer that `[Call Name]:` leads. A value behind the head goes with it, and the rest is treated as if the
      call had never been there; a head without a value goes alone; a value that is not whole yet is waited for,
      and dropped at the end. */
  lemma CallLed(decode: Decoder, buf: string, h: nat)
    requires CallHead(buf) == Some(h)
    ensures var rest := buf[h..];
            var behind := EatLineBreaks(if HasValue(decode, rest) then rest[decode(rest).value.end..] else rest);
            && (HasValue(decode, rest) || NoValue(decode, rest) ==>
                  SameRun(FeedLoop(decode, buf), FeedLoop(decode, behind)))
            && (!HasValue(decode, rest) && !NoValue(decode, rest) ==> FeedLoop(decode, buf) == Run([], buf))
            && Shown(Flush(decode, buf)) == if HasValue(decode, rest) then Shown(Flush(decode, behind)) else []
  {
    hide *;
    CallVerdict(decode, buf, h, false);
    CallVerdict(decode, buf, h, true);
    CallLeads(decode, buf, false);
    CallLeads(decode, buf, true);
    ValuesAre(decode, buf[h..]);
    FlushEmpty(decode);
    CutAllGives(buf);
    CutGives(buf, h, CallSpan);
    if HasValue(decode, buf[h..]) {
      DropTwice(buf, h, decode(buf[h..]).value.end);
      CutGives(buf, h + decode(buf[h..]).value.end, CallSpan);
    }
    StripFlushes(decode, buf);
    if HasValue(decode, buf[h..]) || NoValue(decode, buf[h..]) {
      StripGoesOn(decode, buf);
    } else {
      HoldStays(decode, buf);
    }
  }

  lemma DropTwice(s: string, h: nat, n: nat)
    requires h + n <= |s|
    ensures s[h + n..] == s[h..][n..]
  {
  }

  lemma CallVerdict(decode: Decoder, buf: string, h: nat, eof: bool)
    requires CallHead(buf) == Some(h)
    ensures 0 < h <= |buf|
    ensures var rest := buf[h..];
            Call(decode, buf, eof) ==
            if HasValue(decode, rest) then CutThrough(buf, h + decode(rest).value.end, CallSpan)
            else if eof then CutAll(buf)
            else if NoValue(decode, rest) then CutThrough(buf, h, CallSpan)
            else Hold
  {
    hide CallHead, Blank, LStrip, CutAll, Partitions, EatLineBreaks, CutThrough;
  }

  // The angle form.

  lemma HeadFits(buf: string)
    ensures AngleHead(buf).Some? ==> buf != ""
  {
  }

  lemma LStripTwice(s: string)
    ensures LStrip(LStrip(s)) == LStrip(s) && (Blank(LStrip(s)) <==> Blank(s))
  {
    SkipSpaceStops(s, 0);
    var t := LStrip(s);
    assert t != "" ==> t[0] == s[SkipSpace(s, 0)];
    if Blank(s) && t != "" {
      assert false;
    }
  }

  /** A buffer that `<tool_call> [Name]` leads. Before the end the value goes only with its closing tag, and is
      waited for without it; at the end it goes without. */
  lemma AngleLed(decode: Decoder, buf: string, h: nat)
    requires AngleHead(buf) == Some(h)
    ensures var rest := buf[h..];
            var json := LStrip(rest);
            var tail := if HasValue(decode, json) then json[decode(json).value.end..] else rest;
            var tag := if HasValue(decode, json) then AngleClose(tail) else None;
            var behind := EatLineBreaks(if tag.Some? then tail[tag.value..] else tail);
            && (tag.Some? || NoValue(decode, json) ==> SameRun(FeedLoop(decode, buf), FeedLoop(decode, behind)))
            && (tag.None? && !NoValue(decode, json) ==> FeedLoop(decode, buf) == Run([], buf))
            && Shown(Flush(decode, buf)) == if HasValue(decode, json) then Shown(Flush(decode, behind)) else []
  {
    hide *;
    AngleLeads(decode, buf, false);
    AngleLeads(decode, buf, true);
    AngleSplits(decode, buf, h, false);
    AngleSplits(decode, buf, h, true);
    FlushEmpty(decode);
    HeadFits(buf);
    StripFlushes(decode, buf);
    if Angle(decode, buf, false).Hold? {
      HoldStays(decode, buf);
    } else {
      StripGoesOn(decode, buf);
    }
  }

  /** The verdict on the angle form in terms of the text behind the value. */
  lemma AngleSplits(decode: Decoder, buf: string, h: nat, eof: bool)
    requires AngleHead(buf) == Some(h)
    ensures var rest := buf[h..];
            var json := LStrip(rest);
            var tail := if HasValue(decode, json) then json[decode(json).value.end..] else rest;
            var tag := if HasValue(decode, json) then AngleClose(tail) else None;
            var behind := EatLineBreaks(if tag.Some? then tail[tag.value..] else tail);
            var v := Angle(decode, buf, eof);
            if eof then v.Stripped? && v.rest == if HasValue(decode, json) then behind else ""
            else if tag.Some? || NoValue(decode, json) then v.Stripped? && v.rest == behind
            else v.Hold?
  {
    hide *;
    var json := LStrip(buf[h..]);
    LStripTwice(buf[h..]);
    ValuesAre(decode, json);
    AngleUnfolds(decode, buf, h, eof);
    CutAllGives(buf);
    CutGives(buf, h, AngleSpan);
    if HasValue(decode, json) {
      var n := decode(json).value.end;
      CutBehind(buf, json, n);
      if AngleClose(json[n..]).Some? {
        CutBehind(buf, json, n + AngleClose(json[n..]).value);
        SuffixBehind(json, json[n..], AngleClose(json[n..]).value);
      }
    }
  }

  /** A place in a text at the end of the buffer, counted from the front. */
  lemma SuffixBehind(buf: string, json: string, n: nat)
    requires |json| <= |buf| && json == buf[|buf| - |json|..] && n <= |json|
    ensures buf[|buf| - |json| + n..] == json[n..]
  {
  }

  lemma CutBehind(buf: string, json: string, n: nat)
    requires |json| <= |buf| && json == buf[|buf| - |json|..] && 0 < n <= |json|
    ensures var v := CutThrough(buf, |buf| - |json| + n, AngleSpan);
            v.Stripped? && v.rest == EatLineBreaks(json[n..])
  {
    hide *;
    SuffixBehind(buf, json, n);
    CutGives(buf, |buf| - |json| + n, AngleSpan);
  }

  lemma ValuesAre(decode: Decoder, json: string)
    ensures HasValue(decode, json) <==> !Blank(json) && decode(json).Some?
    ensures NoValue(decode, json) <==> !Blank(json) && decode(json).None? && !("{" <= LStrip(json))
    ensures decode(json).Some? ==> 0 < decode(json).value.end <= |json|
  {
    hide Blank, LStrip;
  }

  lemma CutGives(buf: string, end: nat, why: Reason)
    requires 0 < end <= |buf|
    ensures CutThrough(buf, end, why).Stripped? && CutThrough(buf, end, why).rest == EatLineBreaks(buf[end..])
  {
    hide CutThrough;
  }

  lemma CutAllGives(buf: string)
    ensures buf != "" ==> CutAll(buf).Stripped? && CutAll(buf).rest == ""
  {
    hide CutAll;
  }

  lemma AngleUnfolds(decode: Decoder, buf: string, h: nat, eof: bool)
    requires AngleHead(buf) == Some(h)
    ensures 0 < h <= |buf|
    ensures var json := LStrip(buf[h..]);
            && |json| <= |buf| && json == buf[|buf| - |json|..]
            && Angle(decode, buf, eof) ==
               if Blank(buf[h..]) || decode(json).None? then
                 if eof then CutAll(buf)
                 else if Blank(buf[h..]) || "{" <= json then Hold
                 else CutThrough(buf, h, AngleSpan)
               else
                 var n := decode(json).value.end;
                 var close := AngleClose(json[n..]);
                 if close.Some? then CutThrough(buf, |buf| - |json| + n + close.value, AngleSpan)
                 else if !eof then Hold
                 else CutThrough(buf, |buf| - |json| + n, AngleSpan)
  {
    hide *;
    AngleVerdict(decode, buf, h, eof);
    ValuesAre(decode, LStrip(buf[h..]));
    SuffixOfSuffix(buf, h, LStrip(buf[h..]));
    if decode(LStrip(buf[h..])).Some? {
      SuffixBehind(buf[h..], LStrip(buf[h..]), decode(LStrip(buf[h..])).value.end);
    }
  }

  /** The verdict as it is computed. */
  lemma AngleVerdict(decode: Decoder, buf: string, h: nat, eof: bool)
    requires AngleHead(buf) == Some(h)
    ensures 0 < h <= |buf|
    ensures var rest := buf[h..];
            var json := LStrip(rest);
            Angle(decode, buf, eof) ==
            if Blank(rest) then if eof then CutAll(buf) else Hold
            else if decode(json).None? then
              if eof then CutAll(buf) else if "{" <= json then Hold else CutThrough(buf, h, AngleSpan)
            else
              var n := |rest| - |json| + decode(json).value.end;
              var close := AngleClose(rest[n..]);
              if close.Some? then CutThrough(buf, h + n + close.value, AngleSpan)
              else if !eof then Hold
              else CutThrough(buf, h + n, AngleSpan)
  {
    hide AngleHead, Blank, LStrip, CutAll, Partitions, EatLineBreaks, CutThrough, AngleClose;
  }

  lemma SuffixOfSuffix(buf: string, h: nat, json: string)
    requires h <= |buf| && |json| <= |buf[h..]| && json == buf[h..][|buf[h..]| - |json|..]
    ensures |json| <= |buf| && json == buf[|buf| - |json|..]
  {
  }

  // The bracket form.

  /** A buffer that `[TOOL_CALL]` leads: everything up to the first closer goes, and the white space behind it; without
      a closer all of it is waited for, and dropped at the end. */
  lemma BracketLed(decode: Decoder, buf: string, h: nat)
    requires BracketHead(buf) == Some(h)
    ensures var close := Find(buf, h, CLOSE);
            && (close.None? ==> FeedLoop(decode, buf) == Run([], buf) && Shown(Flush(decode, buf)) == [])
            && (close.Some? ==>
                  var behind := LStrip(buf[close.value + 12..]);
                  && SameRun(FeedLoop(decode, buf), FeedLoop(decode, behind))
                  && Shown(Flush(decode, buf)) == Shown(Flush(decode, behind)))
  {
    hide FeedLoop, Flush, Leading, SameRun, BracketHead, LStrip, Shown, Partitions, Find, Bracket;
    BracketLeads(decode, buf, false);
    BracketLeads(decode, buf, true);
    BracketSplits(buf, h);
    FlushEmpty(decode);
    StripFlushes(decode, buf);
    if Find(buf, h, CLOSE).None? {
      HoldStays(decode, buf);
    } else {
      StripGoesOn(decode, buf);
    }
  }

  lemma {:induction false} FindFrom(s: string, h: nat, i: nat, lit: string)
    requires h + i <= |s|
    ensures Find(s, h + i, lit) ==
            var close := Find(s[h..], i, lit);
            if close.Some? then Some(h + close.value) else None
    decreases |s| - i
  {
    hide Lit;
    LitShift(s, h, i, lit);
    if Lit(s, h + i, lit).None? && h + i < |s| {
      FindFrom(s, h, i + 1, lit);
    }
  }

  lemma {:induction false} SkipSpaceFrom(s: string, h: nat, i: nat)
    requires h + i <= |s|
    ensures SkipSpace(s, h + i) == h + SkipSpace(s[h..], i)
    decreases |s| - i
  {
    if h + i < |s| && IsSpace(s[h + i]) {
      SkipSpaceFrom(s, h, i + 1);
    }
  }

  /** Right at the closer its expression matches, through the white space behind it. */
  lemma CloserMatches(s: string)
    requires Lit(s, 0, CLOSE).Some?
    ensures 12 <= |s| && BracketClose(s).Some? && s[BracketClose(s).value..] == LStrip(s[12..])
  {
    NotAtSpace(s, 0, CLOSE);
    assert SkipSpace(s, 0) == 0;
    SkipSpaceFrom(s, 12, 0);
  }

  lemma BracketSplits(buf: string, h: nat)
    requires BracketHead(buf) == Some(h)
    ensures var close := Find(buf, h, CLOSE);
            var now, last := Bracket(buf, false), Bracket(buf, true);
            && (close.None? ==> now.Hold? && last.Stripped? && last.rest == "")
            && (close.Some? ==>
                  && now.Stripped? && now.rest == EatLineBreaks(LStrip(buf[close.value + 12..]))
                  && last.Stripped? && last.rest == now.rest && now.rest == LStrip(buf[close.value + 12..]))
  {
    hide *;
    FindFrom(buf, h, 0, CLOSE);
    BracketCases(buf, false);
    BracketCases(buf, true);
    BracketFits(buf, h);
    CutAllGives(buf);
    var close := Find(buf[h..], 0, CLOSE);
    if close.Some? {
      var tail := buf[h..][close.value..];
      LitShift(buf[h..], close.value, 0, CLOSE);
      CloserMatches(tail);
      BracketIs(buf, false, h, close.value);
      BracketIs(buf, true, h, close.value);
      BracketCloses(buf, h, close.value, tail);
    }
  }

  lemma BracketCloses(buf: string, h: nat, close: nat, tail: string)
    requires 0 < h <= |buf| && close <= |buf[h..]| && tail == buf[h..][close..] && BracketClose(tail).Some? && 12 <= |tail|
    requires tail[BracketClose(tail).value..] == LStrip(tail[12..])
    ensures h + close + 12 <= |buf|
    ensures var v := CutThrough(buf, h + close + BracketClose(tail).value, BracketSpan);
            v.Stripped? && v.rest == LStrip(buf[h + close + 12..]) == EatLineBreaks(LStrip(buf[h + close + 12..]))
  {
    hide *;
    SuffixOfSuffix(buf, h, tail);
    SuffixBehind(buf, tail, 12);
    LStripEaten(tail[12..]);
    CloserFits(tail);
    SuffixBehind(buf, tail, BracketClose(tail).value);
    CutGives(buf, h + close + BracketClose(tail).value, BracketSpan);
  }

  lemma CloserFits(s: string)
    ensures BracketClose(s).Some? ==> BracketClose(s).value <= |s|
  {
  }

  lemma BracketFits(buf: string, h: nat)
    requires BracketHead(buf) == Some(h)
    ensures 0 < h <= |buf|
  {
  }

  lemma LStripEaten(s: string)
    ensures EatLineBreaks(LStrip(s)) == LStrip(s)
  {
    SkipSpaceStops(s, 0);
    var t := LStrip(s);
    assert t != "" ==> t[0] == s[SkipSpace(s, 0)];
  }

  // The compact form.

  /** A buffer that a brace leads: a whole tool object goes; what may become one is waited for, and at the end only
      the text before its marker is read again; an object with the marker whose `tool` is no string is shown, but
      for the newlines behind it. */
  lemma JsonLed(decode: Decoder, buf: string)
    requires buf != "" && buf[0] == '{'
    ensures var dec := decode(buf);
            && (dec.Some? ==>
                  var behind := EatLineBreaks(buf[dec.value.end..]);
                  && (IsToolObject(dec.value.value) ==>
                        && SameRun(FeedLoop(decode, buf), FeedLoop(decode, behind))
                        && Shown(Flush(decode, buf)) == Shown(Flush(decode, behind)))
                  && (!IsToolObject(dec.value.value) && JsonMarkerAt(buf, 0) ==>
                        && FeedLoop(decode, buf).rest == FeedLoop(decode, behind).rest
                        && Shown(FeedLoop(decode, buf).segs)
                           == [buf[..dec.value.end]] + Shown(FeedLoop(decode, behind).segs)
                        && Shown(Flush(decode, buf)) == []))
            && (dec.None? && JsonHead(buf[..Min(|buf|, HEAD_WINDOW)]).Some? ==>
                  && FeedLoop(decode, buf) == Run([], buf)
                  && Shown(Flush(decode, buf)) ==
                     var marker := FirstJsonMarker(buf, 0);
                     if marker.None? then [] else Shown(Flush(decode, buf[..marker.value])))
  {
    hide FeedLoop, Flush, Leading, SameRun, Shown, Partitions, JsonHead, JsonObject, IsToolObject, EatLineBreaks;
    hide FirstJsonMarker, JsonMarkerAt;
    JsonLeads(decode, buf, false);
    JsonLeads(decode, buf, true);
    JsonSplits(decode, buf);
    FlushEmpty(decode);
    if JsonObject(decode, buf, true).Stripped? {
      StripFlushes(decode, buf);
    }
    if JsonObject(decode, buf, false).Stripped? {
      StripGoesOn(decode, buf);
    } else if JsonObject(decode, buf, false).Hold? {
      HoldStays(decode, buf);
    } else if decode(buf).Some? && JsonMarkerAt(buf, 0) {
      PlainObject(decode, buf);
    }
  }

  lemma JsonSplits(decode: Decoder, buf: string)
    requires buf != "" && buf[0] == '{'
    ensures var dec := decode(buf);
            var now, last := JsonObject(decode, buf, false), JsonObject(decode, buf, true);
            if dec.Some? then
              if IsToolObject(dec.value.value) then
                && now.Stripped? && now.rest == EatLineBreaks(buf[dec.value.end..])
                && last.Stripped? && last.rest == now.rest
              else now.NoMatch? && last.NoMatch?
            else if JsonHead(buf[..Min(|buf|, HEAD_WINDOW)]).Some? then
              var marker := FirstJsonMarker(buf, 0);
              now.Hold? && last.Stripped? && last.rest == if marker.None? then "" else buf[..marker.value]
            else now.NoMatch? && last.NoMatch?
  {
    hide JsonHead, FirstJsonMarker, IsToolObject, Partitions, CutThrough, EatLineBreaks;
  }

  /** An object that is no tool call but begins like one. */
  lemma PlainObject(decode: Decoder, buf: string)
    requires buf != "" && JsonMarkerAt(buf, 0) && decode(buf).Some? && !IsToolObject(decode(buf).value.value)
    requires Leading(decode, buf, false).NoMatch? && Leading(decode, buf, true).NoMatch?
    ensures var end := decode(buf).value.end;
            var behind := EatLineBreaks(buf[end..]);
            && FeedLoop(decode, buf).rest == FeedLoop(decode, behind).rest
            && Shown(FeedLoop(decode, buf).segs) == [buf[..end]] + Shown(FeedLoop(decode, behind).segs)
            && Shown(Flush(decode, buf)) == []
  {
    hide FeedLoop, Flush, Leading, Shown, JsonHead, IsToolObject, EmitDecoded, FirstMarker, MarkerAt, Flat;
    MarkerAtStart(buf);
    FeedLoopShown(decode, buf);
    FlushShown(decode, buf);
    FlushEmpty(decode);
    EmitDecodedIs(buf, decode(buf).value.end);
    ShownNone();
    ShownOne(Cut(buf, Unfinished));
  }

  lemma EmitDecodedIs(buf: string, end: nat)
    requires 0 < end <= |buf|
    ensures var t := EmitDecoded(buf, end);
            t.again && t.rest == EatLineBreaks(buf[end..]) && Shown(t.front) == [buf[..end]]
  {
    hide Flat, SkipBreaks, EatLineBreaks;
    var t := EmitDecoded(buf, end);
    ShownTwo(t.front[0], t.front[1]);
    ShownOne(t.front[0]);
    ShownOne(t.front[1]);
  }

  lemma MarkerAtStart(buf: string)
    requires buf != "" && JsonMarkerAt(buf, 0)
    ensures FirstMarker(buf, 0) == Some(0) && JsonHead(buf).Some?
  {
    hide AngleTail, CallTail, Name, Lit;
    LeadChars(buf, 0, "{");
    assert SkipSpace(buf, 0) == 0;
  }
}

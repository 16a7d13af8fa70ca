/** The visible-text filter only deletes, and only what it may delete. */
module FilterDeletes {
  import opened Wrappers
  import opened Text
  import opened Json
  import opened ToolMarkers
  import opened VisibleFilter
  import opened FilterChunking
  import opened FilterCalls

  predicate LedByHead(s: string) {
    BracketHead(s).Some? || CallHead(s).Some? || AngleHead(s).Some? || JsonHead(s).Some?
  }

  /** A bracket, call or angle head that leads `text` has no closer, or no value, behind it. */
  ghost predicate NothingComplete(decode: Decoder, text: string) {
    && (BracketHead(text).Some? ==> Find(text, BracketHead(text).value, CLOSE).None?)
    && (CallHead(text).Some? ==> !HasValue(decode, text[CallHead(text).value..]))
    && (AngleHead(text).Some? ==> !HasValue(decode, LStrip(text[AngleHead(text).value..])))
  }

  /** `text` may be cut for the reason `why` when `ahead` is the buffered text behind it. */
  ghost predicate Justified(decode: Decoder, why: Reason, text: string, ahead: string) {
    var s := text + ahead;
    match why
    case BracketSpan =>
      BracketHead(s).Some? &&
      var close := Find(s, BracketHead(s).value, CLOSE);
      close.Some? && close.value + 12 <= |text| && Blank(text[close.value + 12..])
    case CallSpan =>
      CallHead(s).Some? &&
      var h := CallHead(s).value;
      var rest := s[h..];
      || (HasValue(decode, rest) && |text| == h + decode(rest).value.end)
      || (NoValue(decode, rest) && |text| == h)
    case AngleSpan =>
      AngleHead(s).Some? &&
      var h := AngleHead(s).value;
      var json := LStrip(s[h..]);
      || (NoValue(decode, json) && |text| == h)
      || (HasValue(decode, json) &&
          var tail := json[decode(json).value.end..];
          |text| == |s| - |tail| + (if AngleClose(tail).Some? then AngleClose(tail).value else 0))
    case ToolObject =>
      decode(s).Some? && decode(s).value.end == |text| && IsToolObject(decode(s).value.value)
    case Unfinished => ahead == "" && LedByHead(text) && NothingComplete(decode, text)
    case LineBreaks => forall k :: 0 <= k < |text| ==> IsLineBreak(text[k])
  }

  /** The text behind segment `i`, up to the end of the stream. */
  function Behind(segs: seq<Segment>, i: nat, after: string): string
    requires i < |segs|
  {
    Flat(segs[i + 1..]) + after
  }

  /** A value that `decode` reads at the front of the buffered text. */
  ghost predicate DecodedAt(decode: Decoder, text: string, behind: string) {
    exists ahead :: ahead <= behind && decode(text + ahead).Some? && decode(text + ahead).value.end == |text|
  }

  ghost predicate JustifiedAt(decode: Decoder, why: Reason, text: string, behind: string) {
    exists ahead :: ahead <= behind && Justified(decode, why, text, ahead)
  }

  /** A newline run is cut only right behind another cut or behind a decoded value. */
  ghost predicate Follows(decode: Decoder, segs: seq<Segment>, i: nat, after: string)
    requires i < |segs|
  {
    i > 0 &&
    match segs[i - 1]
    case Cut(_, why) => !why.LineBreaks?
    case Keep(text) => DecodedAt(decode, text, Behind(segs, i - 1, after))
  }

  ghost predicate SoundAt(decode: Decoder, segs: seq<Segment>, i: nat, after: string)
    requires i < |segs|
  {
    segs[i].Cut? ==>
      && JustifiedAt(decode, segs[i].why, segs[i].text, Behind(segs, i, after))
      && (segs[i].why.LineBreaks? ==> Follows(decode, segs, i, after))
  }

  ghost predicate Sound(decode: Decoder, segs: seq<Segment>, after: string) {
    forall i: nat :: i < |segs| ==> SoundAt(decode, segs, i, after)
  }

  lemma BehindConcat(a: seq<Segment>, b: seq<Segment>, i: nat, after: string)
    requires i < |a + b|
    ensures i < |a| ==> Behind(a + b, i, after) == Behind(a, i, Flat(b) + after)
    ensures |a| <= i ==> Behind(a + b, i, after) == Behind(b, i - |a|, after)
  {
    hide Flat;
    if i < |a| {
      assert (a + b)[i + 1..] == a[i + 1..] + b;
      FlatConcat(a[i + 1..], b);
    } else {
      assert (a + b)[i + 1..] == b[i - |a| + 1..];
    }
  }

  lemma SoundConcat(decode: Decoder, a: seq<Segment>, b: seq<Segment>, after: string)
    requires Sound(decode, a, Flat(b) + after) && Sound(decode, b, after)
    ensures Sound(decode, a + b, after)
  {
    hide JustifiedAt, DecodedAt, Behind, Flat;
    var segs := a + b;
    forall i: nat | i < |segs|
      ensures SoundAt(decode, segs, i, after)
    {
      BehindConcat(a, b, i, after);
      if i < |a| {
        assert SoundAt(decode, a, i, Flat(b) + after);
        if 0 < i {
          BehindConcat(a, b, i - 1, after);
        }
      } else {
        assert SoundAt(decode, b, i - |a|, after);
        if |a| < i {
          BehindConcat(a, b, i - 1, after);
        }
      }
    }
  }

  lemma SoundNone(decode: Decoder, after: string)
    ensures Sound(decode, [], after)
  {
  }

  // One strip.

  lemma CutThroughSound(decode: Decoder, buf: string, end: nat, why: Reason, after: string)
    requires 0 < end <= |buf| && !why.LineBreaks?
    requires Justified(decode, why, buf[..end], buf[end..])
    ensures var v := CutThrough(buf, end, why);
            Sound(decode, v.front, v.rest + Flat(v.back) + after)
  {
    hide Justified, Flat, SkipBreaks;
    var v := CutThrough(buf, end, why);
    var n := SkipBreaks(buf[end..], 0);
    var breaks := v.front[1];
    FlatNone();
    FlatOne(breaks);
    var behind := v.rest + Flat(v.back) + after;
    assert v.front[1..] == [breaks];
    assert v.front[2..] == [];
    assert buf[end..] == breaks.text + v.rest;
    assert Behind(v.front, 0, behind) == buf[end..] + after;
    assert SoundAt(decode, v.front, 0, behind) by {
      assert buf[end..] <= Behind(v.front, 0, behind);
    }
    assert SoundAt(decode, v.front, 1, behind) by {
      BreaksJustified(decode, breaks.text, Behind(v.front, 1, behind));
    }
  }

  lemma BreaksJustified(decode: Decoder, text: string, behind: string)
    requires forall k :: 0 <= k < |text| ==> IsLineBreak(text[k])
    ensures JustifiedAt(decode, LineBreaks, text, behind)
  {
    assert "" <= behind;
    assert Justified(decode, LineBreaks, text, "");
  }

  lemma OneCutSound(decode: Decoder, text: string, why: Reason, after: string)
    requires why.Unfinished? && LedByHead(text) && NothingComplete(decode, text)
    ensures Sound(decode, [Cut(text, why)], after)
  {
    hide LedByHead, NothingComplete;
    var segs := [Cut(text, why)];
    assert "" <= Behind(segs, 0, after);
    assert Justified(decode, why, text, "");
    assert SoundAt(decode, segs, 0, after);
  }

  /** A strip is sound when every segment it cuts is. */
  ghost predicate SoundStrip(decode: Decoder, v: Verdict, after: string) {
    v.Stripped? ==>
      && Sound(decode, v.front, v.rest + Flat(v.back) + after)
      && Sound(decode, v.back, after)
  }

  lemma CutAllSound(decode: Decoder, buf: string, after: string)
    requires buf != "" && LedByHead(buf) && NothingComplete(decode, buf)
    ensures SoundStrip(decode, CutAll(buf), after)
  {
    hide LedByHead, NothingComplete, Flat;
    OneCutSound(decode, buf, Unfinished, CutAll(buf).rest + Flat(CutAll(buf).back) + after);
    SoundNone(decode, after);
  }

  lemma StripSound(decode: Decoder, buf: string, end: nat, why: Reason, after: string)
    requires 0 < end <= |buf| && !why.LineBreaks?
    requires Justified(decode, why, buf[..end], buf[end..])
    ensures SoundStrip(decode, CutThrough(buf, end, why), after)
  {
    hide Justified, CutThrough;
    CutThroughSound(decode, buf, end, why, after);
    SoundNone(decode, after);
  }

  lemma BracketJustified(decode: Decoder, buf: string, h: nat, c: nat, end: nat)
    requires BracketHead(buf) == Some(h) && Find(buf[h..], 0, CLOSE) == Some(c)
    requires Lit(buf[h..], c, CLOSE).Some? && BracketClose(buf[h..][c..]).Some?
    requires end == h + c + BracketClose(buf[h..][c..]).value
    ensures Justified(decode, BracketSpan, buf[..end], buf[end..])
  {
    hide BracketHead, BracketClose, Find, Lit, Blank, CallHead, AngleHead, LedByHead;
    LitShift(buf[h..], c, 0, CLOSE);
    CloseAt(buf[h..][c..]);
    FindFrom(buf, h, 0, CLOSE);
    assert buf[..end] + buf[end..] == buf;
    assert buf[..end][h + c + 12..] == buf[h..][c..][|CLOSE|..BracketClose(buf[h..][c..]).value];
  }

  lemma BracketSound(decode: Decoder, buf: string, eof: bool, after: string)
    ensures SoundStrip(decode, Bracket(buf, eof), after)
  {
    hide SoundStrip, CutThrough, CutAll, BracketHead, BracketClose, Find, Lit, Justified, Partitions, Bracket;
    BracketCases(buf, eof);
    var head := BracketHead(buf);
    if head.None? {
      NotStripSound(decode, after);
    } else {
      var h := head.value;
      var close := Find(buf[h..], 0, CLOSE);
      if close.None? {
        NotStripSound(decode, after);
        BracketOpen(decode, buf, h);
        CutAllSound(decode, buf, after);
      } else {
        var c := close.value;
        LitShift(buf[h..], c, 0, CLOSE);
        CloseAt(buf[h..][c..]);
        BracketIs(buf, eof, h, c);
        var end := h + c + BracketClose(buf[h..][c..]).value;
        BracketJustified(decode, buf, h, c, end);
        StripSound(decode, buf, end, BracketSpan, after);
      }
    }
  }

  lemma BracketOpen(decode: Decoder, buf: string, h: nat)
    requires BracketHead(buf) == Some(h) && Find(buf[h..], 0, CLOSE).None?
    ensures NothingComplete(decode, buf) && LedByHead(buf)
  {
    hide BracketHead, CallHead, AngleHead, JsonHead, Find, HasValue;
    HeadChars(buf);
    FindFrom(buf, h, 0, CLOSE);
  }

  lemma NotStripSound(decode: Decoder, after: string)
    ensures SoundStrip(decode, NoMatch, after) && SoundStrip(decode, Hold, after)
  {
  }

  lemma CallSound(decode: Decoder, buf: string, eof: bool, after: string)
    ensures SoundStrip(decode, Call(decode, buf, eof), after)
  {
    hide SoundStrip, CutThrough, CutAll, CallHead, Partitions, Call, Justified, LedByHead, NothingComplete;
    hide HasValue, NoValue;
    NotStripSound(decode, after);
    CallIs(decode, buf, eof);
    if CallHead(buf).Some? {
      var rest := buf[CallHead(buf).value..];
      if HasValue(decode, rest) || (NoValue(decode, rest) && !eof) {
        CallJustified(decode, buf);
        StripSound(decode, buf, CallEnd(decode, buf), CallSpan, after);
      } else {
        CallOpen(decode, buf);
        CutAllSound(decode, buf, after);
      }
    }
  }

  /** Where the call form ends: behind the head and the JSON value, if there is one. */
  function CallEnd(decode: Decoder, buf: string): (end: nat)
    requires CallHead(buf).Some?
    ensures 0 < end <= |buf|
  {
    hide CallHead;
    var h := CallHead(buf).value;
    h + if HasValue(decode, buf[h..]) then decode(buf[h..]).value.end else 0
  }

  lemma CallIs(decode: Decoder, buf: string, eof: bool)
    ensures var v := Call(decode, buf, eof);
            if CallHead(buf).None? then v == NoMatch
            else
              var rest := buf[CallHead(buf).value..];
              if HasValue(decode, rest) || (NoValue(decode, rest) && !eof)
              then v == CutThrough(buf, CallEnd(decode, buf), CallSpan)
              else v == if eof then CutAll(buf) else Hold
  {
    hide CallHead, CutThrough, CutAll, Blank, LStrip, Partitions;
  }

  lemma CallOpen(decode: Decoder, buf: string)
    requires CallHead(buf).Some? && !HasValue(decode, buf[CallHead(buf).value..])
    ensures buf != "" && LedByHead(buf) && NothingComplete(decode, buf)
  {
    hide CallHead, AngleHead, BracketHead, JsonHead, HasValue, Find;
    HeadChars(buf);
  }

  lemma CallJustified(decode: Decoder, buf: string)
    requires CallHead(buf).Some?
    requires var rest := buf[CallHead(buf).value..]; HasValue(decode, rest) || NoValue(decode, rest)
    ensures var end := CallEnd(decode, buf); Justified(decode, CallSpan, buf[..end], buf[end..])
  {
    hide CallHead, LedByHead, BracketHead, AngleHead, Blank, LStrip;
    var end := CallEnd(decode, buf);
    assert buf[..end] + buf[end..] == buf;
  }

  /** Where the angle form ends: behind the head, the JSON value if there is one, and its tag. */
  function AngleEnd(decode: Decoder, buf: string, h: nat): (end: nat)
    requires h <= |buf|
    ensures h <= end <= |buf|
  {
    var json := LStrip(buf[h..]);
    if !HasValue(decode, json) then h else
    var tail := json[decode(json).value.end..];
    |buf| - |tail| + if AngleClose(tail).Some? then AngleClose(tail).value else 0
  }

  lemma AngleJustified(decode: Decoder, buf: string, h: nat)
    requires AngleHead(buf) == Some(h)
    requires var json := LStrip(buf[h..]); HasValue(decode, json) || NoValue(decode, json)
    ensures var end := AngleEnd(decode, buf, h);
            Justified(decode, AngleSpan, buf[..end], buf[end..])
  {
    hide AngleHead, AngleClose, LStrip, LedByHead, BracketHead, CallHead, Blank;
    var end := AngleEnd(decode, buf, h);
    assert buf[..end] + buf[end..] == buf;
  }

  /** The angle form is cut, held, or dropped at the end for want of a value. */
  lemma AngleIs(decode: Decoder, buf: string, eof: bool)
    requires AngleHead(buf).Some?
    ensures var v := Angle(decode, buf, eof);
            var h := AngleHead(buf).value;
            var json := LStrip(buf[h..]);
            || (!eof && v == Hold)
            || (eof && !HasValue(decode, json) && v == CutAll(buf))
            || ((HasValue(decode, json) || NoValue(decode, json))
                && v == CutThrough(buf, AngleEnd(decode, buf, h), AngleSpan))
  {
    hide AngleHead, AngleClose, LStrip, CutAll, CutThrough, Partitions, Blank, EatLineBreaks;
    var h := AngleHead(buf).value;
    var rest := buf[h..];
    var json := LStrip(rest);
    LStripTwice(rest);
    var end := AngleEnd(decode, buf, h);
    if HasValue(decode, json) {
      var j := |rest| - |json| + decode(json).value.end;
      assert rest[j..] == json[decode(json).value.end..];
      assert |buf| - |rest[j..]| == h + j;
    }
  }

  lemma AngleOpen(decode: Decoder, buf: string)
    requires AngleHead(buf).Some? && !HasValue(decode, LStrip(buf[AngleHead(buf).value..]))
    ensures LedByHead(buf) && NothingComplete(decode, buf)
  {
    hide CallHead, AngleHead, BracketHead, JsonHead, HasValue, Find, LStrip;
    HeadChars(buf);
  }

  lemma AngleSound(decode: Decoder, buf: string, eof: bool, after: string)
    ensures SoundStrip(decode, Angle(decode, buf, eof), after)
  {
    hide SoundStrip, CutThrough, CutAll, AngleHead, AngleEnd, Partitions, Justified, HasValue, NoValue, LStrip;
    hide NothingComplete, LedByHead;
    NotStripSound(decode, after);
    var head := AngleHead(buf);
    if head.Some? {
      hide Angle;
      var json := LStrip(buf[head.value..]);
      AngleIs(decode, buf, eof);
      if !HasValue(decode, json) {
        AngleOpen(decode, buf);
        CutAllSound(decode, buf, after);
      }
      if HasValue(decode, json) || NoValue(decode, json) {
        AngleJustified(decode, buf, head.value);
        StripSound(decode, buf, AngleEnd(decode, buf, head.value), AngleSpan, after);
      }
    }
  }

  lemma SkipSpaceWindow(s: string, o: nat, e: nat, i: nat)
    requires o + i <= e <= |s| && SkipSpace(s[o..e], i) < e - o
    ensures SkipSpace(s, o + i) == o + SkipSpace(s[o..e], i)
  {
    var r := SkipSpace(s[o..e], i);
    SkipSpaceStops(s[o..e], i);
    forall k | o + i <= k < o + r
      ensures IsSpace(s[k])
    {
      assert IsSpace(s[o..e][k - o]);
    }
    SkipSpaceIs(s, o + i, o + r);
  }

  lemma LitWindow(s: string, o: nat, e: nat, i: nat, lit: string)
    requires o <= e <= |s| && Lit(s[o..e], i, lit).Some?
    ensures Lit(s, o + i, lit) == Some(o + i + |lit|)
  {
    forall j | 0 <= j < |lit|
      ensures Lower(s[o + i + j]) == lit[j]
    {
      assert s[o + i + j] == s[o..e][i + j];
    }
  }

  /** A compact-JSON head in a part of the text is one in the text. */
  lemma JsonTailWindow(s: string, o: nat, e: nat, i: nat)
    requires o <= e <= |s| && JsonTail(s[o..e], i).Some?
    ensures JsonTail(s, o + i).Some?
  {
    hide Lit, SkipSpace;
    var t := s[o..e];
    LitWindow(s, o, e, i, "{");
    var b := SkipSpace(t, i + 1);
    LitWindow(s, o, e, b, "\"tool\"");
    SkipSpaceWindow(s, o, e, i + 1);
    var c := SkipSpace(t, b + 6);
    LitWindow(s, o, e, c, ":");
    SkipSpaceWindow(s, o, e, b + 6);
  }

  lemma JsonHeadGrows(s: string, w: nat)
    requires w <= |s| && JsonHead(s[..w]).Some?
    ensures JsonHead(s).Some?
  {
    hide JsonTail;
    assert s[0..w] == s[..w];
    SkipSpaceWindow(s, 0, w, 0);
    JsonTailWindow(s, 0, w, SkipSpace(s[..w], 0));
  }

  lemma LitAt(s: string, i: nat, lit: string, k: nat)
    requires Lit(s, i, lit).Some? && k < |lit|
    ensures Lower(s[i + k]) == lit[k]
  {
  }

  lemma JsonMarkerLeads(s: string, p: nat)
    requires p < |s| && JsonTail(s, p).Some?
    ensures JsonHead(s[p..]).Some?
  {
    hide SkipSpace, Lit;
    var b := SkipSpace(s, p + 1);
    var c := SkipSpace(s, b + 6);
    SkipSpaceStops(s, p + 1);
    SkipSpaceStops(s, b + 6);
    LitShift(s, p, 0, "{");
    LitAt(s[p..], 0, "{", 0);
    SkipSpaceIs(s[p..], 0, 0);
    SkipSpaceIs(s[p..], 1, b - p);
    LitShift(s, p, b - p, "\"tool\"");
    SkipSpaceIs(s[p..], b + 6 - p, c - p);
    LitShift(s, p, c - p, ":");
  }

  lemma JsonObjectSound(decode: Decoder, buf: string, eof: bool, after: string)
    ensures SoundStrip(decode, JsonObject(decode, buf, eof), after)
  {
    hide SoundStrip, CutThrough, CutAll, CutTail, JsonHead, Partitions, FirstJsonMarker, IsToolObject;
    NotStripSound(decode, after);
    if buf != "" && buf[0] == '{' {
      var dec := decode(buf);
      if dec.None? {
        var w := Min(|buf|, HEAD_WINDOW);
        if JsonHead(buf[..w]).Some? {
          JsonHeadGrows(buf, w);
          JsonOpen(decode, buf);
          CutAllSound(decode, buf, after);
          var marker := FirstJsonMarker(buf, 0);
          if marker.Some? {
            JsonMarkerLeads(buf, marker.value);
            CutTailSound(decode, buf, marker.value, after);
          }
        }
      } else if IsToolObject(dec.value.value) {
        assert buf[..dec.value.end] + buf[dec.value.end..] == buf;
        StripSound(decode, buf, dec.value.end, ToolObject, after);
      }
    }
  }

  lemma CutTailSound(decode: Decoder, buf: string, p: nat, after: string)
    requires p < |buf| && JsonHead(buf[p..]).Some?
    ensures SoundStrip(decode, CutTail(buf, p), after)
  {
    hide JsonHead, Flat, NothingComplete;
    JsonOpen(decode, buf[p..]);
    OneCutSound(decode, buf[p..], Unfinished, after);
    SoundNone(decode, CutTail(buf, p).rest + Flat(CutTail(buf, p).back) + after);
  }

  lemma LeadingSound(decode: Decoder, buf: string, eof: bool, after: string)
    ensures SoundStrip(decode, Leading(decode, buf, eof), after)
  {
    hide SoundStrip, Bracket, Call, Angle, JsonObject, Partitions;
    BracketSound(decode, buf, eof, after);
    CallSound(decode, buf, eof, after);
    AngleSound(decode, buf, eof, after);
    JsonObjectSound(decode, buf, eof, after);
  }

  // Turns and runs.

  ghost predicate SoundTurn(decode: Decoder, t: Turn, after: string) {
    Sound(decode, t.front, t.rest + Flat(t.back) + after) && Sound(decode, t.back, after)
  }

  lemma EmitSound(decode: Decoder, buf: string, k: nat, again: bool, after: string)
    requires k <= |buf| && (again ==> 0 < k)
    ensures SoundTurn(decode, Emit(buf, k, again), after)
  {
    hide Flat;
  }

  lemma EmitDecodedSound(decode: Decoder, buf: string, after: string)
    requires decode(buf).Some?
    ensures SoundTurn(decode, EmitDecoded(buf, decode(buf).value.end), after)
  {
    hide Justified, JustifiedAt, SkipBreaks, Flat;
    var end := decode(buf).value.end;
    var t := EmitDecoded(buf, end);
    var breaks := t.front[1];
    var behind := t.rest + Flat(t.back) + after;
    FlatNone();
    FlatOne(breaks);
    assert t.front[1..] == [breaks];
    assert t.front[2..] == [];
    assert buf[end..] == breaks.text + t.rest;
    assert DecodedAt(decode, t.front[0].text, Behind(t.front, 0, behind)) by {
      assert buf[end..] <= Behind(t.front, 0, behind);
      assert buf[..end] + buf[end..] == buf;
    }
    BreaksJustified(decode, breaks.text, Behind(t.front, 1, behind));
    assert SoundAt(decode, t.front, 1, behind);
    SoundNone(decode, after);
  }

  lemma FeedPlainSound(decode: Decoder, buf: string, after: string)
    requires buf != ""
    ensures SoundTurn(decode, FeedPlain(decode, buf), after)
  {
    hide FirstMarker, PartialMarker, JsonHead, MarkerAt, Emit, EmitDecoded, CutThrough, IsToolObject, Flat, Sound;
    var m := FirstMarker(buf, 0);
    SoundNone(decode, after);
    if m.None? {
      var split := PartialMarker(buf);
      EmitSound(decode, buf, if split.Some? then split.value else |buf|, false, after);
    } else if m.value > 0 {
      EmitSound(decode, buf, m.value, true, after);
    } else if JsonHead(buf).None? {
      EmitSound(decode, buf, 1, true, after);
    } else {
      var dec := decode(buf);
      if dec.None? {
        SoundNone(decode, buf + Flat([]) + after);
      } else if IsToolObject(dec.value.value) {
        assert buf[..dec.value.end] + buf[dec.value.end..] == buf;
        StripSound(decode, buf, dec.value.end, ToolObject, after);
      } else {
        EmitDecodedSound(decode, buf, after);
      }
    }
  }

  lemma FeedTurnSound(decode: Decoder, buf: string, after: string)
    requires buf != ""
    ensures SoundTurn(decode, FeedTurn(decode, buf), after)
  {
    hide Leading, FeedPlain, Flat, Sound;
    LeadingSound(decode, buf, false, after);
    FeedPlainSound(decode, buf, after);
    SoundNone(decode, after);
    SoundNone(decode, buf + Flat([]) + after);
  }

  lemma FlushTurnSound(decode: Decoder, buf: string, after: string)
    requires buf != ""
    ensures SoundTurn(decode, FlushTurn(decode, buf), after)
  {
    hide Leading, FirstMarker, JsonHead, Emit, CutAll, Flat, Sound, MarkerAt, LedByHead;
    LeadingSound(decode, buf, true, after);
    var m := FirstMarker(buf, 0);
    EmitSound(decode, buf, if m.Some? && m.value > 0 then m.value else |buf|, m.Some? && m.value > 0, after);
    if JsonHead(buf).Some? {
      JsonOpen(decode, buf);
      CutAllSound(decode, buf, after);
    }
  }

  lemma JsonOpen(decode: Decoder, buf: string)
    requires JsonHead(buf).Some?
    ensures LedByHead(buf) && NothingComplete(decode, buf)
  {
    hide CallHead, AngleHead, BracketHead, JsonHead, HasValue, Find, LStrip;
    HeadChars(buf);
  }

  lemma {:induction false} FeedLoopSound(decode: Decoder, buf: string, after: string)
    ensures var r := FeedLoop(decode, buf);
            Sound(decode, r.segs, r.rest + after)
    decreases |buf|
  {
    hide FeedTurn, Flat, Covers, Sound;
    if buf == "" {
      SoundNone(decode, "" + after);
    } else {
      var t := FeedTurn(decode, buf);
      FeedTurnSound(decode, buf, after);
      assert Flat([]) == "" by { FlatNone(); }
      assert t.rest + "" + after == t.rest + after;
      if t.again {
        var r := FeedLoop(decode, t.rest);
        FeedLoopSound(decode, t.rest, after);
        assert Flat(r.segs) + (r.rest + after) == t.rest + after;
        SoundConcat(decode, t.front, r.segs, r.rest + after);
      }
    }
  }

  lemma {:induction false} FlushSound(decode: Decoder, buf: string, after: string)
    ensures Sound(decode, Flush(decode, buf), after)
    decreases |buf|
  {
    hide FlushTurn, Flat, Covers, Sound;
    if buf == "" {
      SoundNone(decode, after);
    } else {
      var t := FlushTurn(decode, buf);
      FlushTurnSound(decode, buf, after);
      var inner := Flush(decode, t.rest);
      var behind := Flat(t.back) + after;
      FlushSound(decode, t.rest, behind);
      assert t.rest + Flat(t.back) + after == Flat(inner) + behind;
      SoundConcat(decode, t.front, inner, behind);
      SoundConcat(decode, t.front + inner, t.back, after);
    }
  }

  lemma {:induction false} StreamSound(decode: Decoder, buf: string, chunks: seq<string>)
    ensures Sound(decode, Stream(decode, buf, chunks), "")
    decreases |chunks|
  {
    hide FeedLoop, Flush, Flat, Sound;
    if chunks == [] {
      FlushSound(decode, buf, "");
    } else {
      var r := Feed(decode, buf, chunks[0]);
      var later := Stream(decode, r.rest, chunks[1..]);
      FeedSound(decode, buf, chunks[0], Join(chunks[1..]));
      StreamSound(decode, r.rest, chunks[1..]);
      assert Flat(later) + "" == r.rest + Join(chunks[1..]);
      SoundConcat(decode, r.segs, later, "");
    }
  }

  lemma FeedSound(decode: Decoder, buf: string, chunk: string, after: string)
    ensures var r := Feed(decode, buf, chunk);
            Sound(decode, r.segs, r.rest + after)
  {
    hide FeedLoop, Sound;
    if chunk == "" {
      SoundNone(decode, buf + after);
    } else {
      FeedLoopSound(decode, buf + chunk, after);
    }
  }

  // Only the end of the stream leaves a call unfinished, and then nothing behind it is shown.

  ghost predicate Finished(segs: seq<Segment>) {
    forall i: nat :: i < |segs| ==> segs[i].Keep? || !segs[i].why.Unfinished?
  }

  ghost predicate EndsUnfinished(segs: seq<Segment>) {
    forall i: nat :: i < |segs| && segs[i] == Cut(segs[i].text, Unfinished) ==> Shown(segs[i + 1..]) == []
  }

  lemma ShownSuffix(segs: seq<Segment>, k: nat)
    requires k <= |segs| && Shown(segs) == []
    ensures Shown(segs[k..]) == []
  {
    ShownConcat(segs[..k], segs[k..]);
    assert segs == segs[..k] + segs[k..];
  }

  lemma EndsConcat(a: seq<Segment>, b: seq<Segment>)
    requires EndsUnfinished(b)
    requires Finished(a) || (EndsUnfinished(a) && Shown(b) == [])
    ensures EndsUnfinished(a + b)
  {
    hide Shown;
    var segs := a + b;
    forall i: nat | i < |segs| && segs[i] == Cut(segs[i].text, Unfinished)
      ensures Shown(segs[i + 1..]) == []
    {
      if i < |a| {
        assert a[i] == segs[i];
        assert segs[i + 1..] == a[i + 1..] + b;
        ShownConcat(a[i + 1..], b);
      } else {
        assert segs[i + 1..] == b[i - |a| + 1..];
        assert b[i - |a|] == segs[i];
      }
    }
  }

  lemma HiddenEnds(segs: seq<Segment>)
    requires Shown(segs) == []
    ensures EndsUnfinished(segs)
  {
    hide Shown;
    forall i: nat | i < |segs| && segs[i] == Cut(segs[i].text, Unfinished)
      ensures Shown(segs[i + 1..]) == []
    {
      ShownSuffix(segs, i + 1);
    }
  }

  lemma CutThroughFinished(buf: string, end: nat, why: Reason)
    requires 0 < end <= |buf| && !why.Unfinished?
    ensures Finished(CutThrough(buf, end, why).front)
  {
  }

  /** A strip cuts a finished span, or leaves nothing in the buffer, or cuts only its end. */
  ghost predicate FinishedOrLast(v: Verdict, eof: bool) {
    v.Stripped? ==> Finished(v.front) || (eof && v.rest == "" && v.back == [])
  }

  lemma BracketFinished(buf: string, eof: bool)
    ensures FinishedOrLast(Bracket(buf, eof), eof)
  {
    hide BracketHead, BracketClose, Find, CutThrough, Partitions;
    BracketCases(buf, eof);
    if BracketHead(buf).Some? {
      var h := BracketHead(buf).value;
      var close := Find(buf[h..], 0, CLOSE);
      if close.Some? {
        LitShift(buf[h..], close.value, 0, CLOSE);
        CloseAt(buf[h..][close.value..]);
        BracketIs(buf, eof, h, close.value);
        CutThroughFinished(buf, h + close.value + BracketClose(buf[h..][close.value..]).value, BracketSpan);
      }
    }
  }

  lemma CallFinished(decode: Decoder, buf: string, eof: bool)
    ensures FinishedOrLast(Call(decode, buf, eof), eof)
  {
    hide CallHead, CutThrough, Partitions, HasValue, NoValue, Call;
    CallIs(decode, buf, eof);
    if CallHead(buf).Some? {
      CutThroughFinished(buf, CallEnd(decode, buf), CallSpan);
    }
  }

  lemma AngleFinished(decode: Decoder, buf: string, eof: bool)
    ensures FinishedOrLast(Angle(decode, buf, eof), eof)
  {
    hide AngleHead, AngleEnd, CutThrough, Partitions, HasValue, NoValue;
    if AngleHead(buf).Some? {
      hide Angle;
      AngleIs(decode, buf, eof);
      CutThroughFinished(buf, AngleEnd(decode, buf, AngleHead(buf).value), AngleSpan);
    }
  }

  lemma LeadingFinished(decode: Decoder, buf: string, eof: bool)
    ensures FinishedOrLast(Leading(decode, buf, eof), eof)
  {
    hide Bracket, Call, Angle, JsonHead, FirstJsonMarker, CutThrough, IsToolObject, Partitions;
    BracketFinished(buf, eof);
    CallFinished(decode, buf, eof);
    AngleFinished(decode, buf, eof);
    if decode(buf).Some? {
      CutThroughFinished(buf, decode(buf).value.end, ToolObject);
    }
  }

  lemma FeedPlainFinished(decode: Decoder, buf: string)
    requires buf != ""
    ensures Finished(FeedPlain(decode, buf).front)
  {
    hide FirstMarker, PartialMarker, MarkerAt, JsonHead, IsToolObject, CutThrough, EmitDecoded, Covers, Flat, Partitions;
    if decode(buf).Some? {
      CutThroughFinished(buf, decode(buf).value.end, ToolObject);
      EmitDecodedFinished(buf, decode(buf).value.end);
    }
  }

  lemma EmitDecodedFinished(buf: string, end: nat)
    requires 0 < end <= |buf|
    ensures Finished(EmitDecoded(buf, end).front)
  {
    hide Flat, Shown, SkipBreaks;
  }

  lemma FeedTurnFinished(decode: Decoder, buf: string)
    requires buf != ""
    ensures Finished(FeedTurn(decode, buf).front)
  {
    hide Leading, FeedPlain, Covers, Partitions;
    LeadingFinished(decode, buf, false);
    FeedPlainFinished(decode, buf);
  }

  lemma FlushTurnEnds(decode: Decoder, buf: string)
    requires buf != ""
    ensures var t := FlushTurn(decode, buf);
            && Shown(t.back) == []
            && (Finished(t.front) || (t.rest == "" && t.back == [] && Shown(t.front) == []))
  {
    hide Leading, FirstMarker, MarkerAt, JsonHead, Shown;
    ShownNone();
    LeadingFinished(decode, buf, true);
    FlushPlainEnds(buf);
    hide FlushPlain;
  }

  lemma FlushPlainEnds(buf: string)
    requires buf != ""
    ensures var t := FlushPlain(buf);
            && t.back == []
            && (Finished(t.front) || (t.rest == "" && Shown(t.front) == []))
  {
    hide FirstMarker, MarkerAt, JsonHead;
  }

  lemma {:induction false} FeedLoopFinished(decode: Decoder, buf: string)
    ensures Finished(FeedLoop(decode, buf).segs)
    decreases |buf|
  {
    hide FeedTurn, Flat, Covers;
    if buf != "" {
      var t := FeedTurn(decode, buf);
      FeedTurnFinished(decode, buf);
      if t.again {
        FeedLoopFinished(decode, t.rest);
      }
    }
  }

  lemma {:induction false} FlushEnds(decode: Decoder, buf: string)
    ensures EndsUnfinished(Flush(decode, buf))
    decreases |buf|
  {
    hide FlushTurn, Flat, Covers, Shown, EndsUnfinished, Finished;
    if buf == "" {
      ShownNone();
      HiddenEnds([]);
    } else {
      var t := FlushTurn(decode, buf);
      FlushTurnEnds(decode, buf);
      var inner := Flush(decode, t.rest);
      HiddenEnds(t.back);
      if Finished(t.front) {
        FlushEnds(decode, t.rest);
        EndsConcat(t.front, inner);
        EndsConcat(t.front + inner, t.back);
      } else {
        HiddenEnds(t.front);
        assert t.front + [] + [] == t.front;
      }
    }
  }

  lemma {:induction false} StreamEnds(decode: Decoder, buf: string, chunks: seq<string>)
    ensures EndsUnfinished(Stream(decode, buf, chunks))
    decreases |chunks|
  {
    hide FeedLoop, Flush, Flat, EndsUnfinished;
    if chunks == [] {
      FlushEnds(decode, buf);
    } else {
      var r := Feed(decode, buf, chunks[0]);
      if chunks[0] != "" {
        FeedLoopFinished(decode, buf + chunks[0]);
      }
      StreamEnds(decode, r.rest, chunks[1..]);
      EndsConcat(r.segs, Stream(decode, r.rest, chunks[1..]));
    }
  }

  /** For every text and every way of cutting it: the segments lie end to end over the text; each
      cut is justified by the text at its place; and what the end of the stream leaves unfinished
      is followed by nothing that is shown. */
  lemma OnlyDeletes(decode: Decoder, chunks: seq<string>)
    ensures var segs := Stream(decode, "", chunks);
            && Flat(segs) == Join(chunks)
            && Sound(decode, segs, "")
            && EndsUnfinished(segs)
  {
    hide Stream, Flat, Sound, EndsUnfinished;
    StreamSound(decode, "", chunks);
    StreamEnds(decode, "", chunks);
    assert "" + Join(chunks) == Join(chunks);
  }
}

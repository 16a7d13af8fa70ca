/** Chunk independence of the visible-text filter.

    On text without `{`, without `<` and without `[call` in any case, the only tool syntax left is
    `[TOOL_CALL] ... [/TOOL_CALL]`. For such a text the filter shows, up to white space, what a
    reference shows that reads the whole text once, however the text was cut into chunks. */
module FilterChunking {
  import opened Wrappers
  import opened Text
  import opened Json
  import opened ToolMarkers
  import opened VisibleFilter

  const OPEN: string := "[tool_call]"
  const CLOSE: string := "[/tool_call]"

  ghost predicate BracketsOnly(s: string) {
    forall i: nat :: i < |s| ==> s[i] != '{' && s[i] != '<' && Lit(s, i, "[call").None?
  }

  predicate OpensAt(s: string, i: nat) {
    Lit(s, i, OPEN).Some?
  }

  /** The one-pass reference: delete each span from an opener to the first closer behind it, and
      everything behind an opener that is never closed. */
  function Visible(s: string): string
    decreases |s|
  {
    if s == "" then ""
    else if OpensAt(s, 0) then
      var close := Find(s, |OPEN|, CLOSE);
      if close.None? then "" else Visible(s[close.value + |CLOSE|..])
    else [s[0]] + Visible(s[1..])
  }

  /** What a reader sees once white space is disregarded. */
  function Ink(s: string): string {
    NonSpace(Visible(s))
  }

  function ShownInk(segs: seq<Segment>): string {
    NonSpace(Join(Shown(segs)))
  }

  lemma ShownInkConcat(a: seq<Segment>, b: seq<Segment>)
    ensures ShownInk(a + b) == ShownInk(a) + ShownInk(b)
  {
    hide Shown, Join, NonSpace;
    ShownConcat(a, b);
    JoinConcat(Shown(a), Shown(b));
    NonSpaceConcat(Join(Shown(a)), Join(Shown(b)));
  }

  lemma ShownInkNone()
    ensures ShownInk([]) == ""
  {
  }

  lemma ShownInkKeep(text: string)
    ensures ShownInk([Keep(text)]) == NonSpace(text)
  {
    hide NonSpace;
    ShownOne(Keep(text));
    assert Join([text]) == text by {
      assert [text][1..] == [];
    }
  }

  // Facts about the reference.

  lemma BracketsOnlySlice(s: string, i: nat, j: nat)
    requires i <= j <= |s| && BracketsOnly(s)
    ensures BracketsOnly(s[i..j])
  {
    forall k: nat | k < j - i
      ensures Lit(s[i..j], k, "[call").None?
    {
      assert Lit(s, i + k, "[call").None?;
    }
  }

  /** Text before the first opener passes the reference unchanged. */
  lemma {:induction false} PassesPrefix(s: string, k: nat)
    requires k <= |s|
    requires forall i: nat :: i < k ==> !OpensAt(s, i)
    ensures Ink(s) == NonSpace(s[..k]) + Ink(s[k..])
  {
    if k == 0 {
      assert s[0..] == s;
    } else {
      forall i: nat | i < k - 1
        ensures !OpensAt(s[1..], i)
      {
        assert !OpensAt(s, i + 1);
      }
      hide Ink, OpensAt, NonSpace;
      PassesPrefix(s[1..], k - 1);
      PassesOne(s);
      assert s[..k] == [s[0]] + s[1..][..k - 1];
      NonSpaceConcat([s[0]], s[1..][..k - 1]);
      assert s[1..][k - 1..] == s[k..];
      ConcatAssociates(NonSpace([s[0]]), NonSpace(s[1..][..k - 1]), Ink(s[k..]));
    }
  }

  lemma PassesOne(s: string)
    requires s != "" && !OpensAt(s, 0)
    ensures Ink(s) == NonSpace([s[0]]) + Ink(s[1..])
  {
    hide OpensAt, NonSpace;
    NonSpaceConcat([s[0]], Visible(s[1..]));
  }

  lemma NotAtSpace(s: string, i: nat, lit: string)
    requires i < |s| && "[" <= lit
    ensures Lit(s, i, lit).Some? ==> s[i] == '[' && !IsSpace(s[i])
  {
    if Lit(s, i, lit).Some? {
      assert Lower(s[i + 0]) == lit[0];
    }
  }

  lemma PassesSpace(s: string, k: nat)
    requires k <= |s| && Blank(s[..k])
    ensures Ink(s) == Ink(s[k..])
  {
    forall i: nat | i < k
      ensures !OpensAt(s, i)
    {
      assert IsSpace(s[..k][i]);
      NotAtSpace(s, i, OPEN);
    }
    PassesPrefix(s, k);
    NonSpaceBlank(s[..k]);
  }

  lemma FindIs(s: string, i: nat, lit: string, c: nat)
    requires i <= c <= |s| && Lit(s, c, lit).Some?
    requires forall k: nat :: i <= k < c ==> Lit(s, k, lit).None?
    ensures Find(s, i, lit) == Some(c)
  {
  }

  lemma {:induction false} HeldSuffixFinds(s: string, needle: string, n: nat, k: nat)
    requires n <= |s| && n < |needle| && |s| - n <= k < |s|
    requires Lit(s, k, needle[..|s| - k]).Some?
    ensures HeldSuffix(s, needle, n).Some?
  {
    if k != |s| - n {
      HeldSuffixFinds(s, needle, n - 1, k);
    }
  }

  // One turn of `feed`.

  lemma NoCall(s: string, i: nat)
    requires BracketsOnly(s)
    ensures CallTail(s, i).None?
  {
    hide Name, SkipSpace;
    if i >= |s| {
      assert Lit(s, i, "[call").None?;
    }
  }

  lemma NoLit(s: string, i: nat, lit: string)
    requires BracketsOnly(s) && ("{" <= lit || "<" <= lit)
    ensures Lit(s, i, lit).None?
  {
    if i < |s| {
      assert Lower(s[i + 0]) != lit[0];
    }
  }

  lemma NoAngle(s: string, i: nat)
    requires BracketsOnly(s)
    ensures AngleTail(s, i).None?
  {
    hide Lit, Name, SkipSpace;
    NoLit(s, i, "<tool_call>");
  }

  lemma NoJson(s: string, i: nat)
    requires BracketsOnly(s)
    ensures JsonTail(s, i).None?
  {
    hide Lit, SkipSpace;
    NoLit(s, i, "{");
  }

  lemma NoOtherHeads(decode: Decoder, buf: string, eof: bool)
    requires BracketsOnly(buf)
    ensures Leading(decode, buf, eof) == Bracket(buf, eof)
    ensures JsonHead(buf).None?
  {
    hide Bracket, CallTail, AngleTail, JsonTail, Partitions;
    NoCall(buf, SkipSpace(buf, 0));
    NoAngle(buf, SkipSpace(buf, 0));
    NoJson(buf, SkipSpace(buf, 0));
  }

  lemma LitShift(s: string, k: nat, i: nat, lit: string)
    requires k <= |s|
    ensures Lit(s[k..], i, lit).Some? <==> Lit(s, k + i, lit).Some?
  {
    if Lit(s[k..], i, lit).Some? {
      forall j | 0 <= j < |lit|
        ensures Lower(s[k + i + j]) == lit[j]
      {
        assert s[k + i + j] == s[k..][i + j];
      }
    }
  }

  lemma LitWithin(buf: string, ahead: string, i: nat, lit: string)
    requires i + |lit| <= |buf|
    ensures Lit(buf, i, lit).Some? <==> Lit(buf + ahead, i, lit).Some?
  {
  }

  /** The reference skips from an opener to behind its first closer. */
  lemma SkipsSpan(s: string, k: nat, c: nat)
    requires k + |OPEN| <= c && OpensAt(s, k) && Lit(s, c, CLOSE).Some?
    requires forall j: nat :: k + |OPEN| <= j < c ==> Lit(s, j, CLOSE).None?
    ensures Ink(s[k..]) == Ink(s[c + |CLOSE|..])
  {
    hide Lit;
    LitShift(s, k, 0, OPEN);
    LitShift(s, k, c - k, CLOSE);
    forall j: nat | |OPEN| <= j < c - k
      ensures Lit(s[k..], j, CLOSE).None?
    {
      LitShift(s, k, j, CLOSE);
    }
    FindIs(s[k..], |OPEN|, CLOSE, c - k);
    assert s[k..][c - k + |CLOSE|..] == s[c + |CLOSE|..];
  }

  /** A complete span at the front of the buffer: blank text up to the opener at `k`, the first
      closer at `c`, and blank text from there up to the `e` at which the filter goes on. */
  ghost predicate SpanAt(buf: string, k: nat, c: nat, e: nat) {
    && k + |OPEN| <= c && c + |CLOSE| <= e <= |buf|
    && Blank(buf[..k]) && OpensAt(buf, k)
    && Lit(buf, c, CLOSE).Some?
    && (forall j: nat :: k + |OPEN| <= j < c ==> Lit(buf, j, CLOSE).None?)
    && Blank(buf[c + |CLOSE|..e])
  }

  lemma HeadAt(buf: string) returns (k: nat)
    requires BracketHead(buf).Some?
    ensures k + |OPEN| <= BracketHead(buf).value <= |buf|
    ensures Blank(buf[..k]) && OpensAt(buf, k)
    ensures forall j: nat :: k + |OPEN| <= j < BracketHead(buf).value ==> Lit(buf, j, CLOSE).None?
  {
    k := SkipSpace(buf, 0);
    SkipSpaceStops(buf, 0);
    SkipSpaceStops(buf, k + |OPEN|);
    forall j: nat | k + |OPEN| <= j < BracketHead(buf).value
      ensures Lit(buf, j, CLOSE).None?
    {
      NotAtSpace(buf, j, CLOSE);
    }
  }

  lemma CloseAt(s: string)
    requires Lit(s, 0, CLOSE).Some?
    ensures BracketClose(s).Some? && |CLOSE| <= BracketClose(s).value
    ensures Blank(s[|CLOSE|..BracketClose(s).value])
  {
    NotAtSpace(s, 0, CLOSE);
    assert SkipSpace(s, 0) == 0;
    SkipSpaceStops(s, |CLOSE|);
  }

  lemma BracketIs(buf: string, eof: bool, h: nat, close: nat)
    requires BracketHead(buf) == Some(h) && Find(buf[h..], 0, CLOSE) == Some(close)
    requires BracketClose(buf[h..][close..]).Some?
    ensures Bracket(buf, eof) ==
            CutThrough(buf, h + close + BracketClose(buf[h..][close..]).value, BracketSpan)
  {
    hide BracketHead, BracketClose, Find, CutThrough, Partitions;
  }

  lemma SpanFound(buf: string, eof: bool) returns (k: nat, c: nat, e: nat)
    requires BracketHead(buf).Some? && Find(buf[BracketHead(buf).value..], 0, CLOSE).Some?
    ensures Bracket(buf, eof).Stripped? && Bracket(buf, eof).back == []
    ensures SpanAt(buf, k, c, e) && Bracket(buf, eof).rest == buf[e..]
  {
    hide Bracket, BracketHead, BracketClose, Lit, Find, CutThrough, Partitions, SkipBreaks, Blank;
    k := HeadAt(buf);
    var h := BracketHead(buf).value;
    var rest := buf[h..];
    var close := Find(rest, 0, CLOSE).value;
    c := h + close;
    LitShift(rest, close, 0, CLOSE);
    CloseAt(rest[close..]);
    var closed := BracketClose(rest[close..]).value;
    var n := SkipBreaks(buf[c + closed..], 0);
    e := c + closed + n;
    assert rest[close..] == buf[c..];
    BracketIs(buf, eof, h, close);
    LitShift(buf, h, close, CLOSE);
    forall j: nat | h <= j < c
      ensures Lit(buf, j, CLOSE).None?
    {
      LitShift(buf, h, j - h, CLOSE);
    }
    BlankGap(buf, c, closed, n);
  }

  lemma BlankGap(buf: string, c: nat, closed: nat, n: nat)
    requires |CLOSE| <= closed && c + closed + n <= |buf|
    requires Blank(buf[c..][|CLOSE|..closed])
    requires n == SkipBreaks(buf[c + closed..], 0)
    ensures Blank(buf[c + |CLOSE|..c + closed + n])
  {
    forall j | c + |CLOSE| <= j < c + closed + n
      ensures IsSpace(buf[j])
    {
      if j < c + closed {
        assert buf[j] == buf[c..][|CLOSE|..closed][j - c - |CLOSE|];
      } else {
        assert IsLineBreak(buf[c + closed..][j - c - closed]);
      }
    }
  }

  /** Cutting a complete span does not change what the reference shows. */
  lemma SpanCut(buf: string, k: nat, c: nat, e: nat, ahead: string)
    requires SpanAt(buf, k, c, e)
    ensures Ink(buf + ahead) == Ink(buf[e..] + ahead)
  {
    hide Ink, Lit;
    var s := buf + ahead;
    LitWithin(buf, ahead, k, OPEN);
    LitWithin(buf, ahead, c, CLOSE);
    forall j: nat | k + |OPEN| <= j < c
      ensures Lit(s, j, CLOSE).None?
    {
      LitWithin(buf, ahead, j, CLOSE);
    }
    assert s[..k] == buf[..k];
    PassesSpace(s, k);
    SkipsSpan(s, k, c);
    var behind := s[c + |CLOSE|..];
    assert behind[..e - c - |CLOSE|] == buf[c + |CLOSE|..e];
    PassesSpace(behind, e - c - |CLOSE|);
    assert behind[e - c - |CLOSE|..] == buf[e..] + ahead;
  }

  // Openers and markers.

  lemma OpenerIsMarker(buf: string, i: nat)
    requires OpensAt(buf, i)
    ensures MarkerAt(buf, i)
  {
    hide JsonMarkerAt, AngleTail, CallTail;
    assert Lower(buf[i + 0]) == OPEN[0];
    assert Lower(buf[i + 1]) == OPEN[1];
    assert SkipSpace(buf, i + 1) == i + 1;
    forall j | 0 <= j < |"tool_call]"|
      ensures Lower(buf[i + 1 + j]) == "tool_call]"[j]
    {
      assert Lower(buf[i + (1 + j)]) == OPEN[1 + j];
    }
  }

  /** In such a text every marker starts with a bracket and is as long as an opener at least. */
  lemma MarkerIsBracket(buf: string, i: nat)
    requires BracketsOnly(buf) && i < |buf| && MarkerAt(buf, i)
    ensures buf[i] == '[' && i + |OPEN| <= |buf|
  {
    hide JsonTail, AngleTail, CallTail, SkipSpace;
    NoJson(buf, i);
    NoAngle(buf, i);
    NoCall(buf, i);
    NotAtSpace(buf, i, "[");
  }

  /** An opener that a buffer begins but does not complete. */
  lemma OpenerBegun(buf: string, ahead: string, i: nat)
    requires i < |buf| && OpensAt(buf + ahead, i) && !OpensAt(buf, i)
    ensures |buf| - i < |OPEN| && Lit(buf, i, OPEN[..|buf| - i]).Some?
    ensures forall j: nat :: i < j < |buf| ==> buf[j] != '['
  {
    forall j: nat | j < |OPEN| && i + j < |buf|
      ensures Lower(buf[i + j]) == OPEN[j]
    {
      assert Lower((buf + ahead)[i + j]) == OPEN[j];
    }
    forall j: nat | i < j < |buf|
      ensures buf[j] != '['
    {
      if j - i < |OPEN| {
        assert Lower(buf[i + (j - i)]) == OPEN[j - i];
      }
    }
  }

  lemma HeldAtBracket(buf: string, needle: string, r: nat)
    requires "[" <= needle && r < |buf| && |buf| - r < |needle|
    requires Lit(buf, r, needle[..|buf| - r]).Some?
    ensures buf[r] == '['
  {
    NotAtSpace(buf, r, needle[..|buf| - r]);
  }

  lemma {:induction false} NoHeldSuffix(buf: string, needle: string, n: nat)
    requires n <= |buf| && n < |needle| && BracketsOnly(buf) && "<" <= needle
    ensures HeldSuffix(buf, needle, n).None?
  {
    if n > 0 {
      NoLit(buf, |buf| - n, needle[..n]);
      NoHeldSuffix(buf, needle, n - 1);
    }
  }

  /** Without a marker in the buffer, the split holds back every opener that the buffer begins. */
  lemma SplitHoldsOpeners(buf: string, ahead: string)
    requires buf != "" && BracketsOnly(buf) && FirstMarker(buf, 0).None?
    ensures var split := PartialMarker(buf);
            && (split.Some? ==> |buf| - split.value < |OPEN|)
            && forall i: nat :: i < (if split.Some? then split.value else |buf|) ==>
                 !OpensAt(buf + ahead, i)
  {
    PartialIsSuffix(buf);
    var split := PartialMarker(buf);
    forall i: nat | i < (if split.Some? then split.value else |buf|)
      ensures !OpensAt(buf + ahead, i)
    {
      if OpensAt(buf, i) {
        OpenerIsMarker(buf, i);
      }
      if OpensAt(buf + ahead, i) {
        OpenerBegun(buf, ahead, i);
        HeldSuffixFinds(buf, OPEN, Min(|buf|, 10), i);
      }
    }
  }

  lemma NoPartialJson(buf: string)
    requires BracketsOnly(buf)
    ensures PartialJson(buf).None?
  {
    hide Lit;
    var start := RFind(buf, |buf|, "{");
    if start.Some? {
      NoLit(buf, start.value, "{");
    }
  }

  lemma PartialCallIs(buf: string)
    requires BracketsOnly(buf)
    ensures PartialCall(buf) == HeldSuffix(buf, "[call ", Min(|buf|, 5))
  {
    hide Lit, HeldSuffix, CallTail, OpenCallTail;
    assert RFind(buf, |buf|, "[call").None?;
  }

  lemma NoPartialAngle(buf: string)
    requires BracketsOnly(buf)
    ensures PartialAngle(buf).None?
  {
    hide Lit, HeldSuffix, AngleTail, OpenAngleTail;
    NoHeldSuffix(buf, "<tool_call>", Min(|buf|, 10));
    var start := RFind(buf, |buf|, "<tool_call>");
    if start.Some? {
      NoLit(buf, start.value, "<tool_call>");
    }
  }

  lemma PartialBracketIs(buf: string)
    requires BracketsOnly(buf) && FirstMarker(buf, 0).None?
    ensures PartialBracket(buf) == HeldSuffix(buf, OPEN, Min(|buf|, 10))
  {
    hide Lit, HeldSuffix, BracketTail, FirstMarker, MarkerAt, Find;
    var start := RFind(buf, |buf|, OPEN);
    if start.Some? {
      assert OpensAt(buf, start.value);
      OpenerIsMarker(buf, start.value);
    }
  }

  /** The split is a held suffix of one of the two bracket needles. */
  lemma PartialIsSuffix(buf: string)
    requires buf != "" && BracketsOnly(buf) && FirstMarker(buf, 0).None?
    ensures var split := PartialMarker(buf);
            var call := HeldSuffix(buf, "[call ", Min(|buf|, 5));
            var open := HeldSuffix(buf, OPEN, Min(|buf|, 10));
            && split == (if call.Some? then call else open)
            && (split.Some? ==> buf[split.value] == '[' && |buf| - split.value < |OPEN|)
  {
    hide PartialJson, PartialCall, PartialAngle, PartialBracket, HeldSuffix, Lit, FirstMarker;
    NoPartialJson(buf);
    PartialCallIs(buf);
    NoPartialAngle(buf);
    PartialBracketIs(buf);
    var call := HeldSuffix(buf, "[call ", Min(|buf|, 5));
    var open := HeldSuffix(buf, OPEN, Min(|buf|, 10));
    if call.Some? {
      HeldAtBracket(buf, "[call ", call.value);
    } else if open.Some? {
      HeldAtBracket(buf, OPEN, open.value);
    }
  }

  // Runs of the filter.

  /** What the filter can hold between two chunks: a short partial opener, or an opener that is
      not closed yet. */
  ghost predicate Held(buf: string) {
    |buf| < |OPEN| || Bracket(buf, false).Hold?
  }

  lemma EmitInk(buf: string, k: nat, again: bool, ahead: string)
    requires k <= |buf| && (again ==> 0 < k)
    requires forall i: nat :: i < k ==> !OpensAt(buf + ahead, i)
    ensures var t := Emit(buf, k, again);
            Ink(buf + ahead) == ShownInk(t.front) + Ink(t.rest + ahead)
  {
    hide Ink, NonSpace, Shown, Join, OpensAt;
    PassesPrefix(buf + ahead, k);
    assert (buf + ahead)[..k] == buf[..k];
    assert (buf + ahead)[k..] == buf[k..] + ahead;
    if k > 0 {
      ShownInkKeep(buf[..k]);
    } else {
      assert NonSpace("") == "";
      ShownInkNone();
    }
  }

  /** What `feed` does behind the heads, when the buffer opens no span. */
  lemma FeedPlainInk(decode: Decoder, buf: string, ahead: string)
    requires buf != "" && BracketsOnly(buf) && BracketHead(buf).None?
    ensures var t := FeedPlain(decode, buf);
            && Ink(buf + ahead) == ShownInk(t.front) + Ink(t.rest + ahead)
            && (!t.again ==> Held(t.rest))
  {
    hide Ink, ShownInk, Lit, PartialMarker, FirstMarker, BracketHead, BracketTail, JsonHead, Emit, MarkerAt;
    NoJson(buf, SkipSpace(buf, 0));
    assert JsonHead(buf).None? by { JsonHeadNone(buf); }
    var m := FirstMarker(buf, 0);
    if m.None? {
      SplitHoldsOpeners(buf, ahead);
      var split := PartialMarker(buf);
      EmitInk(buf, if split.Some? then split.value else |buf|, false, ahead);
      EmitRest(buf, if split.Some? then split.value else |buf|, false);
    } else {
      MarkerIsBracket(buf, m.value);
      var k := if m.value > 0 then m.value else 1;
      NoOpenerBefore(buf, ahead, m.value, k);
      EmitInk(buf, k, true, ahead);
      EmitRest(buf, k, true);
    }
  }

  lemma JsonHeadNone(buf: string)
    requires BracketsOnly(buf)
    ensures JsonHead(buf).None?
  {
    hide JsonTail;
    NoJson(buf, SkipSpace(buf, 0));
  }

  lemma EmitRest(buf: string, k: nat, again: bool)
    requires k <= |buf| && (again ==> 0 < k)
    ensures Emit(buf, k, again).rest == buf[k..] && Emit(buf, k, again).again == again
  {
  }

  lemma NoOpenerBefore(buf: string, ahead: string, m: nat, k: nat)
    requires BracketHead(buf).None? && FirstMarker(buf, 0) == Some(m)
    requires buf[m] == '[' && m + |OPEN| <= |buf|
    requires k == (if m > 0 then m else 1)
    ensures forall i: nat :: i < k ==> !OpensAt(buf + ahead, i)
  {
    hide MarkerAt, Lit;
    forall i: nat | i < k
      ensures !OpensAt(buf + ahead, i)
    {
      if OpensAt(buf, i) {
        if i < m {
          OpenerIsMarker(buf, i);
        } else {
          HeadAtZero(buf);
        }
      }
      if OpensAt(buf + ahead, i) {
        OpenerBegun(buf, ahead, i);
      }
    }
  }

  lemma HeadAtZero(buf: string)
    requires OpensAt(buf, 0)
    ensures BracketHead(buf).Some?
  {
    NotAtSpace(buf, 0, OPEN);
    assert SkipSpace(buf, 0) == 0;
  }

  lemma FeedTurnInk(decode: Decoder, buf: string, ahead: string)
    requires buf != "" && BracketsOnly(buf)
    ensures var t := FeedTurn(decode, buf);
            && Ink(buf + ahead) == ShownInk(t.front) + Ink(t.rest + ahead)
            && (!t.again ==> Held(t.rest))
  {
    hide Ink, ShownInk, Leading, FeedPlain, Bracket, BracketHead, SpanAt, Find;
    NoOtherHeads(decode, buf, false);
    BracketCases(buf, false);
    ShownInkNone();
    if BracketHead(buf).None? {
      FeedPlainInk(decode, buf, ahead);
    } else if Find(buf[BracketHead(buf).value..], 0, CLOSE).Some? {
      var k, c, e := SpanFound(buf, false);
      SpanCut(buf, k, c, e, ahead);
      assert ShownInk(Bracket(buf, false).front) == ShownInk([]) by { ShownInkEmpty(Bracket(buf, false).front); }
    }
  }

  lemma ShownInkEmpty(segs: seq<Segment>)
    requires Shown(segs) == []
    ensures ShownInk(segs) == ShownInk([])
  {
  }

  lemma BracketCases(buf: string, eof: bool)
    ensures BracketHead(buf).None? <==> Bracket(buf, eof).NoMatch?
    ensures BracketHead(buf).Some? && Find(buf[BracketHead(buf).value..], 0, CLOSE).None? ==>
              Bracket(buf, eof) == if eof then CutAll(buf) else Hold
  {
    hide BracketHead, Find, CutThrough, BracketClose;
  }

  /** An opener that is never closed hides everything behind it from the reference too. */
  lemma NeverClosed(buf: string)
    requires BracketHead(buf).Some? && Find(buf[BracketHead(buf).value..], 0, CLOSE).None?
    ensures Ink(buf) == ""
  {
    hide BracketHead, Lit;
    var k := HeadAt(buf);
    var h := BracketHead(buf).value;
    forall j: nat | |OPEN| <= j <= |buf| - k
      ensures Lit(buf[k..], j, CLOSE).None?
    {
      LitShift(buf, k, j, CLOSE);
      if k + j >= h {
        LitShift(buf, h, k + j - h, CLOSE);
      }
    }
    LitShift(buf, k, 0, OPEN);
    assert Visible(buf[k..]) == "";
    assert NonSpace("") == "";
    PassesSpace(buf, k);
  }

  lemma FlushTurnInk(decode: Decoder, buf: string)
    requires buf != "" && BracketsOnly(buf) && Held(buf)
    ensures var t := FlushTurn(decode, buf);
            t.rest == "" && t.back == [] && Ink(buf) == ShownInk(t.front)
  {
    hide Ink, ShownInk, Leading, BracketHead, Find, SpanAt, MarkerAt, FirstMarker, JsonHead, Lit, Bracket;
    NoOtherHeads(decode, buf, true);
    BracketCases(buf, true);
    BracketCases(buf, false);
    ShownInkNone();
    if BracketHead(buf).Some? {
      if Find(buf[BracketHead(buf).value..], 0, CLOSE).Some? {
        var k, c, e := SpanFound(buf, false);
        ShortBuffer(buf);
      } else {
        NeverClosed(buf);
        ShownInkEmpty(CutAll(buf).front);
      }
    } else {
      var m := FirstMarker(buf, 0);
      if m.Some? {
        MarkerIsBracket(buf, m.value);
      } else {
        assert buf + "" == buf;
        EmitInk(buf, |buf|, false, "");
        InkNone();
      }
    }
  }

  lemma InkNone()
    ensures Ink("") == "" && "" + "" == ""
  {
  }

  lemma ShortBuffer(buf: string)
    ensures BracketHead(buf).Some? ==> |OPEN| <= |buf|
  {
  }

  lemma RestBracketsOnly(t: Turn, buf: string)
    requires Covers(t, buf) && t.back == [] && BracketsOnly(buf)
    ensures BracketsOnly(t.rest)
  {
    assert t.rest == buf[|Flat(t.front)|..|buf|];
    BracketsOnlySlice(buf, |Flat(t.front)|, |buf|);
  }

  lemma {:induction false} FeedLoopInk(decode: Decoder, buf: string, ahead: string)
    requires BracketsOnly(buf)
    ensures var r := FeedLoop(decode, buf);
            && Ink(buf + ahead) == ShownInk(r.segs) + Ink(r.rest + ahead)
            && Held(r.rest)
    decreases |buf|
  {
    hide Ink, ShownInk, FeedTurn, Covers, Held, BracketsOnly;
    if buf == "" {
      ShownInkNone();
      assert Held("") by { HeldNone(); }
    } else {
      var t := FeedTurn(decode, buf);
      FeedTurnInk(decode, buf, ahead);
      if t.again {
        RestBracketsOnly(t, buf);
        FeedLoopInk(decode, t.rest, ahead);
        var later := FeedLoop(decode, t.rest);
        ShownInkConcat(t.front, later.segs);
        ConcatAssociates(ShownInk(t.front), ShownInk(later.segs), Ink(later.rest + ahead));
      }
    }
  }

  lemma HeldNone()
    ensures Held("")
  {
  }

  lemma FeedInk(decode: Decoder, buf: string, chunk: string, ahead: string)
    requires Held(buf) && BracketsOnly((buf + chunk) + ahead)
    ensures var r := Feed(decode, buf, chunk);
            && Ink((buf + chunk) + ahead) == ShownInk(r.segs) + Ink(r.rest + ahead)
            && Held(r.rest) && BracketsOnly(r.rest + ahead)
  {
    hide Ink, ShownInk, FeedLoop, Held, BracketsOnly, Covers;
    var all := (buf + chunk) + ahead;
    var r := Feed(decode, buf, chunk);
    if chunk == "" {
      ShownInkNone();
      assert buf + chunk == buf;
    } else {
      assert all[0..|buf + chunk|] == buf + chunk;
      BracketsOnlySlice(all, 0, |buf + chunk|);
      FeedLoopInk(decode, buf + chunk, ahead);
    }
    var cut := |Flat(r.segs)|;
    assert r.rest + ahead == all[cut..|all|];
    BracketsOnlySlice(all, cut, |all|);
  }

  lemma FlushInk(decode: Decoder, buf: string)
    requires Held(buf) && BracketsOnly(buf)
    ensures ShownInk(Flush(decode, buf)) == Ink(buf)
  {
    hide Ink, ShownInk, FlushTurn, Held, BracketsOnly, Covers, Flat;
    if buf == "" {
      InkNone();
      ShownInkNone();
    } else {
      FlushTurnInk(decode, buf);
      var t := FlushTurn(decode, buf);
      assert t.front + [] + [] == t.front;
    }
  }

  lemma {:induction false} StreamInk(decode: Decoder, buf: string, chunks: seq<string>)
    requires Held(buf) && BracketsOnly(buf + Join(chunks))
    ensures ShownInk(Stream(decode, buf, chunks)) == Ink(buf + Join(chunks))
    decreases |chunks|
  {
    hide Ink, ShownInk, Flush, Feed, Held, BracketsOnly, Flat;
    if chunks == [] {
      assert buf + "" == buf;
      FlushInk(decode, buf);
    } else {
      var later := Join(chunks[1..]);
      assert buf + Join(chunks) == (buf + chunks[0]) + later;
      FeedInk(decode, buf, chunks[0], later);
      var r := Feed(decode, buf, chunks[0]);
      StreamInk(decode, r.rest, chunks[1..]);
      ShownInkConcat(r.segs, Stream(decode, r.rest, chunks[1..]));
    }
  }

  /** Any two ways of cutting the same text show the same ink, namely that of the reference. */
  lemma {:induction false} ChunkIndependence(decode: Decoder, chunks: seq<string>, other: seq<string>)
    requires Join(chunks) == Join(other) && BracketsOnly(Join(chunks))
    ensures NonSpace(Join(Shown(Stream(decode, "", chunks)))) == NonSpace(Visible(Join(chunks)))
    ensures NonSpace(Join(Shown(Stream(decode, "", chunks)))) == NonSpace(Join(Shown(Stream(decode, "", other))))
  {
    hide Stream, Shown, Visible, NonSpace, BracketsOnly, Held;
    HeldNone();
    assert "" + Join(chunks) == Join(chunks);
    assert "" + Join(other) == Join(other);
    StreamInk(decode, "", chunks);
    StreamInk(decode, "", other);
  }
}

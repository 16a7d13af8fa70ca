/** How an inline tool call that arrives in pieces passes the visible-text filter (koraku/llm/sanitize.py): for every
    way of cutting it, it is hidden, unless one of the cuts lies at one of a few places, and then its beginning is
    shown. */
module FilterHiding {
  import opened Wrappers
  import opened Text
  import opened Json
  import opened ToolMarkers
  import opened VisibleFilter
  import opened FilterChunking
  import opened FilterCalls

  /** The filter keeps the whole buffer to itself. */
  ghost predicate Holds(decode: Decoder, q: string) {
    FeedLoop(decode, q) == Run([], q)
  }

  /** The filter shows the beginning of the buffer. */
  ghost predicate Shows(decode: Decoder, q: string) {
    Begins(Shown(FeedLoop(decode, q).segs), q)
  }

  /** What is shown begins with a beginning of `text`. */
  predicate Begins(shown: seq<string>, text: string) {
    shown != [] && shown[0] != "" && shown[0] <= text
  }

  lemma JoinOne(pre: seq<string>, k: nat)
    requires k < |pre|
    ensures Join(pre[..k + 1]) == pre[0] + Join(pre[1..][..k])
    ensures Join(pre) == pre[0] + Join(pre[1..])
  {
    assert pre[..k + 1][1..] == pre[1..][..k];
  }

  lemma HeldFirst(decode: Decoder, held: string, chunk: string, later: seq<string>)
    requires Holds(decode, held + chunk)
    ensures Stream(decode, held, [chunk] + later) == Stream(decode, held + chunk, later)
  {
    hide FeedLoop, Flush, Flat;
    assert held + "" == held && ([chunk] + later)[1..] == later;
    assert Feed(decode, held, chunk) == Run([], held + chunk);
  }

  /** While the filter holds everything, the chunks add up in its buffer. */
  lemma {:induction false} HeldChunks(decode: Decoder, held: string, pre: seq<string>, later: seq<string>)
    requires forall k :: 0 < k <= |pre| ==> Holds(decode, held + Join(pre[..k]))
    ensures Stream(decode, held, pre + later) == Stream(decode, held + Join(pre), later)
    decreases |pre|
  {
    hide *;
    JoinNone();
    if pre == [] {
      assert pre + later == later && held + "" == held;
    } else {
      var more := held + pre[0];
      FirstJoined(pre);
      assert Holds(decode, held + Join(pre[..1]));
      forall k | 0 < k <= |pre[1..]|
        ensures Holds(decode, more + Join(pre[1..][..k]))
      {
        JoinOne(pre, k);
        ConcatAssociates(held, pre[0], Join(pre[1..][..k]));
        assert Holds(decode, held + Join(pre[..k + 1]));
      }
      HeldChunks(decode, more, pre[1..], later);
      JoinOne(pre, 0);
      ConcatAssociates(held, pre[0], Join(pre[1..]));
      assert pre + later == [pre[0]] + (pre[1..] + later);
      HeldFirst(decode, held, pre[0], pre[1..] + later);
    }
  }

  lemma JoinNone()
    ensures Join([]) == ""
  {
  }

  lemma FirstJoined(pre: seq<string>)
    requires pre != []
    ensures Join(pre[..1]) == pre[0]
  {
    assert pre[..1][1..] == [];
  }

  /** The first chunk at which the filter does not hold everything shows the beginning of the text. */
  lemma {:induction false} ShownChunks(decode: Decoder, held: string, pre: seq<string>, later: seq<string>, at: nat)
    requires Holds(decode, held) && 0 < at <= |pre| && Shows(decode, held + Join(pre[..at]))
    requires forall k :: 0 < k <= |pre| ==>
               Holds(decode, held + Join(pre[..k])) || Shows(decode, held + Join(pre[..k]))
    ensures Begins(Shown(Stream(decode, held, pre + later)), held + Join(pre))
    decreases |pre|
  {
    hide *;
    var more := held + pre[0];
    FirstJoined(pre);
    JoinOne(pre, 0);
    ConcatAssociates(held, pre[0], Join(pre[1..]));
    assert Holds(decode, held + Join(pre[..1])) || Shows(decode, held + Join(pre[..1]));
    assert pre + later == [pre[0]] + (pre[1..] + later);
    HoldsIs(decode, more);
    if Holds(decode, more) {
      forall k | 0 < k <= |pre[1..]|
        ensures more + Join(pre[1..][..k]) == held + Join(pre[..k + 1])
      {
        JoinOne(pre, k);
        ConcatAssociates(held, pre[0], Join(pre[1..][..k]));
      }
      assert at != 1;
      ShownChunks(decode, more, pre[1..], later, at - 1);
      HeldFirst(decode, held, pre[0], pre[1..] + later);
    } else {
      ShownFirst(decode, held, pre[0], pre[1..] + later);
      BeginsLonger(Shown(Stream(decode, held, pre + later)), more, held + Join(pre));
    }
  }

  lemma ShownFirst(decode: Decoder, held: string, chunk: string, later: seq<string>)
    requires Holds(decode, held) && Shows(decode, held + chunk)
    ensures Begins(Shown(Stream(decode, held, [chunk] + later)), held + chunk)
  {
    hide FeedLoop, Flush, Flat, Shown, Stream;
    StreamNext(decode, held, chunk, later);
    ShownNone();
    assert held + "" == held;
  }

  lemma BeginsLonger(shown: seq<string>, text: string, longer: string)
    requires Begins(shown, text) && text <= longer
    ensures Begins(shown, longer)
  {
  }

  lemma HoldsIs(decode: Decoder, q: string)
    ensures Holds(decode, q) <==> FeedLoop(decode, q) == Run([], q)
    ensures Holds(decode, q) ==> !Shows(decode, q)
    ensures Shows(decode, q) <==> Begins(Shown(FeedLoop(decode, q).segs), q)
  {
    hide FeedLoop;
  }

  /** A text of which `leaks` says where a cut shows its beginning, while at every other place it is held; the whole of
      it is treated as if `behind` stood in its place. */
  lemma CutsDecide(decode: Decoder, text: string, ahead: string, behind: string, pre: seq<string>, chunk: string,
                   later: seq<string>, leaks: nat -> bool)
    requires Join(pre) + chunk == text + ahead && |Join(pre)| < |text|
    requires forall n: nat :: 0 < n < |text| ==>
               if leaks(n) then Shows(decode, text[..n]) else Holds(decode, text[..n])
    requires !leaks(0) && SameRun(FeedLoop(decode, text + ahead), FeedLoop(decode, behind))
    ensures var shown := Shown(Stream(decode, "", pre + [chunk] + later));
            if exists k :: 0 < k <= |pre| && leaks(|Join(pre[..k])|) then Begins(shown, text)
            else shown == Shown(Stream(decode, "", [behind] + later))
  {
    hide *;
    ConcatAssociates(pre, [chunk], later);
    forall k | 0 < k <= |pre|
      ensures |Join(pre[..k])| < |text| && "" + Join(pre[..k]) == text[..|Join(pre[..k])|]
    {
      JoinPrefix(pre, k);
      assert (text + ahead)[..|Join(pre[..k])|] == Join(pre[..k]);
    }
    HoldsNothing(decode);
    assert text[..0] == "";
    if at: nat :| 0 < at <= |pre| && leaks(|Join(pre[..at])|) {
      ShownChunks(decode, "", pre, [chunk] + later, at);
      assert "" + Join(pre) <= text + ahead;
      BeginsLonger(Shown(Stream(decode, "", pre + ([chunk] + later))), "" + Join(pre), text);
    } else {
      HeldChunks(decode, "", pre, [chunk] + later);
      assert "" + Join(pre) == Join(pre);
      assert chunk != "" by { assert |Join(pre) + chunk| == |text + ahead|; }
      StreamsAlike(decode, Join(pre), chunk, behind, later);
    }
  }

  lemma HoldsNothing(decode: Decoder)
    ensures Holds(decode, "")
  {
  }

  lemma JoinPrefix(pre: seq<string>, k: nat)
    requires k <= |pre|
    ensures Join(pre[..k]) <= Join(pre)
  {
    hide Join;
    JoinConcat(pre[..k], pre[k..]);
    assert pre == pre[..k] + pre[k..];
  }

  // Texts without a marker.

  /** No expression of a marker begins inside `q`, other than a call or angle expression that is not whole. */
  lemma NoMarker(q: string)
    requires forall i: nat :: i < |q| ==> AngleTail(q, i).None? && CallTail(q, i).None? && !BracketMarkerAt(q, i)
    requires forall i: nat :: i < |q| ==> JsonTail(q, i).None?
    ensures FirstMarker(q, 0).None?
  {
    hide AngleTail, CallTail, BracketMarkerAt, JsonTail;
  }

  /** Behind the heads and without a marker, what the partial markers say decides. */
  lemma PlainTurn(decode: Decoder, q: string)
    requires q != "" && Leading(decode, q, false).NoMatch? && FirstMarker(q, 0).None?
    ensures PartialMarker(q) == Some(0) ==> Holds(decode, q)
    ensures PartialMarker(q).None? ==> Shows(decode, q)
    ensures PartialMarker(q).Some? && PartialMarker(q).value > 0 ==> Shows(decode, q)
  {
    hide Leading, FirstMarker, PartialMarker, JsonHead, IsToolObject;
    var split := PartialMarker(q);
    var k := if split.Some? then split.value else |q|;
    var t := FeedTurn(decode, q);
    assert q[..0] == "" && q[0..] == q;
    FeedLoopShown(decode, q);
    if k > 0 {
      ShownOne(Keep(q[..k]));
      ShownNone();
    }
  }

  // What the inline forms are made of.

  /** A JSON object as `raw_decode` reads it: it ends where it ends whatever follows, and no beginning of it decodes. */
  ghost predicate IsObject(decode: Decoder, value: string) {
    && value != "" && value[0] == '{'
    && (forall n: nat :: n < |value| ==> decode(value[..n]).None?)
    && (forall t: string :: decode(value + t).Some? && decode(value + t).value.end == |value|)
  }

  predicate IsName(name: string) {
    name != "" && IsLetter(name[0]) && forall k :: 0 < k < |name| ==> IsWord(name[k])
  }

  lemma WordsAreNoSpace(c: char)
    ensures IsLetter(c) || IsWord(c) || c in {']', ':', '{', '[', '"'} ==> !IsSpace(c)
    ensures c in {']', ':', '{', '[', '"'} ==> !IsWord(c)
  {
  }

  /** Behind a head, a value that is not whole yet is waited for. */
  lemma ObjectBegun(decode: Decoder, value: string, n: nat)
    requires IsObject(decode, value) && n < |value|
    ensures !HasValue(decode, value[..n]) && !NoValue(decode, value[..n])
    ensures LStrip(value[..n]) == value[..n]
  {
    var part := value[..n];
    assert decode(part).None?;
    assert SkipSpace(part, 0) == 0;
    if n > 0 {
      assert "{" <= part;
    }
  }

  /** No marker and no part of one begins with this character. */
  predicate Plain(c: char) {
    c != '[' && c != '<' && c != '{'
  }

  lemma NoTails(q: string, i: nat)
    requires i < |q| && Plain(q[i])
    ensures AngleTail(q, i).None? && CallTail(q, i).None? && !BracketMarkerAt(q, i) && JsonTail(q, i).None?
  {
    hide Lit, Name, SkipSpace;
    LeadChars(q, i, "[");
    LeadChars(q, i, "[call");
    LeadChars(q, i, "<tool_call>");
    LeadChars(q, i, "{");
  }

  /** A suffix that is held begins like the needle. */
  lemma HeldBegins(q: string, needle: string, n: nat)
    requires n <= |q| && n < |needle|
    ensures var r := HeldSuffix(q, needle, n);
            r.Some? ==> |q| - n <= r.value < |q| && Lower(q[r.value]) == needle[0]
                        && (r.value + 1 < |q| ==> Lower(q[r.value + 1]) == needle[1])
  {
    hide HeldSuffix, Lit;
    var r := HeldSuffix(q, needle, n);
    if r.Some? {
      LeadChars(q, r.value, needle[..|q| - r.value]);
    }
  }

  lemma RFindBegins(q: string, lit: string)
    requires lit != ""
    ensures var r := RFind(q, |q|, lit);
            r.Some? ==> r.value < |q| && Lower(q[r.value]) == lit[0]
                        && (|lit| > 1 && r.value + 1 < |q| ==> Lower(q[r.value + 1]) == lit[1])
  {
    hide RFind, Lit;
    var r := RFind(q, |q|, lit);
    if r.Some? {
      LeadChars(q, r.value, lit);
    }
  }

  /** A value that is whole is read as far as it goes. */
  lemma ObjectWhole(decode: Decoder, value: string, ahead: string)
    requires IsObject(decode, value)
    ensures HasValue(decode, value + ahead) && !NoValue(decode, value + ahead)
    ensures LStrip(value + ahead) == value + ahead
    ensures decode(value + ahead).Some? && (value + ahead)[decode(value + ahead).value.end..] == ahead
  {
    assert SkipSpace(value + ahead, 0) == 0;
    assert !IsSpace((value + ahead)[0]);
  }

  lemma LitIff(q: string, i: nat, lit: string)
    ensures Lit(q, i, lit).Some? <==> i + |lit| <= |q| && forall k :: 0 <= k < |lit| ==> Lower(q[i + k]) == lit[k]
  {
  }

  lemma LitFits(q: string, i: nat, lit: string)
    ensures Lit(q, i, lit).Some? ==> i + |lit| <= |q|
  {
  }
}

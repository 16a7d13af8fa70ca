/** `<tool_call> [Name] {...} </tool_call>` in pieces (koraku/llm/sanitize.py): the exact places at which a cut shows
    the beginning of the call. */
module AnglePieces {
  import opened Wrappers
  import opened Text
  import opened Json
  import opened ToolMarkers
  import opened VisibleFilter
  import opened FilterChunking
  import opened FilterCalls
  import opened FilterHiding

  /** A closing tag that opens at `f`, behind white space. */
  predicate TagAt(tail: string, f: nat) {
    && f + 11 < |tail| && Blank(tail[..f]) && Lit(tail, f, "</tool_call").Some?
    && Blank(tail[f + 11..|tail| - 1]) && tail[|tail| - 1] == '>'
  }

  /** The bracket opens at `a` and closes at `c`; the value lies at `d..e`, and its closing tag behind it. */
  ghost predicate IsAngleText(decode: Decoder, s: string, a: nat, c: nat, d: nat, e: nat) {
    && 11 <= a && a + 1 < c < d < e < |s|
    && Lit(s, 0, "<tool_call>").Some? && Blank(s[11..a])
    && s[a] == '[' && IsName(s[a + 1..c]) && s[c] == ']'
    && Blank(s[c + 1..d]) && IsObject(decode, s[d..e])
    && exists f: nat :: TagAt(s[e..], f)
  }

  /** A beginning of a name that might as well begin a call: the filter then takes the bracket for one. */
  predicate CallLike(part: string) {
    && (forall k :: 0 <= k < |part| && k < 4 ==> Lower(part[k]) == "call"[k])
    && (|part| > 4 ==> IsLetter(part[4]))
  }

  /** What is known of each character in front of the value. */
  predicate AngleChars(s: string, a: nat, c: nat, d: nat) {
    && 11 <= a && a + 1 < c < d < |s|
    && (forall k :: 0 <= k < 11 ==> Lower(s[k]) == "<tool_call>"[k])
    && (forall k :: 11 <= k < a ==> IsSpace(s[k])) && s[a] == '['
    && IsLetter(s[a + 1]) && (forall k :: a + 1 < k < c ==> IsWord(s[k])) && s[c] == ']'
    && (forall k :: c < k < d ==> IsSpace(s[k])) && s[d] == '{'
  }

  lemma AngleCharsAre(decode: Decoder, s: string, a: nat, c: nat, d: nat, e: nat) returns (f: nat)
    requires IsAngleText(decode, s, a, c, d, e)
    ensures AngleChars(s, a, c, d) && d < e < |s| && IsObject(decode, s[d..e]) && TagAt(s[e..], f)
  {
    forall k | 0 <= k < 11
      ensures Lower(s[k]) == "<tool_call>"[k]
    {
      assert Lower(s[0 + k]) == "<tool_call>"[k];
    }
    assert forall k :: 11 <= k < a ==> s[k] == s[11..a][k - 11];
    assert forall k :: a + 1 <= k < c ==> s[k] == s[a + 1..c][k - a - 1];
    assert forall k :: c < k < d ==> s[k] == s[c + 1..d][k - c - 1];
    assert s[d] == s[d..e][0];
    f :| TagAt(s[e..], f);
  }

  /** The expression of the angle form matches a beginning exactly when that holds the closing bracket. */
  lemma AngleTailIs(s: string, a: nat, c: nat, d: nat, n: nat)
    requires AngleChars(s, a, c, d) && n <= |s|
    ensures AngleTail(s[..n], 0) == if n > c then Some(Min(n, d)) else None
  {
    hide SkipSpace, SkipWord, IsSpace;
    var q := s[..n];
    if n >= 11 {
      assert Lit(q, 0, "<tool_call>") == Some(11);
      WordsAreNoSpace(s[a]);
      SkipSpaceIs(q, 11, Min(n, a));
      if n > a + 1 {
        WordsAreNoSpace(s[c]);
        SkipWordIs(q, a + 2, Min(n, c));
        if n > c {
          WordsAreNoSpace(s[d]);
          SkipSpaceIs(q, c + 1, Min(n, d));
        }
      }
    }
  }

  lemma AngleHeadIs(s: string, a: nat, c: nat, d: nat, n: nat)
    requires AngleChars(s, a, c, d) && 0 < n <= |s|
    ensures AngleHead(s[..n]) == if n > c then Some(Min(n, d)) else None
    ensures Min(n, d) == if n < d then n else d
  {
    hide AngleTail;
    assert Lower(s[0]) == '<';
    assert SkipSpace(s[..n], 0) == 0;
    AngleTailIs(s, a, c, d, n);
  }

  /** The characters in front of the closing bracket: the tag, white space, the bracket at `a`, and the name. */
  predicate AngleBegun(q: string, a: nat) {
    && q != "" && 11 <= a && q[0] == '<'
    && (forall i :: 0 < i < |q| && i != a ==> Plain(q[i]))
    && (forall i :: 0 <= i < |q| ==> q[i] != ']')
    && (a < |q| ==> q[a] == '[')
    && (forall i :: a < i < |q| ==> !IsSpace(q[i]))
  }

  lemma AngleIsBegun(s: string, a: nat, c: nat, d: nat, n: nat)
    requires AngleChars(s, a, c, d) && 0 < n <= c
    ensures AngleBegun(s[..n], a)
  {
    assert Lower(s[0]) == '<';
    forall i | 0 < i < n && i != a
      ensures Plain(s[i]) && s[i] != ']'
    {
      if i < 11 {
        assert Lower(s[i]) == "<tool_call>"[i];
      } else if i == a + 1 {
        assert IsLetter(s[i]);
      }
    }
    forall i | a < i < n
      ensures !IsSpace(s[i])
    {
      WordsAreNoSpace(s[i]);
    }
  }

  lemma AngleNoMarker(q: string, a: nat)
    requires AngleBegun(q, a) && AngleTail(q, 0).None?
    ensures FirstMarker(q, 0).None?
  {
    hide FirstMarker, AngleTail, CallTail, BracketMarkerAt, JsonTail, Plain;
    forall i: nat | i < |q|
      ensures AngleTail(q, i).None? && CallTail(q, i).None? && !BracketMarkerAt(q, i) && JsonTail(q, i).None?
    {
      if i == 0 {
        AngleIsNoOther(q, a);
      } else if i == a {
        BracketIsNoMarker(q, a);
      } else {
        NoTails(q, i);
      }
    }
    NoMarker(q);
  }

  lemma AngleIsNoOther(q: string, a: nat)
    requires AngleBegun(q, a)
    ensures CallTail(q, 0).None? && !BracketMarkerAt(q, 0) && JsonTail(q, 0).None?
    ensures BracketTail(q, 0).None? && SkipSpace(q, 0) == 0
  {
    hide Lit, Name, Plain;
    LeadChars(q, 0, "[tool_call]");
    LeadChars(q, 0, "[call");
    LeadChars(q, 0, "[");
    LeadChars(q, 0, "{");
    assert SkipSpace(q, 0) == 0;
  }

  lemma BracketIsNoMarker(q: string, a: nat)
    requires AngleBegun(q, a) && a < |q|
    ensures AngleTail(q, a).None? && CallTail(q, a).None? && !BracketMarkerAt(q, a) && JsonTail(q, a).None?
  {
    hide Name, Plain;
    LeadChars(q, a, "<tool_call>");
    LeadChars(q, a, "{");
    if Lit(q, a, "[call").Some? {
      assert SkipSpace(q, a + 5) == a + 5;
    }
    assert SkipSpace(q, a + 1) == a + 1;
    NoLitAt(q, a + 1, "tool_call]", 9);
  }

  lemma AngleNoHead(decode: Decoder, q: string, a: nat, eof: bool)
    requires AngleBegun(q, a) && AngleTail(q, 0).None?
    ensures Leading(decode, q, eof).NoMatch?
  {
    hide Bracket, Call, Angle, Partitions, CallTail, AngleTail, BracketTail, JsonTail, Plain;
    AngleIsNoOther(q, a);
    BracketCases(q, eof);
    CallNeedsHead(decode, q, eof);
    AngleNeedsHead(decode, q, eof);
  }

  /** The bracket is taken for a call at the places where the name so far might begin one. */
  lemma AnglePartialCall(s: string, a: nat, c: nat, d: nat, n: nat)
    requires AngleChars(s, a, c, d) && 0 < n <= c
    ensures PartialCall(s[..n]) == if a < n && CallLike(s[a + 1..n]) then Some(a) else None
  {
    hide CallTail, AngleTail, HeldSuffix, RFind, OpenCallTail, Plain, IsSpace, IsWord, IsLetter, CallLike;
    var q := s[..n];
    AngleIsBegun(s, a, c, d, n);
    HeldBegins(q, "[call ", Min(n, 5));
    RFindBegins(q, "[call");
    assert Lower('[') == '[';
    OnlyBracket(q, a);
    if a < n {
      BracketIsNoMarker(q, a);
      NameBegun(s, a, c, d, n);
      if Lit(q, a, "[call").Some? {
        assert RFind(q, |q|, "[call").Some?;
      }
    }
  }

  lemma OnlyBracket(q: string, a: nat)
    requires AngleBegun(q, a)
    ensures forall i :: 0 <= i < |q| && Lower(q[i]) == '[' ==> i == a
    ensures forall i :: 0 <= i < |q| && Lower(q[i]) == '<' ==> i == 0
    ensures forall i :: 0 <= i < |q| ==> Lower(q[i]) != '{'
  {
  }

  lemma NameBegun(s: string, a: nat, c: nat, d: nat, n: nat)
    requires AngleChars(s, a, c, d) && a < n <= c
    ensures var q := s[..n];
            && (HeldSuffix(q, "[call ", 5).Some? <==> n - a <= 5 && CallLike(s[a + 1..n]))
            && (n - a > 5 ==>
                  (CallLike(s[a + 1..n]) <==> Lit(q, a, "[call").Some? && OpenCallTail(q, a)))
            && (n - a <= 5 && Lit(q, a, "[call").Some? ==> CallLike(s[a + 1..n]))
  {
    hide HeldSuffix, CallLike, OpenCallTail, Lit, AngleChars, AngleBegun;
    AngleFits(s, a, c, d);
    var q := s[..n];
    var held := HeldSuffix(q, "[call ", 5);
    if held.Some? {
      AngleIsBegun(s, a, c, d, n);
      HeldBegins(q, "[call ", 5);
      OnlyBracket(q, a);
    }
    if n - a <= 5 {
      ShortName(s, a, c, d, n);
      if CallLike(s[a + 1..n]) {
        HeldSuffixFinds(q, "[call ", 5, a);
      }
      LitFits(q, a, "[call");
      assert "[call "[..5] == "[call";
    } else {
      LongName(s, a, c, d, n);
    }
  }

  lemma AngleFits(s: string, a: nat, c: nat, d: nat)
    requires AngleChars(s, a, c, d)
    ensures 11 <= a && a + 1 < c < d < |s|
  {
  }

  lemma ShortName(s: string, a: nat, c: nat, d: nat, n: nat)
    requires AngleChars(s, a, c, d) && a < n <= c && n - a <= 5
    ensures CallLike(s[a + 1..n]) <==> Lit(s[..n], a, "[call "[..n - a]).Some?
  {
    var q, part, lit := s[..n], s[a + 1..n], "[call "[..n - a];
    LitIff(q, a, lit);
    assert forall k :: 0 <= k < |part| ==> part[k] == q[a + (k + 1)] && lit[k + 1] == "call"[k];
    if CallLike(part) {
      forall k | 0 <= k < |lit|
        ensures Lower(q[a + k]) == lit[k]
      {
        if k > 0 {
          assert Lower(part[k - 1]) == "call"[k - 1];
        }
      }
    }
    if Lit(q, a, lit).Some? {
      forall k | 0 <= k < |part|
        ensures Lower(part[k]) == "call"[k]
      {
        assert Lower(q[a + (k + 1)]) == lit[k + 1];
      }
    }
  }

  lemma LongName(s: string, a: nat, c: nat, d: nat, n: nat)
    requires AngleChars(s, a, c, d) && a < n <= c && n - a > 5
    ensures CallLike(s[a + 1..n]) <==> Lit(s[..n], a, "[call").Some? && OpenCallTail(s[..n], a)
  {
    hide SkipSpace, SkipWord, IsSpace;
    var q, part := s[..n], s[a + 1..n];
    LitIff(q, a, "[call");
    assert part[4] == q[a + 5];
    WordsAreNoSpace(q[a + 5]);
    SkipSpaceIs(q, a + 5, a + 5);
    SkipWordIs(q, a + 6, n);
    assert forall k :: 0 <= k < 4 ==> part[k] == q[a + (k + 1)] && "[call"[k + 1] == "call"[k];
    if CallLike(part) {
      forall k | 0 <= k < 5
        ensures Lower(q[a + k]) == "[call"[k]
      {
        if k > 0 {
          assert Lower(part[k - 1]) == "call"[k - 1];
        }
      }
    }
    if Lit(q, a, "[call").Some? {
      forall k | 0 <= k < 4
        ensures Lower(part[k]) == "call"[k]
      {
        assert Lower(q[a + (k + 1)]) == "[call"[k + 1];
      }
    }
  }

  lemma AnglePartialIs(s: string, a: nat, c: nat, d: nat, n: nat)
    requires AngleChars(s, a, c, d) && 0 < n <= c
    ensures PartialMarker(s[..n]) == Some(if a < n && CallLike(s[a + 1..n]) then a else 0)
  {
    hide PartialCall, PartialAngle, PartialJson, PartialBracket, AngleChars, AngleBegun, CallLike;
    AngleFits(s, a, c, d);
    var q := s[..n];
    AngleIsBegun(s, a, c, d, n);
    AnglePartialCall(s, a, c, d, n);
    OnlyBracket(q, a);
    NoOpenBrace(q);
    if !(a < n && CallLike(s[a + 1..n])) {
      AnglePartialAngle(s, a, c, d, n);
    }
  }

  lemma NoOpenBrace(q: string)
    requires forall i :: 0 <= i < |q| ==> Lower(q[i]) != '{'
    ensures PartialJson(q).None?
  {
    hide RFind;
    RFindBegins(q, "{");
  }

  lemma AnglePartialAngle(s: string, a: nat, c: nat, d: nat, n: nat)
    requires AngleChars(s, a, c, d) && 0 < n <= c && !(a < n && CallLike(s[a + 1..n]))
    ensures PartialAngle(s[..n]) == Some(0)
  {
    hide AngleTail, HeldSuffix, RFind, OpenAngleTail, AngleBegun, CallLike;
    var q := s[..n];
    AngleIsBegun(s, a, c, d, n);
    OnlyBracket(q, a);
    AngleTailIs(s, a, c, d, n);
    HeldBegins(q, "<tool_call>", Min(n, 10));
    if n <= 10 {
      assert Lit(q, 0, "<tool_call>"[..n]).Some?;
      HeldSuffixFinds(q, "<tool_call>", n, 0);
    } else {
      OpenAngleIs(s, a, c, d, n);
      RFindBegins(q, "<tool_call>");
    }
  }

  lemma OpenAngleIs(s: string, a: nat, c: nat, d: nat, n: nat)
    requires AngleChars(s, a, c, d) && 11 <= n <= c
    ensures Lit(s[..n], 0, "<tool_call>").Some?
    ensures !(a < n && CallLike(s[a + 1..n])) ==> OpenAngleTail(s[..n], 0)
  {
    hide SkipSpace, SkipWord, IsSpace;
    var q := s[..n];
    assert Lit(q, 0, "<tool_call>") == Some(11);
    WordsAreNoSpace(s[a]);
    SkipSpaceIs(q, 11, Min(n, a));
    if n > a + 1 {
      SkipWordIs(q, a + 2, n);
    }
  }

  lemma AnglePlain(decode: Decoder, s: string, a: nat, c: nat, d: nat, n: nat)
    requires AngleChars(s, a, c, d) && 0 < n <= c
    ensures if a < n && CallLike(s[a + 1..n]) then Shows(decode, s[..n]) else Holds(decode, s[..n])
  {
    hide *;
    AngleFits(s, a, c, d);
    var q := s[..n];
    AngleTailIs(s, a, c, d, n);
    AngleIsBegun(s, a, c, d, n);
    AngleNoMarker(q, a);
    AngleNoHead(decode, q, a, false);
    AnglePartialIs(s, a, c, d, n);
    PlainTurn(decode, q);
  }

  lemma TagChars(tail: string, f: nat)
    requires TagAt(tail, f)
    ensures f + 11 < |tail| && tail[f] == '<' && tail[|tail| - 1] == '>'
    ensures forall k :: 0 <= k < f ==> IsSpace(tail[k])
    ensures forall k :: f + 11 <= k < |tail| - 1 ==> IsSpace(tail[k])
    ensures forall k :: 0 <= k < 11 ==> Lower(tail[f + k]) == "</tool_call"[k]
  {
    hide IsSpace;
    assert forall k :: 0 <= k < f ==> tail[k] == tail[..f][k];
    assert forall k :: f + 11 <= k < |tail| - 1 ==> tail[k] == tail[f + 11..|tail| - 1][k - f - 11];
    LitIff(tail, f, "</tool_call");
    LeadChars(tail, f, "</tool_call");
    AnglesAreNoSpace(tail[f]);
  }

  /** No proper beginning of a closing tag closes anything. */
  lemma TagBegun(tail: string, f: nat, n: nat)
    requires TagAt(tail, f) && n < |tail|
    ensures AngleClose(tail[..n]).None?
  {
    hide IsSpace, SkipSpace, TagAt;
    var q := tail[..n];
    TagChars(tail, f);
    AnglesAreNoSpace(tail[f]);
    SkipSpaceIs(q, 0, Min(n, f));
    if n >= f + 11 {
      SkipSpaceIs(q, f + 11, n);
    }
  }

  /** A whole closing tag closes, and takes the white space behind it along. */
  lemma TagWhole(tail: string, f: nat, ahead: string)
    requires TagAt(tail, f)
    ensures AngleClose(tail + ahead).Some? && (tail + ahead)[AngleClose(tail + ahead).value..] == LStrip(ahead)
  {
    hide IsSpace, SkipSpace, TagAt, Lit;
    var q := tail + ahead;
    TagChars(tail, f);
    LitIff(q, f, "</tool_call");
    LitIff(q, |tail| - 1, ">");
    AnglesAreNoSpace(tail[f]);
    SkipSpaceIs(q, 0, f);
    AnglesAreNoSpace(tail[|tail| - 1]);
    SkipSpaceIs(q, f + 11, |tail| - 1);
    SkipSpaceFrom(q, |tail|, 0);
    assert q[|tail|..] == ahead;
    assert Lit(q, f, "</tool_call") == Some(f + 11) && Lit(q, |tail| - 1, ">") == Some(|tail|);
  }

  lemma AnglesAreNoSpace(c: char)
    ensures c == '<' || c == '>' ==> !IsSpace(c)
    ensures Lower(c) == '<' ==> c == '<'
  {
  }

  /** What a beginning holds behind the bracket and white space: a part of the value, or the value and a part of its tag. */
  lemma BehindBracket(s: string, d: nat, e: nat, n: nat)
    requires d < e < |s| && n < |s|
    ensures n < d ==> s[..n][n..] == s[d..e][..0]
    ensures d <= n < e ==> s[..n][d..] == s[d..e][..n - d]
    ensures e <= n ==> s[..n][d..] == s[d..e] + s[e..][..n - e]
  {
  }

  lemma AngleHeld(decode: Decoder, s: string, a: nat, c: nat, d: nat, e: nat, n: nat)
    requires IsAngleText(decode, s, a, c, d, e) && c < n < |s|
    ensures Holds(decode, s[..n])
  {
    hide *;
    var f := AngleCharsAre(decode, s, a, c, d, e);
    AngleHeadIs(s, a, c, d, n);
    HoldsIs(decode, s[..n]);
    BehindBracket(s, d, e, n);
    var value := s[d..e];
    if n < e {
      ObjectBegun(decode, value, if n < d then 0 else n - d);
    } else {
      ObjectWhole(decode, value, s[e..][..n - e]);
      TagBegun(s[e..], f, n - e);
    }
    AngleLed(decode, s[..n], if n < d then n else d);
  }

  lemma AngleWhole(decode: Decoder, s: string, a: nat, c: nat, d: nat, e: nat, ahead: string)
    requires IsAngleText(decode, s, a, c, d, e)
    ensures SameRun(FeedLoop(decode, s + ahead), FeedLoop(decode, LStrip(ahead)))
  {
    hide *;
    var f := AngleCharsAre(decode, s, a, c, d, e);
    var all, value, tag := s + ahead, s[d..e], s[e..];
    AngleCharsLonger(s, a, c, d, ahead);
    assert all[..|all|] == all;
    AngleHeadIs(all, a, c, d, |all|);
    assert all[d..] == value + (tag + ahead);
    ObjectWhole(decode, value, tag + ahead);
    TagWhole(tag, f, ahead);
    AngleLed(decode, all, d);
    LStripEaten(ahead);
  }

  lemma AngleCharsLonger(s: string, a: nat, c: nat, d: nat, ahead: string)
    requires AngleChars(s, a, c, d)
    ensures AngleChars(s + ahead, a, c, d) && d < |s|
  {
  }

  /** `<tool_call> [Name] {...} </tool_call>` in pieces, for every way of cutting it: the text behind it, without the
      white space that arrives with its last piece, is treated as if the call had never been there, unless a cut lies
      between the brackets behind a beginning of the name that might begin `call`; then the tag is shown. */
  lemma AngleInPieces(decode: Decoder, s: string, a: nat, c: nat, d: nat, e: nat, ahead: string,
                      pre: seq<string>, chunk: string, later: seq<string>)
    requires IsAngleText(decode, s, a, c, d, e)
    requires Join(pre) + chunk == s + ahead && |Join(pre)| < |s|
    ensures var shown := Shown(Stream(decode, "", pre + [chunk] + later));
            if exists k :: 0 < k <= |pre| && a < |Join(pre[..k])| <= c && CallLike(s[a + 1..|Join(pre[..k])|])
            then Begins(shown, s)
            else shown == Shown(Stream(decode, "", [LStrip(ahead)] + later))
  {
    hide *;
    var f := AngleCharsAre(decode, s, a, c, d, e);
    AngleFits(s, a, c, d);
    var leaks := (n: nat) => a < n <= c && CallLike(s[a + 1..n]);
    forall n: nat | 0 < n < |s|
      ensures if leaks(n) then Shows(decode, s[..n]) else Holds(decode, s[..n])
    {
      if n <= c {
        AnglePlain(decode, s, a, c, d, n);
      } else {
        AngleHeld(decode, s, a, c, d, e, n);
      }
    }
    AngleWhole(decode, s, a, c, d, e, ahead);
    CutsDecide(decode, s, ahead, LStrip(ahead), pre, chunk, later, leaks);
  }
}

/** `[Call Name]: {...}` in pieces (koraku/llm/sanitize.py): the exact places at which a cut shows the beginning of
    the call. */
module CallPieces {
  import opened Wrappers
  import opened Text
  import opened Json
  import opened ToolMarkers
  import opened VisibleFilter
  import opened FilterChunking
  import opened FilterCalls
  import opened FilterHiding

  /** The name lies at `a..b`, the colon at `c`, and the value from `d` on. */
  ghost predicate IsCallText(decode: Decoder, s: string, a: nat, b: nat, c: nat, d: nat) {
    && 5 < a < b < c < d < |s|
    && Lit(s, 0, "[call").Some? && Blank(s[5..a])
    && IsName(s[a..b]) && s[b] == ']'
    && Blank(s[b + 1..c]) && s[c] == ':'
    && Blank(s[c + 1..d]) && IsObject(decode, s[d..])
  }

  /** What is known of each character in front of the value. */
  predicate CallChars(s: string, a: nat, b: nat, c: nat, d: nat) {
    && 5 < a < b < c < d < |s|
    && (forall k :: 0 <= k < 5 ==> Lower(s[k]) == "[call"[k])
    && (forall k :: 5 <= k < a ==> IsSpace(s[k]))
    && IsLetter(s[a]) && (forall k :: a < k < b ==> IsWord(s[k])) && s[b] == ']'
    && (forall k :: b < k < c ==> IsSpace(s[k])) && s[c] == ':'
    && (forall k :: c < k < d ==> IsSpace(s[k])) && s[d] == '{'
  }

  lemma CallCharsAre(decode: Decoder, s: string, a: nat, b: nat, c: nat, d: nat)
    requires IsCallText(decode, s, a, b, c, d)
    ensures CallChars(s, a, b, c, d) && d < |s| && IsObject(decode, s[d..])
  {
    forall k | 0 <= k < 5
      ensures Lower(s[k]) == "[call"[k]
    {
      assert Lower(s[0 + k]) == "[call"[k];
    }
    assert forall k :: 5 <= k < a ==> s[k] == s[5..a][k - 5];
    assert forall k :: a <= k < b ==> s[k] == s[a..b][k - a];
    assert forall k :: b < k < c ==> s[k] == s[b + 1..c][k - b - 1];
    assert forall k :: c < k < d ==> s[k] == s[c + 1..d][k - c - 1];
    assert s[d] == s[d..][0];
  }

  /** How far the front of the call form matches in a beginning. */
  lemma CallFront(s: string, a: nat, b: nat, c: nat, d: nat, n: nat)
    requires CallChars(s, a, b, c, d) && n <= |s|
    ensures var q := s[..n];
            && Lit(q, 0, "[call") == (if n >= 5 then Some(5) else None)
            && (n >= 5 ==> SkipSpace(q, 5) == Min(n, a))
            && (n >= a ==> Name(q, a) == if n > a then Some(Min(n, b)) else None)
  {
    hide SkipSpace, SkipWord, IsSpace;
    var q := s[..n];
    if n >= 5 {
      WordsAreNoSpace(s[a]);
      SkipSpaceIs(q, 5, Min(n, a));
      if n > a {
        WordsAreNoSpace(s[b]);
        SkipWordIs(q, a + 1, Min(n, b));
      }
    }
  }

  lemma CallBack(s: string, a: nat, b: nat, c: nat, d: nat, n: nat)
    requires CallChars(s, a, b, c, d) && b < n <= |s|
    ensures var q := s[..n];
            && Lit(q, b, "]") == Some(b + 1)
            && SkipSpace(q, b + 1) == Min(n, c)
            && Lit(q, Min(n, c), ":") == (if n > c then Some(c + 1) else None)
            && (n > c ==> SkipSpace(q, c + 1) == Min(n, d))
  {
    hide SkipSpace, SkipWord, IsSpace;
    var q := s[..n];
    WordsAreNoSpace(s[c]);
    SkipSpaceIs(q, b + 1, Min(n, c));
    if n > c {
      WordsAreNoSpace(s[d]);
      SkipSpaceIs(q, c + 1, Min(n, d));
    }
  }

  /** The expression of the call form matches a beginning exactly when that holds the colon. */
  lemma CallTailIs(s: string, a: nat, b: nat, c: nat, d: nat, n: nat)
    requires CallChars(s, a, b, c, d) && n <= |s|
    ensures CallTail(s[..n], 0) == if n > c then Some(Min(n, d)) else None
  {
    hide SkipSpace, Name, Lit, CallChars;
    CallFits(s, a, b, c, d);
    CallFront(s, a, b, c, d, n);
    if n > b {
      CallBack(s, a, b, c, d, n);
    } else {
      NoLitAt(s[..n], n, "]", 0);
    }
  }

  lemma CallHeadIs(s: string, a: nat, b: nat, c: nat, d: nat, n: nat)
    requires CallChars(s, a, b, c, d) && 0 < n <= |s|
    ensures CallHead(s[..n]) == if n > c then Some(Min(n, d)) else None
    ensures Min(n, d) == if n < d then n else d
  {
    hide CallTail;
    assert Lower(s[0]) == '[';
    assert SkipSpace(s[..n], 0) == 0;
    CallTailIs(s, a, b, c, d, n);
  }

  lemma CallHeld(decode: Decoder, s: string, a: nat, b: nat, c: nat, d: nat, n: nat)
    requires IsCallText(decode, s, a, b, c, d) && c < n < |s|
    ensures Holds(decode, s[..n])
  {
    hide *;
    CallCharsAre(decode, s, a, b, c, d);
    CallHeadIs(s, a, b, c, d, n);
    HoldsIs(decode, s[..n]);
    var h := Min(n, d);
    CallLed(decode, s[..n], h);
    assert s[..n][h..] == s[d..][..n - h];
    ObjectBegun(decode, s[d..], n - h);
  }

  /** The characters in front of the colon are plain but for the first, which opens a call. */
  predicate CallBegun(q: string) {
    && q != "" && q[0] == '[' && (|q| > 1 ==> Lower(q[1]) == 'c')
    && forall i :: 0 < i < |q| ==> Plain(q[i])
  }

  lemma CallIsBegun(s: string, a: nat, b: nat, c: nat, d: nat, n: nat)
    requires CallChars(s, a, b, c, d) && 0 < n <= c
    ensures CallBegun(s[..n])
  {
    assert Lower(s[0]) == '[' && Lower(s[1]) == 'c' && Lower(s[2]) == 'a' && Lower(s[3]) == 'l' && Lower(s[4]) == 'l';
    forall i | 0 < i < n
      ensures Plain(s[i])
    {
      if i == a {
        assert IsLetter(s[i]);
      }
    }
  }

  lemma CallNoMarker(q: string)
    requires CallBegun(q) && CallTail(q, 0).None?
    ensures FirstMarker(q, 0).None?
  {
    hide FirstMarker, AngleTail, CallTail, BracketMarkerAt, JsonTail, Plain;
    forall i: nat | i < |q|
      ensures AngleTail(q, i).None? && CallTail(q, i).None? && !BracketMarkerAt(q, i) && JsonTail(q, i).None?
    {
      if i == 0 {
        CallIsNoOther(q);
      } else {
        NoTails(q, i);
      }
    }
    NoMarker(q);
  }

  lemma CallIsNoOther(q: string)
    requires CallBegun(q)
    ensures AngleTail(q, 0).None? && !BracketMarkerAt(q, 0) && JsonTail(q, 0).None?
    ensures BracketTail(q, 0).None? && SkipSpace(q, 0) == 0
  {
    hide Lit, Name, Plain;
    LeadChars(q, 0, "[tool_call]");
    LeadChars(q, 0, "<tool_call>");
    LeadChars(q, 0, "{");
    LeadChars(q, 1, "tool_call]");
    if |q| > 1 {
      assert SkipSpace(q, 1) == 1;
    } else {
      assert SkipSpace(q, 1) == 1;
    }
  }

  lemma CallNoHead(decode: Decoder, q: string, eof: bool)
    requires CallBegun(q) && CallTail(q, 0).None?
    ensures Leading(decode, q, eof).NoMatch?
  {
    hide Bracket, Call, Angle, Partitions, CallTail, AngleTail, BracketTail, JsonTail, Plain;
    CallIsNoOther(q);
    BracketCases(q, eof);
    CallNeedsHead(decode, q, eof);
    AngleNeedsHead(decode, q, eof);
  }

  /** Of the partial markers only the one of the call form can be there. */
  lemma CallPartialOnly(q: string)
    requires CallBegun(q) && CallTail(q, 0).None? && (PartialCall(q).None? ==> |q| > 1)
    ensures PartialMarker(q) == PartialCall(q)
  {
    hide HeldSuffix, RFind, CallTail, AngleTail, Lit, OpenAngleTail, BracketTail, PartialCall;
    HeldBegins(q, "<tool_call>", Min(|q|, 10));
    HeldBegins(q, OPEN, Min(|q|, 10));
    RFindBegins(q, "{");
    RFindBegins(q, "<tool_call>");
    RFindBegins(q, OPEN);
  }

  /** A beginning of the call form is held up to the bracket, and not from the white space behind that on. */
  lemma CallPartialIs(s: string, a: nat, b: nat, c: nat, d: nat, n: nat)
    requires CallChars(s, a, b, c, d) && 0 < n <= c
    ensures PartialCall(s[..n]) == if n <= b + 1 then Some(0) else None
  {
    hide SkipSpace, SkipWord, CallTail, IsSpace, HeldSuffix, RFind;
    var q := s[..n];
    CallTailIs(s, a, b, c, d, n);
    CallIsBegun(s, a, b, c, d, n);
    HeldBegins(q, "[call ", Min(n, 5));
    if n <= 5 {
      assert Lit(q, 0, "[call "[..n]).Some?;
      HeldSuffixFinds(q, "[call ", n, 0);
    } else {
      OpenCallIs(s, a, b, c, d, n);
      assert Lit(q, 0, "[call").Some?;
      RFindBegins(q, "[call");
    }
  }

  lemma OpenCallIs(s: string, a: nat, b: nat, c: nat, d: nat, n: nat)
    requires CallChars(s, a, b, c, d) && 5 <= n <= c
    ensures Lit(s[..n], 0, "[call").Some? && (OpenCallTail(s[..n], 0) <==> n <= b + 1)
  {
    hide SkipSpace, Name, Lit, CallChars;
    CallFits(s, a, b, c, d);
    CallFront(s, a, b, c, d, n);
    if n > b {
      CallBack(s, a, b, c, d, n);
    } else {
      NoLitAt(s[..n], n, "]", 0);
    }
  }

  lemma CallPlain(decode: Decoder, s: string, a: nat, b: nat, c: nat, d: nat, n: nat)
    requires CallChars(s, a, b, c, d) && 0 < n <= c
    ensures if n <= b + 1 then Holds(decode, s[..n]) else Shows(decode, s[..n])
  {
    hide *;
    CallFits(s, a, b, c, d);
    var q := s[..n];
    CallTailIs(s, a, b, c, d, n);
    CallIsBegun(s, a, b, c, d, n);
    CallNoMarker(q);
    CallNoHead(decode, q, false);
    CallPartialIs(s, a, b, c, d, n);
    CallPartialOnly(q);
    PlainTurn(decode, q);
  }

  lemma CallFits(s: string, a: nat, b: nat, c: nat, d: nat)
    requires CallChars(s, a, b, c, d)
    ensures 5 < a < b < c < d < |s|
  {
  }

  lemma CallWhole(decode: Decoder, s: string, a: nat, b: nat, c: nat, d: nat, ahead: string)
    requires IsCallText(decode, s, a, b, c, d)
    ensures SameRun(FeedLoop(decode, s + ahead), FeedLoop(decode, EatLineBreaks(ahead)))
  {
    hide *;
    CallCharsAre(decode, s, a, b, c, d);
    var all := s + ahead;
    CallCharsLonger(s, a, b, c, d, ahead);
    assert all[..|all|] == all;
    CallHeadIs(all, a, b, c, d, |all|);
    assert all[d..] == s[d..] + ahead;
    ObjectWhole(decode, s[d..], ahead);
    CallLed(decode, all, d);
  }

  lemma CallCharsLonger(s: string, a: nat, b: nat, c: nat, d: nat, ahead: string)
    requires CallChars(s, a, b, c, d)
    ensures CallChars(s + ahead, a, b, c, d)
  {
  }

  /** `[Call Name]: {...}` in pieces, for every way of cutting it: the text behind it is treated as if the call had never
      been there, unless a cut lies in the white space behind the bracket or right in front of a colon that follows
      such space; then the beginning of the call is shown. */
  lemma CallInPieces(decode: Decoder, s: string, a: nat, b: nat, c: nat, d: nat, ahead: string,
                     pre: seq<string>, chunk: string, later: seq<string>)
    requires IsCallText(decode, s, a, b, c, d)
    requires Join(pre) + chunk == s + ahead && |Join(pre)| < |s|
    ensures var shown := Shown(Stream(decode, "", pre + [chunk] + later));
            if exists k :: 0 < k <= |pre| && b + 1 < |Join(pre[..k])| <= c then Begins(shown, s)
            else shown == Shown(Stream(decode, "", [EatLineBreaks(ahead)] + later))
  {
    hide *;
    CallCharsAre(decode, s, a, b, c, d);
    CallFits(s, a, b, c, d);
    var leaks := (n: nat) => b + 1 < n <= c;
    forall n: nat | 0 < n < |s|
      ensures if leaks(n) then Shows(decode, s[..n]) else Holds(decode, s[..n])
    {
      if n <= c {
        CallPlain(decode, s, a, b, c, d, n);
      } else {
        CallHeld(decode, s, a, b, c, d, n);
      }
    }
    CallWhole(decode, s, a, b, c, d, ahead);
    CutsDecide(decode, s, ahead, EatLineBreaks(ahead), pre, chunk, later, leaks);
  }

  // One call, cut in two ways.

  function ReadEmpty(s: string): Option<Decoded> {
    if "{}" <= s then Some(Decoded(Obj(map[]), 2)) else None
  }

  /** Reads the empty object. */
  const EMPTY_READER: Decoder := ReadEmpty

  const SPACED_CALL: string := "[Call F] : {}"

  lemma EmptyIsObject()
    ensures IsObject(EMPTY_READER, "{}")
  {
    forall n: nat | n < 2
      ensures EMPTY_READER("{}"[..n]).None?
    {
      assert |"{}"[..n]| < 2;
    }
  }

  lemma SpacedCallParts()
    ensures var s := SPACED_CALL;
            && |s| == 13 && s[5..6] == s[8..9] == s[10..11] == " " && s[6..7] == "F" && s[7] == ']' && s[9] == ':'
            && s[11..] == "{}" && Lit(s, 0, "[call").Some?
  {
    LitIff(SPACED_CALL, 0, "[call");
    hide Lit;
  }

  lemma ShortParts()
    ensures Blank(" ") && IsName("F")
  {
  }

  lemma SpacedCallIs()
    ensures IsCallText(EMPTY_READER, SPACED_CALL, 6, 7, 9, 11)
  {
    hide IsObject, Lit, Blank, IsName;
    EmptyIsObject();
    ShortParts();
    SpacedCallParts();
  }

  /** Behind its bracket the call is cut open, in front of it it is not. */
  lemma SpacedCallInPieces()
    ensures var s := SPACED_CALL;
            && Begins(Shown(Stream(EMPTY_READER, "", [s[..9], s[9..] + "Hi"])), s)
            && Shown(Stream(EMPTY_READER, "", [s[..8], s[8..] + "Hi"])) == Shown(Stream(EMPTY_READER, "", ["Hi"]))
  {
    hide *;
    var s := SPACED_CALL;
    SpacedCallIs();
    SpacedCut(8);
    SpacedCut(9);
    CallInPieces(EMPTY_READER, s, 6, 7, 9, 11, "Hi", [s[..9]], s[9..] + "Hi", []);
    CallInPieces(EMPTY_READER, s, 6, 7, 9, 11, "Hi", [s[..8]], s[8..] + "Hi", []);
    assert ([s[..9]])[..1] == [s[..9]] && ([s[..8]])[..1] == [s[..8]];
    assert [s[..9]] + [s[9..] + "Hi"] + [] == [s[..9], s[9..] + "Hi"];
    assert [s[..8]] + [s[8..] + "Hi"] + [] == [s[..8], s[8..] + "Hi"];
    assert ["Hi"] + [] == ["Hi"];
    NoBreaksInHi();
  }

  lemma SpacedCut(n: nat)
    requires n <= 13
    ensures |SPACED_CALL| == 13 && Join([SPACED_CALL[..n]]) == SPACED_CALL[..n]
    ensures SPACED_CALL[..n] + (SPACED_CALL[n..] + "Hi") == SPACED_CALL + "Hi"
  {
    assert [SPACED_CALL[..n]][1..] == [];
  }

  lemma NoBreaksInHi()
    ensures EatLineBreaks("Hi") == "Hi"
  {
  }
}

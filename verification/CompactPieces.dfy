/** `{"tool": ...}` in pieces (koraku/llm/sanitize.py): the exact places at which a cut shows the beginning of the
    object. */
module CompactPieces {
  import opened Wrappers
  import opened Text
  import opened Json
  import opened ToolMarkers
  import opened VisibleFilter
  import opened FilterChunking
  import opened FilterCalls
  import opened FilterHiding

  const KEY: string := "\"tool\""

  /** The key lies at `a`, the colon at `b`; the whole text is a tool object. */
  ghost predicate IsCompactText(decode: Decoder, s: string, a: nat, b: nat) {
    && 1 <= a && a + 6 <= b < |s| && IsObject(decode, s)
    && (forall t: string :: decode(s + t).Some? ==> IsToolObject(decode(s + t).value.value))
    && Blank(s[1..a]) && s[a..a + 6] == KEY && Blank(s[a + 6..b]) && s[b] == ':'
  }

  predicate CompactChars(s: string, a: nat, b: nat) {
    && 1 <= a && a + 6 <= b < |s| && s[0] == '{' && s[b] == ':'
    && (forall k :: 1 <= k < a ==> IsSpace(s[k]))
    && (forall k :: a <= k < a + 6 ==> s[k] == KEY[k - a])
    && (forall k :: a + 6 <= k < b ==> IsSpace(s[k]))
  }

  lemma CompactCharsAre(decode: Decoder, s: string, a: nat, b: nat)
    requires IsCompactText(decode, s, a, b)
    ensures CompactChars(s, a, b) && a < b < |s| && s[0] == '{' && IsObject(decode, s)
  {
    assert forall k :: 1 <= k < a ==> s[k] == s[1..a][k - 1];
    assert forall k :: a <= k < a + 6 ==> s[k] == s[a..a + 6][k - a];
    assert forall k :: a + 6 <= k < b ==> s[k] == s[a + 6..b][k - a - 6];
  }

  lemma CompactTailIs(s: string, a: nat, b: nat, n: nat)
    requires CompactChars(s, a, b) && n <= |s|
    ensures JsonTail(s[..n], 0) == if n > b then Some(b + 1) else None
    ensures n > b ==> JsonMarkerAt(s[..n], 0)
  {
    hide SkipSpace, IsSpace, Lit;
    var q := s[..n];
    if n > 0 {
      CompactFront(s, a, b, n);
      if n >= a + 6 {
        CompactBack(s, a, b, n);
      } else {
        LitFits(q, Min(n, a), KEY);
      }
    } else {
      LitFits(q, 0, "{");
    }
  }

  lemma CompactFront(s: string, a: nat, b: nat, n: nat)
    requires CompactChars(s, a, b) && 0 < n <= |s|
    ensures var q := s[..n];
            && Lit(q, 0, "{") == Some(1) && SkipSpace(q, 1) == Min(n, a)
            && (n >= a + 6 ==> Lit(q, a, KEY) == Some(a + 6) && q[a..a + 6] == KEY)
  {
    hide SkipSpace, IsSpace;
    var q := s[..n];
    assert s[a] == KEY[0];
    WordsAreNoSpace(s[a]);
    SkipSpaceIs(q, 1, Min(n, a));
    if n >= a + 6 {
      assert forall k :: 0 <= k < 6 ==> q[a + k] == KEY[k];
    }
  }

  lemma CompactBack(s: string, a: nat, b: nat, n: nat)
    requires CompactChars(s, a, b) && a + 6 <= n <= |s|
    ensures var q := s[..n];
            SkipSpace(q, a + 6) == Min(n, b) && Lit(q, Min(n, b), ":") == if n > b then Some(b + 1) else None
  {
    hide SkipSpace, IsSpace;
    var q := s[..n];
    WordsAreNoSpace(s[b]);
    SkipSpaceIs(q, a + 6, Min(n, b));
  }

  lemma CompactHeadIs(s: string, a: nat, b: nat, n: nat)
    requires CompactChars(s, a, b) && n <= |s|
    ensures JsonHead(s[..n]).Some? <==> n > b
  {
    hide JsonTail;
    assert SkipSpace(s[..n], 0) == 0;
    CompactTailIs(s, a, b, n);
  }

  /** Only the first character is a brace, and no other begins a marker. */
  predicate BraceBegun(q: string) {
    q != "" && q[0] == '{' && forall i :: 0 < i < |q| ==> Plain(q[i])
  }

  lemma CompactIsBegun(s: string, a: nat, b: nat, n: nat)
    requires CompactChars(s, a, b) && 0 < n <= b
    ensures BraceBegun(s[..n])
  {
    forall i | 0 < i < n
      ensures Plain(s[i])
    {
      if a <= i < a + 6 {
        assert s[i] == KEY[i - a];
      }
    }
  }

  lemma BraceNoMarker(q: string)
    requires BraceBegun(q) && JsonTail(q, 0).None?
    ensures FirstMarker(q, 0).None?
  {
    hide FirstMarker, AngleTail, CallTail, BracketMarkerAt, JsonTail, Plain;
    forall i: nat | i < |q|
      ensures AngleTail(q, i).None? && CallTail(q, i).None? && !BracketMarkerAt(q, i) && JsonTail(q, i).None?
    {
      if i == 0 {
        BraceIsNoOther(q);
      } else {
        NoTails(q, i);
      }
    }
    NoMarker(q);
  }

  lemma BraceIsNoOther(q: string)
    requires BraceBegun(q)
    ensures AngleTail(q, 0).None? && CallTail(q, 0).None? && !BracketMarkerAt(q, 0)
  {
    hide Lit, Name, SkipSpace;
    LeadChars(q, 0, "[");
    LeadChars(q, 0, "[call");
    LeadChars(q, 0, "<tool_call>");
  }

  /** Without a bracket or an angle there is no other partial marker. */
  lemma NoPartialOthers(q: string)
    requires forall i :: 0 <= i < |q| ==> Lower(q[i]) != '[' && Lower(q[i]) != '<'
    ensures PartialMarker(q) == PartialJson(q)
  {
    hide PartialJson;
    NoPartialAt(q, "[call ", "[call", Min(|q|, 5));
    NoPartialAt(q, "<tool_call>", "<tool_call>", Min(|q|, 10));
    NoPartialAt(q, OPEN, OPEN, Min(|q|, 10));
    hide HeldSuffix, RFind, CallTail, AngleTail, Lit, OpenAngleTail, OpenCallTail, BracketTail;
  }

  lemma NoPartialAt(q: string, needle: string, lit: string, n: nat)
    requires n <= |q| && n < |needle| && lit != "" && lit[0] == needle[0]
    requires forall i :: 0 <= i < |q| ==> Lower(q[i]) != needle[0]
    ensures HeldSuffix(q, needle, n).None? && RFind(q, |q|, lit).None?
  {
    hide HeldSuffix, RFind;
    HeldBegins(q, needle, n);
    RFindBegins(q, lit);
  }

  lemma BracePartialOnly(q: string)
    requires BraceBegun(q)
    ensures PartialMarker(q) == PartialJson(q) && RFind(q, |q|, "{") == Some(0)
  {
    hide RFind, PartialJson, PartialMarker;
    NoPartialOthers(q);
    RFindBegins(q, "{");
    LitIff(q, 0, "{");
  }

  /** A brace alone is not held, a brace and a quote are. */
  lemma CompactPartialIs(s: string, a: nat, b: nat, n: nat)
    requires CompactChars(s, a, b) && 0 < n <= b
    ensures PartialJson(s[..n]) == if n <= a then None else Some(0)
  {
    hide RFind, NonSpace, LowerAll, BraceBegun, Lit;
    var q := s[..n];
    CompactIsBegun(s, a, b, n);
    BracePartialOnly(q);
    assert q[0..] == q;
    CompactInk(s, a, b, n);
  }

  lemma CompactParts(s: string, a: nat, b: nat, n: nat, i: nat, j: nat)
    requires CompactChars(s, a, b) && 0 < n <= b && i == Min(n, a) && j == Min(n, a + 6)
    ensures s[..n] == "{" + s[1..i] + KEY[..j - i] + s[j..n] && Blank(s[1..i]) && Blank(s[j..n])
  {
    hide IsSpace;
    assert s[i..j] == KEY[..j - i];
    assert s[..n] == s[..1] + s[1..i] + s[i..j] + s[j..n];
  }

  lemma CompactInk(s: string, a: nat, b: nat, n: nat)
    requires CompactChars(s, a, b) && 0 < n <= b
    ensures n <= a ==> LowerAll(NonSpace(s[..n])) == "{"
    ensures n > a ==> 2 <= |LowerAll(NonSpace(s[..n]))| && LowerAll(NonSpace(s[..n])) <= "{\"tool\":"
  {
    hide NonSpace, IsSpace, CompactChars, Blank;
    CompactFits(s, a, b);
    var i, j := Min(n, a), Min(n, a + 6);
    CompactParts(s, a, b, n, i, j);
    InkOf(s[1..i], KEY[..j - i], s[j..n]);
    KeyInk(j - i);
  }

  lemma CompactFits(s: string, a: nat, b: nat)
    requires CompactChars(s, a, b)
    ensures 1 <= a && a + 6 <= b < |s|
  {
  }

  lemma InkOf(gap: string, key: string, more: string)
    requires Blank(gap) && Blank(more)
    ensures NonSpace("{" + gap + key + more) == "{" + NonSpace(key)
  {
    hide NonSpace, Blank;
    NonSpaceConcat("{" + gap + key, more);
    NonSpaceConcat("{" + gap, key);
    NonSpaceConcat("{", gap);
    NonSpaceBlank(gap);
    NonSpaceBlank(more);
    BraceInk();
  }

  lemma BraceInk()
    ensures NonSpace("{") == "{"
  {
    NonSpaceNext("{");
    assert "{"[1..] == "";
  }

  lemma NothingInk()
    ensures NonSpace("") == ""
  {
  }

  lemma KeyChar(k: nat)
    requires k < 6
    ensures NonSpace([KEY[k]]) == [KEY[k]] && Lower(KEY[k]) == KEY[k]
  {
    NonSpaceNext([KEY[k]]);
  }

  lemma {:induction false} KeyInk(n: nat)
    requires n <= 6
    ensures NonSpace(KEY[..n]) == KEY[..n] && LowerAll(KEY[..n]) == KEY[..n]
  {
    hide NonSpace, Lower;
    if n == 0 {
      assert KEY[..0] == "";
      NothingInk();
    } else {
      KeyInk(n - 1);
      assert KEY[..n] == KEY[..n - 1] + [KEY[n - 1]];
      NonSpaceConcat(KEY[..n - 1], [KEY[n - 1]]);
      KeyChar(n - 1);
    }
  }

  lemma CompactPlain(decode: Decoder, s: string, a: nat, b: nat, n: nat)
    requires IsCompactText(decode, s, a, b) && 0 < n <= b
    ensures if n <= a then Shows(decode, s[..n]) else Holds(decode, s[..n])
  {
    hide *;
    CompactCharsAre(decode, s, a, b);
    var q := s[..n];
    CompactTailIs(s, a, b, n);
    CompactIsBegun(s, a, b, n);
    BraceNoMarker(q);
    BraceNoHead(decode, s, a, b, n);
    CompactPartialIs(s, a, b, n);
    BracePartialOnly(q);
    PlainTurn(decode, q);
  }

  lemma BraceNoHead(decode: Decoder, s: string, a: nat, b: nat, n: nat)
    requires CompactChars(s, a, b) && 0 < n < |s| && IsObject(decode, s)
    requires n <= b || HEAD_WINDOW <= b
    ensures Leading(decode, s[..n], false).NoMatch?
  {
    hide Leading, JsonHead, Partitions, CompactChars;
    var q := s[..n];
    assert s[0] == '{';
    JsonLeads(decode, q, false);
    CompactHeadIs(s, a, b, Min(n, HEAD_WINDOW));
    assert q[..Min(n, HEAD_WINDOW)] == s[..Min(n, HEAD_WINDOW)];
    assert decode(q).None?;
  }

  lemma CompactHeld(decode: Decoder, s: string, a: nat, b: nat, n: nat)
    requires IsCompactText(decode, s, a, b) && b < n < |s|
    ensures Holds(decode, s[..n])
  {
    hide FeedLoop, FeedTurn, JsonHead, CompactChars, JsonMarkerAt, Flat, Shown, Flush, FirstJsonMarker, EatLineBreaks;
    CompactCharsAre(decode, s, a, b);
    var q, w := s[..n], Min(n, HEAD_WINDOW);
    assert q[0] == '{' && decode(q).None?;
    assert q[..w] == s[..w];
    CompactHeadIs(s, a, b, w);
    if w > b {
      JsonLed(decode, q);
    } else {
      BraceNoHead(decode, s, a, b, n);
      CompactTailIs(s, a, b, n);
      WindowMissed(decode, q);
    }
  }

  /** A head that is longer than the window is held all the same. */
  lemma WindowMissed(decode: Decoder, q: string)
    requires q != "" && JsonMarkerAt(q, 0) && decode(q).None? && Leading(decode, q, false).NoMatch?
    ensures Holds(decode, q)
  {
    hide Leading, JsonMarkerAt, FirstMarker, JsonHead, Flat;
    MarkerAtStart(q);
  }

  /** `{"tool": ...}` in pieces, for every way of cutting it: the text behind it is treated as if the object had never
      been there, unless a cut lies behind the brace or in the white space behind that; then the brace is shown. */
  lemma CompactInPieces(decode: Decoder, s: string, a: nat, b: nat, ahead: string,
                        pre: seq<string>, chunk: string, later: seq<string>)
    requires IsCompactText(decode, s, a, b)
    requires Join(pre) + chunk == s + ahead && |Join(pre)| < |s|
    ensures var shown := Shown(Stream(decode, "", pre + [chunk] + later));
            if exists k :: 0 < k <= |pre| && 0 < |Join(pre[..k])| <= a then Begins(shown, s)
            else shown == Shown(Stream(decode, "", [EatLineBreaks(ahead)] + later))
  {
    hide *;
    CompactCharsAre(decode, s, a, b);
    var leaks := (n: nat) => 0 < n <= a;
    forall n: nat | 0 < n < |s|
      ensures if leaks(n) then Shows(decode, s[..n]) else Holds(decode, s[..n])
    {
      if n <= b {
        CompactPlain(decode, s, a, b, n);
      } else {
        CompactHeld(decode, s, a, b, n);
      }
    }
    CompactWhole(decode, s, a, b, ahead);
    CutsDecide(decode, s, ahead, EatLineBreaks(ahead), pre, chunk, later, leaks);
  }

  lemma CompactWhole(decode: Decoder, s: string, a: nat, b: nat, ahead: string)
    requires IsCompactText(decode, s, a, b)
    ensures SameRun(FeedLoop(decode, s + ahead), FeedLoop(decode, EatLineBreaks(ahead)))
  {
    hide FeedLoop, SameRun, CompactChars, Blank, JsonMarkerAt, JsonHead, Flush, FirstJsonMarker, EatLineBreaks;
    ObjectWhole(decode, s, ahead);
    JsonLed(decode, s + ahead);
  }
}

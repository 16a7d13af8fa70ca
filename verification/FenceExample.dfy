/** A reply on which the streamed text and the final message differ: a code fence inside the angle
    head keeps the filter from seeing a tool call, and its removal lets the parser see one. */
module FenceExample {
  import opened Wrappers
  import opened Text
  import opened Json
  import opened ToolMarkers
  import opened Messages
  import opened OpenAiDelta
  import opened ToolCallParse
  import opened FinalText

  const FRONT := "A <tool_"
  const BACK := "call>[F]1"

  predicate NoTick(s: string) {
    forall k :: 0 <= k < |s| ==> s[k] != '`'
  }

  predicate FenceAt(s: string, i: nat, lit: string) {
    i + |lit| <= |s| && s[i..i + |lit|] == lit
  }

  lemma FencePasses(s: string, i: nat, lit: string)
    requires i < |s| && lit != "" && !FenceAt(s, i, lit)
    ensures RemoveFence(s, i, lit) == [s[i]] + RemoveFence(s, i + 1, lit)
  {
    hide SkipSpace;
  }

  lemma FenceDiffers(s: string, i: nat, lit: string, k: nat)
    requires k < |lit| && (i + k < |s| ==> s[i + k] != lit[k])
    ensures !FenceAt(s, i, lit)
  {
    if i + |lit| <= |s| {
      assert s[i..i + |lit|][k] == s[i + k];
    }
  }

  lemma {:induction false} PassesPlain(s: string, i: nat, lit: string, k: nat)
    requires i <= k <= |s| && lit != "" && lit[0] == '`'
    requires forall j :: i <= j < k ==> s[j] != '`'
    ensures RemoveFence(s, i, lit) == s[i..k] + RemoveFence(s, k, lit)
    decreases k - i
  {
    hide RemoveFence;
    if i < k {
      FenceDiffers(s, i, lit, 0);
      FencePasses(s, i, lit);
      PassesPlain(s, i + 1, lit, k);
      assert s[i..k] == [s[i]] + s[i + 1..k];
      assert [s[i]] + (s[i + 1..k] + RemoveFence(s, k, lit)) == s[i..k] + RemoveFence(s, k, lit);
    }
  }

  lemma RestPlain(s: string, i: nat, lit: string)
    requires i <= |s| && lit != "" && lit[0] == '`'
    requires forall j :: i <= j < |s| ==> s[j] != '`'
    ensures RemoveFence(s, i, lit) == s[i..]
  {
    PassesPlain(s, i, lit, |s|);
    assert RemoveFence(s, |s|, lit) == "";
  }

  /** A fence between two pieces is removed, and the pieces are joined. */
  lemma FenceGone(a: string, b: string)
    requires NoTick(a) && NoTick(b) && b != "" && b[0] != 'j' && !IsSpace(b[0])
    ensures StripFences(a + "```" + b) == a + b
  {
    hide RemoveFence, SkipSpace;
    var s := a + "```" + b;
    var n := |a|;
    assert s[n] == s[n + 1] == s[n + 2] == '`' && s[n + 3] == b[0];
    assert forall j :: n + 3 <= j < |s| ==> s[j] == b[j - n - 3];
    NoJsonFence(s, n);
    assert RemoveFence(s, 0, "```") == a + b by {
      PassesPlain(s, 0, "```", n);
      PlainFence(s, n);
      RestPlain(s, n + 3, "```");
      assert s[n + 3..] == b && s[0..n] == a;
    }
  }

  /** The opening fence of a JSON block goes with its language and the white space behind that. */
  lemma JsonFenceGone(a: string, gap: string, b: string)
    requires NoTick(a) && NoTick(b) && Blank(gap) && (b != "" ==> !IsSpace(b[0]))
    ensures StripFences(a + "```json" + gap + b) == a + b
  {
    hide RemoveFence, SkipSpace, IsSpace;
    var s := a + "```json" + gap + b;
    var n, m := |a|, |a| + 7 + |gap|;
    assert s[n..n + 7] == "```json" && s[m..] == b && s[..n] == a;
    assert forall k :: n + 7 <= k < m ==> s[k] == gap[k - n - 7];
    assert forall k :: m <= k < |s| ==> s[k] == b[k - m];
    SkipSpaceIs(s, n + 7, m);
    PassesPlain(s, 0, "```json", n);
    FenceSkipped(s, n, "```json");
    RestPlain(s, m, "```json");
    RestPlain(a + b, 0, "```");
  }

  lemma FenceSkipped(s: string, n: nat, lit: string)
    requires lit != "" && FenceAt(s, n, lit)
    ensures RemoveFence(s, n, lit) == RemoveFence(s, SkipSpace(s, n + |lit|), lit)
  {
    hide SkipSpace;
  }

  lemma PlainFence(s: string, n: nat)
    requires n + 3 < |s| && s[n] == s[n + 1] == s[n + 2] == '`' && !IsSpace(s[n + 3])
    ensures RemoveFence(s, n, "```") == RemoveFence(s, n + 3, "```")
  {
    assert s[n..n + 3] == "```";
    assert SkipSpace(s, n + 3) == n + 3;
  }

  lemma NoJsonFence(s: string, n: nat)
    requires n + 3 < |s| && s[n] == s[n + 1] == s[n + 2] == '`' && s[n + 3] != 'j'
    requires forall k :: 0 <= k < |s| && !(n <= k < n + 3) ==> s[k] != '`'
    ensures RemoveFence(s, 0, "```json") == s
  {
    hide RemoveFence, FenceAt;
    var json := "```json";
    FenceDiffers(s, n, json, 3);
    FencePasses(s, n, json);
    FenceDiffers(s, n + 1, json, 2);
    FencePasses(s, n + 1, json);
    FenceDiffers(s, n + 2, json, 1);
    FencePasses(s, n + 2, json);
    RestPlain(s, n + 3, json);
    PassesPlain(s, 0, json, n);
    ThreeInTheMiddle(s, n);
  }

  lemma ThreeInTheMiddle(s: string, n: nat)
    requires n + 3 <= |s|
    ensures s == s[0..n] + ([s[n]] + ([s[n + 1]] + ([s[n + 2]] + s[n + 3..])))
  {
  }

  lemma LitDiffers(s: string, i: nat, lit: string, k: nat)
    requires k < |lit| && (i + k < |s| ==> Lower(s[i + k]) != lit[k])
    ensures Lit(s, i, lit).None?
  {
  }

  lemma CallInWhole()
    ensures AngleTail(FRONT + BACK, 0).None? && AngleTail(FRONT + BACK, 1).None?
    ensures AngleTail(FRONT + BACK, 2) == Some(16)
  {
    hide IsLetter, IsWord, Lit, SkipWord, SkipSpace;
    var s := FRONT + BACK;
    WholeIs(s);
    LitDiffers(s, 0, "<tool_call>", 0);
    LitDiffers(s, 1, "<tool_call>", 0);
    HeadInWhole(s);
    NameInWhole(s);
  }

  lemma WholeIs(s: string)
    requires s == FRONT + BACK
    ensures s == "A <tool_call>[F]1" && s[0] == 'A' && s[1] == ' '
  {
  }

  lemma HeadInWhole(s: string)
    requires s == "A <tool_call>[F]1"
    ensures Lit(s, 2, "<tool_call>") == Some(13) && SkipSpace(s, 13) == 13 && Lit(s, 13, "[") == Some(14)
  {
  }

  lemma NameInWhole(s: string)
    requires s == "A <tool_call>[F]1"
    ensures Name(s, 14) == Some(15) && Lit(s, 15, "]") == Some(16) && SkipSpace(s, 16) == 16
  {
    hide IsLetter, IsWord;
    FIsLetter();
    assert SkipWord(s, 15) == 15;
  }

  lemma FIsLetter()
    ensures IsLetter('F') && !IsWord(']')
  {
  }

  /** Where the reply has its only bracket, its only angle and no brace. */
  lemma SplitCharacters(s: string)
    requires s == FRONT + "```" + BACK
    ensures |s| == 20 && s[0] == 'A' && s[17] == 'F' && s[8] == '`'
    ensures forall i :: 0 <= i < |s| ==>
              s[i] != '{' && (Lower(s[i]) == '[' ==> i == 16) && (Lower(s[i]) == '<' ==> i == 2)
  {
    assert s[0] == 'A' && s[1] == ' ' && s[2] == '<' && s[3] == 't' && s[4] == 'o' && s[5] == 'o' && s[6] == 'l';
    assert s[7] == '_' && s[8] == '`' && s[9] == '`' && s[10] == '`' && s[11] == 'c' && s[12] == 'a' && s[13] == 'l';
    assert s[14] == 'l' && s[15] == '>' && s[16] == '[' && s[17] == 'F' && s[18] == ']' && s[19] == '1';
  }

  lemma SplitHasNoHeads()
    ensures NoHeads(FRONT + "```" + BACK) && !Blank(FRONT + "```" + BACK)
  {
    hide SkipSpace, Name, Lit;
    var s := FRONT + "```" + BACK;
    SplitCharacters(s);
    forall i: nat | i < |s|
      ensures CallTail(s, i).None? && AngleTail(s, i).None? && BracketTail(s, i).None?
    {
      LitDiffers(s, i, "[call", if i == 16 then 1 else 0);
      LitDiffers(s, i, "<tool_call>", if i == 2 then 6 else 0);
      LitDiffers(s, i, "[tool_call]", if i == 16 then 1 else 0);
    }
  }

  lemma OneCall(r: Reader)
    requires r.decode("1").Some?
    ensures var calls := CallsIn(r, FRONT + BACK, AngleForm);
            calls != [] && calls[0].start == 2
  {
    hide *;
    var s := FRONT + BACK;
    CallInWhole();
    TheCall(r);
    NoAngleHit(r, s, 0);
    NoAngleHit(r, s, 1);
    StepCalls(r, s, AngleForm, 0);
    StepCalls(r, s, AngleForm, 1);
    StepCalls(r, s, AngleForm, 2);
    CallsInIs(r, s);
  }

  lemma CallsInIs(r: Reader, s: string)
    ensures CallsIn(r, s, AngleForm) == CallsOf(Hits(r, s, AngleForm, 0))
  {
  }

  lemma NoAngleHit(r: Reader, s: string, pos: nat)
    requires AngleTail(s, pos).None?
    ensures HitAt(r, s, AngleForm, pos).None?
  {
    hide AngleTail, AngleCall;
  }

  lemma AngleHitIs(r: Reader, s: string, pos: nat, m: nat)
    requires AngleTail(s, pos) == Some(m) && AngleCall(r, s, pos, m).Some? && AngleCall(r, s, pos, m).value.tool != ""
    ensures var c := AngleCall(r, s, pos, m).value;
            HitAt(r, s, AngleForm, pos) == Some(Hit(pos, c.end, Some(c)))
  {
    hide AngleTail, AngleCall;
  }

  lemma AngleNamed(s: string, pos: nat)
    requires AngleTail(s, pos).Some?
    ensures pos + 11 <= |s| && NameAt(s, SkipSpace(s, pos + 11) + 1) != ""
  {
    hide SkipSpace, SkipWord;
  }

  lemma CallReads(r: Reader, s: string)
    requires AngleTail(s, 2) == Some(16) && s[16..] == "1" && LStrip("1") == "1" && r.decode("1").Some?
    ensures var c := AngleCall(r, s, 2, 16); c.Some? && c.value.start == 2 && c.value.tool != ""
  {
    hide AngleTail, AngleClose, NameAt, LStrip;
    AngleNamed(s, 2);
  }

  lemma WholeTail()
    ensures |FRONT + BACK| == 17 && (FRONT + BACK)[16..] == "1" && LStrip("1") == "1"
  {
    assert FRONT + BACK == "A <tool_call>[F]1";
    assert !IsSpace('1');
  }

  lemma TheCall(r: Reader)
    requires r.decode("1").Some?
    ensures |FRONT + BACK| == 17
    ensures var h := HitAt(r, FRONT + BACK, AngleForm, 2);
            h.Some? && h.value.call.Some? && h.value.call.value.start == 2
  {
    hide AngleTail, AngleCall, HitAt, LStrip, FRONT, BACK;
    var s := FRONT + BACK;
    CallInWhole();
    WholeTail();
    CallReads(r, s);
    AngleHitIs(r, s, 2, 16);
  }

  /** On this reply the condition for agreement fails, for every decoder that reads `1` as a value. */
  lemma StreamAndMessageDiffer(r: Reader)
    requires r.decode("1").Some?
    ensures var text := FRONT + "```" + BACK;
            && NoHeads(text) && !Blank(text)
            && TextCalls(r, text) != [] && ProseBeside(r, text) != ""
  {
    hide StripFences, NoHeads, CallsIn, AngleTail, InkOf, Prose, MessageText, Blank;
    var s := FRONT + BACK;
    SplitHasNoHeads();
    FenceGone(FRONT, BACK);
    OneCall(r);
    var calls := CallsIn(r, s, AngleForm);
    var tool := [ToolBlock(ToolUse(DefaultId(0), calls[0].tool, calls[0].params))];
    var later := tool + Assemble(s, calls[1..], calls[0].end, 1);
    ProseText("A ", later);
    assert Slice(s, 0, 2) == "A ";
    assert Prose("A ") + tool + Assemble(s, calls[1..], calls[0].end, 1) == Prose("A ") + later;
    assert Assemble(s, calls, 0, 0) == Prose("A ") + later;
    VisibleInk("A ");
    InkNothing();
  }
}

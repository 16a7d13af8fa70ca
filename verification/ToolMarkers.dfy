/** The regular expressions of koraku/llm/sanitize.py as explicit matchers.

    Every matcher takes the text and the index to match at, and yields the end of the match.
    None of the expressions can match in two ways, so greedy matching needs no backtracking. */
module ToolMarkers {
  import opened Wrappers
  import opened Text

  predicate IsLetter(c: char) {
    'a' <= Lower(c) <= 'z'
  }

  predicate IsWord(c: char) {
    IsLetter(c) || '0' <= c <= '9' || c == '_'
  }

  /** The literal `lit` (given in lower case) at `i`, ignoring case. */
  function Lit(s: string, i: nat, lit: string): (r: Option<nat>)
    ensures r.Some? ==> r.value == i + |lit| <= |s|
  {
    if i + |lit| <= |s| && forall k :: 0 <= k < |lit| ==> Lower(s[i + k]) == lit[k]
    then Some(i + |lit|)
    else None
  }

  function SkipWord(s: string, i: nat): (r: nat)
    requires i <= |s|
    ensures i <= r <= |s|
    decreases |s| - i
  {
    if i < |s| && IsWord(s[i]) then SkipWord(s, i + 1) else i
  }

  lemma {:induction false} SkipWordIs(s: string, i: nat, r: nat)
    requires i <= r <= |s| && (r < |s| ==> !IsWord(s[r]))
    requires forall k :: i <= k < r ==> IsWord(s[k])
    ensures SkipWord(s, i) == r
    decreases r - i
  {
    if i < r {
      SkipWordIs(s, i + 1, r);
    }
  }

  /** `[A-Za-z][A-Za-z0-9_]*` */
  function Name(s: string, i: nat): (r: Option<nat>)
    ensures r.Some? ==> i < r.value <= |s|
  {
    if i < |s| && IsLetter(s[i]) then Some(SkipWord(s, i + 1)) else None
  }

  /** `\[Call\s+Name\]\s*:\s*` */
  function CallTail(s: string, i: nat): (r: Option<nat>)
    ensures r.Some? ==> i < r.value <= |s|
  {
    var a :- Lit(s, i, "[call");
    var b := SkipSpace(s, a);
    if b == a then None else
    var c :- Name(s, b);
    var d :- Lit(s, c, "]");
    var e :- Lit(s, SkipSpace(s, d), ":");
    Some(SkipSpace(s, e))
  }

  /** `<tool_call>\s*\[Name\]\s*` */
  function AngleTail(s: string, i: nat): (r: Option<nat>)
    ensures r.Some? ==> i < r.value <= |s|
  {
    var a :- Lit(s, i, "<tool_call>");
    var b :- Lit(s, SkipSpace(s, a), "[");
    var c :- Name(s, b);
    var d :- Lit(s, c, "]");
    Some(SkipSpace(s, d))
  }

  /** `\{\s*"tool"\s*:` ignoring case */
  function JsonTail(s: string, i: nat): (r: Option<nat>)
    ensures r.Some? ==> i < r.value <= |s|
  {
    var a :- Lit(s, i, "{");
    var b :- Lit(s, SkipSpace(s, a), "\"tool\"");
    Lit(s, SkipSpace(s, b), ":")
  }

  /** `\{\s*"tool"\s*:` with case */
  predicate JsonMarkerAt(s: string, i: nat) {
    JsonTail(s, i).Some? &&
    var b := SkipSpace(s, i + 1);
    b + 6 <= |s| && s[b..b + 6] == "\"tool\""
  }

  /** `\[TOOL_CALL\]\s*` */
  function BracketTail(s: string, i: nat): (r: Option<nat>)
    ensures r.Some? ==> i < r.value <= |s|
  {
    var a :- Lit(s, i, "[tool_call]");
    Some(SkipSpace(s, a))
  }

  /** `\[\s*TOOL_CALL\]\s*`, which unlike the head lets white space follow the bracket */
  predicate BracketMarkerAt(s: string, i: nat) {
    var a := Lit(s, i, "[");
    a.Some? && Lit(s, SkipSpace(s, a.value), "tool_call]").Some?
  }

  // The four `^\s*...` heads.

  function CallHead(s: string): (r: Option<nat>)
    ensures r.Some? ==> 0 < r.value <= |s|
  {
    CallTail(s, SkipSpace(s, 0))
  }

  function AngleHead(s: string): (r: Option<nat>)
    ensures r.Some? ==> 0 < r.value <= |s|
  {
    AngleTail(s, SkipSpace(s, 0))
  }

  function JsonHead(s: string): (r: Option<nat>)
    ensures r.Some? ==> 0 < r.value <= |s|
  {
    JsonTail(s, SkipSpace(s, 0))
  }

  function BracketHead(s: string): (r: Option<nat>)
    ensures r.Some? ==> 0 < r.value <= |s|
  {
    BracketTail(s, SkipSpace(s, 0))
  }

  /** The characters that lead a head, behind blank text. Hence no text has two heads. */
  lemma HeadChars(s: string)
    ensures var k := SkipSpace(s, 0);
            && (BracketHead(s).Some? ==> k + 1 < |s| && s[k] == '[' && Lower(s[k + 1]) == 't')
            && (CallHead(s).Some? ==> k + 1 < |s| && s[k] == '[' && Lower(s[k + 1]) == 'c')
            && (AngleHead(s).Some? ==> k < |s| && s[k] == '<')
            && (JsonHead(s).Some? ==> k < |s| && s[k] == '{')
  {
    hide BracketTail, CallTail, AngleTail, JsonTail, Lower;
    var k := SkipSpace(s, 0);
    TailsNeed(s, k);
    LeadChars(s, k, "[tool_call]");
    LeadChars(s, k, "[call");
    LeadChars(s, k, "<tool_call>");
    LeadChars(s, k, "{");
    if k < |s| {
      LowerMarks(s[k]);
    }
  }

  lemma TailsNeed(s: string, i: nat)
    ensures BracketTail(s, i).Some? ==> Lit(s, i, "[tool_call]").Some?
    ensures CallTail(s, i).Some? ==> Lit(s, i, "[call").Some?
    ensures AngleTail(s, i).Some? ==> Lit(s, i, "<tool_call>").Some?
    ensures JsonTail(s, i).Some? ==> Lit(s, i, "{").Some?
  {
    hide Lit, SkipSpace, Name;
  }

  lemma LowerMarks(c: char)
    ensures Lower(c) in {'[', '<', '{'} ==> c == Lower(c)
  {
  }

  lemma NoLitAt(s: string, i: nat, lit: string, k: nat)
    requires k < |lit| && (i + k < |s| ==> Lower(s[i + k]) != lit[k])
    ensures Lit(s, i, lit).None?
  {
  }

  lemma LeadChars(s: string, i: nat, lit: string)
    requires lit != ""
    ensures Lit(s, i, lit).Some? ==> i < |s| && Lower(s[i]) == lit[0]
    ensures Lit(s, i, lit).Some? && |lit| > 1 ==> i + 1 < |s| && Lower(s[i + 1]) == lit[1]
  {
    if Lit(s, i, lit).Some? {
      assert Lower(s[i + 0]) == lit[0];
      if |lit| > 1 {
        assert Lower(s[i + 1]) == lit[1];
      }
    }
  }

  /** `\s*\[/TOOL_CALL\]\s*` */
  function BracketClose(s: string): (r: Option<nat>)
    ensures r.Some? ==> 0 < r.value <= |s|
  {
    var a :- Lit(s, SkipSpace(s, 0), "[/tool_call]");
    Some(SkipSpace(s, a))
  }

  /** `\s*</tool_call\s*>\s*` */
  function AngleClose(s: string): (r: Option<nat>)
    ensures r.Some? ==> 0 < r.value <= |s|
  {
    var a :- Lit(s, SkipSpace(s, 0), "</tool_call");
    var b :- Lit(s, SkipSpace(s, a), ">");
    Some(SkipSpace(s, b))
  }

  /** `lower.find(lit)` from `i` on */
  function Find(s: string, i: nat, lit: string): (r: Option<nat>)
    requires i <= |s|
    ensures r.Some? ==> i <= r.value && Lit(s, r.value, lit).Some?
    ensures forall k :: i <= k < (if r.Some? then r.value else |s| + 1) ==> Lit(s, k, lit).None?
    decreases |s| - i
  {
    if Lit(s, i, lit).Some? then Some(i)
    else if i < |s| then Find(s, i + 1, lit)
    else None
  }

  /** `lower.rfind(lit)` among the indices up to `i` */
  function RFind(s: string, i: nat, lit: string): (r: Option<nat>)
    ensures r.Some? ==> r.value <= i && Lit(s, r.value, lit).Some?
    ensures forall k :: (if r.Some? then r.value + 1 else 0) <= k <= i ==> Lit(s, k, lit).None?
  {
    if Lit(s, i, lit).Some? then Some(i)
    else if i > 0 then RFind(s, i - 1, lit)
    else None
  }

  predicate MarkerAt(s: string, i: nat) {
    JsonMarkerAt(s, i) || AngleTail(s, i).Some? || CallTail(s, i).Some? || BracketMarkerAt(s, i)
  }

  /** The start of the leftmost marker of any kind. */
  function FirstMarker(s: string, i: nat): (r: Option<nat>)
    requires i <= |s|
    ensures r.Some? ==> i <= r.value < |s| && MarkerAt(s, r.value)
    ensures forall k :: i <= k < |s| && (r.Some? ==> k < r.value) ==> !MarkerAt(s, k)
    decreases |s| - i
  {
    hide *;
    if i == |s| then None
    else if MarkerAt(s, i) then Some(i)
    else FirstMarker(s, i + 1)
  }

  // Partial markers at the end of the buffer: the index at which the held tail begins.

  /** The longest proper suffix, of length `n` at most, that is a prefix of `needle`. */
  function HeldSuffix(s: string, needle: string, n: nat): (r: Option<nat>)
    requires n <= |s| && n < |needle|
    ensures r.Some? ==> |s| - n <= r.value < |s| && Lit(s, r.value, needle[..|s| - r.value]).Some?
  {
    if n == 0 then None
    else if Lit(s, |s| - n, needle[..n]).Some? then Some(|s| - n)
    else HeldSuffix(s, needle, n - 1)
  }

  function Min(a: nat, b: nat): nat {
    if a < b then a else b
  }

  function PartialJson(s: string): (r: Option<nat>)
    ensures r.Some? ==> r.value < |s|
  {
    var start :- RFind(s, |s|, "{");
    var compact := LowerAll(NonSpace(s[start..]));
    if |compact| >= 2 && compact <= "{\"tool\":" then Some(start) else None
  }

  /** `fullmatch` of `\[Call\s*(?:Name\]?)?` on `s[start..]` */
  predicate OpenCallTail(s: string, start: nat)
    requires Lit(s, start, "[call").Some?
  {
    var b := SkipSpace(s, start + 5);
    b == |s| ||
    var c := Name(s, b);
    c.Some? && (c.value == |s| || Lit(s, c.value, "]") == Some(|s|))
  }

  function PartialCall(s: string): (r: Option<nat>)
    ensures r.Some? ==> r.value < |s|
  {
    var held := HeldSuffix(s, "[call ", Min(|s|, 5));
    if held.Some? then held else
    var start :- RFind(s, |s|, "[call");
    if CallTail(s, start).Some? then None
    else if OpenCallTail(s, start) then Some(start)
    else None
  }

  /** `fullmatch` of `<tool_call>\s*(?:\[Name\]?)?` on `s[start..]` */
  predicate OpenAngleTail(s: string, start: nat)
    requires Lit(s, start, "<tool_call>").Some?
  {
    var b := SkipSpace(s, start + 11);
    b == |s| ||
    (Lit(s, b, "[").Some? &&
     var c := Name(s, b + 1);
     c.Some? && (c.value == |s| || Lit(s, c.value, "]") == Some(|s|)))
  }

  function PartialAngle(s: string): (r: Option<nat>)
    ensures r.Some? ==> r.value < |s|
  {
    var held := HeldSuffix(s, "<tool_call>", Min(|s|, 10));
    if held.Some? then held else
    var start :- RFind(s, |s|, "<tool_call>");
    if AngleTail(s, start).Some? then None
    else if OpenAngleTail(s, start) then Some(start)
    else None
  }

  function PartialBracket(s: string): (r: Option<nat>)
    ensures r.Some? ==> r.value < |s|
  {
    var held := HeldSuffix(s, "[tool_call]", Min(|s|, 10));
    if held.Some? then held else
    var start :- RFind(s, |s|, "[tool_call]");
    if Find(s, BracketTail(s, start).value, "[/tool_call]").Some? then None else Some(start)
  }

  function PartialMarker(s: string): (r: Option<nat>)
    ensures r.Some? ==> r.value < |s|
  {
    if PartialJson(s).Some? then PartialJson(s)
    else if PartialCall(s).Some? then PartialCall(s)
    else if PartialAngle(s).Some? then PartialAngle(s)
    else PartialBracket(s)
  }
}

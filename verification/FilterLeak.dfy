/** Why chunk independence is limited to text without braces: a tool object that is cut right behind
    its brace is shown, though the whole of it in one chunk is not (koraku/llm/sanitize.py). */
module FilterLeak {
  import opened Wrappers
  import opened Text
  import opened Json
  import opened ToolMarkers
  import opened VisibleFilter
  import opened FilterCalls

  /** `text` is one JSON object with a string `tool`, and nothing else. */
  predicate IsToolText(decode: Decoder, text: string) {
    && text != "" && decode(text).Some?
    && decode(text).value.end == |text| && IsToolObject(decode(text).value.value)
  }

  lemma WholeIsStripped(decode: Decoder, text: string)
    requires IsToolText(decode, text)
    ensures FeedTurn(decode, text).again && FeedTurn(decode, text).rest == "" && Shown(FeedTurn(decode, text).front) == []
  {
    hide Leading, Flat, Shown, FeedPlain;
    JsonLeads(decode, text, false);
    assert text[|text|..] == "";
    assert EatLineBreaks("") == "";
  }

  lemma BraceIsNoMarker()
    ensures FirstMarker("{", 0).None? && JsonHead("{").None?
  {
    hide Lit, Name;
    NoLitAt("{", 1, "\"tool\"", 0);
    NoLitAt("{", 0, "<tool_call>", 0);
    NoLitAt("{", 0, "[call", 0);
    NoLitAt("{", 0, "[", 0);
    assert SkipSpace("{", 0) == 0 && SkipSpace("{", 1) == 1;
    assert !MarkerAt("{", 0);
    hide MarkerAt;
    assert FirstMarker("{", 1).None?;
  }

  lemma {:induction false} NothingHeld(needle: string, n: nat)
    requires n <= 1 && n < |needle| && needle[0] != '{'
    ensures HeldSuffix("{", needle, n).None?
  {
    if n == 1 {
      NoLitAt("{", 0, needle[..1], 0);
    }
  }

  lemma NotFound(lit: string)
    requires lit != "" && lit[0] != '{'
    ensures RFind("{", 1, lit).None?
  {
    NoLitAt("{", 1, lit, 0);
    NoLitAt("{", 0, lit, 0);
  }

  lemma BraceIsNoPartial()
    ensures PartialMarker("{").None?
  {
    hide HeldSuffix, Lit;
    NothingHeld("[call ", 1);
    NothingHeld("<tool_call>", 1);
    NothingHeld("[tool_call]", 1);
    NotFound("[call");
    NotFound("<tool_call>");
    NotFound("[tool_call]");
    hide RFind;
    assert "{"[0..] == "{" && NonSpace("{") == "{" by { assert "{"[1..] == ""; }
    assert PartialJson("{").None?;
  }

  lemma LoneBraceIsShown(decode: Decoder)
    requires decode("{").None?
    ensures FeedTurn(decode, "{") == Turn([Keep("{")], "", [], false)
  {
    hide Leading, FirstMarker, PartialMarker, JsonHead, Flat;
    JsonLeads(decode, "{", false);
    BraceIsNoMarker();
    BraceIsNoPartial();
    assert "{"[..1] == "{" && "{"[1..] == "";
  }

  lemma FirstChunk(decode: Decoder, chunk: string, later: seq<string>)
    requires chunk != ""
    ensures var r := FeedLoop(decode, chunk);
            Shown(Stream(decode, "", [chunk] + later)) == Shown(r.segs) + Shown(Stream(decode, r.rest, later))
  {
    hide FeedLoop, Shown, Flush, Flat;
    var r := FeedLoop(decode, chunk);
    assert "" + chunk == chunk && ([chunk] + later)[1..] == later;
    ShownConcat(r.segs, Stream(decode, r.rest, later));
  }

  lemma SameText(text: string)
    requires text != "" && text[0] == '{'
    ensures Join([text]) == Join(["{", text[1..]])
  {
    var two := ["{", text[1..]];
    assert [text][1..] == [] && two[1..] == [text[1..]] && two[1..][1..] == [];
    assert text == "{" + text[1..];
  }

  lemma OneChunkHides(decode: Decoder, text: string)
    requires IsToolText(decode, text)
    ensures Shown(Stream(decode, "", [text])) == []
  {
    WholeIsStripped(decode, text);
    hide *;
    FeedLoopShown(decode, text);
    FeedLoopEmpty(decode);
    FirstChunk(decode, text, []);
    assert [text] + [] == [text];
    EndOfNothing(decode);
  }

  lemma BraceShows(decode: Decoder, rest: string)
    requires decode("{").None?
    ensures var shown := Shown(Stream(decode, "", ["{", rest])); shown != [] && shown[0] == "{"
  {
    hide *;
    LoneBraceIsShown(decode);
    FeedLoopShown(decode, "{");
    ShownOne(Keep("{"));
    FirstChunk(decode, "{", [rest]);
    assert ["{"] + [rest] == ["{", rest];
  }

  /** Two ways of cutting the same tool object: in one chunk it is hidden, behind its brace it is not. */
  lemma CuttingBehindTheBraceLeaks(decode: Decoder, text: string)
    requires decode("{").None? && IsToolText(decode, text)
    ensures text[0] == '{' && Join([text]) == Join(["{", text[1..]])
    ensures Shown(Stream(decode, "", [text])) == []
    ensures var shown := Shown(Stream(decode, "", ["{", text[1..]])); shown != [] && shown[0] == "{"
  {
    hide Join, Stream, Shown;
    SameText(text);
    OneChunkHides(decode, text);
    BraceShows(decode, text[1..]);
  }

  lemma EndOfNothing(decode: Decoder)
    ensures Shown(Stream(decode, "", [])) == []
  {
    FlushEmpty(decode);
  }
}

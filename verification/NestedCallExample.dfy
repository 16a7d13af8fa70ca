/** A reply whose parsed prose repeats a piece of a tool call: one call stands inside the other's name. */
module NestedCallExample {
  import opened Wrappers
  import opened Text
  import opened Json
  import opened ToolMarkers
  import opened ToolCallParse
  import opened ToolCallOrder

  const REPLY := "{\"tool\":\"[Call B]:{}\"}"

  const OUTER := Found(0, 22, "[Call B]:{}", Obj(map[]))
  const INNER := Found(9, 20, "B", Obj(map[]))

  const FIELDS: map<string, Json> := map["tool" := Str("[Call B]:{}")]

  /** The decoder reads the two dictionaries of the reply as JSON does. */
  ghost predicate ReadsReply(r: Reader) {
    && r.decode(REPLY) == Some(Decoded(Obj(FIELDS), 22))
    && r.decode("{}\"}") == Some(Decoded(Obj(map[]), 2))
  }

  lemma ReplyCharacters()
    ensures |REPLY| == 22
    ensures REPLY[0] == '{' && REPLY[9] == '[' && REPLY[10] == 'C'
    ensures forall p :: 0 <= p < |REPLY| ==>
              && (Lower(REPLY[p]) == '{' ==> p == 0 || p == 18)
              && (Lower(REPLY[p]) == '[' ==> p == 9)
              && Lower(REPLY[p]) != '<'
  {
    var s := REPLY;
    assert s[0] == '{' && s[1] == '"' && s[2] == 't' && s[3] == 'o' && s[4] == 'o' && s[5] == 'l' && s[6] == '"';
    assert s[7] == ':' && s[8] == '"' && s[9] == '[' && s[10] == 'C' && s[11] == 'a' && s[12] == 'l' && s[13] == 'l';
    assert s[14] == ' ' && s[15] == 'B' && s[16] == ']' && s[17] == ':' && s[18] == '{' && s[19] == '}';
    assert s[20] == '"' && s[21] == '}';
  }

  lemma CallHead()
    ensures CallTail(REPLY, 9) == Some(18) && CallName(REPLY, 9) == "B"
  {
    hide IsLetter, IsWord;
    var s := REPLY;
    assert Lit(s, 9, "[call") == Some(14);
    assert SkipSpace(s, 14) == 15;
    assert IsLetter('B') && !IsWord(']') by { BIsLetter(); }
    assert SkipWord(s, 16) == 16 && Name(s, 15) == Some(16);
    assert Lit(s, 16, "]") == Some(17);
    assert SkipSpace(s, 17) == 17 && Lit(s, 17, ":") == Some(18) && SkipSpace(s, 18) == 18;
    assert s[15..16] == "B";
  }

  lemma BIsLetter()
    ensures IsLetter('B') && !IsWord(']')
  {
  }

  lemma CallIs(r: Reader, s: string, c: Found, m: nat)
    requires CallTail(s, c.start) == Some(m) && CallName(s, c.start) == c.tool != "" && LStrip(s[m..]) == s[m..]
    requires m < c.end && r.decode(s[m..]) == Some(Decoded(c.params, c.end - m)) && c.params.Obj?
    ensures OfForm(r, s, CallForm, c)
  {
    hide CallTail, CallName, LStrip;
  }

  lemma CompactIs(r: Reader, s: string, c: Found, fields: map<string, Json>)
    requires JsonTail(s, c.start).Some? && c.tool != ""
    requires c.start < c.end && r.decode(s[c.start..]) == Some(Decoded(Obj(fields), c.end - c.start))
    requires "tool" in fields && fields["tool"] == Str(c.tool) && ParamsOf(Obj(fields)) == c.params
    ensures OfForm(r, s, CompactForm, c)
  {
    hide JsonTail, ParamsOf;
  }

  lemma ReplyTails()
    ensures |REPLY| == 22 && REPLY[0..] == REPLY && REPLY[18..] == "{}\"}" && LStrip("{}\"}") == "{}\"}"
  {
  }

  lemma OuterFields()
    ensures "tool" in FIELDS && FIELDS["tool"] == Str(OUTER.tool) && ParamsOf(Obj(FIELDS)) == OUTER.params
    ensures OUTER.start == 0 && OUTER.end == 22 && OUTER.tool != ""
  {
    assert "parameters"[0] != "tool"[0] && "input"[0] != "tool"[0] && "args"[0] != "tool"[0];
  }

  lemma DecodesOuter(r: Reader)
    requires ReadsReply(r)
    ensures r.decode(REPLY) == Some(Decoded(Obj(FIELDS), 22))
  {
    hide REPLY, FIELDS;
  }

  lemma InnerIsThere(r: Reader)
    requires ReadsReply(r)
    ensures OfForm(r, REPLY, CallForm, INNER)
  {
    hide CallTail, CallName, OfForm, LStrip, REPLY;
    CallHead();
    ReplyTails();
    CallIs(r, REPLY, INNER, 18);
  }

  lemma CompactHead()
    ensures JsonTail(REPLY, 0) == Some(8)
  {
    var s := REPLY;
    assert Lit(s, 0, "{") == Some(1) && SkipSpace(s, 1) == 1;
    assert Lit(s, 1, "\"tool\"") == Some(7) && SkipSpace(s, 7) == 7 && Lit(s, 7, ":") == Some(8);
  }

  lemma OuterIsThere(r: Reader)
    requires ReadsReply(r)
    ensures OfForm(r, REPLY, CompactForm, OUTER)
  {
    hide *;
    CompactHead();
    ReplyTails();
    OuterFields();
    DecodesOuter(r);
    CompactIs(r, REPLY, OUTER, FIELDS);
  }

  /** What a step may begin with here. */
  lemma HeadsOfReply(r: Reader, form: Form, p: nat)
    requires HitAt(r, REPLY, form, p).Some?
    ensures if form.CallForm? then p == 9 else form.CompactForm? && (p == 0 || p == 18)
  {
    hide HitAt, REPLY;
    HeadCharacters(r, REPLY, form, p);
    ReplyCharacters();
  }

  lemma BothAreFound(r: Reader)
    requires ReadsReply(r)
    ensures OUTER in Scan(r, REPLY) && INNER in Scan(r, REPLY)
  {
    hide HitAt, REPLY, Scan, Hits, CallsIn, Chain, Distinct;
    InnerIsThere(r);
    OuterIsThere(r);
    ReadableCallsAreFound(r, REPLY, CallForm, INNER);
    ReadableCallsAreFound(r, REPLY, CompactForm, OUTER);
    var hits := Hits(r, REPLY, CallForm, 0);
    HitsAreLeftmost(r, REPLY, CallForm, 0, hits);
    forall h | h in hits
      ensures h.start == 9
    {
      HeadsOfReply(r, CallForm, h.start);
    }
    forall c | c in Marked(r, REPLY)
      ensures c.start == 9
    {
      MarkedOfForm(r, REPLY, c);
      var form :| OfForm(r, REPLY, form, c) && !form.CompactForm?;
      HeadsOfReply(r, form, c.start);
    }
  }

  lemma MarkedOfForm(r: Reader, s: string, c: Found)
    requires c in Marked(r, s)
    ensures exists form :: OfForm(r, s, form, c) && !form.CompactForm?
  {
    hide OfForm, Hits, CallsOf;
    var form :=
      if c in CallsIn(r, s, BracketForm) then BracketForm
      else if c in CallsIn(r, s, AngleForm) then AngleForm
      else CallForm;
    CallsAreHits(r, s, form, 0, c);
  }

  /** Every other call would begin at one of the two heads that these calls cover. */
  lemma OnlyThese(r: Reader, c: Found)
    requires ReadsReply(r) && c in Scan(r, REPLY)
    ensures c == OUTER || c == INNER
  {
    hide HitAt, REPLY, Scan, Distinct;
    BothAreFound(r);
    FoundCallsAreSound(r, REPLY);
    InnerIsThere(r);
    OuterIsThere(r);
    ReplyCharacters();
    assert multiset([OUTER, INNER]) == multiset{OUTER, INNER};
    if exists form :: OfForm(r, REPLY, form, c) {
      var form :| OfForm(r, REPLY, form, c);
      HeadsOfReply(r, form, c.start);
      if c.start == 18 {
        CompactCallsStayOutside(r, REPLY, c, OUTER);
      }
    }
  }

  /** The last two characters of the reply lie in the outer call, and they are its only prose. */
  lemma ProseRepeatsCall(r: Reader)
    requires ReadsReply(r)
    ensures var sorted := SortByStart(Scan(r, REPLY));
            sorted == [OUTER, INNER] && !GapsAreFree(sorted, |REPLY|) && TidyGaps(REPLY, sorted, 0) == ["\"}"]
  {
    hide HitAt, REPLY, Scan, Distinct, SortByStart;
    var sorted := SortByStart(Scan(r, REPLY));
    BothAreFound(r);
    SortedDistinct(r, REPLY);
    SortedIs(r, sorted);
    LeftOver();
    assert sorted[0].end > GapStart(sorted, 2);
  }

  lemma SortedIs(r: Reader, sorted: seq<Found>)
    requires ReadsReply(r) && sorted == SortByStart(Scan(r, REPLY)) && Increasing(sorted)
    ensures sorted == [OUTER, INNER]
  {
    hide HitAt, REPLY, Scan, Distinct, SortByStart;
    BothAreFound(r);
    SortKeeps(r, REPLY);
    forall c | c in sorted
      ensures c == OUTER || c == INNER
    {
      OnlyThese(r, c);
    }
    assert OUTER in sorted && INNER in sorted;
    TwoInOrder(sorted);
  }

  lemma TwoInOrder(sorted: seq<Found>)
    requires Increasing(sorted) && OUTER in sorted && INNER in sorted
    requires forall c | c in sorted :: c == OUTER || c == INNER
    ensures sorted == [OUTER, INNER]
  {
    var i :| 0 <= i < |sorted| && sorted[i] == OUTER;
    var j :| 0 <= j < |sorted| && sorted[j] == INNER;
    assert sorted[0] in sorted && sorted[1] in sorted && sorted[0].start < sorted[1].start;
    assert forall k :: 2 <= k < |sorted| ==> sorted[1].start < sorted[k].start && sorted[k] in sorted;
  }

  lemma SortKeeps(r: Reader, s: string)
    ensures forall c :: c in SortByStart(Scan(r, s)) <==> c in Scan(r, s)
  {
    hide Scan, SortByStart, OfForm;
    FoundCallsAreSound(r, s);
    SortedByStart(Scan(r, s));
    forall c
      ensures c in SortByStart(Scan(r, s)) <==> c in Scan(r, s)
    {
      assert c in SortByStart(Scan(r, s)) <==> c in multiset(SortByStart(Scan(r, s)));
    }
  }

  lemma LeftOver()
    ensures TidyGaps(REPLY, [OUTER, INNER], 0) == ["\"}"]
  {
    var sorted := [OUTER, INNER];
    assert Slice(REPLY, 20, 22) == "\"}" && Slice(REPLY, 22, 9) == "" && Slice(REPLY, 0, 0) == "";
    assert !IsSpace('"');
    assert !Blank("\"}") by { assert !IsSpace("\"}"[0]); }
    assert Strip("\"}") == "\"}";
    assert TidyGaps(REPLY, sorted, 2) == ["\"}"];
    assert TidyGaps(REPLY, sorted, 1) == ["\"}"];
  }
}

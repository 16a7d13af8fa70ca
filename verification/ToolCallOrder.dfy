/** What the scanners of koraku/llm/tool_call_parse.py find in a reply, said without their loops. */
module ToolCallOrder {
  import opened Wrappers
  import opened Text
  import opened Json
  import opened ToolMarkers
  import opened Messages
  import opened OpenAiDelta
  import opened ToolCallParse

  // The steps of a scanner.

  predicate Covers(hits: seq<Hit>, p: nat) {
    exists k :: 0 <= k < |hits| && hits[k].start <= p < hits[k].end
  }

  ghost predicate TakesHeads(r: Reader, s: string, form: Form, pos: nat, hits: seq<Hit>) {
    forall k :: 0 <= k < |hits| ==> pos <= hits[k].start && HitAt(r, s, form, hits[k].start) == Some(hits[k])
  }

  ghost predicate OneBehindTheOther(hits: seq<Hit>) {
    forall j, k :: 0 <= j < k < |hits| ==> hits[j].end <= hits[k].start
  }

  ghost predicate LeavesOutNone(r: Reader, s: string, form: Form, pos: nat, hits: seq<Hit>) {
    forall p: nat :: pos <= p && HitAt(r, s, form, p).Some? ==> Covers(hits, p)
  }

  /** The steps are taken at heads, one behind the other from `pos` on, and they leave out no head. */
  ghost predicate Leftmost(r: Reader, s: string, form: Form, pos: nat, hits: seq<Hit>) {
    TakesHeads(r, s, form, pos, hits) && OneBehindTheOther(hits) && LeavesOutNone(r, s, form, pos, hits)
  }

  lemma HitsStay(r: Reader, s: string, form: Form, p: nat)
    ensures var h := HitAt(r, s, form, p); h.Some? ==> h.value.start == p < h.value.end <= |s|
  {
  }

  lemma LeftmostAtEnd(r: Reader, s: string, form: Form, pos: nat, hits: seq<Hit>)
    requires pos >= |s|
    ensures Leftmost(r, s, form, pos, hits) <==> hits == []
  {
    hide HitAt, Covers;
    forall p: nat
      ensures HitAt(r, s, form, p).Some? ==> p < |s|
    {
      HitsStay(r, s, form, p);
    }
    if hits != [] {
      HitsStay(r, s, form, hits[0].start);
    }
  }

  lemma LeftmostPastNothing(r: Reader, s: string, form: Form, pos: nat, hits: seq<Hit>)
    requires HitAt(r, s, form, pos).None?
    ensures Leftmost(r, s, form, pos, hits) <==> Leftmost(r, s, form, pos + 1, hits)
  {
    hide HitAt, Covers;
    if Leftmost(r, s, form, pos, hits) {
      forall k | 0 <= k < |hits|
        ensures pos + 1 <= hits[k].start
      {
        assert HitAt(r, s, form, hits[k].start) == Some(hits[k]);
      }
    }
  }

  lemma CoversNext(h: Hit, hits: seq<Hit>, p: nat)
    ensures Covers([h] + hits, p) <==> h.start <= p < h.end || Covers(hits, p)
  {
    if Covers(hits, p) {
      var k :| 0 <= k < |hits| && hits[k].start <= p < hits[k].end;
      assert ([h] + hits)[k + 1] == hits[k];
    }
    assert ([h] + hits)[0] == h;
  }

  lemma TakesHeadsNext(r: Reader, s: string, form: Form, pos: nat, h: Hit, hits: seq<Hit>)
    ensures TakesHeads(r, s, form, pos, [h] + hits) <==>
            pos <= h.start && HitAt(r, s, form, h.start) == Some(h) && TakesHeads(r, s, form, pos, hits)
  {
    hide HitAt;
    var all := [h] + hits;
    assert all[0] == h && all[1..] == hits;
    assert forall k :: 1 <= k < |all| ==> all[k] == hits[k - 1];
    assert forall k :: 0 <= k < |hits| ==> hits[k] == all[k + 1];
  }

  lemma OneBehindTheOtherNext(h: Hit, hits: seq<Hit>)
    ensures OneBehindTheOther([h] + hits) <==>
            OneBehindTheOther(hits) && forall k :: 0 <= k < |hits| ==> h.end <= hits[k].start
  {
    var all := [h] + hits;
    assert all[0] == h && forall k :: 0 <= k < |hits| ==> all[k + 1] == hits[k];
  }

  lemma LeavesOutNoneNext(r: Reader, s: string, form: Form, pos: nat, h: Hit, hits: seq<Hit>)
    requires HitAt(r, s, form, pos) == Some(h)
    ensures LeavesOutNone(r, s, form, pos, [h] + hits) <==> LeavesOutNone(r, s, form, h.end, hits)
  {
    hide HitAt, Covers;
    HitsStay(r, s, form, pos);
    forall p: nat
      ensures Covers([h] + hits, p) <==> h.start <= p < h.end || Covers(hits, p)
    {
      CoversNext(h, hits, p);
    }
  }

  lemma LeftmostStep(r: Reader, s: string, form: Form, pos: nat, h: Hit, hits: seq<Hit>)
    requires HitAt(r, s, form, pos) == Some(h)
    ensures Leftmost(r, s, form, pos, [h] + hits) <==> Leftmost(r, s, form, h.end, hits)
  {
    hide HitAt, OneBehindTheOther, LeavesOutNone;
    HitsStay(r, s, form, pos);
    TakesHeadsNext(r, s, form, pos, h, hits);
    OneBehindTheOtherNext(h, hits);
    LeavesOutNoneNext(r, s, form, pos, h, hits);
  }

  /** The first step of a leftmost run is taken at the first head. */
  lemma LeftmostFirst(r: Reader, s: string, form: Form, pos: nat, h: Hit, hits: seq<Hit>)
    requires HitAt(r, s, form, pos) == Some(h) && Leftmost(r, s, form, pos, hits)
    ensures hits != [] && hits[0] == h && hits == [h] + hits[1..]
  {
    hide HitAt, OneBehindTheOther, LeavesOutNone;
    assert Covers(hits, pos) by { HeadIsCovered(r, s, form, pos, hits); }
    var k :| 0 <= k < |hits| && hits[k].start <= pos < hits[k].end;
    assert hits[k] == h;
    HitsStay(r, s, form, hits[0].start);
    FirstIsFirst(hits, k);
  }

  lemma HeadIsCovered(r: Reader, s: string, form: Form, p: nat, hits: seq<Hit>)
    requires LeavesOutNone(r, s, form, p, hits) && HitAt(r, s, form, p).Some?
    ensures Covers(hits, p)
  {
    hide HitAt, Covers;
  }

  lemma FirstIsFirst(hits: seq<Hit>, k: nat)
    requires OneBehindTheOther(hits) && k < |hits|
    ensures k == 0 || hits[0].end <= hits[k].start
  {
  }

  /** A scanner takes the leftmost steps that do not overlap, those and no others. */
  lemma {:induction false} HitsAreLeftmost(r: Reader, s: string, form: Form, pos: nat, hits: seq<Hit>)
    ensures hits == Hits(r, s, form, pos) <==> Leftmost(r, s, form, pos, hits)
    decreases |s| - pos
  {
    hide HitAt, Hits, Leftmost, Covers;
    if pos >= |s| {
      HitsEnd(r, s, form, pos);
      LeftmostAtEnd(r, s, form, pos, hits);
    } else {
      HitsNext(r, s, form, pos);
      var h := HitAt(r, s, form, pos);
      if h.None? {
        LeftmostPastNothing(r, s, form, pos, hits);
        HitsAreLeftmost(r, s, form, pos + 1, hits);
      } else {
        HitsStay(r, s, form, pos);
        if Leftmost(r, s, form, pos, hits) {
          LeftmostFirst(r, s, form, pos, h.value, hits);
        }
        if hits != [] && hits[0] == h.value {
          assert hits == [h.value] + hits[1..];
          LeftmostStep(r, s, form, pos, h.value, hits[1..]);
          HitsAreLeftmost(r, s, form, h.value.end, hits[1..]);
        }
      }
    }
  }

  // The calls.

  lemma {:induction false} CallOfHit(hits: seq<Hit>, k: nat)
    requires k < |hits| && hits[k].call.Some?
    ensures hits[k].call.value in CallsOf(hits)
    decreases |hits|
  {
    if k > 0 {
      CallOfHit(hits[1..], k - 1);
    }
  }

  lemma {:induction false} InOutside(calls: seq<Found>, others: seq<Found>, c: Found)
    ensures c in Outside(calls, others) <==> c in calls && !Inside(c.start, others)
    decreases |calls|
  {
    hide Inside;
    if calls != [] {
      InOutside(calls[1..], others, c);
    }
  }

  /** Every readable call is found, unless it begins behind the start and before the end of an earlier step
      of the same scanner or, in compact form, inside a marked call. */
  lemma ReadableCallsAreFound(r: Reader, s: string, form: Form, c: Found)
    requires OfForm(r, s, form, c)
    ensures || c in Scan(r, s)
            || (exists h :: h in Hits(r, s, form, 0) && h.start < c.start < h.end)
            || (form.CompactForm? && Inside(c.start, Marked(r, s)))
  {
    hide HitAt, Hits, Outside, Inside, ScanRuby, CallsOf;
    var hits := Hits(r, s, form, 0);
    HitsAreLeftmost(r, s, form, 0, hits);
    assert Covers(hits, c.start);
    var k :| 0 <= k < |hits| && hits[k].start <= c.start < hits[k].end;
    if hits[k].start == c.start {
      CallOfHit(hits, k);
      assert c in CallsIn(r, s, form);
      InOutside(CallsIn(r, s, CompactForm), Marked(r, s), c);
      RubyComesLast(r, s, Marked(r, s) + Outside(CallsIn(r, s, CompactForm), Marked(r, s)));
    } else {
      assert hits[k] in hits;
    }
  }

  /** A Ruby-style call is read only where no other call was found, and it is the whole text. */
  lemma RubyComesLast(r: Reader, s: string, calls: seq<Found>)
    ensures ScanRuby(r, s, calls) == calls || (calls == [] && |ScanRuby(r, s, calls)| == 1)
    ensures forall c | c in ScanRuby(r, s, calls) :: c in calls || (c.tool != "" && c.start == 0 < c.end == |s|)
  {
    hide ParamsOf, Lit;
    assert Find(s, 0, "tool").Some? ==> |s| > 0;
  }

  lemma {:induction false} OutsideChain(s: string, calls: seq<Found>, others: seq<Found>, lo: nat)
    requires Chain(s, calls, lo)
    ensures Chain(s, Outside(calls, others), lo)
    decreases |calls|
  {
    hide Inside;
    if calls != [] {
      OutsideChain(s, calls[1..], others, calls[0].end);
      if Inside(calls[0].start, others) {
        assert [] + Outside(calls[1..], others) == Outside(calls[1..], others);
        ChainEarlier(s, Outside(calls[1..], others), calls[0].end, lo);
      } else {
        ChainNext(s, calls[0], Outside(calls[1..], others), lo);
      }
    }
  }

  lemma CompactApart(r: Reader, s: string)
    ensures Distinct(Marked(r, s) + Outside(CallsIn(r, s, CompactForm), Marked(r, s)), |s|)
  {
    hide CallsIn, Outside, OfForm;
    var marked, compact := Marked(r, s), CallsIn(r, s, CompactForm);
    var outside := Outside(compact, marked);
    MarkedDistinct(r, s);
    CallsOfForm(r, s, CompactForm);
    OutsideChain(s, compact, marked, 0);
    ChainStarts(s, outside, 0);
    forall k | 0 <= k < |outside|
      ensures outside[k].tool != "" && !Inside(outside[k].start, marked)
    {
      InOutside(compact, marked, outside[k]);
    }
    DistinctConcat(marked, outside, |s|);
  }

  /** Every call that is found lies in the text, begins where no other does, and is what the text holds at
      its start in one of the four forms; or it is the only one and the whole text. */
  lemma FoundCallsAreSound(r: Reader, s: string)
    ensures Distinct(Scan(r, s), |s|)
    ensures forall c | c in Scan(r, s) ::
              (exists form :: OfForm(r, s, form, c)) || (|Scan(r, s)| == 1 && c.start == 0 && c.end == |s|)
  {
    hide CallsIn, Outside, OfForm, ScanRuby, Inside;
    var calls := Marked(r, s) + Outside(CallsIn(r, s, CompactForm), Marked(r, s));
    CompactApart(r, s);
    RubyComesLast(r, s, calls);
    forall c | c in Scan(r, s)
      ensures (exists form :: OfForm(r, s, form, c)) || (|Scan(r, s)| == 1 && c.start == 0 && c.end == |s|)
    {
      if c in calls {
        FoundInForm(r, s, c);
      }
    }
  }

  lemma FoundInForm(r: Reader, s: string, c: Found)
    requires c in Marked(r, s) + Outside(CallsIn(r, s, CompactForm), Marked(r, s))
    ensures exists form :: OfForm(r, s, form, c)
  {
    hide Hits, CallsOf, Outside, OfForm, Inside;
    InOutside(CallsIn(r, s, CompactForm), Marked(r, s), c);
    var form :=
      if c in CallsIn(r, s, BracketForm) then BracketForm
      else if c in CallsIn(r, s, AngleForm) then AngleForm
      else if c in CallsIn(r, s, CallForm) then CallForm
      else CompactForm;
    CallsAreHits(r, s, form, 0, c);
  }

  /** A call in compact form never begins inside another call. */
  lemma CompactCallsStayOutside(r: Reader, s: string, c: Found, d: Found)
    requires c in Scan(r, s) && d in Scan(r, s) && OfForm(r, s, CompactForm, c) && d != c
    ensures !(d.start <= c.start < d.end)
  {
    hide CallsIn, Outside, OfForm, ScanRuby, Marked, Inside;
    var marked := Marked(r, s);
    var outside := Outside(CallsIn(r, s, CompactForm), marked);
    RubyComesLast(r, s, marked + outside);
    if marked + outside != [] {
      if c in marked {
        CompactIsNotMarked(r, s, c);
      }
      CompactApartFrom(r, s, c, d);
    }
  }

  lemma CompactApartFrom(r: Reader, s: string, c: Found, d: Found)
    requires c in Outside(CallsIn(r, s, CompactForm), Marked(r, s)) && d != c
    requires d in Marked(r, s) || d in Outside(CallsIn(r, s, CompactForm), Marked(r, s))
    ensures !(d.start <= c.start < d.end)
  {
    hide CallsIn, Outside, Marked, OfForm, Distinct;
    var compact, marked := CallsIn(r, s, CompactForm), Marked(r, s);
    InOutside(compact, marked, c);
    CallsOfForm(r, s, CompactForm);
    OutsideChain(s, compact, marked, 0);
    ChainStarts(s, Outside(compact, marked), 0);
  }

  lemma CompactIsNotMarked(r: Reader, s: string, c: Found)
    requires c in Marked(r, s)
    ensures !OfForm(r, s, CompactForm, c)
  {
    hide Hits, CallsOf, OfForm;
    var form :| c in CallsIn(r, s, form) && !form.CompactForm?;
    CallsAreHits(r, s, form, 0, c);
    if OfForm(r, s, CompactForm, c) {
      StartsDiffer(r, s, form, c, CompactForm, c);
    }
  }

  // Sorting.

  ghost predicate Increasing(calls: seq<Found>) {
    forall j, k :: 0 <= j < k < |calls| ==> calls[j].start < calls[k].start
  }

  lemma IncreasingFront(calls: seq<Found>)
    requires calls != [] && Increasing(calls)
    ensures Increasing(calls[..|calls| - 1])
    ensures forall d | d in calls[..|calls| - 1] :: d.start < calls[|calls| - 1].start
  {
  }

  lemma IncreasingSnoc(calls: seq<Found>, last: Found)
    requires Increasing(calls) && forall d | d in calls :: d.start < last.start
    ensures Increasing(calls + [last])
  {
    forall j, k | 0 <= j < k < |calls + [last]|
      ensures (calls + [last])[j].start < (calls + [last])[k].start
    {
      if k == |calls| {
        assert calls[j] in calls;
      }
    }
  }

  lemma {:induction false} InsertKeeps(sorted: seq<Found>, c: Found)
    requires Increasing(sorted) && forall d | d in sorted :: d.start != c.start
    ensures Increasing(InsertByStart(sorted, c))
    ensures multiset(InsertByStart(sorted, c)) == multiset(sorted) + multiset{c}
    ensures forall d | d in InsertByStart(sorted, c) :: d in sorted || d == c
  {
    hide Increasing;
    if sorted == [] {
      IncreasingSnoc(sorted, c);
    } else {
      var front, last := sorted[..|sorted| - 1], sorted[|sorted| - 1];
      IncreasingFront(sorted);
      assert sorted == front + [last] && last in sorted;
      if last.start > c.start {
        assert forall d | d in front :: d in sorted;
        InsertKeeps(front, c);
        IncreasingSnoc(InsertByStart(front, c), last);
      } else {
        IncreasingSnoc(sorted, c);
      }
    }
  }

  /** Sorted, the calls are the same ones, each behind those that begin before it. */
  lemma {:induction false} SortedByStart(calls: seq<Found>)
    requires forall j, k :: 0 <= j < k < |calls| ==> calls[j].start != calls[k].start
    ensures Increasing(SortByStart(calls)) && multiset(SortByStart(calls)) == multiset(calls)
  {
    hide InsertByStart, Increasing;
    if calls == [] {
      NothingIncreases();
    } else {
      var n := |calls| - 1;
      SortedByStart(calls[..n]);
      var sorted := SortByStart(calls[..n]);
      forall d | d in sorted
        ensures d.start != calls[n].start
      {
        assert d in multiset(sorted);
        assert d in calls[..n];
      }
      InsertKeeps(sorted, calls[n]);
      assert calls == calls[..n] + [calls[n]];
    }
  }

  lemma NothingIncreases()
    ensures Increasing([])
  {
  }

  /** The tool blocks of a parsed reply: one for each call that is found, in the order of the text, with
      the ids `tool_0`, `tool_1` and so on. */
  lemma BlocksForCalls(r: Reader, text: string)
    ensures var calls, uses := Scan(r, StripFences(text)), UsesIn(Parse(r, text));
            exists sorted: seq<Found> ::
              && multiset(sorted) == multiset(calls) && Increasing(sorted) && |uses| == |sorted|
              && forall k :: 0 <= k < |uses| ==> uses[k] == ToolUse(DefaultId(k), sorted[k].tool, sorted[k].params)
  {
    hide Scan, StripFences, Parse, OfForm, SortByStart, Increasing, DefaultId;
    var calls := Scan(r, StripFences(text));
    FoundCallsAreSound(r, StripFences(text));
    SortedByStart(calls);
    ParsedUses(r, text);
    var sorted := SortByStart(calls);
    assert |Numbered(sorted, 0)| == |sorted|;
  }

  // The prose between the calls.

  /** The prose in front of the `i`-th call, or behind the last one, is the text from here ... */
  function GapStart(sorted: seq<Found>, i: nat): nat
    requires i <= |sorted|
  {
    if i == 0 then 0 else sorted[i - 1].end
  }

  /** ... to here, which is nothing when the end comes first. */
  function GapEnd(sorted: seq<Found>, n: nat, i: nat): nat
    requires i <= |sorted|
  {
    if i < |sorted| then sorted[i].start else n
  }

  /** The gaps from the `i`-th on that are not blank, stripped. */
  function TidyGaps(clean: string, sorted: seq<Found>, i: nat): seq<string>
    requires i <= |sorted|
    decreases |sorted| - i
  {
    var gap := Slice(clean, GapStart(sorted, i), GapEnd(sorted, |clean|, i));
    (if Blank(gap) then [] else [Strip(gap)]) + if i == |sorted| then [] else TidyGaps(clean, sorted, i + 1)
  }

  function TextsIn(blocks: seq<Block>): seq<string> {
    if blocks == [] then []
    else (if blocks[0].TextBlock? then [blocks[0].text] else []) + TextsIn(blocks[1..])
  }

  lemma TextsBehindProse(s: string, later: seq<Block>)
    ensures TextsIn(Prose(s) + later) == (if Blank(s) then [] else [Strip(s)]) + TextsIn(later)
  {
    hide Blank, Strip;
    if Blank(s) {
      assert Prose(s) + later == later;
    } else {
      assert (Prose(s) + later)[1..] == later;
    }
  }

  lemma TextsBehindUse(use: ToolUse, later: seq<Block>)
    ensures TextsIn([ToolBlock(use)] + later) == TextsIn(later)
  {
    assert ([ToolBlock(use)] + later)[1..] == later;
  }

  lemma {:induction false} AssembledTexts(clean: string, sorted: seq<Found>, i: nat)
    requires i <= |sorted|
    ensures TextsIn(Assemble(clean, sorted[i..], GapStart(sorted, i), i)) == TidyGaps(clean, sorted, i)
    decreases |sorted| - i
  {
    hide Assemble, Prose, Slice, Blank, Strip, DefaultId, TextsIn;
    var last := GapStart(sorted, i);
    if i == |sorted| {
      AssembleEnd(clean, sorted, last);
      var prose := Prose(Slice(clean, last, |clean|));
      TextsBehindProse(Slice(clean, last, |clean|), []);
      assert prose + [] == prose;
      assert TextsIn([]) == [] by { NoTexts(); }
    } else {
      AssembleNext(clean, sorted, last, i);
      AssembledTexts(clean, sorted, i + 1);
      var use := ToolUse(DefaultId(i), sorted[i].tool, sorted[i].params);
      var prose := Prose(Slice(clean, last, sorted[i].start));
      var later := Assemble(clean, sorted[i + 1..], sorted[i].end, i + 1);
      assert prose + [ToolBlock(use)] + later == prose + ([ToolBlock(use)] + later);
      TextsBehindProse(Slice(clean, last, sorted[i].start), [ToolBlock(use)] + later);
      TextsBehindUse(use, later);
    }
  }

  lemma NoTexts()
    ensures TextsIn([]) == []
  {
  }

  /** The position `p` of the text lies in a gap. */
  predicate Shown(sorted: seq<Found>, n: nat, p: nat) {
    exists i :: 0 <= i <= |sorted| && GapStart(sorted, i) <= p < GapEnd(sorted, n, i)
  }

  /** Around every gap that is one, the calls in front of it have ended. */
  ghost predicate GapsAreFree(sorted: seq<Found>, n: nat) {
    forall j, i :: 0 <= j < i <= |sorted| && GapStart(sorted, i) < GapEnd(sorted, n, i) ==>
      sorted[j].end <= GapStart(sorted, i)
  }

  lemma {:induction false} OutsideIsShown(sorted: seq<Found>, n: nat, p: nat, i: nat)
    requires i <= |sorted| && GapStart(sorted, i) <= p < n && !Inside(p, sorted)
    ensures Shown(sorted, n, p)
    decreases |sorted| - i
  {
    if p < GapEnd(sorted, n, i) {
    } else {
      assert sorted[i].start <= p;
      OutsideIsShown(sorted, n, p, i + 1);
    }
  }

  lemma InsideIsHidden(sorted: seq<Found>, n: nat, p: nat)
    requires Distinct(sorted, n) && Increasing(sorted) && GapsAreFree(sorted, n) && Inside(p, sorted)
    ensures !Shown(sorted, n, p)
  {
    var k :| 0 <= k < |sorted| && sorted[k].start <= p < sorted[k].end;
    forall i | 0 <= i <= |sorted|
      ensures !(GapStart(sorted, i) <= p < GapEnd(sorted, n, i))
    {
      if i <= k {
        assert sorted[i].start <= sorted[k].start;
      }
    }
  }

  lemma HiddenInsideFreesGaps(sorted: seq<Found>, n: nat)
    requires Distinct(sorted, n) && Increasing(sorted)
    requires forall p: nat :: Inside(p, sorted) ==> !Shown(sorted, n, p)
    ensures GapsAreFree(sorted, n)
  {
    forall j, i | 0 <= j < i <= |sorted| && GapStart(sorted, i) < GapEnd(sorted, n, i)
      ensures sorted[j].end <= GapStart(sorted, i)
    {
      var p := GapStart(sorted, i);
      assert Shown(sorted, n, p);
      assert sorted[j].start <= sorted[i - 1].start < p;
      assert !Inside(p, sorted);
    }
  }

  /** The text blocks of a reply with calls are its gaps. They show every character that lies in no call,
      and none that lies in one exactly when no call that has begun in front of a gap ends behind its start. */
  lemma ProseBesideCalls(r: Reader, text: string)
    ensures var clean := StripFences(text);
            var sorted := SortByStart(Scan(r, clean));
            sorted != [] ==>
              && TextsIn(Parse(r, text)) == TidyGaps(clean, sorted, 0)
              && (forall p: nat :: p < |clean| && !Inside(p, sorted) ==> Shown(sorted, |clean|, p))
              && ((forall p: nat :: Inside(p, sorted) ==> !Shown(sorted, |clean|, p)) <==> GapsAreFree(sorted, |clean|))
  {
    hide Scan, StripFences, Parse, Assemble, OfForm, SortByStart, Increasing, Distinct, Shown, Inside, GapsAreFree,
         TextsIn, TidyGaps;
    var clean := StripFences(text);
    var calls := Scan(r, clean);
    var sorted := SortByStart(calls);
    ParseIs(r, text);
    if sorted != [] {
      SortedDistinct(r, clean);
      AssembledTexts(clean, sorted, 0);
      assert sorted[0..] == sorted && calls != [];
      forall p: nat
        ensures p < |clean| && !Inside(p, sorted) ==> Shown(sorted, |clean|, p)
        ensures Inside(p, sorted) && GapsAreFree(sorted, |clean|) ==> !Shown(sorted, |clean|, p)
      {
        if p < |clean| && !Inside(p, sorted) {
          OutsideIsShown(sorted, |clean|, p, 0);
        }
        if Inside(p, sorted) && GapsAreFree(sorted, |clean|) {
          InsideIsHidden(sorted, |clean|, p);
        }
      }
      if forall p: nat :: Inside(p, sorted) ==> !Shown(sorted, |clean|, p) {
        HiddenInsideFreesGaps(sorted, |clean|);
      }
    }
  }

  lemma SortedDistinct(r: Reader, s: string)
    ensures var sorted := SortByStart(Scan(r, s));
            Distinct(sorted, |s|) && Increasing(sorted) && (sorted == [] <==> Scan(r, s) == [])
  {
    hide Scan, OfForm, SortByStart;
    var calls := Scan(r, s);
    var sorted := SortByStart(calls);
    FoundCallsAreSound(r, s);
    SortedByStart(calls);
    forall k | 0 <= k < |sorted|
      ensures sorted[k] in calls
    {
      assert sorted[k] in multiset(sorted);
    }
    assert |multiset(sorted)| == |sorted| && |multiset(calls)| == |calls|;
  }
}

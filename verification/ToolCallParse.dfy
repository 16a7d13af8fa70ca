/** Tool calls written into the text of a finished reply (koraku/llm/tool_call_parse.py). */
module ToolCallParse {
  import opened Wrappers
  import opened Text
  import opened Json
  import opened ToolMarkers
  import opened Messages
  import opened OpenAiDelta

  /** A tool call found in the text, at `[start, end)`. */
  datatype Found = Found(start: nat, end: nat, tool: string, params: Json)

  /** The functions that this model does not look into: `raw_decode`, `loads` with `dumps`, and the
      rewriting of Ruby-style hashes. */
  datatype Reader = Reader(decode: Decoder, codec: Codec, normalize: string -> string)

  predicate NoBrace(s: string) {
    forall k :: 0 <= k < |s| ==> s[k] != '{'
  }

  /** Without a brace there is no dictionary to read, and normalizing brings in no brace. */
  ghost predicate Sane(r: Reader) {
    forall s: string :: NoBrace(s) ==>
      && (r.codec.loads(s).Some? ==> !r.codec.loads(s).value.Obj?)
      && NoBrace(r.normalize(s))
  }

  /** `re.sub(lit + r"\s*", "", s)` from `i` on */
  function RemoveFence(s: string, i: nat, lit: string): (r: string)
    requires i <= |s| && lit != ""
    decreases |s| - i
  {
    if i + |lit| <= |s| && s[i..i + |lit|] == lit then RemoveFence(s, SkipSpace(s, i + |lit|), lit)
    else if i < |s| then [s[i]] + RemoveFence(s, i + 1, lit)
    else ""
  }

  /** `strip_markdown_fences` */
  function StripFences(s: string): string {
    var t := RemoveFence(s, 0, "```json");
    RemoveFence(t, 0, "```")
  }

  /** `data.get("parameters", data.get("input", data.get("args", {})))`, kept if it is a dictionary */
  function ParamsOf(data: Json): Json
    requires data.Obj?
  {
    var v :=
      if "parameters" in data.fields then data.fields["parameters"]
      else if "input" in data.fields then data.fields["input"]
      else if "args" in data.fields then data.fields["args"]
      else Obj(map[]);
    if v.Obj? then v else Obj(map[])
  }

  /** `_append_tool_call`: nothing without a name, and nothing twice at the same start. */
  function Append(calls: seq<Found>, c: Found): seq<Found> {
    if c.tool == "" || exists k :: 0 <= k < |calls| && calls[k].start == c.start then calls else calls + [c]
  }

  /** The first `}` from `i` on that white space and a closing tag follow. */
  function BraceBeforeClose(s: string, i: nat): (r: Option<nat>)
    requires i <= |s|
    ensures r.Some? ==> i <= r.value < |s|
    decreases |s| - i
  {
    if i == |s| then None
    else if s[i] == '}' && Lit(s, SkipSpace(s, i + 1), "[/tool_call]").Some? then Some(i)
    else BraceBeforeClose(s, i + 1)
  }

  /** A match of `\[TOOL_CALL\]\s*(\{[\s\S]*?\})\s*\[/TOOL_CALL\]` at `i`: the group and the end. */
  function BracketCallAt(s: string, i: nat): (r: Option<(string, nat)>)
    ensures r.Some? ==> i < r.value.1 <= |s|
  {
    var a :- BracketTail(s, i);
    if a == |s| || s[a] != '{' then None else
    var b :- BraceBeforeClose(s, a + 1);
    var e :- Lit(s, SkipSpace(s, b + 1), "[/tool_call]");
    Some((s[a..b + 1], e))
  }

  /** The name inside the brackets of a head whose bracket opens at `b`. */
  function NameAt(s: string, b: nat): string {
    var e := Name(s, b);
    if e.Some? then s[b..e.value] else ""
  }

  /** The angle-form call whose head matches at `pos` and ends at `m`, if a JSON value follows. */
  function AngleCall(r: Reader, s: string, pos: nat, m: nat): (c: Option<Found>)
    requires AngleTail(s, pos) == Some(m)
    ensures c.Some? ==> c.value.start == pos && m < c.value.end <= |s|
  {
    hide AngleClose;
    var json := LStrip(s[m..]);
    var dec :- r.decode(json);
    var tail := json[dec.end..];
    var close := AngleClose(tail);
    var end := |s| - |tail| + if close.Some? then close.value else 0;
    Some(Found(pos, end, NameAt(s, SkipSpace(s, pos + 11) + 1), if dec.value.Obj? then dec.value else Obj(map[])))
  }

  // The four scanners, one head at a time.

  datatype Form = BracketForm | AngleForm | CallForm | CompactForm

  /** What a scanner steps over at a head, with the call there if one can be read. */
  datatype Hit = Hit(start: nat, end: nat, call: Option<Found>)

  /** A call without a name is none. */
  function Named(c: Found): Option<Found> {
    if c.tool == "" then None else Some(c)
  }

  /** The step begins at `pos` and stays in the text, and so does its call. */
  predicate Fits(h: Option<Hit>, s: string, pos: nat) {
    h.Some? ==>
      && h.value.start == pos < h.value.end <= |s|
      && (h.value.call.Some? ==>
            h.value.call.value.start == pos && h.value.call.value.end == h.value.end && h.value.call.value.tool != "")
  }

  function BracketHit(r: Reader, s: string, pos: nat): (h: Option<Hit>)
    ensures Fits(h, s, pos)
  {
    hide BracketCallAt, ParamsOf;
    var (group, end) :- BracketCallAt(s, pos);
    var parsed := r.codec.loads(r.normalize(group));
    Some(Hit(pos, end,
             if parsed.Some? && IsToolObject(parsed.value)
             then Named(Found(pos, end, parsed.value.fields["tool"].text, ParamsOf(parsed.value)))
             else None))
  }

  function AngleHit(r: Reader, s: string, pos: nat): (h: Option<Hit>)
    ensures Fits(h, s, pos)
  {
    hide AngleTail, AngleCall;
    var m :- AngleTail(s, pos);
    var c := AngleCall(r, s, pos, m);
    Some(if c.None? then Hit(pos, m, None) else Hit(pos, c.value.end, Named(c.value)))
  }

  /** The end of the dictionary behind a head that ends at `m`. */
  function ParamsEnd(r: Reader, s: string, m: nat): (end: Option<nat>)
    requires m <= |s|
    ensures end.Some? ==> m < end.value <= |s|
  {
    var dec :- r.decode(LStrip(s[m..]));
    if dec.value.Obj? then Some(m + (|s[m..]| - |LStrip(s[m..])|) + dec.end) else None
  }

  function CallName(s: string, pos: nat): string
    requires CallTail(s, pos).Some?
  {
    NameAt(s, SkipSpace(s, pos + 5))
  }

  function CallHit(r: Reader, s: string, pos: nat): (h: Option<Hit>)
    ensures Fits(h, s, pos)
  {
    hide CallTail, CallName, LStrip;
    var m :- CallTail(s, pos);
    var end := ParamsEnd(r, s, m);
    Some(if end.None? then Hit(pos, m, None)
         else Hit(pos, end.value,
                  Named(Found(pos, end.value, CallName(s, pos), r.decode(LStrip(s[m..])).value.value))))
  }

  function CompactHit(r: Reader, s: string, pos: nat): (h: Option<Hit>)
    ensures Fits(h, s, pos)
  {
    hide JsonTail, ParamsOf;
    var m :- JsonTail(s, pos);
    var dec := r.decode(s[pos..]);
    Some(if dec.None? then Hit(pos, m, None)
         else Hit(pos, pos + dec.value.end,
                  if IsToolObject(dec.value.value)
                  then Named(Found(pos, pos + dec.value.end, dec.value.value.fields["tool"].text,
                                   ParamsOf(dec.value.value)))
                  else None))
  }

  function HitAt(r: Reader, s: string, form: Form, pos: nat): (h: Option<Hit>)
    ensures Fits(h, s, pos)
  {
    hide *;
    match form
    case BracketForm => BracketHit(r, s, pos)
    case AngleForm => AngleHit(r, s, pos)
    case CallForm => CallHit(r, s, pos)
    case CompactForm => CompactHit(r, s, pos)
  }

  /** From `pos` on, head by head, each search beginning where the last step ended. */
  function Hits(r: Reader, s: string, form: Form, pos: nat): seq<Hit>
    decreases |s| - pos
  {
    if pos >= |s| then []
    else
      var h := HitAt(r, s, form, pos);
      if h.None? then Hits(r, s, form, pos + 1) else [h.value] + Hits(r, s, form, h.value.end)
  }

  function CallsOf(hits: seq<Hit>): seq<Found> {
    if hits == [] then []
    else (if hits[0].call.Some? then [hits[0].call.value] else []) + CallsOf(hits[1..])
  }

  /** All calls of one form. */
  function CallsIn(r: Reader, s: string, form: Form): seq<Found> {
    CallsOf(Hits(r, s, form, 0))
  }

  /** The calls of the three marked forms. */
  function Marked(r: Reader, s: string): seq<Found> {
    CallsIn(r, s, BracketForm) + CallsIn(r, s, AngleForm) + CallsIn(r, s, CallForm)
  }

  predicate Inside(pos: nat, calls: seq<Found>) {
    exists k :: 0 <= k < |calls| && calls[k].start <= pos < calls[k].end
  }

  /** The calls that do not begin inside one of `others`. */
  function Outside(calls: seq<Found>, others: seq<Found>): seq<Found> {
    if calls == [] then []
    else (if Inside(calls[0].start, others) then [] else [calls[0]]) + Outside(calls[1..], others)
  }

  function ScanRuby(r: Reader, s: string, calls: seq<Found>): seq<Found> {
    if calls != [] || Find(s, 0, "tool").None? || Find(s, 0, "=>").None? then calls else
    var parsed := r.codec.loads(r.normalize(s));
    if parsed.Some? && IsToolObject(parsed.value)
    then Append(calls, Found(0, |s|, parsed.value.fields["tool"].text, ParamsOf(parsed.value)))
    else calls
  }

  /** The calls of the three marked forms, and those of the compact form that lie outside them. A reply
      without any may still be one Ruby-style call as a whole. */
  function Scan(r: Reader, clean: string): seq<Found> {
    ScanRuby(r, clean, Marked(r, clean) + Outside(CallsIn(r, clean, CompactForm), Marked(r, clean)))
  }

  /** The stable `sort(key=start)`, by insertion. */
  function InsertByStart(sorted: seq<Found>, c: Found): seq<Found> {
    if sorted == [] || sorted[|sorted| - 1].start <= c.start then sorted + [c]
    else InsertByStart(sorted[..|sorted| - 1], c) + [sorted[|sorted| - 1]]
  }

  function SortByStart(calls: seq<Found>): seq<Found> {
    if calls == [] then []
    else InsertByStart(SortByStart(calls[..|calls| - 1]), calls[|calls| - 1])
  }

  /** `s[lo:hi]`, which Python leaves empty when `lo` lies behind `hi`. */
  function Slice(s: string, lo: nat, hi: nat): string {
    if lo <= hi <= |s| then s[lo..hi] else ""
  }

  function Prose(s: string): seq<Block> {
    if Blank(s) then [] else [TextBlock(Strip(s))]
  }

  /** The blocks behind `last`, for the calls from the `i`-th on. */
  function Assemble(clean: string, calls: seq<Found>, last: nat, i: nat): seq<Block>
    decreases |calls|
  {
    if calls == [] then Prose(Slice(clean, last, |clean|)) else
    var c := calls[0];
    Prose(Slice(clean, last, c.start))
    + [ToolBlock(ToolUse(DefaultId(i), c.tool, c.params))]
    + Assemble(clean, calls[1..], c.end, i + 1)
  }

  /** `parse_tool_calls_from_text` */
  function Parse(r: Reader, text: string): seq<Block> {
    var clean := StripFences(text);
    var calls := Scan(r, clean);
    if calls == [] then (if Blank(text) then [] else [TextBlock(text)])
    else Assemble(clean, SortByStart(calls), 0, 0)
  }

  // The loops of the scanners. Each search for the next head is the walk over positions without one.

  /** `_append_tool_call` */
  method AppendToolCall(toolCalls: seq<Found>, c: Found) returns (result: seq<Found>)
    ensures result == Append(toolCalls, c)
  {
    if c.tool == "" {
      return toolCalls;
    }
    for k := 0 to |toolCalls|
      invariant forall j :: 0 <= j < k ==> toolCalls[j].start != c.start
    {
      if toolCalls[k].start == c.start {
        return toolCalls;
      }
    }
    result := toolCalls + [c];
  }

  /** What is appended when the calls `more` are found in turn. */
  function AppendEach(calls: seq<Found>, more: seq<Found>): seq<Found>
    decreases |more|
  {
    if more == [] then calls else AppendEach(Append(calls, more[0]), more[1..])
  }

  /** The same for the compact form, which leaves out what begins inside a call that is there already. */
  function AppendOutside(calls: seq<Found>, more: seq<Found>): seq<Found>
    decreases |more|
  {
    if more == [] then calls
    else AppendOutside(if Inside(more[0].start, calls) then calls else Append(calls, more[0]), more[1..])
  }

  lemma HitsNext(r: Reader, s: string, form: Form, pos: nat)
    requires pos < |s|
    ensures var h := HitAt(r, s, form, pos);
            Hits(r, s, form, pos) ==
              if h.None? then Hits(r, s, form, pos + 1) else [h.value] + Hits(r, s, form, h.value.end)
  {
    hide HitAt;
  }

  lemma HitsEnd(r: Reader, s: string, form: Form, pos: nat)
    requires pos >= |s|
    ensures Hits(r, s, form, pos) == [] && CallsOf(Hits(r, s, form, pos)) == []
  {
  }

  lemma CallsOfNext(h: Hit, hits: seq<Hit>)
    ensures CallsOf([h] + hits) == (if h.call.Some? then [h.call.value] else []) + CallsOf(hits)
  {
    assert ([h] + hits)[1..] == hits;
  }

  lemma AppendEachNext(calls: seq<Found>, c: Found, more: seq<Found>)
    ensures AppendEach(calls, [c] + more) == AppendEach(Append(calls, c), more)
    ensures AppendOutside(calls, [c] + more) ==
              AppendOutside(if Inside(c.start, calls) then calls else Append(calls, c), more)
  {
    hide Append, Inside;
    assert ([c] + more)[1..] == more;
  }

  lemma AppendNothing(calls: seq<Found>)
    ensures AppendEach(calls, []) == calls == AppendOutside(calls, [])
  {
  }

  lemma AppendNameless(calls: seq<Found>, c: Found)
    requires c.tool == ""
    ensures Append(calls, c) == calls
  {
  }

  /** The calls from `pos` on are those of the step there, if any, and those behind it. */
  lemma StepCalls(r: Reader, s: string, form: Form, pos: nat)
    requires pos < |s|
    ensures var h := HitAt(r, s, form, pos);
            CallsOf(Hits(r, s, form, pos)) ==
              if h.None? then CallsOf(Hits(r, s, form, pos + 1))
              else (if h.value.call.Some? then [h.value.call.value] else []) + CallsOf(Hits(r, s, form, h.value.end))
  {
    hide HitAt, Hits, CallsOf;
    HitsNext(r, s, form, pos);
    var h := HitAt(r, s, form, pos);
    if h.Some? {
      CallsOfNext(h.value, Hits(r, s, form, h.value.end));
    }
  }

  /** One step of a scanner that appends what it finds. */
  lemma ScanStep(r: Reader, s: string, form: Form, pos: nat, calls: seq<Found>)
    requires pos < |s|
    ensures var h := HitAt(r, s, form, pos);
            AppendEach(calls, CallsOf(Hits(r, s, form, pos))) ==
              if h.None? then AppendEach(calls, CallsOf(Hits(r, s, form, pos + 1)))
              else AppendEach(if h.value.call.Some? then Append(calls, h.value.call.value) else calls,
                              CallsOf(Hits(r, s, form, h.value.end)))
  {
    hide *;
    StepCalls(r, s, form, pos);
    var h := HitAt(r, s, form, pos);
    if h.Some? {
      var later := CallsOf(Hits(r, s, form, h.value.end));
      assert [] + later == later;
      if h.value.call.Some? {
        AppendEachNext(calls, h.value.call.value, later);
      }
    }
  }

  /** `_scan_bracket_tool_calls` */
  method ScanBracketToolCalls(r: Reader, cleanText: string, toolCalls: seq<Found>) returns (calls: seq<Found>)
    ensures calls == AppendEach(toolCalls, CallsIn(r, cleanText, BracketForm))
  {
    hide Hits, CallsOf, AppendEach, Append, BracketCallAt, ParamsOf;
    var pos: nat := 0;
    calls := toolCalls;
    while pos < |cleanText|
      invariant AppendEach(calls, CallsOf(Hits(r, cleanText, BracketForm, pos))) ==
                  AppendEach(toolCalls, CallsIn(r, cleanText, BracketForm))
      decreases |cleanText| - pos
    {
      ScanStep(r, cleanText, BracketForm, pos, calls);
      var m := BracketCallAt(cleanText, pos);
      if m.None? {
        pos := pos + 1;
      } else {
        var (group, end) := m.value;
        var parsed := r.codec.loads(r.normalize(group));
        if parsed.Some? && IsToolObject(parsed.value) {
          var c := Found(pos, end, parsed.value.fields["tool"].text, ParamsOf(parsed.value));
          if c.tool == "" {
            AppendNameless(calls, c);
          }
          calls := AppendToolCall(calls, c);
        }
        pos := end;
      }
    }
    HitsEnd(r, cleanText, BracketForm, pos);
    AppendNothing(calls);
  }

  /** `_scan_angle_tool_calls` */
  method ScanAngleToolCalls(r: Reader, cleanText: string, toolCalls: seq<Found>) returns (calls: seq<Found>)
    ensures calls == AppendEach(toolCalls, CallsIn(r, cleanText, AngleForm))
  {
    hide Hits, CallsOf, AppendEach, Append, AngleTail, AngleCall;
    var pos: nat := 0;
    calls := toolCalls;
    while pos < |cleanText|
      invariant AppendEach(calls, CallsOf(Hits(r, cleanText, AngleForm, pos))) ==
                  AppendEach(toolCalls, CallsIn(r, cleanText, AngleForm))
      decreases |cleanText| - pos
    {
      ScanStep(r, cleanText, AngleForm, pos, calls);
      var m := AngleTail(cleanText, pos);
      if m.None? {
        pos := pos + 1;
      } else {
        var c := AngleCall(r, cleanText, pos, m.value);
        if c.None? {
          pos := m.value;
        } else {
          if c.value.tool == "" {
            AppendNameless(calls, c.value);
          }
          calls := AppendToolCall(calls, c.value);
          pos := c.value.end;
        }
      }
    }
    HitsEnd(r, cleanText, AngleForm, pos);
    AppendNothing(calls);
  }

  /** `_scan_call_tool_markers` */
  method ScanCallToolMarkers(r: Reader, cleanText: string, toolCalls: seq<Found>) returns (calls: seq<Found>)
    ensures calls == AppendEach(toolCalls, CallsIn(r, cleanText, CallForm))
  {
    hide Hits, CallsOf, AppendEach, Append, CallTail, CallName, LStrip;
    var pos: nat := 0;
    calls := toolCalls;
    while pos < |cleanText|
      invariant AppendEach(calls, CallsOf(Hits(r, cleanText, CallForm, pos))) ==
                  AppendEach(toolCalls, CallsIn(r, cleanText, CallForm))
      decreases |cleanText| - pos
    {
      ScanStep(r, cleanText, CallForm, pos, calls);
      var m := CallTail(cleanText, pos);
      if m.None? {
        pos := pos + 1;
        continue;
      }
      var rest := cleanText[m.value..];
      var leading := |rest| - |LStrip(rest)|;
      var dec := r.decode(LStrip(rest));
      if dec.None? || !dec.value.value.Obj? {
        pos := m.value;
        continue;
      }
      var end := m.value + leading + dec.value.end;
      var c := Found(pos, end, CallName(cleanText, pos), dec.value.value);
      if c.tool == "" {
        AppendNameless(calls, c);
      }
      calls := AppendToolCall(calls, c);
      pos := end;
    }
    HitsEnd(r, cleanText, CallForm, pos);
    AppendNothing(calls);
  }

  lemma CompactStep(r: Reader, s: string, pos: nat, calls: seq<Found>)
    requires pos < |s|
    ensures var h := HitAt(r, s, CompactForm, pos);
            AppendOutside(calls, CallsOf(Hits(r, s, CompactForm, pos))) ==
              if h.None? then AppendOutside(calls, CallsOf(Hits(r, s, CompactForm, pos + 1)))
              else AppendOutside(if h.value.call.Some? && !Inside(pos, calls)
                                 then Append(calls, h.value.call.value) else calls,
                                 CallsOf(Hits(r, s, CompactForm, h.value.end)))
  {
    hide Hits, CallsOf, HitAt, Append, AppendOutside, Inside;
    StepCalls(r, s, CompactForm, pos);
    var h := HitAt(r, s, CompactForm, pos);
    if h.Some? {
      var later := CallsOf(Hits(r, s, CompactForm, h.value.end));
      assert [] + later == later;
      if h.value.call.Some? {
        AppendEachNext(calls, h.value.call.value, later);
      }
    }
  }

  /** `_scan_compact_tool_json` */
  method ScanCompactToolJson(r: Reader, cleanText: string, toolCalls: seq<Found>) returns (calls: seq<Found>)
    ensures calls == AppendOutside(toolCalls, CallsIn(r, cleanText, CompactForm))
  {
    hide Hits, CallsOf, AppendOutside, Append, JsonTail, ParamsOf;
    var pos: nat := 0;
    calls := toolCalls;
    while pos < |cleanText|
      invariant AppendOutside(calls, CallsOf(Hits(r, cleanText, CompactForm, pos))) ==
                  AppendOutside(toolCalls, CallsIn(r, cleanText, CompactForm))
      decreases |cleanText| - pos
    {
      CompactStep(r, cleanText, pos, calls);
      var m := JsonTail(cleanText, pos);
      if m.None? {
        pos := pos + 1;
        continue;
      }
      var dec := r.decode(cleanText[pos..]);
      if dec.None? {
        pos := m.value;
        continue;
      }
      var Decoded(parsed, len) := dec.value;
      if IsToolObject(parsed) {
        var inside := exists k :: 0 <= k < |calls| && calls[k].start <= pos < calls[k].end;
        if !inside {
          var c := Found(pos, pos + len, parsed.fields["tool"].text, ParamsOf(parsed));
          if c.tool == "" {
            AppendNameless(calls, c);
          }
          calls := AppendToolCall(calls, c);
        }
      }
      pos := pos + len;
    }
    HitsEnd(r, cleanText, CompactForm, pos);
    AppendNothing(calls);
  }

  // What the scanners find.

  lemma BracketCharacters(s: string, pos: nat)
    requires BracketCallAt(s, pos).Some?
    ensures pos + 1 < |s| && !IsSpace(s[pos]) && Lower(s[pos]) == '[' && Lower(s[pos + 1]) == 't'
  {
    hide SkipSpace, BraceBeforeClose, Lit;
    LitCharacters(s, pos, "[tool_call]");
  }

  lemma AngleCharacters(s: string, pos: nat)
    requires AngleTail(s, pos).Some?
    ensures pos < |s| && !IsSpace(s[pos]) && Lower(s[pos]) == '<'
  {
    hide SkipSpace, Name, Lit;
    LitCharacters(s, pos, "<tool_call>");
  }

  lemma CallCharacters(s: string, pos: nat)
    requires CallTail(s, pos).Some?
    ensures pos + 1 < |s| && !IsSpace(s[pos]) && Lower(s[pos]) == '[' && Lower(s[pos + 1]) == 'c'
  {
    hide SkipSpace, Name, Lit;
    LitCharacters(s, pos, "[call");
  }

  lemma CompactCharacters(s: string, pos: nat)
    requires JsonTail(s, pos).Some?
    ensures pos < |s| && !IsSpace(s[pos]) && Lower(s[pos]) == '{'
  {
    hide SkipSpace, Lit;
    LitCharacters(s, pos, "{");
  }

  /** Where a scanner steps, the text begins with a visible character that tells the form. */
  lemma HeadCharacters(r: Reader, s: string, form: Form, pos: nat)
    requires HitAt(r, s, form, pos).Some?
    ensures pos < |s| && !IsSpace(s[pos])
    ensures form.CompactForm? ==> Lower(s[pos]) == '{'
    ensures form.AngleForm? ==> Lower(s[pos]) == '<'
    ensures form.BracketForm? ==> Lower(s[pos]) == '[' && pos + 1 < |s| && Lower(s[pos + 1]) == 't'
    ensures form.CallForm? ==> Lower(s[pos]) == '[' && pos + 1 < |s| && Lower(s[pos + 1]) == 'c'
  {
    hide BracketCallAt, AngleTail, CallTail, JsonTail, AngleCall, ParamsEnd, ParamsOf, CallName, LStrip;
    match form
    case BracketForm => BracketCharacters(s, pos);
    case AngleForm => AngleCharacters(s, pos);
    case CallForm => CallCharacters(s, pos);
    case CompactForm => CompactCharacters(s, pos);
  }

  lemma LitCharacters(s: string, i: nat, lit: string)
    requires lit != "" && !IsSpace(lit[0]) && Lit(s, i, lit).Some?
    ensures i < |s| && Lower(s[i]) == lit[0] && !IsSpace(s[i])
    ensures |lit| > 1 ==> i + 1 < |s| && Lower(s[i + 1]) == lit[1]
  {
    assert Lower(s[i + 0]) == lit[0];
    if |lit| > 1 {
      assert Lower(s[i + 1]) == lit[1];
    }
  }

  lemma FormsDiffer(r: Reader, s: string, f: Form, g: Form, pos: nat)
    requires HitAt(r, s, f, pos).Some? && HitAt(r, s, g, pos).Some?
    ensures f == g
  {
    hide HitAt;
    HeadCharacters(r, s, f, pos);
    HeadCharacters(r, s, g, pos);
  }

  /** `c` is what the text holds at its start. */
  predicate OfForm(r: Reader, s: string, form: Form, c: Found) {
    var h := HitAt(r, s, form, c.start);
    h.Some? && h.value.call == Some(c)
  }

  lemma {:induction false} CallsAreHits(r: Reader, s: string, form: Form, pos: nat, c: Found)
    requires c in CallsOf(Hits(r, s, form, pos))
    ensures OfForm(r, s, form, c) && c.tool != ""
    decreases |s| - pos
  {
    hide HitAt, Hits, CallsOf;
    if pos >= |s| {
      HitsEnd(r, s, form, pos);
    } else {
      StepCalls(r, s, form, pos);
      var h := HitAt(r, s, form, pos);
      if h.None? {
        CallsAreHits(r, s, form, pos + 1, c);
      } else if c in CallsOf(Hits(r, s, form, h.value.end)) {
        CallsAreHits(r, s, form, h.value.end, c);
      }
    }
  }

  /** Calls that lie one behind the other from `lo` on, each beginning with a visible character. */
  ghost predicate Chain(s: string, calls: seq<Found>, lo: nat) {
    if calls == [] then lo <= |s|
    else
      && lo <= calls[0].start < calls[0].end <= |s|
      && !IsSpace(s[calls[0].start])
      && Chain(s, calls[1..], calls[0].end)
  }

  lemma {:induction false} ChainEarlier(s: string, calls: seq<Found>, lo: nat, before: nat)
    requires Chain(s, calls, lo) && before <= lo
    ensures Chain(s, calls, before)
  {
  }

  lemma ChainNext(s: string, c: Found, calls: seq<Found>, lo: nat)
    requires lo <= c.start < c.end <= |s| && !IsSpace(s[c.start]) && Chain(s, calls, c.end)
    ensures Chain(s, [c] + calls, lo)
  {
    assert ([c] + calls)[1..] == calls;
  }

  lemma {:induction false} ChainStarts(s: string, calls: seq<Found>, lo: nat)
    requires Chain(s, calls, lo)
    ensures forall j, k :: 0 <= j < k < |calls| ==> calls[j].end <= calls[k].start
    ensures forall k :: 0 <= k < |calls| ==> lo <= calls[k].start < calls[k].end <= |s|
  {
    if calls != [] {
      ChainStarts(s, calls[1..], calls[0].end);
      assert forall k :: 1 <= k < |calls| ==> calls[k] == calls[1..][k - 1];
    }
  }

  /** The calls of one form lie one behind the other. */
  lemma {:induction false} CallsChain(r: Reader, s: string, form: Form, pos: nat)
    requires pos <= |s|
    ensures Chain(s, CallsOf(Hits(r, s, form, pos)), pos)
    decreases |s| - pos
  {
    hide HitAt, Hits, CallsOf, Chain;
    if pos == |s| {
      HitsEnd(r, s, form, pos);
      NothingChains(s, pos);
    } else {
      StepCalls(r, s, form, pos);
      var h := HitAt(r, s, form, pos);
      if h.None? {
        CallsChain(r, s, form, pos + 1);
        ChainEarlier(s, CallsOf(Hits(r, s, form, pos + 1)), pos + 1, pos);
      } else {
        var later := CallsOf(Hits(r, s, form, h.value.end));
        HeadCharacters(r, s, form, pos);
        CallsChain(r, s, form, h.value.end);
        if h.value.call.Some? {
          ChainNext(s, h.value.call.value, later, pos);
        } else {
          assert [] + later == later;
          ChainEarlier(s, later, h.value.end, pos);
        }
      }
    }
  }

  lemma NothingChains(s: string, pos: nat)
    requires pos <= |s|
    ensures Chain(s, [], pos)
  {
  }

  // Nothing is found twice at one start, so the check for it never drops a call.

  /** Calls with a name in the text, no two of which begin at one place. */
  ghost predicate Distinct(calls: seq<Found>, n: nat) {
    && (forall k :: 0 <= k < |calls| ==> calls[k].start < calls[k].end <= n && calls[k].tool != "")
    && (forall j, k :: 0 <= j < k < |calls| ==> calls[j].start != calls[k].start)
  }

  ghost predicate ShareNoStart(a: seq<Found>, b: seq<Found>) {
    forall j, k :: 0 <= j < |a| && 0 <= k < |b| ==> a[j].start != b[k].start
  }

  lemma ShareNoStartConcat(a: seq<Found>, b: seq<Found>, c: seq<Found>)
    requires ShareNoStart(a, c) && ShareNoStart(b, c)
    ensures ShareNoStart(a + b, c)
  {
  }

  lemma DistinctConcat(a: seq<Found>, b: seq<Found>, n: nat)
    requires Distinct(a, n) && Distinct(b, n) && ShareNoStart(a, b)
    ensures Distinct(a + b, n)
  {
  }

  lemma DistinctTail(calls: seq<Found>, more: seq<Found>, n: nat)
    requires more != [] && Distinct(more, n) && ShareNoStart(calls, more)
    ensures Distinct(more[1..], n) && ShareNoStart(calls + [more[0]], more[1..])
    ensures Append(calls, more[0]) == calls + [more[0]]
  {
    assert forall k :: 0 <= k < |more[1..]| ==> more[1..][k] == more[k + 1];
  }

  lemma {:induction false} AppendAll(calls: seq<Found>, more: seq<Found>, n: nat)
    requires Distinct(more, n) && ShareNoStart(calls, more)
    ensures AppendEach(calls, more) == calls + more
    decreases |more|
  {
    hide Distinct, ShareNoStart, Append;
    if more == [] {
      assert calls + more == calls;
    } else {
      DistinctTail(calls, more, n);
      AppendAll(calls + [more[0]], more[1..], n);
      assert calls + [more[0]] + more[1..] == calls + more;
    }
  }

  lemma InsideEither(pos: nat, calls: seq<Found>, added: seq<Found>)
    ensures Inside(pos, calls + added) <==> Inside(pos, calls) || Inside(pos, added)
  {
    if Inside(pos, calls) {
      var k :| 0 <= k < |calls| && calls[k].start <= pos < calls[k].end;
      assert (calls + added)[k] == calls[k];
    }
    if Inside(pos, added) {
      var k :| 0 <= k < |added| && added[k].start <= pos < added[k].end;
      assert (calls + added)[|calls| + k] == added[k];
    }
  }

  lemma AppendFree(marked: seq<Found>, added: seq<Found>, more: seq<Found>, n: nat)
    requires Distinct(marked, n) && Distinct(more, n) && more != [] && !Inside(more[0].start, marked + added)
    requires forall k :: 0 <= k < |added| ==> added[k].start < added[k].end
    ensures Append(marked + added, more[0]) == marked + added + [more[0]]
  {
    var calls := marked + added;
    forall k | 0 <= k < |calls|
      ensures calls[k].start != more[0].start
    {
      assert calls[k].start < calls[k].end;
    }
  }

  lemma OutsideNext(calls: seq<Found>, others: seq<Found>)
    requires calls != []
    ensures Outside(calls, others) ==
              (if Inside(calls[0].start, others) then [] else [calls[0]]) + Outside(calls[1..], others)
  {
    hide Inside;
  }

  lemma {:induction false} AppendAllOutside(s: string, marked: seq<Found>, added: seq<Found>, more: seq<Found>, lo: nat)
    requires Chain(s, more, lo) && Distinct(more, |s|) && Distinct(marked, |s|)
    requires forall k :: 0 <= k < |added| ==> added[k].start < added[k].end <= lo
    ensures AppendOutside(marked + added, more) == marked + added + Outside(more, marked)
    decreases |more|
  {
    hide Inside, Outside, Append, AppendOutside, Distinct;
    if more == [] {
      NothingOutside(marked);
      AppendNothing(marked + added);
      assert marked + added + [] == marked + added;
    } else {
      var c := more[0];
      assert more == [c] + more[1..];
      AppendEachNext(marked + added, c, more[1..]);
      DistinctTail([], more, |s|);
      InsideEither(c.start, marked, added);
      EndedBefore(c.start, added);
      OutsideNext(more, marked);
      var later := Outside(more[1..], marked);
      if Inside(c.start, marked) {
        AppendAllOutside(s, marked, added, more[1..], c.end);
        assert [] + later == later;
      } else {
        AppendFree(marked, added, more, |s|);
        assert marked + added + [c] == marked + (added + [c]);
        AppendAllOutside(s, marked, added + [c], more[1..], c.end);
        assert marked + (added + [c]) + later == marked + added + ([c] + later);
      }
    }
  }

  lemma EndedBefore(pos: nat, added: seq<Found>)
    requires forall k :: 0 <= k < |added| ==> added[k].end <= pos
    ensures !Inside(pos, added)
  {
  }

  lemma NothingOutside(others: seq<Found>)
    ensures Outside([], others) == []
  {
  }

  lemma CallsOfForm(r: Reader, s: string, form: Form)
    ensures forall k :: 0 <= k < |CallsIn(r, s, form)| ==> OfForm(r, s, form, CallsIn(r, s, form)[k])
    ensures Chain(s, CallsIn(r, s, form), 0) && Distinct(CallsIn(r, s, form), |s|)
  {
    hide Hits, CallsOf, OfForm, Chain;
    var calls := CallsIn(r, s, form);
    forall k | 0 <= k < |calls|
      ensures OfForm(r, s, form, calls[k]) && calls[k].tool != ""
    {
      CallsAreHits(r, s, form, 0, calls[k]);
    }
    CallsChain(r, s, form, 0);
    ChainStarts(s, calls, 0);
  }

  lemma StartsDiffer(r: Reader, s: string, f: Form, c: Found, g: Form, d: Found)
    requires OfForm(r, s, f, c) && OfForm(r, s, g, d) && f != g
    ensures c.start != d.start
  {
    hide HitAt;
    if c.start == d.start {
      FormsDiffer(r, s, f, g, c.start);
    }
  }

  lemma FormsApart(r: Reader, s: string, f: Form, g: Form)
    requires f != g
    ensures ShareNoStart(CallsIn(r, s, f), CallsIn(r, s, g))
  {
    hide CallsIn, OfForm, Chain, Distinct;
    CallsOfForm(r, s, f);
    CallsOfForm(r, s, g);
    forall j, k | 0 <= j < |CallsIn(r, s, f)| && 0 <= k < |CallsIn(r, s, g)|
      ensures CallsIn(r, s, f)[j].start != CallsIn(r, s, g)[k].start
    {
      StartsDiffer(r, s, f, CallsIn(r, s, f)[j], g, CallsIn(r, s, g)[k]);
    }
  }

  lemma MarkedDistinct(r: Reader, s: string)
    ensures Distinct(Marked(r, s), |s|)
    ensures AppendEach(AppendEach(AppendEach([], CallsIn(r, s, BracketForm)), CallsIn(r, s, AngleForm)),
                       CallsIn(r, s, CallForm)) == Marked(r, s)
  {
    hide CallsIn, AppendEach, Chain, OfForm, Distinct, ShareNoStart;
    var a := CallsIn(r, s, BracketForm);
    var b := CallsIn(r, s, AngleForm);
    var c := CallsIn(r, s, CallForm);
    CallsOfForm(r, s, BracketForm);
    CallsOfForm(r, s, AngleForm);
    CallsOfForm(r, s, CallForm);
    FormsApart(r, s, BracketForm, AngleForm);
    FormsApart(r, s, BracketForm, CallForm);
    FormsApart(r, s, AngleForm, CallForm);
    ShareNoStartConcat(a, b, c);
    DistinctConcat(a, b, |s|);
    DistinctConcat(a + b, c, |s|);
    NothingShares(a);
    AppendAll([], a, |s|);
    assert [] + a == a;
    AppendAll(a, b, |s|);
    AppendAll(a + b, c, |s|);
  }

  lemma NothingShares(calls: seq<Found>)
    ensures ShareNoStart([], calls)
  {
  }

  /** The scanners one behind the other append the calls of each form whole. */
  lemma ScannersAppend(r: Reader, s: string)
    ensures var marked := AppendEach(AppendEach(AppendEach([], CallsIn(r, s, BracketForm)), CallsIn(r, s, AngleForm)),
                                     CallsIn(r, s, CallForm));
            AppendOutside(marked, CallsIn(r, s, CompactForm)) ==
              Marked(r, s) + Outside(CallsIn(r, s, CompactForm), Marked(r, s))
  {
    hide *;
    MarkedDistinct(r, s);
    CallsOfForm(r, s, CompactForm);
    var marked := Marked(r, s);
    AppendAllOutside(s, marked, [], CallsIn(r, s, CompactForm), 0);
    assert marked + [] == marked;
  }

  // From the calls to the blocks.

  /** The calls with the ids that their places give them. */
  function Numbered(calls: seq<Found>, i: nat): seq<ToolUse> {
    seq(|calls|, k requires 0 <= k < |calls| => ToolUse(DefaultId(i + k), calls[k].tool, calls[k].params))
  }

  lemma UsesNext(blocks: seq<Block>)
    requires blocks != []
    ensures UsesIn(blocks) == (if blocks[0].ToolBlock? then [blocks[0].use] else []) + UsesIn(blocks[1..])
  {
  }

  lemma {:induction false} UsesConcat(a: seq<Block>, b: seq<Block>)
    ensures UsesIn(a + b) == UsesIn(a) + UsesIn(b)
    decreases |a|
  {
    if a == [] {
      assert a + b == b;
    } else {
      hide UsesIn;
      assert (a + b)[1..] == a[1..] + b;
      UsesNext(a);
      UsesNext(a + b);
      UsesConcat(a[1..], b);
    }
  }

  lemma ProseHasNoUses(s: string)
    ensures UsesIn(Prose(s)) == []
  {
    hide Blank, Strip;
  }

  lemma {:induction false} AssembledUses(clean: string, calls: seq<Found>, last: nat, i: nat)
    ensures UsesIn(Assemble(clean, calls, last, i)) == Numbered(calls, i)
    decreases |calls|
  {
    hide Prose, Slice, DefaultId, UsesIn;
    if calls == [] {
      ProseHasNoUses(Slice(clean, last, |clean|));
    } else {
      var c := calls[0];
      var use := ToolUse(DefaultId(i), c.tool, c.params);
      var later := Assemble(clean, calls[1..], c.end, i + 1);
      AssembledUses(clean, calls[1..], c.end, i + 1);
      ProseHasNoUses(Slice(clean, last, c.start));
      UsesConcat(Prose(Slice(clean, last, c.start)) + [ToolBlock(use)], later);
      UsesConcat(Prose(Slice(clean, last, c.start)), [ToolBlock(use)]);
      OneUse(use);
      assert [] + [use] + Numbered(calls[1..], i + 1) == Numbered(calls, i);
    }
  }

  lemma OneUse(use: ToolUse)
    ensures UsesIn([ToolBlock(use)]) == [use]
  {
    assert [ToolBlock(use)][1..] == [];
  }

  lemma ParseIs(r: Reader, text: string)
    ensures var calls := Scan(r, StripFences(text));
            Parse(r, text) ==
              if calls == [] then (if Blank(text) then [] else [TextBlock(text)])
              else Assemble(StripFences(text), SortByStart(calls), 0, 0)
  {
    hide Scan, SortByStart, StripFences, Assemble, Blank;
  }

  lemma ScanIs(r: Reader, s: string)
    ensures var marked := AppendEach(AppendEach(AppendEach([], CallsIn(r, s, BracketForm)), CallsIn(r, s, AngleForm)),
                                     CallsIn(r, s, CallForm));
            Scan(r, s) == ScanRuby(r, s, AppendOutside(marked, CallsIn(r, s, CompactForm)))
  {
    hide ScanRuby, CallsIn, AppendEach, AppendOutside, Outside, Marked;
    ScannersAppend(r, s);
  }

  lemma ParsedUses(r: Reader, text: string)
    ensures UsesIn(Parse(r, text)) == Numbered(SortByStart(Scan(r, StripFences(text))), 0)
  {
    hide Scan, StripFences, Assemble, Numbered;
    var calls := Scan(r, StripFences(text));
    ParseIs(r, text);
    if calls == [] {
      assert Numbered([], 0) == [] by { NothingNumbered(); }
    } else {
      AssembledUses(StripFences(text), SortByStart(calls), 0, 0);
    }
  }

  lemma NothingNumbered()
    ensures Numbered([], 0) == []
  {
  }

  /** `parse_tool_calls_from_text` */
  method ParseToolCallsFromText(r: Reader, text: string) returns (blocks: seq<Block>)
    ensures blocks == Parse(r, text)
    ensures UsesIn(blocks) == Numbered(SortByStart(Scan(r, StripFences(text))), 0)
  {
    hide *;
    ParseIs(r, text);
    ParsedUses(r, text);
    blocks := [];
    var cleanText := StripFences(text);
    ScanIs(r, cleanText);
    var toolCalls := ScanBracketToolCalls(r, cleanText, []);
    toolCalls := ScanAngleToolCalls(r, cleanText, toolCalls);
    toolCalls := ScanCallToolMarkers(r, cleanText, toolCalls);
    toolCalls := ScanCompactToolJson(r, cleanText, toolCalls);
    toolCalls := ScanRuby(r, cleanText, toolCalls);
    if toolCalls == [] {
      if !Blank(text) {
        blocks := [TextBlock(text)];
      }
      return;
    }
    var sorted := SortByStart(toolCalls);
    var lastEnd: nat := 0;
    assert sorted[0..] == sorted;
    for i := 0 to |sorted|
      invariant blocks + Assemble(cleanText, sorted[i..], lastEnd, i) == Parse(r, text)
    {
      var c := sorted[i];
      AssembleNext(cleanText, sorted, lastEnd, i);
      ghost var later := Assemble(cleanText, sorted[i + 1..], c.end, i + 1);
      var before := Prose(Slice(cleanText, lastEnd, c.start));
      var use := [ToolBlock(ToolUse(DefaultId(i), c.tool, c.params))];
      ConcatAssociates(blocks, before + use, later);
      ConcatAssociates(blocks, before, use);
      blocks := blocks + before + use;
      lastEnd := c.end;
    }
    AssembleEnd(cleanText, sorted, lastEnd);
    blocks := blocks + Prose(Slice(cleanText, lastEnd, |cleanText|));
  }

  lemma AssembleEnd(clean: string, calls: seq<Found>, last: nat)
    ensures Assemble(clean, calls[|calls|..], last, |calls|) == Prose(Slice(clean, last, |clean|))
  {
    hide Prose, Slice;
  }

  lemma AssembleNext(clean: string, calls: seq<Found>, last: nat, i: nat)
    requires i < |calls|
    ensures Assemble(clean, calls[i..], last, i) ==
              Prose(Slice(clean, last, calls[i].start)) + [ToolBlock(ToolUse(DefaultId(i), calls[i].tool, calls[i].params))]
              + Assemble(clean, calls[i + 1..], calls[i].end, i + 1)
  {
    hide Prose, Slice;
    assert calls[i..][1..] == calls[i + 1..];
  }
}

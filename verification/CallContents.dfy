/** What the calls say that are read in a reply (koraku/llm/tool_call_parse.py): name, input and extent of a call of each
    form, in terms of the text at its start. */
module CallContents {
  import opened Wrappers
  import opened Text
  import opened Json
  import opened ToolMarkers
  import opened Messages
  import opened ToolCallParse

  predicate IsDictOr(v: Json, params: Json) {
    (v.Obj? && params == v) || (!v.Obj? && params == Obj(map[]))
  }

  /** The input that a payload gives: under `parameters`, or else `input`, or else `args`; never anything but a
      dictionary. */
  predicate Gives(payload: Json, params: Json) {
    payload.Obj? &&
    var f := payload.fields;
    && ("parameters" in f ==> IsDictOr(f["parameters"], params))
    && ("parameters" !in f && "input" in f ==> IsDictOr(f["input"], params))
    && ("parameters" !in f && "input" !in f && "args" in f ==> IsDictOr(f["args"], params))
    && ("parameters" !in f && "input" !in f && "args" !in f ==> params == Obj(map[]))
  }

  lemma ParamsAre(payload: Json, params: Json)
    requires payload.Obj?
    ensures Gives(payload, params) <==> params == ParamsOf(payload)
  {
  }

  /** A tool payload names its tool and gives its input. */
  predicate Says(payload: Json, c: Found) {
    && payload.Obj? && "tool" in payload.fields && payload.fields["tool"] == Str(c.tool)
    && Gives(payload, c.params)
  }

  /** The brackets around `name` open in front of `b`. */
  predicate NamedAt(s: string, b: nat, name: string) {
    && b + |name| < |s| && name != "" && s[b..b + |name|] == name && s[b + |name|] == ']'
    && IsLetter(name[0]) && forall k :: 0 < k < |name| ==> IsWord(name[k])
  }

  /** `[Call Name]:` and a dictionary, with which the call ends. */
  predicate HoldsCall(r: Reader, s: string, c: Found)
    requires c.end <= |s|
  {
    CallTail(s, c.start).Some? &&
    var m := CallTail(s, c.start).value;
    var json := LStrip(s[m..]);
    && NamedAt(s, SkipSpace(s, c.start + 5), c.tool)
    && r.decode(json).Some? && r.decode(json).value.value == c.params && c.params.Obj?
    && |s| - c.end == |json| - r.decode(json).value.end
  }

  /** `<tool_call> [Name]` and a value, with which the call ends, unless a closing tag follows. */
  predicate HoldsAngle(r: Reader, s: string, c: Found)
    requires c.end <= |s|
  {
    AngleTail(s, c.start).Some? &&
    var m := AngleTail(s, c.start).value;
    var json := LStrip(s[m..]);
    && NamedAt(s, SkipSpace(s, c.start + 11) + 1, c.tool)
    && r.decode(json).Some? && IsDictOr(r.decode(json).value.value, c.params)
    && var tail := json[r.decode(json).value.end..];
       |s| - c.end == |tail| - if AngleClose(tail).Some? then AngleClose(tail).value else 0
  }

  /** A payload as it stands in the text. */
  predicate HoldsCompact(r: Reader, s: string, c: Found)
    requires c.start < c.end <= |s|
  {
    && JsonTail(s, c.start).Some? && r.decode(s[c.start..]).Some?
    && r.decode(s[c.start..]).value.end == c.end - c.start
    && Says(r.decode(s[c.start..]).value.value, c)
  }

  /** A payload, once normalized, between tags. */
  predicate HoldsBracket(r: Reader, s: string, c: Found, a: nat, b: nat) {
    && Encloses(s, c.start, a, b, c.end)
    && var payload := r.codec.loads(r.normalize(s[a..b]));
       payload.Some? && Says(payload.value, c)
  }

  /** The text holds the call `c` at its start. */
  ghost predicate HeldAt(r: Reader, s: string, form: Form, c: Found) {
    c.tool != "" && c.start < c.end <= |s| &&
    match form
    case CallForm => HoldsCall(r, s, c)
    case AngleForm => HoldsAngle(r, s, c)
    case CompactForm => HoldsCompact(r, s, c)
    case BracketForm => exists a: nat, b: nat :: HoldsBracket(r, s, c, a, b)
  }

  /** White space and a closing tag follow, which ends at `end`. */
  predicate ClosedAt(s: string, b: nat, end: nat) {
    b <= |s| && Lit(s, SkipSpace(s, b), "[/tool_call]") == Some(end)
  }

  /** Between its tags the bracket form encloses `s[a..b]`, up to the first closing brace that a closing tag follows. */
  predicate Encloses(s: string, start: nat, a: nat, b: nat, end: nat) {
    && BracketTail(s, start) == Some(a) && a + 1 < b <= |s| && s[a] == '{' && s[b - 1] == '}' && ClosedAt(s, b, end)
    && forall k :: a < k < b - 1 && s[k] == '}' ==> Lit(s, SkipSpace(s, k + 1), "[/tool_call]").None?
  }

  lemma {:induction false} BraceBeforeCloseIs(s: string, i: nat)
    requires i <= |s|
    ensures var r := BraceBeforeClose(s, i);
            && (r.Some? ==> s[r.value] == '}' && Lit(s, SkipSpace(s, r.value + 1), "[/tool_call]").Some?)
            && forall k :: i <= k < (if r.Some? then r.value else |s|) && s[k] == '}' ==>
                 Lit(s, SkipSpace(s, k + 1), "[/tool_call]").None?
    decreases |s| - i
  {
    hide Lit, SkipSpace;
    if i < |s| && BraceBeforeClose(s, i) != Some(i) {
      BraceBeforeCloseIs(s, i + 1);
    }
  }

  lemma EnclosedIs(s: string, start: nat, a: nat, b: nat, end: nat)
    ensures Encloses(s, start, a, b, end) ==> BracketCallAt(s, start) == Some((s[a..b], end))
  {
    hide Lit, SkipSpace, BraceBeforeClose, BracketTail;
    if Encloses(s, start, a, b, end) {
      BraceBeforeCloseIs(s, a + 1);
      var r := BraceBeforeClose(s, a + 1);
      assert r == Some(b - 1);
    }
  }

  lemma EnclosedAt(s: string, start: nat) returns (a: nat, b: nat)
    requires BracketCallAt(s, start).Some?
    ensures Encloses(s, start, a, b, BracketCallAt(s, start).value.1)
    ensures BracketCallAt(s, start).value.0 == s[a..b]
  {
    hide Lit, SkipSpace, BraceBeforeClose, BracketTail;
    a := BracketTail(s, start).value;
    BraceBeforeCloseIs(s, a + 1);
    b := BraceBeforeClose(s, a + 1).value + 1;
  }

  lemma EnclosesFits(s: string, start: nat, a: nat, b: nat, end: nat)
    requires Encloses(s, start, a, b, end)
    ensures a <= b <= |s|
  {
  }

  lemma NamedIs(s: string, b: nat, name: string)
    ensures NamedAt(s, b, name) ==> NameAt(s, b) == name
  {
    hide IsLetter, IsWord;
    if NamedAt(s, b, name) {
      assert forall k :: 0 <= k < |name| ==> s[b + k] == name[k];
      assert IsLetter(s[b]);
      NoWordBracket();
      SkipWordIs(s, b + 1, b + |name|);
    }
  }

  lemma NoWordBracket()
    ensures !IsWord(']')
  {
  }

  lemma NamedIn(s: string, b: nat)
    requires Name(s, b).Some? && Lit(s, Name(s, b).value, "]").Some?
    ensures NamedAt(s, b, NameAt(s, b))
  {
    var e := Name(s, b).value;
    SkipWordStops(s, b + 1);
    LeadChars(s, e, "]");
    assert forall k :: 0 <= k < e - b ==> s[b..e][k] == s[b + k];
  }

  lemma {:induction false} SkipWordStops(s: string, i: nat)
    requires i <= |s|
    ensures forall k :: i <= k < SkipWord(s, i) ==> IsWord(s[k])
    decreases |s| - i
  {
    hide IsWord;
    if i < |s| && IsWord(s[i]) {
      SkipWordStops(s, i + 1);
    }
  }

  /** In each form a scanner reads at a place exactly the call that the text holds there. */
  lemma CallsAreHeld(r: Reader, s: string, form: Form, c: Found)
    ensures OfForm(r, s, form, c) <==> HeldAt(r, s, form, c)
  {
    hide BracketHit, AngleHit, CallHit, CompactHit, HeldAt;
    match form
    case BracketForm => BracketHeld(r, s, c);
    case AngleForm => AngleHeld(r, s, c);
    case CallForm => CallHeld(r, s, c);
    case CompactForm => CompactHeld(r, s, c);
  }

  lemma CompactHeld(r: Reader, s: string, c: Found)
    ensures OfForm(r, s, CompactForm, c) <==> HeldAt(r, s, CompactForm, c)
  {
    hide JsonTail, ParamsOf, Gives, HoldsCall, HoldsAngle, HoldsBracket;
    if JsonTail(s, c.start).Some? && r.decode(s[c.start..]).Some? {
      var v := r.decode(s[c.start..]).value.value;
      if v.Obj? {
        ParamsAre(v, c.params);
      }
    }
  }

  lemma BracketHeld(r: Reader, s: string, c: Found)
    ensures OfForm(r, s, BracketForm, c) <==> HeldAt(r, s, BracketForm, c)
  {
    hide BracketCallAt, ParamsOf, Gives, Encloses, HoldsCall, HoldsAngle, HoldsCompact;
    if OfForm(r, s, BracketForm, c) {
      var a, b := EnclosedAt(s, c.start);
      assert a <= b <= |s| by { EnclosesFits(s, c.start, a, b, c.end); }
      if r.codec.loads(r.normalize(s[a..b])).value.Obj? {
        ParamsAre(r.codec.loads(r.normalize(s[a..b])).value, c.params);
        assert HoldsBracket(r, s, c, a, b);
      }
    }
    if HeldAt(r, s, BracketForm, c) {
      assert exists a: nat, b: nat :: HoldsBracket(r, s, c, a, b);
      var a: nat, b: nat :| HoldsBracket(r, s, c, a, b);
      EnclosedIs(s, c.start, a, b, c.end);
      EnclosesFits(s, c.start, a, b, c.end);
      ParamsAre(r.codec.loads(r.normalize(s[a..b])).value, c.params);
    }
  }

  lemma CallOfForm(r: Reader, s: string, c: Found)
    ensures OfForm(r, s, CallForm, c) <==>
            && CallTail(s, c.start).Some? && c.tool != "" && c.end <= |s|
            && var rest := s[CallTail(s, c.start).value..];
               var json := LStrip(rest);
               && r.decode(json).Some? && r.decode(json).value.value == c.params && c.params.Obj?
               && c.end == |s| - |json| + r.decode(json).value.end
               && c.tool == CallName(s, c.start)
    ensures OfForm(r, s, CallForm, c) ==> c.start < c.end
  {
    hide CallTail, CallName, LStrip;
  }

  lemma CallHeld(r: Reader, s: string, c: Found)
    ensures OfForm(r, s, CallForm, c) <==> HeldAt(r, s, CallForm, c)
  {
    hide LStrip, NamedAt, SkipSpace, NameAt, CallTail, OfForm, HoldsAngle, HoldsCompact, HoldsBracket;
    CallOfForm(r, s, c);
    if CallTail(s, c.start).Some? {
      CallNamed(s, c.start);
      NamedIs(s, SkipSpace(s, c.start + 5), c.tool);
    }
  }

  lemma CallNamed(s: string, pos: nat)
    requires CallTail(s, pos).Some?
    ensures pos + 5 <= |s| && NamedAt(s, SkipSpace(s, pos + 5), NameAt(s, SkipSpace(s, pos + 5)))
  {
    hide Name, SkipSpace, Lit, NamedAt, NameAt;
    assert Lit(s, pos, "[call").Some?;
    NamedIn(s, SkipSpace(s, pos + 5));
  }

  lemma AngleHeld(r: Reader, s: string, c: Found)
    ensures OfForm(r, s, AngleForm, c) <==> HeldAt(r, s, AngleForm, c)
  {
    hide HoldsCall, HoldsCompact, HoldsBracket, HoldsAngle, OfForm, AngleTail;
    AngleOfForm(r, s, c);
    if c.end <= |s| && c.tool != "" {
      if AngleTail(s, c.start).Some? {
        AngleHolds(r, s, c);
      } else {
        NoAngleThere(r, s, c);
      }
    }
  }

  lemma NoAngleThere(r: Reader, s: string, c: Found)
    requires c.end <= |s| && AngleTail(s, c.start).None?
    ensures !HoldsAngle(r, s, c)
  {
    hide AngleTail;
  }

  lemma AngleHolds(r: Reader, s: string, c: Found)
    requires c.end <= |s| && AngleTail(s, c.start).Some? && c.tool != ""
    ensures HoldsAngle(r, s, c) <==> AngleCall(r, s, c.start, AngleTail(s, c.start).value) == Some(c)
  {
    hide LStrip, NamedAt, SkipSpace, NameAt, AngleTail, AngleClose, AngleCall, IsDictOr;
    AngleNamed(s, c.start);
    NamedIs(s, SkipSpace(s, c.start + 11) + 1, c.tool);
    if r.decode(LStrip(s[AngleTail(s, c.start).value..])).None? {
      NoAngleCall(r, s, c.start);
    } else {
      AngleCallIs(r, s, c);
    }
  }

  lemma AngleOfForm(r: Reader, s: string, c: Found)
    ensures OfForm(r, s, AngleForm, c) <==>
            && AngleTail(s, c.start).Some? && c.tool != "" && c.end <= |s|
            && AngleCall(r, s, c.start, AngleTail(s, c.start).value) == Some(c)
    ensures OfForm(r, s, AngleForm, c) ==> c.start < c.end
  {
    hide AngleTail, AngleCall;
  }

  lemma NoAngleCall(r: Reader, s: string, pos: nat)
    requires AngleTail(s, pos).Some? && r.decode(LStrip(s[AngleTail(s, pos).value..])).None?
    ensures AngleCall(r, s, pos, AngleTail(s, pos).value).None?
  {
    hide AngleTail, LStrip, AngleClose, SkipSpace, NameAt;
  }

  lemma AngleCallGives(r: Reader, s: string, pos: nat, m: nat)
    requires AngleTail(s, pos) == Some(m) && r.decode(LStrip(s[m..])).Some? && pos + 11 <= |s|
    ensures var json := LStrip(s[m..]);
            var v := r.decode(json).value.value;
            var tail := json[r.decode(json).value.end..];
            AngleCall(r, s, pos, m) ==
            Some(Found(pos, |s| - |tail| + AngleClose(tail).GetOr(0), NameAt(s, SkipSpace(s, pos + 11) + 1),
                       if v.Obj? then v else Obj(map[])))
  {
    hide LStrip, SkipSpace, NameAt, AngleTail, AngleClose;
  }

  lemma AngleCallIs(r: Reader, s: string, c: Found)
    requires AngleTail(s, c.start).Some? && r.decode(LStrip(s[AngleTail(s, c.start).value..])).Some? && c.start + 11 <= |s|
    ensures var m := AngleTail(s, c.start).value;
            var json := LStrip(s[m..]);
            var tail := json[r.decode(json).value.end..];
            AngleCall(r, s, c.start, m) == Some(c) <==>
            && c.tool == NameAt(s, SkipSpace(s, c.start + 11) + 1)
            && IsDictOr(r.decode(json).value.value, c.params)
            && |s| - c.end == |tail| - if AngleClose(tail).Some? then AngleClose(tail).value else 0
  {
    hide LStrip, SkipSpace, NameAt, AngleTail, AngleClose, AngleCall;
    AngleCallGives(r, s, c.start, AngleTail(s, c.start).value);
  }

  lemma AngleNamed(s: string, pos: nat)
    requires AngleTail(s, pos).Some?
    ensures pos + 11 <= |s| && NamedAt(s, SkipSpace(s, pos + 11) + 1, NameAt(s, SkipSpace(s, pos + 11) + 1))
  {
    hide Name, SkipSpace, Lit, NamedAt, NameAt;
    assert Lit(s, pos, "<tool_call>").Some?;
    NamedIn(s, SkipSpace(s, pos + 11) + 1);
  }
}

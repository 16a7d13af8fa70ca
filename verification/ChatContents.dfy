/** What the messages of a chat request say (koraku/llm/canonical.py): which of a message's blocks become its text, its
    calls and its results. */
module ChatContents {
  import opened Wrappers
  import opened Text
  import opened Json
  import opened Messages
  import opened OpenAiDelta
  import opened Canonical

  // The lines of a text.

  /** One part is its own text, and the texts of two lists of parts lie on lines of their own, but that a list without
      any text takes no line. */
  lemma {:induction false} LinesOfTwo(a: seq<string>, b: seq<string>)
    ensures JoinLines([]) == "" && forall part: string :: JoinLines([part]) == part
    ensures var x, y := JoinLines(a), JoinLines(b);
            JoinLines(a + b) == if x == "" then y else if y == "" then x else x + "\n" + y
    decreases |a|
  {
    forall part: string
      ensures JoinLines([part]) == part
    {
      assert [part][1..] == [];
    }
    if a == [] {
      assert a + b == b;
    } else {
      LinesOfTwo(a[1..], b);
      assert (a + b)[1..] == a[1..] + b;
      var first, x, y := a[0], JoinLines(a[1..]), JoinLines(b);
      assert first + "\n" + (x + "\n" + y) == (first + "\n" + x) + "\n" + y;
    }
  }

  // The blocks of a kind.

  datatype Kind = Calls | AllButCalls | Results | AllButResults

  predicate IsOf(kind: Kind, b: Block) {
    match kind
    case Calls => b.ToolBlock?
    case AllButCalls => !b.ToolBlock?
    case Results => b.ResultBlock?
    case AllButResults => !b.ResultBlock?
  }

  /** The positions, in order, of the blocks of a kind. */
  ghost predicate Selects(at: seq<nat>, blocks: seq<Block>, kind: Kind) {
    && (forall i, j :: 0 <= i < j < |at| ==> at[i] < at[j])
    && (forall i :: 0 <= i < |at| ==> at[i] < |blocks|)
    && forall k: nat :: k < |blocks| ==> (k in at <==> IsOf(kind, blocks[k]))
  }

  lemma SelectedLater(later: seq<nat>, blocks: seq<Block>, kind: Kind, k: nat)
    requires blocks != [] && Selects(later, blocks[1..], kind) && k < |blocks|
    ensures var at := (if IsOf(kind, blocks[0]) then [0] else []) + Moved(later, 1);
            k in at <==> IsOf(kind, blocks[k])
  {
    hide IsOf, Moved;
    MovedMembers(later, 1, k);
    if k > 0 {
      assert blocks[k] == blocks[1..][k - 1];
    }
  }

  lemma SelectsLater(later: seq<nat>, blocks: seq<Block>, kind: Kind)
    requires blocks != [] && Selects(later, blocks[1..], kind)
    ensures Selects((if IsOf(kind, blocks[0]) then [0] else []) + Moved(later, 1), blocks, kind)
  {
    hide IsOf, Moved;
    forall k: nat | k < |blocks|
      ensures k in (if IsOf(kind, blocks[0]) then [0] else []) + Moved(later, 1) <==> IsOf(kind, blocks[k])
    {
      SelectedLater(later, blocks, kind, k);
    }
  }

  /** The line that a block gives. */
  function LineOf(e: Encoder, b: Block): string {
    if b.TextBlock? then b.text else e.render(b)
  }

  function LinesAt(e: Encoder, blocks: seq<Block>, at: seq<nat>): seq<string>
    requires forall i :: 0 <= i < |at| ==> at[i] < |blocks|
  {
    seq(|at|, i requires 0 <= i < |at| => LineOf(e, blocks[at[i]]))
  }

  lemma LinesLater(e: Encoder, blocks: seq<Block>, later: seq<nat>)
    requires blocks != [] && forall i :: 0 <= i < |later| ==> later[i] < |blocks[1..]|
    ensures LinesAt(e, blocks, Moved(later, 1)) == LinesAt(e, blocks[1..], later)
    ensures LinesAt(e, blocks, [0] + Moved(later, 1)) == [LineOf(e, blocks[0])] + LinesAt(e, blocks[1..], later)
  {
    hide Moved, LineOf;
  }

  lemma SelectsFits(at: seq<nat>, blocks: seq<Block>, kind: Kind)
    requires Selects(at, blocks, kind)
    ensures forall i :: 0 <= i < |at| ==> at[i] < |blocks|
  {
  }

  lemma {:induction false} AssistantLines(e: Encoder, blocks: seq<Block>) returns (at: seq<nat>)
    ensures Selects(at, blocks, AllButCalls) && AssistantParts(e, blocks) == LinesAt(e, blocks, at)
  {
    hide Moved;
    if blocks == [] {
      at := [];
    } else {
      hide Selects, LinesAt;
      var later := AssistantLines(e, blocks[1..]);
      SelectsLater(later, blocks, AllButCalls);
      SelectsFits(later, blocks[1..], AllButCalls);
      LinesLater(e, blocks, later);
      at := (if blocks[0].ToolBlock? then [] else [0]) + Moved(later, 1);
      assert [] + Moved(later, 1) == Moved(later, 1);
      assert [] + AssistantParts(e, blocks[1..]) == AssistantParts(e, blocks[1..]);
    }
  }

  lemma {:induction false} UserLines(e: Encoder, blocks: seq<Block>) returns (at: seq<nat>)
    ensures Selects(at, blocks, AllButResults) && UserParts(e, blocks) == LinesAt(e, blocks, at)
  {
    hide Moved;
    if blocks == [] {
      at := [];
    } else {
      hide Selects, LinesAt;
      var later := UserLines(e, blocks[1..]);
      SelectsLater(later, blocks, AllButResults);
      SelectsFits(later, blocks[1..], AllButResults);
      LinesLater(e, blocks, later);
      at := (if blocks[0].ResultBlock? then [] else [0]) + Moved(later, 1);
      assert [] + Moved(later, 1) == Moved(later, 1) && [] + UserParts(e, blocks[1..]) == UserParts(e, blocks[1..]);
    }
  }

  /** `call` is the `k`-th call of its message and encodes `use`. */
  predicate Encodes(e: Encoder, k: nat, use: ToolUse, call: Call) {
    && call.id == (if use.id == "" then "tool_" + Digits(k) else use.id)
    && call.name == use.name
    && call.arguments == e.codec.dumps(if use.input.Obj? then use.input else Obj(map[]))
  }

  ghost predicate CallsAt(e: Encoder, blocks: seq<Block>, at: seq<nat>, first: nat, calls: seq<Call>) {
    && |calls| == |at|
    && forall i :: 0 <= i < |at| ==>
         at[i] < |blocks| && blocks[at[i]].ToolBlock? && Encodes(e, first + i, blocks[at[i]].use, calls[i])
  }

  lemma CallsAtLater(e: Encoder, blocks: seq<Block>, later: seq<nat>, first: nat, calls: seq<Call>)
    requires blocks != []
    ensures !blocks[0].ToolBlock? && CallsAt(e, blocks[1..], later, first, calls) ==>
              CallsAt(e, blocks, Moved(later, 1), first, calls)
    ensures blocks[0].ToolBlock? && CallsAt(e, blocks[1..], later, first + 1, calls) ==>
              CallsAt(e, blocks, [0] + Moved(later, 1), first, [EncodeCall(e.codec, first, blocks[0].use)] + calls)
  {
    hide Encodes, EncodeCall, Moved;
    if blocks[0].ToolBlock? {
      EncodedIs(e, first, blocks[0].use);
    }
  }

  lemma {:induction false} CallsAre(e: Encoder, blocks: seq<Block>, first: nat) returns (at: seq<nat>)
    ensures Selects(at, blocks, Calls) && CallsAt(e, blocks, at, first, CallsIn(e, blocks, first))
    decreases |blocks|
  {
    hide *;
    if blocks == [] {
      at := [];
      NoCallsYet(e, first);
    } else {
      var use := blocks[0].ToolBlock?;
      var more := if use then first + 1 else first;
      var later := CallsAre(e, blocks[1..], more);
      SelectsLater(later, blocks, Calls);
      CallsAtLater(e, blocks, later, first, CallsIn(e, blocks[1..], more));
      CallsFirst(e, blocks, first);
      at := (if use then [0] else []) + Moved(later, 1);
      assert [] + Moved(later, 1) == Moved(later, 1);
    }
  }

  lemma NoCallsYet(e: Encoder, first: nat)
    ensures Selects([], [], Calls) && CallsAt(e, [], [], first, CallsIn(e, [], first))
  {
  }

  lemma CallsFirst(e: Encoder, blocks: seq<Block>, first: nat)
    requires blocks != []
    ensures CallsIn(e, blocks, first) ==
            if blocks[0].ToolBlock? then [EncodeCall(e.codec, first, blocks[0].use)] + CallsIn(e, blocks[1..], first + 1)
            else CallsIn(e, blocks[1..], first)
    ensures IsOf(Calls, blocks[0]) <==> blocks[0].ToolBlock?
  {
    hide EncodeCall;
  }

  lemma EncodedIs(e: Encoder, k: nat, use: ToolUse)
    ensures Encodes(e, k, use, EncodeCall(e.codec, k, use))
  {
    hide Digits;
  }

  ghost predicate ResultsAt(blocks: seq<Block>, at: seq<nat>, out: seq<OpenAiMessage>) {
    && |out| == |at|
    && forall i :: 0 <= i < |at| ==>
         at[i] < |blocks| && blocks[at[i]].ResultBlock?
         && out[i] == Tool(blocks[at[i]].toolUseId, blocks[at[i]].content)
  }

  lemma ResultsAtLater(blocks: seq<Block>, later: seq<nat>, out: seq<OpenAiMessage>)
    requires blocks != [] && ResultsAt(blocks[1..], later, out)
    ensures ResultsAt(blocks, Moved(later, 1), out)
    ensures blocks[0].ResultBlock? ==>
              ResultsAt(blocks, [0] + Moved(later, 1), [Tool(blocks[0].toolUseId, blocks[0].content)] + out)
  {
    hide Moved;
  }

  lemma {:induction false} ResultsAre(blocks: seq<Block>) returns (at: seq<nat>)
    ensures Selects(at, blocks, Results) && ResultsAt(blocks, at, ToolMessages(blocks))
  {
    hide Moved;
    if blocks == [] {
      at := [];
    } else {
      hide Selects, ResultsAt, ToolMessages;
      ToolMessagesFirst(blocks);
      var later := ResultsAre(blocks[1..]);
      SelectsLater(later, blocks, Results);
      ResultsAtLater(blocks, later, ToolMessages(blocks[1..]));
      at := (if blocks[0].ResultBlock? then [0] else []) + Moved(later, 1);
      assert [] + Moved(later, 1) == Moved(later, 1) && [] + ToolMessages(blocks[1..]) == ToolMessages(blocks[1..]);
    }
  }

  // Messages.

  /** What an assistant message becomes: the stripped lines of all blocks that are no calls, and the calls. */
  lemma AssistantSays(e: Encoder, blocks: seq<Block>) returns (lines: seq<nat>, uses: seq<nat>)
    ensures Selects(lines, blocks, AllButCalls) && Selects(uses, blocks, Calls)
    ensures var text := Strip(JoinLines(LinesAt(e, blocks, lines)));
            var out := TranslateOne(e, Message(Assistant, Blocks(blocks)));
            |out| == 1 &&
            if uses == [] then out[0] == Said(Assistant, text)
            else out[0].Called? && out[0].text == text && CallsAt(e, blocks, uses, 0, out[0].calls)
  {
    hide Strip, JoinLines, LinesAt, Selects, CallsIn;
    lines := AssistantLines(e, blocks);
    uses := CallsAre(e, blocks, 0);
  }

  /** What a user message becomes: its content as it is when there is an image in it; otherwise the stripped lines of
      all blocks that are no results, if they say anything, and behind them one message for each result. */
  lemma UserSays(e: Encoder, blocks: seq<Block>) returns (lines: seq<nat>, results: seq<nat>)
    ensures Selects(lines, blocks, AllButResults) && Selects(results, blocks, Results)
    ensures var text := Strip(JoinLines(LinesAt(e, blocks, lines)));
            var out := TranslateOne(e, Message(User, Blocks(blocks)));
            if exists k :: 0 <= k < |blocks| && blocks[k].ImageBlock? then out == [Multimodal(blocks)]
            else if text == "" then ResultsAt(blocks, results, out)
            else out != [] && out[0] == Said(User, text) && ResultsAt(blocks, results, out[1..])
  {
    hide Strip, JoinLines, LinesAt, Selects, ToolMessages;
    lines := UserLines(e, blocks);
    results := ResultsAre(blocks);
    var text := Strip(JoinLines(UserParts(e, blocks)));
    var out := UserMessages(e, blocks);
    assert out == (if text != "" then [Said(User, text)] else []) + ToolMessages(blocks);
    assert text != "" ==> out[1..] == ToolMessages(blocks);
  }

  /** A transcript is translated message by message, and a plain message keeps its role and its text. */
  lemma PlainSays(e: Encoder, before: seq<Message>, role: Role, text: string, after: seq<Message>)
    ensures Translate(e, before + [Message(role, Plain(text))] + after)
            == Translate(e, before) + [Said(role, text)] + Translate(e, after)
  {
    hide Translate;
    var m := Message(role, Plain(text));
    TranslateTwo(e, before + [m], after);
    TranslateTwo(e, before, [m]);
    PlainAlone(e, role, text);
  }

  lemma PlainAlone(e: Encoder, role: Role, text: string)
    ensures Translate(e, [Message(role, Plain(text))]) == [Said(role, text)]
  {
    assert [Message(role, Plain(text))][1..] == [];
  }

  lemma {:induction false} TranslateTwo(e: Encoder, a: seq<Message>, b: seq<Message>)
    ensures Translate(e, a + b) == Translate(e, a) + Translate(e, b)
    decreases |a|
  {
    hide TranslateOne, Translate;
    if a == [] {
      assert a + b == b;
      TranslateEnd(e);
    } else {
      assert a[0..] == a && (a + b)[0..] == a + b && (a + b)[1..] == a[1..] + b;
      TranslateNext(e, a, 0);
      TranslateNext(e, a + b, 0);
      TranslateTwo(e, a[1..], b);
      ConcatAssociates(TranslateOne(e, a[0]), Translate(e, a[1..]), Translate(e, b));
    }
  }
}

/** The translation of a transcript to OpenAI chat messages (koraku/llm/canonical.py). */
module Canonical {
  import opened Wrappers
  import opened Text
  import opened Json
  import opened Messages
  import opened OpenAiDelta
  import ContextManager

  datatype OpenAiMessage =
    | Said(role: Role, text: string)
    | Multimodal(parts: seq<Block>)
    | Called(text: string, calls: seq<Call>)
    | Tool(callId: string, content: string)

  /** `codec` encodes tool inputs; `render` is `json.dumps` on the blocks that have no other form. */
  datatype Encoder = Encoder(codec: Codec, render: Block -> string)

  /** `"\n".join(part for part in parts if part)` */
  function JoinLines(parts: seq<string>): string {
    if parts == [] then ""
    else
      var later := JoinLines(parts[1..]);
      if parts[0] == "" then later
      else if later == "" then parts[0]
      else parts[0] + "\n" + later
  }

  /** What a block of an assistant message adds to its text. */
  function AssistantPart(e: Encoder, b: Block): seq<string> {
    if b.TextBlock? then [b.text] else if b.ToolBlock? then [] else [e.render(b)]
  }

  function AssistantParts(e: Encoder, blocks: seq<Block>): seq<string> {
    if blocks == [] then [] else AssistantPart(e, blocks[0]) + AssistantParts(e, blocks[1..])
  }

  /** The encoded calls of an assistant message, with `k` calls before them. */
  function CallsIn(e: Encoder, blocks: seq<Block>, k: nat): seq<Call> {
    if blocks == [] then []
    else if blocks[0].ToolBlock? then [EncodeCall(e.codec, k, blocks[0].use)] + CallsIn(e, blocks[1..], k + 1)
    else CallsIn(e, blocks[1..], k)
  }

  function AssistantMessage(e: Encoder, blocks: seq<Block>): OpenAiMessage {
    var text := Strip(JoinLines(AssistantParts(e, blocks)));
    var calls := CallsIn(e, blocks, 0);
    if calls != [] then Called(text, calls) else Said(Assistant, text)
  }

  lemma AssistantNext(e: Encoder, blocks: seq<Block>, i: nat, k: nat)
    requires i < |blocks|
    ensures AssistantParts(e, blocks[i..]) == AssistantPart(e, blocks[i]) + AssistantParts(e, blocks[i + 1..])
    ensures CallsIn(e, blocks[i..], k) ==
            if blocks[i].ToolBlock? then [EncodeCall(e.codec, k, blocks[i].use)] + CallsIn(e, blocks[i + 1..], k + 1)
            else CallsIn(e, blocks[i + 1..], k)
  {
    hide AssistantPart, EncodeCall;
    assert blocks[i..][1..] == blocks[i + 1..];
  }

  lemma AssistantPartIs(e: Encoder, b: Block)
    ensures AssistantPart(e, b) == if b.TextBlock? then [b.text] else if b.ToolBlock? then [] else [e.render(b)]
  {
  }

  lemma AssistantEnd(e: Encoder, k: nat)
    ensures AssistantParts(e, []) == [] && CallsIn(e, [], k) == []
  {
  }

  /** `_assistant_openai_message` */
  method AssistantOpenAiMessage(e: Encoder, blocks: seq<Block>) returns (msg: OpenAiMessage)
    ensures msg == AssistantMessage(e, blocks)
  {
    hide JoinLines, Strip, EncodeCall, AssistantParts, CallsIn, AssistantPart;
    var textParts: seq<string>, toolCalls: seq<Call> := [], [];
    assert blocks[0..] == blocks;
    for i := 0 to |blocks|
      invariant textParts + AssistantParts(e, blocks[i..]) == AssistantParts(e, blocks)
      invariant toolCalls + CallsIn(e, blocks[i..], |toolCalls|) == CallsIn(e, blocks, 0)
    {
      AssistantNext(e, blocks, i, |toolCalls|);
      var b := blocks[i];
      ghost var laterParts, laterCalls := AssistantParts(e, blocks[i + 1..]), CallsIn(e, blocks[i + 1..], |toolCalls| + 1);
      AssistantPartIs(e, b);
      assert textParts + (AssistantPart(e, b) + laterParts) == (textParts + AssistantPart(e, b)) + laterParts;
      if b.TextBlock? {
        textParts := textParts + [b.text];
      } else if b.ToolBlock? {
        ghost var call := EncodeCall(e.codec, |toolCalls|, b.use);
        assert toolCalls + ([call] + laterCalls) == (toolCalls + [call]) + laterCalls;
        assert textParts + [] == textParts;
        toolCalls := toolCalls + [EncodeCall(e.codec, |toolCalls|, b.use)];
      } else {
        textParts := textParts + [e.render(b)];
      }
    }
    assert blocks[|blocks|..] == [];
    AssistantEnd(e, |toolCalls|);
    assert textParts == AssistantParts(e, blocks) && toolCalls == CallsIn(e, blocks, 0);
    var contentText := Strip(JoinLines(textParts));
    msg := if toolCalls != [] then Called(contentText, toolCalls) else Said(Assistant, contentText);
  }

  /** What a block of a user message adds to its text. */
  function UserPart(e: Encoder, b: Block): seq<string> {
    if b.TextBlock? then [b.text] else if b.ResultBlock? then [] else [e.render(b)]
  }

  function UserParts(e: Encoder, blocks: seq<Block>): seq<string> {
    if blocks == [] then [] else UserPart(e, blocks[0]) + UserParts(e, blocks[1..])
  }

  function ToolMessages(blocks: seq<Block>): seq<OpenAiMessage> {
    if blocks == [] then []
    else
      (if blocks[0].ResultBlock? then [Tool(blocks[0].toolUseId, blocks[0].content)] else [])
      + ToolMessages(blocks[1..])
  }

  function UserMessages(e: Encoder, blocks: seq<Block>): seq<OpenAiMessage> {
    var text := Strip(JoinLines(UserParts(e, blocks)));
    (if text != "" then [Said(User, text)] else []) + ToolMessages(blocks)
  }

  lemma UserNext(e: Encoder, blocks: seq<Block>, i: nat)
    requires i < |blocks|
    ensures UserParts(e, blocks[i..]) == UserPart(e, blocks[i]) + UserParts(e, blocks[i + 1..])
    ensures ToolMessages(blocks[i..]) == ToolMessages([blocks[i]]) + ToolMessages(blocks[i + 1..])
  {
    hide UserPart;
    assert blocks[i..][1..] == blocks[i + 1..] && [blocks[i]][1..] == [];
  }

  lemma UserEnd(e: Encoder)
    ensures UserParts(e, []) == [] && ToolMessages([]) == []
  {
  }

  lemma OneTool(b: Block)
    ensures ToolMessages([b]) == if b.ResultBlock? then [Tool(b.toolUseId, b.content)] else []
  {
    assert [b][1..] == [];
  }

  /** `_user_openai_messages`: the text first, then one message for each result. */
  method UserOpenAiMessages(e: Encoder, blocks: seq<Block>) returns (out: seq<OpenAiMessage>)
    ensures out == UserMessages(e, blocks)
  {
    hide JoinLines, Strip, UserParts, ToolMessages;
    var textParts: seq<string>, toolResults: seq<Block> := [], [];
    assert blocks[0..] == blocks;
    UserEnd(e);
    for i := 0 to |blocks|
      invariant textParts + UserParts(e, blocks[i..]) == UserParts(e, blocks)
      invariant ToolMessages(toolResults) + ToolMessages(blocks[i..]) == ToolMessages(blocks)
      invariant forall k :: 0 <= k < |toolResults| ==> toolResults[k].ResultBlock?
    {
      UserNext(e, blocks, i);
      var b := blocks[i];
      OneTool(b);
      if b.ResultBlock? {
        ToolMessagesConcat(toolResults, [b]);
        toolResults := toolResults + [b];
      } else if b.TextBlock? {
        textParts := textParts + [b.text];
      } else {
        textParts := textParts + [e.render(b)];
      }
    }
    assert blocks[|blocks|..] == [];
    assert textParts == UserParts(e, blocks) && ToolMessages(toolResults) == ToolMessages(blocks);
    var userText := Strip(JoinLines(textParts));
    out := if userText != "" then [Said(User, userText)] else [];
    ghost var front := out;
    assert toolResults[0..] == toolResults;
    for i := 0 to |toolResults|
      invariant out + ToolMessages(toolResults[i..]) == front + ToolMessages(toolResults)
    {
      UserNext(e, toolResults, i);
      OneTool(toolResults[i]);
      out := out + [Tool(toolResults[i].toolUseId, toolResults[i].content)];
    }
    assert toolResults[|toolResults|..] == [];
  }

  lemma ToolMessagesFirst(blocks: seq<Block>)
    requires blocks != []
    ensures ToolMessages(blocks) ==
              (if blocks[0].ResultBlock? then [Tool(blocks[0].toolUseId, blocks[0].content)] else [])
              + ToolMessages(blocks[1..])
  {
  }

  lemma {:induction false} ToolMessagesConcat(a: seq<Block>, b: seq<Block>)
    ensures ToolMessages(a + b) == ToolMessages(a) + ToolMessages(b)
  {
    if a == [] {
      assert a + b == b;
    } else {
      hide ToolMessages;
      ToolMessagesFirst(a);
      ToolMessagesFirst(a + b);
      assert (a + b)[1..] == a[1..] + b;
      ToolMessagesConcat(a[1..], b);
      ConcatAssociates(if a[0].ResultBlock? then [Tool(a[0].toolUseId, a[0].content)] else [], ToolMessages(a[1..]),
                       ToolMessages(b));
    }
  }

  predicate HasImage(blocks: seq<Block>) {
    exists k :: 0 <= k < |blocks| && blocks[k].ImageBlock?
  }

  function TranslateOne(e: Encoder, m: Message): seq<OpenAiMessage> {
    match m.content
    case Plain(text) => [Said(m.role, text)]
    case Blocks(blocks) =>
      if m.role.Assistant? then [AssistantMessage(e, blocks)]
      else if HasImage(blocks) then [Multimodal(blocks)]
      else UserMessages(e, blocks)
  }

  function Translate(e: Encoder, msgs: seq<Message>): seq<OpenAiMessage> {
    if msgs == [] then [] else TranslateOne(e, msgs[0]) + Translate(e, msgs[1..])
  }

  lemma TranslateNext(e: Encoder, msgs: seq<Message>, i: nat)
    requires i < |msgs|
    ensures Translate(e, msgs[i..]) == TranslateOne(e, msgs[i]) + Translate(e, msgs[i + 1..])
  {
    hide TranslateOne;
    assert msgs[i..][1..] == msgs[i + 1..];
  }

  lemma TranslateEnd(e: Encoder)
    ensures Translate(e, []) == []
  {
  }

  /** `openai_chat_messages_from_agent_messages` */
  method OpenAiChatMessages(e: Encoder, messages: seq<Message>) returns (openaiMsgs: seq<OpenAiMessage>)
    ensures openaiMsgs == Translate(e, messages)
  {
    hide AssistantMessage, UserMessages, HasImage, Translate;
    openaiMsgs := [];
    assert messages[0..] == messages;
    for i := 0 to |messages|
      invariant openaiMsgs + Translate(e, messages[i..]) == Translate(e, messages)
    {
      TranslateNext(e, messages, i);
      var msg := messages[i];
      if msg.content.Plain? {
        openaiMsgs := openaiMsgs + [Said(msg.role, msg.content.text)];
      } else if msg.role.User? && HasImage(msg.content.blocks) {
        openaiMsgs := openaiMsgs + [Multimodal(msg.content.blocks)];
      } else if msg.role.Assistant? {
        var one := AssistantOpenAiMessage(e, msg.content.blocks);
        openaiMsgs := openaiMsgs + [one];
      } else {
        var several := UserOpenAiMessages(e, msg.content.blocks);
        openaiMsgs := openaiMsgs + several;
      }
    }
    assert messages[|messages|..] == [];
    TranslateEnd(e);
  }

  // Every call is answered, at once and in order.

  function CallIds(m: OpenAiMessage): seq<string> {
    if m.Called? then seq(|m.calls|, k requires 0 <= k < |m.calls| => m.calls[k].id) else []
  }

  /** With answers to `due` next: each `tool_calls` message is directly followed by `tool` messages that
      answer its ids one by one, and no other `tool` message occurs. */
  predicate Answered(due: seq<string>, out: seq<OpenAiMessage>)
    decreases |out|
  {
    if out == [] then due == []
    else if due != [] then out[0].Tool? && out[0].callId == due[0] && Answered(due[1..], out[1..])
    else !out[0].Tool? && Answered(CallIds(out[0]), out[1..])
  }

  /** No id that the transcript asks results for is empty. */
  predicate AllNamed(msgs: seq<Message>) {
    forall i: nat :: i < |msgs| ==> "" !in UseIds(msgs[i])
  }

  lemma {:induction false} AnsweredTools(due: seq<string>, blocks: seq<Block>, out: seq<OpenAiMessage>)
    requires |ResultsIn(blocks)| == |due|
    ensures Answered(due, ToolMessages(blocks) + out) <==> ResultsIn(blocks) == due && Answered([], out)
    decreases |blocks|
  {
    var all := ToolMessages(blocks) + out;
    if blocks == [] {
      assert all == out;
    } else if blocks[0].ResultBlock? {
      assert all[0] == Tool(blocks[0].toolUseId, blocks[0].content);
      assert all[1..] == ToolMessages(blocks[1..]) + out;
      AnsweredTools(due[1..], blocks[1..], out);
      assert ResultsIn(blocks)[1..] == ResultsIn(blocks[1..]);
      assert ResultsIn(blocks) == [blocks[0].toolUseId] + ResultsIn(blocks[1..]);
      assert due == [due[0]] + due[1..];
    } else {
      assert ToolMessages(blocks) == ToolMessages(blocks[1..]);
      AnsweredTools(due, blocks[1..], out);
    }
  }

  lemma {:induction false} CallsMatchUses(e: Encoder, blocks: seq<Block>, k: nat)
    ensures var calls := CallsIn(e, blocks, k);
            var uses := UsesIn(blocks);
            && |calls| == |uses|
            && forall j :: 0 <= j < |uses| ==> calls[j].id == if uses[j].id != "" then uses[j].id else DefaultId(k + j)
  {
    hide DefaultId;
    if blocks != [] {
      if blocks[0].ToolBlock? {
        CallsMatchUses(e, blocks[1..], k + 1);
        assert CallsIn(e, blocks, k)[1..] == CallsIn(e, blocks[1..], k + 1);
        assert UsesIn(blocks)[1..] == UsesIn(blocks[1..]);
      } else {
        CallsMatchUses(e, blocks[1..], k);
        assert UsesIn(blocks) == UsesIn(blocks[1..]);
      }
    }
  }

  /** An assistant message is translated to the ids it uses, except that an empty id is replaced. */
  lemma TranslatedIds(e: Encoder, m: Message)
    requires m.role.Assistant?
    ensures |TranslateOne(e, m)| == 1 && !TranslateOne(e, m)[0].Tool?
    ensures var ids := CallIds(TranslateOne(e, m)[0]);
            && |ids| == |UseIds(m)|
            && (ids == UseIds(m) <==> "" !in UseIds(m))
  {
    hide JoinLines, Strip, AssistantParts, DefaultId;
    CallsMatchUses(e, BlocksOf(m), 0);
    var ids := CallIds(TranslateOne(e, m)[0]);
    var want := UseIds(m);
    if "" in want {
      var j :| 0 <= j < |want| && want[j] == "";
      DefaultIdSome(j);
      assert ids[j] != want[j];
    }
  }

  lemma DefaultIdSome(i: int)
    ensures DefaultId(i) != ""
  {
    assert DefaultId(i)[0] == 't';
  }

  lemma {:induction false} ResultsGiveNoText(e: Encoder, blocks: seq<Block>)
    requires forall k :: 0 <= k < |blocks| ==> blocks[k].ResultBlock?
    ensures UserParts(e, blocks) == []
  {
    if blocks != [] {
      assert forall k :: 0 <= k < |blocks[1..]| ==> blocks[1..][k] == blocks[k + 1];
      ResultsGiveNoText(e, blocks[1..]);
    }
  }

  /** A message of results becomes just its tool messages. */
  lemma ResultsTranslate(e: Encoder, m: Message)
    requires ResultsOnly(m)
    ensures TranslateOne(e, m) == ToolMessages(BlocksOf(m))
  {
    ResultsGiveNoText(e, BlocksOf(m));
    assert [] + ToolMessages(BlocksOf(m)) == ToolMessages(BlocksOf(m));
  }

  lemma {:induction false} NoResultsNoTools(blocks: seq<Block>)
    requires ResultsIn(blocks) == []
    ensures ToolMessages(blocks) == []
  {
    if blocks != [] {
      NoResultsNoTools(blocks[1..]);
    }
  }

  /** A user message without results adds at most one message, which is no tool message. */
  lemma PlainUserTranslates(e: Encoder, m: Message, out: seq<OpenAiMessage>)
    requires m.role.User? && ResultIds(m) == []
    ensures Answered([], TranslateOne(e, m) + out) <==> Answered([], out)
  {
    hide JoinLines, Strip, UserParts;
    NoResultsNoTools(BlocksOf(m));
    var one := TranslateOne(e, m);
    if one == [] {
      assert one + out == out;
    } else {
      assert |one| == 1 && !one[0].Tool? && CallIds(one[0]) == [];
      assert (one + out)[1..] == out;
    }
  }

  lemma UnansweredCalls(due: seq<string>, ids: seq<string>, e: Encoder, msgs: seq<Message>)
    requires |due| == |ids| > 0
    requires msgs != [] && Answers(msgs[0], ids)
    ensures Answered(due, Translate(e, msgs)) <==> due == ids && Answered([], Translate(e, msgs[1..]))
  {
    hide Answered, TranslateOne;
    ResultsTranslate(e, msgs[0]);
    AnsweredTools(due, BlocksOf(msgs[0]), Translate(e, msgs[1..]));
  }

  /** A paired transcript translates to one in which every call is answered at once and in order,
      exactly when no tool use has an empty id. */
  lemma {:induction false} TranslationAnswersCalls(e: Encoder, msgs: seq<Message>)
    requires Paired(msgs)
    ensures Answered([], Translate(e, msgs)) <==> AllNamed(msgs)
    decreases |msgs|
  {
    hide TranslateOne, UseIds, ResultIds, Answers;
    if msgs == [] {
      assert Answered([], []);
    } else if msgs[0].role.User? {
      assert UseIds(msgs[0]) == [] by { UserUsesNothing(msgs[0]); }
      TranslationAnswersCalls(e, msgs[1..]);
      PlainUserTranslates(e, msgs[0], Translate(e, msgs[1..]));
      NamedSplit(msgs, 1);
    } else {
      TranslatedIds(e, msgs[0]);
      var one := TranslateOne(e, msgs[0]);
      var out := Translate(e, msgs);
      assert out[0] == one[0] && out[1..] == Translate(e, msgs[1..]);
      NamedSplit(msgs, 1);
      if UseIds(msgs[0]) == [] {
        TranslationAnswersCalls(e, msgs[1..]);
      } else {
        assert msgs[1..][1..] == msgs[2..];
        assert PairedAfter(UseIds(msgs[0]), msgs[1..]);
        AnswersSome(msgs[1], UseIds(msgs[0]));
        TranslationAnswersCalls(e, msgs[2..]);
        UnansweredCalls(CallIds(one[0]), UseIds(msgs[0]), e, msgs[1..]);
        NamedSplit(msgs[1..], 1);
      }
    }
  }

  lemma UserUsesNothing(m: Message)
    requires m.role.User?
    ensures UseIds(m) == []
  {
  }

  lemma NamedSplit(msgs: seq<Message>, k: nat)
    requires k == 1 && k <= |msgs|
    ensures AllNamed(msgs) <==> "" !in UseIds(msgs[0]) && AllNamed(msgs[1..])
  {
    hide UseIds;
    assert forall i: nat :: i < |msgs[1..]| ==> msgs[1..][i] == msgs[i + 1];
    if "" !in UseIds(msgs[0]) && AllNamed(msgs[1..]) {
      forall i: nat | i < |msgs|
        ensures "" !in UseIds(msgs[i])
      {
        if i > 0 {
          assert msgs[i] == msgs[1..][i - 1];
        }
      }
    }
  }

  /** Behind messages that use and answer nothing, the rest is answered as on its own. */
  lemma {:induction false} PlainFront(e: Encoder, front: seq<Message>, back: seq<Message>)
    requires forall i: nat :: i < |front| ==> UseIds(front[i]) == [] && ResultIds(front[i]) == []
    ensures Answered([], Translate(e, front + back)) <==> Answered([], Translate(e, back))
    ensures AllNamed(front + back) <==> AllNamed(back)
    decreases |front|
  {
    hide UseIds, ResultIds, TranslateOne, AllNamed;
    if front == [] {
      assert front + back == back;
    } else {
      var m, later := front[0], front[1..] + back;
      assert (front + back)[1..] == later && (front + back)[0] == m;
      PlainFront(e, front[1..], back);
      NamedSplit(front + back, 1);
      if m.role.User? {
        PlainUserTranslates(e, m, Translate(e, later));
      } else {
        TranslatedIds(e, m);
        PlainAssistantTranslates(e, m, Translate(e, later));
      }
    }
  }

  lemma PlainAssistantTranslates(e: Encoder, m: Message, out: seq<OpenAiMessage>)
    requires m.role.Assistant? && UseIds(m) == []
    ensures Answered([], TranslateOne(e, m) + out) <==> Answered([], out)
  {
    hide UseIds, AssistantMessage;
    TranslatedIds(e, m);
    var one := TranslateOne(e, m);
    assert |one| == 1 && (one + out)[1..] == out;
  }

  /** An orphan result message leaves its results unasked for. */
  lemma OrphanIsUnanswered(e: Encoder, msgs: seq<Message>)
    requires msgs != [] && ResultsOnly(msgs[0])
    ensures !Answered([], Translate(e, msgs)) && ResultIds(msgs[0]) != []
  {
    ResultsTranslate(e, msgs[0]);
    var blocks := BlocksOf(msgs[0]);
    assert blocks[0].ResultBlock?;
    hide TranslateOne;
    assert ToolMessages(blocks)[0].Tool?;
    assert Translate(e, msgs)[0] == ToolMessages(blocks)[0];
  }

  /** What is sent to an OpenAI-shaped provider, cut or not, answers every call at once and in order exactly
      when all ids are named and the first message behind the cut brings no orphan results. */
  lemma SentTranscriptIsAnswered(e: Encoder, mgr: ContextManager.Manager, msgs: seq<Message>)
    requires Paired(msgs) && (msgs != [] ==> UseIds(msgs[0]) == []) && mgr.maxMessages >= 2
    ensures var sent := ContextManager.Process(mgr, msgs);
            var seam := ContextManager.Seam(mgr, |ContextManager.Cleaned(mgr, msgs)|);
            && seam <= |sent|
            && (Answered([], Translate(e, sent)) <==>
                  AllNamed(sent) && (seam < |sent| ==> ResultIds(sent[seam]) == []))
  {
    hide *;
    ContextManager.ProcessKeepsPairing(mgr, msgs);
    var sent := ContextManager.Process(mgr, msgs);
    var seam := ContextManager.Seam(mgr, |ContextManager.Cleaned(mgr, msgs)|);
    SuffixIsAnswered(e, sent[..seam], sent[seam..]);
    assert sent[..seam] + sent[seam..] == sent;
  }

  lemma SuffixIsAnswered(e: Encoder, front: seq<Message>, back: seq<Message>)
    requires forall i: nat :: i < |front| ==> UseIds(front[i]) == [] && ResultIds(front[i]) == []
    requires ContextManager.PairedButFirst(back)
    ensures Answered([], Translate(e, front + back)) <==>
              AllNamed(front + back) && (back != [] ==> ResultIds(back[0]) == [])
  {
    hide UseIds, ResultIds, ResultsOnly, PairedAfter, Translate, Answered, AllNamed;
    PlainFront(e, front, back);
    if Paired(back) {
      TranslationAnswersCalls(e, back);
      if back != [] {
        ContextManager.FirstIsNoResult(back);
      }
    } else {
      OrphanIsUnanswered(e, back);
    }
  }

  /** A tool use with an empty id is paired with an empty one, but sent with the default id. */
  lemma EmptyIdIsUnanswered(e: Encoder)
    ensures var msgs := [Message(Assistant, Blocks([ToolBlock(ToolUse("", "Read", Obj(map[])))])),
                         Message(User, Blocks([ResultBlock("", "done", false)]))];
            Paired(msgs) && !Answered([], Translate(e, msgs))
  {
    var use, result := ToolBlock(ToolUse("", "Read", Obj(map[]))), ResultBlock("", "done", false);
    var asks, answers := Message(Assistant, Blocks([use])), Message(User, Blocks([result]));
    var msgs := [asks, answers];
    assert [use][1..] == [] && [result][1..] == [];
    assert UsesIn([]) == [] && UsesIn([use]) == [use.use] + UsesIn([]);
    assert ResultsIn([]) == [] && ResultsIn([result]) == [""] + ResultsIn([]);
    assert Ids([use.use]) == [""];
    assert UseIds(asks) == [""] && ResultIds(answers) == [""] && ResultIds(asks) == [];
    assert ResultsOnly(answers) && UseIds(answers) == [];
    hide UseIds, ResultIds, ResultsOnly, Translate;
    assert msgs[1..] == [answers] && [answers][1..] == [];
    assert PairedAfter([], [answers][1..]);
    assert PairedAfter([""], [answers]);
    assert Paired(msgs);
    assert "" in UseIds(msgs[0]);
    TranslationAnswersCalls(e, msgs);
  }
}

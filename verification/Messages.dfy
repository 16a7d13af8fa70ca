/** The messages of a conversation (koraku/core/models.py) and the discipline that pairs tool calls
    with their results. */
module Messages {
  import opened Json

  datatype ToolUse = ToolUse(id: string, name: string, input: Json)

  datatype Block =
    | TextBlock(text: string)
    | ThinkingBlock(text: string)
    | ToolBlock(use: ToolUse)
    | ResultBlock(toolUseId: string, content: string, isError: bool)
    | ImageBlock(data: string)

  datatype Role = User | Assistant

  datatype Content = Plain(text: string) | Blocks(blocks: seq<Block>)

  datatype Message = Message(role: Role, content: Content)

  function BlocksOf(m: Message): seq<Block> {
    if m.content.Blocks? then m.content.blocks else []
  }

  function UsesIn(blocks: seq<Block>): seq<ToolUse> {
    if blocks == [] then []
    else (if blocks[0].ToolBlock? then [blocks[0].use] else []) + UsesIn(blocks[1..])
  }

  function Ids(uses: seq<ToolUse>): seq<string> {
    seq(|uses|, k requires 0 <= k < |uses| => uses[k].id)
  }

  function ResultsIn(blocks: seq<Block>): seq<string> {
    if blocks == [] then []
    else (if blocks[0].ResultBlock? then [blocks[0].toolUseId] else []) + ResultsIn(blocks[1..])
  }

  /** The ids that an assistant message asks results for. */
  function UseIds(m: Message): seq<string> {
    if m.role.Assistant? then Ids(UsesIn(BlocksOf(m))) else []
  }

  /** The ids that a user message brings results for. */
  function ResultIds(m: Message): seq<string> {
    if m.role.User? then ResultsIn(BlocksOf(m)) else []
  }

  /** `_user_is_tool_results_only` */
  predicate ResultsOnly(m: Message) {
    m.role.User? && BlocksOf(m) != [] && forall k :: 0 <= k < |BlocksOf(m)| ==> BlocksOf(m)[k].ResultBlock?
  }

  /** `m` holds exactly the results for `ids`, in order. */
  predicate Answers(m: Message, ids: seq<string>) {
    ResultsOnly(m) && ResultIds(m) == ids
  }

  /** With results for `pending` due first: every message that uses tools is directly followed by one
      that answers it exactly, and results stand nowhere else. */
  predicate PairedAfter(pending: seq<string>, msgs: seq<Message>)
    decreases |msgs|
  {
    if pending != [] then
      msgs != [] && Answers(msgs[0], pending) && PairedAfter([], msgs[1..])
    else
      msgs == [] || (ResultIds(msgs[0]) == [] && PairedAfter(UseIds(msgs[0]), msgs[1..]))
  }

  predicate Paired(msgs: seq<Message>) {
    PairedAfter([], msgs)
  }

  /** The ids that are still due at the end. */
  function Due(pending: seq<string>, msgs: seq<Message>): seq<string>
    decreases |msgs|
  {
    if msgs == [] then pending else Due(if pending != [] then [] else UseIds(msgs[0]), msgs[1..])
  }

  /** A paired beginning that may still wait for results. */
  predicate PairedSoFar(pending: seq<string>, msgs: seq<Message>)
    decreases |msgs|
  {
    msgs == [] ||
    if pending != [] then Answers(msgs[0], pending) && PairedSoFar([], msgs[1..])
    else ResultIds(msgs[0]) == [] && PairedSoFar(UseIds(msgs[0]), msgs[1..])
  }

  /** A list is paired when its front is paired so far and its tail continues it. */
  lemma {:induction false} PairedConcat(pending: seq<string>, a: seq<Message>, b: seq<Message>)
    ensures PairedAfter(pending, a + b) <==> PairedSoFar(pending, a) && PairedAfter(Due(pending, a), b)
    decreases |a|
  {
    hide Answers, ResultIds, UseIds;
    if a == [] {
      assert a + b == b;
    } else {
      assert (a + b)[1..] == a[1..] + b;
      PairedConcat(if pending != [] then [] else UseIds(a[0]), a[1..], b);
    }
  }

  lemma {:induction false} PairedIsComplete(pending: seq<string>, msgs: seq<Message>)
    ensures PairedAfter(pending, msgs) <==> PairedSoFar(pending, msgs) && Due(pending, msgs) == []
    decreases |msgs|
  {
    hide Answers, ResultIds, UseIds;
    if msgs != [] {
      PairedIsComplete(if pending != [] then [] else UseIds(msgs[0]), msgs[1..]);
    }
  }

  /** Message `i` agrees with its neighbours; the results of the first message answer `pending`. */
  predicate PairedAt(pending: seq<string>, msgs: seq<Message>, i: nat)
    requires i < |msgs|
  {
    && (UseIds(msgs[i]) != [] ==> i + 1 < |msgs| && Answers(msgs[i + 1], UseIds(msgs[i])))
    && (ResultIds(msgs[i]) != [] ==> Answers(msgs[i], if i == 0 then pending else UseIds(msgs[i - 1])))
  }

  lemma AnswersSome(m: Message, ids: seq<string>)
    requires Answers(m, ids)
    ensures ids != [] && UseIds(m) == []
  {
  }

  lemma NoAnswer(m: Message)
    ensures !Answers(m, [])
  {
    if Answers(m, []) {
      AnswersSome(m, []);
    }
  }

  lemma PairedNext(pending: seq<string>, msgs: seq<Message>)
    requires msgs != []
    ensures PairedAfter(pending, msgs) <==>
            && (if pending != [] then Answers(msgs[0], pending) else ResultIds(msgs[0]) == [])
            && PairedAfter(UseIds(msgs[0]), msgs[1..])
  {
    hide Answers, ResultIds, UseIds;
    if pending != [] && Answers(msgs[0], pending) {
      AnswersSome(msgs[0], pending);
    }
  }

  lemma PairedAtNext(pending: seq<string>, msgs: seq<Message>)
    requires msgs != []
    ensures (forall i: nat :: i < |msgs| ==> PairedAt(pending, msgs, i)) <==>
            && PairedAt(pending, msgs, 0)
            && forall i: nat :: i < |msgs[1..]| ==> PairedAt(UseIds(msgs[0]), msgs[1..], i)
  {
    hide Answers, ResultIds, UseIds;
    var rest := msgs[1..];
    assert forall i: nat :: i < |rest| ==> PairedAt(UseIds(msgs[0]), rest, i) == PairedAt(pending, msgs, i + 1);
    if forall i: nat :: i < |rest| ==> PairedAt(UseIds(msgs[0]), rest, i) {
      forall i: nat | 1 <= i < |msgs|
        ensures PairedAt(pending, msgs, i)
      {
        assert PairedAt(UseIds(msgs[0]), rest, i - 1);
      }
    }
  }

  lemma {:induction false} PairedFrom(pending: seq<string>, msgs: seq<Message>)
    ensures PairedAfter(pending, msgs) <==>
            && (pending != [] ==> msgs != [] && Answers(msgs[0], pending))
            && forall i: nat :: i < |msgs| ==> PairedAt(pending, msgs, i)
    decreases |msgs|
  {
    if msgs != [] {
      PairedNext(pending, msgs);
      PairedAtNext(pending, msgs);
      PairedFrom(UseIds(msgs[0]), msgs[1..]);
      NoAnswer(msgs[0]);
      hide Answers, ResultIds, UseIds, PairedAfter;
    }
  }

  /** The pairing discipline, index by index: a message that uses tools is directly followed by one
      that answers exactly its ids in order, and results stand only in such an answer. */
  lemma PairedByIndex(msgs: seq<Message>)
    ensures Paired(msgs) <==> forall i: nat :: i < |msgs| ==> PairedAt([], msgs, i)
  {
    PairedFrom([], msgs);
  }
}

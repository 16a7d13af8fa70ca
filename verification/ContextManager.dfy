/** `ContextManager.process_messages` (koraku/agent/context_manager.py): what of a transcript is sent
    to the model, and what the rewriting leaves of its pairing. */
module ContextManager {
  import opened Wrappers
  import opened Text
  import opened Messages

  /** `Manager` holds the settings; `summarize` writes the summary text, whose content does not matter. */
  datatype Manager = Manager(
    maxMessages: nat,
    summarizeAfter: int,
    maxToolResultChars: nat,
    compactToolRounds: bool,
    summarize: seq<Message> -> string)

  const KEEP_RECENT: nat := 8

  // Block predicates.

  /** `_assistant_is_tool_use_only` */
  predicate ToolUseOnly(m: Message) {
    && m.role.Assistant?
    && (exists k :: 0 <= k < |BlocksOf(m)| && BlocksOf(m)[k].ToolBlock?)
    && forall k :: 0 <= k < |BlocksOf(m)| ==>
         var b := BlocksOf(m)[k];
         b.ToolBlock? || b.ThinkingBlock? || (b.TextBlock? && Blank(b.text))
  }

  /** `_assistant_has_visible_text` */
  predicate HasVisibleText(m: Message) {
    m.role.Assistant? &&
    match m.content
    case Plain(text) => !Blank(text)
    case Blocks(blocks) => exists k :: 0 <= k < |blocks| && blocks[k].TextBlock? && !Blank(blocks[k].text)
  }

  // Dropping thinking and truncating results: one message at a time.

  function WithoutThinking(blocks: seq<Block>): seq<Block> {
    if blocks == [] then []
    else (if blocks[0].ThinkingBlock? then [] else [blocks[0]]) + WithoutThinking(blocks[1..])
  }

  function TruncationNote(max: nat): string {
    "\n...[truncated: tool result exceeded " + Digits(max) + " chars for LLM context]"
  }

  function Truncated(mgr: Manager, b: Block): Block {
    if b.ResultBlock? && |b.content| > mgr.maxToolResultChars
    then b.(content := b.content[..mgr.maxToolResultChars] + TruncationNote(mgr.maxToolResultChars))
    else b
  }

  function TruncatedAll(mgr: Manager, blocks: seq<Block>): seq<Block> {
    if blocks == [] then [] else [Truncated(mgr, blocks[0])] + TruncatedAll(mgr, blocks[1..])
  }

  function Thoughtless(m: Message): Message {
    if m.content.Plain? then m else Message(m.role, Blocks(WithoutThinking(m.content.blocks)))
  }

  function Shortened(mgr: Manager, m: Message): Message {
    if m.content.Plain? then m else Message(m.role, Blocks(TruncatedAll(mgr, m.content.blocks)))
  }

  /** What truncation makes of a block: results that are too long keep their beginning, id and flag, and get a
      note; everything else stays. */
  predicate CutDown(max: nat, before: Block, after: Block) {
    if before.ResultBlock? && |before.content| > max then
      && after.ResultBlock? && after.toolUseId == before.toolUseId && after.isError == before.isError
      && after.content == before.content[..max]
                          + "\n...[truncated: tool result exceeded " + Digits(max) + " chars for LLM context]"
    else after == before
  }

  /** `after` is `before` with every block cut down. */
  predicate CutDownMessage(max: nat, before: Message, after: Message) {
    && after.role == before.role
    && match before.content
       case Plain(_) => after == before
       case Blocks(blocks) =>
         && after.content.Blocks? && |after.content.blocks| == |blocks|
         && forall k :: 0 <= k < |blocks| ==> CutDown(max, blocks[k], after.content.blocks[k])
  }

  /** `after` is `before` without its thinking blocks. */
  ghost predicate WithoutThoughts(before: Message, after: Message) {
    && after.role == before.role
    && match before.content
       case Plain(_) => after == before
       case Blocks(blocks) =>
         && after.content.Blocks?
         && exists at: seq<nat> ::
              && Picks(at, blocks, after.content.blocks)
              && forall k: nat :: k < |blocks| ==> (k in at <==> !blocks[k].ThinkingBlock?)
  }

  lemma {:induction false} ThoughtsAreLeftOut(blocks: seq<Block>) returns (at: seq<nat>)
    ensures Picks(at, blocks, WithoutThinking(blocks))
    ensures forall k: nat :: k < |blocks| ==> (k in at <==> !blocks[k].ThinkingBlock?)
  {
    hide Picks, Moved, WithoutThinking;
    if blocks == [] {
      at := [];
      NoThoughts();
    } else {
      var later := ThoughtsAreLeftOut(blocks[1..]);
      at := Moved(later, 1);
      forall k: nat
        ensures k in Moved(later, 1) <==> k >= 1 && (k - 1) in later
      {
        MovedMembers(later, 1, k);
      }
      WithoutThinkingFirst(blocks);
      if blocks[0].ThinkingBlock? {
        PicksLater(later, blocks, WithoutThinking(blocks[1..]), 1);
      } else {
        PicksFirst(later, blocks, WithoutThinking(blocks[1..]));
        at := [0] + at;
      }
    }
  }

  lemma NoThoughts()
    ensures Picks([], [], WithoutThinking([]))
  {
  }

  lemma ThoughtlessIs(m: Message)
    ensures WithoutThoughts(m, Thoughtless(m))
  {
    hide Picks, WithoutThinking;
    if m.content.Blocks? {
      var at := ThoughtsAreLeftOut(m.content.blocks);
    }
  }

  lemma {:induction false} TruncatedAt(mgr: Manager, blocks: seq<Block>)
    ensures |TruncatedAll(mgr, blocks)| == |blocks|
    ensures forall k :: 0 <= k < |blocks| ==> CutDown(mgr.maxToolResultChars, blocks[k], TruncatedAll(mgr, blocks)[k])
  {
    hide CutDown, Truncated;
    if blocks != [] {
      TruncatedAt(mgr, blocks[1..]);
      CutDownOne(mgr, blocks[0]);
    }
  }

  lemma CutDownOne(mgr: Manager, b: Block)
    ensures CutDown(mgr.maxToolResultChars, b, Truncated(mgr, b))
  {
    if b.ResultBlock? && |b.content| > mgr.maxToolResultChars {
      var front := b.content[..mgr.maxToolResultChars];
      ConcatAssociates(front + "\n...[truncated: tool result exceeded ", Digits(mgr.maxToolResultChars),
                       " chars for LLM context]");
      ConcatAssociates(front, "\n...[truncated: tool result exceeded ",
                       Digits(mgr.maxToolResultChars) + " chars for LLM context]");
      ConcatAssociates("\n...[truncated: tool result exceeded ", Digits(mgr.maxToolResultChars),
                       " chars for LLM context]");
    }
  }

  lemma ShortenedIs(mgr: Manager, m: Message)
    ensures CutDownMessage(mgr.maxToolResultChars, m, Shortened(mgr, m))
  {
    hide CutDown, TruncatedAll;
    if m.content.Blocks? {
      TruncatedAt(mgr, m.content.blocks);
    }
  }

  function Each(f: Message -> Message, msgs: seq<Message>): (r: seq<Message>)
    ensures |r| == |msgs|
  {
    seq(|msgs|, k requires 0 <= k < |msgs| => f(msgs[k]))
  }

  /** The loop over the blocks of one message. */
  method WithoutThinkingBlocks(blocks: seq<Block>) returns (filtered: seq<Block>)
    ensures filtered == WithoutThinking(blocks)
  {
    hide WithoutThinking;
    filtered := [];
    assert blocks[0..] == blocks;
    for k := 0 to |blocks|
      invariant filtered + WithoutThinking(blocks[k..]) == WithoutThinking(blocks)
    {
      assert blocks[k..][1..] == blocks[k + 1..];
      WithoutThinkingFirst(blocks[k..]);
      if !blocks[k].ThinkingBlock? {
        ConcatAssociates(filtered, [blocks[k]], WithoutThinking(blocks[k + 1..]));
        filtered := filtered + [blocks[k]];
      }
    }
    assert blocks[|blocks|..] == [];
    NothingToThink();
  }

  lemma NothingToThink()
    ensures WithoutThinking([]) == []
  {
  }

  /** `_drop_thinking` */
  method DropThinking(messages: seq<Message>) returns (result: seq<Message>)
    ensures result == Each(Thoughtless, messages)
    ensures |result| == |messages| && forall i :: 0 <= i < |messages| ==> WithoutThoughts(messages[i], result[i])
  {
    hide WithoutThoughts;
    result := [];
    for i := 0 to |messages|
      invariant result == Each(Thoughtless, messages)[..i]
    {
      var msg := messages[i];
      assert Each(Thoughtless, messages)[..i + 1] == Each(Thoughtless, messages)[..i] + [Thoughtless(msg)];
      if msg.content.Plain? {
        result := result + [msg];
      } else {
        var filtered := WithoutThinkingBlocks(msg.content.blocks);
        result := result + [Message(msg.role, Blocks(filtered))];
      }
    }
    forall i | 0 <= i < |messages|
      ensures WithoutThoughts(messages[i], result[i])
    {
      ThoughtlessIs(messages[i]);
    }
  }

  /** `_truncate_tool_results` */
  method TruncateToolResults(mgr: Manager, messages: seq<Message>) returns (result: seq<Message>)
    ensures result == Each(m => Shortened(mgr, m), messages)
    ensures |result| == |messages|
    ensures forall i :: 0 <= i < |messages| ==> CutDownMessage(mgr.maxToolResultChars, messages[i], result[i])
  {
    hide CutDownMessage;
    result := [];
    ghost var whole := Each(m => Shortened(mgr, m), messages);
    for i := 0 to |messages|
      invariant result == whole[..i]
    {
      var msg := messages[i];
      assert whole[..i + 1] == whole[..i] + [Shortened(mgr, msg)];
      if msg.content.Plain? {
        result := result + [msg];
      } else {
        var filtered := [];
        var blocks := msg.content.blocks;
        for k := 0 to |blocks|
          invariant filtered + TruncatedAll(mgr, blocks[k..]) == TruncatedAll(mgr, blocks)
        {
          assert blocks[k..][1..] == blocks[k + 1..];
          filtered := filtered + [Truncated(mgr, blocks[k])];
        }
        assert blocks[|blocks|..] == [] && filtered + [] == filtered;
        result := result + [Message(msg.role, Blocks(filtered))];
      }
    }
    forall i | 0 <= i < |messages|
      ensures CutDownMessage(mgr.maxToolResultChars, messages[i], result[i])
    {
      ShortenedIs(mgr, messages[i]);
    }
  }

  // Dropping completed tool rounds.

  /** A tool-only turn and its results that visible text of the assistant directly follows. */
  predicate Completed(msgs: seq<Message>) {
    |msgs| > 2 && ToolUseOnly(msgs[0]) && ResultsOnly(msgs[1]) && HasVisibleText(msgs[2])
  }

  function DropRounds(msgs: seq<Message>): seq<Message> {
    if msgs == [] then []
    else if Completed(msgs) then DropRounds(msgs[2..])
    else [msgs[0]] + DropRounds(msgs[1..])
  }

  /** `_drop_completed_tool_round_pairs` */
  method DropCompletedToolRoundPairs(messages: seq<Message>) returns (out: seq<Message>)
    ensures out == DropRounds(messages)
  {
    hide ToolUseOnly, HasVisibleText, ResultsOnly, DropRounds;
    out := [];
    var i, n := 0, |messages|;
    assert messages[0..] == messages;
    while i < n
      invariant i <= n
      invariant out + DropRounds(messages[i..]) == DropRounds(messages)
    {
      DropNext(messages, i);
      var cur := messages[i];
      if i + 2 < n && ToolUseOnly(cur) && ResultsOnly(messages[i + 1]) && HasVisibleText(messages[i + 2]) {
        i := i + 2;
        continue;
      }
      ConcatAssociates(out, [cur], DropRounds(messages[i + 1..]));
      out := out + [cur];
      i := i + 1;
    }
    assert messages[i..] == [];
    DropNothing();
  }

  lemma DropNext(msgs: seq<Message>, i: nat)
    requires i < |msgs|
    ensures DropRounds(msgs[i..]) ==
              if i + 2 < |msgs| && ToolUseOnly(msgs[i]) && ResultsOnly(msgs[i + 1]) && HasVisibleText(msgs[i + 2])
              then DropRounds(msgs[i + 2..])
              else [msgs[i]] + DropRounds(msgs[i + 1..])
  {
    hide ToolUseOnly, HasVisibleText, ResultsOnly;
    assert msgs[i..][1..] == msgs[i + 1..];
    if i + 2 < |msgs| {
      assert msgs[i..][2..] == msgs[i + 2..];
      assert msgs[i..][1] == msgs[i + 1] && msgs[i..][2] == msgs[i + 2];
    }
  }

  // The two cuts.

  predicate SummaryCuts(mgr: Manager, n: nat) {
    n > mgr.summarizeAfter && n > KEEP_RECENT + 1
  }

  /** `_summarize_if_needed`: the first message, a summary, and the last eight. */
  function Summarize(mgr: Manager, msgs: seq<Message>): seq<Message> {
    if !SummaryCuts(mgr, |msgs|) then msgs
    else
      var cut := |msgs| - KEEP_RECENT;
      [msgs[0], Message(User, Plain(mgr.summarize(msgs[1..cut])))] + msgs[cut..]
  }

  /** `_apply_sliding_window`: the first message and the last ones. Python's `messages[-0:]` is the
      whole list, so a limit of 1 doubles the first message, and a limit of 0 changes nothing. */
  function Window(mgr: Manager, msgs: seq<Message>): seq<Message> {
    if |msgs| <= mgr.maxMessages || mgr.maxMessages == 0 then msgs
    else if mgr.maxMessages == 1 then [msgs[0]] + msgs
    else [msgs[0]] + msgs[|msgs| - (mgr.maxMessages - 1)..]
  }

  /** The messages before the cuts. */
  function Cleaned(mgr: Manager, msgs: seq<Message>): seq<Message> {
    var thoughtless := Each(Thoughtless, msgs);
    var compact := if mgr.compactToolRounds then DropRounds(thoughtless) else thoughtless;
    Each(m => Shortened(mgr, m), compact)
  }

  function Process(mgr: Manager, msgs: seq<Message>): seq<Message> {
    Window(mgr, Summarize(mgr, Cleaned(mgr, msgs)))
  }

  /** `process_messages` */
  method ProcessMessages(mgr: Manager, messages: seq<Message>) returns (cleaned: seq<Message>)
    ensures cleaned == Process(mgr, messages)
  {
    cleaned := DropThinking(messages);
    if mgr.compactToolRounds {
      cleaned := DropCompletedToolRoundPairs(cleaned);
    }
    cleaned := TruncateToolResults(mgr, cleaned);
    cleaned := Summarize(mgr, cleaned);
    cleaned := Window(mgr, cleaned);
  }

  /** Where the kept suffix begins in the result: behind the first message, behind the summary too,
      or at the start when nothing is cut. `n` is the number of cleaned messages. */
  function Seam(mgr: Manager, n: nat): nat {
    var m := if SummaryCuts(mgr, n) then KEEP_RECENT + 2 else n;
    if m > mgr.maxMessages then 1 else if SummaryCuts(mgr, n) then 2 else 0
  }

  // What is kept of the pairing.

  /** `f` changes neither which ids a message asks for nor which it answers. */
  ghost predicate KeepsIds(f: Message -> Message) {
    forall m: Message ::
      && UseIds(f(m)) == UseIds(m)
      && ResultIds(f(m)) == ResultIds(m)
      && (ResultsOnly(m) ==> ResultsOnly(f(m)))
  }

  lemma WithoutThinkingFirst(blocks: seq<Block>)
    requires blocks != []
    ensures WithoutThinking(blocks) ==
              if blocks[0].ThinkingBlock? then WithoutThinking(blocks[1..]) else [blocks[0]] + WithoutThinking(blocks[1..])
  {
  }

  lemma IdsFirst(blocks: seq<Block>)
    requires blocks != []
    ensures UsesIn(blocks) == (if blocks[0].ToolBlock? then [blocks[0].use] else []) + UsesIn(blocks[1..])
    ensures ResultsIn(blocks) == (if blocks[0].ResultBlock? then [blocks[0].toolUseId] else []) + ResultsIn(blocks[1..])
  {
  }

  lemma {:induction false} ThinkingHasNoIds(blocks: seq<Block>)
    ensures UsesIn(WithoutThinking(blocks)) == UsesIn(blocks)
    ensures ResultsIn(WithoutThinking(blocks)) == ResultsIn(blocks)
    ensures (forall k :: 0 <= k < |blocks| ==> blocks[k].ResultBlock?) ==> WithoutThinking(blocks) == blocks
  {
    if blocks != [] {
      hide WithoutThinking, UsesIn, ResultsIn;
      ThinkingHasNoIds(blocks[1..]);
      var later := WithoutThinking(blocks[1..]);
      WithoutThinkingFirst(blocks);
      IdsFirst(blocks);
      if !blocks[0].ThinkingBlock? {
        IdsFirst([blocks[0]] + later);
        assert ([blocks[0]] + later)[1..] == later;
      }
      if forall k :: 0 <= k < |blocks| ==> blocks[k].ResultBlock? {
        assert forall k :: 0 <= k < |blocks[1..]| ==> blocks[1..][k] == blocks[k + 1];
      }
    }
  }

  lemma {:induction false} TruncatingKeepsIds(mgr: Manager, blocks: seq<Block>)
    ensures var r := TruncatedAll(mgr, blocks);
            && UsesIn(r) == UsesIn(blocks) && ResultsIn(r) == ResultsIn(blocks) && |r| == |blocks|
            && forall k :: 0 <= k < |blocks| && blocks[k].ResultBlock? ==> r[k].ResultBlock?
  {
    if blocks != [] {
      TruncatingKeepsIds(mgr, blocks[1..]);
      var later := TruncatedAll(mgr, blocks[1..]);
      assert TruncatedAll(mgr, blocks)[1..] == later;
    }
  }

  lemma ThoughtlessKeepsIds()
    ensures KeepsIds(Thoughtless)
  {
    forall m: Message
      ensures UseIds(Thoughtless(m)) == UseIds(m) && ResultIds(Thoughtless(m)) == ResultIds(m)
      ensures ResultsOnly(m) ==> ResultsOnly(Thoughtless(m))
    {
      ThinkingHasNoIds(BlocksOf(m));
    }
  }

  lemma ShortenedKeepsIds(mgr: Manager)
    ensures KeepsIds(m => Shortened(mgr, m))
  {
    forall m: Message
      ensures UseIds(Shortened(mgr, m)) == UseIds(m) && ResultIds(Shortened(mgr, m)) == ResultIds(m)
      ensures ResultsOnly(m) ==> ResultsOnly(Shortened(mgr, m))
    {
      TruncatingKeepsIds(mgr, BlocksOf(m));
    }
  }

  lemma {:induction false} EachKeepsPairing(f: Message -> Message, pending: seq<string>, msgs: seq<Message>)
    requires KeepsIds(f) && PairedAfter(pending, msgs)
    ensures PairedAfter(pending, Each(f, msgs))
    decreases |msgs|
  {
    hide UseIds, ResultIds, ResultsOnly;
    if msgs != [] {
      assert Each(f, msgs)[1..] == Each(f, msgs[1..]);
      EachKeepsPairing(f, if pending != [] then [] else UseIds(msgs[0]), msgs[1..]);
    }
  }

  lemma ToolTurnUses(m: Message)
    requires ToolUseOnly(m)
    ensures UseIds(m) != []
  {
    SomeUse(BlocksOf(m));
  }

  lemma {:induction false} SomeUse(blocks: seq<Block>)
    requires exists k :: 0 <= k < |blocks| && blocks[k].ToolBlock?
    ensures UsesIn(blocks) != []
  {
    if !blocks[0].ToolBlock? {
      var k :| 0 <= k < |blocks| && blocks[k].ToolBlock?;
      assert blocks[1..][k - 1] == blocks[k];
      SomeUse(blocks[1..]);
    }
  }

  /** Dropping completed rounds keeps the pairing, and a first message that uses no tool stays first. */
  lemma {:induction false} DropRoundsKeepsPairing(pending: seq<string>, msgs: seq<Message>)
    requires PairedAfter(pending, msgs)
    ensures PairedAfter(pending, DropRounds(msgs))
    ensures msgs != [] && UseIds(msgs[0]) == [] ==> DropRounds(msgs) != [] && DropRounds(msgs)[0] == msgs[0]
    decreases |msgs|
  {
    hide UseIds, ResultIds, Answers, ToolUseOnly, ResultsOnly, HasVisibleText;
    if msgs != [] {
      if Completed(msgs) {
        ToolTurnUses(msgs[0]);
        if pending != [] {
          AnswersSome(msgs[0], pending);
        }
        assert msgs[1..][1..] == msgs[2..];
        DropRoundsKeepsPairing([], msgs[2..]);
      } else {
        DropRoundsKeepsPairing(if pending != [] then [] else UseIds(msgs[0]), msgs[1..]);
        assert DropRounds(msgs)[1..] == DropRounds(msgs[1..]);
      }
    }
  }

  /** Before the cuts the messages are paired, and the first one is still there, with no tool use. */
  lemma CleanedIsPaired(mgr: Manager, msgs: seq<Message>)
    requires Paired(msgs) && (msgs != [] ==> UseIds(msgs[0]) == [])
    ensures var c := Cleaned(mgr, msgs);
            Paired(c) && (c != [] ==> UseIds(c[0]) == [])
  {
    hide UseIds, ResultIds, Answers, ResultsOnly, DropRounds, PairedAfter;
    var thoughtless := Each(Thoughtless, msgs);
    ThoughtlessKeepsIds();
    EachKeepsPairing(Thoughtless, [], msgs);
    DropRoundsKeepsPairing([], thoughtless);
    var compact := if mgr.compactToolRounds then DropRounds(thoughtless) else thoughtless;
    if msgs == [] {
      assert DropRounds([]) == [] by { DropNothing(); }
    } else {
      assert UseIds(thoughtless[0]) == [];
    }
    ShortenedKeepsIds(mgr);
    EachKeepsPairing(m => Shortened(mgr, m), [], compact);
  }

  lemma DropNothing()
    ensures DropRounds([]) == []
  {
  }

  /** Paired, except that the first message may hold results that nothing asked for. */
  predicate PairedButFirst(msgs: seq<Message>) {
    Paired(msgs) || (msgs != [] && ResultsOnly(msgs[0]) && Paired(msgs[1..]))
  }

  lemma SuffixIsPairedButFirst(msgs: seq<Message>, k: nat)
    requires Paired(msgs) && k <= |msgs|
    ensures PairedButFirst(msgs[k..])
  {
    hide UseIds, ResultIds, ResultsOnly;
    assert msgs == msgs[..k] + msgs[k..];
    PairedConcat([], msgs[..k], msgs[k..]);
  }

  lemma PlainIsPaired(m: Message)
    requires UseIds(m) == [] && ResultIds(m) == []
    ensures Paired([m])
  {
    assert [m][1..] == [];
  }

  lemma FirstIsNoResult(msgs: seq<Message>)
    requires Paired(msgs) && msgs != []
    ensures ResultIds(msgs[0]) == []
  {
  }

  lemma WindowIs(mgr: Manager, s: seq<Message>)
    requires mgr.maxMessages >= 2 && |s| > mgr.maxMessages
    ensures Window(mgr, s) == [s[0]] + s[|s| - (mgr.maxMessages - 1)..]
  {
  }

  /** What is sent to the model is paired in front of the seam, and behind it too, except that the
      first message of the kept suffix may have lost the tool use that it answers. Without a cut the
      seam is at the start, and everything is paired. */
  lemma ProcessKeepsPairing(mgr: Manager, msgs: seq<Message>)
    requires Paired(msgs) && (msgs != [] ==> UseIds(msgs[0]) == []) && mgr.maxMessages >= 2
    ensures var out := Process(mgr, msgs);
            var seam := Seam(mgr, |Cleaned(mgr, msgs)|);
            && seam <= |out|
            && Paired(out[..seam]) && PairedButFirst(out[seam..])
            && (forall i: nat :: i < seam ==> UseIds(out[i]) == [] && ResultIds(out[i]) == [])
            && (seam == 0 ==> Paired(out))
  {
    hide UseIds, ResultIds, ResultsOnly, Cleaned, PairedAfter, PairedButFirst;
    CleanedIsPaired(mgr, msgs);
    var c := Cleaned(mgr, msgs);
    var s := Summarize(mgr, c);
    var out := Window(mgr, s);
    if c != [] {
      FirstIsNoResult(c);
      PlainIsPaired(c[0]);
    }
    if |s| > mgr.maxMessages {
      var k := |s| - (mgr.maxMessages - 1);
      WindowIs(mgr, s);
      assert out[..1] == [c[0]] && out[1..] == s[k..];
      if SummaryCuts(mgr, |c|) {
        assert s[k..] == c[|c| - KEEP_RECENT + k - 2..];
        SuffixIsPairedButFirst(c, |c| - KEEP_RECENT + k - 2);
      } else {
        SuffixIsPairedButFirst(c, k);
      }
    } else if SummaryCuts(mgr, |c|) {
      var cut := |c| - KEEP_RECENT;
      var summary := out[1];
      assert out[..2] == [c[0]] + [summary] && out[2..] == c[cut..];
      SummaryIsPlain(summary);
      PlainIsPaired(summary);
      PairedConcat([], [c[0]], [summary]);
      PairedIsComplete([], [c[0]]);
      SuffixIsPairedButFirst(c, cut);
    } else {
      assert out[..0] == [] && out[0..] == out;
      SuffixIsPairedButFirst(c, 0);
      assert Paired([]) by { NothingIsPaired(); }
    }
  }

  lemma SummaryIsPlain(m: Message)
    requires m.content.Plain?
    ensures UseIds(m) == [] && ResultIds(m) == []
  {
  }

  lemma NothingIsPaired()
    ensures Paired([])
  {
  }

  /** A tool-only turn and its results. */
  type Round = (Message, Message)

  predicate IsRound(r: Round) {
    ToolUseOnly(r.0) && ResultsOnly(r.1)
  }

  function Chain(rounds: seq<Round>): seq<Message> {
    if rounds == [] then [] else [rounds[0].0, rounds[0].1] + Chain(rounds[1..])
  }

  lemma ToolOnlyShowsNothing(m: Message)
    requires ToolUseOnly(m)
    ensures !HasVisibleText(m)
  {
  }

  lemma DropKeepsOne(msgs: seq<Message>)
    requires msgs != [] && !Completed(msgs)
    ensures DropRounds(msgs) == [msgs[0]] + DropRounds(msgs[1..])
  {
    hide Completed;
  }

  /** Dropping completed rounds is not idempotent: of a chain of rounds in front of an answer each pass
      takes only the last one. */
  lemma {:induction false} ChainLosesOnlyLast(rounds: seq<Round>, said: Message)
    requires rounds != [] && HasVisibleText(said) && forall k :: 0 <= k < |rounds| ==> IsRound(rounds[k])
    ensures DropRounds(Chain(rounds) + [said]) == Chain(rounds[..|rounds| - 1]) + [said]
    decreases |rounds|
  {
    hide ToolUseOnly, ResultsOnly, HasVisibleText;
    assert IsRound(rounds[0]);
    if |rounds| == 1 {
      DropsOneRound(rounds[0], said);
      assert rounds == [rounds[0]] && rounds[..0] == [];
    } else {
      hide DropRounds, Chain, IsRound;
      var later := rounds[1..];
      ChainLosesOnlyLast(later, said);
      assert IsRound(later[0]);
      KeepsRound(rounds[0], later, said);
      assert rounds == [rounds[0]] + later;
      ChainNext(rounds[0], later[..|later| - 1]);
      assert rounds[..|rounds| - 1] == [rounds[0]] + later[..|later| - 1];
      ConcatAssociates([rounds[0].0, rounds[0].1], Chain(later[..|later| - 1]), [said]);
    }
  }

  lemma ChainNext(round: Round, later: seq<Round>)
    ensures Chain([round] + later) == [round.0, round.1] + Chain(later)
  {
    assert ([round] + later)[1..] == later;
  }

  lemma DropsOneRound(round: Round, said: Message)
    requires IsRound(round) && HasVisibleText(said)
    ensures DropRounds(Chain([round]) + [said]) == [said] == Chain([]) + [said]
  {
    hide ToolUseOnly, ResultsOnly, HasVisibleText;
    ChainNext(round, []);
    assert [round] + [] == [round];
    var msgs := Chain([round]) + [said];
    assert msgs == [round.0, round.1, said] && msgs[2..] == [said];
    DropLast(said);
  }

  lemma ChainBegins(rounds: seq<Round>, said: Message)
    requires rounds != []
    ensures var msgs := Chain(rounds) + [said]; |msgs| > 1 && msgs[0] == rounds[0].0
  {
  }

  /** A turn and its results that no visible text follows are kept. */
  lemma KeepsTwo(use: Message, results: Message, behind: seq<Message>)
    requires ResultsOnly(results) && behind != [] && !HasVisibleText(behind[0])
    ensures DropRounds([use, results] + behind) == [use, results] + DropRounds(behind)
  {
    hide ToolUseOnly, ResultsOnly, HasVisibleText, DropRounds;
    ResultsAreNoTurn(results);
    var msgs := [use, results] + behind;
    assert msgs[2] == behind[0];
    DropKeepsOne(msgs);
    assert msgs[1..] == [results] + behind;
    DropKeepsOne([results] + behind);
    assert ([results] + behind)[1..] == behind;
  }

  /** A round that another follows is kept. */
  lemma KeepsRound(round: Round, later: seq<Round>, said: Message)
    requires IsRound(round) && later != [] && IsRound(later[0])
    ensures DropRounds(Chain([round] + later) + [said]) == [round.0, round.1] + DropRounds(Chain(later) + [said])
  {
    hide ToolUseOnly, ResultsOnly, HasVisibleText, DropRounds, Chain;
    ChainNext(round, later);
    ConcatAssociates([round.0, round.1], Chain(later), [said]);
    ChainBegins(later, said);
    ToolOnlyShowsNothing(later[0].0);
    KeepsTwo(round.0, round.1, Chain(later) + [said]);
  }

  lemma ResultsAreNoTurn(m: Message)
    requires ResultsOnly(m)
    ensures !ToolUseOnly(m)
  {
  }

  lemma DropLast(m: Message)
    ensures DropRounds([m]) == [m]
  {
    assert [m][1..] == [];
  }
}

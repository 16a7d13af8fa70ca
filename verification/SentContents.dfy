/** What the messages say that the context manager (koraku/agent/context_manager.py) sends: which of the
    transcript's messages are among them, and what is left of each. */
module SentContents {
  import opened Wrappers
  import opened Text
  import opened Messages
  import opened ContextManager

  // Completed tool rounds.

  predicate Visible(text: string) {
    exists c :: 0 <= c < |text| && !IsSpace(text[c])
  }

  /** An assistant message with something to read in it. */
  predicate Speaks(m: Message) {
    && m.role.Assistant?
    && match m.content
       case Plain(text) => Visible(text)
       case Blocks(blocks) => exists k :: 0 <= k < |blocks| && blocks[k].TextBlock? && Visible(blocks[k].text)
  }

  /** An assistant message with tool calls and nothing to read. */
  predicate OnlyCalls(m: Message) {
    && m.role.Assistant? && m.content.Blocks?
    && (exists k :: 0 <= k < |m.content.blocks| && m.content.blocks[k].ToolBlock?)
    && forall k :: 0 <= k < |m.content.blocks| ==>
         match m.content.blocks[k]
         case TextBlock(text) => !Visible(text)
         case ToolBlock(_) => true
         case ThinkingBlock(_) => true
         case _ => false
  }

  /** A user message that brings tool results and nothing else. */
  predicate OnlyResults(m: Message) {
    m.role.User? && m.content.Blocks? && m.content.blocks != []
    && forall k :: 0 <= k < |m.content.blocks| ==> m.content.blocks[k].ResultBlock?
  }

  /** At `k` stand tool calls and their results, and right behind them the assistant speaks. */
  predicate RoundAt(msgs: seq<Message>, k: int) {
    0 <= k && k + 2 < |msgs| && OnlyCalls(msgs[k]) && OnlyResults(msgs[k + 1]) && Speaks(msgs[k + 2])
  }

  lemma VisibleIs(text: string)
    ensures Visible(text) <==> !Blank(text)
  {
  }

  lemma SpeaksIs(m: Message)
    ensures Speaks(m) <==> HasVisibleText(m)
  {
    hide Visible, Blank;
    forall text: string
      ensures Visible(text) <==> !Blank(text)
    {
      VisibleIs(text);
    }
  }

  lemma OnlyCallsIs(m: Message)
    ensures OnlyCalls(m) <==> ToolUseOnly(m)
  {
    hide Visible, Blank;
    forall text: string
      ensures Visible(text) <==> !Blank(text)
    {
      VisibleIs(text);
    }
    if m.content.Blocks? {
      assert BlocksOf(m) == m.content.blocks;
    }
  }

  lemma OnlyResultsIs(m: Message)
    ensures OnlyResults(m) <==> ResultsOnly(m)
  {
    if m.content.Blocks? {
      assert BlocksOf(m) == m.content.blocks;
    }
  }

  lemma RoundAtStart(msgs: seq<Message>)
    ensures RoundAt(msgs, 0) <==> Completed(msgs)
    ensures RoundAt(msgs, 0) ==> !RoundAt(msgs, 1)
  {
    hide Speaks, HasVisibleText, ToolUseOnly, ResultsOnly;
    if |msgs| > 2 {
      OnlyCallsIs(msgs[0]);
      OnlyResultsIs(msgs[1]);
      SpeaksIs(msgs[2]);
    }
  }

  lemma RoundLater(msgs: seq<Message>, n: nat, k: nat)
    requires n <= |msgs|
    ensures RoundAt(msgs[n..], k) <==> RoundAt(msgs, k + n)
  {
    hide OnlyCalls, OnlyResults, Speaks;
    if k + n + 2 < |msgs| {
      assert msgs[n..][k] == msgs[k + n] && msgs[n..][k + 1] == msgs[k + n + 1] && msgs[n..][k + 2] == msgs[k + n + 2];
    }
  }

  predicate InRound(msgs: seq<Message>, k: int) {
    RoundAt(msgs, k) || RoundAt(msgs, k - 1)
  }

  lemma KeptLater(msgs: seq<Message>, n: nat, later: seq<nat>, k: nat)
    requires msgs != [] && n == (if RoundAt(msgs, 0) then 2 else 1) && n <= k < |msgs|
    requires forall j: nat :: j < |msgs[n..]| ==> (j in later <==> !InRound(msgs[n..], j))
    ensures (k - n) in later <==> !InRound(msgs, k)
  {
    hide RoundAt;
    RoundAtStart(msgs);
    RoundLater(msgs, n, k - n);
    if k > n {
      RoundLater(msgs, n, k - n - 1);
    } else {
      NoRoundBefore(msgs[n..]);
    }
  }

  /** Dropping completed rounds leaves out exactly the two messages of each of them. */
  lemma {:induction false} RoundsAreDropped(msgs: seq<Message>) returns (at: seq<nat>)
    ensures Picks(at, msgs, DropRounds(msgs))
    ensures forall k: nat :: k < |msgs| ==> (k in at <==> !InRound(msgs, k))
    decreases |msgs|
  {
    hide RoundAt, DropRounds, Picks, InRound, Completed;
    if msgs == [] {
      at := [];
      DropNothing();
      PicksNothing(msgs);
    } else {
      RoundAtStart(msgs);
      assert RoundAt(msgs, 0) ==> |msgs| > 2 by { RoundFits(msgs); }
      var n := if RoundAt(msgs, 0) then 2 else 1;
      var later := RoundsAreDropped(msgs[n..]);
      at := Moved(later, n);
      if n == 2 {
        DropTwo(msgs);
        PicksLater(later, msgs, DropRounds(msgs[2..]), 2);
      } else {
        DropKeepsOne(msgs);
        PicksFirst(later, msgs, DropRounds(msgs[1..]));
        at := [0] + at;
      }
      forall k: nat | k < |msgs|
        ensures k in at <==> !InRound(msgs, k)
      {
        MovedMembers(later, n, k);
        FirstsInRound(msgs);
        if k >= n {
          KeptLater(msgs, n, later, k);
        }
      }
    }
  }

  lemma RoundFits(msgs: seq<Message>)
    ensures RoundAt(msgs, 0) ==> |msgs| > 2
  {
  }

  lemma FirstsInRound(msgs: seq<Message>)
    ensures InRound(msgs, 0) <==> RoundAt(msgs, 0)
    ensures RoundAt(msgs, 0) ==> InRound(msgs, 1)
  {
  }

  lemma PicksNothing(msgs: seq<Message>)
    ensures Picks([], msgs, [])
  {
  }

  lemma NoRoundBefore(msgs: seq<Message>)
    ensures !RoundAt(msgs, -1)
  {
  }

  lemma DropTwo(msgs: seq<Message>)
    requires Completed(msgs)
    ensures DropRounds(msgs) == DropRounds(msgs[2..])
  {
    hide ToolUseOnly, ResultsOnly, HasVisibleText;
  }

  // The cleaned messages.

  /** `after` is `before` without its thinking and with its long results cut down. */
  ghost predicate Sends(max: nat, before: Message, after: Message) {
    exists mid :: WithoutThoughts(before, mid) && CutDownMessage(max, mid, after)
  }

  /** The messages without their thinking, from which completed rounds are told. */
  ghost predicate AllWithoutThoughts(msgs: seq<Message>, mids: seq<Message>) {
    |mids| == |msgs| && forall i :: 0 <= i < |msgs| ==> WithoutThoughts(msgs[i], mids[i])
  }

  /** In front of the cuts: every message of the transcript in order, but those of completed rounds when these are
      compacted; each with the same role, text and calls, without thinking, and with long results cut down. */
  lemma CleanedIs(mgr: Manager, msgs: seq<Message>) returns (at: seq<nat>, mids: seq<Message>)
    ensures AllWithoutThoughts(msgs, mids)
    ensures |at| == |Cleaned(mgr, msgs)| && forall i, j :: 0 <= i < j < |at| ==> at[i] < at[j]
    ensures forall i :: 0 <= i < |at| ==>
              at[i] < |msgs| && Sends(mgr.maxToolResultChars, msgs[at[i]], Cleaned(mgr, msgs)[i])
    ensures forall k: nat :: k < |msgs| ==> (k in at <==> !mgr.compactToolRounds || !InRound(mids, k))
  {
    hide Thoughtless, Shortened, WithoutThoughts, CutDownMessage, DropRounds, RoundAt;
    mids := Each(Thoughtless, msgs);
    forall i | 0 <= i < |msgs|
      ensures WithoutThoughts(msgs[i], mids[i])
    {
      ThoughtlessIs(msgs[i]);
    }
    if mgr.compactToolRounds {
      at := RoundsAreDropped(mids);
    } else {
      at := seq(|msgs|, k => k);
      forall k: nat | k < |msgs|
        ensures k in at
      {
        assert at[k] == k;
      }
    }
    var compact := if mgr.compactToolRounds then DropRounds(mids) else mids;
    forall i | 0 <= i < |at|
      ensures Sends(mgr.maxToolResultChars, msgs[at[i]], Cleaned(mgr, msgs)[i])
    {
      assert compact[i] == mids[at[i]];
      ShortenedIs(mgr, compact[i]);
    }
  }

  // The cuts.

  /** What is sent of the cleaned messages `c`, limit by limit. A history that is longer than `summarizeAfter`, and
      than the nine messages that always stay, is the first message, a summary and the last eight. Of more than
      `maxMessages` it is the first and the last ones; `maxMessages` of 0 cuts nothing and of 1 nothing either, but
      sends the first message twice. */
  lemma CutsAre(mgr: Manager, msgs: seq<Message>)
    ensures var c, out := Cleaned(mgr, msgs), Process(mgr, msgs);
            var n, max := |c|, mgr.maxMessages;
            var long := n > mgr.summarizeAfter && n > 9;
            && (!long && (n <= max || max == 0) ==> out == c)
            && (!long && n > max == 1 ==> out == [c[0]] + c)
            && (!long && n > max >= 2 ==> out == [c[0]] + c[n - (max - 1)..])
            && (long ==>
                  var summary := Message(User, Plain(mgr.summarize(c[1..n - 8])));
                  && (max >= 10 || max == 0 ==> out == [c[0], summary] + c[n - 8..])
                  && (max == 1 ==> out == [c[0], c[0], summary] + c[n - 8..])
                  && (2 <= max < 10 ==> out == [c[0]] + c[n - (max - 1)..]))
  {
    hide Cleaned;
    var c := Cleaned(mgr, msgs);
    var n, max := |c|, mgr.maxMessages;
    if n > mgr.summarizeAfter && n > 9 {
      var summary := Message(User, Plain(mgr.summarize(c[1..n - 8])));
      var s := [c[0], summary] + c[n - 8..];
      assert Summarize(mgr, c) == s;
      if 2 <= max < 10 {
        assert s[|s| - (max - 1)..] == c[n - (max - 1)..];
      } else if max == 1 {
        assert [s[0]] + s == [c[0], c[0], summary] + c[n - 8..];
      }
    }
  }

  /** The last message of the transcript is always sent, and as the last one. */
  lemma LastIsSent(mgr: Manager, msgs: seq<Message>)
    requires msgs != []
    ensures var out := Process(mgr, msgs);
            out != [] && Sends(mgr.maxToolResultChars, msgs[|msgs| - 1], out[|out| - 1])
  {
    hide Cleaned, Process, Sends, Thoughtless, AllWithoutThoughts, RoundAt;
    var at, mids := CleanedIs(mgr, msgs);
    var c, last := Cleaned(mgr, msgs), |msgs| - 1;
    assert !InRound(mids, last) by { NoRoundAtEnd(msgs, mids); }
    var j :| 0 <= j < |at| && at[j] == last;
    LastOfAll(at, |msgs|, j);
    LastOfCuts(mgr, msgs);
  }

  lemma LastOfAll(at: seq<nat>, n: nat, j: nat)
    requires j < |at| && at[j] == n - 1 && forall i :: 0 <= i < |at| ==> at[i] < n
    requires forall i, k :: 0 <= i < k < |at| ==> at[i] < at[k]
    ensures j == |at| - 1
  {
    var last := |at| - 1;
    assert at[last] < n && at[last] <= at[j];
  }

  lemma NoRoundAtEnd(msgs: seq<Message>, mids: seq<Message>)
    requires AllWithoutThoughts(msgs, mids)
    ensures !InRound(mids, |msgs| - 1)
  {
  }

  lemma LastOfCuts(mgr: Manager, msgs: seq<Message>)
    requires Cleaned(mgr, msgs) != []
    ensures var c, out := Cleaned(mgr, msgs), Process(mgr, msgs);
            out != [] && out[0] == c[0] && out[|out| - 1] == c[|c| - 1]
  {
    hide Cleaned;
  }
}

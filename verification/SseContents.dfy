/** What the chat stream carries of the run's own events (koraku/streaming/koraku_sse.py), tool events aside. */
module SseContents {
  import opened Wrappers
  import opened Text
  import opened Json
  import opened Messages
  import opened SseMapper

  /** Whose event it is: an integration's whatever else the tag says, or else the named sub-agent's. */
  lemma NestedIs(tag: Option<Tag>)
    ensures Nested(tag) == Some(Composio) <==> tag.Some? && tag.value.composio
    ensures tag.Some? && !tag.value.composio && tag.value.task ==> Nested(tag) == Some(Task(Strip(tag.value.agent)))
    ensures Nested(tag).None? <==> tag.None? || (!tag.value.composio && !tag.value.task)
  {
    hide Strip;
  }

  lemma WithoutToolCallsFirst(blocks: seq<Block>)
    requires blocks != []
    ensures WithoutToolCalls(blocks) ==
              if blocks[0].ToolBlock? then WithoutToolCalls(blocks[1..]) else [blocks[0]] + WithoutToolCalls(blocks[1..])
  {
  }

  lemma {:induction false} WithoutToolCallsIs(blocks: seq<Block>) returns (at: seq<nat>)
    ensures Picks(at, blocks, WithoutToolCalls(blocks))
    ensures forall k: nat :: k < |blocks| ==> (k in at <==> !blocks[k].ToolBlock?)
  {
    hide Picks, Moved, WithoutToolCalls;
    if blocks == [] {
      at := [];
      NoBlocks();
    } else {
      var later := WithoutToolCallsIs(blocks[1..]);
      at := Moved(later, 1);
      forall k: nat
        ensures k in Moved(later, 1) <==> k >= 1 && (k - 1) in later
      {
        MovedMembers(later, 1, k);
      }
      WithoutToolCallsFirst(blocks);
      if blocks[0].ToolBlock? {
        PicksLater(later, blocks, WithoutToolCalls(blocks[1..]), 1);
      } else {
        PicksFirst(later, blocks, WithoutToolCalls(blocks[1..]));
        at := [0] + at;
      }
    }
  }

  lemma NoBlocks()
    ensures Picks([], [], WithoutToolCalls([]))
  {
  }

  /** A message is passed on with all of its blocks, in order, but for its tool calls; one that has nothing else is not
      passed on. */
  lemma MessagesLoseTheirCalls(m: Mapper, tag: Option<Tag>, blocks: seq<Block>) returns (at: seq<nat>, kept: seq<Block>)
    ensures Picks(at, blocks, kept) && forall k: nat :: k < |blocks| ==> (k in at <==> !blocks[k].ToolBlock?)
    ensures MapOne(m, Event(tag, StreamEvent(Some(AssistantMessage(Some(blocks))))))
            == (m, if kept == [] then [] else [Wrapped(AssistantMessage(Some(kept)), Nested(tag))])
  {
    hide Picks, Nested, WithoutToolCalls;
    at := WithoutToolCallsIs(blocks);
    kept := WithoutToolCalls(blocks);
  }

  /** An event of the model's stream that opens, fills or closes no block is passed on as it is, and the usage of a
      message, if there is any, goes in front of it. */
  lemma OthersPass(m: Mapper, tag: Option<Tag>, raw: Raw)
    requires raw.OtherRaw? || raw.MessageDelta? || raw == AssistantMessage(None)
    ensures var (after, outs) := MapOne(m, Event(tag, StreamEvent(Some(raw))));
            && after == m && outs != [] && outs[|outs| - 1] == Wrapped(raw, Nested(tag))
            && (raw.MessageDelta? && (exists k :: 0 <= k < |raw.usage| && raw.usage[k] > 0) ==>
                  outs == [TurnUsage(raw.usage), Wrapped(raw, Nested(tag))])
            && (raw.MessageDelta? && (forall k :: 0 <= k < |raw.usage| ==> raw.usage[k] <= 0) ==> |outs| == 1)
            && (!raw.MessageDelta? ==> |outs| == 1)
  {
    hide Nested;
  }

  /** How the end of the lead run is told: the result's stop reason, then exit code and flags, then the marker; the end
      of a sub-agent is not told. */
  lemma EndsAre(m: Mapper, tag: Option<Tag>, body: Body)
    requires body.Completed? || body.Cancelled? || body.Failed?
    ensures MapOne(m, Event(tag, body)) ==
            (m, if tag.Some? && (tag.value.composio || tag.value.task) then []
                else match body
                     case Completed(reason) =>
                       [ResultEnvelope(false, if reason == "" then "end_turn" else reason),
                        KorakuCompleted(0, false, false, None), OutputMarker]
                     case Cancelled =>
                       [ResultEnvelope(false, "cancelled"), KorakuCompleted(130, false, true, None), OutputMarker]
                     case Failed(error) =>
                       [ResultEnvelope(true, "error"), KorakuCompleted(1, true, false, Some(error)), OutputMarker]
                     case _ => [])
  {
    NestedIs(tag);
    hide Nested;
  }
}

/** What the native tool calls of a response come to (koraku/llm/openai_delta.py): the slot of several fragments, and
    the blocks of several slots. */
module SlotContents {
  import opened Wrappers
  import opened Text
  import opened Json
  import opened IntSets
  import M = Messages
  import opened OpenAiDelta

  /** A fragment sends `value` in the field `sent`, and none behind it sends another. */
  predicate SentLast(sent: seq<string>, k: nat) {
    k < |sent| && sent[k] != "" && forall j :: k < j < |sent| ==> sent[j] == ""
  }

  function IdsSent(frags: seq<Fragment>): seq<string> {
    seq(|frags|, k requires 0 <= k < |frags| => frags[k].id)
  }

  function NamesSent(frags: seq<Fragment>): seq<string> {
    seq(|frags|, k requires 0 <= k < |frags| => frags[k].name)
  }

  /** The last value that is sent counts; without any the old one stays. */
  ghost predicate IsLastSent(value: string, before: string, sent: seq<string>) {
    && (forall k: nat :: SentLast(sent, k) ==> value == sent[k])
    && ((forall k :: 0 <= k < |sent| ==> sent[k] == "") ==> value == before)
  }

  lemma LastSentNext(value: string, before: string, first: string, sent: seq<string>)
    requires IsLastSent(value, if first != "" then first else before, sent)
    ensures IsLastSent(value, before, [first] + sent)
  {
    var all := [first] + sent;
    forall k: nat | SentLast(all, k)
      ensures value == all[k]
    {
      if k == 0 {
        assert forall j :: 0 <= j < |sent| ==> sent[j] == all[j + 1];
      } else {
        assert sent[k - 1] == all[k] && forall j :: k - 1 < j < |sent| ==> sent[j] == all[j + 1];
        assert SentLast(sent, k - 1);
      }
    }
    if forall k :: 0 <= k < |all| ==> all[k] == "" {
      assert all[0] == "";
      assert forall k :: 0 <= k < |sent| ==> sent[k] == all[k + 1];
    }
  }

  /** The slot of some fragments: of the ids and of the names the last one sent, and all the arguments in order. */
  lemma {:induction false} MergedIs(slot: Slot, frags: seq<Fragment>)
    ensures var merged := MergeAll(slot, frags);
            && IsLastSent(merged.id, slot.id, IdsSent(frags))
            && IsLastSent(merged.name, slot.name, NamesSent(frags))
            && merged.arguments == slot.arguments + Join(Arguments(frags))
    decreases |frags|
  {
    hide IsLastSent, Join;
    if frags == [] {
      assert Join([]) == "" by { JoinNothing(); }
      NothingSent(slot.id);
      NothingSent(slot.name);
    } else {
      var f := frags[0];
      MergedIs(Merge(slot, f), frags[1..]);
      var merged := MergeAll(slot, frags);
      assert IdsSent(frags) == [f.id] + IdsSent(frags[1..]);
      assert NamesSent(frags) == [f.name] + NamesSent(frags[1..]);
      LastSentNext(merged.id, slot.id, f.id, IdsSent(frags[1..]));
      LastSentNext(merged.name, slot.name, f.name, NamesSent(frags[1..]));
      assert Arguments(frags)[1..] == Arguments(frags[1..]);
      JoinNext(Arguments(frags));
      ConcatAssociates(slot.arguments, f.arguments, Join(Arguments(frags[1..])));
    }
  }

  lemma JoinNothing()
    ensures Join([]) == ""
  {
  }

  lemma NothingSent(value: string)
    ensures IsLastSent(value, value, [])
  {
  }

  /** The call of slot `i`: its stripped name; its id, or a made-up one for a blank id; and as its input the decoded
      arguments, with text that is no JSON and values that are no dictionaries kept under a key of their own. */
  predicate IsCallOf(codec: Codec, i: int, slot: Slot, use: M.ToolUse) {
    && use.name == Strip(slot.name)
    && use.id == (if Blank(slot.id) then DefaultId(i) else Strip(slot.id))
    && (Blank(slot.arguments) ==> use.input == Obj(map[]))
    && (!Blank(slot.arguments) && codec.loads(slot.arguments).None? ==>
          use.input == Obj(map["_partial_json" := Str(slot.arguments)]))
    && (!Blank(slot.arguments) && codec.loads(slot.arguments).Some? ==>
          var v := codec.loads(slot.arguments).value;
          use.input == if v.Obj? then v else Obj(map["_value" := v]))
  }

  lemma SlotBlockIs(codec: Codec, i: int, slot: Slot)
    ensures SlotBlock(codec, i, slot).Some? <==> !Blank(slot.name)
    ensures !Blank(slot.name) ==> IsCallOf(codec, i, slot, SlotBlock(codec, i, slot).value)
  {
    hide Strip, Blank, DefaultId;
    StripBlank(slot.name);
    StripBlank(slot.id);
  }

  predicate Increasing(keys: seq<int>) {
    forall i, j :: 0 <= i < j < |keys| ==> keys[i] < keys[j]
  }

  lemma OneMoreInFront(m: int, keys: seq<int>)
    requires Increasing(keys) && forall x :: x in keys ==> m < x
    ensures Increasing([m] + keys)
  {
    forall k | 0 <= k < |keys|
      ensures m < keys[k]
    {
      assert keys[k] in keys;
    }
  }

  lemma {:induction false} SortedIncreases(s: set<int>)
    ensures Increasing(Sorted(s))
    decreases |s|
  {
    hide Sorted, Increasing;
    if s == {} {
      NoKeys(s);
    } else {
      HasMin(s);
      var m :| IsMin(s, m);
      SortedIncreases(s - {m});
      SortedFirst(s, m);
      OneMoreInFront(m, Sorted(s - {m}));
    }
  }

  lemma NoKeys(s: set<int>)
    requires s == {}
    ensures Increasing(Sorted(s))
  {
  }

  /** The keys of the slots that have a name. */
  function NamedKeys(slots: map<int, Slot>, keys: seq<int>): seq<int> {
    if keys == [] then []
    else (if Blank(SlotAt(slots, keys[0]).name) then [] else [keys[0]]) + NamedKeys(slots, keys[1..])
  }

  lemma NamedNext(slots: map<int, Slot>, keys: seq<int>)
    requires keys != []
    ensures NamedKeys(slots, keys) ==
              (if Blank(SlotAt(slots, keys[0]).name) then [] else [keys[0]]) + NamedKeys(slots, keys[1..])
    ensures forall i :: i in keys <==> i == keys[0] || i in keys[1..]
  {
  }

  lemma {:induction false} NamedKeysAre(slots: map<int, Slot>, keys: seq<int>)
    requires Increasing(keys)
    ensures Increasing(NamedKeys(slots, keys))
    ensures forall i :: i in NamedKeys(slots, keys) <==> i in keys && !Blank(SlotAt(slots, i).name)
  {
    hide Blank, NamedKeys, SlotAt;
    if keys == [] {
      assert NamedKeys(slots, []) == [] by { NamedNothing(slots); }
    } else {
      NamedKeysAre(slots, keys[1..]);
      NamedNext(slots, keys);
      var named := NamedKeys(slots, keys[1..]);
      assert forall x :: x in keys[1..] ==> keys[0] < x;
      OneMoreInFront(keys[0], named);
      assert [] + named == named;
    }
  }

  lemma NamedNothing(slots: map<int, Slot>)
    ensures NamedKeys(slots, []) == []
  {
  }

  /** Block by block, the calls are those of the slots with a name. */
  ghost predicate AreCallsOf(codec: Codec, slots: map<int, Slot>, at: seq<int>, uses: seq<M.ToolUse>) {
    |uses| == |at| && forall k :: 0 <= k < |at| ==> IsCallOf(codec, at[k], SlotAt(slots, at[k]), uses[k])
  }

  lemma {:induction false} BlocksOfKeys(codec: Codec, slots: map<int, Slot>, keys: seq<int>)
    ensures AreCallsOf(codec, slots, NamedKeys(slots, keys), SlotBlocks(codec, slots, keys))
  {
    hide IsCallOf, SlotBlock, Blank, SlotBlocks, NamedKeys;
    if keys == [] {
      NoSlotBlocks(codec, slots, keys);
      NamedNothing(slots);
    } else {
      BlocksOfKeys(codec, slots, keys[1..]);
      NamedNext(slots, keys);
      assert keys[0..] == keys;
      SlotBlocksNext(codec, slots, keys, 0);
      SlotBlockIs(codec, keys[0], SlotAt(slots, keys[0]));
    }
  }

  /** The blocks of the slots: one for each slot with a name, in the order of the indexes. */
  lemma BlocksAre(codec: Codec, slots: map<int, Slot>) returns (at: seq<int>)
    ensures Increasing(at) && forall i :: i in at <==> i in slots && !Blank(SlotAt(slots, i).name)
    ensures AreCallsOf(codec, slots, at, Blocks(codec, slots))
  {
    hide AreCallsOf, Sorted, Blank, Increasing, NamedKeys, SlotBlocks, SlotAt;
    var keys := Sorted(slots.Keys);
    SortedIncreases(slots.Keys);
    NamedKeysAre(slots, keys);
    BlocksOfKeys(codec, slots, keys);
    at := NamedKeys(slots, keys);
  }
}

/** Native tool-call fragments (koraku/llm/openai_delta.py) and their encoding in a chat request
    (koraku/llm/canonical.py).

    A provider streams each tool call as fragments that carry the call's index; fragments of
    several calls may interleave. */
module OpenAiDelta {
  import opened Wrappers
  import opened Text
  import opened Json
  import opened IntSets
  import opened Messages

  /** One entry of `delta.tool_calls`; the empty string stands for an absent or empty field. */
  datatype Fragment = Fragment(index: int, id: string, name: string, arguments: string)

  datatype Slot = Slot(id: string, name: string, arguments: string)

  const EMPTY_SLOT := Slot("", "", "")

  /** `json.loads` (None when it raises) and `json.dumps`. */
  datatype Codec = Codec(loads: string -> Option<Json>, dumps: Json -> string)

  /** Decoding inverts encoding on dictionaries, and no dictionary encodes to blank text. */
  ghost predicate Faithful(codec: Codec) {
    forall v: Json :: v.Obj? ==> codec.loads(codec.dumps(v)) == Some(v) && !Blank(codec.dumps(v))
  }

  function Merge(slot: Slot, f: Fragment): Slot {
    Slot(
      if f.id != "" then f.id else slot.id,
      if f.name != "" then f.name else slot.name,
      slot.arguments + f.arguments)
  }

  function SlotAt(slots: map<int, Slot>, i: int): Slot {
    if i in slots then slots[i] else EMPTY_SLOT
  }

  function Accumulate(slots: map<int, Slot>, frags: seq<Fragment>): map<int, Slot>
    decreases |frags|
  {
    if frags == [] then slots
    else Accumulate(slots[frags[0].index := Merge(SlotAt(slots, frags[0].index), frags[0])], frags[1..])
  }

  /** The slot dictionary that a stream handler owns and `_accumulate_openai_tool_call_deltas` updates. */
  class ToolCallSlots {
    var slots: map<int, Slot>

    constructor ()
      ensures slots == map[]
    {
      slots := map[];
    }

    method AccumulateDeltas(frags: seq<Fragment>)
      modifies this
      ensures slots == Accumulate(old(slots), frags)
    {
      var k := 0;
      while k < |frags|
        invariant k <= |frags|
        invariant Accumulate(slots, frags[k..]) == Accumulate(old(slots), frags)
      {
        var f := frags[k];
        ghost var before := slots;
        assert frags[k..][1..] == frags[k + 1..];
        var slot := if f.index in slots then slots[f.index] else EMPTY_SLOT;
        if f.id != "" { slot := slot.(id := f.id); }
        if f.name != "" { slot := slot.(name := f.name); }
        if f.arguments != "" { slot := slot.(arguments := slot.arguments + f.arguments); }
        assert SlotAt(before, f.index).arguments + "" == SlotAt(before, f.index).arguments;
        slots := slots[f.index := slot];
        k := k + 1;
      }
    }
  }

  // Merging depends only on each index's own fragments.

  function Own(frags: seq<Fragment>, i: int): seq<Fragment> {
    if frags == [] then []
    else (if frags[0].index == i then [frags[0]] else []) + Own(frags[1..], i)
  }

  function MergeAll(slot: Slot, frags: seq<Fragment>): Slot
    decreases |frags|
  {
    if frags == [] then slot else MergeAll(Merge(slot, frags[0]), frags[1..])
  }

  lemma {:induction false} SlotFromOwn(slots: map<int, Slot>, frags: seq<Fragment>, i: int)
    ensures i in Accumulate(slots, frags) <==> i in slots || Own(frags, i) != []
    ensures SlotAt(Accumulate(slots, frags), i) == MergeAll(SlotAt(slots, i), Own(frags, i))
    decreases |frags|
  {
    if frags != [] {
      var f := frags[0];
      SlotFromOwn(slots[f.index := Merge(SlotAt(slots, f.index), f)], frags[1..], i);
      if f.index == i {
        assert Own(frags, i)[1..] == Own(frags[1..], i);
      } else {
        assert Own(frags, i) == Own(frags[1..], i);
      }
    }
  }

  /** However the fragments of several calls interleave, the merged slots are the same. */
  lemma InterleavingIrrelevant(slots: map<int, Slot>, frags: seq<Fragment>, other: seq<Fragment>)
    requires forall i :: Own(frags, i) == Own(other, i)
    ensures Accumulate(slots, frags) == Accumulate(slots, other)
  {
    var a, b := Accumulate(slots, frags), Accumulate(slots, other);
    forall i: int
      ensures (i in a <==> i in b) && SlotAt(a, i) == SlotAt(b, i)
    {
      SlotFromOwn(slots, frags, i);
      SlotFromOwn(slots, other, i);
    }
    assert forall i :: i in a.Keys <==> i in b.Keys;
    assert forall i :: i in a ==> SlotAt(a, i) == a[i] && SlotAt(b, i) == b[i];
    assert forall i :: i in a ==> a[i] == b[i];
    assert a == b;
  }

  // From slots to blocks.

  /** `f"tool_{i}"` */
  function DefaultId(i: int): string {
    "tool_" + if i < 0 then "-" + Digits(-i) else Digits(i)
  }

  /** The `tool_use` block of one slot; a slot without a name has none. */
  function SlotBlock(codec: Codec, i: int, slot: Slot): Option<ToolUse> {
    var name := Strip(slot.name);
    var id := Strip(slot.id);
    if name == "" then None else
    var input :=
      if Blank(slot.arguments) then Obj(map[]) else
      match codec.loads(slot.arguments)
      case None => Obj(map["_partial_json" := Str(slot.arguments)])
      case Some(v) => if v.Obj? then v else Obj(map["_value" := v]);
    Some(ToolUse(if id != "" then id else DefaultId(i), name, input))
  }

  function SlotBlocks(codec: Codec, slots: map<int, Slot>, keys: seq<int>): seq<ToolUse> {
    if keys == [] then [] else
    var b := SlotBlock(codec, keys[0], SlotAt(slots, keys[0]));
    (if b.Some? then [b.value] else []) + SlotBlocks(codec, slots, keys[1..])
  }

  function Blocks(codec: Codec, slots: map<int, Slot>): seq<ToolUse> {
    SlotBlocks(codec, slots, Sorted(slots.Keys))
  }

  /** `_tool_call_slots_to_blocks` */
  method ToolCallSlotsToBlocks(codec: Codec, slots: map<int, Slot>) returns (blocks: seq<ToolUse>)
    ensures blocks == Blocks(codec, slots)
  {
    hide SlotBlock, Sorted, SlotBlocks;
    blocks := [];
    var keys := Sorted(slots.Keys);
    var k := 0;
    assert keys[0..] == keys;
    while k < |keys|
      invariant k <= |keys|
      invariant blocks + SlotBlocks(codec, slots, keys[k..]) == Blocks(codec, slots)
    {
      assert keys[k] in keys;
      SlotBlocksNext(codec, slots, keys, k);
      var block := SlotBlock(codec, keys[k], slots[keys[k]]);
      ConcatAssociates(blocks, if block.Some? then [block.value] else [], SlotBlocks(codec, slots, keys[k + 1..]));
      if block.Some? {
        blocks := blocks + [block.value];
      }
      k := k + 1;
    }
    NoSlotBlocks(codec, slots, keys[k..]);
  }

  lemma NoSlotBlocks(codec: Codec, slots: map<int, Slot>, keys: seq<int>)
    requires keys == []
    ensures SlotBlocks(codec, slots, keys) == []
  {
  }

  lemma SlotBlocksNext(codec: Codec, slots: map<int, Slot>, keys: seq<int>, k: nat)
    requires k < |keys|
    ensures var b := SlotBlock(codec, keys[k], SlotAt(slots, keys[k]));
            SlotBlocks(codec, slots, keys[k..]) ==
              (if b.Some? then [b.value] else []) + SlotBlocks(codec, slots, keys[k + 1..])
  {
    hide SlotBlock;
    assert keys[k..][1..] == keys[k + 1..];
  }

  // The way back: a transcript block encoded for the provider.

  datatype Call = Call(id: string, name: string, arguments: string)

  /** One entry of the `tool_calls` of `_assistant_openai_message`; `k` counts the entries so far. */
  function EncodeCall(codec: Codec, k: nat, b: ToolUse): Call {
    Call(if b.id != "" then b.id else DefaultId(k), b.name,
         codec.dumps(if b.input.Obj? then b.input else Obj(map[])))
  }

  function Arguments(frags: seq<Fragment>): seq<string> {
    seq(|frags|, k requires 0 <= k < |frags| => frags[k].arguments)
  }

  predicate SendsId(frags: seq<Fragment>, id: string) {
    frags != [] && (frags[0].id == id || SendsId(frags[1..], id))
  }

  predicate SendsName(frags: seq<Fragment>, name: string) {
    frags != [] && (frags[0].name == name || SendsName(frags[1..], name))
  }

  /** No fragment carries another id or name. */
  predicate SendsOnly(frags: seq<Fragment>, id: string, name: string) {
    frags == [] ||
    (frags[0].id in ["", id] && frags[0].name in ["", name] && SendsOnly(frags[1..], id, name))
  }

  /** `frags` transmit `call`: its arguments arrive in pieces, and the id and the name at least once. */
  ghost predicate Fragments(frags: seq<Fragment>, call: Call) {
    && SendsOnly(frags, call.id, call.name)
    && SendsId(frags, call.id)
    && SendsName(frags, call.name)
    && Join(Arguments(frags)) == call.arguments
  }

  lemma {:induction false} MergeAllParts(slot: Slot, frags: seq<Fragment>, id: string, name: string)
    requires SendsOnly(frags, id, name)
    requires slot.id in ["", id] && slot.name in ["", name]
    ensures var r := MergeAll(slot, frags);
            && r.id == (if slot.id == id || SendsId(frags, id) then id else "")
            && r.name == (if slot.name == name || SendsName(frags, name) then name else "")
            && r.arguments == slot.arguments + Join(Arguments(frags))
    decreases |frags|
  {
    if frags == [] {
      assert slot.arguments + "" == slot.arguments;
    } else {
      var f := frags[0];
      var rest := Arguments(frags[1..]);
      assert Arguments(frags)[1..] == rest;
      MergeAllParts(Merge(slot, f), frags[1..], id, name);
      assert (slot.arguments + f.arguments) + Join(rest) == slot.arguments + (f.arguments + Join(rest));
    }
  }

  lemma TransmittedSlot(frags: seq<Fragment>, call: Call)
    requires Fragments(frags, call)
    ensures MergeAll(EMPTY_SLOT, frags) == Slot(call.id, call.name, call.arguments)
  {
    MergeAllParts(EMPTY_SLOT, frags, call.id, call.name);
    assert "" + call.arguments == call.arguments;
  }

  /** The fragments of a whole message: each call under its position, in any interleaving. */
  ghost predicate Transmits(codec: Codec, frags: seq<Fragment>, blocks: seq<ToolUse>) {
    forall i: int ::
      if 0 <= i < |blocks| then Fragments(Own(frags, i), EncodeCall(codec, i, blocks[i]))
      else Own(frags, i) == []
  }

  predicate Trimmed(s: string) {
    s != "" && Strip(s) == s
  }

  /** A block that the way through the provider's format leaves as it is. */
  predicate Portable(b: ToolUse) {
    Trimmed(b.id) && Trimmed(b.name) && b.input.Obj?
  }

  lemma DefaultIdTrimmed(i: int)
    ensures !Blank(DefaultId(i))
  {
    assert DefaultId(i)[0] == 't';
  }

  /** One block survives the round trip exactly when it is portable. */
  lemma BlockRoundTrip(codec: Codec, k: nat, b: ToolUse)
    requires Faithful(codec)
    ensures var call := EncodeCall(codec, k, b);
            SlotBlock(codec, k, Slot(call.id, call.name, call.arguments)) == Some(b) <==> Portable(b)
  {
    hide Strip, DefaultId, Digits, Blank;
    var call := EncodeCall(codec, k, b);
    DefaultIdTrimmed(k);
    StripBlank(DefaultId(k));
    StripBlank(b.id);
    var input := if b.input.Obj? then b.input else Obj(map[]);
    assert codec.loads(codec.dumps(input)) == Some(input);
    if b.id == "" {
      assert Blank("") by { BlankNone(); }
      assert Strip("") == "" by { BlankNone(); StripBlank(""); }
    }
  }

  lemma BlankNone()
    ensures Blank("")
  {
  }

  lemma {:induction false} BlocksShorter(codec: Codec, slots: map<int, Slot>, keys: seq<int>)
    ensures |SlotBlocks(codec, slots, keys)| <= |keys|
  {
    hide SlotBlock;
    if keys != [] {
      BlocksShorter(codec, slots, keys[1..]);
    }
  }

  lemma {:induction false} SlotBlocksOfRange(codec: Codec, slots: map<int, Slot>, blocks: seq<ToolUse>, k: nat)
    requires Faithful(codec) && k <= |blocks|
    requires forall i: nat :: i < |blocks| ==>
               var call := EncodeCall(codec, i, blocks[i]);
               SlotAt(slots, i) == Slot(call.id, call.name, call.arguments)
    ensures SlotBlocks(codec, slots, Range(k, |blocks|)) == blocks[k..] <==>
            forall i: nat :: k <= i < |blocks| ==> Portable(blocks[i])
    decreases |blocks| - k
  {
    hide SlotBlock, EncodeCall, Portable;
    if k < |blocks| {
      var keys := Range(k, |blocks|);
      assert keys[1..] == Range(k + 1, |blocks|);
      var later := SlotBlocks(codec, slots, keys[1..]);
      BlockRoundTrip(codec, k, blocks[k]);
      SlotBlocksOfRange(codec, slots, blocks, k + 1);
      BlocksShorter(codec, slots, keys[1..]);
      var b := SlotBlock(codec, k, SlotAt(slots, k));
      assert blocks[k..] == [blocks[k]] + blocks[k + 1..];
      if b.None? {
        assert |SlotBlocks(codec, slots, keys)| < |blocks[k..]|;
      } else {
        var all := [b.value] + later;
        assert all[0] == b.value && all[1..] == later;
        assert SlotBlocks(codec, slots, keys) == all;
      }
    }
  }

  lemma TransmittedSlots(codec: Codec, frags: seq<Fragment>, blocks: seq<ToolUse>, slots: map<int, Slot>)
    requires Transmits(codec, frags, blocks) && slots == Accumulate(map[], frags)
    ensures forall i :: i in slots.Keys <==> 0 <= i < |blocks|
    ensures forall i: nat :: i < |blocks| ==>
              var call := EncodeCall(codec, i, blocks[i]);
              SlotAt(slots, i) == Slot(call.id, call.name, call.arguments)
  {
    hide EncodeCall, Fragments, MergeAll, Accumulate, SlotAt;
    forall i: int
      ensures i in slots.Keys <==> 0 <= i < |blocks|
      ensures 0 <= i < |blocks| ==>
                var call := EncodeCall(codec, i, blocks[i]);
                SlotAt(slots, i) == Slot(call.id, call.name, call.arguments)
    {
      SlotFromOwn(map[], frags, i);
      if 0 <= i < |blocks| {
        TransmittedSlot(Own(frags, i), EncodeCall(codec, i, blocks[i]));
        TransmittedSome(Own(frags, i), EncodeCall(codec, i, blocks[i]));
        assert SlotAt(map[], i) == EMPTY_SLOT by { NoSlot(i); }
      }
    }
  }

  lemma NoSlot(i: int)
    ensures SlotAt(map[], i) == EMPTY_SLOT
  {
  }

  lemma TransmittedSome(frags: seq<Fragment>, call: Call)
    requires Fragments(frags, call)
    ensures frags != []
  {
  }

  /** Encoding tool calls, cutting each call's arguments anywhere, interleaving the pieces and
      merging them again gives the same blocks, exactly when every block is portable: its id and name
      are non-empty and trimmed, and its input is a dictionary. */
  lemma RoundTrip(codec: Codec, frags: seq<Fragment>, blocks: seq<ToolUse>)
    requires Faithful(codec) && Transmits(codec, frags, blocks)
    ensures Blocks(codec, Accumulate(map[], frags)) == blocks <==>
            forall i: nat :: i < |blocks| ==> Portable(blocks[i])
  {
    hide EncodeCall, Portable, SlotBlock, Accumulate, Faithful, Transmits, Sorted, SlotBlocks;
    var slots := Accumulate(map[], frags);
    TransmittedSlots(codec, frags, blocks, slots);
    SortedRange(slots.Keys, 0, |blocks|);
    SlotBlocksOfRange(codec, slots, blocks, 0);
    assert blocks[0..] == blocks;
  }

  /** An empty id is not portable: the encoding puts the default id in its place. */
  lemma EmptyIdIsReplaced(codec: Codec)
    requires Faithful(codec)
    ensures var b := ToolUse("", "Read", Obj(map[]));
            var frags := [Fragment(0, "tool_0", "Read", codec.dumps(b.input))];
            Transmits(codec, frags, [b]) && Blocks(codec, Accumulate(map[], frags)) != [b]
  {
    var b := ToolUse("", "Read", Obj(map[]));
    var frags := [Fragment(0, "tool_0", "Read", codec.dumps(b.input))];
    hide Blocks, Accumulate, Faithful, Portable, Strip;
    assert frags[1..] == [] && Arguments(frags)[1..] == [];
    assert Join(Arguments(frags)) == codec.dumps(b.input) + "" == codec.dumps(b.input);
    assert EncodeCall(codec, 0, b) == Call("tool_0", "Read", codec.dumps(b.input)) by { assert DefaultId(0) == "tool_0"; }
    assert SendsOnly([], "tool_0", "Read") && SendsOnly(frags, "tool_0", "Read");
    assert SendsId(frags, "tool_0") && SendsName(frags, "Read");
    assert Fragments(frags, EncodeCall(codec, 0, b));
    forall i: int
      ensures Own(frags, i) == if i == 0 then frags else []
    {
    }
    assert Transmits(codec, frags, [b]);
    RoundTrip(codec, frags, [b]);
    assert !Portable([b][0]) by { EmptyIsNotPortable(b); }
  }

  lemma EmptyIsNotPortable(b: ToolUse)
    requires b.id == ""
    ensures !Portable(b)
  {
  }
}

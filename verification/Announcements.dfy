/** When native tool calls are announced (`_emit_pending_native_tool_events` in
    koraku/llm/providers/openai_compat_backend.py) and what becomes of them. The provider sends the
    fragments of the calls in batches, and after each batch what has a name by then is announced. */
module Announcements {
  import opened Wrappers
  import opened Text
  import opened Json
  import opened IntSets
  import opened Messages
  import opened OpenAiDelta

  /** A `tool_use_pending` event, with the index of the call that it is about. */
  datatype Announcement = Announcement(index: int, id: string, name: string, input: Json)

  /** The merged slots and what was announced so far, in order. */
  datatype Calls = Calls(slots: map<int, Slot>, announced: seq<Announcement>)

  const NO_CALLS := Calls(map[], [])

  /** The trimmed id, or the default one. */
  function IdOf(i: int, slot: Slot): string {
    if Strip(slot.id) != "" then Strip(slot.id) else DefaultId(i)
  }

  predicate Named(slot: Slot) {
    Strip(slot.name) != ""
  }

  /** What is announced about a slot. */
  function AnnouncementOf(codec: Codec, i: int, slot: Slot): (a: Announcement)
    ensures a.index == i
  {
    var parsed := if Blank(slot.arguments) then None else codec.loads(slot.arguments);
    Announcement(i, IdOf(i, slot), Strip(slot.name), if parsed.Some? && parsed.value.Obj? then parsed.value else Obj(map[]))
  }

  predicate IsAnnounced(announced: seq<Announcement>, i: int) {
    exists k :: 0 <= k < |announced| && announced[k].index == i
  }

  /** The announcement loop over the indexes `keys`. */
  function Announce(codec: Codec, announced: seq<Announcement>, slots: map<int, Slot>, keys: seq<int>): seq<Announcement>
    decreases |keys|
  {
    if keys == [] then announced
    else
      var i, slot := keys[0], SlotAt(slots, keys[0]);
      Announce(codec, if IsAnnounced(announced, i) || !Named(slot) then announced
                      else announced + [AnnouncementOf(codec, i, slot)], slots, keys[1..])
  }

  /** One batch: merge it, then announce. An empty batch does nothing. */
  function Batch(codec: Codec, c: Calls, frags: seq<Fragment>): Calls {
    if frags == [] then c
    else
      var slots := Accumulate(c.slots, frags);
      Calls(slots, Announce(codec, c.announced, slots, Sorted(slots.Keys)))
  }

  function Batches(codec: Codec, c: Calls, batches: seq<seq<Fragment>>): Calls
    decreases |batches|
  {
    if batches == [] then c else Batches(codec, Batch(codec, c, batches[0]), batches[1..])
  }

  // One index at a time.

  /** The announcements of one call. */
  function About(announced: seq<Announcement>, i: int): seq<Announcement> {
    if announced == [] then []
    else (if announced[0].index == i then [announced[0]] else []) + About(announced[1..], i)
  }

  lemma AboutNext(announced: seq<Announcement>, i: int)
    requires announced != []
    ensures About(announced, i) == (if announced[0].index == i then [announced[0]] else []) + About(announced[1..], i)
  {
  }

  lemma {:induction false} AboutSnoc(announced: seq<Announcement>, a: Announcement, i: int)
    ensures About(announced + [a], i) == About(announced, i) + if a.index == i then [a] else []
    decreases |announced|
  {
    hide About;
    AboutNext(announced + [a], i);
    AboutNothing(i);
    if announced == [] {
      assert ([] + [a])[1..] == [];
    } else {
      AboutNext(announced, i);
      assert (announced + [a])[1..] == announced[1..] + [a];
      AboutSnoc(announced[1..], a, i);
    }
  }

  lemma AnnouncedSnoc(announced: seq<Announcement>, a: Announcement)
    ensures forall i :: IsAnnounced(announced + [a], i) <==> IsAnnounced(announced, i) || i == a.index
  {
    forall i | IsAnnounced(announced, i)
      ensures IsAnnounced(announced + [a], i)
    {
      var k :| 0 <= k < |announced| && announced[k].index == i;
      assert (announced + [a])[k].index == i;
    }
    assert (announced + [a])[|announced|].index == a.index;
  }

  lemma {:induction false} AboutSome(announced: seq<Announcement>, i: int)
    ensures IsAnnounced(announced, i) <==> About(announced, i) != []
    decreases |announced|
  {
    if announced != [] {
      AboutSome(announced[1..], i);
      if IsAnnounced(announced[1..], i) {
        var k :| 0 <= k < |announced[1..]| && announced[1..][k].index == i;
        assert announced[k + 1].index == i;
      }
    }
  }

  /** What the loop makes of the announcements about `i`. */
  function AboutAfter(codec: Codec, before: seq<Announcement>, i: int, slot: Slot): seq<Announcement> {
    if before != [] || !Named(slot) then before else [AnnouncementOf(codec, i, slot)]
  }

  lemma AnnounceNext(codec: Codec, announced: seq<Announcement>, slots: map<int, Slot>, keys: seq<int>)
    requires keys != []
    ensures var slot := SlotAt(slots, keys[0]);
            Announce(codec, announced, slots, keys) ==
              Announce(codec, if IsAnnounced(announced, keys[0]) || !Named(slot) then announced
                              else announced + [AnnouncementOf(codec, keys[0], slot)], slots, keys[1..])
  {
  }

  lemma AnnounceEnd(codec: Codec, announced: seq<Announcement>, slots: map<int, Slot>)
    ensures Announce(codec, announced, slots, []) == announced
  {
  }

  lemma {:induction false} AnnounceAbout(codec: Codec, announced: seq<Announcement>, slots: map<int, Slot>,
                                         keys: seq<int>, i: int)
    ensures About(Announce(codec, announced, slots, keys), i) ==
              if i in keys then AboutAfter(codec, About(announced, i), i, SlotAt(slots, i)) else About(announced, i)
    decreases |keys|
  {
    hide About, IsAnnounced, Named, AnnouncementOf;
    if keys != [] {
      AnnounceNext(codec, announced, slots, keys);
      hide Announce;
      var j, slot := keys[0], SlotAt(slots, keys[0]);
      AboutSome(announced, j);
      if IsAnnounced(announced, j) || !Named(slot) {
        AnnounceAbout(codec, announced, slots, keys[1..], i);
      } else {
        AboutSnoc(announced, AnnouncementOf(codec, j, slot), i);
        AnnounceAbout(codec, announced + [AnnouncementOf(codec, j, slot)], slots, keys[1..], i);
      }
    }
  }

  lemma BatchAbout(codec: Codec, c: Calls, frags: seq<Fragment>, i: int)
    requires frags != []
    ensures About(Batch(codec, c, frags).announced, i) ==
              AboutAfter(codec, About(c.announced, i), i, SlotAt(Batch(codec, c, frags).slots, i))
  {
    hide About, Announce, Accumulate, Named, AnnouncementOf, Sorted;
    var slots := Accumulate(c.slots, frags);
    AnnounceAbout(codec, c.announced, slots, Sorted(slots.Keys), i);
    if i !in slots {
      assert !Named(EMPTY_SLOT) by { NobodyIsUnnamed(); }
    }
  }

  lemma NobodyIsUnnamed()
    ensures !Named(EMPTY_SLOT)
  {
    StripBlank("");
  }

  // Over all batches.

  function Flat(batches: seq<seq<Fragment>>): seq<Fragment> {
    if batches == [] then [] else batches[0] + Flat(batches[1..])
  }

  lemma OwnNext(frags: seq<Fragment>, i: int)
    requires frags != []
    ensures Own(frags, i) == (if frags[0].index == i then [frags[0]] else []) + Own(frags[1..], i)
  {
  }

  lemma {:induction false} OwnConcat(a: seq<Fragment>, b: seq<Fragment>, i: int)
    ensures Own(a + b, i) == Own(a, i) + Own(b, i)
    decreases |a|
  {
    if a == [] {
      assert a + b == b;
    } else {
      hide Own;
      OwnNext(a, i);
      OwnNext(a + b, i);
      assert (a + b)[1..] == a[1..] + b;
      OwnConcat(a[1..], b, i);
      ConcatAssociates(if a[0].index == i then [a[0]] else [], Own(a[1..], i), Own(b, i));
    }
  }

  lemma {:induction false} MergeAllConcat(slot: Slot, a: seq<Fragment>, b: seq<Fragment>)
    ensures MergeAll(slot, a + b) == MergeAll(MergeAll(slot, a), b)
    decreases |a|
  {
    hide Merge;
    if a == [] {
      assert a + b == b;
    } else {
      assert (a + b)[1..] == a[1..] + b;
      MergeAllConcat(Merge(slot, a[0]), a[1..], b);
    }
  }

  /** The fragments of call `i` merged up to the end of the first `n` batches. */
  function Merged(batches: seq<seq<Fragment>>, n: nat, i: int): Slot
    requires n <= |batches|
  {
    MergeAll(EMPTY_SLOT, Own(Flat(batches[..n]), i))
  }

  /** The first moment, from `n` batches on, at which call `i` has a name. */
  function FirstNamed(batches: seq<seq<Fragment>>, n: nat, i: int): (r: Option<nat>)
    requires n <= |batches|
    ensures r.Some? ==> n <= r.value <= |batches| && Named(Merged(batches, r.value, i))
    ensures forall k :: n <= k <= |batches| && (r.Some? ==> k < r.value) ==> !Named(Merged(batches, k, i))
    decreases |batches| - n
  {
    hide Named, Merged;
    if Named(Merged(batches, n, i)) then Some(n)
    else if n < |batches| then FirstNamed(batches, n + 1, i)
    else None
  }

  lemma {:induction false} FlatConcat(a: seq<seq<Fragment>>, b: seq<seq<Fragment>>)
    ensures Flat(a + b) == Flat(a) + Flat(b)
    decreases |a|
  {
    if a == [] {
      assert a + b == b;
    } else {
      assert (a + b)[1..] == a[1..] + b;
      FlatConcat(a[1..], b);
    }
  }

  lemma MergedNext(batches: seq<seq<Fragment>>, n: nat, i: int)
    requires n < |batches|
    ensures Merged(batches, n + 1, i) == MergeAll(Merged(batches, n, i), Own(batches[n], i))
    ensures batches[n] == [] ==> Merged(batches, n + 1, i) == Merged(batches, n, i)
  {
    assert batches[..n + 1] == batches[..n] + [batches[n]];
    FlatConcat(batches[..n], [batches[n]]);
    assert Flat([batches[n]]) == batches[n] by { assert [batches[n]][1..] == [] && batches[n] + [] == batches[n]; }
    OwnConcat(Flat(batches[..n]), batches[n], i);
    MergeAllConcat(EMPTY_SLOT, Own(Flat(batches[..n]), i), Own(batches[n], i));
  }

  lemma BatchesNext(codec: Codec, c: Calls, batches: seq<seq<Fragment>>, n: nat)
    requires n < |batches|
    ensures Batches(codec, c, batches[..n + 1]) == Batch(codec, Batches(codec, c, batches[..n]), batches[n])
  {
    hide Batch;
    assert batches[..n + 1] == batches[..n] + [batches[n]];
    BatchesSnoc(codec, c, batches[..n], batches[n]);
  }

  lemma {:induction false} BatchesSnoc(codec: Codec, c: Calls, batches: seq<seq<Fragment>>, last: seq<Fragment>)
    ensures Batches(codec, c, batches + [last]) == Batch(codec, Batches(codec, c, batches), last)
    decreases |batches|
  {
    hide Batch;
    if batches == [] {
      assert [] + [last] == [last] && [last][1..] == [];
    } else {
      assert (batches + [last])[1..] == batches[1..] + [last];
      BatchesSnoc(codec, Batch(codec, c, batches[0]), batches[1..], last);
    }
  }

  /** After `n` batches each slot is the merge of its own fragments. */
  lemma {:induction false} SlotsAreMerged(codec: Codec, batches: seq<seq<Fragment>>, n: nat, i: int)
    requires n <= |batches|
    ensures SlotAt(Batches(codec, NO_CALLS, batches[..n]).slots, i) == Merged(batches, n, i)
    decreases n
  {
    hide Announce, Accumulate, MergeAll, Sorted;
    if n == 0 {
      assert batches[..0] == [];
      assert Own([], i) == [];
      assert MergeAll(EMPTY_SLOT, []) == EMPTY_SLOT by { MergeNothing(); }
    } else {
      SlotsAreMerged(codec, batches, n - 1, i);
      BatchesNext(codec, NO_CALLS, batches, n - 1);
      MergedNext(batches, n - 1, i);
      hide Merged, Batches, Own;
      SlotFromOwn(Batches(codec, NO_CALLS, batches[..n - 1]).slots, batches[n - 1], i);
    }
  }

  lemma MergeNothing()
    ensures MergeAll(EMPTY_SLOT, []) == EMPTY_SLOT
  {
  }

  /** The announcements about `i` when its first name comes at `first`. */
  function Expected(codec: Codec, batches: seq<seq<Fragment>>, first: Option<nat>, n: nat, i: int): seq<Announcement>
    requires first.Some? ==> first.value <= |batches|
  {
    if first.Some? && first.value <= n then [AnnouncementOf(codec, i, Merged(batches, first.value, i))] else []
  }

  lemma {:induction false} AnnouncedByThen(codec: Codec, batches: seq<seq<Fragment>>, n: nat, i: int)
    requires n <= |batches|
    ensures About(Batches(codec, NO_CALLS, batches[..n]).announced, i) ==
              Expected(codec, batches, FirstNamed(batches, 0, i), n, i)
    decreases n
  {
    hide AnnouncementOf, Named, Merged, Batch, About;
    var first := FirstNamed(batches, 0, i);
    hide FirstNamed;
    if n == 0 {
      assert batches[..0] == [];
      assert About([], i) == [] by { AboutNothing(i); }
      assert !Named(Merged(batches, 0, i)) by { NothingMerged(batches, i); }
    } else {
      AnnouncedByThen(codec, batches, n - 1, i);
      BatchesNext(codec, NO_CALLS, batches, n - 1);
      MergedNext(batches, n - 1, i);
      SlotsAreMerged(codec, batches, n, i);
      hide Batches;
      var c := Batches(codec, NO_CALLS, batches[..n - 1]);
      if batches[n - 1] == [] {
        assert Batch(codec, c, []) == c by { EmptyBatch(codec, c); }
      } else {
        BatchAbout(codec, c, batches[n - 1], i);
      }
    }
  }

  lemma AboutNothing(i: int)
    ensures About([], i) == []
  {
  }

  lemma EmptyBatch(codec: Codec, c: Calls)
    ensures Batch(codec, c, []) == c
  {
  }

  lemma NothingMerged(batches: seq<seq<Fragment>>, i: int)
    ensures !Named(Merged(batches, 0, i))
  {
    assert batches[..0] == [] && Own([], i) == [];
    MergeNothing();
    NobodyIsUnnamed();
  }

  /** A call is announced exactly when its fragments ever name it, once, and as they stand when its first
      name is complete: at the end of the batch that brings the first non-blank name. */
  lemma AnnouncedOnceWhenNamed(codec: Codec, batches: seq<seq<Fragment>>, i: int)
    ensures var first := FirstNamed(batches, 0, i);
            About(Batches(codec, NO_CALLS, batches).announced, i) ==
              if first.Some? then [AnnouncementOf(codec, i, Merged(batches, first.value, i))] else []
  {
    hide FirstNamed, About, Batches, AnnouncementOf, Merged;
    assert batches[..|batches|] == batches;
    AnnouncedByThen(codec, batches, |batches|, i);
  }

  // From the announcement to the block.

  /** The `tool_use` block of call `i` at the end, if it has one. */
  function FinalUse(codec: Codec, batches: seq<seq<Fragment>>, i: int): Option<ToolUse> {
    SlotBlock(codec, i, SlotAt(Batches(codec, NO_CALLS, batches).slots, i))
  }

  /** Every call with a block was announced. An announced call has a block at the end exactly when its
      last name is not blank, and the block carries the announced id and name exactly when those merged
      up to the first name are, trimmed, already the final ones; no id counts as the default one. */
  lemma AnnouncementMatchesBlock(codec: Codec, batches: seq<seq<Fragment>>, i: int)
    ensures var first := FirstNamed(batches, 0, i);
            var final := Merged(batches, |batches|, i);
            var use := FinalUse(codec, batches, i);
            && (use.Some? <==> Named(final))
            && (use.Some? ==> first.Some?)
            && (use.Some? ==>
                  var early := Merged(batches, first.value, i);
                  var a := AnnouncementOf(codec, i, early);
                  && About(Batches(codec, NO_CALLS, batches).announced, i) == [a]
                  && (use.value.id == a.id <==>
                        || Strip(early.id) == Strip(final.id)
                        || (Strip(early.id) == "" && Strip(final.id) == DefaultId(i))
                        || (Strip(final.id) == "" && Strip(early.id) == DefaultId(i)))
                  && (use.value.name == a.name <==> Strip(early.name) == Strip(final.name)))
  {
    hide FirstNamed, About, Batches, Merged, Strip, DefaultId;
    AnnouncedOnceWhenNamed(codec, batches, i);
    assert batches[..|batches|] == batches;
    SlotsAreMerged(codec, batches, |batches|, i);
  }

  const LATE_ID := [[Fragment(0, "", "Read", "")], [Fragment(0, "call_1", "", "{}")]]

  /** The id may come after the name: the call is announced as "tool_0" and ends as "call_1". */
  lemma LateIdIsNotAnnounced(codec: Codec)
    ensures About(Batches(codec, NO_CALLS, LATE_ID).announced, 0) == [Announcement(0, "tool_0", "Read", Obj(map[]))]
    ensures FinalUse(codec, LATE_ID, 0).Some?
    ensures FinalUse(codec, LATE_ID, 0).value.id == "call_1" && FinalUse(codec, LATE_ID, 0).value.name == "Read"
  {
    hide *;
    LateSlots();
    EarlyAnnouncement(codec);
    NamedAt(LATE_ID);
    AnnouncedOnceWhenNamed(codec, LATE_ID, 0);
    assert LATE_ID[..2] == LATE_ID by { assert |LATE_ID| == 2; }
    SlotsAreMerged(codec, LATE_ID, 2, 0);
    LateUse(codec);
    FinalIs(codec, LATE_ID, 0);
  }

  lemma LateSlots()
    ensures |LATE_ID| == 2
    ensures Merged(LATE_ID, 1, 0) == Slot("", "Read", "") && Merged(LATE_ID, 2, 0) == Slot("call_1", "Read", "{}")
  {
    TwoBatches(Fragment(0, "", "Read", ""), Fragment(0, "call_1", "", "{}"));
  }

  lemma FinalIs(codec: Codec, batches: seq<seq<Fragment>>, i: int)
    ensures FinalUse(codec, batches, i) == SlotBlock(codec, i, SlotAt(Batches(codec, NO_CALLS, batches).slots, i))
  {
  }

  lemma EarlyAnnouncement(codec: Codec)
    ensures AnnouncementOf(codec, 0, Slot("", "Read", "")) == Announcement(0, "tool_0", "Read", Obj(map[]))
    ensures Named(Slot("", "Read", ""))
  {
    StripTrimmed("Read");
    StripTrimmed("");
    hide Strip;
    assert Blank("");
  }

  lemma LateUse(codec: Codec)
    ensures var use := SlotBlock(codec, 0, Slot("call_1", "Read", "{}"));
            use.Some? && use.value.id == "call_1" && use.value.name == "Read"
  {
    StripTrimmed("Read");
    StripTrimmed("call_1");
    hide Strip;
  }

  /** A call that has a name after its first batch is named first there. */
  lemma NamedAt(batches: seq<seq<Fragment>>)
    requires |batches| >= 1 && Named(Merged(batches, 1, 0))
    ensures FirstNamed(batches, 0, 0) == Some(1)
  {
    hide Named, Merged;
    NothingMerged(batches, 0);
  }

  const BLANK_NAME := [[Fragment(0, "c", "Read", "")], [Fragment(0, "", " ", "")]]

  /** A later blank name undoes an announced call: it has no block at the end. */
  lemma BlankNameUndoes(codec: Codec)
    ensures |About(Batches(codec, NO_CALLS, BLANK_NAME).announced, 0)| == 1
    ensures FinalUse(codec, BLANK_NAME, 0) == None
  {
    hide *;
    BlankSlots();
    NamedAt(BLANK_NAME);
    AnnouncedOnceWhenNamed(codec, BLANK_NAME, 0);
    AnnouncementMatchesBlock(codec, BLANK_NAME, 0);
  }

  lemma BlankSlots()
    ensures |BLANK_NAME| == 2
    ensures Named(Merged(BLANK_NAME, 1, 0)) && !Named(Merged(BLANK_NAME, 2, 0))
  {
    TwoBatches(Fragment(0, "c", "Read", ""), Fragment(0, "", " ", ""));
    StripTrimmed("Read");
    StripBlank(" ");
    hide Strip, Merged;
  }

  lemma TwoBatches(a: Fragment, b: Fragment)
    requires a.index == b.index
    ensures Merged([[a], [b]], 1, a.index) == Merge(EMPTY_SLOT, a)
    ensures Merged([[a], [b]], 2, a.index) == Merge(Merge(EMPTY_SLOT, a), b)
  {
    var batches := [[a], [b]];
    MergedNext(batches, 0, a.index);
    MergedNext(batches, 1, a.index);
    assert batches[..0] == [] && Own([], a.index) == [];
    MergeNothing();
    assert [a][1..] == [] && [b][1..] == [];
    assert Own([a], a.index) == [a] && Own([b], a.index) == [b];
    hide Merge, Merged;
  }
}

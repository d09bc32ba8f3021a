/**
 * The flow partitioner that Play runs over the feedback list, as a fold over
 * the list: each enabled feedback that executes joins its own sequence into
 * the open block; a WaitAllAbove first closes that block (with its delay) into
 * the main sequence and opens a new one. After the last feedback the open
 * block is appended once more, even when it is empty.
 */
module Partition {
  import opened Wrappers
  import opened Tween
  import opened Flow
  import opened Feedbacks
  import WaitAllAbove

  /** What Play's loop depends on for one feedback: whether it is enabled, the delay it
      closes the open block with (WaitAllAbove only), what its OnExecute returns (None
      stands for null) and the sequence of its own that OnExecute builds. */
  datatype Item = Item(enabled: bool, closes: Option<WaitAllAbove.Delay>, result: Option<ExecuteResult>, own: Tween)

  /** The item of a feedback with this enabled flag and kind. A WaitAllAbove always
      returns a result and leaves its own sequence empty; so does every feedback that
      returns null. */
  function ItemOf(enabled: bool, k: FeedbackKind): (it: Item)
    ensures it.closes.Some? ==> it.result.Some?
    ensures it.closes.Some? || it.result.None? ==> it.own == Seq([], [])
  {
    Item(enabled, Closing(k), ResultOf(k), Snapshot(k))
  }

  /** The item closes the open block: an enabled WaitAllAbove. */
  predicate Closes(it: Item)
  {
    it.enabled && it.closes.Some?
  }

  /** The item's sequence is joined and its execute result recorded: enabled, and OnExecute
      did not return null. */
  predicate Contributes(it: Item)
  {
    it.enabled && it.result.Some?
  }

  /** What an enabled item joins into the open block: its own sequence, unless OnExecute
      returned null. */
  function Joins(it: Item): seq<Entry>
  {
    if it.result.Some? then [Joined(it.own)] else []
  }

  /** One turn of Play's loop: a disabled item is skipped; an enabled WaitAllAbove closes
      the open block with its delay and opens a new one; then what the item joins is added
      to the open block. */
  function Step(s: FlowState, it: Item): (t: FlowState)
    ensures !it.enabled ==> t == s
    ensures it.enabled && it.closes.None? ==> t == FlowState(s.main, s.current + Joins(it))
    ensures Closes(it) ==> |t.main| == |s.main| + 1 && t.main[..|s.main|] == s.main && t.current == Joins(it)
  {
    if !it.enabled then s
    else if it.closes.Some? then FlowState(s.main + [Appended(Seq(s.current + DelayEntries(it.closes.value), []))], Joins(it))
    else FlowState(s.main, s.current + Joins(it))
  }

  /** The turn is the feedback's directive on the flow context followed by the join. */
  lemma StepFollowsDirective(s: FlowState, it: Item)
    requires it.enabled
    ensures Step(s, it) == FlowState(Directive(s, it.closes).main, Directive(s, it.closes).current + Joins(it))
  {
  }

  /** The loop run from state `s` over `items`. */
  function Run(s: FlowState, items: seq<Item>): FlowState
    decreases |items|
  {
    if items == [] then s else Step(Run(s, items[..|items| - 1]), items[|items| - 1])
  }

  /** The loop run from a fresh context. */
  function Partitioned(items: seq<Item>): FlowState
  {
    Run(FlowState([], []), items)
  }

  /** One more turn of the loop over a prefix of the list. */
  lemma PartitionedSnoc(items: seq<Item>, i: int)
    requires 0 <= i < |items|
    ensures Partitioned(items[..i + 1]) == Step(Partitioned(items[..i]), items[i])
  {
    assert items[..i + 1][..i] == items[..i];
  }

  /** The main sequence's children once Play has appended the last open block. */
  function Blocks(items: seq<Item>): seq<Entry>
  {
    Partitioned(items).main + [Appended(Seq(Partitioned(items).current, []))]
  }

  /** How many items close a block. */
  function Closings(items: seq<Item>): nat
    decreases |items|
  {
    if items == [] then 0
    else Closings(items[..|items| - 1]) + (if Closes(items[|items| - 1]) then 1 else 0)
  }

  /** The items Play does not skip, in order. */
  function EnabledOnly(items: seq<Item>): seq<Item>
    decreases |items|
  {
    if items == [] then []
    else EnabledOnly(items[..|items| - 1]) + (if items[|items| - 1].enabled then [items[|items| - 1]] else [])
  }

  /** What one item leaves behind when the blocks are read left to right: nothing when
      disabled; otherwise, for a WaitAllAbove, its delay (ending the block it closes),
      and then what it joins (for a WaitAllAbove, starting the next block). */
  function Emitted(it: Item): seq<Entry>
  {
    if !it.enabled then []
    else if it.closes.Some? then DelayEntries(it.closes.value) + Joins(it)
    else Joins(it)
  }

  function EmittedAll(items: seq<Item>): seq<Entry>
    decreases |items|
  {
    if items == [] then [] else EmittedAll(items[..|items| - 1]) + Emitted(items[|items| - 1])
  }

  /** The entries of a block, or nothing for a child that is not a sequence. */
  function Body(e: Entry): seq<Entry>
  {
    if e.tween.Seq? then e.tween.entries else []
  }

  /** The blocks' entries read one block after the other. */
  function Bodies(es: seq<Entry>): seq<Entry>
    decreases |es|
  {
    if es == [] then [] else Bodies(es[..|es| - 1]) + Body(es[|es| - 1])
  }

  /** A child of the main sequence as the partitioner makes it: an appended block without settings. */
  predicate IsBlock(e: Entry)
  {
    e.Appended? && e.tween.Seq? && e.tween.settings == []
  }

  lemma {:induction false} RunCountsClosings(s: FlowState, items: seq<Item>)
    ensures |Run(s, items).main| == |s.main| + Closings(items)
    ensures Run(s, items).main[..|s.main|] == s.main
    decreases |items|
  {
    if items != [] {
      RunCountsClosings(s, items[..|items| - 1]);
    }
  }

  /** The main sequence has one child per enabled WaitAllAbove, plus the final block. */
  lemma BlockCount(items: seq<Item>)
    ensures |Blocks(items)| == Closings(items) + 1
  {
    RunCountsClosings(FlowState([], []), items);
  }

  lemma {:induction false} RunMakesBlocks(s: FlowState, items: seq<Item>)
    requires forall e :: e in s.main ==> IsBlock(e)
    ensures forall e :: e in Run(s, items).main ==> IsBlock(e)
    decreases |items|
  {
    if items != [] {
      RunMakesBlocks(s, items[..|items| - 1]);
    }
  }

  /** Every child of the main sequence is an appended block. */
  lemma EveryChildIsBlock(items: seq<Item>)
    ensures forall e :: e in Blocks(items) ==> IsBlock(e)
  {
    RunMakesBlocks(FlowState([], []), items);
  }

  lemma {:induction false} BodiesAppend(es: seq<Entry>, e: Entry)
    ensures Bodies(es + [e]) == Bodies(es) + Body(e)
  {
    assert (es + [e])[..|es|] == es;
  }

  lemma {:induction false} StepEmits(s: FlowState, it: Item)
    ensures Bodies(Step(s, it).main) + Step(s, it).current == Bodies(s.main) + s.current + Emitted(it)
  {
    var t := Step(s, it);
    if Closes(it) {
      var closed := s.current + DelayEntries(it.closes.value);
      assert t.main == s.main + [Appended(Seq(closed, []))];
      BodiesAppend(s.main, Appended(Seq(closed, [])));
    }
  }

  lemma {:induction false} RunEmits(s: FlowState, items: seq<Item>)
    ensures Bodies(Run(s, items).main) + Run(s, items).current == Bodies(s.main) + s.current + EmittedAll(items)
    decreases |items|
  {
    if items != [] {
      var init, last := items[..|items| - 1], items[|items| - 1];
      var before := Run(s, init);
      var after := Run(s, items);
      assert after == Step(before, last);
      assert EmittedAll(items) == EmittedAll(init) + Emitted(last);
      RunEmits(s, init);
      StepEmits(before, last);
      var b0, b1, b2 := Bodies(s.main) + s.current, Bodies(before.main) + before.current, Bodies(after.main) + after.current;
      assert b1 == b0 + EmittedAll(init);
      assert b2 == b1 + Emitted(last);
    }
  }

  /** Reading the blocks left to right gives every executed feedback's own sequence in
      list order, each WaitAllAbove's delay where it stood, and nothing else. */
  lemma BlocksInListOrder(items: seq<Item>)
    ensures Bodies(Blocks(items)) == EmittedAll(items)
  {
    RunEmits(FlowState([], []), items);
    BodiesAppend(Partitioned(items).main, Appended(Seq(Partitioned(items).current, [])));
  }

  /** Disabled feedbacks are skipped: the result is the one for the enabled feedbacks alone. */
  lemma {:induction false} SkipsDisabled(s: FlowState, items: seq<Item>)
    ensures Run(s, items) == Run(s, EnabledOnly(items))
    decreases |items|
  {
    if items != [] {
      var init, last := items[..|items| - 1], items[|items| - 1];
      SkipsDisabled(s, init);
      assert Run(s, items) == Step(Run(s, init), last);
      if last.enabled {
        var e := EnabledOnly(init) + [last];
        assert EnabledOnly(items) == e;
        assert e[..|e| - 1] == EnabledOnly(init);
      } else {
        assert EnabledOnly(items) == EnabledOnly(init) + [];
        assert EnabledOnly(init) + [] == EnabledOnly(init);
      }
    }
  }

  /** Running the loop over two lists in a row is running it over their concatenation. */
  lemma {:induction false} RunConcat(s: FlowState, xs: seq<Item>, ys: seq<Item>)
    ensures Run(s, xs + ys) == Run(Run(s, xs), ys)
    decreases |ys|
  {
    if ys == [] {
      assert xs + ys == xs;
    } else {
      var init, last, zs := ys[..|ys| - 1], ys[|ys| - 1], xs + ys;
      RunConcat(s, xs, init);
      assert zs[..|zs| - 1] == xs + init && zs[|zs| - 1] == last;
      assert Run(s, zs) == Step(Run(s, xs + init), last);
      assert Run(Run(s, xs), ys) == Step(Run(Run(s, xs), init), last);
    }
  }

  /** An item that does not close a block only adds what it emits to the open block. */
  lemma StepOpen(s: FlowState, it: Item)
    requires !Closes(it)
    ensures Step(s, it) == FlowState(s.main, s.current + Emitted(it))
  {
    if !it.enabled {
      assert s.current + [] == s.current;
    }
  }

  /** No item of the list closes a block, checked from the last item back. */
  predicate NoneCloses(ys: seq<Item>)
    decreases |ys|
  {
    ys == [] || (NoneCloses(ys[..|ys| - 1]) && !Closes(ys[|ys| - 1]))
  }

  lemma {:induction false} NoneClosesAll(ys: seq<Item>)
    requires forall y :: y in ys ==> !Closes(y)
    ensures NoneCloses(ys)
    decreases |ys|
  {
    if ys != [] {
      var init := ys[..|ys| - 1];
      assert forall y :: y in init ==> y in ys;
      NoneClosesAll(init);
    }
  }

  /** Without a WaitAllAbove, the items only add to the open block, in order. */
  lemma {:induction false} OpenBlockGrows(s: FlowState, ys: seq<Item>)
    requires NoneCloses(ys)
    ensures Run(s, ys) == FlowState(s.main, s.current + EmittedAll(ys))
    decreases |ys|
  {
    if ys != [] {
      var init, last := ys[..|ys| - 1], ys[|ys| - 1];
      OpenBlockGrows(s, init);
      StepOpen(Run(s, init), last);
      assert s.current + EmittedAll(init) + Emitted(last) == s.current + EmittedAll(ys);
    }
  }

  /** A list without WaitAllAbove yields one block holding every executed feedback. */
  lemma SingleBlock(items: seq<Item>)
    requires forall y :: y in items ==> !Closes(y)
    ensures Blocks(items) == [Appended(Seq(EmittedAll(items), []))]
  {
    NoneClosesAll(items);
    OpenBlockGrows(FlowState([], []), items);
    assert [] + EmittedAll(items) == EmittedAll(items);
  }

  /** The last WaitAllAbove splits the result: everything before it as the earlier blocks
      plus the block it closes (ending with its delay), then one final block that starts
      with its own empty sequence and holds everything after it. */
  lemma LastMarkerSplits(xs: seq<Item>, w: Item, ys: seq<Item>)
    requires Closes(w)
    requires forall y :: y in ys ==> !Closes(y)
    ensures Blocks(xs + [w] + ys)
         == Partitioned(xs).main
            + [Appended(Seq(Partitioned(xs).current + DelayEntries(w.closes.value), []))]
            + [Appended(Seq(Joins(w) + EmittedAll(ys), []))]
  {
    RunConcat(FlowState([], []), xs + [w], ys);
    RunConcat(FlowState([], []), xs, [w]);
    var afterW := Run(Partitioned(xs), [w]);
    assert afterW == Step(Partitioned(xs), w) by {
      assert [w][..0] == [];
    }
    NoneClosesAll(ys);
    OpenBlockGrows(afterW, ys);
  }
}

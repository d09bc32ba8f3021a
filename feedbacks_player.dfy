/**
 * The feedbacks player: an ordered list of feedbacks edited in place, the
 * lookup scripts use, and Play, which kills the running main sequence, builds
 * a new one by partitioning the list and starts it, plus the null-guarded
 * Complete, Kill and Restart of the running main sequence.
 */
module Player {
  import opened Wrappers
  import opened Unity
  import opened Tween
  import opened Flow
  import opened Feedbacks
  import opened Partition
  import opened ListEdits

  /** Each feedback's enabled flag and kind, in list order. */
  function Configs(fs: seq<Feedback>): (cs: seq<(bool, FeedbackKind)>)
    reads fs`enabled, fs`kind
    ensures |cs| == |fs|
    ensures forall j :: 0 <= j < |fs| ==> cs[j] == (fs[j].enabled, fs[j].kind)
    decreases |fs|
  {
    if fs == [] then [] else Configs(fs[..|fs| - 1]) + [(fs[|fs| - 1].enabled, fs[|fs| - 1].kind)]
  }

  /** `items` is what the loop depends on of each of `fs`. */
  ghost predicate Describes(items: seq<Item>, fs: seq<Feedback>)
    reads fs`enabled, fs`kind
  {
    && |items| == |fs|
    && forall j {:trigger ItemOf(fs[j].enabled, fs[j].kind)} ::
         0 <= j < |fs| ==> items[j] == ItemOf(fs[j].enabled, fs[j].kind)
  }

  /** What Play's loop depends on of each feedback, in order. */
  function ItemsOf(fs: seq<Feedback>): (items: seq<Item>)
    reads fs`enabled, fs`kind
    ensures Describes(items, fs)
  {
    var cs := Configs(fs);
    seq(|cs|, j requires 0 <= j < |cs| => ItemOf(cs[j].0, cs[j].1))
  }

  /** What one turn of Play's loop does with an enabled feedback: it executes into a new
      sequence of its own, and unless it returned null that sequence is joined into the
      open block and its result recorded. `it` is what the loop depends on of `f`. */
  method ExecuteEnabled(f: Feedback, context: FlowContext, ghost it: Item)
    requires context.Valid() && f.enabled
    requires it == ItemOf(f.enabled, f.kind)
    modifies context`currentSequence, context.mainSequence`entries, context.currentSequence`entries
    modifies f`executeResult
    ensures context.Valid()
    ensures context.currentSequence == old(context.currentSequence) || fresh(context.currentSequence)
    ensures context.State() == Step(old(context.State()), it)
    ensures f.executeResult == if it.result.Some? then it.result else old(f.executeResult)
  {
    var sequenceTween := new SequenceTween();
    var executeResult := f.OnExecute(context, sequenceTween);
    if executeResult.Some? {
      assert sequenceTween.Snapshot() == it.own;
      context.currentSequence.Join(sequenceTween.Snapshot());
      f.executeResult := executeResult;
    }
  }

  /** One turn of Play's loop with a feedback: a disabled feedback is skipped. */
  method ExecuteOne(f: Feedback, context: FlowContext, ghost it: Item)
    requires context.Valid()
    requires it == ItemOf(f.enabled, f.kind)
    modifies context`currentSequence, context.mainSequence`entries, context.currentSequence`entries
    modifies f`executeResult
    ensures context.Valid()
    ensures context.currentSequence == old(context.currentSequence) || fresh(context.currentSequence)
    ensures context.State() == Step(old(context.State()), it)
    ensures f.executeResult == if Contributes(it) then it.result else old(f.executeResult)
  {
    if f.enabled {
      ExecuteEnabled(f, context, it);
    }
  }

  /** Each feedback's last execute result, in list order. */
  function ResultsOf(fs: seq<Feedback>): (rs: seq<Option<ExecuteResult>>)
    reads fs`executeResult
    ensures |rs| == |fs|
    ensures forall j :: 0 <= j < |fs| ==> rs[j] == fs[j].executeResult
    decreases |fs|
  {
    if fs == [] then [] else ResultsOf(fs[..|fs| - 1]) + [fs[|fs| - 1].executeResult]
  }

  /** Once the loop has run over the first `n` feedbacks, each of them holds the result its
      item records, if any; every other feedback still holds its result from `before`. */
  ghost predicate Recorded(fs: seq<Feedback>, items: seq<Item>, n: int, before: seq<Option<ExecuteResult>>)
    requires 0 <= n <= |fs| && |items| == |fs| == |before|
    reads fs`executeResult
  {
    forall j :: 0 <= j < |fs| ==>
      fs[j].executeResult == if fs[j] in fs[..n] && Contributes(items[j]) then items[j].result else before[j]
  }

  /** One turn of Play's loop, on the feedback at `i`; the same feedback may sit at
      other positions too, and those see the same result. */
  method PlayOne(feedbacks: seq<Feedback>, i: int, context: FlowContext, ghost items: seq<Item>,
                 ghost before: seq<Option<ExecuteResult>>)
    requires 0 <= i < |feedbacks| == |before|
    requires context.Valid()
    requires Describes(items, feedbacks)
    requires Recorded(feedbacks, items, i, before)
    modifies context`currentSequence, context.mainSequence`entries, context.currentSequence`entries
    modifies feedbacks[i..i + 1]`executeResult
    ensures context.Valid()
    ensures context.currentSequence == old(context.currentSequence) || fresh(context.currentSequence)
    ensures context.State() == Step(old(context.State()), items[i])
    ensures Recorded(feedbacks, items, i + 1, before)
  {
    var currFeedback := feedbacks[i];
    assert items[i] == ItemOf(currFeedback.enabled, currFeedback.kind);
    assert forall j :: 0 <= j < |feedbacks| && feedbacks[j] == currFeedback ==> items[j] == items[i] by {
      forall j | 0 <= j < |feedbacks| && feedbacks[j] == currFeedback
        ensures items[j] == items[i]
      {
        assert items[j] == ItemOf(feedbacks[j].enabled, feedbacks[j].kind);
      }
    }
    assert feedbacks[..i + 1] == feedbacks[..i] + [currFeedback];
    ExecuteOne(currFeedback, context, items[i]);
  }

  /** Play's loop: every feedback in list order, from a fresh context; `items` is what
      the loop depends on of each feedback. */
  method PlayAll(feedbacks: seq<Feedback>, context: FlowContext, ghost items: seq<Item>)
    requires context.Valid() && context.State() == FlowState([], [])
    requires Describes(items, feedbacks)
    modifies context`currentSequence, context.mainSequence`entries, context.currentSequence`entries
    modifies feedbacks`executeResult
    ensures context.Valid()
    ensures context.currentSequence == old(context.currentSequence) || fresh(context.currentSequence)
    ensures context.State() == Partitioned(items)
    ensures forall j {:trigger feedbacks[j].executeResult} :: 0 <= j < |feedbacks| ==>
              feedbacks[j].executeResult == if Contributes(items[j]) then items[j].result else old(feedbacks[j].executeResult)
  {
    var i := 0;
    ghost var before := ResultsOf(feedbacks);
    while i < |feedbacks|
      invariant 0 <= i <= |feedbacks|
      invariant Describes(items, feedbacks)
      invariant context.Valid()
      invariant context.currentSequence == old(context.currentSequence) || fresh(context.currentSequence)
      invariant context.State() == Partitioned(items[..i])
      invariant Recorded(feedbacks, items, i, before)
    {
      PartitionedSnoc(items, i);
      PlayOne(feedbacks, i, context, items, before);
      i := i + 1;
    }
    assert items[..|feedbacks|] == items && feedbacks[..|feedbacks|] == feedbacks;
  }

  /** The end of Play: the open block is appended to the main sequence, which gets the
      player's loop setting and the completion callback and is then played. */
  method Start(context: FlowContext, loop: LoopProperty, onFinish: Option<FinishCallback>)
    requires context.Valid()
    modifies context.mainSequence
    ensures context.mainSequence.entries == old(context.mainSequence.entries) + [Appended(old(context.currentSequence.Snapshot()))]
    ensures context.mainSequence.settings == [Loop(loop), OnCompleteOrKill(onFinish)]
    ensures context.mainSequence.commands == [Command.Play]
  {
    var main := context.mainSequence;
    main.Append(context.currentSequence.Snapshot());
    main.AddSetting(Loop(loop));
    main.AddSetting(OnCompleteOrKill(onFinish));
    main.Issue(Command.Play);
  }

  class FeedbacksPlayer {
    var feedbacks: seq<Feedback>
    var executeOnAwake: bool
    var loop: LoopProperty
    var currMainSequence: SequenceTween?

    /** The running main sequence, as a frame: empty when there is none. */
    function Running(): set<SequenceTween>
      reads this`currMainSequence
    {
      if currMainSequence == null then {} else {currMainSequence}
    }

    constructor (executeOnAwake: bool, loop: LoopProperty)
      ensures feedbacks == [] && currMainSequence == null
      ensures this.executeOnAwake == executeOnAwake && this.loop == loop
    {
      feedbacks := [];
      this.executeOnAwake := executeOnAwake;
      this.loop := loop;
      currMainSequence := null;
    }

    /** What Play reads of the list: each feedback's enabled flag and kind, in order. */
    function Items(): seq<Item>
      reads this`feedbacks, feedbacks`enabled, feedbacks`kind
    {
      ItemsOf(feedbacks)
    }

    /** Appends the feedback at the end of the list. */
    method AddFeedback(feedback: Feedback)
      modifies this`feedbacks
      ensures feedbacks == old(feedbacks) + [feedback]
    {
      var outcome := AddFeedbackAt(feedback, |feedbacks|);
      InsertAtEnd(old(feedbacks), feedback);
    }

    /** Inserts the feedback at `index`; an index outside 0..|feedbacks| throws and changes nothing. */
    method AddFeedbackAt(feedback: Feedback, index: int) returns (outcome: Outcome)
      modifies this`feedbacks
      ensures outcome == Done <==> 0 <= index <= |old(feedbacks)|
      ensures outcome == Done ==> feedbacks == Inserted(old(feedbacks), index, feedback)
      ensures outcome == OutOfRange ==> feedbacks == old(feedbacks)
    {
      if !(0 <= index <= |feedbacks|) {
        return OutOfRange;
      }
      feedbacks := Inserted(feedbacks, index, feedback);
      outcome := Done;
    }

    /** Removes the first occurrence of the feedback, if any. */
    method RemoveFeedback(feedback: Feedback)
      modifies this`feedbacks
      ensures feedbacks == Removed(old(feedbacks), feedback)
    {
      var k := IndexOf(feedbacks, feedback);
      if k >= 0 {
        feedbacks := RemovedAt(feedbacks, k);
      }
    }

    method RemoveAllFeedbacks()
      modifies this`feedbacks
      ensures feedbacks == []
    {
      feedbacks := [];
    }

    /** Moves the feedback at `startIndex` to `endIndex`. Equal indices change nothing, even out
        of range. Otherwise a start outside the list throws before anything changes; an end
        outside the shortened list throws after the feedback was already taken out. */
    method ReorderFeedback(startIndex: int, endIndex: int) returns (outcome: Outcome)
      modifies this`feedbacks
      ensures outcome == Done <==>
                startIndex == endIndex || (0 <= startIndex < |old(feedbacks)| && 0 <= endIndex < |old(feedbacks)|)
      ensures startIndex == endIndex ==> feedbacks == old(feedbacks)
      ensures startIndex != endIndex && outcome == Done ==>
                feedbacks == Reordered(old(feedbacks), startIndex, endIndex)
      ensures !(0 <= startIndex < |old(feedbacks)|) ==> feedbacks == old(feedbacks)
      ensures startIndex != endIndex && 0 <= startIndex < |old(feedbacks)| && outcome == OutOfRange ==>
                feedbacks == RemovedAt(old(feedbacks), startIndex)
    {
      if startIndex == endIndex {
        return Done;
      }
      if !(0 <= startIndex < |feedbacks|) {
        return OutOfRange;
      }
      var item := feedbacks[startIndex];
      feedbacks := RemovedAt(feedbacks, startIndex);
      if !(0 <= endIndex <= |feedbacks|) {
        return OutOfRange;
      }
      feedbacks := Inserted(feedbacks, endIndex, item);
      outcome := Done;
    }

    /** The first feedback that scripts use, of exactly type `t`, with id `id`; null when none. */
    method GetFeedback(t: FeedbackType, id: string) returns (r: Feedback?)
      ensures r == null <==> forall i :: 0 <= i < |feedbacks| ==> !Qualifies(feedbacks[i], t, id)
      ensures r != null ==>
                exists k :: 0 <= k < |feedbacks| && feedbacks[k] == r && Qualifies(r, t, id)
                  && forall j :: 0 <= j < k ==> !Qualifies(feedbacks[j], t, id)
    {
      var i := 0;
      while i < |feedbacks|
        invariant 0 <= i <= |feedbacks|
        invariant forall j :: 0 <= j < i ==> !Qualifies(feedbacks[j], t, id)
      {
        var currFeedback := feedbacks[i];
        if !currFeedback.scriptUsage.usedByScript {
          i := i + 1;
          continue;
        }
        if TypeOf(currFeedback.kind) == t {
          if currFeedback.scriptUsage.idUsedByScript == id {
            return currFeedback;
          }
        }
        i := i + 1;
      }
      return null;
    }

    /** Kills the running main sequence, builds a new one from the list and starts it:
        one block per enabled WaitAllAbove plus the last one, each executed feedback's
        own sequence joined in list order; the feedbacks that executed record their result. */
    method Play(onFinish: Option<FinishCallback>)
      modifies this`currMainSequence, Running()`commands, feedbacks`executeResult
      ensures currMainSequence != null && fresh(currMainSequence)
      ensures currMainSequence.entries == Blocks(old(Items()))
      ensures currMainSequence.settings == [Loop(loop), OnCompleteOrKill(onFinish)]
      ensures currMainSequence.commands == [Command.Play]
      ensures old(currMainSequence) != null ==>
                old(currMainSequence).commands == old(currMainSequence.commands) + [Command.Kill]
      ensures forall j {:trigger feedbacks[j].executeResult} :: 0 <= j < |feedbacks| ==>
                feedbacks[j].executeResult == if Contributes(old(Items())[j]) then old(Items())[j].result else old(feedbacks[j].executeResult)
    {
      ghost var items := Items();
      Kill();
      assert Items() == items;
      var context := new FlowContext();
      PlayAll(feedbacks, context, items);
      assert context.State() == Partitioned(items);
      ghost var blocks := context.mainSequence.entries + [Appended(context.currentSequence.Snapshot())];
      assert blocks == Blocks(items);
      Start(context, loop, onFinish);
      currMainSequence := context.mainSequence;
    }

    /** Fast-forwards the running main sequence; nothing happens when there is none. */
    method Complete()
      modifies Running()`commands
      ensures currMainSequence != null ==> currMainSequence.commands == old(currMainSequence.commands) + [Command.Complete]
    {
      if currMainSequence == null {
        return;
      }
      currMainSequence.Issue(Command.Complete);
    }

    /** Kills the running main sequence; nothing happens when there is none. */
    method Kill()
      modifies Running()`commands
      ensures currMainSequence != null ==> currMainSequence.commands == old(currMainSequence.commands) + [Command.Kill]
    {
      if currMainSequence == null {
        return;
      }
      currMainSequence.Issue(Command.Kill);
    }

    /** Restarts the running main sequence; nothing happens when there is none. */
    method Restart()
      modifies Running()`commands
      ensures currMainSequence != null ==> currMainSequence.commands == old(currMainSequence.commands) + [Command.Restart]
    {
      if currMainSequence == null {
        return;
      }
      currMainSequence.Issue(Command.Restart);
    }
  }
}

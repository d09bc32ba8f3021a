/**
 * The "Wait All Above" flow feedback: everything joined so far runs as one
 * block, optionally followed by a delay, before anything listed below it.
 */
module WaitAllAbove {
  import opened Wrappers
  import opened Tween
  import opened Flow

  /** The delay field is clamped to non-negative values in the inspector. */
  type Delay = r: real | r >= 0.0

  datatype Params = Params(delay: Delay)

  /** The flow state after the directive: the open block, with the delay appended
      after everything already joined into it, becomes the main sequence's new
      last child, and a new, empty block is opened. */
  function Close(s: FlowState, delay: real): (t: FlowState)
    ensures |t.main| == |s.main| + 1 && t.main[..|s.main|] == s.main
    ensures t.main[|s.main|].Appended? && t.main[|s.main|].tween.Seq?
    ensures var block := t.main[|s.main|].tween.entries;
            && |s.current| <= |block| && block[..|s.current|] == s.current
            && (delay > 0.0 <==> |block| == |s.current| + 1)
            && (delay > 0.0 ==> block[|block| - 1] == Appended(Wait(delay)))
            && (delay <= 0.0 ==> block == s.current)
    ensures t.current == []
  {
    FlowState(s.main + [Appended(Seq(s.current + DelayEntries(delay), []))], [])
  }

  /** The execute result: the delay node exactly when one was appended, no progress node. */
  function Result(delay: real): (r: ExecuteResult)
    ensures r.delayTween.Some? <==> delay > 0.0
    ensures r.delayTween.Some? ==> DelayEntries(delay) == [Appended(r.delayTween.value)]
    ensures r.progresTween == None
  {
    ExecuteResult(DelayTween(delay), None)
  }

  /** Never yields null. The feedback's own sequence is left empty. */
  method OnExecute(p: Params, context: FlowContext, sequenceTween: SequenceTween)
    returns (r: Option<ExecuteResult>)
    requires context.Valid()
    modifies context`currentSequence, context.mainSequence`entries, context.currentSequence`entries
    ensures context.Valid()
    ensures fresh(context.currentSequence)
    ensures old(context.currentSequence).entries == old(context.currentSequence.entries) + DelayEntries(p.delay)
    ensures context.State() == Close(old(context.State()), p.delay)
    ensures r == Some(Result(p.delay))
  {
    var delayTween: Option<Tween> := None;
    if p.delay > 0.0 {
      delayTween := Some(Wait(p.delay));
      context.currentSequence.Append(Wait(p.delay));
    }
    context.mainSequence.Append(context.currentSequence.Snapshot());
    context.currentSequence := new SequenceTween();
    r := Some(ExecuteResult(delayTween, None));
  }
}

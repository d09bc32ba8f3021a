/**
 * The state one Play builds while it walks the feedback list: a main
 * sequence whose identity is fixed for the context's lifetime, and an open
 * "current" block that a WaitAllAbove feedback may replace. Also the record
 * a feedback returns from its execution.
 */
module Flow {
  import opened Wrappers
  import opened Tween

  /** What a feedback reports about the nodes it built; `progresTween` keeps the source's spelling. */
  datatype ExecuteResult = ExecuteResult(delayTween: Option<Tween>, progresTween: Option<Tween>)

  /** The value of a flow context: the entries of the main sequence and of the open block. */
  datatype FlowState = FlowState(main: seq<Entry>, current: seq<Entry>)

  class FlowContext {
    const mainSequence: SequenceTween
    var currentSequence: SequenceTween
    var currentDelay: real

    /** The two sequences are distinct, and while a flow is being built neither has
        received a setting or a lifecycle command. */
    ghost predicate Valid()
      reads this, mainSequence, currentSequence
    {
      && mainSequence != currentSequence
      && mainSequence.settings == [] && mainSequence.commands == []
      && currentSequence.settings == [] && currentSequence.commands == []
    }

    function State(): FlowState
      reads this, mainSequence, currentSequence
    {
      FlowState(mainSequence.entries, currentSequence.entries)
    }

    /** A fresh context: two new, distinct, empty sequences. */
    constructor ()
      ensures Valid()
      ensures fresh(mainSequence) && fresh(currentSequence)
      ensures State() == FlowState([], [])
      ensures currentDelay == 0.0
    {
      mainSequence := new SequenceTween();
      currentSequence := new SequenceTween();
      currentDelay := 0.0;
    }
  }
}

/**
 * The "GameObject / SetActive" feedback: after an optional delay, switch a
 * scene object on or off.
 */
module GameObjectSetActive {
  import opened Wrappers
  import opened Unity
  import opened Tween
  import opened Flow
  import opened Elements

  datatype Params = Params(target: Option<GameObject>, value: BoolElement, timing: TimingElement)

  /** An error exactly when there is no target. */
  function GetFeedbackErrors(p: Params): (r: ErrorReport)
    ensures r.hasErrors <==> p.target.None?
    ensures r.errors == if r.hasErrors then Text("Target is null") else Text("")
  {
    if p.target.Some? then ErrorReport(false, Text("")) else ErrorReport(true, Text("Target is null"))
  }

  /** The target's name, or nothing when there is no target. */
  function GetFeedbackTargetInfo(p: Params): (r: string)
    ensures p.target.Some? ==> r == p.target.value.name
    ensures p.target.None? ==> r == ""
  {
    match p.target
    case Some(go) => go.name
    case None => ""
  }

  /** How a bool is written by string interpolation. */
  function BoolText(b: bool): string
  {
    if b then "True" else "False"
  }

  /** "Value: " followed by the value to set; the two values give different texts. */
  function GetFeedbackInfo(p: Params): (r: string)
    ensures |r| >= 7 && r[..7] == "Value: "
    ensures r == "Value: True" <==> p.value.value
    ensures r == "Value: False" <==> !p.value.value
  {
    "Value: " + BoolText(p.value.value)
  }

  /** Installs the elements AddElement created, with the duration switched off. */
  function OnCreate(p: Params, value: BoolElement, timing: TimingElement): (q: Params)
    ensures q.target == p.target && q.value == value
    ensures q.timing.delay == timing.delay && !q.timing.useDuration
  {
    p.(value := value, timing := timing.(useDuration := false))
  }

  /** What the callback does: set the target's active flag to the configured value. */
  function Action(p: Params): Action
  {
    SetActive(p.target, p.value.value)
  }

  /** The entries OnExecute appends: a wait when the delay is positive, then
      exactly one callback, which comes last. A missing target changes nothing
      here: the callback is still scheduled. */
  function Steps(p: Params): seq<Entry>
  {
    DelayEntries(p.timing.delay) + [Appended(Callback(Action(p)))]
  }

  /** A wait when the delay is positive, then exactly one callback, which comes last. */
  lemma StepsLayout(p: Params)
    ensures |Steps(p)| == if p.timing.delay > 0.0 then 2 else 1
    ensures Steps(p)[|Steps(p)| - 1] == Appended(Callback(Action(p)))
    ensures p.timing.delay > 0.0 ==> Steps(p)[0] == Appended(Wait(p.timing.delay))
    ensures forall i :: 0 <= i < |Steps(p)| - 1 ==> Steps(p)[i].tween.Wait?
  {
  }

  /** Never null: the delay node, if one was appended, and no progress node. */
  function Result(p: Params): Option<ExecuteResult>
  {
    Some(ExecuteResult(DelayTween(p.timing.delay), None))
  }

  /** Never null: the delay node is the wait appended first, and there is no progress node. */
  lemma ResultLayout(p: Params)
    ensures Result(p).Some?
    ensures Result(p).value.delayTween.Some? <==> p.timing.delay > 0.0
    ensures Result(p).value.delayTween.Some? ==> Steps(p)[0] == Appended(Result(p).value.delayTween.value)
    ensures Result(p).value.progresTween == None
  {
  }

  method OnExecute(p: Params, context: FlowContext, sequenceTween: SequenceTween)
    returns (r: Option<ExecuteResult>)
    modifies sequenceTween`entries
    ensures sequenceTween.entries == old(sequenceTween.entries) + Steps(p)
    ensures r == Result(p)
  {
    var delayTween: Option<Tween> := None;
    if p.timing.delay > 0.0 {
      delayTween := Some(Wait(p.timing.delay));
      sequenceTween.Append(Wait(p.timing.delay));
    }
    sequenceTween.AppendCallback(Action(p));
    r := Some(ExecuteResult(delayTween, None));
  }
}

/**
 * The "Graphic Material / Float" feedback: after an optional delay, tween a
 * float property of a UI graphic's material to an end value, optionally
 * snapping it to a start value first.
 */
module GraphicMaterialFloat {
  import opened Wrappers
  import opened Unity
  import opened Tween
  import opened Flow
  import opened Elements

  /** Delay and duration are clamped to non-negative values in the inspector. */
  type Seconds = r: real | r >= 0.0

  /** The graphic and the material property to drive; a missing property name is the empty string. */
  datatype GraphicMaterialFloatProperty = GraphicMaterialFloatProperty(graphic: Option<Graphic>, property: string)

  datatype StartEndFloatProperty = StartEndFloatProperty(useStartValue: bool, startValue: real, endValue: real)

  datatype Params = Params(
    target: GraphicMaterialFloatProperty,
    value: StartEndFloatProperty,
    delay: Seconds,
    duration: Seconds,
    easing: EasingProperty,
    looping: LoopProperty)

  /** The checks, in order: a missing graphic wins over a missing property, and only
      when both are present is there no error. */
  function GetFeedbackErrors(p: Params): (r: ErrorReport)
    ensures r.hasErrors <==> p.target.graphic.None? || p.target.property == ""
    ensures p.target.graphic.None? ==> r.errors == TargetNullErrorMessage
    ensures p.target.graphic.Some? && p.target.property == "" ==> r.errors == MaterialPropertyNotSelected
    ensures !r.hasErrors ==> r.errors == Text("")
  {
    if p.target.graphic.None? then ErrorReport(true, TargetNullErrorMessage)
    else if p.target.property == "" then ErrorReport(true, MaterialPropertyNotSelected)
    else ErrorReport(false, Text(""))
  }

  /** The graphic's object name, if there is a graphic. */
  function NamePart(p: Params): string
  {
    match p.target.graphic
    case Some(g) => g.gameObject.name
    case None => ""
  }

  /** The graphic's name (if any) followed by " -> " and the property (if one is selected). */
  function GetFeedbackTargetInfo(p: Params): (r: string)
    ensures p.target.property == "" ==> r == NamePart(p)
    ensures p.target.property != "" ==> r == NamePart(p) + " -> " + p.target.property
    ensures p.target.graphic.None? && p.target.property == "" ==> r == ""
    ensures p.target.graphic.Some? ==>
              |r| >= |p.target.graphic.value.gameObject.name|
              && r[..|p.target.graphic.value.gameObject.name|] == p.target.graphic.value.gameObject.name
  {
    var targetInfo := NamePart(p);
    if p.target.property != "" then targetInfo + " -> " + p.target.property else targetInfo
  }

  /** Whether OnExecute builds anything: there is a graphic and its material has the property. */
  predicate Executes(p: Params)
  {
    p.target.graphic.Some? && HasProperty(p.target.graphic.value.materialForRendering, p.target.property)
  }

  function Target(p: Params): FloatTarget
    requires p.target.graphic.Some?
  {
    MaterialFloat(p.target.graphic.value.materialForRendering, p.target.property)
  }

  /** The node that drives the property to the end value over the duration. */
  function ProgressTween(p: Params): Tween
    requires p.target.graphic.Some?
  {
    Value(Target(p), p.value.endValue, p.duration)
  }

  /** The entries OnExecute appends: nothing when it does not execute; otherwise, in
      order, a wait (only for a positive delay), an instant start value (only when
      asked for), and the progress node, which is always last. */
  function Steps(p: Params): seq<Entry>
  {
    if !Executes(p) then []
    else
      var start := if p.value.useStartValue then [Appended(Value(Target(p), p.value.startValue, 0.0))] else [];
      DelayEntries(p.delay) + start + [Appended(ProgressTween(p))]
  }

  /** Nothing unless the property exists; otherwise an optional wait, an optional instant start value and the progress node, last. */
  lemma StepsLayout(p: Params)
    ensures !Executes(p) ==> Steps(p) == []
    ensures Executes(p) ==>
              && |Steps(p)| == (if p.delay > 0.0 then 1 else 0) + (if p.value.useStartValue then 1 else 0) + 1
              && Steps(p)[|Steps(p)| - 1] == Appended(ProgressTween(p))
              && (p.delay > 0.0 ==> Steps(p)[0] == Appended(Wait(p.delay)))
              && (p.value.useStartValue ==> Steps(p)[|Steps(p)| - 2] == Appended(Value(Target(p), p.value.startValue, 0.0)))
              && (forall e :: e in Steps(p) ==> e.Appended?)
  {
  }

  /** The settings OnExecute puts on its sequence: its easing, then its loop. */
  function Settings(p: Params): seq<Setting>
  {
    if Executes(p) then [Easing(p.easing), Loop(p.looping)] else []
  }

  /** Easing then loop, and only when the feedback executes. */
  lemma SettingsLayout(p: Params)
    ensures !Executes(p) ==> Settings(p) == []
    ensures Executes(p) ==> Settings(p) == [Easing(p.easing), Loop(p.looping)]
  {
  }

  /** Null exactly when nothing is built; otherwise the wait node (or none) and the
      final value node, each the entry OnExecute appended. */
  function Result(p: Params): Option<ExecuteResult>
  {
    if !Executes(p) then None
    else Some(ExecuteResult(DelayTween(p.delay), Some(ProgressTween(p))))
  }

  /** Null exactly when nothing is built; the wait and the progress node are the entries appended first and last. */
  lemma ResultLayout(p: Params)
    ensures Result(p).Some? <==> Executes(p)
    ensures p.target.graphic.None? ==> Result(p).None? && GetFeedbackErrors(p).hasErrors
    ensures Result(p).Some? ==>
              Result(p).value.progresTween.Some?
              && Steps(p)[|Steps(p)| - 1] == Appended(Result(p).value.progresTween.value)
    ensures Result(p).Some? ==> (Result(p).value.delayTween.Some? <==> p.delay > 0.0)
    ensures Result(p).Some? && Result(p).value.delayTween.Some? ==> Steps(p)[0] == Appended(Result(p).value.delayTween.value)
  {
  }

  method OnExecute(p: Params, context: FlowContext, sequenceTween: SequenceTween)
    returns (r: Option<ExecuteResult>)
    modifies sequenceTween`entries, sequenceTween`settings
    ensures sequenceTween.entries == old(sequenceTween.entries) + Steps(p)
    ensures sequenceTween.settings == old(sequenceTween.settings) + Settings(p)
    ensures r == Result(p)
  {
    if p.target.graphic.None? {
      return None;
    }
    var material := p.target.graphic.value.materialForRendering;
    if !HasProperty(material, p.target.property) {
      return None;
    }
    var delayTween: Option<Tween> := None;
    if p.delay > 0.0 {
      delayTween := Some(Wait(p.delay));
      sequenceTween.Append(Wait(p.delay));
    }
    if p.value.useStartValue {
      sequenceTween.Append(Value(MaterialFloat(material, p.target.property), p.value.startValue, 0.0));
    }
    var progressTween := Value(MaterialFloat(material, p.target.property), p.value.endValue, p.duration);
    sequenceTween.Append(progressTween);
    sequenceTween.AddSetting(Easing(p.easing));
    sequenceTween.AddSetting(Loop(p.looping));
    r := Some(ExecuteResult(delayTween, Some(progressTween)));
  }
}

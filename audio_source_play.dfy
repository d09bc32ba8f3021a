/**
 * The "AudioSource / Play" feedback: after an optional delay, play a clip on
 * an audio source, either as its clip or as a one-shot.
 */
module AudioSourcePlay {
  import opened Wrappers
  import opened Unity
  import opened Tween
  import opened Flow
  import opened Elements

  datatype Params = Params(target: Option<AudioSource>, value: AudioClipElement, timing: TimingElement)

  /** An error exactly when there is no target. */
  function GetFeedbackErrors(p: Params): (r: ErrorReport)
    ensures r.hasErrors <==> p.target.None?
    ensures r.errors == if r.hasErrors then Text("Target is null") else Text("")
  {
    if p.target.Some? then ErrorReport(false, Text("")) else ErrorReport(true, Text("Target is null"))
  }

  /** The name of the object the source sits on, or nothing when there is no target. */
  function GetFeedbackTargetInfo(p: Params): (r: string)
    ensures p.target.Some? ==> r == p.target.value.gameObject.name
    ensures p.target.None? ==> r == ""
  {
    match p.target
    case Some(source) => source.gameObject.name
    case None => ""
  }

  /** This feedback shows no summary. */
  function GetFeedbackInfo(p: Params): (r: string)
    ensures r == ""
  {
    ""
  }

  /** Installs the elements AddElement created, with the duration switched off. */
  function OnCreate(p: Params, value: AudioClipElement, timing: TimingElement): (q: Params)
    ensures q.target == p.target && q.value == value
    ensures q.timing.delay == timing.delay && !q.timing.useDuration
  {
    p.(value := value, timing := timing.(useDuration := false))
  }

  /** The callback's branch: a one-shot when so configured, otherwise set the clip and
      play; either way on the target source with the configured clip. */
  function Action(source: AudioSource, value: AudioClipElement): (a: Action)
    ensures a.PlayOneShot? <==> value.oneShot
    ensures a.SetClipAndPlay? <==> !value.oneShot
    ensures (a.PlayOneShot? || a.SetClipAndPlay?) && a.source == source && a.clip == value.clip
  {
    if !value.oneShot then SetClipAndPlay(source, value.clip) else PlayOneShot(source, value.clip)
  }

  /** The entries OnExecute appends: nothing without a target; otherwise a wait when
      the delay is positive, then exactly one callback, which comes last. */
  function Steps(p: Params): seq<Entry>
  {
    match p.target
    case None => []
    case Some(source) => DelayEntries(p.timing.delay) + [Appended(Callback(Action(source, p.value)))]
  }

  /** Nothing without a target; otherwise a wait when the delay is positive, then exactly one callback, last. */
  lemma StepsLayout(p: Params)
    ensures p.target.None? ==> Steps(p) == []
    ensures p.target.Some? ==> |Steps(p)| == (if p.timing.delay > 0.0 then 2 else 1)
    ensures p.target.Some? ==> Steps(p)[|Steps(p)| - 1] == Appended(Callback(Action(p.target.value, p.value)))
    ensures p.target.Some? && p.timing.delay > 0.0 ==> Steps(p)[0] == Appended(Wait(p.timing.delay))
  {
  }

  /** Null exactly when there is no target, which is also exactly when an error is reported. */
  function Result(p: Params): Option<ExecuteResult>
  {
    if p.target.None? then None else Some(ExecuteResult(DelayTween(p.timing.delay), None))
  }

  /** Null exactly when there is no target, which is exactly when an error is reported; the delay node is the wait appended first. */
  lemma ResultLayout(p: Params)
    ensures Result(p).None? <==> p.target.None?
    ensures Result(p).None? <==> GetFeedbackErrors(p).hasErrors
    ensures Result(p).Some? ==> (Result(p).value.delayTween.Some? <==> p.timing.delay > 0.0)
    ensures Result(p).Some? && Result(p).value.delayTween.Some? ==> Steps(p)[0] == Appended(Result(p).value.delayTween.value)
    ensures Result(p).Some? ==> Result(p).value.progresTween == None
  {
  }

  method OnExecute(p: Params, context: FlowContext, sequenceTween: SequenceTween)
    returns (r: Option<ExecuteResult>)
    modifies sequenceTween`entries
    ensures sequenceTween.entries == old(sequenceTween.entries) + Steps(p)
    ensures r == Result(p)
  {
    if p.target.None? {
      return None;
    }
    var source := p.target.value;
    var delayTween: Option<Tween> := None;
    if p.timing.delay > 0.0 {
      delayTween := Some(Wait(p.timing.delay));
      sequenceTween.Append(Wait(p.timing.delay));
    }
    sequenceTween.AppendCallback(Action(source, p.value));
    r := Some(ExecuteResult(delayTween, None));
  }
}

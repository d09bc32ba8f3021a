/**
 * A feedback as the player holds it: the settings every feedback has
 * (enabled, script usage, the last execute result) and the kind-specific
 * settings of one of the modelled feedback kinds. Executing a feedback
 * dispatches on its kind.
 */
module Feedbacks {
  import opened Wrappers
  import opened Tween
  import opened Flow
  import WaitAllAbove
  import GameObjectSetActive
  import AudioSourcePlay
  import GraphicMaterialFloat

  /** The kind of a feedback, with that kind's own settings. */
  datatype FeedbackKind =
    | WaitAllAboveFeedback(waitAllAbove: WaitAllAbove.Params)
    | GameObjectSetActiveFeedback(setActive: GameObjectSetActive.Params)
    | AudioSourcePlayFeedback(audioPlay: AudioSourcePlay.Params)
    | GraphicMaterialFloatFeedback(materialFloat: GraphicMaterialFloat.Params)

  /** The run-time type of a feedback, as a lookup by type compares it. */
  datatype FeedbackType =
    | WaitAllAboveType
    | GameObjectSetActiveType
    | AudioSourcePlayType
    | GraphicMaterialFloatType

  function TypeOf(k: FeedbackKind): FeedbackType
  {
    match k
    case WaitAllAboveFeedback(_) => WaitAllAboveType
    case GameObjectSetActiveFeedback(_) => GameObjectSetActiveType
    case AudioSourcePlayFeedback(_) => AudioSourcePlayType
    case GraphicMaterialFloatFeedback(_) => GraphicMaterialFloatType
  }

  /** Whether scripts may look the feedback up, and under which id. */
  datatype ScriptUsage = ScriptUsage(usedByScript: bool, idUsedByScript: string)

  /** The entries a feedback's OnExecute appends to its own sequence. */
  function Steps(k: FeedbackKind): seq<Entry>
  {
    match k
    case WaitAllAboveFeedback(_) => []
    case GameObjectSetActiveFeedback(p) => GameObjectSetActive.Steps(p)
    case AudioSourcePlayFeedback(p) => AudioSourcePlay.Steps(p)
    case GraphicMaterialFloatFeedback(p) => GraphicMaterialFloat.Steps(p)
  }

  /** The settings a feedback's OnExecute puts on its own sequence. */
  function Settings(k: FeedbackKind): seq<Setting>
  {
    match k
    case GraphicMaterialFloatFeedback(p) => GraphicMaterialFloat.Settings(p)
    case _ => []
  }

  /** The feedback's own sequence once OnExecute has built it, as it is joined. */
  function Snapshot(k: FeedbackKind): Tween
  {
    Seq(Steps(k), Settings(k))
  }

  /** What OnExecute returns; None stands for null. */
  function ResultOf(k: FeedbackKind): (r: Option<ExecuteResult>)
    ensures k.WaitAllAboveFeedback? || k.GameObjectSetActiveFeedback? ==> r.Some?
    ensures r.None? ==> Steps(k) == [] && Settings(k) == []
  {
    match k
    case WaitAllAboveFeedback(p) => Some(WaitAllAbove.Result(p.delay))
    case GameObjectSetActiveFeedback(p) => GameObjectSetActive.Result(p)
    case AudioSourcePlayFeedback(p) => AudioSourcePlay.Result(p)
    case GraphicMaterialFloatFeedback(p) => GraphicMaterialFloat.Result(p)
  }

  /** The delay a feedback closes the open block with: only WaitAllAbove closes it. */
  function Closing(k: FeedbackKind): (d: Option<WaitAllAbove.Delay>)
    ensures d.Some? <==> k.WaitAllAboveFeedback?
    ensures d.Some? ==> d.value == k.waitAllAbove.delay
  {
    match k
    case WaitAllAboveFeedback(p) => Some(p.delay)
    case _ => None
  }

  /** What OnExecute does to the flow context, given the delay it closes the open block with, if any. */
  function Directive(s: FlowState, closing: Option<WaitAllAbove.Delay>): FlowState
  {
    match closing
    case Some(delay) => WaitAllAbove.Close(s, delay)
    case None => s
  }

  class Feedback {
    var enabled: bool
    var scriptUsage: ScriptUsage
    var executeResult: Option<ExecuteResult>
    var kind: FeedbackKind

    constructor (enabled: bool, scriptUsage: ScriptUsage, kind: FeedbackKind)
      ensures this.enabled == enabled && this.scriptUsage == scriptUsage && this.kind == kind
      ensures executeResult == None
    {
      this.enabled := enabled;
      this.scriptUsage := scriptUsage;
      this.kind := kind;
      executeResult := None;
    }

    /** Builds the feedback's nodes into `sequenceTween` (and, for WaitAllAbove, into the context). */
    method OnExecute(context: FlowContext, sequenceTween: SequenceTween) returns (r: Option<ExecuteResult>)
      requires context.Valid()
      requires sequenceTween != context.mainSequence && sequenceTween != context.currentSequence
      modifies context`currentSequence, context.mainSequence`entries, context.currentSequence`entries
      modifies sequenceTween`entries, sequenceTween`settings
      ensures context.Valid()
      ensures context.currentSequence == old(context.currentSequence) || fresh(context.currentSequence)
      ensures context.State() == Directive(old(context.State()), Closing(kind))
      ensures sequenceTween.entries == old(sequenceTween.entries) + Steps(kind)
      ensures sequenceTween.settings == old(sequenceTween.settings) + Settings(kind)
      ensures r == ResultOf(kind)
    {
      match kind
      case WaitAllAboveFeedback(p) =>
        r := WaitAllAbove.OnExecute(p, context, sequenceTween);
      case GameObjectSetActiveFeedback(p) =>
        r := GameObjectSetActive.OnExecute(p, context, sequenceTween);
      case AudioSourcePlayFeedback(p) =>
        r := AudioSourcePlay.OnExecute(p, context, sequenceTween);
      case GraphicMaterialFloatFeedback(p) =>
        r := GraphicMaterialFloat.OnExecute(p, context, sequenceTween);
    }
  }

  /** A feedback a script asked for by type and id: script-used, of exactly that type, with that id. */
  predicate Qualifies(f: Feedback, t: FeedbackType, id: string)
    reads f
  {
    f.scriptUsage.usedByScript && TypeOf(f.kind) == t && f.scriptUsage.idUsedByScript == id
  }
}

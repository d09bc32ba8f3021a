/**
 * The tween engine as the feedbacks see it: an inspectable tree of timed
 * nodes. A sequence records, in order, which children were appended (run
 * after everything before them) and which were joined (run alongside the
 * previous child), the settings put on it, and the lifecycle commands
 * issued to it. How the engine advances time is not modelled.
 */
module Tween {
  import opened Unity
  import opened Wrappers

  /** What a callback node does when the engine reaches it, with the target and values
      the feedback held when the sequence was built. */
  datatype Action =
    | SetActive(target: Option<GameObject>, value: bool)   // GameObject.SetActive(value)
    | SetClipAndPlay(source: AudioSource, clip: Option<AudioClip>) // source.clip = clip; source.Play()
    | PlayOneShot(source: AudioSource, clip: Option<AudioClip>)    // source.PlayOneShot(clip)

  /** The float a value node drives. */
  datatype FloatTarget = MaterialFloat(material: Material, property: string)

  datatype Tween =
    | Wait(duration: real)                                  // a WaitTimeTween
    | Callback(action: Action)                              // an appended callback
    | Value(target: FloatTarget, end: real, duration: real) // tween the target to end over duration
    | Seq(entries: seq<Entry>, settings: seq<Setting>)      // a SequenceTween, as attached

  datatype Entry = Appended(tween: Tween) | Joined(tween: Tween)

  /** Settings that travel with a sequence. */
  datatype Setting =
    | Easing(easing: EasingProperty)
    | Loop(loop: LoopProperty)
    | OnCompleteOrKill(callback: Option<FinishCallback>)

  /** Lifecycle commands; what the engine does on each is not modelled. */
  datatype Command = Play | Kill | Complete | Restart

  /** The entries an optional delay contributes: one wait node when the delay is positive. */
  function DelayEntries(delay: real): seq<Entry>
  {
    if delay > 0.0 then [Appended(Wait(delay))] else []
  }

  /** The delay node an execute result records, or none. */
  function DelayTween(delay: real): Option<Tween>
  {
    if delay > 0.0 then Some(Wait(delay)) else None
  }

  /** A sequence tween under construction; its methods change it in place. */
  class SequenceTween {
    var entries: seq<Entry>
    var settings: seq<Setting>
    var commands: seq<Command>

    constructor ()
      ensures entries == [] && settings == [] && commands == []
    {
      entries, settings, commands := [], [], [];
    }

    /** The sequence as a node of another sequence. */
    function Snapshot(): Tween
      reads this
    {
      Seq(entries, settings)
    }

    method Append(t: Tween)
      modifies this`entries
      ensures entries == old(entries) + [Appended(t)]
    {
      entries := entries + [Appended(t)];
    }

    method Join(t: Tween)
      modifies this`entries
      ensures entries == old(entries) + [Joined(t)]
    {
      entries := entries + [Joined(t)];
    }

    method AppendCallback(a: Action)
      modifies this`entries
      ensures entries == old(entries) + [Appended(Callback(a))]
    {
      Append(Callback(a));
    }

    /** A setting applied to the whole sequence (easing, loop, completion callback). */
    method AddSetting(s: Setting)
      modifies this`settings
      ensures settings == old(settings) + [s]
    {
      settings := settings + [s];
    }

    /** A lifecycle command issued to the sequence. */
    method Issue(c: Command)
      modifies this`commands
      ensures commands == old(commands) + [c]
    {
      commands := commands + [c];
    }
  }
}

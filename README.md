# Juce Feedbacks: the feedbacks player and its flow partitioner, in Dafny

This project models the runtime core of Juce Feedbacks, a Unity package. A
`FeedbacksPlayer` holds an ordered list of *feedbacks*. A feedback is a small
timed action: switch a game object on, play an audio clip, tween a material
float. The list can be edited in place: insert, remove, reorder, and a lookup by
type and script id. `Play` walks the list once. Each enabled feedback builds a
sequence of its own, and the player joins that sequence into an open *block* of a
flow context. A "Wait All Above" feedback closes the open block (adding its delay
to the end of it), appends it to the main sequence, and opens a new block. After
the loop, the last open block is appended and the main sequence is started.

The tween engine (`Juce.Tween`) is represented as an inspectable tree:

- a `Tween` is a wait, a callback, a value tween or a sequence;
- a sequence records which children were appended (run after the ones before) and
  which were joined (run alongside), plus the settings and lifecycle commands it
  was given.

The model says what tree `Play` builds. It does not say how the engine runs the tree.

Layout:

- `wrappers.dfy`, `unity.dfy`, `elements.dfy`: null as `Option`, and stand-ins for
  the engine-side objects and the inspector elements.
- `tween.dfy`: the tween tree and `SequenceTween`, a class that is appended to in place.
- `flow_context.dfy`: `FlowContext`, which has a fixed main sequence and a
  reassignable current block.
- `wait_all_above.dfy`, `game_object_set_active.dfy`, `audio_source_play.dfy`,
  `graphic_material_float.dfy`: the four modelled feedback kinds.
- `feedback.dfy`: the common feedback record and the dispatch of `OnExecute` on its kind.
- `list_edits.dfy`: the .NET `List<T>` operations the player uses.
- `partition.dfy`: `Play`'s loop as a fold over the list (`Run`, `Partitioned`,
  `Blocks`), and the lemmas about the tree it builds.
- `feedbacks_player.dfy`: the `FeedbacksPlayer` class.

`Play`'s loop is one `while` loop, `PlayAll`. Its body is split into `PlayOne`
(one list position), `ExecuteOne` (skip if disabled) and `ExecuteEnabled`
(execute, join, record). The end of `Play` is `Start`. Each of these methods is
proved against the fold in `partition.dfy`.

## Model

| member | source | states |
|---|---|---|
| Player.FeedbacksPlayer.constructor | Runtime/FeedbacksPlayer.cs:12-17 | A new player has an empty list and no running main sequence. |
| Player.FeedbacksPlayer.AddFeedback | Runtime/FeedbacksPlayer.cs:26-29 | The new list is the old list followed by the feedback. |
| Player.FeedbacksPlayer.AddFeedbackAt | Runtime/FeedbacksPlayer.cs:31-34 | For an index in 0..count, the feedback is inserted there. Any other index throws and leaves the list unchanged. |
| Player.FeedbacksPlayer.RemoveFeedback | Runtime/FeedbacksPlayer.cs:36-39 | The new list is the old one with only the first occurrence removed, or unchanged when the feedback is absent. |
| Player.FeedbacksPlayer.RemoveAllFeedbacks | Runtime/FeedbacksPlayer.cs:41-44 | The list is empty afterwards. |
| Player.FeedbacksPlayer.ReorderFeedback | Runtime/FeedbacksPlayer.cs:46-58 | Equal indices change nothing, even out of range. With both indices in range the result is `Reordered`. A bad start index throws with the list unchanged. A bad end index throws after the feedback was already removed. |
| Player.FeedbacksPlayer.GetFeedback | Runtime/FeedbacksPlayer.cs:149-172 | Null exactly when no feedback is script-used, of exactly that type, with that id. Otherwise the result is the first feedback that qualifies. |
| Player.FeedbacksPlayer.Play | Runtime/FeedbacksPlayer.cs:79-117 | Kills the previous main sequence if there is one. The new main sequence is fresh; its children are `Blocks` of the list as it was; it has the loop setting and the completion callback, and it was played exactly once. Every enabled feedback whose OnExecute is non-null records that result; every other feedback keeps its old result. |
| Player.FeedbacksPlayer.Complete | Runtime/FeedbacksPlayer.cs:119-127 | Completes the running main sequence; with none, nothing changes. |
| Player.FeedbacksPlayer.Kill | Runtime/FeedbacksPlayer.cs:129-137 | Kills the running main sequence; with none, nothing changes. |
| Player.FeedbacksPlayer.Restart | Runtime/FeedbacksPlayer.cs:139-147 | Restarts the running main sequence; with none, nothing changes. |
| Player.PlayAll | Runtime/FeedbacksPlayer.cs:83-106 | The loop leaves the context in the state `Partitioned(items)`. Every feedback that contributes records its result; every other feedback keeps its old result. This holds when a feedback object occurs several times in the list. |
| Player.PlayOne | Runtime/FeedbacksPlayer.cs:87-105 | One turn at position i moves the context by `Step`. The feedback at i, and every other position that holds the same object, now hold its result. |
| Player.ExecuteOne | Runtime/FeedbacksPlayer.cs:87-105 | A disabled feedback leaves the context and its result unchanged. Otherwise the turn is `ExecuteEnabled`. |
| Player.ExecuteEnabled | Runtime/FeedbacksPlayer.cs:94-105 | The feedback executes into a new sequence. Unless the result is null, that sequence is joined into the open block and the result is recorded. The context moves by `Step`, and the main sequence is never replaced. |
| Player.Start | Runtime/FeedbacksPlayer.cs:108-114 | The open block is appended to the main sequence. The main sequence gets the loop setting, then the completion callback, then exactly one Play command. |
| Feedbacks.Feedback.OnExecute | Runtime/FeedbacksPlayer.cs:96 | Executing a feedback of any kind changes the context only by that kind's directive. It appends that kind's entries and settings to its own sequence and returns that kind's result. |
| Feedbacks.ResultOf | Runtime/FeedbacksPlayer.cs:96-101 | WaitAllAbove and SetActive never return null. A null result means that nothing was built. |
| Feedbacks.Closing | Runtime/Feedbacks/Flow/WaitAllAboveFeedback.cs:14-26 | Exactly the WaitAllAbove feedback closes the open block, with its own delay. |
| Partition.ItemOf | Runtime/FeedbacksPlayer.cs:89-105 | A feedback that closes a block always has a result. A feedback that closes a block or returns null contributes an empty sequence. |
| Partition.Step | Runtime/FeedbacksPlayer.cs:87-105 | A disabled item leaves the state unchanged. An item that does not close only adds to the open block. A closing item adds exactly one child to the main sequence, keeps the earlier children, and opens a block that holds only what the item joins. |
| Partition.StepFollowsDirective | Runtime/Feedbacks/Flow/WaitAllAboveFeedback.cs:18-26 | An enabled turn is the feedback's directive on the context, followed by the join. |
| Partition.PartitionedSnoc | Runtime/FeedbacksPlayer.cs:85-106 | Running the loop over one more feedback is one more `Step`. |
| Partition.RunCountsClosings | Runtime/FeedbacksPlayer.cs:85-106 | The loop adds one child to the main sequence per enabled WaitAllAbove and never changes the children already there. |
| Partition.BlockCount | Runtime/FeedbacksPlayer.cs:83-108 | The main sequence has one child per enabled WaitAllAbove, plus one. |
| Partition.EveryChildIsBlock | Runtime/FeedbacksPlayer.cs:83-108 | Every child of the main sequence is an appended sequence without settings. |
| Partition.StepEmits | Runtime/FeedbacksPlayer.cs:87-105 | Read block by block, one turn adds exactly what the item emits. |
| Partition.RunEmits | Runtime/FeedbacksPlayer.cs:85-106 | Read block by block, the loop adds exactly what the items emit, in order. |
| Partition.BlocksInListOrder | Runtime/FeedbacksPlayer.cs:83-108 | Reading the blocks one after another gives each executed feedback's sequence in list order and each WaitAllAbove's delay where it stood, and nothing else. |
| Partition.SkipsDisabled | Runtime/FeedbacksPlayer.cs:89-92 | The result over the whole list equals the result over its enabled feedbacks alone. |
| Partition.RunConcat | Runtime/FeedbacksPlayer.cs:85-106 | Running the loop over two lists in a row is the same as running it over their concatenation. |
| Partition.StepOpen | Runtime/FeedbacksPlayer.cs:94-105 | A feedback that is not a WaitAllAbove only adds what it emits to the open block. |
| Partition.OpenBlockGrows | Runtime/FeedbacksPlayer.cs:85-106 | Without a WaitAllAbove, the main sequence is unchanged and the open block grows by the emitted entries in order. |
| Partition.SingleBlock | Runtime/FeedbacksPlayer.cs:83-108 | A list without an enabled WaitAllAbove yields exactly one block, which holds every executed feedback's sequence. |
| Partition.LastMarkerSplits | Runtime/FeedbacksPlayer.cs:83-108 | After the last WaitAllAbove come the earlier blocks, then the block it closed (ending with its delay), then one final block. That final block starts with the WaitAllAbove's own empty sequence and holds everything after it. |
| Flow.FlowContext.constructor | Runtime/Flow/FlowContext.cs:8-10 | A new context has two fresh, distinct, empty sequences, neither with settings or commands. |
| WaitAllAbove.Close | Runtime/Feedbacks/Flow/WaitAllAboveFeedback.cs:18-26 | The main sequence gains exactly one new last child and keeps its earlier children. That child is the old open block with a wait node added at its end exactly when the delay is positive. The new open block is empty. |
| WaitAllAbove.Result | Runtime/Feedbacks/Flow/WaitAllAboveFeedback.cs:16-31 | The delay node is recorded exactly when the delay is positive, and it is the node that was appended. No progress node is recorded. |
| WaitAllAbove.OnExecute | Runtime/Feedbacks/Flow/WaitAllAboveFeedback.cs:14-32 | The context moves by `Close`. The new open block is a fresh object. The result is never null. |
| GameObjectSetActive.GetFeedbackErrors | Runtime/Feedbacks/GameObject/GameObjectSetActiveFeedback.cs:16-27 | An error exactly when there is no target: "Target is null"; otherwise "". |
| GameObjectSetActive.GetFeedbackTargetInfo | Runtime/Feedbacks/GameObject/GameObjectSetActiveFeedback.cs:29-32 | The target's name, or "" without a target. |
| GameObjectSetActive.GetFeedbackInfo | Runtime/Feedbacks/GameObject/GameObjectSetActiveFeedback.cs:34-37 | "Value: " followed by the value. The two values give the two distinct texts "Value: True" and "Value: False". |
| GameObjectSetActive.OnCreate | Runtime/Feedbacks/GameObject/GameObjectSetActiveFeedback.cs:39-45 | Installs the created elements, keeps the target and the delay, and switches the duration off. |
| GameObjectSetActive.StepsLayout | Runtime/Feedbacks/GameObject/GameObjectSetActiveFeedback.cs:49-57 | A wait node exactly when the delay is positive, then exactly one callback, which comes last. This holds even without a target. |
| GameObjectSetActive.ResultLayout | Runtime/Feedbacks/GameObject/GameObjectSetActiveFeedback.cs:49-62 | Never null. The delay node is recorded exactly when the delay is positive, and it is the first entry. No progress node is recorded. |
| GameObjectSetActive.OnExecute | Runtime/Feedbacks/GameObject/GameObjectSetActiveFeedback.cs:47-63 | Appends exactly `Steps` and returns `Result`. |
| AudioSourcePlay.GetFeedbackErrors | Runtime/Feedbacks/AudioSource/AudioSourcePlayFeedback.cs:16-27 | An error exactly when there is no target: "Target is null"; otherwise "". |
| AudioSourcePlay.GetFeedbackTargetInfo | Runtime/Feedbacks/AudioSource/AudioSourcePlayFeedback.cs:29-32 | The name of the source's game object, or "" without a target. |
| AudioSourcePlay.GetFeedbackInfo | Runtime/Feedbacks/AudioSource/AudioSourcePlayFeedback.cs:34-39 | Always "". |
| AudioSourcePlay.OnCreate | Runtime/Feedbacks/AudioSource/AudioSourcePlayFeedback.cs:41-47 | Installs the created elements, keeps the target and the delay, and switches the duration off. |
| AudioSourcePlay.Action | Runtime/Feedbacks/AudioSource/AudioSourcePlayFeedback.cs:64-76 | A one-shot exactly when the element says so; otherwise set the clip and play. Both use the target source and the configured clip. |
| AudioSourcePlay.StepsLayout | Runtime/Feedbacks/AudioSource/AudioSourcePlayFeedback.cs:51-76 | Without a target, nothing. Otherwise a wait node exactly when the delay is positive, then exactly one callback, which comes last. |
| AudioSourcePlay.ResultLayout | Runtime/Feedbacks/AudioSource/AudioSourcePlayFeedback.cs:51-81 | Null exactly when there is no target, and exactly when an error is reported. Otherwise the delay node is recorded exactly when the delay is positive, and it is the first entry. No progress node is recorded. |
| AudioSourcePlay.OnExecute | Runtime/Feedbacks/AudioSource/AudioSourcePlayFeedback.cs:49-82 | Appends exactly `Steps` and returns `Result`. |
| GraphicMaterialFloat.GetFeedbackErrors | Runtime/Feedbacks/GraphicMaterial/GraphicMaterialFloatFeedback.cs:28-44 | An error exactly when the graphic or the property is missing. A missing graphic wins over a missing property; otherwise the text is "". |
| GraphicMaterialFloat.GetFeedbackTargetInfo | Runtime/Feedbacks/GraphicMaterial/GraphicMaterialFloatFeedback.cs:46-61 | The graphic's name (if any), followed by " -> " and the property (if one is selected). The result starts with the graphic's name. |
| GraphicMaterialFloat.StepsLayout | Runtime/Feedbacks/GraphicMaterial/GraphicMaterialFloatFeedback.cs:71-102 | Nothing unless there is a graphic whose material has the property. Otherwise, in order: a wait node when the delay is positive, an instant start value when asked for, and the progress node, which is always last. Every entry is appended. |
| GraphicMaterialFloat.SettingsLayout | Runtime/Feedbacks/GraphicMaterial/GraphicMaterialFloatFeedback.cs:104-105 | When it executes: easing, then loop. Otherwise nothing. |
| GraphicMaterialFloat.ResultLayout | Runtime/Feedbacks/GraphicMaterial/GraphicMaterialFloatFeedback.cs:69-111 | Null exactly when nothing is built; with no graphic it is null and an error is reported. The progress node is the last entry. The delay node is recorded exactly when the delay is positive, and it is the first entry. |
| GraphicMaterialFloat.OnExecute | Runtime/Feedbacks/GraphicMaterial/GraphicMaterialFloatFeedback.cs:69-112 | Appends exactly `Steps`, puts exactly `Settings` and returns `Result`. |
| ListEdits.Inserted | Runtime/FeedbacksPlayer.cs:33 | `List.Insert`: the new element sits at the index. The elements before it stay in place and the ones from the index move up by one. The result is the old elements plus the new one, as a multiset. |
| ListEdits.InsertAtEnd | Runtime/FeedbacksPlayer.cs:28 | Inserting at the count is appending. |
| ListEdits.RemovedAt | Runtime/FeedbacksPlayer.cs:55 | `List.RemoveAt`: the element at the index is gone, the ones after it move down by one, and the multiset loses exactly that element. |
| ListEdits.IndexOf | Runtime/FeedbacksPlayer.cs:38 | The first index holding the element, or -1 exactly when the element is absent. |
| ListEdits.Removed | Runtime/FeedbacksPlayer.cs:38 | `List.Remove`: unchanged when the element is absent. Otherwise exactly the first occurrence is removed and the order of the rest is kept. |
| ListEdits.Reordered | Runtime/FeedbacksPlayer.cs:53-57 | Same length, a permutation, and the moved element sits at the end index. Removing the moved element again gives back the list without it. |

The rows above refer to these specification functions:

- `Partition.Run`: Play's loop run from a given flow state, one `Step` per feedback.
- `Partition.Partitioned`: `Run` from a fresh context (empty main sequence, empty open block).
- `Partition.Blocks`: the main sequence's children once `Play` has appended the last open block.
- `Partition.EmittedAll`: an independent flat reading of the list: each enabled feedback's
  delay (WaitAllAbove only) and joined sequence, in list order.
- `GameObjectSetActive.Steps`, `AudioSourcePlay.Steps`, `GraphicMaterialFloat.Steps`:
  the entries each feedback's OnExecute appends to its own sequence.
- `GraphicMaterialFloat.Settings`: the settings that feedback puts on its own sequence.
- `GameObjectSetActive.Result`, `AudioSourcePlay.Result`, `GraphicMaterialFloat.Result`,
  `WaitAllAbove.Result`: what each OnExecute returns (None stands for null).

## Left out

- List entries and strings are taken as non-null. `AddFeedback(null)`,
  `AddFeedback(null, i)` and `RemoveFeedback(null)` are accepted by the source
  (Runtime/FeedbacksPlayer.cs:28, 33, 38). Their dropped consequences are:
  - the NullReferenceException that `Play` then throws at :89;
  - the NullReferenceException that `GetFeedback` then throws at :157.
  A null script id or lookup id (:164) is taken as a string. A null material
  property is folded into "", as `IsNullOrEmpty` treats it
  (Runtime/Feedbacks/GraphicMaterial/GraphicMaterialFloatFeedback.cs:36, 55).
- Callback actions record the target and the values the feedback held when `Play`
  built the sequence. The source's lambdas read `target`, `value.Value` and
  `value.OneShot` only when the callback fires
  (Runtime/Feedbacks/GameObject/GameObjectSetActiveFeedback.cs:57;
  Runtime/Feedbacks/AudioSource/AudioSourcePlayFeedback.cs:64-76). Not captured:
  - a field changed during the delay takes effect in the source;
  - in the source, a target destroyed by then throws when the callback fires.
- The field defaults (a delay of 0 and, for Graphic Material Float, a duration of
  1 second; GraphicMaterialFloatFeedback.cs:19-20) are inspector initial values.
  They are not modelled.
- The tween engine: `Juce.Tween` is not part of this model. It is represented by
  a tree that records appends, joins, settings and commands. Time advancement,
  easing, looping, and what Play, Kill, Complete and Restart do to a running
  sequence are not modelled. So whether a Kill fires the completion callback is
  not modelled either.
- Attaching a sequence to another stores a snapshot of it by value. Within `Play`
  no sequence is changed after it was attached, so the tree is the same. Aliasing
  between an attached sequence and later appends to it is not captured.
- `Task Play()`, `Start` and `TryExecuteOnAwake` (Runtime/FeedbacksPlayer.cs:21-24,
  60-77) are Unity lifecycle and async plumbing.
- The Unity side effects are left out: `SetActive`, `AudioSource.Play` and
  `PlayOneShot`, `TweenFloat`, and `TryInstantiateGraphicMaterial`. They are
  recorded as callback actions and value nodes, not run. The graphic's
  `materialForRendering` is taken to be the instanced material.
  `Debug.Log("")` is left out.
- `GraphicMaterialFloatFeedback.GetFeedbackInfo` delegates to `InfoUtils`, which
  is not part of this model.
- The wording of `ErrorUtils.TargetNullErrorMessage` and
  `ErrorUtils.MaterialPropertyNotSelected` is not part of this model. They are
  modelled as named error texts.
- The base class `Feedback`, `ExecuteResult`, the element classes and `AddElement`
  are not part of this model. Their fields are modelled as records, from their
  uses. `OnCreate` takes the elements that `AddElement` created as parameters.
- The other feedback kinds are left out (UIAlpha, RendererMaterialKeyword and the
  ones not shown), and so are all Editor files.
- `FlowContext.CurrentDelay` is kept as a field. No modelled code reads it.
- Floats are modelled as reals. Only the comparisons `delay > 0` and the values
  passed to tween nodes matter.
- `GraphicMaterialFloatFeedback.cs:105` passes `loop` to `SetLoop`, but the
  class's field is `looping` (:26). The model uses `looping`.
- The source's two `AddFeedback` overloads are `AddFeedback` and `AddFeedbackAt`
  here.
- Two consequences of the code, proved in `Partition.LastMarkerSplits`:
  - A WaitAllAbove's delay ends the block it closes
    (Runtime/Feedbacks/Flow/WaitAllAboveFeedback.cs:18-24).
  - The WaitAllAbove's own, empty sequence is joined into the new block, because
    its result is never null (Runtime/FeedbacksPlayer.cs:98-103). So after
    `[A, Wait, C, D]` the second block is `[empty, C, D]`.

/**
 * The inspector elements the leaf feedbacks keep their settings in, and the
 * error report every feedback gives the inspector. Elements are held as
 * values: the feedbacks only read them, except OnCreate, which sets up the
 * timing element.
 */
module Elements {
  import opened Unity
  import opened Wrappers

  /** The timing element: a delay, and whether a duration is offered at all. */
  datatype TimingElement = TimingElement(delay: real, useDuration: bool)

  datatype BoolElement = BoolElement(value: bool)

  /** The clip to play and whether to play it as a one-shot. */
  datatype AudioClipElement = AudioClipElement(clip: Option<AudioClip>, oneShot: bool)

  /** An error text: a literal, or one of the shared messages (whose wording lives
      in ErrorUtils, which is not part of this model). */
  datatype ErrorText =
    | Text(s: string)
    | TargetNullErrorMessage
    | MaterialPropertyNotSelected

  /** The pair GetFeedbackErrors gives back: its return value and its out parameter. */
  datatype ErrorReport = ErrorReport(hasErrors: bool, errors: ErrorText)
}

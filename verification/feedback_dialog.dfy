/** The post-call feedback dialog (src/components/ui/feedback-dialog.tsx) as
    a state machine. Each user action or callback settlement is an event;
    a step returns the next dialog state and the callback it invokes, if
    any. An event whose control is not rendered on the current screen, or is
    rendered disabled, leaves the dialog unchanged. */
module FeedbackDialog {

  datatype Screen = FeedbackScreen | YesDetails | NoDetails | SuccessScreen | ErrorScreen

  datatype Verdict = Yes | No

  datatype Dialog = Dialog(
    screen: Screen,
    isSubmitting: bool,
    additionalFeedback: string,
    email: string,
    successMessage: string,
    errorMessage: string)

  datatype DialogEvent =
    | ChooseYes
    | ChooseNo
    | EditEmail(email: string)
    | EditComment(comment: string)
    | Back
    | Submit
    | SubmitSettled(resolved: bool)   // the `onFeedbackSubmit` promise resolved or rejected
    | TryAgain
    | Close

  /** The callback a step invokes. */
  datatype Effect =
    | NoEffect
    | CallSubmit(verdict: Verdict, comment: string, email: string)
    | CallClose

  datatype Transition = Transition(next: Dialog, effect: Effect)

  const YesSuccessMessage: string := "Thank you for your feedback! We've recorded that your issue was resolved."
  const NoSuccessMessage: string := "Thank you for your feedback! We've recorded the issue and will work to improve our service."
  const SubmitErrorMessage: string := "Failed to submit feedback. Please try again."

  function Initial(): (d: Dialog)
    ensures d.screen == FeedbackScreen && !d.isSubmitting
    ensures d.additionalFeedback == "" && d.email == ""
  {
    Dialog(FeedbackScreen, false, "", "", "", "")
  }

  predicate OnDetails(d: Dialog) {
    d.screen == YesDetails || d.screen == NoDetails
  }

  /** Which controls are on screen and clickable. Every control of the first
      three screens is `disabled={isSubmitting}`; the buttons of the success
      and error screens are never disabled; a settlement only arrives for a
      submission in flight. */
  predicate Enabled(d: Dialog, ev: DialogEvent) {
    match ev
    case ChooseYes => d.screen == FeedbackScreen && !d.isSubmitting
    case ChooseNo => d.screen == FeedbackScreen && !d.isSubmitting
    case EditEmail(_) => OnDetails(d) && !d.isSubmitting
    case EditComment(_) => OnDetails(d) && !d.isSubmitting
    case Back => OnDetails(d) && !d.isSubmitting
    case Submit => OnDetails(d) && !d.isSubmitting
    case SubmitSettled(_) => d.isSubmitting
    case TryAgain => d.screen == ErrorScreen
    case Close => d.screen == SuccessScreen || d.screen == ErrorScreen
  }

  /** The dialog's reachable-state invariant: a submission is only ever in
      flight from a details screen. */
  predicate Valid(d: Dialog) {
    d.isSubmitting ==> OnDetails(d)
  }

  function Step(d: Dialog, ev: DialogEvent): (t: Transition)
    ensures !Enabled(d, ev) ==> t == Transition(d, NoEffect)
    ensures Valid(d) && d.isSubmitting && !ev.SubmitSettled? ==> t.next == d && t.effect.NoEffect?
    ensures t.effect.CallSubmit? ==>
      && OnDetails(d) && !d.isSubmitting && t.next.isSubmitting
      && t.effect.verdict == (if d.screen == YesDetails then Yes else No)
      && t.effect.comment == d.additionalFeedback && t.effect.email == d.email
    ensures t.effect.CallClose? ==> !d.isSubmitting
    ensures t.next.isSubmitting ==> d.isSubmitting || t.effect.CallSubmit?
    ensures Valid(d) ==> Valid(t.next)
  {
    if !Enabled(d, ev) then Transition(d, NoEffect)
    else
      match ev
      case ChooseYes => Transition(d.(screen := YesDetails), NoEffect)
      case ChooseNo => Transition(d.(screen := NoDetails), NoEffect)
      case EditEmail(v) => Transition(d.(email := v), NoEffect)
      case EditComment(v) => Transition(d.(additionalFeedback := v), NoEffect)
      case Back => Transition(d.(screen := FeedbackScreen), NoEffect)
      case Submit =>
        var verdict := if d.screen == YesDetails then Yes else No;
        Transition(d.(isSubmitting := true), CallSubmit(verdict, d.additionalFeedback, d.email))
      case SubmitSettled(resolved) =>
        if resolved then
          var message := if d.screen == YesDetails then YesSuccessMessage else NoSuccessMessage;
          Transition(d.(screen := SuccessScreen, successMessage := message, isSubmitting := false), NoEffect)
        else
          Transition(d.(screen := ErrorScreen, errorMessage := SubmitErrorMessage, isSubmitting := false), NoEffect)
      case TryAgain => Transition(d.(screen := FeedbackScreen), NoEffect)
      case Close => Transition(d, if !d.isSubmitting then CallClose else NoEffect)
  }

  /** The dialog after a sequence of events from `d`. */
  function Run(d: Dialog, events: seq<DialogEvent>): Dialog
    decreases |events|
  {
    if |events| == 0 then d
    else Step(Run(d, events[..|events| - 1]), events[|events| - 1]).next
  }

  /** Every dialog reached from the initial one satisfies the invariant. */
  lemma {:induction false} RunStaysValid(events: seq<DialogEvent>)
    ensures Valid(Run(Initial(), events))
    decreases |events|
  {
    if |events| > 0 {
      RunStaysValid(events[..|events| - 1]);
    }
  }

  /** From the first screen, Yes leads to the yes-details screen and No to the
      no-details screen; nothing typed is touched. */
  lemma ChoiceTransitions(d: Dialog)
    requires d.screen == FeedbackScreen && !d.isSubmitting
    ensures Step(d, ChooseYes).next == d.(screen := YesDetails)
    ensures Step(d, ChooseNo).next == d.(screen := NoDetails)
  {
  }

  /** Back from either details screen returns to the first screen and keeps
      the typed email and comment. */
  lemma BackKeepsInput(d: Dialog)
    requires OnDetails(d) && !d.isSubmitting
    ensures Step(d, Back).next.screen == FeedbackScreen
    ensures Step(d, Back).next.email == d.email
    ensures Step(d, Back).next.additionalFeedback == d.additionalFeedback
  {
  }

  /** Submitting from yes-details passes `'yes'` and from no-details `'no'`,
      with what was typed; a submission then settles in the success screen if
      the callback resolves and in the error screen if it rejects, with
      `isSubmitting` cleared either way. */
  lemma SubmitRoundTrip(d: Dialog, resolved: bool)
    requires OnDetails(d) && !d.isSubmitting
    ensures var t := Step(d, Submit);
      && t.effect == CallSubmit(if d.screen == YesDetails then Yes else No, d.additionalFeedback, d.email)
      && t.next.isSubmitting
    ensures var after := Step(Step(d, Submit).next, SubmitSettled(resolved)).next;
      && after.screen == (if resolved then SuccessScreen else ErrorScreen)
      && !after.isSubmitting
  {
  }

  /** Try Again from the error screen goes back to the first screen. */
  lemma TryAgainReturns(d: Dialog)
    requires d.screen == ErrorScreen
    ensures Step(d, TryAgain).next.screen == FeedbackScreen
  {
  }

  /** `handleClose` calls `onClose` only when not submitting; in every
      reachable dialog the Close buttons of the success and error screens
      therefore always close. */
  lemma CloseFromReachable(events: seq<DialogEvent>)
    ensures var d := Run(Initial(), events);
      (d.screen == SuccessScreen || d.screen == ErrorScreen) ==> Step(d, Close).effect == CallClose
  {
    RunStaysValid(events);
  }
}

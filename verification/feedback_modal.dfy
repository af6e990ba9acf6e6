/** The feedback modal: a yes / no selection with an optional comment, a
    submit guarded by the selection, and a timed reset that closes the
    modal and clears the form. The thank-you view is not modelled. */
module FeedbackModal {
  import opened Js

  datatype Rating = Yes | No

  /** The component's state survives while `isOpen` is false; `resetPending`
      records that the reset timer set by a submit has not fired yet. */
  datatype State = State(selection: Option<Rating>, comment: string, submitted: bool, resetPending: bool)

  datatype Event =
    | Select(rating: Rating)
    | EditComment(text: string)
    | Skip
    | Submit
    | ResetTimerFired

  datatype Callback = SubmitFeedback(rating: Rating, comment: string) | CloseModal

  datatype Output = Output(state: State, callbacks: seq<Callback>)

  const Init: State := State(None, "", false, false)

  const GladMessage: string := "Thank you for your feedback! We're glad the recommendation was helpful."
  const SorryMessage: string := "Sorry to hear that! We'll improve future recommendations."

  /** The form is on screen: the modal is open and not in its thank-you
      view. */
  predicate FormShown(isOpen: bool, s: State)
  {
    isOpen && !s.submitted
  }

  /** The form's controls. */
  function HandleForm(s: State, e: Event): Output
  {
    match e
    case Select(r) => Output(s.(selection := Some(r)), [])
    case EditComment(text) => Output(s.(comment := text), [])
    case Skip => Output(s, [CloseModal])
    case Submit =>
      (match s.selection
       case Some(r) => Output(s.(submitted := true, resetPending := true), [SubmitFeedback(r, s.comment)])
       case None => Output(s, []))
    case ResetTimerFired => Output(s, [])
  }

  /** One event. The reset timer fires whether or not the modal is open;
      the form's controls only work while the form is shown. */
  function Step(isOpen: bool, s: State, e: Event): Output
  {
    if e.ResetTimerFired? then
      if s.resetPending then Output(Init, [CloseModal]) else Output(s, [])
    else if !FormShown(isOpen, s) then Output(s, [])
    else HandleForm(s, e)
  }

  /** `getFeedbackMessage`. */
  function FeedbackMessage(selection: Option<Rating>): string
  {
    if selection == Some(Yes) then GladMessage else SorryMessage
  }

  /** The submit button is disabled exactly when nothing is selected. */
  predicate SubmitDisabled(s: State)
  {
    s.selection.None?
  }

  /** At most one reset timer is ever pending, and it is pending exactly
      while the thank-you view is up. */
  predicate Valid(s: State)
  {
    s.resetPending == s.submitted
  }

  lemma StepValid(isOpen: bool, s: State, e: Event)
    requires Valid(s)
    ensures Valid(Step(isOpen, s, e).state)
  {
  }

  function Run(s: State, steps: seq<(bool, Event)>): State
    decreases |steps|
  {
    if |steps| == 0 then s else Run(Step(steps[0].0, s, steps[0].1).state, steps[1..])
  }

  lemma {:induction false} RunValid(s: State, steps: seq<(bool, Event)>)
    requires Valid(s)
    ensures Valid(Run(s, steps))
    decreases |steps|
  {
    if |steps| > 0 {
      StepValid(steps[0].0, s, steps[0].1);
      RunValid(Step(steps[0].0, s, steps[0].1).state, steps[1..]);
    }
  }

  /** While closed, the modal ignores its controls and keeps selection and
      comment. */
  lemma ClosedKeepsState(s: State, e: Event)
    requires !e.ResetTimerFired?
    ensures Step(false, s, e) == Output(s, [])
  {
  }

  /** Submitting with nothing selected does nothing, which is also when the
      button is disabled. */
  lemma SubmitNeedsSelection(isOpen: bool, s: State)
    ensures SubmitDisabled(s) ==> Step(isOpen, s, Submit) == Output(s, [])
    ensures FormShown(isOpen, s) && !SubmitDisabled(s) ==> Step(isOpen, s, Submit).state.submitted
  {
  }

  /** A submit reports the selection and the comment once: the thank-you
      view that follows has no submit button. */
  lemma SubmitOnce(s: State, r: Rating, comment: string)
    requires !s.submitted && s.selection == Some(r) && s.comment == comment
    ensures var o := Step(true, s, Submit);
      o.callbacks == [SubmitFeedback(r, comment)] && o.state.submitted
      && Step(true, o.state, Submit) == Output(o.state, [])
  {
  }

  /** The reset closes the modal and clears the form, open or not. */
  lemma ResetRestores(isOpen: bool, s: State)
    requires s.resetPending
    ensures Step(isOpen, s, ResetTimerFired) == Output(State(None, "", false, false), [CloseModal])
  {
  }

  /** Skip closes without reporting anything. */
  lemma SkipOnlyCloses(s: State)
    requires !s.submitted
    ensures Step(true, s, Skip) == Output(s, [CloseModal])
  {
  }

  /** The glad message is given exactly for a yes. */
  lemma MessageIffYes(selection: Option<Rating>)
    ensures FeedbackMessage(selection) == GladMessage <==> selection == Some(Yes)
    ensures FeedbackMessage(selection) == SorryMessage <==> selection != Some(Yes)
  {
  }
}

/** The transaction modal: on opening it shows "processing" and arms a
    timer that switches to the success view; closing cancels the timer. */
module TransactionModal {

  datatype State = State(open: bool, processing: bool, success: bool, timerPending: bool)

  datatype Event =
    | SetOpen(isOpen: bool)   // the parent re-renders with this `isOpen`
    | TimerFired
    | Done                    // the success view's button

  datatype Output = Output(state: State, closeRequested: bool)

  /** After mounting closed: the effect on `isOpen` did nothing. */
  const Init: State := State(false, true, false, false)

  function Step(s: State, e: Event): Output
  {
    match e
    case SetOpen(b) =>
      if b == s.open then Output(s, false)
      else if b then Output(State(true, true, false, true), false)
      else Output(s.(open := false, timerPending := false), false)
    case TimerFired =>
      if s.timerPending then Output(s.(processing := false, success := true, timerPending := false), false)
      else Output(s, false)
    case Done =>
      Output(s, s.open && !s.processing)
  }

  function Run(s: State, events: seq<Event>): State
    decreases |events|
  {
    if |events| == 0 then s else Run(Step(s, events[0]).state, events[1..])
  }

  /** The two flags always disagree, and a timer is only pending while the
      modal is open and processing. */
  predicate Valid(s: State)
  {
    s.success == !s.processing && (s.timerPending ==> s.open && s.processing)
  }

  lemma StepValid(s: State, e: Event)
    requires Valid(s)
    ensures Valid(Step(s, e).state)
  {
  }

  lemma {:induction false} RunValid(s: State, events: seq<Event>)
    requires Valid(s)
    ensures Valid(Run(s, events))
    decreases |events|
  {
    if |events| > 0 {
      StepValid(s, events[0]);
      RunValid(Step(s, events[0]).state, events[1..]);
    }
  }

  lemma ReachableValid(events: seq<Event>)
    ensures Valid(Run(Init, events))
  {
    RunValid(Init, events);
  }

  /** Opening always starts over in the processing view with the timer
      armed, and the timer switches to success. */
  lemma OpenThenTimer(s: State)
    requires !s.open
    ensures var o := Step(s, SetOpen(true)).state;
      o.open && o.processing && !o.success && o.timerPending
      && Step(o, TimerFired).state == State(true, false, true, false)
  {
  }

  /** Closing cancels the timer, so a closed modal never changes view. */
  lemma CloseCancelsTimer(s: State)
    requires s.open
    ensures var c := Step(s, SetOpen(false)).state;
      !c.open && !c.timerPending && Step(c, TimerFired).state == c
  {
  }

  /** Done, the only way to call `onClose`, is only there in the open
      success view. */
  lemma DoneOnlyOnSuccess(s: State, e: Event)
    requires Valid(s)
    ensures Step(s, e).closeRequested <==> e.Done? && s.open && s.success
  {
  }
}

/** The bottom banner that appears, auto-dismisses and reappears in a loop.

    React semantics are modelled explicitly. A handler runs against the
    state of the last render; `clearAutoDismiss` empties the timer slot at
    once; the state setters take effect together at the next render; and
    the loop effect (cleanup, then arming a timer) runs after that render
    only when the pair (`isVisible`, `isExpanded`) changed. Timer delays are
    not modelled: a timer firing is an event that may come at any point. */
module SmartBanner {
  import opened Js

  /** The one timer `timeoutRef` can hold. */
  datatype Timer = NoTimer | DismissTimer | ReappearTimer

  datatype State = State(
    visible: bool,
    expanded: bool,
    touchStart: Option<int>,
    touchEnd: Option<int>,
    mountPending: bool,   // the three-second appearance timer has not fired yet
    pending: Timer)

  datatype Event =
    | MountTimerFired
    | TimerFired          // the timer in the slot fires
    | Tap                 // the collapsed card
    | Close               // the X button, collapsed or expanded
    | Collapse            // the chevron of the expanded card
    | TouchStart(y: int)
    | TouchMove(y: int)
    | TouchEnd
    | ApplyNow
    | TellMore

  /** The props called by an event. */
  datatype Callback = ApplyRecommendation(id: string) | ViewRecommendation

  datatype Output = Output(state: State, callbacks: seq<Callback>)

  /** What a hide does to `isExpanded`: the code leaves it alone
      (`AsWritten`); `CollapseOnHide` is the corrected behaviour described
      in the README's findings. */
  datatype Variant = AsWritten | CollapseOnHide

  const SwipeThreshold: int := 50
  const AppliedId: string := "flexible-savings"

  /** The state right after mounting: the loop effect has already run once
      on (hidden, collapsed). */
  const Init: State := State(false, false, None, None, true, ReappearTimer)

  /** The timer the loop effect arms for a pair of dependencies. */
  function ArmFor(visible: bool, expanded: bool): (t: Timer)
    ensures t == DismissTimer <==> visible && !expanded
    ensures t == ReappearTimer <==> !visible && !expanded
    ensures t == NoTimer <==> expanded
  {
    if visible && !expanded then DismissTimer
    else if !visible && !expanded then ReappearTimer
    else NoTimer
  }

  /** The render after a handler or timer turned `s` into `t`: the loop
      effect re-arms only when its dependencies changed; otherwise the slot
      keeps what the handler left in it. */
  function Commit(s: State, t: State): State
  {
    if t.visible != s.visible || t.expanded != s.expanded then t.(pending := ArmFor(t.visible, t.expanded))
    else t
  }

  // ---------------------------------------------------------------------
  // Handlers
  // ---------------------------------------------------------------------

  /** `handleDismiss`, and the state part of `handleApplyNow` and
      `handleViewMore`, which do the same. */
  function Hide(v: Variant, s: State): State
  {
    s.(visible := false, expanded := if v == CollapseOnHide then false else s.expanded, pending := NoTimer)
  }

  function Expand(s: State): State
  {
    s.(expanded := true, pending := NoTimer)
  }

  /** `handleCollapse` does not touch the timer slot. */
  function CollapseCard(s: State): State
  {
    s.(expanded := false)
  }

  function StartTouch(s: State, y: int): State
  {
    s.(touchEnd := None, touchStart := Some(y), pending := NoTimer)
  }

  /** `handleTouchEnd`: nothing unless both coordinates are truthy (a
      coordinate of 0 counts as missing); then an upward swipe of more than
      the threshold expands a collapsed card, and a downward one collapses
      an expanded card or dismisses a collapsed one. */
  function EndTouch(v: Variant, s: State): State
  {
    if !TruthyNumber(s.touchStart) || !TruthyNumber(s.touchEnd) then s
    else
      var distance := s.touchStart.value - s.touchEnd.value;
      if distance > SwipeThreshold && !s.expanded then Expand(s)
      else if distance < -SwipeThreshold then
        if s.expanded then CollapseCard(s) else Hide(v, s)
      else s
  }

  /** The handlers of the elements on screen; only the elements of the
      current (collapsed or expanded) view can be used. */
  function Handle(v: Variant, s: State, e: Event): Output
  {
    match e
    case Tap => Output(if !s.expanded then Expand(s) else s, [])
    case Close => Output(Hide(v, s), [])
    case Collapse => Output(if s.expanded then CollapseCard(s) else s, [])
    case TouchStart(y) => Output(StartTouch(s, y), [])
    case TouchMove(y) => Output(s.(touchEnd := Some(y)), [])
    case TouchEnd => Output(EndTouch(v, s), [])
    case ApplyNow =>
      if s.expanded then Output(Hide(v, s), [ApplyRecommendation(AppliedId)]) else Output(s, [])
    case TellMore =>
      if s.expanded then Output(Hide(v, s), [ViewRecommendation]) else Output(s, [])
    case _ => Output(s, [])
  }

  /** One event followed by its render. Timers fire whether or not the
      banner is rendered; the handlers only while it is visible. */
  function StepIn(v: Variant, s: State, e: Event): Output
  {
    match e
    case MountTimerFired =>
      if s.mountPending then Output(Commit(s, s.(visible := true, mountPending := false)), [])
      else Output(s, [])
    case TimerFired =>
      (match s.pending
       case NoTimer => Output(s, [])
       case DismissTimer => Output(Commit(s, s.(visible := false, pending := NoTimer)), [])
       case ReappearTimer => Output(Commit(s, s.(visible := true, pending := NoTimer)), []))
    case _ =>
      if !s.visible then Output(s, [])
      else
        var o := Handle(v, s, e);
        Output(Commit(s, o.state), o.callbacks)
  }

  function RunIn(v: Variant, s: State, events: seq<Event>): State
    decreases |events|
  {
    if |events| == 0 then s else RunIn(v, StepIn(v, s, events[0]).state, events[1..])
  }

  /** The banner as written. */
  function Step(s: State, e: Event): Output
  {
    StepIn(AsWritten, s, e)
  }

  function Run(s: State, events: seq<Event>): State
  {
    RunIn(AsWritten, s, events)
  }

  // ---------------------------------------------------------------------
  // The timer slot
  // ---------------------------------------------------------------------

  /** The slot is either empty or holds the timer the loop effect arms for
      the current pair: a dismiss timer only while visible and collapsed, a
      reappear timer only while hidden and collapsed. */
  predicate Consistent(s: State)
  {
    s.pending == NoTimer || s.pending == ArmFor(s.visible, s.expanded)
  }

  lemma StepConsistent(v: Variant, s: State, e: Event)
    requires Consistent(s)
    ensures Consistent(StepIn(v, s, e).state)
  {
  }

  /** Every state the banner reaches from mounting keeps the slot
      consistent. */
  lemma {:induction false} RunConsistent(v: Variant, s: State, events: seq<Event>)
    requires Consistent(s)
    ensures Consistent(RunIn(v, s, events))
    decreases |events|
  {
    if |events| > 0 {
      StepConsistent(v, s, events[0]);
      RunConsistent(v, StepIn(v, s, events[0]).state, events[1..]);
    }
  }

  /** In particular no loop timer runs while the card is expanded. */
  lemma ReachableConsistent(events: seq<Event>)
    ensures Consistent(Run(Init, events))
    ensures Run(Init, events).expanded ==> Run(Init, events).pending == NoTimer
  {
    RunConsistent(AsWritten, Init, events);
  }

  /** While hidden, nothing on screen can be used. */
  lemma HiddenIgnoresInput(v: Variant, s: State, e: Event)
    requires !s.visible && !e.MountTimerFired? && !e.TimerFired?
    ensures StepIn(v, s, e) == Output(s, [])
  {
  }

  /** Any user action that empties the slot keeps it empty until the pair
      (`isVisible`, `isExpanded`) changes: a touch that is not a swipe leaves
      a visible collapsed banner with no auto-dismiss timer. */
  lemma ShortTouchCancelsAutoDismiss(s: State, a: int, b: int)
    requires s.visible && !s.expanded && s.pending == DismissTimer
    requires -SwipeThreshold <= a - b <= SwipeThreshold
    ensures var r := Run(s, [TouchStart(a), TouchMove(b), TouchEnd]);
      r.visible && !r.expanded && r.pending == NoTimer
      && r.touchStart == Some(a) && r.touchEnd == Some(b)
  {
    var s1 := StartTouch(s, a);
    var s2 := s1.(touchEnd := Some(b));
    assert Step(s, TouchStart(a)).state == s1;
    assert Step(s1, TouchMove(b)).state == s2;
    assert Step(s2, TouchEnd).state == s2;
    assert Run(s, [TouchStart(a), TouchMove(b), TouchEnd]) == Run(s1, [TouchMove(b), TouchEnd]);
    assert Run(s1, [TouchMove(b), TouchEnd]) == Run(s2, [TouchEnd]);
  }

  // ---------------------------------------------------------------------
  // The automatic loop and the user's actions
  // ---------------------------------------------------------------------

  /** Left alone, a visible collapsed banner hides when its timer fires and
      comes back, with a fresh auto-dismiss timer, when the next one fires. */
  lemma AutoCycle(s: State)
    requires s.visible && !s.expanded && s.pending == DismissTimer
    ensures var h := Step(s, TimerFired).state;
      !h.visible && !h.expanded && h.pending == ReappearTimer
    ensures Run(s, [TimerFired, TimerFired]) == s
  {
    var h := s.(visible := false, pending := ReappearTimer);
    assert Step(s, TimerFired).state == h;
    assert Step(h, TimerFired).state == s;
    assert Run(s, [TimerFired, TimerFired]) == Run(h, [TimerFired]);
  }

  /** The first appearance arms the auto-dismiss timer. */
  lemma FirstAppearance()
    ensures var r := Step(Init, MountTimerFired).state;
      r.visible && !r.expanded && r.pending == DismissTimer && !r.mountPending
  {
  }

  /** Dismissing the collapsed banner arms the reappear timer. */
  lemma CollapsedCloseReappears(s: State)
    requires s.visible && !s.expanded
    ensures var r := Step(s, Close).state;
      !r.visible && !r.expanded && r.pending == ReappearTimer
  {
  }

  /** Opening the card stops the loop: nothing is armed while expanded. */
  lemma TapExpandsAndStopsTimer(s: State)
    requires s.visible && !s.expanded
    ensures Step(s, Tap) == Output(s.(expanded := true, pending := NoTimer), [])
  {
  }

  /** Collapsing the card restarts the auto-dismiss timer. */
  lemma CollapseRestartsTimer(s: State)
    requires s.visible && s.expanded
    ensures Step(s, Collapse) == Output(s.(expanded := false, pending := DismissTimer), [])
  {
  }

  /** Apply Now reports the flexible savings recommendation and Tell me
      more asks for the recommendation modal; both hide the banner. */
  lemma ActionButtons(s: State)
    requires s.visible && s.expanded
    ensures Step(s, ApplyNow).callbacks == [ApplyRecommendation("flexible-savings")]
    ensures Step(s, TellMore).callbacks == [ViewRecommendation]
    ensures !Step(s, ApplyNow).state.visible && !Step(s, TellMore).state.visible
  {
  }

  /** Only the two action buttons call the props. */
  lemma CallbacksOnlyFromButtons(v: Variant, s: State, e: Event)
    requires !e.ApplyNow? && !e.TellMore?
    ensures StepIn(v, s, e).callbacks == []
  {
  }

  // ---------------------------------------------------------------------
  // Swipes
  // ---------------------------------------------------------------------

  /** A swipe: the finger goes down at `a` and last moves to `b`. */
  function Swipe(s: State, a: int, b: int): State
  {
    Run(s, [TouchStart(a), TouchMove(b), TouchEnd])
  }

  lemma SwipeSteps(s: State, a: int, b: int)
    requires s.visible
    ensures Swipe(s, a, b) == Step(s.(touchStart := Some(a), touchEnd := Some(b), pending := NoTimer), TouchEnd).state
  {
    var s1 := StartTouch(s, a);
    var s2 := s1.(touchEnd := Some(b));
    assert Step(s, TouchStart(a)).state == s1;
    assert Step(s1, TouchMove(b)).state == s2;
    assert Run(s, [TouchStart(a), TouchMove(b), TouchEnd]) == Run(s1, [TouchMove(b), TouchEnd]);
    assert Run(s1, [TouchMove(b), TouchEnd]) == Run(s2, [TouchEnd]);
  }

  /** Swiping up more than the threshold expands a collapsed banner. */
  lemma SwipeUpExpands(s: State, a: int, b: int)
    requires s.visible && !s.expanded && a != 0 && b != 0 && a - b > SwipeThreshold
    ensures var r := Swipe(s, a, b); r.visible && r.expanded && r.pending == NoTimer
  {
    SwipeSteps(s, a, b);
  }

  /** Swiping down more than the threshold collapses an expanded banner,
      which re-arms the auto-dismiss timer. */
  lemma SwipeDownCollapses(s: State, a: int, b: int)
    requires s.visible && s.expanded && a != 0 && b != 0 && a - b < -SwipeThreshold
    ensures var r := Swipe(s, a, b); r.visible && !r.expanded && r.pending == DismissTimer
  {
    SwipeSteps(s, a, b);
  }

  /** Swiping down more than the threshold dismisses a collapsed banner,
      which arms the reappear timer. */
  lemma SwipeDownDismisses(s: State, a: int, b: int)
    requires s.visible && !s.expanded && a != 0 && b != 0 && a - b < -SwipeThreshold
    ensures var r := Swipe(s, a, b); !r.visible && !r.expanded && r.pending == ReappearTimer
  {
    SwipeSteps(s, a, b);
  }

  /** A swipe that starts or ends at coordinate 0 is ignored, since 0 is
      falsy; so is an upward swipe on an expanded banner. */
  lemma IgnoredSwipes(s: State, a: int, b: int)
    requires s.visible
    requires a == 0 || b == 0 || (s.expanded && a - b >= -SwipeThreshold)
    ensures var r := Swipe(s, a, b);
      r.visible == s.visible && r.expanded == s.expanded
  {
    SwipeSteps(s, a, b);
  }

  /** Lifting the finger with no recorded move, or after a touch that
      started or ended at 0, does nothing: `touchEnd` is still `null` after
      a plain tap, and 0 is falsy. */
  lemma TouchEndNoOp(s: State)
    requires s.visible && (!TruthyNumber(s.touchStart) || !TruthyNumber(s.touchEnd))
    ensures Step(s, TouchEnd) == Output(s, [])
  {
  }

  /** A swipe within the threshold, on a collapsed or an expanded banner
      and whatever timer was pending, only records the coordinates and
      empties the timer slot. */
  lemma ShortSwipeOnlyClearsTimer(s: State, a: int, b: int)
    requires s.visible && -SwipeThreshold <= a - b <= SwipeThreshold
    ensures Swipe(s, a, b) == s.(touchStart := Some(a), touchEnd := Some(b), pending := NoTimer)
  {
    SwipeSteps(s, a, b);
  }

  // ---------------------------------------------------------------------
  // Hiding an expanded banner
  // ---------------------------------------------------------------------

  /** Hidden, still expanded, nothing armed and the first appearance
      already happened. */
  predicate Stranded(s: State)
  {
    !s.visible && s.expanded && s.pending == NoTimer && !s.mountPending
  }

  /** As written, hiding an expanded banner (its X button, Apply Now or Tell
      me more) strands it: the effect sees (hidden, expanded) and arms
      nothing. */
  lemma ExpandedHideStrands(s: State, e: Event)
    requires s.visible && s.expanded && !s.mountPending
    requires e.Close? || e.ApplyNow? || e.TellMore?
    ensures Stranded(Step(s, e).state)
  {
  }

  /** A stranded banner never changes again, whatever happens. */
  lemma {:induction false} StrandedForever(s: State, events: seq<Event>)
    requires Stranded(s)
    ensures Run(s, events) == s
    decreases |events|
  {
    if |events| > 0 {
      assert Step(s, events[0]).state == s;
      StrandedForever(s, events[1..]);
    }
  }

  /** Three events after mounting reach a stranded banner. */
  lemma StrandingReachable()
    ensures Stranded(Run(Init, [MountTimerFired, Tap, Close]))
  {
    var s1 := Step(Init, MountTimerFired).state;
    var s2 := Step(s1, Tap).state;
    var s3 := Step(s2, Close).state;
    assert Run(Init, [MountTimerFired, Tap, Close]) == Run(s1, [Tap, Close]);
    assert Run(s1, [Tap, Close]) == Run(s2, [Close]);
    assert Run(s2, [Close]) == Run(s3, []);
  }

  // ---------------------------------------------------------------------
  // The corrected loop: a hide also collapses
  // ---------------------------------------------------------------------

  function FixedStep(s: State, e: Event): Output
  {
    StepIn(CollapseOnHide, s, e)
  }

  function FixedRun(s: State, events: seq<Event>): State
  {
    RunIn(CollapseOnHide, s, events)
  }

  /** The loop's promise: whenever the banner is hidden it is collapsed and
      the reappear timer is armed. */
  predicate WillReappear(s: State)
  {
    Consistent(s) && (!s.visible ==> !s.expanded && s.pending == ReappearTimer)
  }

  lemma FixedStepWillReappear(s: State, e: Event)
    requires WillReappear(s)
    ensures WillReappear(FixedStep(s, e).state)
  {
  }

  /** With hides that collapse, every state reached from mounting is
      either visible or waiting for its reappear timer, and that timer
      brings the banner back. */
  lemma {:induction false} FixedRunWillReappear(s: State, events: seq<Event>)
    requires WillReappear(s)
    ensures WillReappear(FixedRun(s, events))
    ensures var r := FixedRun(s, events);
      !r.visible ==> FixedStep(r, TimerFired).state.visible
    decreases |events|
  {
    if |events| > 0 {
      FixedStepWillReappear(s, events[0]);
      FixedRunWillReappear(FixedStep(s, events[0]).state, events[1..]);
    }
  }

  lemma FixedNeverStranded(events: seq<Event>)
    ensures WillReappear(FixedRun(Init, events))
    ensures !Stranded(FixedRun(Init, events))
  {
    FixedRunWillReappear(Init, events);
  }
}

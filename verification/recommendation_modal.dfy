/** The recommendation modal: interaction tracking guarded by the two ids,
    with every failure swallowed, and the order of tracking and `onApply`
    on Apply Now. The request itself is not modelled: its outcome is a
    parameter. */
module RecommendationModal {
  import opened Js

  datatype Action = Clicked | Converted

  /** How the tracking request ends. */
  datatype Outcome = Ok | HttpError(status: int) | NetworkError | BadBody

  datatype Request = Request(tokenId: string, recommendationId: string, action: Action)

  /** What `trackInteraction` did: skipped for missing data, or sent a
      request that succeeded or failed. It never throws. */
  datatype Tracking = Skipped | Sent(request: Request, succeeded: bool)

  /** `trackInteraction(action)`: no request unless both ids are truthy;
      a request's failure is caught and only logged. */
  function TrackInteraction(tokenId: Option<string>, recommendationId: Option<string>, action: Action, outcome: Outcome): (r: Tracking)
    ensures r.Skipped? <==> !TruthyString(tokenId) || !TruthyString(recommendationId)
    ensures r.Sent? ==> r.request == Request(tokenId.value, recommendationId.value, action)
    ensures r.Sent? ==> (r.succeeded <==> outcome == Ok)
  {
    if !TruthyString(tokenId) || !TruthyString(recommendationId) then Skipped
    else
      var request := Request(tokenId.value, recommendationId.value, action);
      match outcome
      case Ok => Sent(request, true)
      case _ => Sent(request, false)
  }

  datatype Event = ApplyClick(outcome: Outcome) | MaybeLater | HeaderClose

  /** What the modal does, in order. */
  datatype Effect = Track(request: Request) | CallApply | CallClose

  /** The effects of a click; nothing when the modal is closed, since it
      renders nothing. */
  function Handle(isOpen: bool, tokenId: Option<string>, recommendationId: Option<string>, e: Event): seq<Effect>
  {
    if !isOpen then []
    else match e
      case ApplyClick(outcome) =>
        var t := TrackInteraction(tokenId, recommendationId, Converted, outcome);
        (if t.Sent? then [Track(t.request)] else []) + [CallApply]
      case _ => [CallClose]
  }

  /** Apply Now first tracks a conversion (when both ids are present) and
      then calls `onApply`, however the tracking ended. */
  lemma ApplyOrder(tokenId: Option<string>, recommendationId: Option<string>, outcome: Outcome)
    ensures var fx := Handle(true, tokenId, recommendationId, ApplyClick(outcome));
      && |fx| >= 1 && fx[|fx| - 1] == CallApply
      && (TruthyString(tokenId) && TruthyString(recommendationId) ==>
            fx == [Track(Request(tokenId.value, recommendationId.value, Converted)), CallApply])
      && (!TruthyString(tokenId) || !TruthyString(recommendationId) ==> fx == [CallApply])
  {
  }

  /** The outcome of the request never changes what the click does. */
  lemma OutcomeIrrelevant(isOpen: bool, tokenId: Option<string>, recommendationId: Option<string>, o1: Outcome, o2: Outcome)
    ensures Handle(isOpen, tokenId, recommendationId, ApplyClick(o1))
         == Handle(isOpen, tokenId, recommendationId, ApplyClick(o2))
  {
  }

  /** Closed, the modal does nothing; Maybe Later and the header close only
      call `onClose`. */
  lemma CloseWithoutTracking(tokenId: Option<string>, recommendationId: Option<string>, e: Event)
    ensures Handle(false, tokenId, recommendationId, e) == []
    ensures e.MaybeLater? || e.HeaderClose? ==> Handle(true, tokenId, recommendationId, e) == [CallClose]
  {
  }

  /** No button ever tracks a plain click. */
  lemma NeverTracksClicked(isOpen: bool, tokenId: Option<string>, recommendationId: Option<string>, e: Event)
    ensures forall f :: f in Handle(isOpen, tokenId, recommendationId, e) && f.Track? ==> f.request.action == Converted
  {
  }

  // ---------------------------------------------------------------------
  // Clicks while a tracking request is awaited
  // ---------------------------------------------------------------------

  /** `Handle` takes a click and its request as one step. In the component,
      `handleApplyClick` awaits the request before calling `onApply`, and
      the modal stays on screen meanwhile. The session below counts the
      clicks whose request is still awaited. A click without both ids
      awaits nothing that can be interleaved: its `onApply` runs straight
      away. The continuations of all awaited clicks are the same call, so
      which request settles first does not matter. */
  datatype Button = ApplyButton | LaterButton | HeaderCloseButton

  datatype SessionEvent =
    | Press(isOpen: bool, tokenId: Option<string>, recommendationId: Option<string>, button: Button)
    | Settle(outcome: Outcome)   // the oldest awaited request ends, however

  datatype Reaction = Reaction(awaiting: nat, effects: seq<Effect>)

  function SessionStep(awaiting: nat, e: SessionEvent): Reaction
  {
    match e
    case Press(isOpen, tokenId, recommendationId, button) =>
      if !isOpen then Reaction(awaiting, [])
      else if button != ApplyButton then Reaction(awaiting, [CallClose])
      else if TruthyString(tokenId) && TruthyString(recommendationId) then
        Reaction(awaiting + 1, [Track(Request(tokenId.value, recommendationId.value, Converted))])
      else Reaction(awaiting, [CallApply])
    case Settle(_) =>
      if awaiting == 0 then Reaction(0, []) else Reaction(awaiting - 1, [CallApply])
  }

  /** The effects of a sequence of events, in order. */
  function SessionRun(awaiting: nat, events: seq<SessionEvent>): Reaction
    decreases |events|
  {
    if |events| == 0 then Reaction(awaiting, [])
    else
      var first := SessionStep(awaiting, events[0]);
      var rest := SessionRun(first.awaiting, events[1..]);
      Reaction(rest.awaiting, first.effects + rest.effects)
  }

  /** Apply Now presses on an open modal. */
  function ApplyPresses(events: seq<SessionEvent>): nat
    decreases |events|
  {
    if |events| == 0 then 0
    else
      var here := if events[0].Press? && events[0].isOpen && events[0].button == ApplyButton then 1 else 0;
      here + ApplyPresses(events[1..])
  }

  function CountApply(fx: seq<Effect>): nat
    decreases |fx|
  {
    if |fx| == 0 then 0 else (if fx[0] == CallApply then 1 else 0) + CountApply(fx[1..])
  }

  lemma {:induction false} CountApplyAppend(a: seq<Effect>, b: seq<Effect>)
    ensures CountApply(a + b) == CountApply(a) + CountApply(b)
    decreases |a|
  {
    if |a| == 0 {
      assert a + b == b;
    } else {
      assert (a + b)[0] == a[0];
      assert (a + b)[1..] == a[1..] + b;
      CountApplyAppend(a[1..], b);
    }
  }

  /** Every Apply Now press on the open modal calls `onApply` exactly once:
      either already, or when its awaited request settles. So a second
      press while the first request is pending calls `onApply` twice. */
  lemma {:induction false} EveryPressApplies(awaiting: nat, events: seq<SessionEvent>)
    ensures var r := SessionRun(awaiting, events);
      CountApply(r.effects) + r.awaiting == awaiting + ApplyPresses(events)
    decreases |events|
  {
    if |events| > 0 {
      var first := SessionStep(awaiting, events[0]);
      EveryPressApplies(first.awaiting, events[1..]);
      CountApplyAppend(first.effects, SessionRun(first.awaiting, events[1..]).effects);
    }
  }

  /** A request that settles before the next event gives exactly the
      effects of `Handle`. */
  lemma SettledAtOnceIsHandle(isOpen: bool, tokenId: Option<string>, recommendationId: Option<string>, outcome: Outcome)
    ensures SessionRun(0, [Press(isOpen, tokenId, recommendationId, ApplyButton), Settle(outcome)])
         == Reaction(0, Handle(isOpen, tokenId, recommendationId, ApplyClick(outcome)))
  {
    var events := [Press(isOpen, tokenId, recommendationId, ApplyButton), Settle(outcome)];
    var first := SessionStep(0, events[0]);
    assert events[1..] == [Settle(outcome)];
    assert [Settle(outcome)][1..] == [];
    assert SessionRun(first.awaiting, [Settle(outcome)])
        == Reaction(SessionStep(first.awaiting, Settle(outcome)).awaiting,
                    SessionStep(first.awaiting, Settle(outcome)).effects + []);
  }

  /** Maybe Later pressed while the request is awaited calls `onClose`, and
      `onApply` still follows when the request settles. */
  lemma CloseWhileAwaited(tokenId: string, recommendationId: string, outcome: Outcome)
    requires tokenId != "" && recommendationId != ""
    ensures SessionRun(0, [Press(true, Some(tokenId), Some(recommendationId), ApplyButton),
                           Press(true, Some(tokenId), Some(recommendationId), LaterButton),
                           Settle(outcome)])
         == Reaction(0, [Track(Request(tokenId, recommendationId, Converted)), CallClose, CallApply])
  {
    var a := Press(true, Some(tokenId), Some(recommendationId), ApplyButton);
    var l := Press(true, Some(tokenId), Some(recommendationId), LaterButton);
    var events := [a, l, Settle(outcome)];
    var req := Request(tokenId, recommendationId, Converted);
    assert SessionStep(0, a) == Reaction(1, [Track(req)]);
    assert SessionStep(1, l) == Reaction(1, [CallClose]);
    assert SessionStep(1, Settle(outcome)) == Reaction(0, [CallApply]);
    assert [Settle(outcome)][1..] == [];
    assert SessionRun(1, [Settle(outcome)]) == Reaction(0, [CallApply]);
    assert [l, Settle(outcome)][1..] == [Settle(outcome)];
    assert SessionRun(1, [l, Settle(outcome)]) == Reaction(0, [CallClose, CallApply]);
    assert events[1..] == [l, Settle(outcome)];
  }

  // ---------------------------------------------------------------------
  // Benefit icons
  // ---------------------------------------------------------------------

  datatype Icon = TrendingUp | CheckCircle | Shield | Clock

  const BenefitIcons: seq<Icon> := [TrendingUp, CheckCircle, Shield, Clock, CheckCircle]

  /** The icon of the `index`-th benefit. */
  function BenefitIcon(index: nat): Icon
  {
    BenefitIcons[index % |BenefitIcons|]
  }

  /** The icons repeat every five benefits, and the first five follow the
      list. */
  lemma BenefitIconsCycle(index: nat)
    ensures BenefitIcon(index + |BenefitIcons|) == BenefitIcon(index)
    ensures index < |BenefitIcons| ==> BenefitIcon(index) == BenefitIcons[index]
  {
  }
}

/** The "Recommended for You" carousel: four fixed cards, previous / next
    buttons that clamp the index, one dot per card, and a call-to-action per
    card that reports the card's id. The scroll position itself is not
    modelled; only the index the component keeps. */
module RecommendationBanner {
  import opened Js

  /** The card ids, in display order. */
  const CardIds: seq<string> := ["flexible-savings", "investment-plan", "insurance-plan", "quick-loan"]

  function LastIndex(): int
  {
    |CardIds| - 1
  }

  predicate InRange(index: int)
  {
    0 <= index < |CardIds|
  }

  datatype Event =
    | Prev
    | Next
    | Dot(target: nat)     // the dot of card `target`
    | Cta(card: nat)       // the call-to-action button of card `card`

  /** The new index and the id passed to `onApplyRecommendation`, if any. */
  datatype Output = Output(index: int, applied: Option<string>)

  /** `scrollToIndex`: the index is set to the target whether or not there
      is an element to scroll. */
  function ScrollToIndex(target: int): int
  {
    target
  }

  predicate PrevDisabled(index: int)
  {
    index == 0
  }

  predicate NextDisabled(index: int)
  {
    index == LastIndex()
  }

  /** Dot `d` is drawn as the active one. */
  predicate DotActive(index: int, d: nat)
  {
    d == index
  }

  /** The set of dots drawn as active. */
  function ActiveDots(index: int): set<nat>
  {
    set d: nat | d < |CardIds| && DotActive(index, d)
  }

  function Step(index: int, e: Event): Output
  {
    match e
    case Prev => Output(ScrollToIndex(Max(0, index - 1)), None)
    case Next => Output(ScrollToIndex(Min(LastIndex(), index + 1)), None)
    case Dot(t) => if t < |CardIds| then Output(ScrollToIndex(t), None) else Output(index, None)
    case Cta(c) => if c < |CardIds| then Output(index, Some(CardIds[c])) else Output(index, None)
  }

  function Run(index: int, events: seq<Event>): int
    decreases |events|
  {
    if |events| == 0 then index else Run(Step(index, events[0]).index, events[1..])
  }

  /** Previous moves one card back and Next one card forward, stopping at
      the ends. */
  lemma PrevNextClamp(index: int)
    requires InRange(index)
    ensures var p := Step(index, Prev).index;
      InRange(p) && (index > 0 ==> p == index - 1) && (index == 0 ==> p == 0)
    ensures var n := Step(index, Next).index;
      InRange(n) && (index < LastIndex() ==> n == index + 1) && (index == LastIndex() ==> n == index)
  {
  }

  /** A button is disabled exactly when pressing it would not move the
      carousel. */
  lemma DisabledIffNoMove(index: int)
    requires InRange(index)
    ensures PrevDisabled(index) <==> Step(index, Prev).index == index
    ensures NextDisabled(index) <==> Step(index, Next).index == index
  {
  }

  /** Exactly one dot is active while the index is in range, none
      otherwise. */
  lemma OneActiveDot(index: int)
    ensures InRange(index) ==> ActiveDots(index) == {index as nat}
    ensures !InRange(index) ==> ActiveDots(index) == {}
  {
    if InRange(index) {
      assert index as nat in ActiveDots(index);
    }
  }

  /** Starting from the first card, the buttons and dots keep the index in
      range. */
  lemma {:induction false} RunInRange(index: int, events: seq<Event>)
    requires InRange(index)
    ensures InRange(Run(index, events))
    decreases |events|
  {
    if |events| > 0 {
      PrevNextClamp(index);
      RunInRange(Step(index, events[0]).index, events[1..]);
    }
  }

  /** Each card's button reports that card's id and leaves the index. */
  lemma CtaReportsCard(index: int, c: nat)
    requires c < |CardIds|
    ensures Step(index, Cta(c)) == Output(index, Some(CardIds[c]))
    ensures c == 0 ==> Step(index, Cta(c)).applied == Some("flexible-savings")
  {
  }

  /** The four ids are distinct, so a reported id names one card. */
  lemma CardIdsDistinct()
    ensures forall i, j :: 0 <= i < j < |CardIds| ==> CardIds[i] != CardIds[j]
  {
  }
}

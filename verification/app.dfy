/** The application shell: which modal is open, the tracking data handed to
    the recommendation modal, the dashboard flag, the recorded feedback,
    the content of the active tab, and how the children's callbacks reach
    its handlers. */
module App {
  import opened Js
  import SmartBanner
  import RecommendationBanner
  import RecommendationModal
  import FeedbackModal

  datatype Tracking = Tracking(tokenId: string, recommendationId: string)

  datatype Feedback = Feedback(rating: FeedbackModal.Rating, comment: Option<string>)

  datatype State = State(
    tab: string,
    recommendationOpen: bool,
    transactionOpen: bool,
    feedbackOpen: bool,
    dashboard: bool,
    tracking: Option<Tracking>,
    feedback: Option<Feedback>)

  const Init: State := State("home", false, false, false, false, None, None)

  /** The handlers, named after the source's. */
  datatype Event =
    | ApplyRecommendation(recommendationId: string, tokenId: Option<string>, apiRecommendationId: Option<string>)
    | ViewRecommendation
    | ApplyNow
    | TransactionComplete
    | SubmitFeedback(rating: FeedbackModal.Rating, comment: Option<string>)
    | ModalClose
    | FeedbackClose        // the feedback modal's `onClose`
    | ChangeTab(tab: string)

  function Step(s: State, e: Event): State
  {
    match e
    case ApplyRecommendation(_, tokenId, apiId) =>
      var tracking :=
        if TruthyString(tokenId) && TruthyString(apiId) then Some(Tracking(tokenId.value, apiId.value))
        else s.tracking;
      s.(tracking := tracking, recommendationOpen := true)
    case ViewRecommendation => s.(recommendationOpen := true)
    case ApplyNow => s.(recommendationOpen := false, transactionOpen := true)
    case TransactionComplete =>
      s.(transactionOpen := false, feedbackOpen := true, dashboard := true, tracking := None)
    case SubmitFeedback(rating, comment) =>
      s.(feedback := Some(Feedback(rating, comment)), feedbackOpen := false)
    case ModalClose => s.(recommendationOpen := false, tracking := None)
    case FeedbackClose => s.(feedbackOpen := false)
    case ChangeTab(t) => s.(tab := t)
  }

  function Run(s: State, events: seq<Event>): State
    decreases |events|
  {
    if |events| == 0 then s else Run(Step(s, events[0]), events[1..])
  }

  // ---------------------------------------------------------------------
  // The handlers one by one
  // ---------------------------------------------------------------------

  /** Applying a recommendation always opens the modal, and replaces the
      tracking data exactly when both ids are truthy. */
  lemma ApplyRecommendationTracking(s: State, id: string, tokenId: Option<string>, apiId: Option<string>)
    ensures var r := Step(s, ApplyRecommendation(id, tokenId, apiId));
      && r.recommendationOpen
      && (TruthyString(tokenId) && TruthyString(apiId) ==> r.tracking == Some(Tracking(tokenId.value, apiId.value)))
      && (!TruthyString(tokenId) || !TruthyString(apiId) ==> r.tracking == s.tracking)
      && r.(recommendationOpen := s.recommendationOpen, tracking := s.tracking) == s
  {
  }

  /** Apply Now swaps the recommendation modal for the transaction modal
      and keeps the tracking data. */
  lemma ApplyNowSwapsModals(s: State)
    ensures var r := Step(s, ApplyNow);
      !r.recommendationOpen && r.transactionOpen && r.tracking == s.tracking
      && r.feedbackOpen == s.feedbackOpen && r.dashboard == s.dashboard
  {
  }

  /** Completing the transaction opens the feedback modal, shows the
      dashboard and forgets the tracking data. */
  lemma TransactionCompleteEffects(s: State)
    ensures var r := Step(s, TransactionComplete);
      !r.transactionOpen && r.feedbackOpen && r.dashboard && r.tracking == None
      && r.recommendationOpen == s.recommendationOpen && r.feedback == s.feedback
  {
  }

  /** Closing the recommendation modal forgets the tracking data. */
  lemma ModalCloseClearsTracking(s: State)
    ensures var r := Step(s, ModalClose);
      !r.recommendationOpen && r.tracking == None
      && r.transactionOpen == s.transactionOpen && r.feedbackOpen == s.feedbackOpen
  {
  }

  /** The modal's `onApply` can come after its `onClose` when its tracking
      request was still awaited (`RecommendationModal.CloseWhileAwaited`):
      the transaction modal then opens over a closed recommendation, with
      the tracking data already forgotten. */
  lemma LateApplyAfterClose(s: State)
    ensures var r := Step(Step(s, ModalClose), ApplyNow);
      !r.recommendationOpen && r.transactionOpen && r.tracking == None
      && r.feedbackOpen == s.feedbackOpen && r.dashboard == s.dashboard
  {
  }

  /** Submitting records the rating and the comment and closes the
      feedback modal. */
  lemma SubmitRecordsFeedback(s: State, rating: FeedbackModal.Rating, comment: Option<string>)
    ensures var r := Step(s, SubmitFeedback(rating, comment));
      r.feedback == Some(Feedback(rating, comment)) && !r.feedbackOpen
      && r.dashboard == s.dashboard && r.tracking == s.tracking
  {
  }

  /** Once shown, the dashboard stays. */
  lemma {:induction false} DashboardMonotone(s: State, events: seq<Event>)
    requires s.dashboard
    ensures Run(s, events).dashboard
    decreases |events|
  {
    if |events| > 0 {
      DashboardMonotone(Step(s, events[0]), events[1..]);
    }
  }

  /** The dashboard appears exactly by completing a transaction. */
  lemma DashboardOnlyByTransaction(s: State, e: Event)
    requires !s.dashboard
    ensures Step(s, e).dashboard <==> e.TransactionComplete?
  {
  }

  // ---------------------------------------------------------------------
  // How the children call in
  // ---------------------------------------------------------------------

  /** The smart banner's `onApplyRecommendation` is wrapped to pass the id
      only. */
  function FromSmartBanner(c: SmartBanner.Callback): Event
  {
    match c
    case ApplyRecommendation(id) => ApplyRecommendation(id, None, None)
    case ViewRecommendation => ViewRecommendation
  }

  /** The carousel calls `handleApplyRecommendation` with one argument. */
  function FromCarousel(id: string): Event
  {
    ApplyRecommendation(id, None, None)
  }

  /** An event as the shown children can cause it: the tracking ids are
      never passed. */
  predicate FromShownCaller(e: Event)
  {
    e.ApplyRecommendation? ==> e.tokenId.None? && e.apiRecommendationId.None?
  }

  lemma ChildrenAreShownCallers(c: SmartBanner.Callback, id: string)
    ensures FromShownCaller(FromSmartBanner(c)) && FromShownCaller(FromCarousel(id))
    ensures FromSmartBanner(c).ApplyRecommendation? || FromSmartBanner(c).ViewRecommendation?
  {
  }

  /** With the shown callers, tracking data is never set. */
  lemma {:induction false} TrackingNeverSet(s: State, events: seq<Event>)
    requires s.tracking == None
    requires forall i :: 0 <= i < |events| ==> FromShownCaller(events[i])
    ensures Run(s, events).tracking == None
    decreases |events|
  {
    if |events| > 0 {
      assert FromShownCaller(events[0]);
      TrackingNeverSet(Step(s, events[0]), events[1..]);
    }
  }

  /** The props the recommendation modal receives: `trackingData?.tokenId`
      and `trackingData?.recommendationId`. */
  function ModalTokenId(s: State): Option<string>
  {
    if s.tracking.Some? then Some(s.tracking.value.tokenId) else None
  }

  function ModalRecommendationId(s: State): Option<string>
  {
    if s.tracking.Some? then Some(s.tracking.value.recommendationId) else None
  }

  /** So in the application as shown, Apply Now in the recommendation
      modal never sends a tracking request: it only calls `onApply`. */
  lemma ShownAppNeverTracks(events: seq<Event>, outcome: RecommendationModal.Outcome)
    requires forall i :: 0 <= i < |events| ==> FromShownCaller(events[i])
    ensures var s := Run(Init, events);
      RecommendationModal.Handle(s.recommendationOpen, ModalTokenId(s), ModalRecommendationId(s),
        RecommendationModal.ApplyClick(outcome))
      == (if s.recommendationOpen then [RecommendationModal.CallApply] else [])
  {
    TrackingNeverSet(Init, events);
  }

  /** The usual path: a card's button, Apply Now, Done, then a rating. */
  lemma HappyPath(rating: FeedbackModal.Rating, comment: string)
    ensures var r := Run(Init, [FromCarousel(RecommendationBanner.CardIds[0]), ApplyNow, TransactionComplete,
                                SubmitFeedback(rating, Some(comment))]);
      && !r.recommendationOpen && !r.transactionOpen && !r.feedbackOpen
      && r.dashboard && r.tracking == None
      && r.feedback == Some(Feedback(rating, Some(comment)))
  {
    var e0 := FromCarousel(RecommendationBanner.CardIds[0]);
    var s1 := Step(Init, e0);
    var s2 := Step(s1, ApplyNow);
    var s3 := Step(s2, TransactionComplete);
    var s4 := Step(s3, SubmitFeedback(rating, Some(comment)));
    assert Run(Init, [e0, ApplyNow, TransactionComplete, SubmitFeedback(rating, Some(comment))])
        == Run(s1, [ApplyNow, TransactionComplete, SubmitFeedback(rating, Some(comment))]);
    assert Run(s1, [ApplyNow, TransactionComplete, SubmitFeedback(rating, Some(comment))])
        == Run(s2, [TransactionComplete, SubmitFeedback(rating, Some(comment))]);
    assert Run(s2, [TransactionComplete, SubmitFeedback(rating, Some(comment))])
        == Run(s3, [SubmitFeedback(rating, Some(comment))]);
    assert Run(s3, [SubmitFeedback(rating, Some(comment))]) == Run(s4, []);
  }

  // ---------------------------------------------------------------------
  // What is shown
  // ---------------------------------------------------------------------

  datatype Section =
    | ProfileSection | CarouselSection | DashboardSection | HistorySection
    | InsightsSection | NotificationsSection | SettingsSection

  /** `renderTabContent`. */
  function TabContent(tab: string, dashboard: bool): seq<Section>
  {
    if tab == "home" then
      [ProfileSection, CarouselSection] + (if dashboard then [DashboardSection] else []) + [HistorySection]
    else if tab == "transactions" then [HistorySection]
    else if tab == "insights" then [InsightsSection]
    else if tab == "notifications" then [NotificationsSection]
    else if tab == "settings" then [SettingsSection]
    else []
  }

  predicate KnownTab(tab: string)
  {
    tab in {"home", "transactions", "insights", "notifications", "settings"}
  }

  /** The chat bubble is rendered on the home tab only. */
  predicate ChatShown(s: State)
  {
    s.tab == "home"
  }

  /** The chat bubble shares the home tab with the carousel: it is shown
      exactly when the recommendations carousel is. */
  lemma ChatOnlyOnHome(s: State)
    ensures ChatShown(s) <==> CarouselSection in TabContent(s.tab, s.dashboard)
    ensures ChatShown(s) ==> KnownTab(s.tab)
  {
  }

  /** An unknown tab shows nothing; a known one shows something; the
      dashboard is shown exactly on the home tab once the flag is set. */
  lemma TabContentShape(tab: string, dashboard: bool)
    ensures TabContent(tab, dashboard) == [] <==> !KnownTab(tab)
    ensures DashboardSection in TabContent(tab, dashboard) <==> tab == "home" && dashboard
    ensures CarouselSection in TabContent(tab, dashboard) <==> tab == "home"
  {
  }

  /** The feedback notice shown once feedback is recorded. */
  const PositiveNotice: string := "Thank you for your positive feedback! We're glad the recommendation was helpful."
  const NeutralNotice: string := "Thank you for your feedback. We'll use this to improve future recommendations."

  function FeedbackNotice(f: Feedback): string
  {
    if f.rating == FeedbackModal.Yes then PositiveNotice else NeutralNotice
  }

  /** The comment line is shown only for a truthy comment. */
  predicate CommentShown(f: Feedback)
  {
    TruthyString(f.comment)
  }

  lemma NoticeFollowsRating(f: Feedback)
    ensures FeedbackNotice(f) == PositiveNotice <==> f.rating == FeedbackModal.Yes
    ensures f.comment == Some("") ==> !CommentShown(f)
  {
  }

  /** The feedback modal reports the comment as a string, so an untouched
      comment is recorded as `''` and its line stays hidden. */
  function FromFeedbackModal(c: FeedbackModal.Callback): Event
  {
    match c
    case SubmitFeedback(rating, comment) => SubmitFeedback(rating, Some(comment))
    case CloseModal => FeedbackClose
  }

  lemma EmptyCommentHidden(s: State, rating: FeedbackModal.Rating)
    ensures var r := Step(s, FromFeedbackModal(FeedbackModal.SubmitFeedback(rating, "")));
      r.feedback.Some? && !CommentShown(r.feedback.value)
  {
  }
}

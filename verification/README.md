# A Dafny model of the OMNIS recommendation mockup

The repository is a React front end for a fintech demo. This project models
the parts of it that carry sequential logic, as immutable state datatypes,
`Event` datatypes and pure `Step` functions, and proves properties of them.

- **SmartBanner** (`smart_banner.dfy`): the bottom banner's loop of appear,
  auto-dismiss and reappear. Its one timer slot is re-armed by an effect on
  (`isVisible`, `isExpanded`). It also handles tap, close and collapse,
  touch swipes with a ±50 threshold, and the Apply Now / Tell me more
  buttons.
- **ChatBubble** (`chat_bubble.dfy`): the scripted assistant.
  - A first-match keyword lookup over the ordered response table.
  - Each reply is split on `|`, and `PRODUCT:` / `ID:` are stripped.
  - The bubble, card and panel transitions, the introduction message, sending,
    suggested questions, and the one-second reply timers.
- **App** (`app.dfy`): the modal flow (recommendation, transaction, feedback),
  the tracking data, the dashboard flag, the recorded feedback, and the
  content of each tab. It also covers how the children's callbacks reach the
  handlers.
- **RecommendationBanner** (`recommendation_banner.dfy`): the carousel. It
  clamps the index on Prev / Next, computes the disabled buttons and the
  active dot, and reports each card's id.
- **RecommendationModal** (`recommendation_modal.dfy`): interaction tracking
  guarded by the two ids, with failures swallowed. Apply Now tracks first and
  then calls `onApply`, and the modal stays usable while the request is
  awaited. Benefit icons are chosen by index modulo five.
- **FeedbackModal** (`feedback_modal.dfy`): selection, comment, a guarded
  submit, the timed reset, and the thank-you message.
- **TransactionModal** (`transaction_modal.dfy`): the processing to success
  flip on a timer.
- **EnhancedUserProfile** and **UserProfile** (`enhanced_user_profile.dfy`,
  `user_profile.dfy`): the health-score colour bands, the "time ago" label,
  and the initials in the avatar. These two components hold duplicated code,
  and the model proves the copies agree.
- **Js** and **Strings** (`js.dfy`, `strings.dfy`): the JavaScript conventions
  the components rely on.
  - Truthiness, and `undefined`/`null` as `Option`.
  - `toLowerCase` on ASCII, `includes`, `indexOf`, `split`/`join` on one
    character, and `replace` of the first occurrence.
  - `trim` over the ECMAScript white-space set.
  - The decimal rendering of integers in template literals.

React is modelled as follows:
- A handler reads the state of the last render.
- State setters take effect together at the next render.
- An effect re-runs only when its dependency list changed, and runs its
  cleanup first.
- A timer is an explicit event that may fire at any point; delays are not
  modelled.

Closing the collapsed banner re-arms the reappear timer, because the effect
re-runs when `isVisible` changes (`SmartBanner.CollapsedCloseReappears`).

## Model

| member | source | states |
|---|---|---|
| SmartBanner.Hide | src/components/SmartBanner.tsx:62-65 | no contract of its own: `handleDismiss`, which also gives the state change of `handleApplyNow` and `handleViewMore` (lines 104-114); stated by SmartBanner.CollapsedCloseReappears and SmartBanner.ExpandedHideStrands |
| SmartBanner.Expand | src/components/SmartBanner.tsx:67-70 | no contract of its own: `handleBannerTap`, which sets `isExpanded` and clears the timer slot; stated by SmartBanner.TapExpandsAndStopsTimer and SmartBanner.SwipeUpExpands |
| SmartBanner.CollapseCard | src/components/SmartBanner.tsx:72-74 | no contract of its own: `handleCollapse`, which leaves the timer slot alone; stated by SmartBanner.CollapseRestartsTimer and SmartBanner.SwipeDownCollapses |
| SmartBanner.StartTouch | src/components/SmartBanner.tsx:76-80 | no contract of its own: `handleTouchStart`, which nulls `touchEnd`, records `touchStart` and clears the slot; stated by SmartBanner.SwipeSteps and SmartBanner.ShortTouchCancelsAutoDismiss |
| SmartBanner.EndTouch | src/components/SmartBanner.tsx:86-102 | no contract of its own: `handleTouchEnd`; stated by SmartBanner.SwipeUpExpands, SmartBanner.SwipeDownCollapses, SmartBanner.SwipeDownDismisses, SmartBanner.IgnoredSwipes, SmartBanner.TouchEndNoOp and SmartBanner.ShortSwipeOnlyClearsTimer |
| SmartBanner.Handle | src/components/SmartBanner.tsx:62-114 | no contract of its own: the handlers of the rendered elements; stated by SmartBanner.TapExpandsAndStopsTimer, SmartBanner.CollapseRestartsTimer, SmartBanner.ActionButtons and SmartBanner.CallbacksOnlyFromButtons |
| SmartBanner.Commit | src/components/SmartBanner.tsx:27-52 | no contract of its own: the loop effect re-arms only when (`isVisible`, `isExpanded`) changed; stated by SmartBanner.StepConsistent and SmartBanner.ShortTouchCancelsAutoDismiss |
| SmartBanner.StepIn | src/components/SmartBanner.tsx:18-116 | no contract of its own: one timer or user event followed by its render, with nothing handled while hidden; stated by SmartBanner.StepConsistent, SmartBanner.HiddenIgnoresInput and SmartBanner.FirstAppearance |
| SmartBanner.Step | src/components/SmartBanner.tsx:18-116 | no contract of its own: the banner as written; stated by SmartBanner.RunConsistent, SmartBanner.AutoCycle and SmartBanner.StrandedForever |
| SmartBanner.ArmFor | src/components/SmartBanner.tsx:34-44 | the loop effect arms the dismiss timer iff visible and collapsed, the reappear timer iff hidden and collapsed, and nothing iff expanded |
| SmartBanner.StepConsistent | src/components/SmartBanner.tsx:27-60 | one event keeps the timer slot either empty or holding the timer armed for the current (visible, expanded) pair |
| SmartBanner.RunConsistent | src/components/SmartBanner.tsx:27-60 | any sequence of events keeps that slot invariant |
| SmartBanner.ReachableConsistent | src/components/SmartBanner.tsx:10-11 | every state reached after mounting keeps the invariant, so no loop timer runs while the card is expanded and there is never more than one loop timer |
| SmartBanner.FirstAppearance | src/components/SmartBanner.tsx:18-24 | the three-second mount timer only makes the banner visible, which arms the auto-dismiss timer |
| SmartBanner.AutoCycle | src/components/SmartBanner.tsx:36-43 | left alone, a visible collapsed banner hides when its timer fires, and the reappear timer then restores exactly the earlier state |
| SmartBanner.HiddenIgnoresInput | src/components/SmartBanner.tsx:116 | while hidden nothing is rendered, so every user event leaves the state unchanged and calls nothing |
| SmartBanner.CollapsedCloseReappears | src/components/SmartBanner.tsx:62-65 | closing the collapsed banner hides it and the effect then arms the reappear timer |
| SmartBanner.TapExpandsAndStopsTimer | src/components/SmartBanner.tsx:67-70 | tapping the collapsed banner expands it and leaves no timer pending, with nothing else changed |
| SmartBanner.CollapseRestartsTimer | src/components/SmartBanner.tsx:72-74 | collapsing changes only the expanded flag, and the effect then re-arms the auto-dismiss timer |
| SmartBanner.ShortTouchCancelsAutoDismiss | src/components/SmartBanner.tsx:76-102 | a touch whose travel is within ±50 cancels the auto-dismiss timer, and nothing re-arms it while the pair stays the same |
| SmartBanner.SwipeSteps | src/components/SmartBanner.tsx:76-84 | touch start, then move, then end equals ending a touch that recorded both coordinates with the slot cleared |
| SmartBanner.SwipeUpExpands | src/components/SmartBanner.tsx:89-94 | an upward swipe over 50 with non-zero coordinates expands a collapsed banner and leaves no timer |
| SmartBanner.SwipeDownCollapses | src/components/SmartBanner.tsx:95-97 | a downward swipe over 50 collapses an expanded banner, which re-arms the auto-dismiss timer |
| SmartBanner.SwipeDownDismisses | src/components/SmartBanner.tsx:95-100 | a downward swipe over 50 dismisses a collapsed banner, which arms the reappear timer |
| SmartBanner.IgnoredSwipes | src/components/SmartBanner.tsx:87-93 | a swipe with a coordinate of 0, which is falsy, changes neither flag, and neither does an upward or short swipe on an expanded banner |
| SmartBanner.TouchEndNoOp | src/components/SmartBanner.tsx:76-87 | lifting the finger when either coordinate is null or 0 (a plain tap leaves `touchEnd` null) changes nothing and calls nothing |
| SmartBanner.ShortSwipeOnlyClearsTimer | src/components/SmartBanner.tsx:76-102 | a swipe of travel within ±50, on a collapsed or expanded banner and whatever timer was pending, only records the coordinates and empties the timer slot |
| SmartBanner.ActionButtons | src/components/SmartBanner.tsx:104-114 | Apply Now calls `onApplyRecommendation('flexible-savings')`, Tell me more calls `onViewRecommendation`, and both hide the banner |
| SmartBanner.CallbacksOnlyFromButtons | src/components/SmartBanner.tsx:104-114 | no other event calls a prop |
| SmartBanner.ExpandedHideStrands | src/components/SmartBanner.tsx:62-65 | closing, applying or asking for more from the expanded card hides the banner with `isExpanded` still true and arms no timer |
| SmartBanner.StrandedForever | src/components/SmartBanner.tsx:34-44 | a hidden, expanded banner with no timer and the mount timer spent stays unchanged under every event sequence |
| SmartBanner.StrandingReachable | src/components/SmartBanner.tsx:199-201 | mount timer, tap, then the expanded card's close button reaches that state |
| SmartBanner.FixedStep | src/components/SmartBanner.tsx:62-65 | no contract of its own: the banner with every hide also collapsing; stated by SmartBanner.FixedStepWillReappear and SmartBanner.FixedNeverStranded |
| SmartBanner.FixedStepWillReappear | src/components/SmartBanner.tsx:62-65 | with hides that also collapse, one event keeps "hidden implies collapsed with the reappear timer armed" |
| SmartBanner.FixedRunWillReappear | src/components/SmartBanner.tsx:39-43 | with hides that also collapse, every reached hidden state comes back when its timer fires |
| SmartBanner.FixedNeverStranded | src/components/SmartBanner.tsx:27-52 | with hides that also collapse, no state reached from mounting is stranded |
| ChatBubble.ScanResponses | src/components/ChatBubble.tsx:127-138 | the loop of `generateResponse` returns the first matching row's reply text, or none iff no key occurs |
| ChatBubble.ScanProducts | src/components/ChatBubble.tsx:80-95 | the loop of `getProductInfo` returns the product of the first matching row that has three parts, or none iff there is no such row |
| ChatBubble.FirstMatch | src/components/ChatBubble.tsx:130-131 | returns the first table row, in declaration order, whose key occurs in the lowered input, or none iff no key occurs |
| ChatBubble.GenerateResponse | src/components/ChatBubble.tsx:127-138 | the reply is the text before the first `\|` of the first matching row, or the fixed default when no key occurs |
| ChatBubble.GetProductInfo | src/components/ChatBubble.tsx:80-95 | null iff no matching row has at least three `\|` parts; otherwise the product and id of the first such row, with the first `PRODUCT:` / `ID:` removed |
| ChatBubble.SameRowSelected | src/components/ChatBubble.tsx:83-92 | when every row has three parts, both lookups read the same row, or both fall back |
| ChatBubble.TwoSeparatorsThreeParts | src/components/ChatBubble.tsx:85-86 | a response with two `\|` separators splits into at least three parts |
| ChatBubble.RawHasProductParts | src/components/ChatBubble.tsx:36-48 | every response written as `text\|PRODUCT:p\|ID:i` has three parts |
| ChatBubble.RawRoundTrip | src/components/ChatBubble.tsx:85-89 | for parts without `\|`, the reply text and product info read back exactly the text, product and id |
| ChatBubble.ResponsesHaveProductParts | src/components/ChatBubble.tsx:36-48 | every row of the source table has three parts |
| ChatBubble.SourceTableLookupsAgree | src/components/ChatBubble.tsx:80-138 | on the source table, both lookups select the same row for every input |
| ChatBubble.OccursInLowered | src/components/ChatBubble.tsx:81-84 | a lower-case key that occurs in the input also occurs in the lowered input |
| ChatBubble.NamedAfter | src/components/ChatBubble.tsx:27-34 | a question built as prefix + key + suffix contains the key right after the prefix |
| ChatBubble.TemplateNamesKeyword | src/components/ChatBubble.tsx:27-34 | each suggested question contains one of the table's keys at a known position |
| ChatBubble.KeywordsLowerCase | src/components/ChatBubble.tsx:36-48 | the table's keys contain no upper-case letter, so lowering the input cannot hide them |
| ChatBubble.TemplatesAllMatch | src/components/ChatBubble.tsx:27-48 | every suggested question matches some key, so none gets the default reply |
| ChatBubble.BotReply | src/components/ChatBubble.tsx:110-124 | no contract of its own: the bot message built from `generateResponse` and `getProductInfo` of the untrimmed content; stated by ChatBubble.SendAppendsUserMessage and ChatBubble.ReplyFollowsQuestion |
| ChatBubble.SendMessage | src/components/ChatBubble.tsx:97-125 | no contract of its own: `handleSendMessage`; stated by ChatBubble.SendIgnoresBlank and ChatBubble.SendAppendsUserMessage |
| ChatBubble.AskQuestion | src/components/ChatBubble.tsx:140-164 | no contract of its own: `handleTemplateQuestion`, with no blank check and the input kept; stated by ChatBubble.TemplateHidesSuggestions |
| ChatBubble.OpenEffect | src/components/ChatBubble.tsx:55-66 | no contract of its own: the effect on `showChatPanel`; stated by ChatBubble.MaybeLaterOpensPanel and ChatBubble.IntroOnlyOnOpening |
| ChatBubble.Handle | src/components/ChatBubble.tsx:70-337 | no contract of its own: the handlers of the rendered elements; stated by ChatBubble.CardButtons, ChatBubble.MaybeLaterOpensPanel and ChatBubble.TemplateHidesSuggestions |
| ChatBubble.Step | src/components/ChatBubble.tsx:50-125 | no contract of its own: timers act always, the elements only once the bubble has appeared; stated by ChatBubble.HiddenIgnoresInput, ChatBubble.RepliesInOrder and ChatBubble.IntroOnlyOnOpening |
| ChatBubble.SendIgnoresBlank | src/components/ChatBubble.tsx:98 | sending white space only changes nothing |
| ChatBubble.SendAppendsUserMessage | src/components/ChatBubble.tsx:97-125 | otherwise exactly one user message with the trimmed, non-empty input is appended, the input is cleared, and the answer to the untrimmed input is queued |
| ChatBubble.ReplyFollowsQuestion | src/components/ChatBubble.tsx:97-125 | a send followed by its timer ends the conversation with the user message and then the bot's answer |
| ChatBubble.RepliesInOrder | src/components/ChatBubble.tsx:114-124 | every answer waits the same second and is appended to the latest list, so `n` reply timers append the `n` oldest pending answers in the order they were asked and change nothing else |
| ChatBubble.MaybeLaterOpensPanel | src/components/ChatBubble.tsx:70-73 | Maybe Later collapses the card and opens the panel, and the introduction appears exactly when the conversation was empty |
| ChatBubble.IntroOnlyOnOpening | src/components/ChatBubble.tsx:55-66 | apart from sending, asking and reply timers, the messages change only when the panel opens on an empty conversation, which adds the introduction |
| ChatBubble.CardButtons | src/components/ChatBubble.tsx:75-78 | View Recommendation calls the prop and collapses; the backdrop closes both the card and the panel |
| ChatBubble.TemplateHidesSuggestions | src/components/ChatBubble.tsx:230 | a suggested question is taken only while exactly one message is shown, and asking it hides the suggestions |
| ChatBubble.HiddenIgnoresInput | src/components/ChatBubble.tsx:68 | before the bubble appears, no user event changes anything |
| App.Step | src/App.tsx:42-89 | no contract of its own: the handlers; stated by the App lemmas below |
| App.ApplyRecommendationTracking | src/App.tsx:47-63 | always opens the recommendation modal; replaces the tracking data iff both ids are truthy; changes nothing else |
| App.ApplyNowSwapsModals | src/App.tsx:66-70 | closes the recommendation modal, opens the transaction modal, keeps the tracking data |
| App.TransactionCompleteEffects | src/App.tsx:72-78 | closes the transaction modal, opens feedback, shows the dashboard, clears the tracking data |
| App.ModalCloseClearsTracking | src/App.tsx:85-89 | closes the recommendation modal and clears the tracking data |
| App.LateApplyAfterClose | src/App.tsx:66-89 | an `onApply` arriving after `onClose` still opens the transaction modal, with the recommendation modal closed and the tracking data gone |
| App.SubmitRecordsFeedback | src/App.tsx:80-83 | records rating and comment and closes the feedback modal |
| App.DashboardMonotone | src/App.tsx:23 | once shown, the dashboard stays shown under every event sequence |
| App.DashboardOnlyByTransaction | src/App.tsx:75 | the dashboard flag is set exactly by completing a transaction |
| App.ChildrenAreShownCallers | src/App.tsx:155-158 | the smart banner and the carousel pass a recommendation id only |
| App.TrackingNeverSet | src/App.tsx:55-60 | with those callers, the tracking data stays null |
| App.ShownAppNeverTracks | src/App.tsx:164-171 | so the recommendation modal's Apply Now never sends a tracking request in the app as shown |
| App.HappyPath | src/App.tsx:19-83 | card button, Apply Now, Done, then a rating leaves all modals closed, the dashboard shown and the feedback recorded |
| App.TabContent | src/App.tsx:93-118 | no contract of its own: `renderTabContent`; stated by App.TabContentShape |
| App.TabContentShape | src/App.tsx:93-118 | an unknown tab renders nothing; the dashboard appears only on home with its flag; the carousel only on home |
| App.ChatOnlyOnHome | src/App.tsx:146-152 | the chat bubble is rendered exactly when the carousel is, that is on the home tab only |
| App.FeedbackNotice | src/App.tsx:134-137 | no contract of its own: the notice chosen by `feedback.rating === 'yes'`; stated by App.NoticeFollowsRating |
| App.CommentShown | src/App.tsx:139-143 | no contract of its own: `{feedback.comment && …}`; stated by App.NoticeFollowsRating and App.EmptyCommentHidden |
| App.NoticeFollowsRating | src/App.tsx:129-142 | the positive notice is shown iff the rating is yes, and an empty comment line is hidden |
| App.EmptyCommentHidden | src/App.tsx:138 | a feedback submitted with an untouched comment records `''`, and no comment line is shown |
| RecommendationBanner.Step | src/components/RecommendationBanner.tsx:53-150 | no contract of its own: Prev, Next, the dots and the card buttons; stated by RecommendationBanner.PrevNextClamp, RecommendationBanner.RunInRange and RecommendationBanner.CtaReportsCard |
| RecommendationBanner.ScrollToIndex | src/components/RecommendationBanner.tsx:53-63 | no contract of its own: `scrollToIndex` sets the current index to its argument; stated by RecommendationBanner.PrevNextClamp and RecommendationBanner.RunInRange |
| RecommendationBanner.PrevDisabled | src/components/RecommendationBanner.tsx:91 | no contract of its own: `disabled={currentIndex === 0}`; stated by RecommendationBanner.DisabledIffNoMove |
| RecommendationBanner.NextDisabled | src/components/RecommendationBanner.tsx:98 | no contract of its own: `disabled={currentIndex === recommendations.length - 1}`; stated by RecommendationBanner.DisabledIffNoMove |
| RecommendationBanner.DotActive | src/components/RecommendationBanner.tsx:149 | no contract of its own: `index === currentIndex` marks the active dot; stated by RecommendationBanner.OneActiveDot |
| RecommendationBanner.PrevNextClamp | src/components/RecommendationBanner.tsx:89-96 | Prev moves to `max(0, i-1)` and Next to `min(len-1, i+1)`, staying in range |
| RecommendationBanner.DisabledIffNoMove | src/components/RecommendationBanner.tsx:91-98 | a button is disabled exactly when pressing it would leave the index unchanged |
| RecommendationBanner.OneActiveDot | src/components/RecommendationBanner.tsx:148-149 | exactly one dot is active when the index is in range, none otherwise |
| RecommendationBanner.RunInRange | src/components/RecommendationBanner.tsx:53-63 | buttons and dots keep the index in range from the first card on |
| RecommendationBanner.CtaReportsCard | src/components/RecommendationBanner.tsx:132 | each card's button reports that card's id and leaves the index |
| RecommendationBanner.CardIdsDistinct | src/components/RecommendationBanner.tsx:14-51 | the four ids are distinct |
| RecommendationModal.TrackInteraction | src/components/RecommendationModal.tsx:28-55 | no request iff an id is missing or empty; otherwise a request with both ids and the action, successful iff the response was ok, and never an error |
| RecommendationModal.Handle | src/components/RecommendationModal.tsx:22-125 | no contract of its own: the buttons, with the tracking request settled before the next event; stated by RecommendationModal.ApplyOrder and RecommendationModal.CloseWithoutTracking |
| RecommendationModal.ApplyOrder | src/components/RecommendationModal.tsx:58-61 | Apply Now tracks `converted` first when both ids are present, then calls `onApply` |
| RecommendationModal.OutcomeIrrelevant | src/components/RecommendationModal.tsx:46-54 | how the request ended never changes what the click does |
| RecommendationModal.CloseWithoutTracking | src/components/RecommendationModal.tsx:22 | a closed modal does nothing; Maybe Later and the header close only call `onClose` |
| RecommendationModal.NeverTracksClicked | src/components/RecommendationModal.tsx:59 | no button tracks a plain `clicked` |
| RecommendationModal.SessionStep | src/components/RecommendationModal.tsx:58-61 | no contract of its own: the buttons while tracking requests may still be awaited; stated by the three lemmas below |
| RecommendationModal.EveryPressApplies | src/components/RecommendationModal.tsx:58-61 | every Apply Now press on the open modal calls `onApply` exactly once, now or when its request settles, so two presses during one request call it twice |
| RecommendationModal.SettledAtOnceIsHandle | src/components/RecommendationModal.tsx:58-61 | a request that settles before the next event gives exactly the effects of RecommendationModal.Handle |
| RecommendationModal.CloseWhileAwaited | src/components/RecommendationModal.tsx:58-61 | Maybe Later during the await calls `onClose`, and `onApply` still follows when the request settles |
| RecommendationModal.BenefitIcon | src/components/RecommendationModal.tsx:103 | no contract of its own: `benefitIcons[index % benefitIcons.length]`; stated by RecommendationModal.BenefitIconsCycle |
| RecommendationModal.BenefitIconsCycle | src/components/RecommendationModal.tsx:25 | benefit icons repeat every five benefits and the first five follow the list |
| FeedbackModal.HandleForm | src/components/FeedbackModal.tsx:17-115 | no contract of its own: the form's controls; stated by FeedbackModal.SubmitNeedsSelection, FeedbackModal.SubmitOnce and FeedbackModal.SkipOnlyCloses |
| FeedbackModal.Step | src/components/FeedbackModal.tsx:11-28 | no contract of its own: the reset timer acts always, the controls only while the form is shown; stated by FeedbackModal.StepValid, FeedbackModal.ClosedKeepsState and FeedbackModal.ResetRestores |
| FeedbackModal.StepValid | src/components/FeedbackModal.tsx:17-28 | one event keeps "a reset timer is pending iff the thank-you view is up" |
| FeedbackModal.RunValid | src/components/FeedbackModal.tsx:17-28 | so at most one reset timer is ever pending |
| FeedbackModal.ClosedKeepsState | src/components/FeedbackModal.tsx:11-15 | while closed, the controls do nothing and selection and comment persist |
| FeedbackModal.SubmitDisabled | src/components/FeedbackModal.tsx:115 | no contract of its own: `disabled={!selectedFeedback}`; stated by FeedbackModal.SubmitNeedsSelection |
| FeedbackModal.SubmitNeedsSelection | src/components/FeedbackModal.tsx:18 | submitting with nothing selected does nothing, which is exactly when the button is disabled |
| FeedbackModal.SubmitOnce | src/components/FeedbackModal.tsx:18-20 | a submit reports selection and comment once and enters the thank-you view |
| FeedbackModal.ResetRestores | src/components/FeedbackModal.tsx:21-26 | the reset timer calls `onClose` and clears selection, comment and submitted |
| FeedbackModal.SkipOnlyCloses | src/components/FeedbackModal.tsx:108 | Skip calls `onClose` only |
| FeedbackModal.FeedbackMessage | src/components/FeedbackModal.tsx:30-36 | no contract of its own: `getFeedbackMessage`; stated by FeedbackModal.MessageIffYes |
| FeedbackModal.MessageIffYes | src/components/FeedbackModal.tsx:30-36 | the glad message is given iff the selection is yes |
| TransactionModal.Step | src/components/TransactionModal.tsx:12-75 | no contract of its own: the effect on `isOpen`, its timer and the Done button; stated by TransactionModal.StepValid, TransactionModal.OpenThenTimer and TransactionModal.DoneOnlyOnSuccess |
| TransactionModal.StepValid | src/components/TransactionModal.tsx:15-27 | one event keeps `showSuccess == !isProcessing`, with a timer only while open and processing |
| TransactionModal.RunValid | src/components/TransactionModal.tsx:12-27 | every event sequence keeps that invariant |
| TransactionModal.ReachableValid | src/components/TransactionModal.tsx:12-13 | so it holds in every reachable state |
| TransactionModal.OpenThenTimer | src/components/TransactionModal.tsx:16-23 | opening starts over in processing with the timer armed, and the timer switches to success |
| TransactionModal.CloseCancelsTimer | src/components/TransactionModal.tsx:25 | closing cancels the timer, so a closed modal never changes view |
| TransactionModal.DoneOnlyOnSuccess | src/components/TransactionModal.tsx:52-75 | `onClose` is requested iff Done is pressed in the open success view |
| EnhancedUserProfile.HealthScoreColor | src/components/EnhancedUserProfile.tsx:22-26 | no contract of its own: `getHealthScoreColor`; stated by EnhancedUserProfile.HealthBands, EnhancedUserProfile.SameBands and EnhancedUserProfile.ShownScoreIsEmerald |
| EnhancedUserProfile.HealthScoreTextColor | src/components/EnhancedUserProfile.tsx:28-32 | no contract of its own: `getHealthScoreTextColor`; stated by EnhancedUserProfile.HealthBands and EnhancedUserProfile.SameBands |
| EnhancedUserProfile.HealthBands | src/components/EnhancedUserProfile.tsx:22-32 | emerald iff score ≥ 80, amber iff 60 to 79, red iff below 60, with the text colour naming the same colour |
| EnhancedUserProfile.SameBands | src/components/EnhancedUserProfile.tsx:28-32 | two scores get the same background colour iff they get the same text colour |
| EnhancedUserProfile.ShownScoreIsEmerald | src/components/EnhancedUserProfile.tsx:20 | the score shown, 99, is emerald |
| EnhancedUserProfile.ReadBack | src/components/EnhancedUserProfile.tsx:14 | the number rendered before a unit and " ago" reads back |
| EnhancedUserProfile.HourBucket | src/components/EnhancedUserProfile.tsx:13 | `hours` is the whole-hour bucket of the difference |
| EnhancedUserProfile.DaysFromHours | src/components/EnhancedUserProfile.tsx:14 | flooring hours and then days equals flooring days |
| EnhancedUserProfile.TimeAgo | src/components/EnhancedUserProfile.tsx:11-15 | no contract of its own: `getTimeAgo` on the millisecond difference; stated by EnhancedUserProfile.TimeAgoHours, EnhancedUserProfile.TimeAgoDays and EnhancedUserProfile.TimeAgoBuckets |
| EnhancedUserProfile.TimeAgoHours | src/components/EnhancedUserProfile.tsx:11-14 | below one day, the label reads back as n hours with n·1h ≤ diff < (n+1)·1h |
| EnhancedUserProfile.TimeAgoDays | src/components/EnhancedUserProfile.tsx:14 | from one day on, the label reads back as n ≥ 1 days with n·1d ≤ diff < (n+1)·1d |
| EnhancedUserProfile.TimeAgoBuckets | src/components/EnhancedUserProfile.tsx:11-15 | the label always names the hour or day bucket the difference falls in |
| EnhancedUserProfile.InsideWord | src/components/EnhancedUserProfile.tsx:60 | characters inside a word start nothing |
| EnhancedUserProfile.WordThenSpace | src/components/EnhancedUserProfile.tsx:60 | a word followed by a space contributes its first character |
| EnhancedUserProfile.LastWord | src/components/EnhancedUserProfile.tsx:60 | the last word contributes its first character |
| EnhancedUserProfile.Initials | src/components/EnhancedUserProfile.tsx:60 | no contract of its own: `user.name.split(' ').map(n => n[0]).join('')`; stated by EnhancedUserProfile.InitialsAreWordStarts, EnhancedUserProfile.TwoWords and EnhancedUserProfile.InitialsOfUser |
| EnhancedUserProfile.InitialsAreWordStarts | src/components/EnhancedUserProfile.tsx:60 | the initials are the characters that start a space-separated word, in order |
| EnhancedUserProfile.WordStartsShape | src/components/EnhancedUserProfile.tsx:60 | initials contain no space and are no longer than the name |
| EnhancedUserProfile.TwoWords | src/components/EnhancedUserProfile.tsx:60 | two words give their two first characters |
| EnhancedUserProfile.InitialsOfUser | src/data/userData.ts:4 | the demo user's initials are "OL" |
| UserProfile.TimeAgo | src/components/UserProfile.tsx:11-15 | no contract of its own: the duplicated `getTimeAgo`; stated by UserProfile.TimeAgoAgrees and UserProfile.TimeAgoBuckets |
| UserProfile.Initials | src/components/UserProfile.tsx:22 | no contract of its own: the duplicated initials expression; stated by UserProfile.InitialsAgree |
| UserProfile.TimeAgoAgrees | src/components/UserProfile.tsx:11-15 | this copy of `getTimeAgo` agrees with the other for every difference |
| UserProfile.TimeAgoBuckets | src/components/UserProfile.tsx:13-14 | hours below one day, otherwise days ≥ 1, each the bucket of the difference |
| UserProfile.InitialsAgree | src/components/UserProfile.tsx:22 | this copy's initials agree with the other and are the word-start characters |
| Js.TruthyString | src/App.tsx:55 | no contract of its own: an optional string is truthy iff present and non-empty; stated by App.ApplyRecommendationTracking and RecommendationModal.TrackInteraction |
| Js.TruthyNumber | src/components/SmartBanner.tsx:87 | no contract of its own: an optional number is truthy iff present and non-zero; stated by SmartBanner.IgnoredSwipes |
| Strings.IsSpace | src/components/ChatBubble.tsx:98 | no contract of its own: the white-space and line-terminator characters `trim` removes; stated by Strings.Trim |
| Strings.Join | src/components/ChatBubble.tsx:85 | no contract of its own: the inverse of `split`; stated by Strings.Split and Strings.SplitJoin |
| Strings.ParseInt | src/components/EnhancedUserProfile.tsx:14 | no contract of its own: reads back a rendered integer; stated by Strings.ParseIntToString |
| Strings.ToLower | src/components/ChatBubble.tsx:81 | lowering keeps the length and lowers each ASCII letter in place |
| Strings.IndexOfChar | src/components/ChatBubble.tsx:85 | the first position of the character, or none iff it does not occur |
| Strings.IndexOf | src/components/ChatBubble.tsx:84 | the first position of the pattern, or none iff it does not occur |
| Strings.ReplaceFirst | src/components/ChatBubble.tsx:88-89 | unchanged when the pattern is absent; a leading pattern is replaced |
| Strings.Split | src/components/ChatBubble.tsx:85 | at least one piece, none containing the separator, and joining them gives the input back |
| Strings.SplitJoin | src/components/ChatBubble.tsx:85 | splitting a join of separator-free pieces gives the pieces back |
| Strings.LeadingSpaces | src/components/ChatBubble.tsx:98 | counts exactly the leading white space |
| Strings.TrailingSpaces | src/components/ChatBubble.tsx:98 | counts exactly the trailing white space |
| Strings.Trim | src/components/ChatBubble.tsx:98-104 | the result is a slice with only white space outside it and no white space at either end, and it is empty iff the input is all white space |
| Strings.NatToString | src/components/EnhancedUserProfile.tsx:14 | renders digits without a leading zero that read back as the number |
| Strings.IntToString | src/components/EnhancedUserProfile.tsx:14 | renders a minus sign iff the integer is negative |
| Strings.ParseIntToString | src/components/EnhancedUserProfile.tsx:14 | rendering an integer and reading it back gives the integer |

## Left out

- Timer delays (2 s, 3 s, 30 s, 60 s, 1 s, 2.5 s) and the clock: a timer is an event that can fire at any point, so the models allow more orders than the real delays do.
- Unmounting: the cleanups that run when a component unmounts. ChatBubble is unmounted when the tab leaves home, which resets its conversation; that reset is not modelled.
- The tracking request, its URL and `encodeURIComponent`: the request's outcome is a parameter, and the request is an effect value.
- RecommendationModal.SessionStep: counts the Apply Now presses whose request is still awaited but does not tell apart which request settles first, because each one continues with the same `onApply` call. A press without both ids calls `onApply` at once, since nothing can run between the skipped request and its continuation.
- Console logging, JSX markup, CSS classes, animations, and the backdrop being hidden on large screens.
- Floating point:
  - touch coordinates are integers;
  - `getTimeAgo` takes an integer difference, so rounding of huge differences is not modelled;
  - carousel pixel widths, `handleScroll` and its `Math.round` are not modelled, so the carousel index only changes by buttons and dots;
  - the savings percentage and every `toLocaleString` amount are not modelled.
- Message ids and timestamps built from `Date.now()`, and date parsing in `getTimeAgo`.
- FeedbackModal's thank-you view, which refers to a `CheckCircle` that is never imported. In the app the modal is closed at submit, so the view is not reached.
- The static tabs (insights, notifications, settings, history, dashboard, bottom navigation) are modelled only as the sections a tab shows.
- Strings.ToLower: lowers ASCII letters only, not the full Unicode case mapping of `toLowerCase`.
- Strings.ReplaceFirst: states the absent and the leading-pattern cases, which are the ones the response format uses, not the general middle occurrence.
- Strings.IntToString: states the sign and, through Strings.ParseIntToString, the round trip, not the exact digit layout for negative numbers.
- ChatBubble.ResponsesHaveProductParts: shows that each row has at least three parts because of how the row is built. It does not show that the long literal texts contain no `|`, so ChatBubble.RawRoundTrip is proved for any parts without `|` rather than for the six literal rows.
- EnhancedUserProfile.InitialsAreWordStarts: `n[0]` is modelled as the first `char`, which for a character outside the Basic Multilingual Plane differs from JavaScript's first UTF-16 code unit.

## Findings

| source | as written | input that shows it | evidently intended | confidence | as-written member | corrected member |
|---|---|---|---|---|---|---|
| src/components/SmartBanner.tsx:62-65 | `handleDismiss`, `handleApplyNow` and `handleViewMore` hide the banner but leave `isExpanded` true. The loop effect then arms nothing for (hidden, expanded), and no event can reach a hidden banner again. | mount timer, tap the collapsed banner, press the X of the expanded card | the banner keeps cycling, as it does after a close of the collapsed banner: hiding also collapses, so the reappear timer is armed | medium, not executed | SmartBanner.StrandingReachable | SmartBanner.FixedNeverStranded |

`SmartBanner.Step` models the code as written, and `SmartBanner.StrandedForever`
shows that the state reached is never left. `SmartBanner.FixedStep` is the
same machine except that every hide also collapses the card. For it,
`SmartBanner.FixedRunWillReappear` proves that every hidden state reached
from mounting has its reappear timer armed.

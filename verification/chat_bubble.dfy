/** The scripted assistant of the floating chat bubble: keyword lookup over
    an ordered response table, the product hint attached to each reply, and
    the bubble / panel / message-list transitions. */
module ChatBubble {
  import opened Js
  import opened Strings

  // ---------------------------------------------------------------------
  // The response table
  // ---------------------------------------------------------------------

  /** The rows of the keyword table in declaration order, which is the order
      `Object.entries` visits them in. Each row is a keyword and a raw
      response `key -> raw`. */
  type Table = seq<(string, string)>

  /** A response of the source table written from its three parts: the raw
      response is `text|PRODUCT:<product>|ID:<id>`. */
  datatype Reply = Reply(text: string, product: string, id: string)

  function Raw(e: Reply): string
  {
    e.text + "|PRODUCT:" + e.product + "|ID:" + e.id
  }

  /** The keywords of the source table, in declaration order. */
  const Keywords: seq<string> := [
    "financial health", "savings products", "saving monthly", "investment", "savings goal", "insurance"
  ]

  /** The responses of the source table, in the same order as `Keywords`. */
  const Replies: seq<Reply> := [
    Reply(
      "Great question! Your current financial health score is 99/100 - excellent! To maintain this, continue your 15% savings rate and consider diversifying with our Smart Investment Portfolio. I also recommend setting up automatic transfers to make saving effortless.",
      "Smart Investment Portfolio", "investment-plan"),
    Reply(
      "Based on your profile, I recommend three products: 1) Flexible Savings Plan (12% interest, no lock-in) - perfect for your emergency fund, 2) Fixed Deposit (15% interest, 6-month term) for higher returns, and 3) Target Savings for your ₦50,000 goal with automatic monthly deductions.",
      "Flexible Savings Plan", "flexible-savings"),
    Reply(
      "With your ₦850,000 monthly income, I recommend saving ₦127,500 (15% - which you're already doing!). To reach your ₦50,000 goal in 4 months, save an additional ₦7,500 monthly. This keeps you well within your safe spending limit of ₦70,000 weekly.",
      "Target Savings Plan", "target-savings"),
    Reply(
      "Perfect timing! With your stable income, consider our Smart Investment Portfolio: 40% government bonds (low risk), 35% blue-chip stocks (medium risk), 20% mutual funds (diversified), and 5% tech stocks (growth potential). Minimum investment: ₦10,000. Expected annual return: 18-22%.",
      "Smart Investment Portfolio", "investment-plan"),
    Reply(
      "Excellent goal! To reach ₦50,000 faster: 1) Increase monthly savings by ₦2,500 (reach goal in 3 months), 2) Use our Round-Up feature to save spare change, 3) Set up automatic transfers on salary day, 4) Consider our High-Yield Savings at 15% interest. You're already 10% there!",
      "High-Yield Savings", "high-yield-savings"),
    Reply(
      "Smart thinking! I recommend: 1) Life Insurance (₦2,000/month premium, ₦5M coverage) - essential for SME owners, 2) Health Insurance (₦1,500/month, comprehensive coverage), 3) Business Protection Insurance for your SME. Total monthly cost: ₦3,500 - well within your budget.",
      "Life Insurance Plan", "life-insurance")
  ]

  /** The `responses` object as the loops see it. */
  const Responses: Table := [
    (Keywords[0], Raw(Replies[0])), (Keywords[1], Raw(Replies[1])), (Keywords[2], Raw(Replies[2])),
    (Keywords[3], Raw(Replies[3])), (Keywords[4], Raw(Replies[4])), (Keywords[5], Raw(Replies[5]))
  ]

  const DefaultResponse: string :=
    "That's a great question! Based on your financial profile, I'd recommend scheduling a consultation with our financial advisors for personalized advice. In the meantime, you're doing excellent with your current 15% savings rate and ₦1.2M balance. Keep up the great work!"

  /** The suggested questions, each written around the keyword it names. */
  const TemplateQuestions: seq<string> := [
    "How can I improve my " + "financial health" + " score?",
    "What " + "savings products" + " do you recommend for me?",
    "How much should I be " + "saving monthly" + "?",
    "What " + "investment" + " options are available?",
    "How can I reach my ₦50,000 " + "savings goal" + " faster?",
    "What " + "insurance" + " products do I need?"
  ]

  const IntroText: string :=
    "Hi Oluwasegun! \U{1F44B} I am OMNIS, your AI financial concierge. I've been analyzing your financial profile and I'm impressed - you're doing great with a 99/100 health score! I'm here to help you with savings, investments, financial planning, and reaching your goals. What would you like to know?"

  datatype ProductInfo = ProductInfo(productName: string, productId: string)

  // ---------------------------------------------------------------------
  // Lookup
  // ---------------------------------------------------------------------

  /** Row `k` is the first row whose keyword occurs in `lowered`. */
  ghost predicate IsFirstMatch(table: Table, lowered: string, k: int)
  {
    && 0 <= k < |table|
    && Contains(lowered, table[k].0)
    && forall j :: 0 <= j < k ==> !Contains(lowered, table[j].0)
  }

  predicate NoKeyMatches(table: Table, lowered: string)
  {
    forall j :: 0 <= j < |table| ==> !Contains(lowered, table[j].0)
  }

  /** The index of the first row whose keyword occurs in `lowered`: the
      reference definition of where both lookup loops stop. */
  function FirstMatch(table: Table, lowered: string): (r: Option<nat>)
    ensures r.Some? ==> IsFirstMatch(table, lowered, r.value)
    ensures r.None? <==> NoKeyMatches(table, lowered)
  {
    FirstMatchFrom(table, lowered, 0)
  }

  function FirstMatchFrom(table: Table, lowered: string, from: nat): (r: Option<nat>)
    requires forall j :: 0 <= j < from && j < |table| ==> !Contains(lowered, table[j].0)
    ensures r.Some? ==> IsFirstMatch(table, lowered, r.value)
    ensures r.None? <==> NoKeyMatches(table, lowered)
    decreases |table| - from
  {
    if from >= |table| then None
    else if Contains(lowered, table[from].0) then Some(from)
    else FirstMatchFrom(table, lowered, from + 1)
  }

  /** The reply text of a raw response: `response.split('|')[0]`. */
  function ReplyText(raw: string): string
  {
    Split(raw, '|')[0]
  }

  /** `generateResponse`: the reply text of the first row whose keyword
      occurs in the lower-cased input, or the default reply. */
  function GenerateResponse(table: Table, input: string): (r: string)
    ensures forall k :: IsFirstMatch(table, ToLower(input), k) ==> r == ReplyText(table[k].1)
    ensures NoKeyMatches(table, ToLower(input)) ==> r == DefaultResponse
  {
    ScanResponses(table, ToLower(input), 0)
  }

  /** The `for … of` loop of `generateResponse`, from row `from` on. */
  function ScanResponses(table: Table, lowered: string, from: nat): (r: string)
    requires forall j :: 0 <= j < from && j < |table| ==> !Contains(lowered, table[j].0)
    ensures forall k :: IsFirstMatch(table, lowered, k) ==> r == ReplyText(table[k].1)
    ensures NoKeyMatches(table, lowered) ==> r == DefaultResponse
    decreases |table| - from
  {
    if from >= |table| then DefaultResponse
    else if Contains(lowered, table[from].0) then ReplyText(table[from].1)
    else ScanResponses(table, lowered, from + 1)
  }

  /** A raw response has the product and id parts `getProductInfo` reads. */
  predicate HasProductParts(raw: string)
  {
    |Split(raw, '|')| >= 3
  }

  /** The product hint of a raw response: the second and third parts with
      their `PRODUCT:` / `ID:` markers removed (first occurrence only). */
  function ProductOf(raw: string): ProductInfo
    requires HasProductParts(raw)
  {
    var parts := Split(raw, '|');
    ProductInfo(ReplaceFirst(parts[1], "PRODUCT:", ""), ReplaceFirst(parts[2], "ID:", ""))
  }

  /** Row `j` is one `getProductInfo` returns from: its keyword matches and
      its response has at least three parts. */
  predicate Usable(table: Table, lowered: string, j: int)
  {
    0 <= j < |table| && Contains(lowered, table[j].0) && HasProductParts(table[j].1)
  }

  /** `getProductInfo`: the product hint of the first usable row, or `null`
      (`None`) when no row is usable. A matching row with fewer than three
      parts is skipped, not returned. */
  function GetProductInfo(table: Table, input: string): (r: Option<ProductInfo>)
    ensures r.None? <==> forall j :: 0 <= j < |table| ==> !Usable(table, ToLower(input), j)
    ensures r.Some? ==> exists k :: FirstUsable(table, ToLower(input), k) && r.value == ProductOf(table[k].1)
  {
    ScanProducts(table, ToLower(input), 0)
  }

  ghost predicate FirstUsable(table: Table, lowered: string, k: int)
  {
    Usable(table, lowered, k) && forall j :: 0 <= j < k ==> !Usable(table, lowered, j)
  }

  /** The `for … of` loop of `getProductInfo`, from row `from` on. */
  function ScanProducts(table: Table, lowered: string, from: nat): (r: Option<ProductInfo>)
    requires forall j :: 0 <= j < from ==> !Usable(table, lowered, j)
    ensures r.None? <==> forall j :: 0 <= j < |table| ==> !Usable(table, lowered, j)
    ensures r.Some? ==> exists k :: FirstUsable(table, lowered, k) && r.value == ProductOf(table[k].1)
    decreases |table| - from
  {
    if from >= |table| then None
    else if Contains(lowered, table[from].0) && HasProductParts(table[from].1) then
      assert Usable(table, lowered, from);
      Some(ProductOf(table[from].1))
    else ScanProducts(table, lowered, from + 1)
  }

  /** Both lookups stop at the first row whose keyword matches:
      `getProductInfo` is `null` exactly when `generateResponse` falls back
      to the default reply, and otherwise both read that row. */
  ghost predicate LookupsAgree(table: Table, input: string)
  {
    match FirstMatch(table, ToLower(input))
    case None =>
      GetProductInfo(table, input) == None && GenerateResponse(table, input) == DefaultResponse
    case Some(k) =>
      && k < |table|
      && HasProductParts(table[k].1)
      && GetProductInfo(table, input) == Some(ProductOf(table[k].1))
      && GenerateResponse(table, input) == ReplyText(table[k].1)
  }

  /** When every response has at least three parts, the two lookups agree. */
  lemma SameRowSelected(table: Table, input: string)
    requires forall j :: 0 <= j < |table| ==> HasProductParts(table[j].1)
    ensures LookupsAgree(table, input)
  {
    SameRowScanned(table, ToLower(input));
  }

  lemma SameRowScanned(table: Table, lowered: string)
    requires forall j :: 0 <= j < |table| ==> HasProductParts(table[j].1)
    ensures match FirstMatch(table, lowered)
      case None =>
        ScanProducts(table, lowered, 0) == None && ScanResponses(table, lowered, 0) == DefaultResponse
      case Some(k) =>
        && ScanProducts(table, lowered, 0) == Some(ProductOf(table[k].1))
        && ScanResponses(table, lowered, 0) == ReplyText(table[k].1)
  {
    match FirstMatch(table, lowered)
    case None =>
      assert forall j :: 0 <= j < |table| ==> !Usable(table, lowered, j);
    case Some(k) =>
      assert Usable(table, lowered, k);
      var info := ScanProducts(table, lowered, 0);
      var k' :| FirstUsable(table, lowered, k') && info.value == ProductOf(table[k'].1);
      assert k' <= k;
      assert Contains(lowered, table[k'].0);
      assert k' == k;
  }

  /** A response with two separators at distinct positions splits into at
      least three parts. */
  lemma {:induction false} TwoSeparatorsThreeParts(s: string, sep: char, i: nat, j: nat)
    requires i < j < |s| && s[i] == sep && s[j] == sep
    ensures |Split(s, sep)| >= 3
  {
    var f := IndexOfChar(s, sep).value;
    var rest := s[f + 1..];
    assert rest[j - f - 1] == sep;
    assert |Split(rest, sep)| >= 2;
  }

  /** Every row written from its parts has at least three parts, whatever
      its text holds. */
  lemma RawHasProductParts(e: Reply)
    ensures HasProductParts(Raw(e))
  {
    var s := Raw(e);
    var i := |e.text|;
    var j := |e.text| + 9 + |e.product|;
    assert s[i] == '|';
    assert s[j] == '|';
    TwoSeparatorsThreeParts(s, '|', i, j);
  }

  /** For a row whose parts contain no separator, the lookups read exactly
      its text, product name and product id. */
  lemma {:induction false} RawRoundTrip(e: Reply)
    requires '|' !in e.text && '|' !in e.product && '|' !in e.id
    ensures ReplyText(Raw(e)) == e.text
    ensures HasProductParts(Raw(e)) && ProductOf(Raw(e)) == ProductInfo(e.product, e.id)
  {
    var parts := [e.text, "PRODUCT:" + e.product, "ID:" + e.id];
    assert parts[1..][1..] == [parts[2]];
    assert Join(parts[1..], '|') == parts[1] + ['|'] + parts[2];
    assert Join(parts, '|') == Raw(e);
    SplitJoin(parts, '|');
  }

  /** In the source table both lookups always agree on the row. */
  lemma SourceTableLookupsAgree(input: string)
    ensures LookupsAgree(Responses, input)
  {
    ResponsesHaveProductParts();
    SameRowSelected(Responses, input);
  }

  lemma ResponsesHaveProductParts()
    ensures forall j :: 0 <= j < |Responses| ==> HasProductParts(Responses[j].1)
  {
    forall j | 0 <= j < |Responses| ensures HasProductParts(Responses[j].1) {
      RawHasProductParts(Replies[j]);
    }
  }

  /** A keyword without upper-case letters that occurs in the input also
      occurs in the lower-cased input. */
  lemma OccursInLowered(input: string, key: string, pos: nat)
    requires OccursAt(input, key, pos)
    requires forall c :: c in key ==> !IsUpperAscii(c)
    ensures Contains(ToLower(input), key)
  {
    var lowered := ToLower(input);
    assert lowered[pos..pos + |key|] == key by {
      forall k | 0 <= k < |key| ensures lowered[pos + k] == key[k] {
        assert input[pos + k] == key[k];
      }
    }
    assert OccursAt(lowered, key, pos);
  }

  /** Where the i-th suggested question names the i-th keyword. */
  function KeywordPosition(i: nat): nat
  {
    if i == 4 then 27 else if i == 0 || i == 2 then 21 else 5
  }

  /** A question written as prefix, keyword and suffix names the keyword
      right after the prefix. */
  lemma NamedAfter(q: string, prefix: string, key: string, suffix: string)
    requires q == prefix + key + suffix
    ensures OccursAt(q, key, |prefix|)
  {
    assert q[|prefix|..|prefix| + |key|] == key;
  }

  lemma TemplateNamesKeyword(i: nat)
    requires i < |TemplateQuestions|
    ensures OccursAt(TemplateQuestions[i], Keywords[i], KeywordPosition(i))
  {
    if i == 0 {
      NamedAfter(TemplateQuestions[0], "How can I improve my ", Keywords[0], " score?");
    } else if i == 1 {
      NamedAfter(TemplateQuestions[1], "What ", Keywords[1], " do you recommend for me?");
    } else if i == 2 {
      NamedAfter(TemplateQuestions[2], "How much should I be ", Keywords[2], "?");
    } else if i == 3 {
      NamedAfter(TemplateQuestions[3], "What ", Keywords[3], " options are available?");
    } else if i == 4 {
      NamedAfter(TemplateQuestions[4], "How can I reach my ₦50,000 ", Keywords[4], " faster?");
    } else {
      NamedAfter(TemplateQuestions[5], "What ", Keywords[5], " products do I need?");
    }
  }

  lemma KeywordsLowerCase(i: nat)
    requires i < |Keywords|
    ensures forall c :: c in Keywords[i] ==> !IsUpperAscii(c)
  {
  }

  /** Every suggested question hits some keyword, so none of them gets the
      default reply. */
  lemma TemplatesAllMatch()
    ensures forall i :: 0 <= i < |TemplateQuestions| ==> FirstMatch(Responses, ToLower(TemplateQuestions[i])).Some?
  {
    forall i | 0 <= i < |TemplateQuestions|
      ensures FirstMatch(Responses, ToLower(TemplateQuestions[i])).Some?
    {
      TemplateNamesKeyword(i);
      KeywordsLowerCase(i);
      OccursInLowered(TemplateQuestions[i], Keywords[i], KeywordPosition(i));
      assert Responses[i].0 == Keywords[i];
    }
  }

  // ---------------------------------------------------------------------
  // Bubble, panel and conversation
  // ---------------------------------------------------------------------

  datatype Sender = FromUser | FromBot

  /** A chat message; ids and timestamps are not modelled. */
  datatype Message = Message(sender: Sender, content: string, productInfo: Option<ProductInfo>)

  /** The component's state. `replies` holds the bot messages whose
      one-second timers are still pending, oldest first: the timers all have
      the same delay, so they fire in the order they were set. */
  datatype State = State(
    visible: bool,
    expanded: bool,
    panel: bool,
    messages: seq<Message>,
    input: string,
    replies: seq<Message>)

  datatype Event =
    | Appear                  // the two-second mount timer fires
    | OpenCard                // tap on the collapsed icon
    | CloseCard               // close button of the recommendation card
    | MaybeLater
    | ViewRecommendation
    | Backdrop
    | ClosePanel              // close button of the chat panel
    | Type(text: string)      // the input field changes
    | Send                    // Enter or the send button
    | AskTemplate(index: nat) // one of the suggested questions
    | ReplyDue                // the oldest pending reply timer fires

  /** The new state and whether `onViewRecommendation` was called. */
  datatype Output = Output(state: State, viewRequested: bool)

  const Init: State := State(false, false, false, [], "", [])

  const IntroMessage: Message := Message(FromBot, IntroText, None)

  /** The bot message answering `content`. */
  function BotReply(content: string): Message
  {
    Message(FromBot, GenerateResponse(Responses, content), GetProductInfo(Responses, content))
  }

  /** `handleSendMessage(content)`. */
  function SendMessage(s: State, content: string): State
  {
    if Trim(content) == "" then s
    else
      s.(messages := s.messages + [Message(FromUser, Trim(content), None)],
         input := "",
         replies := s.replies + [BotReply(content)])
  }

  /** `handleTemplateQuestion(question)`: no blank check, input kept. */
  function AskQuestion(s: State, question: string): State
  {
    s.(messages := s.messages + [Message(FromUser, Trim(question), None)],
       replies := s.replies + [BotReply(question)])
  }

  /** The suggested questions are on screen. */
  predicate TemplatesShown(s: State)
  {
    s.panel && |s.messages| == 1
  }

  /** The effect on `showChatPanel`: when the panel has just opened on an
      empty conversation, the introduction is posted. */
  function OpenEffect(before: State, after: State): State
  {
    if after.panel && !before.panel && after.messages == [] then after.(messages := [IntroMessage])
    else after
  }

  /** The handlers of the rendered elements. */
  function Handle(s: State, e: Event): Output
  {
    match e
    case OpenCard => Output(s.(expanded := true), false)
    case CloseCard => Output(s.(expanded := false), false)
    case MaybeLater =>
      if s.expanded then Output(s.(expanded := false, panel := true), false) else Output(s, false)
    case ViewRecommendation =>
      if s.expanded then Output(s.(expanded := false), true) else Output(s, false)
    case Backdrop => Output(s.(expanded := false, panel := false), false)
    case ClosePanel => Output(s.(panel := false), false)
    case Type(text) => Output(if s.panel then s.(input := text) else s, false)
    case Send => Output(if s.panel then SendMessage(s, s.input) else s, false)
    case AskTemplate(i) =>
      Output(if TemplatesShown(s) && i < |TemplateQuestions| then AskQuestion(s, TemplateQuestions[i]) else s, false)
    case _ => Output(s, false)
  }

  /** One event. Timers act whether or not anything is rendered; the
      elements' handlers only while the component is visible. */
  function Step(s: State, e: Event): Output
  {
    match e
    case Appear => Output(s.(visible := true), false)
    case ReplyDue =>
      if |s.replies| == 0 then Output(s, false)
      else Output(s.(messages := s.messages + [s.replies[0]], replies := s.replies[1..]), false)
    case _ =>
      if !s.visible then Output(s, false)
      else
        var o := Handle(s, e);
        Output(OpenEffect(s, o.state), o.viewRequested)
  }

  function Run(s: State, events: seq<Event>): State
    decreases |events|
  {
    if |events| == 0 then s else Run(Step(s, events[0]).state, events[1..])
  }

  /** Sending white space only changes nothing. */
  lemma SendIgnoresBlank(s: State)
    requires s.visible && s.panel && AllSpace(s.input)
    ensures Step(s, Send) == Output(s, false)
  {
  }

  /** Sending anything else appends exactly one user message holding the
      trimmed input, clears the input and queues the bot's answer to the
      untrimmed input. */
  lemma SendAppendsUserMessage(s: State)
    requires s.visible && s.panel && !AllSpace(s.input)
    ensures var r := Step(s, Send).state;
      && |r.messages| == |s.messages| + 1
      && r.messages[..|s.messages|] == s.messages
      && r.messages[|s.messages|].sender == FromUser
      && r.messages[|s.messages|].content != ""
      && TrimmedFrom(s.input, r.messages[|s.messages|].content)
      && r.input == ""
      && r.replies == s.replies + [BotReply(s.input)]
      && r.panel && r.expanded == s.expanded
  {
  }

  /** Two events in a row; a proof step of `ReplyFollowsQuestion`. */
  lemma RunTwo(s: State, a: Event, b: Event)
    ensures Run(s, [a, b]) == Step(Step(s, a).state, b).state
  {
    assert [a, b][1..] == [b];
    assert Run(Step(s, a).state, [b]) == Run(Step(Step(s, a).state, b).state, []);
  }

  /** A reply timer moves the oldest pending reply into the conversation;
      a proof step of `ReplyFollowsQuestion`. */
  lemma ReplyDueDelivers(s: State)
    requires |s.replies| > 0
    ensures Step(s, ReplyDue).state == s.(messages := s.messages + [s.replies[0]], replies := s.replies[1..])
  {
  }

  /** The state after sending a non-blank input; a proof step of
      `ReplyFollowsQuestion`. */
  lemma SendQueues(s: State)
    requires s.visible && s.panel && !AllSpace(s.input)
    ensures Step(s, Send).state
      == s.(messages := s.messages + [Message(FromUser, Trim(s.input), None)], input := "",
            replies := s.replies + [BotReply(s.input)])
  {
  }

  /** With no reply pending, a send followed by its timer leaves the user
      message and then the bot's answer at the end of the conversation. */
  lemma ReplyFollowsQuestion(s: State)
    requires s.visible && s.panel && !AllSpace(s.input) && s.replies == []
    ensures Run(s, [Send, ReplyDue]).messages
      == s.messages + [Message(FromUser, Trim(s.input), None), BotReply(s.input)]
    ensures Run(s, [Send, ReplyDue]).replies == []
  {
    var user := Message(FromUser, Trim(s.input), None);
    var bot := BotReply(s.input);
    var s1 := s.(messages := s.messages + [user], input := "", replies := [bot]);
    SendQueues(s);
    assert s.replies + [bot] == [bot];
    ReplyDueDelivers(s1);
    RunTwo(s, Send, ReplyDue);
    assert s1.messages + [bot] == s.messages + [user, bot];
  }

  /** `n` reply timers in a row. */
  function Ticks(n: nat): seq<Event>
  {
    if n == 0 then [] else [ReplyDue] + Ticks(n - 1)
  }

  /** Every answer waits the same second, so the timers fire in the order
      the questions were asked: `n` of them deliver the `n` oldest pending
      answers, in order, and change nothing else. */
  lemma {:induction false} RepliesInOrder(s: State, n: nat)
    requires n <= |s.replies|
    ensures Run(s, Ticks(n)) == s.(messages := s.messages + s.replies[..n], replies := s.replies[n..])
    decreases n
  {
    if n == 0 {
      assert s.replies[..0] == [] && s.replies[0..] == s.replies;
      assert s.messages + [] == s.messages;
    } else {
      var s1 := s.(messages := s.messages + [s.replies[0]], replies := s.replies[1..]);
      assert Ticks(n)[0] == ReplyDue && Ticks(n)[1..] == Ticks(n - 1);
      assert Step(s, ReplyDue).state == s1;
      RepliesInOrder(s1, n - 1);
      assert s1.replies[..n - 1] == s.replies[1..n];
      assert s1.replies[n - 1..] == s.replies[n..];
      assert s.replies[..n] == [s.replies[0]] + s.replies[1..n];
      assert s1.messages + s1.replies[..n - 1] == s.messages + s.replies[..n];
    }
  }

  /** Maybe Later collapses the card and opens the panel; the introduction
      is posted exactly when the conversation was empty. */
  lemma MaybeLaterOpensPanel(s: State)
    requires s.visible && s.expanded && !s.panel
    ensures var r := Step(s, MaybeLater).state;
      && !r.expanded && r.panel
      && r.messages == (if s.messages == [] then [IntroMessage] else s.messages)
  {
  }

  /** Apart from sending, asking and reply timers, the conversation only
      changes by the introduction being posted when the panel opens on an
      empty conversation. */
  lemma IntroOnlyOnOpening(s: State, e: Event)
    requires !(e.Send? || e.AskTemplate? || e.ReplyDue?)
    ensures var r := Step(s, e).state;
      r.messages != s.messages ==>
        && s.messages == [] && r.messages == [IntroMessage]
        && !s.panel && r.panel
  {
  }

  /** View Recommendation calls `onViewRecommendation` and collapses the
      card; the backdrop closes both the card and the panel. */
  lemma CardButtons(s: State)
    requires s.visible && s.expanded
    ensures Step(s, ViewRecommendation) == Output(s.(expanded := false), true)
    ensures var r := Step(s, Backdrop).state; !r.expanded && !r.panel && r.messages == s.messages
  {
  }

  /** A suggested question is only taken while exactly one message is
      shown; asking it appends one user message, which hides the
      suggestions. */
  lemma TemplateHidesSuggestions(s: State, i: nat)
    requires s.visible && i < |TemplateQuestions|
    ensures !TemplatesShown(s) ==> Step(s, AskTemplate(i)).state == s
    ensures TemplatesShown(s) ==>
      var r := Step(s, AskTemplate(i)).state;
      && |r.messages| == 2 && r.messages[0] == s.messages[0]
      && r.messages[1].sender == FromUser
      && !TemplatesShown(r)
      && r.replies == s.replies + [BotReply(TemplateQuestions[i])]
  {
  }

  /** Nothing the user does reaches the component before it appears. */
  lemma HiddenIgnoresInput(s: State, e: Event)
    requires !s.visible && !e.Appear? && !e.ReplyDue?
    ensures Step(s, e) == Output(s, false)
  {
  }
}

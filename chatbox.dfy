/** The `ChatBox` component of src/app/components/chatbox.tsx: a transcript,
    a question buffer, an article buffer and two busy flags, changed by
    `handleSend` and `handleUploadClick`. Each async handler is split at its
    `fetch`: a start step (everything before the request is issued, returning
    the request body or nothing) and a settle step (everything after, taking
    the outcome of the request as a parameter). */
module ChatBox {
  import opened Whitespace
  import opened Transcript

  const Greeting: string := "Hi there! Upload an article below to begin (paste in the text)."
  const SendError: string := "Error: Failed to get a response from backend."
  const EmptyArticleNotice: string := "Cannot upload empty article."
  const UploadError: string := "Failed to upload article."
  const NoSummary: string := "No summary provided."

  /** The component's five pieces of state. */
  datatype Chat = Chat(messages: seq<Message>, input: string, articleInput: string,
                       isUploading: bool, isSending: bool)

  /** The state on first render. */
  const Initial: Chat := Chat([Message(Bot, Greeting)], "", "", false, false)

  /** The state after a start step, and the request it issued, if any. */
  datatype Step = Step(next: Chat, request: Option<Request>)

  /** `handleSend` up to its `fetch`. A blank question is ignored; otherwise
      the question, untrimmed, is appended as a user message and sent, the
      buffer is cleared and the send flag is raised. */
  function StartSend(c: Chat): (r: Step)
    ensures r.request == None <==> IsBlank(c.input)
    ensures r.request == None ==> r.next == c
    ensures r.request != None ==>
      && r.request == Some(Ask(c.input))
      && r.next.messages == c.messages + [Message(User, c.input)]
      && r.next.input == "" && r.next.isSending
      && r.next.articleInput == c.articleInput && r.next.isUploading == c.isUploading
  {
    if Trim(c.input) == "" then Step(c, None)
    else
      var userMessage := Message(User, c.input);
      Step(c.(messages := c.messages + [userMessage], input := "", isSending := true),
           Some(Ask(userMessage.text)))
  }

  /** The bot's reply to a settled chat request. */
  function ReplyText(outcome: ChatOutcome): string {
    match outcome
    case Answered(response) => response
    case ChatFailed => SendError
  }

  /** `handleSend` after its `fetch` settles: exactly one bot message is
      appended (the response, or the fixed error text), then the send flag
      is cleared; the article side is untouched. */
  function SettleSend(c: Chat, outcome: ChatOutcome): (r: Chat)
    ensures Extends(c.messages, r.messages) && |r.messages| == |c.messages| + 1
    ensures r.messages[|c.messages|].sender == Bot
    ensures outcome.Answered? ==> r.messages[|c.messages|].text == outcome.response
    ensures outcome.ChatFailed? ==> r.messages[|c.messages|].text == SendError
    ensures !r.isSending
    ensures r.input == c.input && r.articleInput == c.articleInput && r.isUploading == c.isUploading
  {
    c.(messages := c.messages + [Message(Bot, ReplyText(outcome))], isSending := false)
  }

  /** `handleUploadClick` up to its `fetch`. A blank article gets a fixed
      notice and no request, leaving the buffer and the flag alone; otherwise
      the trimmed article is sent, the buffer is cleared and the upload flag
      is raised, with the transcript unchanged until the request settles. */
  function StartUpload(c: Chat): (r: Step)
    ensures r.request == None <==> IsBlank(c.articleInput)
    ensures r.request == None ==>
      r.next == c.(messages := c.messages + [Message(Bot, EmptyArticleNotice)])
    ensures r.request != None ==>
      && r.request == Some(Upsert(Trim(c.articleInput)))
      && r.request.value.article != "" && IsTrimmed(r.request.value.article)
      && r.next.messages == c.messages
      && r.next.articleInput == "" && r.next.isUploading
      && r.next.input == c.input && r.next.isSending == c.isSending
  {
    if Trim(c.articleInput) == "" then
      Step(c.(messages := c.messages + [Message(Bot, EmptyArticleNotice)]), None)
    else
      var articleToSend := Trim(c.articleInput);
      Step(c.(articleInput := "", isUploading := true), Some(Upsert(articleToSend)))
  }

  /** `data.summary || "No summary provided."`: a missing or empty summary
      falls back to the fixed text. */
  function SummaryOrFallback(summary: Option<string>): (r: string)
    ensures summary == None || summary == Some("") ==> r == NoSummary
    ensures summary != None && summary != Some("") ==> r == summary.value
  {
    match summary
    case Some(s) => if s != "" then s else NoSummary
    case None => NoSummary
  }

  /** The three messages a successful upload appends, in order. */
  function UploadedMessages(numChunks: string, summary: Option<string>, article: string): seq<Message> {
    [ Message(Bot, "Article uploaded with " + numChunks + " chunks."),
      Message(Bot, "TL;DR Summary:\n\n" + SummaryOrFallback(summary)),
      Message(Bot, "Article Content:\n\n" + article) ]
  }

  /** `handleUploadClick` after its `fetch` settles, for the article it sent:
      success appends the chunk count, the summary and the article echo, in
      that order; failure appends one fixed error; either way the upload flag
      ends cleared and the question side is untouched. */
  function SettleUpload(c: Chat, article: string, outcome: UploadOutcome): (r: Chat)
    ensures Extends(c.messages, r.messages)
    ensures outcome.UploadFailed? ==> r.messages == c.messages + [Message(Bot, UploadError)]
    ensures outcome.Ingested? ==>
      var n := |c.messages|;
      && |r.messages| == n + 3
      && r.messages[n] == Message(Bot, "Article uploaded with " + outcome.numChunks + " chunks.")
      && r.messages[n + 1] == Message(Bot, "TL;DR Summary:\n\n" + SummaryOrFallback(outcome.summary))
      && r.messages[n + 2] == Message(Bot, "Article Content:\n\n" + article)
    ensures !r.isUploading
    ensures r.input == c.input && r.articleInput == c.articleInput && r.isSending == c.isSending
  {
    match outcome
    case Ingested(numChunks, summary) =>
      c.(messages := c.messages + UploadedMessages(numChunks, summary, article), isUploading := false)
    case UploadFailed =>
      c.(messages := c.messages + [Message(Bot, UploadError)], isUploading := false)
  }

  /** What can happen to the component: the user edits a buffer or clicks a
      button, or an issued request settles. */
  datatype Event =
    | TypeQuestion(text: string)
    | TypeArticle(text: string)
    | ClickSend
    | ClickUpload
    | SendSettled(reply: ChatOutcome)
    | UploadSettled(article: string, result: UploadOutcome)

  /** One event, as one atomic step. */
  function Apply(c: Chat, e: Event): Step {
    match e
    case TypeQuestion(text) => Step(c.(input := text), None)
    case TypeArticle(text) => Step(c.(articleInput := text), None)
    case ClickSend => StartSend(c)
    case ClickUpload => StartUpload(c)
    case SendSettled(outcome) => Step(SettleSend(c, outcome), None)
    case UploadSettled(article, outcome) => Step(SettleUpload(c, article, outcome), None)
  }

  function Issued(request: Option<Request>): seq<Request> {
    if request.Some? then [request.value] else []
  }

  /** The state after a sequence of events, and the requests issued on the way. */
  datatype Trace = Trace(final: Chat, issued: seq<Request>)

  function Run(c: Chat, events: seq<Event>): Trace
    decreases |events|
  {
    if events == [] then Trace(c, [])
    else
      var step := Apply(c, events[0]);
      var rest := Run(step.next, events[1..]);
      Trace(rest.final, Issued(step.request) + rest.issued)
  }

  /** Every event only appends to the transcript. */
  lemma ApplyOnlyAppends(c: Chat, e: Event)
    ensures Extends(c.messages, Apply(c, e).next.messages)
  {
  }

  /** The only user message an event appends is the question it sends. */
  lemma ApplyShowsWhatItAsks(c: Chat, e: Event)
    ensures UserTexts(Apply(c, e).next.messages) == UserTexts(c.messages) + Questions(Issued(Apply(c, e).request))
  {
    match e
    case ClickSend =>
      if !IsBlank(c.input) {
        UserTextsOfUser(c.messages, c.input);
      }
    case ClickUpload =>
      if IsBlank(c.articleInput) {
        UserTextsOfBots(c.messages, [Message(Bot, EmptyArticleNotice)]);
      }
    case SendSettled(reply) =>
      UserTextsOfBots(c.messages, [Message(Bot, ReplyText(reply))]);
    case UploadSettled(article, result) =>
      UploadSettledShowsNothing(c, article, result);
    case _ =>
  }

  lemma UploadSettledShowsNothing(c: Chat, article: string, result: UploadOutcome)
    ensures UserTexts(SettleUpload(c, article, result).messages) == UserTexts(c.messages)
  {
    match result {
      case Ingested(n, summary) =>
        UserTextsOfBots(c.messages, UploadedMessages(n, summary, article));
      case UploadFailed =>
        UserTextsOfBots(c.messages, [Message(Bot, UploadError)]);
    }
  }

  /** Every request an event issues is well formed. */
  lemma ApplyIssuesWellFormed(c: Chat, e: Event)
    ensures forall r :: r in Issued(Apply(c, e).request) ==> WellFormed(r)
  {
  }

  /** Over any sequence of events the transcript is only appended to. */
  lemma {:induction false} RunOnlyAppends(c: Chat, events: seq<Event>)
    ensures Extends(c.messages, Run(c, events).final.messages)
    decreases |events|
  {
    if events != [] {
      var step := Apply(c, events[0]);
      ApplyOnlyAppends(c, events[0]);
      RunOnlyAppends(step.next, events[1..]);
      ExtendsTransitive(c.messages, step.next.messages, Run(step.next, events[1..]).final.messages);
    }
  }

  /** Unfolds Run once. */
  lemma RunUnfold(c: Chat, events: seq<Event>)
    requires events != []
    ensures var step := Apply(c, events[0]); var rest := Run(step.next, events[1..]);
      Run(c, events) == Trace(rest.final, Issued(step.request) + rest.issued)
  {
  }

  /** The inductive step of RunShowsWhatItAsks: one event in front of a run
      that already shows what it asks. */
  lemma ShowsStep(c: Chat, e: Event, rest: Trace)
    requires UserTexts(rest.final.messages) == UserTexts(Apply(c, e).next.messages) + Questions(rest.issued)
    ensures UserTexts(rest.final.messages) == UserTexts(c.messages) + Questions(Issued(Apply(c, e).request) + rest.issued)
  {
    ApplyShowsWhatItAsks(c, e);
    QuestionsAppend(Issued(Apply(c, e).request), rest.issued);
  }

  /** Over any sequence of events the user messages appended are exactly the
      questions sent, in the order they were sent. */
  lemma {:induction false} RunShowsWhatItAsks(c: Chat, events: seq<Event>)
    ensures UserTexts(Run(c, events).final.messages) == UserTexts(c.messages) + Questions(Run(c, events).issued)
    decreases |events|
  {
    if events == [] {
      assert UserTexts(c.messages) + [] == UserTexts(c.messages);
    } else {
      var step := Apply(c, events[0]);
      RunShowsWhatItAsks(step.next, events[1..]);
      ShowsStep(c, events[0], Run(step.next, events[1..]));
      RunUnfold(c, events);
    }
  }

  /** Over any sequence of events every request issued is well formed. */
  lemma {:induction false} RunIssuesWellFormed(c: Chat, events: seq<Event>)
    ensures forall r :: r in Run(c, events).issued ==> WellFormed(r)
    decreases |events|
  {
    if events != [] {
      var step := Apply(c, events[0]);
      ApplyIssuesWellFormed(c, events[0]);
      RunIssuesWellFormed(step.next, events[1..]);
    }
  }

  /** From the first render on, the greeting stays the first message. */
  lemma GreetingStaysFirst(events: seq<Event>)
    ensures var ms := Run(Initial, events).final.messages;
      |ms| >= 1 && ms[0] == Message(Bot, Greeting)
  {
    RunOnlyAppends(Initial, events);
  }

  /** Typing a non-blank question and clicking send, in front of any run. */
  lemma AskThenRun(c: Chat, q: string, rest: seq<Event>)
    requires !IsBlank(q)
    ensures var t := Run(c.(messages := c.messages + [Message(User, q)], input := "", isSending := true), rest);
      Run(c, [TypeQuestion(q), ClickSend] + rest) == Trace(t.final, [Ask(q)] + t.issued)
  {
    var events := [TypeQuestion(q), ClickSend] + rest;
    assert events[1..] == [ClickSend] + rest;
    assert events[1..][1..] == rest;
  }

  /** A question answered: the user message appears when it is sent, the
      reply after it settles, and at the end the buffer is empty and the
      send flag is down. */
  lemma AskScenario(c: Chat, q: string, reply: string)
    requires !IsBlank(q)
    ensures var t := Run(c, [TypeQuestion(q), ClickSend] + [SendSettled(Answered(reply))]);
      && t.issued == [Ask(q)]
      && t.final == c.(messages := c.messages + [Message(User, q), Message(Bot, reply)],
                       input := "", isSending := false)
  {
    var c2 := c.(messages := c.messages + [Message(User, q)], input := "", isSending := true);
    var c3 := c2.(messages := c2.messages + [Message(Bot, reply)], isSending := false);
    assert Run(c2, [SendSettled(Answered(reply))]) == Trace(c3, []) by {
      assert [SendSettled(Answered(reply))][1..] == [];
    }
    AskThenRun(c, q, [SendSettled(Answered(reply))]);
    assert c3.messages == c.messages + [Message(User, q), Message(Bot, reply)];
  }

  /** An article uploaded: nothing is shown until the request settles, then
      the chunk count, the summary and the trimmed article, in that order;
      at the end the buffer is empty and the upload flag is down. */
  lemma UploadScenario(c: Chat, article: string, chunks: string, summary: Option<string>)
    requires !IsBlank(article)
    ensures var t := Run(c, [TypeArticle(article), ClickUpload]
                            + [UploadSettled(Trim(article), Ingested(chunks, summary))]);
      && t.issued == [Upsert(Trim(article))]
      && t.final == c.(messages := c.messages + UploadedMessages(chunks, summary, Trim(article)),
                       articleInput := "", isUploading := false)
  {
    var sent := Trim(article);
    var c2 := c.(articleInput := "", isUploading := true);
    var c3 := c2.(messages := c2.messages + UploadedMessages(chunks, summary, sent), isUploading := false);
    var events := [TypeArticle(article), ClickUpload] + [UploadSettled(sent, Ingested(chunks, summary))];
    assert Run(c2, [UploadSettled(sent, Ingested(chunks, summary))]) == Trace(c3, []) by {
      assert [UploadSettled(sent, Ingested(chunks, summary))][1..] == [];
    }
    assert events[1..][1..] == [UploadSettled(sent, Ingested(chunks, summary))];
  }

  /** A blank article: one notice, no request, the buffer kept as typed. */
  lemma BlankArticleScenario(c: Chat, article: string)
    requires IsBlank(article)
    ensures var t := Run(c, [TypeArticle(article), ClickUpload]);
      && t.issued == []
      && t.final == c.(messages := c.messages + [Message(Bot, EmptyArticleNotice)], articleInput := article)
  {
    assert [TypeArticle(article), ClickUpload][1..] == [ClickUpload];
    assert [ClickUpload][1..] == [];
  }

  /** The component as React holds it: five state cells, changed in place
      by the handlers. The ghost multisets record the requests in flight, so
      that a settle step can only follow the start step that issued it. */
  class ChatBox {
    var messages: seq<Message>
    var input: string
    var articleInput: string
    var isUploading: bool
    var isSending: bool
    ghost var sendsInFlight: multiset<Request>
    ghost var uploadsInFlight: multiset<Request>

    function View(): Chat
      reads this
    {
      Chat(messages, input, articleInput, isUploading, isSending)
    }

    /** The greeting stays first, a raised busy flag has a request of its
        kind in flight, and every request in flight is well formed. */
    ghost predicate Valid()
      reads this
    {
      && |messages| >= 1 && messages[0] == Message(Bot, Greeting)
      && (isSending ==> |sendsInFlight| > 0)
      && (isUploading ==> |uploadsInFlight| > 0)
      && (forall r :: r in sendsInFlight ==> r.Ask? && WellFormed(r))
      && (forall r :: r in uploadsInFlight ==> r.Upsert? && WellFormed(r))
    }

    constructor ()
      ensures Valid() && View() == Initial
      ensures sendsInFlight == multiset{} && uploadsInFlight == multiset{}
    {
      messages := [Message(Bot, Greeting)];
      input := "";
      articleInput := "";
      isUploading := false;
      isSending := false;
      sendsInFlight := multiset{};
      uploadsInFlight := multiset{};
    }

    /** `setInput`, wired to the question box. */
    method SetInput(text: string)
      requires Valid()
      modifies this`input
      ensures Valid() && View() == old(View()).(input := text)
    {
      input := text;
    }

    /** `setArticleInput`, wired to the article box. */
    method SetArticleInput(text: string)
      requires Valid()
      modifies this`articleInput
      ensures Valid() && View() == old(View()).(articleInput := text)
    {
      articleInput := text;
    }

    /** `handleSend`, chatbox.tsx lines 34-45. */
    method HandleSend() returns (request: Option<Request>)
      requires Valid()
      modifies this
      ensures Valid()
      ensures Step(View(), request) == StartSend(old(View()))
      ensures sendsInFlight == old(sendsInFlight) + multiset(Issued(request))
      ensures uploadsInFlight == old(uploadsInFlight)
    {
      if Trim(input) == "" {
        return None;
      }
      var userMessage := Message(User, input);
      messages := messages + [userMessage];
      input := "";
      isSending := true;
      request := Some(Ask(userMessage.text));
      sendsInFlight := sendsInFlight + multiset{request.value};
    }

    /** `handleSend`, chatbox.tsx lines 54-64, for a request it issued. */
    method OnSendSettled(ghost request: Request, outcome: ChatOutcome)
      requires Valid() && request in sendsInFlight
      modifies this
      ensures Valid()
      ensures View() == SettleSend(old(View()), outcome)
      ensures sendsInFlight == old(sendsInFlight) - multiset{request}
      ensures uploadsInFlight == old(uploadsInFlight)
    {
      match outcome {
        case Answered(response) =>
          messages := messages + [Message(Bot, response)];
        case ChatFailed =>
          messages := messages + [Message(Bot, SendError)];
      }
      isSending := false;
      sendsInFlight := sendsInFlight - multiset{request};
    }

    /** `handleUploadClick`, chatbox.tsx lines 68-78. */
    method HandleUploadClick() returns (request: Option<Request>)
      requires Valid()
      modifies this
      ensures Valid()
      ensures Step(View(), request) == StartUpload(old(View()))
      ensures uploadsInFlight == old(uploadsInFlight) + multiset(Issued(request))
      ensures sendsInFlight == old(sendsInFlight)
    {
      if Trim(articleInput) == "" {
        messages := messages + [Message(Bot, EmptyArticleNotice)];
        assert messages[0] == old(messages)[0];
        return None;
      }
      var articleToSend := Trim(articleInput);
      articleInput := "";
      isUploading := true;
      request := Some(Upsert(articleToSend));
      uploadsInFlight := uploadsInFlight + multiset{request.value};
    }

    /** `handleUploadClick`, chatbox.tsx lines 93-119, for a request it issued. */
    method OnUploadSettled(request: Request, outcome: UploadOutcome)
      requires Valid() && request in uploadsInFlight
      modifies this
      ensures Valid()
      ensures View() == SettleUpload(old(View()), request.article, outcome)
      ensures uploadsInFlight == old(uploadsInFlight) - multiset{request}
      ensures sendsInFlight == old(sendsInFlight)
    {
      match outcome {
        case Ingested(numChunks, summary) =>
          messages := messages + UploadedMessages(numChunks, summary, request.article);
        case UploadFailed =>
          messages := messages + [Message(Bot, UploadError)];
      }
      isUploading := false;
      uploadsInFlight := uploadsInFlight - multiset{request};
    }
  }
}

/** The earlier `ChatBox` of src/app/page.tsx: a transcript and a question
    buffer, with no busy flags. On mount it uploads a fixed demo article once;
    `handleSend` asks the chat endpoint. As in the later component, each
    async step is split at its `fetch` into a start and a settle step. */
module Page {
  import opened Whitespace
  import opened Transcript

  const Greeting: string := "Hi! How can I help you today?"
  /** Written as two literals so that the verifier can reach its first
      character; the value is the single sentence of page.tsx line 11. */
  const DemoArticle: string := "This is a sample article used for " + "testing the chatbot functionality."
  const MountUploadError: string := "\U{26A0}\U{FE0F} Failed to upload article to backend."
  const SendError: string := "\U{26A0}\U{FE0F} Error: Unable to get a response from the backend."

  /** The component's two pieces of state. */
  datatype Chat = Chat(messages: seq<Message>, input: string)

  /** The state on first render. */
  const Initial: Chat := Chat([Message(Bot, Greeting)], "")

  /** The state after a start step, and the request it issued, if any. */
  datatype Step = Step(next: Chat, request: Option<Request>)

  /** The mount effect up to its `fetch`: it posts the demo article as it
      is, untrimmed, and shows nothing. That it adds no message is part of
      ApplyAppends and RunCountsMessages; that it runs once per component is
      in ChatBox.UploadArticle's contract. */
  function StartMountUpload(c: Chat): (r: Step)
    ensures r.next == c
    ensures r.request == Some(Upsert(DemoArticle)) && r.request.value.article != ""
  {
    Step(c, Some(Upsert(DemoArticle)))
  }

  /** The mount effect's upload after its `fetch` settles: success is only
      logged, so the state is unchanged; failure appends one fixed bot message. */
  function SettleMountUpload(c: Chat, outcome: UploadOutcome): (r: Chat)
    ensures outcome.Ingested? ==> r == c
    ensures outcome.UploadFailed? ==>
      r.messages == c.messages + [Message(Bot, MountUploadError)] && r.input == c.input
  {
    match outcome
    case Ingested(_, _) => c
    case UploadFailed => c.(messages := c.messages + [Message(Bot, MountUploadError)])
  }

  /** `handleSend` up to its `fetch`. A blank question is ignored; otherwise
      the question, untrimmed, is appended as a user message, the buffer is
      cleared, and the value the buffer held before clearing is sent. */
  function StartSend(c: Chat): (r: Step)
    ensures r.request == None <==> IsBlank(c.input)
    ensures r.request == None ==> r.next == c
    ensures r.request != None ==>
      && r.request == Some(Ask(c.input))
      && r.next.messages == c.messages + [Message(User, c.input)]
      && r.next.input == ""
  {
    if Trim(c.input) == "" then Step(c, None)
    else Step(Chat(c.messages + [Message(User, c.input)], ""), Some(Ask(c.input)))
  }

  /** The bot's reply to a settled chat request. */
  function ReplyText(outcome: ChatOutcome): string {
    match outcome
    case Answered(response) => response
    case ChatFailed => SendError
  }

  /** `handleSend` after its `fetch` settles: exactly one bot message is
      appended, the response or the fixed error text; the buffer is untouched. */
  function SettleSend(c: Chat, outcome: ChatOutcome): (r: Chat)
    ensures Extends(c.messages, r.messages) && |r.messages| == |c.messages| + 1
    ensures r.messages[|c.messages|].sender == Bot
    ensures outcome.Answered? ==> r.messages[|c.messages|].text == outcome.response
    ensures outcome.ChatFailed? ==> r.messages[|c.messages|].text == SendError
    ensures r.input == c.input
  {
    c.(messages := c.messages + [Message(Bot, ReplyText(outcome))])
  }

  /** What can happen after mount: the user edits the buffer or clicks send,
      or an issued request settles. Nothing stops a second send while the
      first is pending. */
  datatype Event =
    | Mount
    | TypeQuestion(text: string)
    | ClickSend
    | SendSettled(reply: ChatOutcome)
    | MountUploadSettled(result: UploadOutcome)

  function Apply(c: Chat, e: Event): Step {
    match e
    case Mount => StartMountUpload(c)
    case TypeQuestion(text) => Step(c.(input := text), None)
    case ClickSend => StartSend(c)
    case SendSettled(reply) => Step(SettleSend(c, reply), None)
    case MountUploadSettled(result) => Step(SettleMountUpload(c, result), None)
  }

  function Issued(request: Option<Request>): seq<Request> {
    if request.Some? then [request.value] else []
  }

  /** The state after a sequence of events, and the requests issued on the way. */
  datatype Trace = Trace(final: Chat, issued: seq<Request>)

  function Run(c: Chat, events: seq<Event>): Trace
    decreases |events|
  {
    if events == [] then Trace(c, [])
    else
      var step := Apply(c, events[0]);
      var rest := Run(step.next, events[1..]);
      Trace(rest.final, Issued(step.request) + rest.issued)
  }

  /** How many of `events` append a bot message: every chat settlement, and a
      failed mount upload. */
  function BotReplies(events: seq<Event>): nat {
    if events == [] then 0
    else
      var e := events[0];
      (if e.SendSettled? || (e.MountUploadSettled? && e.result.UploadFailed?) then 1 else 0)
      + BotReplies(events[1..])
  }

  /** Every event only appends: a send adds one message exactly when it
      asks a question, a bot reply adds one, anything else (the mount upload
      included) adds none. */
  lemma ApplyAppends(c: Chat, e: Event)
    ensures Extends(c.messages, Apply(c, e).next.messages)
    ensures |Apply(c, e).next.messages|
         == |c.messages| + |Questions(Issued(Apply(c, e).request))| + BotReplies([e])
  {
    assert BotReplies([e]) == (if e.SendSettled? || (e.MountUploadSettled? && e.result.UploadFailed?) then 1 else 0);
  }

  /** The only user message an event appends is the question it sends. */
  lemma ApplyShowsWhatItAsks(c: Chat, e: Event)
    ensures UserTexts(Apply(c, e).next.messages) == UserTexts(c.messages) + Questions(Issued(Apply(c, e).request))
  {
    match e
    case ClickSend =>
      if !IsBlank(c.input) { UserTextsOfUser(c.messages, c.input); }
    case SendSettled(reply) =>
      UserTextsOfBots(c.messages, [Message(Bot, ReplyText(reply))]);
    case MountUploadSettled(result) =>
      if result.UploadFailed? { UserTextsOfBots(c.messages, [Message(Bot, MountUploadError)]); }
    case Mount =>
      assert Questions([Upsert(DemoArticle)]) == [];
    case TypeQuestion(_) =>
  }

  /** Over any sequence of events the transcript is only appended to. */
  lemma {:induction false} RunOnlyAppends(c: Chat, events: seq<Event>)
    ensures Extends(c.messages, Run(c, events).final.messages)
    decreases |events|
  {
    if events != [] {
      var step := Apply(c, events[0]);
      ApplyAppends(c, events[0]);
      RunOnlyAppends(step.next, events[1..]);
      ExtendsTransitive(c.messages, step.next.messages, Run(step.next, events[1..]).final.messages);
    }
  }

  /** Every request an event issues is well formed: a non-blank question, or
      the demo article, which is non-empty and has nothing to trim. */
  lemma ApplyIssuesWellFormed(c: Chat, e: Event)
    ensures forall r :: r in Issued(Apply(c, e).request) ==> WellFormed(r)
  {
    if e.Mount? {
      assert DemoArticle[0] == 'T' && DemoArticle[|DemoArticle| - 1] == '.';
    }
  }

  /** Over any sequence of events every request issued is well formed. */
  lemma {:induction false} RunIssuesWellFormed(c: Chat, events: seq<Event>)
    ensures forall r :: r in Run(c, events).issued ==> WellFormed(r)
    decreases |events|
  {
    if events != [] {
      var step := Apply(c, events[0]);
      ApplyIssuesWellFormed(c, events[0]);
      RunIssuesWellFormed(step.next, events[1..]);
    }
  }

  /** Each question sent adds one message and each bot reply adds one: the
      transcript grows by exactly their sum, however the sends and replies
      interleave. */
  lemma {:induction false} RunCountsMessages(c: Chat, events: seq<Event>)
    ensures |Run(c, events).final.messages|
         == |c.messages| + |Questions(Run(c, events).issued)| + BotReplies(events)
    decreases |events|
  {
    if events != [] {
      var step := Apply(c, events[0]);
      ApplyAppends(c, events[0]);
      RunCountsMessages(step.next, events[1..]);
      QuestionsAppend(Issued(step.request), Run(step.next, events[1..]).issued);
      assert BotReplies(events) == BotReplies([events[0]]) + BotReplies(events[1..]);
    }
  }

  /** Unfolds Run once. */
  lemma RunUnfold(c: Chat, events: seq<Event>)
    requires events != []
    ensures var step := Apply(c, events[0]); var rest := Run(step.next, events[1..]);
      Run(c, events) == Trace(rest.final, Issued(step.request) + rest.issued)
  {
  }

  /** The inductive step of RunShowsWhatItAsks: one event in front of a run
      that already shows what it asks. */
  lemma ShowsStep(c: Chat, e: Event, rest: Trace)
    requires UserTexts(rest.final.messages) == UserTexts(Apply(c, e).next.messages) + Questions(rest.issued)
    ensures UserTexts(rest.final.messages) == UserTexts(c.messages) + Questions(Issued(Apply(c, e).request) + rest.issued)
  {
    ApplyShowsWhatItAsks(c, e);
    QuestionsAppend(Issued(Apply(c, e).request), rest.issued);
  }

  /** Over any sequence of events the user messages appended are exactly the
      questions sent, in the order they were sent. */
  lemma {:induction false} RunShowsWhatItAsks(c: Chat, events: seq<Event>)
    ensures UserTexts(Run(c, events).final.messages) == UserTexts(c.messages) + Questions(Run(c, events).issued)
    decreases |events|
  {
    if events == [] {
      assert UserTexts(c.messages) + [] == UserTexts(c.messages);
    } else {
      var step := Apply(c, events[0]);
      RunShowsWhatItAsks(step.next, events[1..]);
      ShowsStep(c, events[0], Run(step.next, events[1..]));
      RunUnfold(c, events);
    }
  }

  /** Typing a non-blank question and clicking send, in front of any run:
      the question is shown and asked, and the buffer is empty again. */
  lemma AskThenRun(c: Chat, q: string, rest: seq<Event>)
    requires !IsBlank(q)
    ensures var t := Run(Chat(c.messages + [Message(User, q)], ""), rest);
      Run(c, [TypeQuestion(q), ClickSend] + rest) == Trace(t.final, [Ask(q)] + t.issued)
  {
    var events := [TypeQuestion(q), ClickSend] + rest;
    assert events[1..] == [ClickSend] + rest;
    assert events[1..][1..] == rest;
  }

  /** A reply settling, in front of any run. */
  lemma ReplyThenRun(c: Chat, reply: string, rest: seq<Event>)
    ensures Run(c, [SendSettled(Answered(reply))] + rest)
         == Run(c.(messages := c.messages + [Message(Bot, reply)]), rest)
  {
    var events := [SendSettled(Answered(reply))] + rest;
    assert events[0] == SendSettled(Answered(reply)) && events[1..] == rest;
    RunUnfold(c, events);
  }

  /** Two replies settling one after the other, appended in that order. */
  lemma TwoReplies(c: Chat, first: string, second: string)
    ensures Run(c, [SendSettled(Answered(first)), SendSettled(Answered(second))])
         == Trace(c.(messages := c.messages + [Message(Bot, first), Message(Bot, second)]), [])
  {
    var c1 := c.(messages := c.messages + [Message(Bot, first)]);
    var c2 := c1.(messages := c1.messages + [Message(Bot, second)]);
    assert Run(c1, [SendSettled(Answered(second))]) == Trace(c2, []) by {
      ReplyThenRun(c1, second, []);
      assert [SendSettled(Answered(second))] + [] == [SendSettled(Answered(second))];
    }
    assert Run(c, [SendSettled(Answered(first)), SendSettled(Answered(second))]) == Trace(c2, []) by {
      ReplyThenRun(c, first, [SendSettled(Answered(second))]);
      assert [SendSettled(Answered(first))] + [SendSettled(Answered(second))]
          == [SendSettled(Answered(first)), SendSettled(Answered(second))];
    }
    assert c2.messages == c.messages + [Message(Bot, first), Message(Bot, second)];
  }

  /** Two questions sent before either reply: both requests go out, and the
      replies are appended in the order they settle, not the order asked. */
  lemma OverlappingSends(c: Chat, a: string, b: string, replyA: string, replyB: string)
    requires !IsBlank(a) && !IsBlank(b)
    ensures var t := Run(c, [TypeQuestion(a), ClickSend] + ([TypeQuestion(b), ClickSend]
                            + [SendSettled(Answered(replyB)), SendSettled(Answered(replyA))]));
      && t.issued == [Ask(a), Ask(b)]
      && t.final.messages == c.messages + [Message(User, a), Message(User, b),
                                           Message(Bot, replyB), Message(Bot, replyA)]
  {
    var settle := [SendSettled(Answered(replyB)), SendSettled(Answered(replyA))];
    var tail := [TypeQuestion(b), ClickSend] + settle;
    var c2 := Chat(c.messages + [Message(User, a)], "");
    var c4 := Chat(c2.messages + [Message(User, b)], "");
    var c6 := c4.(messages := c4.messages + [Message(Bot, replyB), Message(Bot, replyA)]);
    assert Run(c2, tail) == Trace(c6, [Ask(b)]) by {
      TwoReplies(c4, replyB, replyA);
      AskThenRun(c2, b, settle);
      assert [Ask(b)] + [] == [Ask(b)];
    }
    assert Run(c, [TypeQuestion(a), ClickSend] + tail) == Trace(c6, [Ask(a), Ask(b)]) by {
      AskThenRun(c, a, tail);
      assert [Ask(a)] + [Ask(b)] == [Ask(a), Ask(b)];
    }
    assert c6.messages
        == c.messages + [Message(User, a), Message(User, b), Message(Bot, replyB), Message(Bot, replyA)];
  }

  /** The component as React holds it: two state cells, changed in place by
      the mount effect and `handleSend`. The ghost state records the chat
      requests in flight and whether the mount upload is still pending, so
      that a settle step can only follow the start step that issued it. */
  class ChatBox {
    var messages: seq<Message>
    var input: string
    ghost var sendsInFlight: multiset<Request>
    ghost var uploadPending: bool
    ghost var mounted: bool

    function View(): Chat
      reads this
    {
      Chat(messages, input)
    }

    /** The greeting stays first, every chat request in flight asks a
        non-blank question, and the demo upload is pending only after mount. */
    ghost predicate Valid()
      reads this
    {
      && |messages| >= 1 && messages[0] == Message(Bot, Greeting)
      && (forall r :: r in sendsInFlight ==> r.Ask? && WellFormed(r))
      && (uploadPending ==> mounted)
    }

    constructor ()
      ensures Valid() && View() == Initial
      ensures sendsInFlight == multiset{} && !uploadPending && !mounted
    {
      messages := [Message(Bot, Greeting)];
      input := "";
      sendsInFlight := multiset{};
      uploadPending := false;
      mounted := false;
    }

    /** The mount effect, page.tsx lines 14-21 and 40. Its dependency list
        is empty, so it runs once per component: once mounted, nothing
        clears `mounted` and it cannot run again. */
    method UploadArticle() returns (request: Request)
      requires Valid() && !mounted
      modifies this`uploadPending, this`mounted
      ensures Valid() && mounted && uploadPending
      ensures Step(View(), Some(request)) == StartMountUpload(old(View()))
    {
      request := Upsert(DemoArticle);
      uploadPending := true;
      mounted := true;
    }

    /** The mount effect after its `fetch` settles, page.tsx lines 29-36. */
    method OnUploadSettled(outcome: UploadOutcome)
      requires Valid() && uploadPending
      modifies this
      ensures Valid() && !uploadPending && mounted
      ensures View() == SettleMountUpload(old(View()), outcome)
      ensures sendsInFlight == old(sendsInFlight)
    {
      if outcome.UploadFailed? {
        messages := messages + [Message(Bot, MountUploadError)];
      }
      uploadPending := false;
    }

    /** `setInput`, wired to the question box. */
    method SetInput(text: string)
      requires Valid()
      modifies this`input
      ensures Valid() && View() == old(View()).(input := text)
    {
      input := text;
    }

    /** `handleSend`, page.tsx lines 44-54. */
    method HandleSend() returns (request: Option<Request>)
      requires Valid()
      modifies this
      ensures Valid()
      ensures Step(View(), request) == StartSend(old(View()))
      ensures sendsInFlight == old(sendsInFlight) + multiset(Issued(request))
      ensures uploadPending == old(uploadPending) && mounted == old(mounted)
    {
      if Trim(input) == "" {
        return None;
      }
      var question := input;
      messages := messages + [Message(User, input)];
      input := "";
      request := Some(Ask(question));
      sendsInFlight := sendsInFlight + multiset{request.value};
    }

    /** `handleSend` after its `fetch` settles, page.tsx lines 63-72, for a
        request it issued. */
    method OnSendSettled(ghost request: Request, outcome: ChatOutcome)
      requires Valid() && request in sendsInFlight
      modifies this
      ensures Valid()
      ensures View() == SettleSend(old(View()), outcome)
      ensures sendsInFlight == old(sendsInFlight) - multiset{request}
      ensures uploadPending == old(uploadPending) && mounted == old(mounted)
    {
      match outcome {
        case Answered(response) =>
          messages := messages + [Message(Bot, response)];
        case ChatFailed =>
          messages := messages + [Message(Bot, SendError)];
      }
      sendsInFlight := sendsInFlight - multiset{request};
    }
  }
}

/** What both chat components share: the message record shown in the
    transcript, the two requests they send to the backend, the outcomes
    those requests settle with, what a well-formed request is, and what
    "append-only" means. */
module Transcript {
  import opened Whitespace

  datatype Option<T> = None | Some(value: T)

  datatype Sender = Bot | User

  /** `{ sender, text }`: a transcript entry, never changed once appended. */
  datatype Message = Message(sender: Sender, text: string)

  /** A request body: `{ question }` for the chat endpoint, `{ article }` for
      the upsert endpoint. */
  datatype Request = Ask(question: string) | Upsert(article: string)

  /** How a chat request settles: a 2xx reply with its `response` field, or
      any failure (non-2xx status, network error, unreadable body). */
  datatype ChatOutcome = Answered(response: string) | ChatFailed

  /** How an upsert request settles: a 2xx reply with `num_chunks` (as the
      text it renders to) and an optional `summary`, or any failure. */
  datatype UploadOutcome = Ingested(numChunks: string, summary: Option<string>) | UploadFailed

  /** A request as the start steps issue it: a non-blank question, or a
      non-empty article with nothing left to trim. */
  predicate WellFormed(r: Request) {
    match r
    case Ask(question) => !IsBlank(question)
    case Upsert(article) => article != "" && IsTrimmed(article)
  }

  /** `after` is `before` with messages appended and nothing else changed. */
  predicate Extends(before: seq<Message>, after: seq<Message>) {
    |before| <= |after| && after[..|before|] == before
  }

  lemma ExtendsTransitive(a: seq<Message>, b: seq<Message>, c: seq<Message>)
    requires Extends(a, b) && Extends(b, c)
    ensures Extends(a, c)
  {
    assert c[..|a|] == c[..|b|][..|a|];
  }

  /** The texts of the user's messages, in transcript order. */
  function UserTexts(ms: seq<Message>): seq<string>
  {
    if ms == [] then []
    else UserTexts(ms[..|ms| - 1]) + (if ms[|ms| - 1].sender == User then [ms[|ms| - 1].text] else [])
  }

  /** UserTexts distributes over concatenation. */
  lemma {:induction false} UserTextsAppend(a: seq<Message>, b: seq<Message>)
    ensures UserTexts(a + b) == UserTexts(a) + UserTexts(b)
    decreases |b|
  {
    if b == [] {
      assert a + b == a;
    } else {
      var b' := b[..|b| - 1];
      assert (a + b)[..|a + b| - 1] == a + b';
      UserTextsAppend(a, b');
    }
  }

  /** Appending one user message adds its text to UserTexts. */
  lemma UserTextsOfUser(ms: seq<Message>, text: string)
    ensures UserTexts(ms + [Message(User, text)]) == UserTexts(ms) + [text]
  {
    assert (ms + [Message(User, text)])[..|ms|] == ms;
  }

  /** A run of bot messages has no user texts. */
  lemma {:induction false} NoUserTexts(bots: seq<Message>)
    requires forall i :: 0 <= i < |bots| ==> bots[i].sender == Bot
    ensures UserTexts(bots) == []
    decreases |bots|
  {
    if bots != [] {
      NoUserTexts(bots[..|bots| - 1]);
    }
  }

  /** Bot messages contribute nothing to UserTexts, wherever they are
      appended. */
  lemma UserTextsOfBots(ms: seq<Message>, bots: seq<Message>)
    requires forall i :: 0 <= i < |bots| ==> bots[i].sender == Bot
    ensures UserTexts(ms + bots) == UserTexts(ms)
  {
    UserTextsAppend(ms, bots);
    NoUserTexts(bots);
    assert UserTexts(ms) + [] == UserTexts(ms);
  }

  /** The questions of the chat requests among `rs`, in order. */
  function Questions(rs: seq<Request>): seq<string>
  {
    if rs == [] then []
    else (if rs[0].Ask? then [rs[0].question] else []) + Questions(rs[1..])
  }

  lemma {:induction false} QuestionsAppend(a: seq<Request>, b: seq<Request>)
    ensures Questions(a + b) == Questions(a) + Questions(b)
    decreases |a|
  {
    if a == [] {
      assert a + b == b;
    } else {
      var head := if a[0].Ask? then [a[0].question] else [];
      assert (a + b)[0] == a[0];
      assert (a + b)[1..] == a[1..] + b;
      assert Questions(a + b) == head + Questions(a[1..] + b);
      QuestionsAppend(a[1..], b);
      assert head + (Questions(a[1..]) + Questions(b)) == (head + Questions(a[1..])) + Questions(b);
    }
  }
}

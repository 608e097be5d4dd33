# Chat client state machine

A model of the client side of a retrieval chatbot front end: the React
component that holds the conversation transcript, the question and article
buffers and two busy flags, and the handlers that change them when the user
sends a question or uploads an article. There are two versions of the
component, and both are modelled:

- `ChatBox` in `src/app/components/chatbox.tsx` (module `ChatBox`): a
  transcript, a question buffer, an article buffer, an `isSending` flag and
  an `isUploading` flag, changed by `handleSend` and `handleUploadClick`.
- `ChatBox` in `src/app/page.tsx` (module `Page`): an earlier version with
  only a transcript and a question buffer, a one-shot upload of a demo
  article on mount, and a `handleSend` with different fixed texts and no
  busy flag.

Each async handler is split at its `fetch`. The **start** step does
everything before the request goes out and returns the request body, or
nothing. The **settle** step does everything after it and takes the outcome
of the request as a parameter: a reply (`Answered(response)`,
`Ingested(numChunks, summary)`) or a failure. Non-2xx statuses, network
errors and unreadable bodies all end in the same `catch` block, so they are
one failure outcome.

Every step is given twice:

- as a function on a `Chat` value (`StartSend`, `SettleSend`, `StartUpload`,
  `SettleUpload`, `StartMountUpload`, `SettleMountUpload`), whose contract
  states the rule the component follows;
- as a method of a `ChatBox` class whose fields are the component's state
  cells. Each method's `ensures` ties its new state to that function.

Ghost state in each class records the requests in flight, so a settle
method can only follow the start method that issued its request.
`ChatBox.ChatBox` keeps one multiset of sends and one of uploads. Its
invariant `Valid()` says four things:

- the greeting stays first;
- a raised busy flag has a request of its kind in flight;
- every question in flight is non-blank;
- every article in flight is non-empty and has nothing left to trim.

`Page.ChatBox` keeps a multiset of sends, plus two ghost flags for the one
mount upload: `uploadPending` and `mounted`. Its invariant `Valid()` says
three things:

- the greeting stays first;
- every question in flight is non-blank;
- the mount upload is pending only once the component is mounted.

"Blank" is `String.prototype.trim()` returning the empty string. Module
`Whitespace` defines it from the WhiteSpace and LineTerminator code points
of ECMA-262 (2022 edition, sections 12.2, 12.3 and 22.1.3.30). `Trim` is
specified by what it keeps and what it drops.

Event traces (`Event`, `Apply`, `Run`) string the steps together as atomic
steps in any order, including a second send while the first is pending. The
lemmas about `Run` hold, in both modules, for every sequence of events:

- the transcript is only appended to;
- the user messages shown are exactly the questions sent, in order;
- every request issued is well formed (`Transcript.WellFormed`): a
  non-blank question, or a non-empty article with nothing left to trim;
- for `page.tsx` only, the transcript grows by exactly one message per question
  sent plus one per bot reply.

The traces are more permissive than the program. A settlement event may
happen with nothing in flight, an upload settlement may echo any article,
and the mount event may occur any number of times. Only the classes tie a
settlement to a request that was issued, and a mount to a single run. The
lemmas about `Run` stay sound for the program because they hold for every
trace, including those it can produce.

The two components share the `Transcript` types. Their `Event`, `Apply` and
`Run` definitions, and the induction lemmas over them, are written out once
per module. The source keeps the two components apart in the same way, and
their events differ.

Neither handler in `chatbox.tsx` checks its busy flag. The buttons that
would be disabled live in `chatboxUI.tsx`, which is not part of this model.
So the model allows a second send while one is in flight. The first
settlement then lowers `isSending` while the second request is still
pending. `Valid()` only claims that a raised flag has a request in flight,
never the converse.

## Model

| member | source | states |
|---|---|---|
| Whitespace.Trim | src/app/components/chatbox.tsx:76 | the trimmed text is empty exactly when every character is ECMAScript white space, and it neither starts nor ends with white space |
| Whitespace.TrimKeepsMiddle | src/app/components/chatbox.tsx:76 | trim keeps one contiguous slice of the input starting at its first non-white character, and every character it drops is white space |
| Whitespace.TrimFixesTrimmed | src/app/components/chatbox.tsx:76 | a string with no white space at either end is its own trim, so trimming twice is trimming once |
| ChatBox.StartSend | src/app/components/chatbox.tsx:33-45 | a blank question changes nothing and issues no request; otherwise the untrimmed question is appended as one user message and is the question sent, the buffer becomes "" and `isSending` true, and the article side is untouched |
| ChatBox.SettleSend | src/app/components/chatbox.tsx:54-64 | exactly one bot message is appended after the old transcript: the response, or "Error: Failed to get a response from backend."; `isSending` ends false and both buffers and `isUploading` are unchanged |
| ChatBox.StartUpload | src/app/components/chatbox.tsx:67-85 | a blank article appends only "Cannot upload empty article.", issues nothing and leaves the buffer and flag alone; otherwise the trimmed, non-empty article is sent, the buffer becomes "", `isUploading` rises and the transcript and question side are unchanged |
| ChatBox.SummaryOrFallback | src/app/components/chatbox.tsx:102 | a missing or empty summary gives "No summary provided.", any other summary is used as is |
| ChatBox.SettleUpload | src/app/components/chatbox.tsx:93-119 | success appends exactly the chunk-count line, the TL;DR line and the article echo, in that order; failure appends exactly "Failed to upload article."; the old transcript is a prefix, `isUploading` ends false and the question side is unchanged |
| ChatBox.ApplyOnlyAppends | src/app/components/chatbox.tsx:33-120 | no single step (typing, either click, either settlement) removes or changes an earlier message |
| ChatBox.ApplyShowsWhatItAsks | src/app/components/chatbox.tsx:36-45 | the only user message a step appends is the question it sends |
| ChatBox.UploadSettledShowsNothing | src/app/components/chatbox.tsx:93-116 | an upload settlement appends no user message |
| ChatBox.ApplyIssuesWellFormed | src/app/components/chatbox.tsx:33-85 | a step issues only non-blank questions and non-empty articles with nothing left to trim |
| ChatBox.RunOnlyAppends | src/app/components/chatbox.tsx:33-120 | over any sequence of events the starting transcript is a prefix of the final one |
| ChatBox.RunShowsWhatItAsks | src/app/components/chatbox.tsx:33-120 | over any sequence of events the user messages appended are exactly the questions issued, in issue order |
| ChatBox.RunIssuesWellFormed | src/app/components/chatbox.tsx:33-85 | over any sequence of events every issued request is well formed |
| ChatBox.GreetingStaysFirst | src/app/components/chatbox.tsx:12-17 | from the first render, whatever happens, the first message is still the greeting |
| ChatBox.AskThenRun | src/app/components/chatbox.tsx:33-45 | typing a non-blank question and clicking send issues that question and then continues from the state with it shown, the buffer cleared and the flag raised |
| ChatBox.AskScenario | src/app/components/chatbox.tsx:33-64 | type, send, answered: one request, the question then the reply appended, buffer empty, flag down |
| ChatBox.UploadScenario | src/app/components/chatbox.tsx:67-120 | type, upload, ingested: one request with the trimmed article, then the three upload messages, buffer empty, flag down |
| ChatBox.BlankArticleScenario | src/app/components/chatbox.tsx:67-74 | type a blank article, upload: no request, one notice, the blank text left in the buffer |
| ChatBox.ChatBox.constructor | src/app/components/chatbox.tsx:12-21 | the transcript is the single greeting, both buffers are empty, both flags are false, nothing is in flight |
| ChatBox.ChatBox.SetInput | src/app/components/chatbox.tsx:18 | only the question buffer changes |
| ChatBox.ChatBox.SetArticleInput | src/app/components/chatbox.tsx:19 | only the article buffer changes |
| ChatBox.ChatBox.HandleSend | src/app/components/chatbox.tsx:33-45 | the new state and the request are those of StartSend, and the request is recorded as in flight |
| ChatBox.ChatBox.OnSendSettled | src/app/components/chatbox.tsx:54-64 | for a request in flight, the new state is that of SettleSend and the request leaves the in-flight set |
| ChatBox.ChatBox.HandleUploadClick | src/app/components/chatbox.tsx:67-85 | the new state and the request are those of StartUpload, and the request is recorded as in flight |
| ChatBox.ChatBox.OnUploadSettled | src/app/components/chatbox.tsx:93-119 | for a request in flight, the new state is that of SettleUpload for the article it carried, and the request leaves the in-flight set |
| Page.StartMountUpload | src/app/page.tsx:14-21 | the mount effect posts the demo article untrimmed and shows nothing until it settles |
| Page.SettleMountUpload | src/app/page.tsx:29-36 | a successful mount upload leaves the state unchanged; a failed one appends exactly "⚠️ Failed to upload article to backend." |
| Page.StartSend | src/app/page.tsx:43-54 | a blank question changes nothing and issues no request; otherwise the untrimmed question is appended as one user message, the buffer becomes "", and the request carries the value the buffer held before clearing |
| Page.SettleSend | src/app/page.tsx:63-72 | exactly one bot message is appended after the old transcript: the response, or "⚠️ Error: Unable to get a response from the backend."; the buffer is unchanged |
| Page.ApplyAppends | src/app/page.tsx:14-74 | each step only appends, and adds one message per question it sends plus one per bot reply it settles; the mount upload adds none |
| Page.ApplyShowsWhatItAsks | src/app/page.tsx:46-54 | the only user message a step appends is the question it sends |
| Page.ApplyIssuesWellFormed | src/app/page.tsx:14-54 | a step issues only non-blank questions, or the demo article, which is non-empty with nothing left to trim |
| Page.RunIssuesWellFormed | src/app/page.tsx:14-74 | over any sequence of events every issued request is well formed |
| Page.RunOnlyAppends | src/app/page.tsx:29-74 | over any sequence of events the starting transcript is a prefix of the final one |
| Page.RunCountsMessages | src/app/page.tsx:14-74 | over any sequence of events, overlapping sends included, the transcript grows by the number of questions sent plus the number of bot replies |
| Page.RunShowsWhatItAsks | src/app/page.tsx:43-74 | over any sequence of events the user messages appended are exactly the questions issued, in issue order |
| Page.AskThenRun | src/app/page.tsx:43-54 | typing a non-blank question and clicking send issues that question and continues from the state with it shown and the buffer cleared |
| Page.ReplyThenRun | src/app/page.tsx:63-66 | an answer settling appends the response and continues from there |
| Page.TwoReplies | src/app/page.tsx:63-66 | two answers settling one after the other are appended in the order they settle |
| Page.OverlappingSends | src/app/page.tsx:43-74 | two questions sent before either reply both go out in order, and the replies are appended in the order they settle, not the order asked |
| Page.ChatBox.constructor | src/app/page.tsx:5-8 | the transcript is the single greeting "Hi! How can I help you today?" and the buffer is empty |
| Page.ChatBox.UploadArticle | src/app/page.tsx:14-41 | the mount effect runs only on an unmounted component, its state and request are those of StartMountUpload, and afterwards the component stays mounted, so it cannot run again |
| Page.ChatBox.OnUploadSettled | src/app/page.tsx:29-36 | for the pending mount upload, the new state is that of SettleMountUpload and the component stays mounted |
| Page.ChatBox.SetInput | src/app/page.tsx:95 | only the buffer changes |
| Page.ChatBox.HandleSend | src/app/page.tsx:43-54 | the new state and the request are those of StartSend, and the request is recorded as in flight |
| Page.ChatBox.OnSendSettled | src/app/page.tsx:63-72 | for a request in flight, the new state is that of SettleSend and the request leaves the in-flight set |

## Left out

- `fetch`, HTTP status handling, `res.json()` and `res.text()`, the backend URL from `process.env.NEXT_PUBLIC_BACKEND_URL` and the `/api/...` paths: network I/O against a backend outside this model. The settle steps take the outcome as a parameter, and every failure path is one failure outcome.
- `console.error` and `console.log`: diagnostics only.
- `scrollToBottom` and the effect that calls it on every transcript change (src/app/components/chatbox.tsx:25-31): DOM scrolling.
- `src/app/components/chatboxUI.tsx` is not part of this model: layout, the Enter-key and click wiring, and the `disabled` attributes driven by the busy flags. The model lets any event happen at any time, as the handlers themselves allow.
- React scheduling: each start and settle step is atomic and applies the functional `setMessages(prev => …)` updaters to the current state. Re-renders, batching and the real interleaving of promises are not modelled.
- The stale closure in src/app/page.tsx:54: the request uses the `input` captured when the handler ran. In an atomic step that is the value before clearing, and `Page.StartSend` states exactly that.
- ChatBox.SettleUpload: `data.num_chunks` is taken as the text it renders to, so the decimal rendering of a JavaScript number (and `undefined`) is not modelled.
- ChatBox.SummaryOrFallback: only a missing summary and the empty string fall back. Other falsy JSON values (`null`, `0`, `false`) are taken to be the missing case, and non-string summaries are not modelled.
- ChatBox.SettleSend and Page.SettleSend: `data.response` is taken to be a string. A reply without it would show `undefined`, which is not modelled.
- Page.ChatBox.UploadArticle: runs once per component (`requires !mounted`, and no method clears `mounted`). The double effect run of React's development strict mode is not modelled.
- Strings are sequences of Unicode scalar values rather than UTF-16 code units. Every ECMAScript white space character is a single code unit, so blankness and trimming agree on every string without lone surrogates.

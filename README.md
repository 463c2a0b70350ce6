# HireSense AI: verified model of the chat stream consumer and two serverless functions

HireSense AI is a recruiting web app. It has a React front end and Supabase
edge functions. This project models three parts of it in Dafny and proves
properties of those models.

- **The chat widget** (`src/components/ChatBot.tsx`).
  - `streamChat` reads a streamed reply in the `text/event-stream` style: the
    `data:` lines of the WHATWG HTML Living Standard, section 9.2.
    - Each decoded chunk is appended to a text buffer.
    - Complete `\n`-terminated lines are taken off the buffer and one
      trailing `\r` is removed.
    - Comment lines, blank lines and lines that are not `data: ` lines are
      skipped.
    - A `[DONE]` payload leaves the line loop for the current chunk.
    - A JSON delta is appended to an accumulator.
    - A payload that does not parse is put back at the front of the buffer.
  - Every delta rewrites the message list: it replaces the content of a
    trailing assistant message, or appends a new assistant message.
  - `handleSubmit` guards against empty input and a request already in
    flight. It then appends the user's turn, streams the reply, and restores
    the list if the stream fails.

  Module `ChatStream` (`chat_stream.dfy`) holds the pure state machine:
  - `StepLine` is one turn of the inner loop.
  - `Drain` is the whole inner loop.
  - `FeedChunk` and `FeedAll` are the outer loop.
  - The lemmas about them come after.

  Module `ChatBotComponent` (`chat_bot.dfy`) holds `ChatBot`, a class whose
  fields are the component's state (`messages`, `input`, `isLoading`).
  - `StreamChat` runs the outer loop over the chunks.
  - `DrainLines` runs the inner line loop of `streamChat`, as a method of its
    own.
  - `HandleSubmit` checks the guard and hands the trimmed text to `Send`,
    which holds the rest of `handleSubmit`.

  Each loop is proved against the pure state machine.
- **The notification function** (`supabase/functions/send-notification/index.ts`),
  module `SendNotification`.
  - `getEmailContent` builds the subject and HTML for each notification
    type, with the exact template text.
  - The handler answers 500 when the API key is missing or the email API
    fails, and 200 with the email id otherwise.
- **The resume analysis function** (`supabase/functions/analyze-resume/index.ts`),
  module `AnalyzeResume`. It covers:
  - request validation and the prompt sent to the AI gateway;
  - the mapping of the gateway's failures;
  - the greedy extraction of the `{…}` object from the model's reply;
  - the fixed fallback analysis.

Three further modules hold shared definitions:
- `JsStrings` (`js_strings.dfy`): JavaScript string operations, with
  contracts. These are:
  - the built-ins the code calls: `indexOf`, `startsWith`, `endsWith`,
    `trim` (WhiteSpace and LineTerminator code points) and string truthiness;
  - `lastIndexOf`, which the model uses to find the end of the greedy `{…}`
    match;
  - `Decimal`, the number-to-text conversion done by
    `${emailResponse.status}`.
- `FetchApi` (`fetch_api.dfy`): `IsOk`, the Fetch standard's `response.ok`
  (a status from 200 to 299).
- `Wrappers` (`wrappers.dfy`): `Option`.

## How the model is set up

- Chunks arrive as already-decoded strings.
- A stream is the sequence of chunks read before `done`, plus an optional
  read error after them.
- `JSON.parse` followed by the `choices[0].delta.content` lookup is a
  parameter `parse: string -> Option<Option<string>>`:
  - `None` means the parse throws;
  - `Some(None)` means there is no delta or it is not truthy.
- In the serverless functions, the email API, the AI gateway and `JSON.parse`
  are parameters. The environment's API key is an `Option<string>`.
- An optional request field that is absent renders as `undefined` inside a
  template literal, as JavaScript does (`Show`).
- A `data: [DONE]` line is the upstream chat-completions API's end-of-stream
  marker, so a reader would expect it to end the stream. In
  `ChatBot.tsx:76` it only breaks the inner loop, so later chunks are still
  read and parsed. The model follows the code, and `DeltaAfterDoneIsApplied`
  shows a delta after `[DONE]` reaching the message list.
- A line that fails to parse is put back into the buffer, which a reader
  would take as waiting for the rest of a payload split across chunks. In the code the line goes back
  whole with its `\n`, so the same line is taken and fails again on every
  later chunk. The model follows the code, and `StallIsPermanent` proves
  that the stall never ends.

## Model

| member | source | states |
|---|---|---|
| ChatStream.ResponseError | src/components/ChatBot.tsx:40-53 | the stream is read exactly when the status is 2xx and there is a body; 429 gives the rate-limit error, 402 the quota error, any other non-ok status the server's `error` field when truthy or else "Failed to get response", and an ok response without a body "No response body" |
| ChatStream.StreamError.Text | src/components/ChatBot.tsx:42-52 | the `message` of each error `streamChat` throws before reading: the rate-limit text, the quota text, the server's reason or "Failed to get response", and "No response body"; a definition with no ensures, whose use is stated by `StreamFailure` and `ResponseError` |
| ChatBotComponent.StreamFailure | src/components/ChatBot.tsx:40-62 | `streamChat` throws nothing exactly when the status is ok, a body exists and no read fails; a status error or a missing body throws the message `ResponseError` gives (the server's `error` field, the rate-limit or credits text, or the generic one); past those checks the error is the read error |
| ChatStream.StripCR | src/components/ChatBot.tsx:71 | exactly one trailing `\r` is removed, and the line is unchanged exactly when it does not end in `\r` |
| ChatStream.NextLine | src/components/ChatBot.tsx:67-71 | there is a line exactly when the buffer holds a `\n`; the line holds no `\n`; the buffer is the line, its optional `\r`, the `\n`, and the rest |
| ChatStream.Classify | src/components/ChatBot.tsx:72-76 | a line is skipped exactly when it does not start with `data: ` (the comment and blank tests are subsumed); it is the sentinel exactly when the trimmed payload is `[DONE]`; otherwise the payload is the trimmed text after `data: ` |
| ChatStream.UpdateMessages | src/components/ChatBot.tsx:83-91 | with a trailing assistant message, only its content changes (to the whole accumulator) and the length and earlier messages stay; otherwise exactly one assistant message holding the accumulator is appended |
| ChatStream.UpdateMessagesTwice | src/components/ChatBot.tsx:83-91 | a later update overrides an earlier one, so deltas never create a second reply |
| ChatStream.StepLine | src/components/ChatBot.tsx:67-96 | a turn that goes on shrinks the buffer; the messages change only when the accumulator does, the accumulator then strictly grows by appending, and the messages are the updater applied to it |
| ChatStream.Drain | src/components/ChatBot.tsx:67-97 | the inner loop: `StepLine` repeated until a turn stops or no complete line is left; a definition with no ensures, whose properties are stated by `DrainOnlyAppends` and `DrainKeepsShown`, and which `ChatBot.DrainLines` is proved equal to |
| ChatStream.FeedChunk | src/components/ChatBot.tsx:61-97 | one turn of the outer loop: the chunk is appended to the buffer and the buffer is drained; a definition with no ensures, whose properties are stated by `FeedSplit` and `LeftoverLineTakenOnNextChunk` |
| ChatStream.FeedAll | src/components/ChatBot.tsx:60-98 | the outer loop over the chunks read before `done`; a definition with no ensures, whose properties are stated by `FeedAllIsOneChunk`, `MessagesFollowAccumulator` and `StallIsPermanent`, and which `ChatBot.StreamChat` is proved to end at |
| ChatStream.DrainOnlyAppends | src/components/ChatBot.tsx:67-97 | the inner loop only appends to the accumulator it started with |
| ChatStream.SkippedLineHasNoEffect | src/components/ChatBot.tsx:72-73 | a comment, whitespace-only or non-`data: ` line is consumed with accumulator and messages unchanged |
| ChatStream.DeltaIsAppended | src/components/ChatBot.tsx:78-92 | for a payload that parses, a non-empty delta is appended to the accumulator and the messages are updated with it; an absent or empty delta only consumes the line |
| ChatStream.GoodLineContinues | src/components/ChatBot.tsx:72-92 | a line that is skipped or parses lets the inner loop go on, with the rest of the buffer after it |
| ChatStream.StepLineSameLine | src/components/ChatBot.tsx:67-92 | one turn of the inner loop depends on the buffer only through its first line |
| ChatStream.StepLineAppend | src/components/ChatBot.tsx:64-92 | over a line that goes through, a turn on a longer buffer is the same turn with the extra text carried along |
| ChatStream.NextLineAppend | src/components/ChatBot.tsx:64-69 | once the buffer holds a `\n`, more text behind it does not change the line taken |
| ChatStream.NextLineOf | src/components/ChatBot.tsx:94 | a line put back in front of the buffer is the next line taken, less one trailing `\r` |
| ChatStream.StripKeepsPayload | src/components/ChatBot.tsx:71-75 | removing a trailing `\r` from a payload line does not change its payload |
| ChatStream.AccumulatorOnlyGrows | src/components/ChatBot.tsx:60-97 | across any chunks, the accumulator only grows by appending |
| ChatStream.StepKeepsShown | src/components/ChatBot.tsx:81-91 | each turn keeps the messages equal to the history with the current reply shown |
| ChatStream.DrainKeepsShown | src/components/ChatBot.tsx:67-97 | the inner loop keeps the messages equal to the history with the current reply shown |
| ChatStream.MessagesFollowAccumulator | src/components/ChatBot.tsx:60-97 | after any chunks, the messages are the history until a delta arrives, and then the history with its reply set to the whole accumulator |
| ChatStream.OneAssistantReply | src/components/ChatBot.tsx:83-91 | after a user turn, the stream keeps the history as a prefix and adds at most one message, an assistant one |
| ChatStream.GoodLinesPrefix | src/components/ChatBot.tsx:67-96 | lines that all go through still do so when the text is cut short |
| ChatStream.DrainAppend | src/components/ChatBot.tsx:64-97 | over lines that all go through, draining before more text arrives gives the same state as draining after |
| ChatStream.FeedSplit | src/components/ChatBot.tsx:60-97 | over lines that all go through (no `[DONE]` and no failed parse), feeding two pieces one after the other is feeding them joined |
| ChatStream.FeedAllIsOneChunk | src/components/ChatBot.tsx:60-97 | with no sentinel and no parse failure, any sequence of chunks gives the state of their concatenation fed as one chunk |
| ChatStream.ChunkBoundariesDoNotMatter | src/components/ChatBot.tsx:60-97 | with no sentinel and no parse failure, splitting the stream at any points yields the same accumulator and the same message list |
| ChatStream.UnterminatedTextIsNotParsed | src/components/ChatBot.tsx:61-62 | text without a `\n` stays in the buffer unparsed, so it is dropped when the stream ends |
| ChatStream.FeedAllCons | src/components/ChatBot.tsx:60-64 | the outer loop takes the first chunk, then the rest |
| ChatStream.DoneEndsOnlyThisChunk | src/components/ChatBot.tsx:76 | a sentinel line consumes itself and ends only the current chunk; the rest of the buffer is kept and later chunks are still fed |
| ChatStream.DrainSinglePayload | src/components/ChatBot.tsx:67-92 | a single payload line with a non-empty delta drains to the appended accumulator and updated messages |
| ChatStream.SentinelLine | src/components/ChatBot.tsx:75-76 | `data: [DONE]` is recognised as the sentinel |
| ChatStream.DoneLeavesLaterLines | src/components/ChatBot.tsx:76 | a chunk holding the sentinel and then a payload line leaves the payload line in the buffer |
| ChatStream.LeftoverLineTakenOnNextChunk | src/components/ChatBot.tsx:60-67 | a complete line left in the buffer is processed when the next chunk arrives, even an empty one |
| ChatStream.DeltaAfterDoneIsApplied | src/components/ChatBot.tsx:76 | a delta after `[DONE]` still reaches the message list once another chunk is read |
| ChatStream.FailedParseRebuffers | src/components/ChatBot.tsx:93-96 | on a parse failure the buffer becomes the stripped line, `\n` and the rest; the inner loop stops with the accumulator and messages unchanged, and the buffer is stalled again |
| ChatStream.StallIsPermanent | src/components/ChatBot.tsx:93-96 | once a payload fails to parse, no later chunk changes the accumulator or the messages |
| ChatStream.DeltasAccumulateInOneMessage | src/components/ChatBot.tsx:79-91 | two deltas in one stream give one assistant message holding both, in order |
| ChatBotComponent.ChatBot.StreamChat | src/components/ChatBot.tsx:30-99 | the thrown message is `StreamFailure`; on a status error the messages are untouched, otherwise they end as the outer loop over the chunks leaves them (`FeedAll`) |
| ChatBotComponent.ChatBot.DrainLines | src/components/ChatBot.tsx:66-97 | the buffer, the accumulator and the messages end as `Drain` leaves them |
| ChatBotComponent.ChatBot.HandleSubmit | src/components/ChatBot.tsx:101-121 | empty trimmed input or a request in flight changes nothing; otherwise the input is cleared, loading ends, and on error the list is restored to its pre-submit value with the error toasted; on success the trimmed user turn and at most one assistant reply follow the old list |
| ChatBotComponent.ChatBot.Send | src/components/ChatBot.tsx:104-120 | the input is cleared, loading ends and the toast is `StreamFailure`; on error the list is as before the turn was added; on success the user turn and at most one assistant reply follow the old list |
| ChatBotComponent.ChatBot.constructor | src/components/ChatBot.tsx:19-21 | an empty list, empty input, not loading |
| JsStrings.IndexOf | src/components/ChatBot.tsx:67 | `-1` exactly when the character is absent; otherwise its first position |
| JsStrings.LastIndexOf | supabase/functions/analyze-resume/index.ts:102 | `-1` exactly when the character is absent; otherwise its last position |
| JsStrings.Trim | src/components/ChatBot.tsx:72 | the result is a slice of the text with only whitespace before and after it; it is empty exactly for all-whitespace text and otherwise has no whitespace at either end |
| JsStrings.TrimDropsTrailingWhitespace | src/components/ChatBot.tsx:71-75 | trailing whitespace does not change the trimmed text |
| JsStrings.DecimalRoundTrip | supabase/functions/send-notification/index.ts:111 | the status numeral reads back as the status |
| SendNotification.GetEmailContent | supabase/functions/send-notification/index.ts:23-73 | the subject of each of the four types and of the default case; for other types the HTML wraps the message in `<p>`, or "You have a new notification." when it is empty or absent |
| SendNotification.ApplicationNamesCandidateAndJob | supabase/functions/send-notification/index.ts:25-33 | the application email's HTML names the candidate and the job |
| SendNotification.ShortlistedNamesJobAndCompany | supabase/functions/send-notification/index.ts:35-43 | the shortlisting email's HTML names the job and the company |
| SendNotification.InterviewGivesDate | supabase/functions/send-notification/index.ts:45-54 | the interview email's HTML gives the date under its "Date & Time:" label |
| SendNotification.StatusUpdateGivesStatus | supabase/functions/send-notification/index.ts:56-65 | the status email's HTML gives the new status |
| SendNotification.StatusUpdateMessageParagraph | supabase/functions/send-notification/index.ts:56-65 | after the status paragraph comes a "Message:" paragraph exactly when the message is non-empty, and it holds that message |
| SendNotification.HandleNotification | supabase/functions/send-notification/index.ts:81-141 | without a key nothing is sent and the answer is 500 "Email service is not configured"; otherwise the content for the type is sent to the recipient, and a failing email API gives 500 "Failed to send email: " with its status, a working one 200 with the id |
| SendNotification.SendFailure | supabase/functions/send-notification/index.ts:108-112 | the 500 message for a failing email API is "Failed to send email: " followed by digits that read back as that API's status |
| AnalyzeResume.UserPrompt | supabase/functions/analyze-resume/index.ts:50-54 | "Analyze this resume:\n\n" and the resume, then the job-description part exactly when the job description is non-empty |
| AnalyzeResume.GatewayFailure | supabase/functions/analyze-resume/index.ts:73-90 | 429 and 402 keep their status with their messages; any other failure is 500 "AI analysis failed" |
| AnalyzeResume.ExtractJson | supabase/functions/analyze-resume/index.ts:102-104 | a match exists exactly when some `}` follows some `{` |
| AnalyzeResume.NoBracePair | supabase/functions/analyze-resume/index.ts:102 | when no `}` comes after the first `{`, none comes after any `{` |
| AnalyzeResume.ExtractJsonSpan | supabase/functions/analyze-resume/index.ts:102-104 | with the first `{` at one position and the last `}` at a later one, the match is exactly the text from the one through the other |
| AnalyzeResume.ExtractsWrappedObject | supabase/functions/analyze-resume/index.ts:101-104 | text around one object, such as a code fence, is dropped and the object is extracted whole |
| AnalyzeResume.FallbackAnalysis | supabase/functions/analyze-resume/index.ts:111-119 | score 70, no job match score, the fixed skill, improvement and strength lists, and the content as summary when non-empty or else "Analysis completed with partial results." |
| AnalyzeResume.AnalysisOf | supabase/functions/analyze-resume/index.ts:99-120 | the parsed object exactly when there is content, a match and it parses; otherwise the fallback |
| AnalyzeResume.HandleAnalysis | supabase/functions/analyze-resume/index.ts:8-134 | a missing or empty resume gives 400 "Resume text is required" whatever the key; a missing key gives 500 "AI service not configured"; a failing gateway is mapped by `GatewayFailure`; an ok reply gives 200 with `AnalysisOf` its content |

## Left out

- `fetch`, `reader.read()`, `serve`, the Supabase client and its insert of the notification log are I/O. Statuses, bodies, chunks and replies are inputs instead. A failed log insert does not change the answer in the source and is not modelled.
- `TextDecoder` is a foreign decoder: chunks are already-decoded strings, and a multi-byte character split across chunks is not modelled.
- `JSON.parse` and JSON syntax are not modelled. Parsing is a parameter, and the analysis returned is the extracted JSON text, not the object re-serialised by `JSON.stringify`.
- React's batching of `setMessages`, re-renders, toasts, scrolling and the open/closed state of the widget are UI. Each `setMessages` updater is applied at once to the class's `messages` field.
- ChatBotComponent.ChatBot.HandleSubmit: does not model the asynchrony of the source. The stream runs to its end inside the call, so another submit cannot interleave, and the `isLoading` guard is only seen between calls.
- The system prompts of the chat and analysis functions, the model names, the URLs, the CORS headers and the `OPTIONS` preflight are constants or plumbing, not decisions.
- A request body that is not JSON makes `req.json()` throw a `SyntaxError` (`analyze-resume/index.ts:14`, `send-notification/index.ts:87`); a `null` body or a missing `data` field makes the destructuring or the template throw a `TypeError`. Either becomes a 500 with the runtime's message. The model takes the body's fields as already read.
- An ok reply from the AI gateway or the email API whose body is not JSON makes `response.json()` throw, which becomes a 500 (`analyze-resume/index.ts:93`, `send-notification/index.ts:114`). The model's replies carry already-parsed fields, so it cannot express such a reply.
- A server `error` field or request field that is a JSON value other than a string (a number, `null`) is not modelled: fields are absent or strings.
- A reply body that is JSON `null`, or a reply field that is neither a string nor absent, is not modelled. Reading a field of `null` throws a `TypeError`, and the source does so in three places:
  - `ChatBot.tsx:41,48`: on a non-ok status other than 429 or 402, the `.catch(() => ({}))` does not fire on `null`, so `error.error` throws and the toast shows the runtime's message. The model reads this as no `error` field, giving "Failed to get response".
  - `analyze-resume/index.ts:93-94`: `data.choices` throws outside the inner `try`, so the function answers 500 with the runtime's message. The model can only express absent content, which gives 200 with the fallback.
  - `send-notification/index.ts:133`: `emailResult.id` throws after the email was sent and logged, so the function answers 500. The model answers 200 with the reply's id.
- A gateway `content` that is neither a string nor `null`/absent (a number, an object) makes `content?.substring` throw at `analyze-resume/index.ts:96`, outside the inner `try`, so the function answers 500. A `null` content behaves as absent content does, which the model covers.
- `src/hooks/useAuth.ts`, `src/App.tsx` and the pages are not part of this model. This includes the dashboard's own call to the analysis function.

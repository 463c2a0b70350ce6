/**
 * The streamed reply of the chat assistant (`streamChat` in
 * src/components/ChatBot.tsx) as functions on values: the status check made
 * before streaming, the peeling of `\n`-terminated lines off a text buffer,
 * their classification as `text/event-stream` frames, the folding of deltas
 * into an accumulator and the update of the message list.
 *
 * Chunks arrive already decoded to text. `JSON.parse` and the lookup of
 * `choices[0].delta.content` are a parameter of type `DeltaParser`.
 */
module ChatStream {
  import opened Wrappers
  import opened JsStrings
  import opened FetchApi

  datatype Role = User | Assistant

  datatype Message = Message(role: Role, content: string)

  /**
   * `JSON.parse(payload).choices?.[0]?.delta?.content`: `None` when this
   * throws (a malformed payload, or a payload such as `null` whose `.choices`
   * cannot be read), `Some(None)` when no content is present.
   */
  type DeltaParser = string -> Option<Option<string>>

  // ---------------------------------------------------------------------------
  // The response, before any chunk is read
  // ---------------------------------------------------------------------------

  /** The readable body: the chunks it yields, then the error a later read rejects with, if any. */
  datatype ResponseBody = ResponseBody(chunks: seq<string>, readFailure: Option<string>)

  /**
   * What the endpoint sent back: its status, the `error` field of its JSON
   * body if it parsed and had one, and the body. A JSON body that is `null`
   * is outside the model.
   */
  datatype ChatResponse = ChatResponse(status: int, errorField: Option<string>, body: Option<ResponseBody>)

  /** The errors `streamChat` throws before reading the stream. */
  datatype StreamError = RateLimited | QuotaExceeded | RequestFailed(reason: string) | NoResponseBody
  {
    /** The `message` of the thrown `Error`. */
    function Text(): string {
      match this
      case RateLimited => "Rate limit exceeded. Please wait a moment and try again."
      case QuotaExceeded => "AI service quota exceeded. Please try again later."
      case RequestFailed(reason) => reason
      case NoResponseBody => "No response body"
    }
  }

  /** The status checks of `streamChat`: `None` when the stream is read. */
  function ResponseError(status: int, errorField: Option<string>, hasBody: bool): (r: Option<StreamError>)
    ensures r == None <==> IsOk(status) && hasBody
    ensures status == 429 ==> r == Some(RateLimited)
    ensures status == 402 ==> r == Some(QuotaExceeded)
    ensures !IsOk(status) && status != 429 && status != 402 ==>
              r.Some? && r.value.RequestFailed? &&
              (errorField.Some? && Truthy(errorField.value) ==> r.value.reason == errorField.value) &&
              (errorField.None? || !Truthy(errorField.value) ==> r.value.reason == "Failed to get response")
    ensures IsOk(status) && !hasBody ==> r == Some(NoResponseBody)
  {
    if !IsOk(status) then
      if status == 429 then Some(RateLimited)
      else if status == 402 then Some(QuotaExceeded)
      else Some(RequestFailed(if errorField.Some? && Truthy(errorField.value) then errorField.value
                              else "Failed to get response"))
    else if !hasBody then Some(NoResponseBody)
    else None
  }

  // ---------------------------------------------------------------------------
  // Lines and frames
  // ---------------------------------------------------------------------------

  /** One line taken off the buffer, and what is left after its `\n`. */
  datatype Split = Split(line: string, rest: string)

  /** `if (line.endsWith("\r")) line = line.slice(0, -1)` */
  function StripCR(raw: string): (line: string)
    ensures raw == line || raw == line + "\r"
    ensures raw == line <==> !EndsWith(raw, "\r")
  {
    if EndsWith(raw, "\r") then raw[..|raw| - 1] else raw
  }

  /**
   * The text before the buffer's first `\n`, less one trailing CR, and the
   * text after that `\n`; `None` when the buffer holds no `\n`.
   */
  function NextLine(buffer: string): (r: Option<Split>)
    ensures r.None? <==> '\n' !in buffer
    ensures r.Some? ==> '\n' !in r.value.line && |r.value.rest| < |buffer|
    ensures r.Some? ==>
              || buffer == r.value.line + "\r\n" + r.value.rest
              || (buffer == r.value.line + "\n" + r.value.rest && !EndsWith(r.value.line, "\r"))
  {
    var i := IndexOf(buffer, '\n');
    if i == -1 then None
    else
      var raw, rest := buffer[..i], buffer[i + 1..];
      assert buffer == raw + "\n" + rest;
      var line := StripCR(raw);
      assert line != raw ==> raw + "\n" + rest == line + "\r\n" + rest;
      Some(Split(line, rest))
  }

  /** How a line is handled: skipped, the end sentinel, or a payload to parse. */
  datatype Frame = Ignored | Done | Payload(json: string)

  /**
   * Lines without the `data: ` prefix are skipped. The loop's earlier tests
   * for comments and whitespace-only lines skip nothing more: such lines
   * never start with `data: `.
   */
  function Classify(line: string): (f: Frame)
    ensures StartsWith(line, ":") || AllWhitespace(line) ==> f == Ignored
    ensures f == Ignored <==> !StartsWith(line, "data: ")
    ensures f == Done <==> StartsWith(line, "data: ") && Trim(line[6..]) == "[DONE]"
    ensures f.Payload? ==> f.json == Trim(line[6..]) && f.json != "[DONE]"
  {
    if !StartsWith(line, "data: ") then Ignored
    else
      assert line[0] == 'd';
      var json := Trim(line[6..]);
      if json == "[DONE]" then Done else Payload(json)
  }

  // ---------------------------------------------------------------------------
  // The message list
  // ---------------------------------------------------------------------------

  predicate EndsWithAssistant(messages: seq<Message>) {
    |messages| > 0 && messages[|messages| - 1].role == Assistant
  }

  /**
   * The updater passed to `setMessages` for each delta. The `map` over the
   * list touches only its last element, so it is written as the list without
   * that element followed by the element with its content replaced.
   */
  function UpdateMessages(prev: seq<Message>, acc: string): (r: seq<Message>)
    ensures EndsWithAssistant(prev) ==>
              |r| == |prev| && r[..|prev| - 1] == prev[..|prev| - 1] &&
              r[|prev| - 1] == Message(Assistant, acc)
    ensures !EndsWithAssistant(prev) ==> r == prev + [Message(Assistant, acc)]
  {
    if EndsWithAssistant(prev) then
      var last := |prev| - 1;
      var r := prev[..last] + [prev[last].(content := acc)];
      assert r[..last] == prev[..last];
      r
    else
      prev + [Message(Assistant, acc)]
  }

  /** A later update overrides an earlier one: the list never holds two replies in progress. */
  lemma UpdateMessagesTwice(prev: seq<Message>, a: string, b: string)
    ensures UpdateMessages(UpdateMessages(prev, a), b) == UpdateMessages(prev, b)
  {
    var once := UpdateMessages(prev, a);
    assert EndsWithAssistant(once);
    if !EndsWithAssistant(prev) {
      assert once[..|once| - 1] == prev;
    }
  }

  // ---------------------------------------------------------------------------
  // The line loop
  // ---------------------------------------------------------------------------

  /** `textBuffer`, `assistantContent` and the message list. */
  datatype StreamState = StreamState(buffer: string, acc: string, messages: seq<Message>)

  /** The state when the first chunk is about to be read. */
  function Start(history: seq<Message>): StreamState {
    StreamState("", "", history)
  }

  /** Whether the inner loop goes on to the next line or leaves it. */
  datatype StepResult = Continue(next: StreamState) | Stop(final: StreamState)
  {
    function State(): StreamState {
      match this
      case Continue(s) => s
      case Stop(s) => s
    }
  }

  /**
   * One iteration of the inner loop. Only a non-empty delta touches the
   * accumulator (by appending it) and the message list (through
   * `UpdateMessages`); the loop goes on only after consuming a line.
   */
  function StepLine(parse: DeltaParser, st: StreamState): (r: StepResult)
    ensures r.Continue? ==> |r.next.buffer| < |st.buffer|
    ensures r.State().acc == st.acc ==> r.State().messages == st.messages
    ensures r.State().acc != st.acc ==>
              r.Continue? && |r.State().acc| > |st.acc| && r.State().acc[..|st.acc|] == st.acc &&
              r.State().messages == UpdateMessages(st.messages, r.State().acc)
  {
    match NextLine(st.buffer)
    case None => Stop(st)
    case Some(Split(line, rest)) =>
      match Classify(line)
      case Ignored => Continue(st.(buffer := rest))
      case Done => Stop(st.(buffer := rest))
      case Payload(json) =>
        match parse(json)
        case None => Stop(st.(buffer := line + "\n" + rest))
        case Some(content) =>
          if content.Some? && Truthy(content.value) then
            var acc := st.acc + content.value;
            Continue(StreamState(rest, acc, UpdateMessages(st.messages, acc)))
          else
            Continue(st.(buffer := rest))
  }

  /** The inner loop: lines are taken until none is complete, `[DONE]` or a parse failure. */
  function Drain(parse: DeltaParser, st: StreamState): StreamState
    decreases |st.buffer|
  {
    match StepLine(parse, st)
    case Stop(s) => s
    case Continue(s) => Drain(parse, s)
  }

  /** `long` starts with `short`. */
  predicate Extends(long: string, short: string) {
    |long| >= |short| && long[..|short|] == short
  }

  lemma ExtendsTransitive(a: string, b: string, c: string)
    requires Extends(b, a) && Extends(c, b)
    ensures Extends(c, a)
  {
    assert c[..|a|] == c[..|b|][..|a|];
  }

  lemma StepOnlyAppends(parse: DeltaParser, st: StreamState)
    ensures Extends(StepLine(parse, st).State().acc, st.acc)
  {
  }

  /** The inner loop only appends to the accumulator. */
  lemma {:induction false} DrainOnlyAppends(parse: DeltaParser, st: StreamState)
    ensures Extends(Drain(parse, st).acc, st.acc)
    decreases |st.buffer|
  {
    var step := StepLine(parse, st);
    StepOnlyAppends(parse, st);
    if step.Continue? {
      DrainOnlyAppends(parse, step.next);
      ExtendsTransitive(st.acc, step.next.acc, Drain(parse, step.next).acc);
    }
  }

  /** A step that goes on leaves the rest of the inner loop to the state it reaches. */
  lemma DrainAfterContinue(parse: DeltaParser, st: StreamState, next: StreamState)
    requires StepLine(parse, st) == Continue(next)
    ensures Drain(parse, st) == Drain(parse, next)
  {
  }

  /** One turn of the outer loop: the chunk is appended to the buffer, then lines are taken. */
  function FeedChunk(parse: DeltaParser, st: StreamState, chunk: string): StreamState {
    Drain(parse, st.(buffer := st.buffer + chunk))
  }

  /** The outer loop over the chunks read so far. */
  function FeedAll(parse: DeltaParser, st: StreamState, chunks: seq<string>): StreamState {
    if chunks == [] then st
    else FeedChunk(parse, FeedAll(parse, st, chunks[..|chunks| - 1]), chunks[|chunks| - 1])
  }

  lemma FeedAllSingle(parse: DeltaParser, st: StreamState, chunk: string)
    ensures FeedAll(parse, st, [chunk]) == FeedChunk(parse, st, chunk)
  {
    assert [chunk][..0] == [];
  }

  lemma FeedAllSnoc(parse: DeltaParser, st: StreamState, chunks: seq<string>, chunk: string)
    ensures FeedAll(parse, st, chunks + [chunk]) == FeedChunk(parse, FeedAll(parse, st, chunks), chunk)
  {
    assert (chunks + [chunk])[..|chunks|] == chunks;
  }

  /** The outer loop's turn `i`: the chunks read so far, then chunk `i`. */
  lemma FeedAllStep(parse: DeltaParser, st: StreamState, chunks: seq<string>, i: nat)
    requires i < |chunks|
    ensures FeedAll(parse, st, chunks[..i + 1]) == FeedChunk(parse, FeedAll(parse, st, chunks[..i]), chunks[i])
  {
    assert chunks[..i + 1][..i] == chunks[..i];
  }

  /** The chunks joined into one text. */
  function Concat(chunks: seq<string>): string {
    if chunks == [] then "" else Concat(chunks[..|chunks| - 1]) + chunks[|chunks| - 1]
  }

  // ---------------------------------------------------------------------------
  // Single lines
  // ---------------------------------------------------------------------------

  /** A line the loop skips leaves the accumulator and the messages as they were. */
  lemma SkippedLineHasNoEffect(parse: DeltaParser, st: StreamState, line: string, rest: string)
    requires NextLine(st.buffer) == Some(Split(line, rest))
    requires StartsWith(line, ":") || AllWhitespace(line) || !StartsWith(line, "data: ")
    ensures StepLine(parse, st) == Continue(StreamState(rest, st.acc, st.messages))
  {
    assert Classify(line) == Ignored;
  }

  /**
   * A payload that parses: a non-empty delta is appended to the accumulator,
   * which then replaces the reply; an absent or empty delta only consumes the line.
   */
  lemma DeltaIsAppended(parse: DeltaParser, st: StreamState, line: string, rest: string)
    requires NextLine(st.buffer) == Some(Split(line, rest))
    requires Classify(line).Payload? && parse(Classify(line).json).Some?
    ensures var content := parse(Classify(line).json).value;
            content.Some? && content.value != "" ==>
              StepLine(parse, st)
              == Continue(StreamState(rest, st.acc + content.value, UpdateMessages(st.messages, st.acc + content.value)))
    ensures var content := parse(Classify(line).json).value;
            content.None? || content.value == "" ==>
              StepLine(parse, st) == Continue(StreamState(rest, st.acc, st.messages))
  {
    var r := StepLine(parse, st);
    var content := parse(Classify(line).json).value;
    if content.Some? && content.value != "" {
      var acc := st.acc + content.value;
      assert r == Continue(StreamState(rest, acc, UpdateMessages(st.messages, acc)));
    } else {
      assert r == Continue(st.(buffer := rest));
    }
  }

  /** When the buffer holds a `\n`, more text behind it does not change the first line. */
  lemma NextLineAppend(b: string, y: string)
    requires '\n' in b
    ensures NextLine(b + y) == Some(Split(NextLine(b).value.line, NextLine(b).value.rest + y))
  {
    IndexOfPrefix(b, y, '\n');
    var i := IndexOf(b, '\n');
    assert (b + y)[..i] == b[..i];
    assert (b + y)[i + 1..] == b[i + 1..] + y;
  }

  /** A line put back in front of the buffer is the next line taken, less one more trailing CR. */
  lemma NextLineOf(line: string, rest: string)
    requires '\n' !in line
    ensures NextLine(line + "\n" + rest) == Some(Split(StripCR(line), rest))
  {
    var b := line + "\n" + rest;
    assert b[|line|] == '\n';
    IndexOfIsFirst(b, '\n', |line|);
    assert forall m :: 0 <= m < |line| ==> b[m] == line[m];
    assert IndexOf(b, '\n') == |line|;
    assert b[..|line|] == line;
    assert b[|line| + 1..] == rest;
  }

  /** Whitespace after a `data: ` line does not change how it is handled. */
  lemma ClassifyIgnoresTrailingWhitespace(s: string, c: char)
    requires StartsWith(s, "data: ") && IsJsWhitespace(c)
    ensures Classify(s + [c]) == Classify(s)
  {
    var t := s + [c];
    assert t[..6] == s[..6];
    assert t[6..] == s[6..] + [c];
    TrimDropsTrailingWhitespace(s[6..], c);
  }

  /** Dropping a trailing CR from a payload line leaves its payload as it was. */
  lemma StripKeepsPayload(line: string)
    requires Classify(line).Payload?
    ensures Classify(StripCR(line)) == Classify(line)
  {
    var s := StripCR(line);
    if s != line {
      assert line == s + "\r";
      assert line[5] == ' ';
      assert |s| >= 6 && s[..6] == line[..6];
      ClassifyIgnoresTrailingWhitespace(s, '\r');
    }
  }

  // ---------------------------------------------------------------------------
  // Accumulator and messages over the whole stream
  // ---------------------------------------------------------------------------

  /** The accumulator only ever grows by appending, across any number of chunks. */
  lemma {:induction false} AccumulatorOnlyGrows(parse: DeltaParser, st: StreamState, chunks: seq<string>)
    ensures Extends(FeedAll(parse, st, chunks).acc, st.acc)
  {
    if chunks != [] {
      var prefix := chunks[..|chunks| - 1];
      AccumulatorOnlyGrows(parse, st, prefix);
      var mid := FeedAll(parse, st, prefix);
      DrainOnlyAppends(parse, mid.(buffer := mid.buffer + chunks[|chunks| - 1]));
      ExtendsTransitive(st.acc, mid.acc, FeedAll(parse, st, chunks).acc);
    }
  }

  /** The message list shown for a history and an accumulator: the history until a delta arrives. */
  function Shown(history: seq<Message>, acc: string): seq<Message> {
    if acc == "" then history else UpdateMessages(history, acc)
  }

  lemma StepKeepsShown(parse: DeltaParser, history: seq<Message>, st: StreamState)
    requires st.messages == Shown(history, st.acc)
    ensures StepLine(parse, st).State().messages == Shown(history, StepLine(parse, st).State().acc)
  {
    var r := StepLine(parse, st).State();
    if r.acc != st.acc {
      if st.acc != "" { UpdateMessagesTwice(history, st.acc, r.acc); }
    }
  }

  lemma {:induction false} DrainKeepsShown(parse: DeltaParser, history: seq<Message>, st: StreamState)
    requires st.messages == Shown(history, st.acc)
    ensures Drain(parse, st).messages == Shown(history, Drain(parse, st).acc)
    decreases |st.buffer|
  {
    StepKeepsShown(parse, history, st);
    match StepLine(parse, st)
    case Stop(s) =>
    case Continue(s) => DrainKeepsShown(parse, history, s);
  }

  /**
   * Whatever the chunks, the message list is the history while no delta has
   * arrived, and afterwards the history with a single assistant reply holding
   * the whole accumulator, which replaces a trailing assistant message.
   */
  lemma {:induction false} MessagesFollowAccumulator(parse: DeltaParser, history: seq<Message>, chunks: seq<string>)
    ensures var r := FeedAll(parse, Start(history), chunks); r.messages == Shown(history, r.acc)
  {
    if chunks != [] {
      var prefix := chunks[..|chunks| - 1];
      MessagesFollowAccumulator(parse, history, prefix);
      var mid := FeedAll(parse, Start(history), prefix);
      DrainKeepsShown(parse, history, mid.(buffer := mid.buffer + chunks[|chunks| - 1]));
    }
  }

  /** `messages` is `history` followed by at most one message, an assistant reply. */
  predicate AtMostOneReply(history: seq<Message>, messages: seq<Message>) {
    && |history| <= |messages| <= |history| + 1
    && messages[..|history|] == history
    && (|messages| > |history| ==> messages[|history|].role == Assistant)
  }

  /** After a user turn, the stream adds at most one message: the assistant reply. */
  lemma OneAssistantReply(parse: DeltaParser, history: seq<Message>, chunks: seq<string>)
    requires |history| > 0 && history[|history| - 1].role == User
    ensures var r := FeedAll(parse, Start(history), chunks);
            || (r.acc == "" && r.messages == history)
            || (r.acc != "" && r.messages == history + [Message(Assistant, r.acc)])
    ensures var r := FeedAll(parse, Start(history), chunks);
            && AtMostOneReply(history, r.messages)
            && (|r.messages| > |history| ==> r.messages[|history|] == Message(Assistant, r.acc))
  {
    MessagesFollowAccumulator(parse, history, chunks);
    var r := FeedAll(parse, Start(history), chunks);
    if r.acc != "" {
      assert (history + [Message(Assistant, r.acc)])[..|history|] == history;
    }
  }

  // ---------------------------------------------------------------------------
  // Chunk boundaries
  // ---------------------------------------------------------------------------

  /** Every complete line of the text is skipped or is a payload that parses. */
  predicate GoodLines(parse: DeltaParser, text: string)
    decreases |text|
  {
    match NextLine(text)
    case None => true
    case Some(Split(line, rest)) =>
      match Classify(line)
      case Ignored => GoodLines(parse, rest)
      case Done => false
      case Payload(json) => parse(json).Some? && GoodLines(parse, rest)
  }

  lemma {:induction false} GoodLinesPrefix(parse: DeltaParser, x: string, y: string)
    requires GoodLines(parse, x + y)
    ensures GoodLines(parse, x)
    decreases |x|
  {
    if '\n' in x {
      NextLineAppend(x, y);
      var rest := NextLine(x).value.rest;
      assert GoodLines(parse, rest + y);
      GoodLinesPrefix(parse, rest, y);
    }
  }

  /** A line that is skipped or parses lets the loop go on past it. */
  lemma GoodLineContinues(parse: DeltaParser, st: StreamState, line: string, rest: string)
    requires NextLine(st.buffer) == Some(Split(line, rest))
    requires Classify(line) != Done && (Classify(line).Payload? ==> parse(Classify(line).json).Some?)
    ensures StepLine(parse, st).Continue? && StepLine(parse, st).next.buffer == rest
  {
  }

  /** A step looks at the buffer only through its first line. */
  lemma StepLineSameLine(parse: DeltaParser, st: StreamState, other: StreamState, line: string, rest: string, rest2: string)
    requires NextLine(st.buffer) == Some(Split(line, rest)) && StepLine(parse, st).Continue?
    requires NextLine(other.buffer) == Some(Split(line, rest2))
    requires other.acc == st.acc && other.messages == st.messages
    ensures StepLine(parse, other) == Continue(StepLine(parse, st).next.(buffer := rest2))
  {
    var next := StepLine(parse, st).next;
    if Classify(line).Ignored? {
      assert next == st.(buffer := rest);
    } else {
      var json := Classify(line).json;
      var content := parse(json).value;
      if content.Some? && Truthy(content.value) {
        assert next == StreamState(rest, st.acc + content.value, UpdateMessages(st.messages, st.acc + content.value));
      } else {
        assert next == st.(buffer := rest);
      }
    }
  }

  /** Over a line that goes through, a step on a longer buffer is the same step with the text carried along. */
  lemma StepLineAppend(parse: DeltaParser, st: StreamState, y: string)
    requires '\n' in st.buffer && GoodLines(parse, st.buffer + y)
    ensures StepLine(parse, st).Continue?
    ensures StepLine(parse, st.(buffer := st.buffer + y))
         == Continue(StepLine(parse, st).next.(buffer := StepLine(parse, st).next.buffer + y))
    ensures GoodLines(parse, StepLine(parse, st).next.buffer + y)
  {
    var split := NextLine(st.buffer).value;
    NextLineAppend(st.buffer, y);
    assert NextLine(st.buffer + y) == Some(Split(split.line, split.rest + y));
    GoodLineContinues(parse, st, split.line, split.rest);
    StepLineSameLine(parse, st, st.(buffer := st.buffer + y), split.line, split.rest, split.rest + y);
  }

  /** Over lines that all go through, draining before more text arrives changes nothing. */
  lemma {:induction false} DrainAppend(parse: DeltaParser, st: StreamState, y: string)
    requires GoodLines(parse, st.buffer + y)
    ensures var d := Drain(parse, st); Drain(parse, d.(buffer := d.buffer + y)) == Drain(parse, st.(buffer := st.buffer + y))
    decreases |st.buffer|
  {
    if '\n' in st.buffer {
      StepLineAppend(parse, st, y);
      DrainAppend(parse, StepLine(parse, st).next, y);
    } else {
      assert NextLine(st.buffer) == None;
    }
  }

  /** Feeding two pieces one after the other is feeding them joined. */
  lemma FeedSplit(parse: DeltaParser, st: StreamState, x: string, y: string)
    requires GoodLines(parse, st.buffer + x + y)
    ensures FeedChunk(parse, FeedChunk(parse, st, x), y) == FeedChunk(parse, st, x + y)
  {
    DrainAppend(parse, st.(buffer := st.buffer + x), y);
    assert st.buffer + x + y == st.buffer + (x + y);
  }

  lemma {:induction false} FeedAllIsOneChunk(parse: DeltaParser, st: StreamState, chunks: seq<string>)
    requires '\n' !in st.buffer
    requires GoodLines(parse, st.buffer + Concat(chunks))
    ensures FeedAll(parse, st, chunks) == FeedChunk(parse, st, Concat(chunks))
  {
    if chunks == [] {
      assert st.buffer + "" == st.buffer;
    } else {
      var prefix, last := chunks[..|chunks| - 1], chunks[|chunks| - 1];
      assert st.buffer + Concat(chunks) == (st.buffer + Concat(prefix)) + last;
      GoodLinesPrefix(parse, st.buffer + Concat(prefix), last);
      FeedAllIsOneChunk(parse, st, prefix);
      FeedSplit(parse, st, Concat(prefix), last);
    }
  }

  /**
   * With no `[DONE]` line and no payload that fails to parse, the stream ends
   * in the same state however its text was cut into chunks.
   */
  lemma ChunkBoundariesDoNotMatter(parse: DeltaParser, history: seq<Message>, chunks: seq<string>)
    requires GoodLines(parse, Concat(chunks))
    ensures FeedAll(parse, Start(history), chunks) == FeedAll(parse, Start(history), [Concat(chunks)])
  {
    assert Start(history).buffer + Concat(chunks) == Concat(chunks);
    FeedAllIsOneChunk(parse, Start(history), chunks);
    FeedAllSingle(parse, Start(history), Concat(chunks));
  }

  /** Text after the last complete line is never parsed: at the end of the stream it is dropped. */
  lemma UnterminatedTextIsNotParsed(parse: DeltaParser, st: StreamState, tail: string)
    requires '\n' !in st.buffer + tail
    ensures FeedChunk(parse, st, tail) == StreamState(st.buffer + tail, st.acc, st.messages)
  {
  }

  // ---------------------------------------------------------------------------
  // [DONE] and parse failures
  // ---------------------------------------------------------------------------

  lemma {:induction false} FeedAllCons(parse: DeltaParser, st: StreamState, first: string, more: seq<string>)
    ensures FeedAll(parse, st, [first] + more) == FeedAll(parse, FeedChunk(parse, st, first), more)
  {
    if more == [] {
      assert [first] + more == [first];
      FeedAllSingle(parse, st, first);
    } else {
      var init, last := more[..|more| - 1], more[|more| - 1];
      assert [first] + more == ([first] + init) + [last];
      assert more == init + [last];
      FeedAllSnoc(parse, st, [first] + init, last);
      FeedAllCons(parse, st, first, init);
      FeedAllSnoc(parse, FeedChunk(parse, st, first), init, last);
    }
  }

  /**
   * `[DONE]` ends the line loop of the current chunk only: the lines behind
   * it stay in the buffer and later chunks are still read and processed.
   */
  lemma DoneEndsOnlyThisChunk(parse: DeltaParser, st: StreamState, chunk: string, more: seq<string>, line: string, rest: string)
    requires NextLine(st.buffer + chunk) == Some(Split(line, rest)) && Classify(line) == Done
    ensures FeedChunk(parse, st, chunk) == StreamState(rest, st.acc, st.messages)
    ensures FeedAll(parse, st, [chunk] + more) == FeedAll(parse, StreamState(rest, st.acc, st.messages), more)
  {
    FeedAllCons(parse, st, chunk, more);
  }

  /** A buffer holding one complete payload line with a non-empty delta drains to the updated state. */
  lemma DrainSinglePayload(parse: DeltaParser, st: StreamState, line: string, delta: string)
    requires st.buffer == line + "\n" && '\n' !in line && !EndsWith(line, "\r")
    requires Classify(line).Payload? && parse(Classify(line).json) == Some(Some(delta)) && delta != ""
    ensures Drain(parse, st) == StreamState("", st.acc + delta, UpdateMessages(st.messages, st.acc + delta))
  {
    var fed := st;
    var next := StreamState("", st.acc + delta, UpdateMessages(st.messages, st.acc + delta));
    assert NextLine(fed.buffer) == Some(Split(line, "")) by {
      assert line + "\n" == line + "\n" + "";
      NextLineOf(line, "");
    }
    DeltaIsAppended(parse, fed, line, "");
    assert Drain(parse, fed) == Drain(parse, next);
    assert Drain(parse, next) == next by {
      assert NextLine("") == None;
      assert StepLine(parse, next) == Stop(next);
    }
  }

  /** The sentinel line as the server sends it. */
  lemma SentinelLine()
    ensures var done := "data: [DONE]";
            '\n' !in done && !EndsWith(done, "\r") && Classify(done) == Done
  {
    var done := "data: [DONE]";
    SentinelIsOneLine(done);
    SentinelPayload(done);
  }

  lemma SentinelIsOneLine(done: string)
    requires done == "data: [DONE]"
    ensures '\n' !in done && !EndsWith(done, "\r")
  {
    assert forall i | 0 <= i < |done| :: done[i] != '\n';
    assert done[|done| - 1] == ']';
  }

  lemma SentinelPayload(done: string)
    requires done == "data: [DONE]"
    ensures Classify(done) == Done
  {
    assert done[..6] == "data: ";
    var payload := done[6..];
    assert payload == "[DONE]";
    assert payload[0] == '[' && payload[|payload| - 1] == ']';
    TrimOfTrimmed(payload);
  }

  /** A chunk holding the sentinel line and then a payload line leaves the payload in the buffer. */
  lemma DoneLeavesLaterLines(parse: DeltaParser, st: StreamState, done: string, line: string)
    requires st.buffer == "" && '\n' !in done && !EndsWith(done, "\r") && Classify(done) == Done
    ensures FeedChunk(parse, st, done + "\n" + line + "\n") == st.(buffer := line + "\n")
  {
    assert st.buffer + (done + "\n" + line + "\n") == done + "\n" + (line + "\n");
    NextLineOf(done, line + "\n");
    DoneEndsOnlyThisChunk(parse, st, done + "\n" + line + "\n", [], done, line + "\n");
  }

  /** A complete line left in the buffer is taken as soon as any chunk arrives, even an empty one. */
  lemma LeftoverLineTakenOnNextChunk(parse: DeltaParser, history: seq<Message>, line: string, delta: string)
    requires '\n' !in line && !EndsWith(line, "\r")
    requires Classify(line).Payload? && parse(Classify(line).json) == Some(Some(delta)) && delta != ""
    requires !EndsWithAssistant(history)
    ensures var r := FeedChunk(parse, StreamState(line + "\n", "", history), "");
            r.acc == delta && r.messages == history + [Message(Assistant, delta)]
  {
    var mid := StreamState(line + "\n", "", history);
    assert FeedChunk(parse, mid, "") == Drain(parse, mid) by {
      assert mid.buffer + "" == mid.buffer;
    }
    DrainSinglePayload(parse, mid, line, delta);
  }

  /**
   * A payload behind the sentinel line (`data: [DONE]` as `SentinelLine`
   * shows, or any spacing of it) in the same chunk is still applied, as soon
   * as the next chunk arrives, even an empty one.
   */
  lemma DeltaAfterDoneIsApplied(parse: DeltaParser, history: seq<Message>, done: string, line: string, delta: string)
    requires '\n' !in done && !EndsWith(done, "\r") && Classify(done) == Done
    requires '\n' !in line && !EndsWith(line, "\r")
    requires Classify(line).Payload? && parse(Classify(line).json) == Some(Some(delta)) && delta != ""
    requires !EndsWithAssistant(history)
    ensures var r := FeedChunk(parse, FeedChunk(parse, Start(history), done + "\n" + line + "\n"), "");
            r.acc == delta && r.messages == history + [Message(Assistant, delta)]
  {
    DoneLeavesLaterLines(parse, Start(history), done, line);
    LeftoverLineTakenOnNextChunk(parse, history, line, delta);
  }

  /** The buffer starts with a complete payload line that does not parse. */
  predicate Stalled(parse: DeltaParser, buffer: string) {
    match NextLine(buffer)
    case None => false
    case Some(Split(line, _)) => Classify(line).Payload? && parse(Classify(line).json).None?
  }

  /**
   * A payload that fails to parse is put back, with its `\n`, in front of the
   * buffer; the line loop stops with the accumulator and messages unchanged,
   * and the same payload is the first line again.
   */
  lemma FailedParseRebuffers(parse: DeltaParser, st: StreamState)
    requires Stalled(parse, st.buffer)
    ensures var s := NextLine(st.buffer).value;
            Drain(parse, st) == StreamState(s.line + "\n" + s.rest, st.acc, st.messages)
    ensures Stalled(parse, Drain(parse, st).buffer)
  {
    var s := NextLine(st.buffer).value;
    NextLineOf(s.line, s.rest);
    StripKeepsPayload(s.line);
  }

  /** Once stalled, no later chunk advances the accumulator or the messages. */
  lemma {:induction false} StallIsPermanent(parse: DeltaParser, st: StreamState, chunks: seq<string>)
    requires Stalled(parse, st.buffer)
    ensures var r := FeedAll(parse, st, chunks);
            r.acc == st.acc && r.messages == st.messages && Stalled(parse, r.buffer)
  {
    if chunks != [] {
      var prefix := chunks[..|chunks| - 1];
      StallIsPermanent(parse, st, prefix);
      var mid := FeedAll(parse, st, prefix);
      var fed := mid.(buffer := mid.buffer + chunks[|chunks| - 1]);
      NextLineAppend(mid.buffer, chunks[|chunks| - 1]);
      FailedParseRebuffers(parse, fed);
    }
  }

  /** Two deltas in one stream make one assistant message holding both. */
  lemma DeltasAccumulateInOneMessage(parse: DeltaParser, history: seq<Message>, a: string, b: string, d1: string, d2: string)
    requires Classify(a).Payload? && parse(Classify(a).json) == Some(Some(d1)) && d1 != ""
    requires Classify(b).Payload? && parse(Classify(b).json) == Some(Some(d2)) && d2 != ""
    requires '\n' !in a && '\n' !in b && !EndsWith(a, "\r") && !EndsWith(b, "\r")
    requires !EndsWithAssistant(history)
    ensures FeedAll(parse, Start(history), [a + "\n" + b + "\n"]).messages == history + [Message(Assistant, d1 + d2)]
  {
    var text := a + "\n" + b + "\n";
    var s0 := StreamState(text, "", history);
    var s1 := StreamState(b + "\n", d1, history + [Message(Assistant, d1)]);
    assert text == a + "\n" + (b + "\n");
    NextLineOf(a, b + "\n");
    DeltaIsAppended(parse, s0, a, b + "\n");
    assert "" + d1 == d1;
    DrainAfterContinue(parse, s0, s1);
    DrainSinglePayload(parse, s1, b, d2);
    UpdateMessagesTwice(history, d1, d1 + d2);
    FeedAllSingle(parse, Start(history), text);
    assert Start(history).(buffer := Start(history).buffer + text) == s0;
  }
}

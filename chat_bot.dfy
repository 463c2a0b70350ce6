/**
 * The chat widget's state and the two operations that change it
 * (src/components/ChatBot.tsx): `streamChat`, which reads the streamed reply
 * chunk by chunk into the message list, and `handleSubmit`, which guards,
 * appends the user's turn, streams, and rolls back on error.
 */
module ChatBotComponent {
  import opened Wrappers
  import opened JsStrings
  import opened FetchApi
  import opened ChatStream

  /** The message of the error `streamChat` throws for a response, if it throws one. */
  function StreamFailure(response: ChatResponse): (r: Option<string>)
    ensures r.None? <==> IsOk(response.status) && response.body.Some? && response.body.value.readFailure.None?
    ensures var e := ResponseError(response.status, response.errorField, response.body.Some?);
            e.Some? ==> r == Some(e.value.Text())
    ensures ResponseError(response.status, response.errorField, response.body.Some?).None? ==>
              r == response.body.value.readFailure
  {
    match ResponseError(response.status, response.errorField, response.body.Some?)
    case Some(e) => Some(e.Text())
    case None => response.body.value.readFailure
  }

  class ChatBot {
    var messages: seq<Message>
    var input: string
    var isLoading: bool

    constructor ()
      ensures messages == [] && input == "" && !isLoading
    {
      messages, input, isLoading := [], "", false;
    }

    /**
     * Reads the response: a status error leaves the messages alone; otherwise
     * every chunk is fed through the line loop, and the messages end as the
     * chunks leave them, whether or not a later read fails.
     */
    method StreamChat(response: ChatResponse, parse: DeltaParser) returns (failure: Option<string>)
      modifies this`messages
      ensures failure == StreamFailure(response)
      ensures ResponseError(response.status, response.errorField, response.body.Some?).Some? ==>
                messages == old(messages)
      ensures ResponseError(response.status, response.errorField, response.body.Some?).None? ==>
                messages == FeedAll(parse, Start(old(messages)), response.body.value.chunks).messages
    {
      var error := ResponseError(response.status, response.errorField, response.body.Some?);
      if error.Some? {
        return Some(error.value.Text());
      }

      var chunks := response.body.value.chunks;
      var textBuffer := "";
      var assistantContent := "";
      var i := 0;
      while i < |chunks|
        invariant 0 <= i <= |chunks|
        invariant FeedAll(parse, Start(old(messages)), chunks[..i]) == StreamState(textBuffer, assistantContent, messages)
      {
        textBuffer, assistantContent := DrainLines(parse, textBuffer + chunks[i], assistantContent);
        FeedAllStep(parse, Start(old(messages)), chunks, i);
        i := i + 1;
      }
      assert chunks[..i] == chunks;
      failure := response.body.value.readFailure;
    }

    /**
     * The inner loop of `streamChat`: complete lines are taken from the
     * buffer until none is left, `[DONE]` is read, or a payload fails to
     * parse (and is put back). Comments, blank lines and other fields are
     * skipped; each non-empty delta extends the accumulated reply.
     */
    method DrainLines(parse: DeltaParser, buffer: string, acc: string) returns (textBuffer: string, assistantContent: string)
      modifies this`messages
      ensures StreamState(textBuffer, assistantContent, messages) == Drain(parse, StreamState(buffer, acc, old(messages)))
    {
      textBuffer, assistantContent := buffer, acc;
      ghost var fed := StreamState(buffer, acc, messages);
      while true
        invariant Drain(parse, StreamState(textBuffer, assistantContent, messages)) == Drain(parse, fed)
        decreases |textBuffer|
      {
        ghost var st := StreamState(textBuffer, assistantContent, messages);
        var newlineIndex := IndexOf(textBuffer, '\n');
        if newlineIndex == -1 {
          assert StepLine(parse, st) == Stop(st);
          return;
        }
        var line := textBuffer[..newlineIndex];
        textBuffer := textBuffer[newlineIndex + 1..];
        if EndsWith(line, "\r") {
          line := line[..|line| - 1];
        }
        assert NextLine(st.buffer) == Some(Split(line, textBuffer));
        if StartsWith(line, ":") || Trim(line) == "" {
          SkippedLineHasNoEffect(parse, st, line, textBuffer);
          continue;
        }
        if !StartsWith(line, "data: ") {
          SkippedLineHasNoEffect(parse, st, line, textBuffer);
          continue;
        }
        var jsonStr := Trim(line[6..]);
        if jsonStr == "[DONE]" {
          assert StepLine(parse, st) == Stop(st.(buffer := textBuffer));
          return;
        }
        assert Classify(line) == Payload(jsonStr);
        match parse(jsonStr) {
          case Some(content) =>
            DeltaIsAppended(parse, st, line, textBuffer);
            if content.Some? && Truthy(content.value) {
              assistantContent := assistantContent + content.value;
              messages := UpdateMessages(messages, assistantContent);
            }
          case None =>
            textBuffer := line + "\n" + textBuffer;
            assert StepLine(parse, st) == Stop(StreamState(textBuffer, assistantContent, messages));
            return;
        }
      }
    }

    /**
     * Submitting does nothing while the trimmed input is empty or a reply is
     * streaming; otherwise the trimmed input is sent.
     */
    method HandleSubmit(response: ChatResponse, parse: DeltaParser) returns (toast: Option<string>)
      modifies this
      ensures !Truthy(Trim(old(input))) || old(isLoading) ==>
                messages == old(messages) && input == old(input) && isLoading == old(isLoading) && toast == None
      ensures Truthy(Trim(old(input))) && !old(isLoading) ==>
                input == "" && !isLoading && toast == StreamFailure(response)
      ensures Truthy(Trim(old(input))) && !old(isLoading) && toast.Some? ==> messages == old(messages)
      ensures Truthy(Trim(old(input))) && !old(isLoading) && toast.None? ==>
                var sent := old(messages) + [Message(User, Trim(old(input)))];
                && messages == FeedAll(parse, Start(sent), response.body.value.chunks).messages
                && AtMostOneReply(sent, messages)
    {
      var trimmed := Trim(input);
      if !Truthy(trimmed) || isLoading {
        return None;
      }
      toast := Send(trimmed, response, parse);
    }

    /**
     * The user's turn is appended and the input cleared; the stream then adds
     * at most the one assistant reply, and on any error the list returns to
     * its value before the turn was added.
     */
    method Send(text: string, response: ChatResponse, parse: DeltaParser) returns (toast: Option<string>)
      modifies this
      ensures input == "" && !isLoading && toast == StreamFailure(response)
      ensures toast.Some? ==> messages == old(messages)
      ensures toast.None? ==>
                var sent := old(messages) + [Message(User, text)];
                && messages == FeedAll(parse, Start(sent), response.body.value.chunks).messages
                && AtMostOneReply(sent, messages)
    {
      var userMessage := Message(User, text);
      var previous := messages;
      var updatedMessages := messages + [userMessage];
      messages := updatedMessages;
      input := "";
      isLoading := true;

      var failure := StreamChat(response, parse);
      if failure.Some? {
        toast := failure;
        messages := previous;
      } else {
        toast := None;
        assert AtMostOneReply(updatedMessages, messages) by {
          OneAssistantReply(parse, updatedMessages, response.body.value.chunks);
        }
      }
      isLoading := false;
    }
  }
}

/** The chat page's component (`ChatInterface`): its message list, the
    reader of the server's event stream, the stop button and the pick-up of a
    first message left in session storage by a new-chat form. The network is
    an oracle: each send is given the reply it receives. */
module ChatClient {
  import opened Wrappers
  import opened Text
  import opened Json
  import opened Wire
  import opened Session

  datatype Role = User | Assistant

  /** A message as the component holds it (`id` and `created_at` are left out). */
  datatype ChatMessage = ChatMessage(role: Role, content: string)

  function RoleName(role: Role): string
  {
    match role
    case User => "user"
    case Assistant => "assistant"
  }

  /** The messages as the request body carries them: role name and content, in order. */
  function Project(messages: seq<ChatMessage>): (r: seq<WireMessage>)
    ensures |r| == |messages|
    ensures forall i :: 0 <= i < |messages| ==> r[i] == WireMessage(RoleName(messages[i].role), messages[i].content)
  {
    if messages == [] then [] else [WireMessage(RoleName(messages[0].role), messages[0].content)] + Project(messages[1..])
  }

  const Apology: string := "Sorry, an error occurred. Please try again."

  /** The list with its last message's content replaced, when that message is
      the assistant's; otherwise the list as it was. */
  function WithLastAssistant(messages: seq<ChatMessage>, content: string): seq<ChatMessage>
  {
    if |messages| > 0 && messages[|messages| - 1].role == Assistant
    then messages[..|messages| - 1] + [ChatMessage(Assistant, content)]
    else messages
  }

  /** Only the last message can change, and only an assistant's: it then
      carries the new content and every earlier message stays as it was. */
  lemma WithLastAssistantEffect(messages: seq<ChatMessage>, content: string)
    ensures |WithLastAssistant(messages, content)| == |messages|
    ensures forall i :: 0 <= i < |messages| - 1 ==> WithLastAssistant(messages, content)[i] == messages[i]
    ensures |messages| > 0 && messages[|messages| - 1].role == Assistant
            ==> WithLastAssistant(messages, content)[|messages| - 1] == ChatMessage(Assistant, content)
    ensures !(|messages| > 0 && messages[|messages| - 1].role == Assistant)
            ==> WithLastAssistant(messages, content) == messages
  {
  }

  lemma WithLastAssistantTwice(messages: seq<ChatMessage>, a: string, b: string)
    ensures WithLastAssistant(WithLastAssistant(messages, a), b) == WithLastAssistant(messages, b)
  {
    if |messages| > 0 && messages[|messages| - 1].role == Assistant {
      assert WithLastAssistant(messages, a)[..|messages| - 1] == messages[..|messages| - 1];
    }
  }

  // ---- the event-stream reader -------------------------------------------

  /** Whether the line starts with the data prefix. */
  predicate IsDataLine(line: string) {
    StripPrefix(line, DataPrefix).Some?
  }

  /** A data line whose payload is `[DONE]`. */
  predicate IsDoneLine(line: string) {
    line == DataPrefix + DoneMarker
  }

  /** What a line adds to the answer: the decoded `content` of a data line,
      and nothing for any other line or for a payload that does not parse. */
  function LineContent(line: string): string
  {
    match StripPrefix(line, DataPrefix)
    case None => ""
    case Some(data) =>
      match DecodeContent(data)
      case Some(c) => c
      case None => ""
  }

  /** The lines of one read that the inner loop looks at: all of them up to
      the first done line. */
  function UntilDone(lines: seq<string>): seq<string>
  {
    TakeUntil(IsDoneLine, lines)
  }

  /** The text the given lines add, in order. */
  function LinesText(lines: seq<string>): string
  {
    ConcatMap(LineContent, lines)
  }

  /** The lines of one read, cut at every line feed. */
  function Lines(read: string): seq<string>
  {
    Split(read, '\n')
  }

  /** The text one read adds: its lines, processed up to the `[DONE]` line. */
  function ReadText(read: string): string
  {
    LinesText(UntilDone(Lines(read)))
  }

  /** The text all reads add: the final `accumulatedContent`. */
  function ReceivedText(pieces: seq<string>): string
  {
    ConcatMap(ReadText, pieces)
  }

  /** Replacing the content of an assistant's last message. */
  lemma ReplaceLast(prefix: seq<ChatMessage>, before: string, after: string)
    ensures WithLastAssistant(prefix + [ChatMessage(Assistant, before)], after) == prefix + [ChatMessage(Assistant, after)]
  {
    var ms := prefix + [ChatMessage(Assistant, before)];
    assert ms[..|ms| - 1] == prefix;
  }

  // ---- the component -----------------------------------------------------

  /** How a read loop ends: `done`, an `AbortError` from the stop button, any
      other error (the server erroring the stream, a network failure), or
      never (the server left the stream open). */
  datatype ReadEnd = ReadDone | ReadAborted | ReadFailed | ReadHangs

  /** What `fetch` gives: a rejection (an abort or another error), a non-OK
      response, a response without a body reader, or a stream of reads. */
  datatype Reply = FetchRejected(aborted: bool) | NotOk | NoReader | Streamed(pieces: seq<string>, end: ReadEnd)

  /** How `sendMessage`'s try block ends. */
  datatype Outcome = Finished | AbortError | OtherError

  /** The content the assistant placeholder shows once a send has finished:
      the accumulated answer, kept when the user aborts and replaced by the
      apology on any other error. */
  function FinalText(reply: Reply): string
  {
    match reply
    case FetchRejected(aborted) => if aborted then "" else Apology
    case NotOk => Apology
    case NoReader => Apology
    case Streamed(pieces, end) => if end == ReadFailed then Apology else ReceivedText(pieces)
  }

  class ChatInterface {
    const chatId: string
    const initialMessages: seq<ChatMessage>
    var messages: seq<ChatMessage>
    var input: string
    var isLoading: bool
    /** Whether an abort controller is currently held. */
    var controllerActive: bool
    /** Whether the current controller's signal has been aborted. */
    var aborted: bool
    var hasProcessedInitial: bool
    /** The bodies posted to `/api/chat`, in order. */
    var requests: seq<ChatRequest>

    constructor (chatId: string, initialMessages: seq<ChatMessage>)
      ensures this.chatId == chatId && this.initialMessages == initialMessages
      ensures messages == initialMessages && input == "" && requests == []
      ensures !isLoading && !controllerActive && !aborted && !hasProcessedInitial
    {
      this.chatId := chatId;
      this.initialMessages := initialMessages;
      messages := initialMessages;
      input := "";
      isLoading := false;
      controllerActive := false;
      aborted := false;
      hasProcessedInitial := false;
      requests := [];
    }

    /** The start of `sendMessage`: the user's message and an empty assistant
        placeholder are appended to `current`, a controller is created and the
        request carrying every message up to the new one is posted. */
    method BeginSend(content: string, current: seq<ChatMessage>)
      modifies this
      ensures messages == current + [ChatMessage(User, content), ChatMessage(Assistant, "")]
      ensures requests == old(requests) + [ChatRequest(Project(current + [ChatMessage(User, content)]), chatId)]
      ensures isLoading && controllerActive && !aborted
      ensures input == old(input) && hasProcessedInitial == old(hasProcessedInitial)
    {
      var updated := current + [ChatMessage(User, content)];
      messages := updated;
      isLoading := true;
      messages := messages + [ChatMessage(Assistant, "")];
      controllerActive := true;
      aborted := false;
      requests := requests + [ChatRequest(Project(updated), chatId)];
    }

    /** One line of a read: a data line's payload is decoded and a non-empty
        `content` appended to the accumulator, after which the last message,
        the assistant's placeholder, shows the accumulator; `done` reports
        the `[DONE]` line that ends the read. */
    method ConsumeLine(line: string, ghost prefix: seq<ChatMessage>, acc0: string) returns (acc: string, done: bool)
      requires messages == prefix + [ChatMessage(Assistant, acc0)]
      modifies this`messages
      ensures done == IsDoneLine(line)
      ensures acc == if done then acc0 else acc0 + LineContent(line)
      ensures messages == prefix + [ChatMessage(Assistant, acc)]
    {
      acc, done := acc0, false;
      StripPrefixIff(line, DataPrefix);
      if IsDataLine(line) {
        var data := line[|DataPrefix|..];
        assert line == DataPrefix + data;
        if data == DoneMarker {
          return acc, true;
        }
        var parsed := DecodeContent(data);
        if parsed.Some? && parsed.value != "" {
          ReplaceLast(prefix, acc, acc + parsed.value);
          acc := acc + parsed.value;
          messages := WithLastAssistant(messages, acc);
        }
      }
    }

    /** One read of the loop, given as its chunk's lines: each is consumed
        in turn until `[DONE]`, which skips the rest of this read only. */
    method ConsumeRead(lines: seq<string>, ghost prefix: seq<ChatMessage>, acc0: string) returns (acc: string)
      requires messages == prefix + [ChatMessage(Assistant, acc0)]
      modifies this`messages
      ensures acc == acc0 + LinesText(UntilDone(lines))
      ensures messages == prefix + [ChatMessage(Assistant, acc)]
    {
      acc := acc0;
      var k := 0;
      assert lines[k..] == lines;
      while k < |lines|
        invariant 0 <= k <= |lines|
        invariant TakeUntil(IsDoneLine, lines) == lines[..k] + TakeUntil(IsDoneLine, lines[k..])
        invariant acc == acc0 + ConcatMap(LineContent, lines[..k])
        invariant messages == prefix + [ChatMessage(Assistant, acc)]
      {
        var done;
        ConcatMapSnoc(LineContent, lines, k, acc0, acc);
        acc, done := ConsumeLine(lines[k], prefix, acc);
        if done {
          break;
        }
        TakeUntilStep(IsDoneLine, lines, k);
        k := k + 1;
      }
      TakeUntilEnd(IsDoneLine, lines, k);
    }

    /** The read loop over all reads, entered with the empty assistant
        placeholder last; the answer accumulates across reads and the
        placeholder shows it. */
    method ConsumeReads(pieces: seq<string>) returns (acc: string)
      requires |messages| > 0 && messages[|messages| - 1] == ChatMessage(Assistant, "")
      modifies this`messages
      ensures acc == ReceivedText(pieces)
      ensures messages == old(messages)[..|old(messages)| - 1] + [ChatMessage(Assistant, acc)]
    {
      ghost var prefix := messages[..|messages| - 1];
      assert messages == prefix + [ChatMessage(Assistant, "")];
      acc := "";
      var j := 0;
      while j < |pieces|
        invariant 0 <= j <= |pieces|
        invariant acc == ReceivedText(pieces[..j])
        invariant messages == prefix + [ChatMessage(Assistant, acc)]
      {
        ConcatMapSnoc(ReadText, pieces, j, "", acc);
        acc := ConsumeRead(Lines(pieces[j]), prefix, acc);
        j := j + 1;
      }
      assert pieces[..j] == pieces;
    }

    /** The `catch` and `finally` of `sendMessage`: an error other than an
        abort puts the apology into the last message if it is the
        assistant's; in every case loading ends and the controller is dropped. */
    method FinishSend(outcome: Outcome)
      modifies this
      ensures messages == if outcome == OtherError then WithLastAssistant(old(messages), Apology) else old(messages)
      ensures !isLoading && !controllerActive
      ensures requests == old(requests) && input == old(input) && hasProcessedInitial == old(hasProcessedInitial)
      ensures aborted == old(aborted)
    {
      if outcome == OtherError {
        messages := WithLastAssistant(messages, Apology);
      }
      isLoading := false;
      controllerActive := false;
    }

    /** `sendMessage(content, current)` with the reply the request receives.
        When the stream never ends, the send stays pending: loading goes on
        and the controller stays until the user stops it. */
    method SendMessage(content: string, current: seq<ChatMessage>, reply: Reply)
      modifies this
      ensures messages == current + [ChatMessage(User, content), ChatMessage(Assistant, FinalText(reply))]
      ensures requests == old(requests) + [ChatRequest(Project(current + [ChatMessage(User, content)]), chatId)]
      ensures isLoading <==> reply.Streamed? && reply.end == ReadHangs
      ensures controllerActive == isLoading && !aborted
      ensures input == old(input) && hasProcessedInitial == old(hasProcessedInitial)
    {
      BeginSend(content, current);
      ghost var placeholder := messages;
      match reply
      case FetchRejected(wasAbort) =>
        FinishSend(if wasAbort then AbortError else OtherError);
      case NotOk =>
        FinishSend(OtherError);
      case NoReader =>
        FinishSend(OtherError);
      case Streamed(pieces, end) =>
        var acc := ConsumeReads(pieces);
        assert messages == current + [ChatMessage(User, content), ChatMessage(Assistant, acc)];
        if end == ReadDone {
          FinishSend(Finished);
        } else if end == ReadAborted {
          FinishSend(AbortError);
        } else if end == ReadFailed {
          FinishSend(OtherError);
        }
    }

    /** `handleSubmit`: blank input and submissions while loading are ignored;
        otherwise the input is cleared and its trimmed text sent after the
        messages shown so far. */
    method HandleSubmit(reply: Reply)
      modifies this
      ensures hasProcessedInitial == old(hasProcessedInitial)
      ensures Trim(old(input)) == "" || old(isLoading) ==>
                && messages == old(messages) && requests == old(requests) && input == old(input) && isLoading == old(isLoading)
                && controllerActive == old(controllerActive) && aborted == old(aborted)
      ensures Trim(old(input)) != "" && !old(isLoading) ==>
                && input == ""
                && messages == old(messages) + [ChatMessage(User, Trim(old(input))), ChatMessage(Assistant, FinalText(reply))]
                && requests == old(requests) + [ChatRequest(Project(old(messages) + [ChatMessage(User, Trim(old(input)))]), chatId)]
                && (isLoading <==> reply.Streamed? && reply.end == ReadHangs)
                && controllerActive == isLoading && !aborted
    {
      if Trim(input) == "" || isLoading {
        return;
      }
      var content := Trim(input);
      input := "";
      SendMessage(content, messages, reply);
    }

    /** `handleStop`: acts only while a controller exists; it aborts the
        request and ends loading. */
    method HandleStop()
      modifies this
      ensures old(controllerActive) ==> aborted && !isLoading
      ensures !old(controllerActive) ==> aborted == old(aborted) && isLoading == old(isLoading)
      ensures messages == old(messages) && controllerActive == old(controllerActive) && requests == old(requests)
      ensures input == old(input) && hasProcessedInitial == old(hasProcessedInitial)
    {
      if controllerActive {
        aborted := true;
        isLoading := false;
      }
    }

    /** The mount effect: on its first run, a first message left under this
        chat's key is removed from storage and, when the chat has no messages
        yet and the stored payload carries a non-empty `content`, sent after
        no messages. Every later run does nothing. */
    method ProcessInitialMessage(store: SessionStore, reply: Reply)
      modifies this, store
      ensures hasProcessedInitial && input == old(input)
      ensures old(hasProcessedInitial) ==>
                store.items == old(store.items) && messages == old(messages) && requests == old(requests)
                && isLoading == old(isLoading) && controllerActive == old(controllerActive) && aborted == old(aborted)
      ensures !old(hasProcessedInitial) ==>
                var stored := old(store.GetItem(InitialKey(chatId)));
                var takes := stored.Some? && stored.value != "" && |initialMessages| == 0;
                var payload := if takes then DecodeContent(stored.value) else None;
                && store.items == (if takes then old(store.items) - {InitialKey(chatId)} else old(store.items))
                && (payload.Some? && payload.value != "" ==>
                      messages == [ChatMessage(User, payload.value), ChatMessage(Assistant, FinalText(reply))]
                      && requests == old(requests) + [ChatRequest([WireMessage("user", payload.value)], chatId)]
                      && (isLoading <==> reply.Streamed? && reply.end == ReadHangs)
                      && controllerActive == isLoading && !aborted)
                && (!(payload.Some? && payload.value != "") ==>
                      messages == old(messages) && requests == old(requests)
                      && isLoading == old(isLoading) && controllerActive == old(controllerActive) && aborted == old(aborted))
    {
      if hasProcessedInitial {
        return;
      }
      var key := InitialKey(chatId);
      var stored := store.GetItem(key);
      if stored.Some? && stored.value != "" && |initialMessages| == 0 {
        hasProcessedInitial := true;
        store.RemoveItem(key);
        var parsed := DecodeContent(stored.value);
        if parsed.Some? && parsed.value != "" {
          SendMessage(parsed.value, [], reply);
          assert Project([ChatMessage(User, parsed.value)]) == [WireMessage("user", parsed.value)];
        }
      } else {
        hasProcessedInitial := true;
      }
    }
  }
}

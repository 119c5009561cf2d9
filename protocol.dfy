/** The chat route and the chat page together: the events the route enqueues
    are read by the page's reader, which rebuilds the answer the route saves.
    Each read is taken to deliver one whole event, as the route enqueues it. */
module Protocol {
  import opened Text
  import opened Json
  import opened Wire
  import opened Streaming
  import opened ChatClient

  /** The event an action enqueues, as one read of the response body. */
  function EventReads(a: StreamAction): seq<string>
  {
    match a
    case EnqueueData(delta) => [DataEvent(delta)]
    case EnqueueDone => [DoneEvent]
    case _ => []
  }

  /** The reads the page gets from the route's actions, one per enqueued event. */
  function Reads(actions: seq<StreamAction>): seq<string>
  {
    ConcatMap(EventReads, actions)
  }

  /** An event is one line followed by the blank line that ends it. */
  lemma EventLines(line: string)
    requires '\n' !in line
    ensures Split(line + "\n\n", '\n') == [line, "", ""]
  {
    var s := line + "\n\n";
    assert s[|line|] == '\n';
    assert s[..|line|] == line;
    assert IndexOf(s, '\n') == |line|;
    assert s[|line| + 1..] == "\n";
    assert "\n"[1..] == "";
    assert Split("", '\n') == [""];
    assert Split("\n", '\n') == [""] + [""];
    assert Split(s, '\n') == [line] + Split("\n", '\n');
  }

  /** Every line but the first of an event adds nothing. */
  lemma TrailingLines()
    ensures TakeUntil(IsDoneLine, ["", ""]) == ["", ""]
    ensures LinesText(["", ""]) == ""
  {
    assert !IsDoneLine("");
    assert LineContent("") == "";
    assert ["", ""][1..] == [""];
    assert [""][1..] == [];
    assert ["", ""][..1] == [""];
    assert [""][..0] == [];
  }

  /** A data event reads back as its delta. */
  lemma ReadDataEvent(delta: string)
    ensures ReadText(DataEvent(delta)) == delta
  {
    var enc := EncodeContent(delta);
    var line := DataPrefix + enc;
    EncodePrintable(delta);
    assert '\n' !in line by {
      assert forall k :: 0 <= k < |line| ==> line[k] == if k < |DataPrefix| then DataPrefix[k] else enc[k - |DataPrefix|];
    }
    EventLines(line);
    assert !IsDoneLine(line) by {
      assert line[|DataPrefix|] == '{';
      assert (DataPrefix + DoneMarker)[|DataPrefix|] == '[';
    }
    TrailingLines();
    var lines := [line, "", ""];
    assert lines[1..] == ["", ""];
    assert UntilDone(lines) == lines;
    StripPrefixAppend(DataPrefix, enc);
    DecodeEncode(delta);
    assert LineContent(line) == delta;
    assert lines == [line] + ["", ""];
    ConcatMapAppend(LineContent, [line], ["", ""]);
    ConcatMapSingle(LineContent, line);
  }

  /** The done event reads as nothing. */
  lemma ReadDoneEvent()
    ensures ReadText(DoneEvent) == ""
  {
    var line := DataPrefix + DoneMarker;
    assert '\n' !in line;
    EventLines(line);
    assert IsDoneLine(line);
  }

  /** The data events for non-empty deltas read back as the deltas' concatenation. */
  lemma {:induction false} ReceivedDataEvents(ds: seq<string>)
    ensures ReceivedText(Reads(DataEvents(ds))) == Concat(ds)
  {
    if ds != [] {
      var init, last := ds[..|ds| - 1], ds[|ds| - 1];
      ReceivedDataEvents(init);
      assert DataEvents(ds) == DataEvents(init) + [EnqueueData(last)];
      ConcatMapAppend(EventReads, DataEvents(init), [EnqueueData(last)]);
      ConcatMapSingle(EventReads, EnqueueData(last));
      ConcatMapAppend(ReadText, Reads(DataEvents(init)), [DataEvent(last)]);
      ConcatMapSingle(ReadText, DataEvent(last));
      ReadDataEvent(last);
    }
  }

  /** What follows the data events adds nothing to the received text. */
  lemma ReceivedTail(tail: seq<StreamAction>, content: string)
    requires tail == [] || tail == [ErrorStream] || tail == [InsertAssistant(content), EnqueueDone, CloseStream]
    ensures ReceivedText(Reads(tail)) == ""
  {
    if tail == [ErrorStream] {
      ConcatMapSingle(EventReads, ErrorStream);
    } else if tail != [] {
      var insert := [tail[0]];
      assert tail == insert + [EnqueueDone] + [CloseStream];
      ConcatMapAppend(EventReads, insert + [EnqueueDone], [CloseStream]);
      ConcatMapAppend(EventReads, insert, [EnqueueDone]);
      ConcatMapSingle(EventReads, tail[0]);
      ConcatMapSingle(EventReads, EnqueueDone);
      ConcatMapSingle(EventReads, CloseStream);
      assert Reads(tail) == [DoneEvent];
      ConcatMapSingle(ReadText, DoneEvent);
      ReadDoneEvent();
    }
  }

  /** The page rebuilds the route's answer: under the provider's contract,
      whatever the completion stream does, the text the page accumulates from
      the route's events is the route's `fullContent`. */
  lemma StreamRoundTrip(chunks: seq<Chunk>)
    requires StopOnlyLast(chunks)
    ensures ReceivedText(Reads(Run(chunks).actions)) == Run(chunks).fullContent
  {
    ServeOutcome(chunks);
    var ds := Deltas(chunks);
    var tail := if Failed(chunks) then [ErrorStream]
                else if Completed(chunks) then [InsertAssistant(Concat(ds)), EnqueueDone, CloseStream]
                else [];
    ConcatMapAppend(EventReads, DataEvents(ds), tail);
    ConcatMapAppend(ReadText, Reads(DataEvents(ds)), Reads(tail));
    ReceivedDataEvents(ds);
    ReceivedTail(tail, Concat(ds));
  }

  /** When the answer completes, the assistant message the route saves is the
      text the page shows. */
  lemma SavedIsShown(chunks: seq<Chunk>)
    requires StopOnlyLast(chunks) && Completed(chunks)
    ensures Inserts(Run(chunks).actions) == [ReceivedText(Reads(Run(chunks).actions))]
  {
    PersistOnceAfterStop(chunks);
    StreamRoundTrip(chunks);
    ServeOutcome(chunks);
  }
}

/** The chat route's streaming loop (`ReadableStream.start`): each chunk of
    the completion stream is read in order; a non-empty delta is appended to
    `fullContent` and enqueued as a data event; a chunk whose finish reason is
    `"stop"` saves the assistant message, enqueues the done event and closes
    the stream. A thrown error ends the loop and errors the stream. Enqueuing
    on a closed stream throws, as it does for a `ReadableStream` controller. */
module Streaming {
  import opened Text
  import opened Wire

  /** One completion chunk: its delta (`""` when absent) and whether its
      finish reason is `"stop"`; or the error the stream throws. */
  datatype Chunk = Chunk(delta: string, stop: bool) | StreamFailure

  /** What the loop does to the outside world, in order: enqueue the data
      event for a delta or the done event, save the assistant message, close
      or error the stream. */
  datatype StreamAction =
    | EnqueueData(delta: string)
    | EnqueueDone
    | InsertAssistant(content: string)
    | CloseStream
    | ErrorStream

  /** The loop's state: the accumulator, what it has done, whether it closed
      the stream and whether an error ended it. */
  datatype ServeState = ServeState(fullContent: string, actions: seq<StreamAction>, closed: bool, failed: bool)

  const Start: ServeState := ServeState("", [], false, false)

  predicate IsStop(c: Chunk) {
    c.Chunk? && c.stop
  }

  /** One iteration of the `for await` loop. */
  function Step(st: ServeState, c: Chunk): ServeState
  {
    if st.failed then st
    else match c
      case StreamFailure => st.(actions := st.actions + [ErrorStream], failed := true)
      case Chunk(delta, stop) =>
        var st1 :=
          if delta == "" then st
          else if st.closed then st.(fullContent := st.fullContent + delta, actions := st.actions + [ErrorStream], failed := true)
          else st.(fullContent := st.fullContent + delta, actions := st.actions + [EnqueueData(delta)]);
        if st1.failed || !stop then st1
        else
          var st2 := st1.(actions := st1.actions + [InsertAssistant(st1.fullContent)]);
          if st2.closed then st2.(actions := st2.actions + [ErrorStream], failed := true)
          else st2.(actions := st2.actions + [EnqueueDone, CloseStream], closed := true)
  }

  /** The state after the loop has read `chunks`. */
  function Run(chunks: seq<Chunk>): ServeState
  {
    if chunks == [] then Start else Step(Run(chunks[..|chunks| - 1]), chunks[|chunks| - 1])
  }

  /** Once an error has ended the loop, later chunks change nothing. */
  lemma {:induction false} RunAfterFailure(chunks: seq<Chunk>, k: nat)
    requires k <= |chunks| && Run(chunks[..k]).failed
    ensures Run(chunks) == Run(chunks[..k])
    decreases |chunks| - k
  {
    if k < |chunks| {
      assert chunks[..k + 1][..k] == chunks[..k];
      RunAfterFailure(chunks, k + 1);
    } else {
      assert chunks[..k] == chunks;
    }
  }

  /** The streaming loop, reading the completion stream `chunks`; it returns
      the accumulator and the actions it took. */
  method Serve(chunks: seq<Chunk>) returns (fullContent: string, actions: seq<StreamAction>)
    ensures fullContent == Run(chunks).fullContent && actions == Run(chunks).actions
  {
    fullContent, actions := "", [];
    var closed := false;
    var i := 0;
    while i < |chunks|
      invariant 0 <= i <= |chunks|
      invariant Run(chunks[..i]) == ServeState(fullContent, actions, closed, false)
    {
      assert chunks[..i + 1][..i] == chunks[..i];
      match chunks[i]
      case StreamFailure =>
        actions := actions + [ErrorStream];
        RunAfterFailure(chunks, i + 1);
        return;
      case Chunk(delta, stop) =>
        if delta != "" {
          fullContent := fullContent + delta;
          if closed {
            actions := actions + [ErrorStream];
            RunAfterFailure(chunks, i + 1);
            return;
          }
          actions := actions + [EnqueueData(delta)];
        }
        if stop {
          actions := actions + [InsertAssistant(fullContent)];
          if closed {
            actions := actions + [ErrorStream];
            RunAfterFailure(chunks, i + 1);
            return;
          }
          actions := actions + [EnqueueDone, CloseStream];
          closed := true;
        }
      i := i + 1;
    }
    assert chunks[..i] == chunks;
  }

  /** Whether the completion stream throws somewhere. */
  predicate Failed(chunks: seq<Chunk>) {
    chunks != [] && (Failed(chunks[..|chunks| - 1]) || chunks[|chunks| - 1].StreamFailure?)
  }

  lemma {:induction false} FailedIff(chunks: seq<Chunk>)
    ensures Failed(chunks) <==> exists i :: 0 <= i < |chunks| && chunks[i].StreamFailure?
  {
    if chunks != [] {
      var init := chunks[..|chunks| - 1];
      FailedIff(init);
      if Failed(init) {
        var i :| 0 <= i < |init| && init[i].StreamFailure?;
        assert chunks[i] == init[i];
      }
      if exists i :: 0 <= i < |chunks| && chunks[i].StreamFailure? {
        var i :| 0 <= i < |chunks| && chunks[i].StreamFailure?;
        if i < |init| { assert init[i] == chunks[i]; }
      }
    }
  }

  /** The non-empty deltas read before the stream threw, in arrival order. */
  function Deltas(chunks: seq<Chunk>): seq<string>
  {
    if chunks == [] then []
    else
      var init, last := chunks[..|chunks| - 1], chunks[|chunks| - 1];
      if Failed(init) || last.StreamFailure? || last.delta == "" then Deltas(init)
      else Deltas(init) + [last.delta]
  }

  lemma {:induction false} DeltasNonEmpty(chunks: seq<Chunk>)
    ensures forall k :: 0 <= k < |Deltas(chunks)| ==> Deltas(chunks)[k] != ""
  {
    if chunks != [] {
      DeltasNonEmpty(chunks[..|chunks| - 1]);
    }
  }

  /** The data events for the given deltas. */
  function DataEvents(ds: seq<string>): seq<StreamAction>
  {
    if ds == [] then [] else DataEvents(ds[..|ds| - 1]) + [EnqueueData(ds[|ds| - 1])]
  }

  /** One data event per delta, in the same order. */
  lemma {:induction false} DataEventsAt(ds: seq<string>)
    ensures |DataEvents(ds)| == |ds|
    ensures forall k :: 0 <= k < |ds| ==> DataEvents(ds)[k] == EnqueueData(ds[k])
  {
    if ds != [] {
      DataEventsAt(ds[..|ds| - 1]);
    }
  }

  /** The provider's contract: only the last chunk may carry the stop reason. */
  predicate StopOnlyLast(chunks: seq<Chunk>) {
    forall i :: 0 <= i < |chunks| - 1 ==> !IsStop(chunks[i])
  }

  /** The answer finished normally: the last chunk says stop and nothing threw. */
  predicate Completed(chunks: seq<Chunk>) {
    |chunks| > 0 && IsStop(chunks[|chunks| - 1]) && !Failed(chunks)
  }

  /** Without a stop chunk the loop only forwards deltas: the accumulator is
      their concatenation, one data event each, then the error if the stream
      threw; the stream is never closed. */
  lemma {:induction false} RunWithoutStop(chunks: seq<Chunk>)
    requires forall i :: 0 <= i < |chunks| ==> !IsStop(chunks[i])
    ensures Run(chunks) == Forwarded(Deltas(chunks), Failed(chunks))
  {
    if chunks != [] {
      var init := chunks[..|chunks| - 1];
      RunWithoutStop(init);
      ForwardStep(Deltas(init), Failed(init), chunks[|chunks| - 1]);
    }
  }

  /** The state after forwarding the deltas `ds`, then the error if one was thrown. */
  function Forwarded(ds: seq<string>, failed: bool): ServeState
  {
    ServeState(Concat(ds), DataEvents(ds) + (if failed then [ErrorStream] else []), false, failed)
  }

  /** A chunk without the stop reason forwards its delta, or ends the loop
      with an error. */
  lemma ForwardStep(ds: seq<string>, failed: bool, c: Chunk)
    requires !IsStop(c)
    ensures Step(Forwarded(ds, failed), c)
            == if failed then Forwarded(ds, true)
               else if c.StreamFailure? then Forwarded(ds, true)
               else if c.delta == "" then Forwarded(ds, false)
               else Forwarded(ds + [c.delta], false)
  {
    if !failed && c.Chunk? && c.delta != "" {
      assert (ds + [c.delta])[..|ds|] == ds;
      assert DataEvents(ds) + [] == DataEvents(ds);
    } else if !failed {
      assert DataEvents(ds) + [] == DataEvents(ds);
    }
  }

  /** The whole loop under the provider's contract: one data event per
      non-empty delta in arrival order; then, if the stream threw, the error;
      if it finished with stop, one assistant insert whose content is the
      concatenation of every forwarded delta, the done event and the close, in
      that order; otherwise (another finish reason) nothing more. */
  lemma ServeOutcome(chunks: seq<Chunk>)
    requires StopOnlyLast(chunks)
    ensures var st := Run(chunks);
      var ds := Deltas(chunks);
      && st.fullContent == Concat(ds)
      && st.actions == DataEvents(ds)
                       + (if Failed(chunks) then [ErrorStream]
                          else if Completed(chunks) then [InsertAssistant(Concat(ds)), EnqueueDone, CloseStream]
                          else [])
  {
    if chunks != [] && IsStop(chunks[|chunks| - 1]) {
      var init, last := chunks[..|chunks| - 1], chunks[|chunks| - 1];
      RunWithoutStop(init);
      if !Failed(init) {
        StopStep(Deltas(init), last);
      }
    } else {
      RunWithoutStop(chunks);
    }
  }

  /** The stop chunk at the end of a stream that has neither stopped nor
      thrown before: its delta is forwarded, then the answer is saved, the done
      event enqueued and the stream closed. */
  lemma StopStep(ds: seq<string>, last: Chunk)
    requires IsStop(last)
    ensures var ds' := if last.delta == "" then ds else ds + [last.delta];
      Step(Forwarded(ds, false), last)
      == ServeState(Concat(ds'), DataEvents(ds') + [InsertAssistant(Concat(ds')), EnqueueDone, CloseStream], true, false)
  {
    var tail := [EnqueueDone, CloseStream];
    assert DataEvents(ds) + [] == DataEvents(ds);
    if last.delta != "" {
      var ds' := ds + [last.delta];
      assert ds'[..|ds|] == ds;
      var x := InsertAssistant(Concat(ds'));
      AppendAssoc(DataEvents(ds'), [x], tail);
    } else {
      AppendAssoc(DataEvents(ds), [InsertAssistant(Concat(ds))], tail);
    }
  }

  /** The content an action saves as the assistant message, if it saves one. */
  function Saved(a: StreamAction): seq<string>
  {
    if a.InsertAssistant? then [a.content] else []
  }

  /** The contents of the assistant inserts among `actions`, in order. */
  function Inserts(actions: seq<StreamAction>): seq<string>
  {
    ConcatMap(Saved, actions)
  }

  /** Actions that are not inserts save nothing. */
  lemma InsertsNone(s: seq<StreamAction>)
    requires forall k :: 0 <= k < |s| ==> !s[k].InsertAssistant?
    ensures Inserts(s) == []
  {
    ConcatMapNone(Saved, s);
  }

  lemma NoInsertsInDataEvents(ds: seq<string>)
    ensures Inserts(DataEvents(ds)) == []
  {
    DataEventsAt(ds);
    InsertsNone(DataEvents(ds));
  }

  /** Persist once, after stop: under the provider's contract the assistant
      message is saved exactly once when the answer completes, with the full
      answer, and never when the stream throws or ends another way. */
  lemma PersistOnceAfterStop(chunks: seq<Chunk>)
    requires StopOnlyLast(chunks)
    ensures Inserts(Run(chunks).actions) == if Completed(chunks) then [Concat(Deltas(chunks))] else []
  {
    ServeOutcome(chunks);
    NoInsertsInDataEvents(Deltas(chunks));
    InsertsOfOutcome(DataEvents(Deltas(chunks)), Concat(Deltas(chunks)), Failed(chunks), Completed(chunks));
  }

  /** What follows actions that save nothing decides what the whole saves. */
  lemma InsertsOfOutcome(events: seq<StreamAction>, content: string, failed: bool, completed: bool)
    requires Inserts(events) == []
    ensures Inserts(events
                    + (if failed then [ErrorStream]
                       else if completed then [InsertAssistant(content), EnqueueDone, CloseStream]
                       else []))
            == if !failed && completed then [content] else []
  {
    if failed {
      ConcatMapAppend(Saved, events, [ErrorStream]);
      ConcatMapSingle(Saved, ErrorStream);
    } else if completed {
      var x := InsertAssistant(content);
      var post := [EnqueueDone, CloseStream];
      assert [x, EnqueueDone, CloseStream] == [x] + post;
      ConcatMapAppend(Saved, events, [x] + post);
      ConcatMapAppend(Saved, [x], post);
      ConcatMapSingle(Saved, x);
      InsertsNone(post);
    } else {
      assert events + [] == events;
    }
  }

  /** How many chunks carry the stop reason. */
  function StopCount(chunks: seq<Chunk>): nat
  {
    if chunks == [] then 0
    else StopCount(chunks[..|chunks| - 1]) + (if IsStop(chunks[|chunks| - 1]) then 1 else 0)
  }

  /** One iteration appends to the actions, and saves at most one assistant
      message, only for a stop chunk read before any error. */
  lemma StepAdds(st: ServeState, c: Chunk) returns (added: seq<StreamAction>)
    ensures Step(st, c).actions == st.actions + added
    ensures |Inserts(added)| <= if IsStop(c) && !st.failed then 1 else 0
  {
    if st.failed {
      added := [];
      assert st.actions + added == st.actions;
    } else if c.StreamFailure? {
      added := [ErrorStream];
      ConcatMapSingle(Saved, ErrorStream);
    } else {
      var pre := if c.delta == "" then [] else if st.closed then [ErrorStream] else [EnqueueData(c.delta)];
      InsertsNone(pre);
      if (c.delta != "" && st.closed) || !c.stop {
        added := pre;
        assert c.delta == "" ==> st.actions + pre == st.actions;
      } else {
        var x := InsertAssistant(st.fullContent + c.delta);
        var post := if st.closed then [ErrorStream] else [EnqueueDone, CloseStream];
        added := pre + [x] + post;
        assert c.delta == "" ==> st.actions + pre == st.actions && st.fullContent + c.delta == st.fullContent;
        AppendAssoc(st.actions, pre, [x]);
        AppendAssoc(st.actions, pre + [x], post);
        InsertsNone(post);
        ConcatMapAppend(Saved, pre + [x], post);
        ConcatMapAppend(Saved, pre, [x]);
        ConcatMapSingle(Saved, x);
      }
    }
  }

  /** Whatever the provider sends, the loop saves at most one assistant message
      per stop chunk. */
  lemma {:induction false} InsertsAtMostStops(chunks: seq<Chunk>)
    ensures |Inserts(Run(chunks).actions)| <= StopCount(chunks)
  {
    if chunks != [] {
      var init := chunks[..|chunks| - 1];
      var st := Run(init);
      InsertsAtMostStops(init);
      var added := StepAdds(st, chunks[|chunks| - 1]);
      ConcatMapAppend(Saved, st.actions, added);
    }
  }
}

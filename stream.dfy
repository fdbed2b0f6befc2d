/** The streaming producer of `Run` (internal/runner/runner.go): it opens the stream,
    receives events until the end of the stream or the first failure, appends each
    chunk's first delta to the result, records the failure, and closes the completion
    stream on every way out. Here it runs to completion before `Run` returns. */
module Streaming {
  import opened Wrappers
  import opened OpenAI
  import opened Results

  /** What draining an event list yields: the text appended and the error recorded. */
  datatype Drained = Drained(text: string, error: Option<Error>)

  /** A chunk the producer can use: one with at least one choice. */
  predicate Usable(e: StreamEvent)
  {
    e.Chunk? && |e.deltas| > 0
  }

  /** The producer loop over the events `Recv` returns, in order. An event list that
      runs out ends the loop like `io.EOF`. */
  function Drain(events: seq<StreamEvent>): Drained
    decreases |events|
  {
    if |events| == 0 then Drained("", None)
    else match events[0]
      case Eof => Drained("", None)
      case RecvError(m) => Drained("", Some(Upstream(m)))
      case Chunk(deltas) =>
        if |deltas| == 0 then Drained("", Some(GotEmptyResponse))
        else
          var rest := Drain(events[1..]);
          Drained(deltas[0] + rest.text, rest.error)
  }

  /** Reference: the first deltas of usable chunks, concatenated in arrival order. */
  function Deltas(chunks: seq<StreamEvent>): string
    requires forall k :: 0 <= k < |chunks| ==> Usable(chunks[k])
    decreases |chunks|
  {
    if |chunks| == 0 then ""
    else
      var last := |chunks| - 1;
      assert Usable(chunks[last]);
      Deltas(chunks[..last]) + chunks[last].deltas[0]
  }

  lemma {:induction false} DeltasCons(chunks: seq<StreamEvent>)
    requires |chunks| > 0
    requires forall k :: 0 <= k < |chunks| ==> Usable(chunks[k])
    ensures Deltas(chunks) == chunks[0].deltas[0] + Deltas(chunks[1..])
    decreases |chunks|
  {
    if |chunks| > 1 {
      var init := chunks[..|chunks| - 1];
      DeltasCons(init);
      assert init[1..] == chunks[1..][..|chunks[1..]| - 1];
    }
  }

  /** Usable chunks contribute their first deltas in order ahead of whatever follows. */
  lemma {:induction false} DrainUsablePrefix(chunks: seq<StreamEvent>, tail: seq<StreamEvent>)
    requires forall k :: 0 <= k < |chunks| ==> Usable(chunks[k])
    ensures Drain(chunks + tail) == Drained(Deltas(chunks) + Drain(tail).text, Drain(tail).error)
    decreases |chunks|
  {
    if |chunks| == 0 {
      assert chunks + tail == tail;
    } else {
      assert (chunks + tail)[1..] == chunks[1..] + tail;
      DrainUsablePrefix(chunks[1..], tail);
      DeltasCons(chunks);
    }
  }

  /** EOF ends the loop with no error; what follows it is never received. */
  lemma DrainUntilEof(chunks: seq<StreamEvent>, rest: seq<StreamEvent>)
    requires forall k :: 0 <= k < |chunks| ==> Usable(chunks[k])
    ensures Drain(chunks + [Eof] + rest) == Drained(Deltas(chunks), None)
  {
    assert chunks + [Eof] + rest == chunks + ([Eof] + rest);
    DrainUsablePrefix(chunks, [Eof] + rest);
  }

  /** A receive error is recorded and stops the loop; the earlier text is kept. */
  lemma DrainUntilRecvError(chunks: seq<StreamEvent>, message: string, rest: seq<StreamEvent>)
    requires forall k :: 0 <= k < |chunks| ==> Usable(chunks[k])
    ensures Drain(chunks + [RecvError(message)] + rest)
         == Drained(Deltas(chunks), Some(Upstream(message)))
  {
    assert chunks + [RecvError(message)] + rest == chunks + ([RecvError(message)] + rest);
    DrainUsablePrefix(chunks, [RecvError(message)] + rest);
  }

  /** A chunk with no choices records "got empty response" and stops the loop. */
  lemma DrainUntilEmptyChunk(chunks: seq<StreamEvent>, rest: seq<StreamEvent>)
    requires forall k :: 0 <= k < |chunks| ==> Usable(chunks[k])
    ensures Drain(chunks + [Chunk([])] + rest) == Drained(Deltas(chunks), Some(GotEmptyResponse))
  {
    assert chunks + [Chunk([])] + rest == chunks + ([Chunk([])] + rest);
    DrainUsablePrefix(chunks, [Chunk([])] + rest);
  }

  /** The first `n` events are usable chunks and the next one, if any, is not. */
  predicate UsableUpTo(events: seq<StreamEvent>, n: nat)
    requires n <= |events|
  {
    (forall k :: 0 <= k < n ==> Usable(events[k])) && (n < |events| ==> !Usable(events[n]))
  }

  /** Every event list is usable chunks followed by nothing, EOF, a receive error or an
      empty chunk, so the three lemmas above cover all streams. */
  lemma {:induction false} EventsDecompose(events: seq<StreamEvent>)
    ensures exists n :: 0 <= n <= |events| && UsableUpTo(events, n)
    decreases |events|
  {
    if |events| == 0 || !Usable(events[0]) {
      assert UsableUpTo(events, 0);
    } else {
      EventsDecompose(events[1..]);
      var n :| 0 <= n <= |events[1..]| && UsableUpTo(events[1..], n);
      forall k | 0 <= k < n + 1 ensures Usable(events[k]) {
        if k > 0 { assert events[k] == events[1..][k - 1]; }
      }
      assert n + 1 < |events| ==> events[n + 1] == events[1..][n];
      assert UsableUpTo(events, n + 1);
    }
  }

  /** The chunks ["Hello", ", ", "world"] then EOF give "Hello, world" with no error; a
      failure after the first chunk keeps "Hello" and records the failure. */
  lemma HelloWorld()
    ensures Drain([Chunk(["Hello"]), Chunk([", "]), Chunk(["world"]), Eof]) == Drained("Hello, world", None)
    ensures Drain([Chunk(["Hello"]), RecvError("decode"), Chunk(["world"])])
         == Drained("Hello", Some(Upstream("decode")))
  {
  }

  /** The result after the producer has run on a stream whose opening gave `reply`. */
  function AfterStream(v: ResultValue, reply: Reply<seq<StreamEvent>>): ResultValue
  {
    match reply
    case Fail(m) => v.(error := Some(Upstream(m)), closed := true)
    case Ok(events) =>
      var d := Drain(events);
      v.(completion := v.completion + d.text,
         streamed := v.streamed + d.text,
         error := if d.error.Some? then d.error else v.error,
         closed := true)
  }

  /** The body of the producer goroutine. Returns the call it made on the client. */
  method ProduceStream(res: Result, client: Client, chatReq: ChatCompletionRequest) returns (call: Call)
    requires res.streaming && !res.closed
    modifies res
    ensures call == CreateChatCompletionStream(chatReq.(stream := true))
    ensures res.Value() == AfterStream(old(res.Value()), client.createChatCompletionStream(chatReq.(stream := true)))
  {
    var streamReq := chatReq.(stream := true);
    call := CreateChatCompletionStream(streamReq);
    var reply := client.createChatCompletionStream(streamReq);
    match reply {
      case Fail(m) =>
        res.error := Some(Upstream(m));
      case Ok(events) =>
        var i := 0;
        ghost var text := "";
        while i < |events|
          invariant 0 <= i <= |events|
          invariant res.streaming && !res.closed
          invariant res.Value() == old(res.Value()).(completion := old(res.completion) + text,
                                                     streamed := old(res.streamed) + text)
          invariant Drain(events) == Drained(text + Drain(events[i..]).text, Drain(events[i..]).error)
          decreases |events| - i
        {
          assert events[i..][0] == events[i];
          match events[i]
          case Eof =>
            break;
          case RecvError(m) =>
            res.error := Some(Upstream(m));
            break;
          case Chunk(deltas) =>
            if |deltas| == 0 {
              res.error := Some(GotEmptyResponse);
              break;
            }
            assert events[i..][1..] == events[i + 1..];
            res.WriteCompletionStreamResponse(deltas[0]);
            text := text + deltas[0];
            i := i + 1;
        }
        assert i == |events| ==> events[i..] == [];
    }
    // deferred in `runner.go`: runs on every way out of the producer
    res.CloseCompletionStream();
  }
}

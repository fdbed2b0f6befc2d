/** The value `Run` hands to the presentation layer: the call's timestamp, prompt,
    completion and model, the error a stream producer recorded, and the completion
    stream (whether it was set up, what was written into it, whether it was closed). */
module Results {
  import opened Wrappers

  /** The errors the runner produces; `Upstream` carries a provider error unchanged. */
  datatype Error =
    | ErrNoKey          // "OPENAI_API_KEY is not configured / provided."
    | NoPromptProvided  // "no prompt provided"
    | NoDataOnResponse  // "no data on response"
    | GotEmptyResponse  // "got empty response"
    | Upstream(message: string)

  /** A `Result` as a value. */
  datatype ResultValue = ResultValue(
    timestamp: string,
    prompt: string,
    completion: string,
    model: string,
    error: Option<Error>,
    streaming: bool,
    streamed: string,
    closed: bool)

  /** `&Result{}`: every field at its zero value, no stream. */
  const Empty: ResultValue := ResultValue("", "", "", "", None, false, "", false)

  class Result {
    var timestamp: string
    var prompt: string
    var completion: string
    var model: string
    /** The error recorded by the stream producer, to be checked after draining. */
    var error: Option<Error>
    /** Whether the completion stream was set up. */
    var streaming: bool
    /** Everything written into the completion stream, in order. */
    var streamed: string
    /** Whether the writing side of the completion stream was closed. */
    var closed: bool

    function Value(): ResultValue
      reads this
    {
      ResultValue(timestamp, prompt, completion, model, error, streaming, streamed, closed)
    }

    constructor ()
      ensures Value() == Empty
    {
      timestamp, prompt, completion, model := "", "", "", "";
      error := None;
      streaming, streamed, closed := false, "", false;
    }

    /** Opens the completion stream, empty and not yet closed. */
    method SetupStreaming()
      modifies this
      ensures Value() == old(Value()).(streaming := true, streamed := "", closed := false)
    {
      streaming, streamed, closed := true, "", false;
    }

    /** Appends `s` both to the completion and to the completion stream. */
    method WriteCompletionStreamResponse(s: string)
      requires streaming && !closed
      modifies this
      ensures Value() == old(Value()).(completion := old(completion) + s, streamed := old(streamed) + s)
    {
      completion := completion + s;
      streamed := streamed + s;
    }

    /** Closes the writing side of the completion stream. */
    method CloseCompletionStream()
      requires streaming
      modifies this
      ensures Value() == old(Value()).(closed := true)
    {
      closed := true;
    }
  }
}

# aix runner: a Dafny model

This project models the core of `aix`, a command-line tool that sends one prompt to an
OpenAI-style chat-completion API and returns the completion. The model covers two parts:

- **Option resolution** (`ParseOptions` in `internal/runner/options.go`). It covers where the
  prompt comes from, how the temperature and top-p strings are read, and where the API key
  comes from. The flag parser, stdin, the environment and the YAML config file are inputs
  (`Flags`, `Host`, and a `parseFloat` function).
- **The run itself** (`Runner.Run` in `internal/runner/runner.go`). It checks the key,
  resolves the model, and then takes one of two branches. The list-models branch renders
  the model IDs. The completion branch assembles the request and dispatches it, either
  synchronously or through the streaming producer loop.

The go-openai client is an abstract `Client` value. It holds the reply of `ListModels`,
the reply of `CreateChatCompletion` for each request, and the event list that
`CreateChatCompletionStream` yields for each request. An event is a chunk, a receive
error or EOF. `Run` also returns `calls`, the calls it made on the client, so the model
can state that a run made no call, or which request it sent.

Modules:

- `Strings`: `Join`, which is Go's `strings.Join`, and `Split`, its proved inverse on parts that do not contain the separator.
- `OpenAI`: the request, reply and event types. It also holds the model and role
  constants, with their go-openai values.
- `Options`: `ParseOptions`, and the precedence functions that specify it.
- `Results`: the `Result` class and the runner's `Error` values.
- `Streaming`: the producer loop `ProduceStream`, and `Drain`, the function that
  specifies it.
- `Runner`: the `Runner` class with `Run`, and `RunOutcome`, the function `Run` is proved
  against. The module also holds the lemmas for each rule of the run.

`Run` and `ParseOptions` are imperative, like `runner.go` and `options.go`. The model is reassigned by
successive `if`s, the messages are built by appending, and the sampling values and
result fields are assigned in place. The producer is a `while` loop that appends each
chunk's first delta to the `Result` and records the first failure on it. Each method is
proved against a specification function (`RunOutcome`, `Drain`, `ResolvedOptions`,
`ModelLines`), and the lemmas state the rules about those functions.

Two points of the code that are easy to misread:

- The list-models branch writes each ID followed by `"\n"`, in provider order. It does
  not group or lay out the IDs.
- A system message is sent whenever the system list is non-empty, so `[""]` sends one
  with empty content.

Two behaviours of the code worth knowing:

- Piped but empty stdin replaces the `-p` values with `""`. The prompt then falls back to
  the positional arguments (`PromptPrecedence`, last clause).
- Once a streaming completion request is dispatched, `Run` returns no error. A failure
  to open the stream, or a failure in the producer, is recorded only in the result's
  `error` field. Beside it is a closed stream holding the text received before the
  failure (`StreamOutcome`). The failures before dispatch are returned in streaming mode
  too: no key (`NoKeyFailsFirst`), a listing error (`ListModelsOutcome`) and no prompt
  (`NoPromptBeforeDispatch`).

`result.go` as shown declares only `Timestamp`, `Prompt`, `Completion` and `Model`.
`runner.go` also uses `Result.Error` and the completion-stream methods. The `Result`
class therefore adds `error`, `streaming`, `streamed` (what was written into the
completion stream) and `closed`. `SetupStreaming`, `WriteCompletionStreamResponse` and
`CloseCompletionStream` follow how `runner.go` uses them: open an empty stream, append to
both the completion and the stream, and close the stream.

## Model

| member | source | states |
|---|---|---|
| `Options.ParseOptions` | internal/runner/options.go:104-149 | the options equal `ResolvedOptions`: key by the flag/env/config chain, prompt by stdin/`-p`/args precedence, sampling values parsed or 0, the rest from the flags with their defaults |
| `Options.PromptPrecedence` | internal/runner/options.go:104-130 | piped non-empty stdin wins; without stdin, non-empty `-p` values joined by "\n"; otherwise (including piped empty stdin) the args joined by " " |
| `Options.SamplingRule` | internal/runner/options.go:107-118 | an empty or unparseable temperature/top-p leaves 0; a successful parse assigns its value |
| `Options.ApiKeyPrecedence` | internal/runner/options.go:141-149 | a non-empty flag is kept; else a non-empty env value; else the config file's key; the key is empty exactly when all three sources are empty |
| `Options.FlagDefaults` | internal/runner/options.go:71-72 | with no model flags given, `gpt3` is on and `gpt4` is off |
| `Strings.JoinEmptyIff` | internal/runner/options.go:128-130 | a join with a non-empty separator is empty exactly when there are no parts or one empty part |
| `Strings.SplitJoin` | internal/runner/runner.go:56-59 | splitting at the separator gives back the joined parts when no part contains it |
| `Runner.ModelPrecedence` | internal/runner/runner.go:40-49 | an explicit model wins; else `--gpt4` gives GPT-4 Turbo Preview even with `--gpt3`; else `--gpt3` gives GPT-3.5 Turbo; else "" |
| `Runner.DefaultModel` | internal/runner/options.go:71-72 | with no model flags, the resolved model is GPT-3.5 Turbo |
| `Runner.RenderModelList` | internal/runner/runner.go:56-59 | the buffer loop produces each model ID followed by "\n", in provider order |
| `Runner.ModelLinesAsJoin` | internal/runner/runner.go:56-59 | the listing is the IDs joined by "\n" with a final "\n" |
| `Runner.ModelLinesRoundTrip` | internal/runner/runner.go:56-59 | splitting the listing at newlines gives back the IDs (plus the empty tail) when no ID holds a newline |
| `Runner.MessagesShape` | internal/runner/runner.go:84-100 | at most two messages; none exactly when there are no system lines and the prompt is empty; a system message (lines joined by "\n") first iff the list is non-empty; a user message with the prompt last iff the prompt is non-empty |
| `Runner.Runner.NewRunner` | internal/runner/runner.go:25-29 | the runner holds the given options |
| `Runner.Runner.Run` | internal/runner/runner.go:32-155 | result, returned error and provider calls are those of `RunOutcome` |
| `Runner.Runner.ListModelsBranch` | internal/runner/runner.go:51-77 | the list-models branch yields `RunOutcome`'s result, error and calls |
| `Runner.Runner.CompletionBranch` | internal/runner/runner.go:79-154 | message assembly, sampling copy and dispatch yield `RunOutcome`'s result, error and calls |
| `Runner.NoKeyFailsFirst` | internal/runner/runner.go:34-36 | without a key: empty result, `ErrNoKey`, no call, and the outcome does not depend on the provider |
| `Runner.ListModelsOutcome` | internal/runner/runner.go:51-77 | one listing call; its error comes back unchanged with an empty result; else the completion is the listing, stamped with model, prompt and time, with no error recorded and a stream exactly in streaming mode (without streaming, the whole result is the stamped listing); never "no prompt provided"; in streaming mode the stream holds the listing and is closed |
| `Runner.NoPromptBeforeDispatch` | internal/runner/runner.go:98-100 | no system lines and an empty prompt: empty result, "no prompt provided", no call, independent of the provider |
| `Runner.DispatchedRequest` | internal/runner/runner.go:79-122 | exactly one completion call, of the streaming kind iff streaming, with the resolved model, the assembled messages, temperature/top-p equal to the option values (copied when non-zero, else the zero default), and the stream flag set iff streaming |
| `Runner.SyncOutcome` | internal/runner/runner.go:143-152 | a transport error comes back as `Result{Error: err}` and as the error; zero choices: empty result and "no data on response"; else the first choice's content with model, prompt and time |
| `Runner.StreamOutcome` | internal/runner/runner.go:109-142 | a streaming run makes exactly the one stream call and returns no error; the result is stamped with time, model and prompt; its stream is closed and holds exactly the completion; an open error is recorded with empty text; otherwise text and error are those of draining the events |
| `Runner.StreamedCompletion` | internal/runner/runner.go:127-141 | usable chunks then EOF give their first deltas in order and no error; then a receive error or an empty chunk keep that text and record the failure |
| `Streaming.ProduceStream` | internal/runner/runner.go:119-142 | opens the stream with `Stream` set, and leaves the result as `AfterStream` says: appended text in both completion and stream, first failure recorded, stream closed on every path |
| `Streaming.DrainUsablePrefix` | internal/runner/runner.go:127-141 | usable chunks contribute their first deltas, in arrival order, ahead of whatever the rest of the stream yields |
| `Streaming.DrainUntilEof` | internal/runner/runner.go:129-131 | EOF ends the loop with no error; later events are never received |
| `Streaming.DrainUntilRecvError` | internal/runner/runner.go:132-135 | a receive error is recorded and stops the loop, keeping the earlier text |
| `Streaming.DrainUntilEmptyChunk` | internal/runner/runner.go:136-139 | a chunk with zero choices records "got empty response" and stops the loop, keeping the earlier text |
| `Streaming.EventsDecompose` | internal/runner/runner.go:127-141 | every event list is a run of usable chunks followed by nothing or by a stopping event, so the three cases above are exhaustive |
| `Streaming.HelloWorld` | internal/runner/runner.go:127-141 | "Hello", ", ", "world" then EOF give "Hello, world" with no error; a failure after "Hello" keeps "Hello" and records the error |
| `Results.Result.constructor` | internal/runner/result.go:5-10 | `&Result{}`: every field empty, no error, no stream |
| `Results.Result.SetupStreaming` | internal/runner/runner.go:118 | opens an empty, unclosed completion stream and changes nothing else |
| `Results.Result.WriteCompletionStreamResponse` | internal/runner/runner.go:140 | appends the text to both the completion and the stream, and changes nothing else |
| `Results.Result.CloseCompletionStream` | internal/runner/runner.go:120 | closes the stream and changes nothing else |

## Left out

- The HTTP client (`NewClient`, `ListModels`, `CreateChatCompletion`,
  `CreateChatCompletionStream`, `Recv`) is foreign code. The `Client` value stands for
  its replies. Model IDs other than their `ID`, the choices' other fields and token usage
  are not modelled.
- Concurrency in the streaming path is not modelled: the goroutine, the pipe, its
  backpressure and the reader side. `Run` runs the producer to completion before it
  returns. So the model describes the result as a consumer sees it once the stream is
  drained, not while it is being read.
- Every provider call is modelled as answering. `runner.go` sets no deadline: it passes
  `context.Background()` and `context.TODO()`. A call or a stream that never returns is
  therefore not modelled, nor is the completion stream it would leave unclosed. An event
  list that runs out without EOF ends the producer loop as EOF does.
- Temperature and top-p are `real` values rather than `float32`.
  `strconv.ParseFloat` is the abstract `parseFloat` input, and the conversion to
  `float32` is not modelled.
- The timestamp `time.Now().String()` is the opaque input `now`.
- Several inputs to `ParseOptions` are the values of `Flags` and `Host`: flag parsing and
  its errors, stdin detection and read errors (both end the process), the environment
  lookup, and YAML loading.
- `Options.ApiKeyPrecedence`: `Host.configApiKey` stands for the key `loadConfigFrom`
  would set if it read the config file. As written, `loadConfigFrom`
  (`internal/runner/options.go:179-181`) passes the path string itself, as bytes, to
  `fileutil.Unmarshal`, whose behaviour on that input is library code and not modelled.
  Its error is discarded (`internal/runner/options.go:148`). If the path is decoded as
  YAML data, no key from the config file ever reaches the options.
- `ParseOptions`: the config file is modelled only as the API key it may set. The YAML
  load fills every option the file names, so a config file that also sets, say,
  `prompt` or `model` overrides those fields too. That is not modelled.
- Banner printing, `configureOutput`, the version flag and the update check
  (`internal/runner/options.go:132-139` and `internal/runner/options.go:151-160`) only log, exit or use the network.
- `Result.JSON` is a thin wrapper over `encoding/json`, and is not modelled.
- `cmd/aix/main.go`, `cmd/manx/main.go` and `examples/main.go` are not part of this model.
  They cover output rendering, file writes, signal handling and the start-up rejection
  of `--stream` together with `--jsonl`.
- The output-only option fields (`Output`, `Jsonl`, `Verbose`, `Silent`, `NoColor`,
  `Version`, `Update`, `DisableUpdateCheck`, `NoMarkdown`) are left out because `Run` and
  the modelled part of `ParseOptions` never read them.

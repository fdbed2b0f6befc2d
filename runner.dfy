/** `Runner.Run` (internal/runner/runner.go): checks the key, resolves the model, then
    either lists the provider's models or builds one chat-completion request and
    dispatches it, synchronously or as a stream, filling in a `Result`. The HTTP client
    is the abstract `Client`; `calls` records what was asked of it, in order. */
module Runner {
  import opened Wrappers
  import opened Strings
  import opened OpenAI
  import opened Options
  import opened Results
  import opened Streaming

  /** The model: an explicit name wins, then `--gpt4`, then `--gpt3`, else none. */
  function ResolvedModel(o: Options): string
  {
    if o.model != "" then o.model
    else if o.gpt4 then GPT4TurboPreview
    else if o.gpt3 then GPT3Dot5Turbo
    else ""
  }

  lemma ModelPrecedence(o: Options)
    ensures o.model != "" ==> ResolvedModel(o) == o.model
    ensures o.model == "" && o.gpt4 ==> ResolvedModel(o) == GPT4TurboPreview
    ensures o.model == "" && !o.gpt4 && o.gpt3 ==> ResolvedModel(o) == GPT3Dot5Turbo
    ensures o.model == "" && !o.gpt4 && !o.gpt3 ==> ResolvedModel(o) == ""
  {
  }

  /** With no model flag at all, the flag defaults select GPT-3.5 Turbo. */
  lemma DefaultModel(flags: Flags, host: Host, parseFloat: string -> Option<real>)
    requires flags.gpt3.None? && flags.gpt4.None? && flags.model == ""
    ensures ResolvedModel(ResolvedOptions(flags, host, parseFloat)) == GPT3Dot5Turbo
  {
  }

  /** The model listing: each ID followed by a newline, in the provider's order. */
  function ModelLines(ids: seq<string>): string
    decreases |ids|
  {
    if |ids| == 0 then "" else ModelLines(ids[..|ids| - 1]) + ids[|ids| - 1] + "\n"
  }

  /** The listing is the IDs joined by newline, with a final newline. */
  lemma {:induction false} ModelLinesAsJoin(ids: seq<string>)
    ensures ModelLines(ids) == Join(ids + [""], "\n")
    decreases |ids|
  {
    if |ids| > 0 {
      var init, last := ids[..|ids| - 1], ids[|ids| - 1];
      ModelLinesAsJoin(init);
      assert ids == init + [last];
      if |init| == 0 {
        assert ids + [""] == [last, ""];
        assert [last, ""][1..] == [""];
      } else {
        JoinSnoc(init, "", "\n");
        JoinSnoc(init, last, "\n");
        JoinSnoc(init + [last], "", "\n");
      }
    }
  }

  /** Splitting the listing at newlines gives back the IDs (and the empty piece after
      the last newline), as long as no ID holds a newline. */
  lemma ModelLinesRoundTrip(ids: seq<string>)
    requires forall k :: 0 <= k < |ids| ==> '\n' !in ids[k]
    ensures Split(ModelLines(ids), '\n') == ids + [""]
  {
    ModelLinesAsJoin(ids);
    assert "\n" == ['\n'];
    SplitJoin(ids + [""], '\n');
  }

  /** The buffer loop that renders the listing. */
  method RenderModelList(ids: seq<string>) returns (buff: string)
    ensures buff == ModelLines(ids)
  {
    buff := "";
    for i := 0 to |ids|
      invariant buff == ModelLines(ids[..i])
    {
      assert ids[..i + 1][..i] == ids[..i];
      buff := buff + ids[i] + "\n";
    }
    assert ids[..|ids|] == ids;
  }

  /** The messages sent: the system lines joined by newline as a system message when
      there are any lines, then the prompt as a user message when it is non-empty. */
  function Messages(o: Options): seq<ChatCompletionMessage>
  {
    (if |o.system| != 0 then [ChatCompletionMessage(ChatMessageRoleSystem, Join(o.system, "\n"))] else [])
    + (if o.prompt != "" then [ChatCompletionMessage(ChatMessageRoleUser, o.prompt)] else [])
  }

  lemma MessagesShape(o: Options)
    ensures |Messages(o)| <= 2
    ensures |Messages(o)| == 0 <==> |o.system| == 0 && o.prompt == ""
    ensures (|Messages(o)| > 0 && Messages(o)[0].role == ChatMessageRoleSystem) <==> |o.system| != 0
    ensures |o.system| != 0 ==> Messages(o)[0].content == Join(o.system, "\n")
    ensures (|Messages(o)| > 0 && Messages(o)[|Messages(o)| - 1].role == ChatMessageRoleUser) <==> o.prompt != ""
    ensures o.prompt != "" ==> Messages(o)[|Messages(o)| - 1].content == o.prompt
  {
  }

  /** What one run yields: the result, the error returned with it, and the calls made. */
  datatype Outcome = Outcome(result: ResultValue, err: Option<Error>, calls: seq<Call>)

  /** A result stamped with the call time, the resolved model and the prompt. */
  function Stamped(o: Options, now: string): ResultValue
  {
    Empty.(timestamp := now, model := ResolvedModel(o), prompt := o.prompt)
  }

  /** The request built for `o`. The runner copies temperature and top-p only when they
      are non-zero; since zero is also the request's default, the field always ends up
      equal to the option value. Leaving a zero out of the request body is go-openai's
      doing (`omitempty`), not the runner's. */
  function RequestFor(o: Options): ChatCompletionRequest
  {
    ChatCompletionRequest(ResolvedModel(o), Messages(o), o.temperature, o.topP, false)
  }

  /** What `Run` yields for options `o`, a provider `client` and the clock reading `now`. */
  function RunOutcome(o: Options, client: Client, now: string): Outcome
  {
    if o.openaiApiKey == "" then Outcome(Empty, Some(ErrNoKey), [])
    else if o.listModels then
      match client.listModels
      case Fail(m) => Outcome(Empty, Some(Upstream(m)), [ListModels])
      case Ok(ids) =>
        var text := ModelLines(ids);
        var result := if o.stream then Stamped(o, now).(completion := text, streaming := true, streamed := text, closed := true)
                      else Stamped(o, now).(completion := text);
        Outcome(result, None, [ListModels])
    else if |Messages(o)| == 0 then Outcome(Empty, Some(NoPromptProvided), [])
    else
      var req := RequestFor(o);
      if o.stream then
        var streamReq := req.(stream := true);
        Outcome(AfterStream(Stamped(o, now).(streaming := true), client.createChatCompletionStream(streamReq)),
                None, [CreateChatCompletionStream(streamReq)])
      else
        match client.createChatCompletion(req)
        case Fail(m) => Outcome(Empty.(error := Some(Upstream(m))), Some(Upstream(m)), [CreateChatCompletion(req)])
        case Ok(choices) =>
          if |choices| == 0 then Outcome(Empty, Some(NoDataOnResponse), [CreateChatCompletion(req)])
          else Outcome(Stamped(o, now).(completion := choices[0]), None, [CreateChatCompletion(req)])
  }

  class Runner {
    const options: Options

    constructor NewRunner(options: Options)
      ensures this.options == options
    {
      this.options := options;
    }

    /** `Run`. The streaming producer runs to completion before it returns. */
    method Run(client: Client, now: string) returns (res: Result, err: Option<Error>, calls: seq<Call>)
      ensures res.Value() == RunOutcome(options, client, now).result
      ensures err == RunOutcome(options, client, now).err
      ensures calls == RunOutcome(options, client, now).calls
      ensures fresh(res)
    {
      var model := "";
      if options.openaiApiKey == "" {
        res := new Result();
        err, calls := Some(ErrNoKey), [];
        return;
      }

      if options.gpt3 {
        model := GPT3Dot5Turbo;
      }
      if options.gpt4 {
        model := GPT4TurboPreview;
      }
      if options.model != "" {
        model := options.model;
      }

      if options.listModels {
        res, err, calls := ListModelsBranch(client, model, now);
      } else {
        res, err, calls := CompletionBranch(client, model, now);
      }
    }

    /** The list-models branch of `Run`. */
    method ListModelsBranch(client: Client, model: string, now: string) returns (res: Result, err: Option<Error>, calls: seq<Call>)
      requires options.openaiApiKey != "" && options.listModels && model == ResolvedModel(options)
      ensures res.Value() == RunOutcome(options, client, now).result
      ensures err == RunOutcome(options, client, now).err
      ensures calls == RunOutcome(options, client, now).calls
      ensures fresh(res)
    {
      calls := [ListModels];
      match client.listModels {
        case Fail(m) =>
          res := new Result();
          err := Some(Upstream(m));
        case Ok(ids) =>
          var buff := RenderModelList(ids);
          res := new Result();
          res.timestamp, res.model, res.prompt := now, model, options.prompt;
          if options.stream {
            res.SetupStreaming();
            res.WriteCompletionStreamResponse(buff);
            res.CloseCompletionStream();
          } else {
            res.completion := buff;
          }
          err := None;
      }
    }

    /** The completion branch of `Run`: message assembly, sampling values, dispatch. */
    method CompletionBranch(client: Client, model: string, now: string) returns (res: Result, err: Option<Error>, calls: seq<Call>)
      requires options.openaiApiKey != "" && !options.listModels && model == ResolvedModel(options)
      ensures res.Value() == RunOutcome(options, client, now).result
      ensures err == RunOutcome(options, client, now).err
      ensures calls == RunOutcome(options, client, now).calls
      ensures fresh(res)
    {
      var chatReq := ChatCompletionRequest(model, [], 0.0, 0.0, false);

      if |options.system| != 0 {
        chatReq := chatReq.(messages := chatReq.messages
                              + [ChatCompletionMessage(ChatMessageRoleSystem, Join(options.system, "\n"))]);
      }
      if options.prompt != "" {
        chatReq := chatReq.(messages := chatReq.messages + [ChatCompletionMessage(ChatMessageRoleUser, options.prompt)]);
      }

      if |chatReq.messages| == 0 {
        res := new Result();
        err, calls := Some(NoPromptProvided), [];
        return;
      }

      if options.temperature != 0.0 {
        chatReq := chatReq.(temperature := options.temperature);
      }
      if options.topP != 0.0 {
        chatReq := chatReq.(topP := options.topP);
      }
      assert chatReq == RequestFor(options);

      res := new Result();
      res.timestamp, res.model, res.prompt := now, model, options.prompt;

      if options.stream {
        res.SetupStreaming();
        var call := ProduceStream(res, client, chatReq);
        calls := [call];
        err := None;
      } else {
        calls := [CreateChatCompletion(chatReq)];
        match client.createChatCompletion(chatReq) {
          case Fail(m) =>
            res := new Result();
            res.error := Some(Upstream(m));
            err := Some(Upstream(m));
          case Ok(choices) =>
            if |choices| == 0 {
              res := new Result();
              err := Some(NoDataOnResponse);
            } else {
              res.completion := choices[0];
              err := None;
            }
        }
      }
    }
  }

  /** Without a key the run fails with `ErrNoKey` and an empty result, calls nothing, and
      so does not depend on the provider at all. */
  lemma NoKeyFailsFirst(o: Options, client: Client, other: Client, now: string)
    requires o.openaiApiKey == ""
    ensures RunOutcome(o, client, now) == Outcome(Empty, Some(ErrNoKey), [])
    ensures RunOutcome(o, client, now) == RunOutcome(o, other, now)
  {
  }

  /** Listing mode: one listing call; its error comes back unchanged with an empty
      result; otherwise the completion is the listing, and the prompt is never checked. */
  lemma ListModelsOutcome(o: Options, client: Client, now: string)
    requires o.openaiApiKey != "" && o.listModels
    ensures var out := RunOutcome(o, client, now);
      && out.calls == [ListModels]
      && out.err != Some(NoPromptProvided)
      && (client.listModels.Fail? ==> out.result == Empty && out.err == Some(Upstream(client.listModels.message)))
      && (client.listModels.Ok? ==>
            && out.err == None
            && out.result.completion == ModelLines(client.listModels.value)
            && out.result.model == ResolvedModel(o)
            && out.result.prompt == o.prompt
            && out.result.timestamp == now
            && out.result.error == None
            && out.result.streaming == o.stream
            && (o.stream ==> out.result.streamed == out.result.completion && out.result.closed)
            && (!o.stream ==> out.result == Stamped(o, now).(completion := ModelLines(client.listModels.value))))
  {
  }

  /** No system lines and an empty prompt: "no prompt provided", before any call. */
  lemma NoPromptBeforeDispatch(o: Options, client: Client, other: Client, now: string)
    requires o.openaiApiKey != "" && !o.listModels && |o.system| == 0 && o.prompt == ""
    ensures RunOutcome(o, client, now) == Outcome(Empty, Some(NoPromptProvided), [])
    ensures RunOutcome(o, client, now) == RunOutcome(o, other, now)
  {
  }

  /** Otherwise exactly one completion call is made, with the resolved model, the
      assembled messages, the sampling values copied only when non-zero, and the stream
      flag set exactly for a streaming run. */
  lemma DispatchedRequest(o: Options, client: Client, now: string)
    requires o.openaiApiKey != "" && !o.listModels && (|o.system| != 0 || o.prompt != "")
    ensures var calls := RunOutcome(o, client, now).calls;
      && |calls| == 1
      && (calls[0].CreateChatCompletionStream? <==> o.stream)
      && (calls[0].CreateChatCompletion? <==> !o.stream)
      && var req := calls[0].request;
      && req.model == ResolvedModel(o)
      && req.messages == Messages(o)
      && (o.temperature != 0.0 ==> req.temperature == o.temperature)
      && (o.temperature == 0.0 ==> req.temperature == 0.0)
      && (o.topP != 0.0 ==> req.topP == o.topP)
      && (o.topP == 0.0 ==> req.topP == 0.0)
      && req.stream == o.stream
  {
  }

  /** Synchronous dispatch: a transport error comes back both in the result and as the
      error; zero choices give an empty result and "no data on response"; otherwise the
      completion is the first choice, stamped with the model and the prompt. */
  lemma SyncOutcome(o: Options, client: Client, now: string)
    requires o.openaiApiKey != "" && !o.listModels && (|o.system| != 0 || o.prompt != "") && !o.stream
    ensures var out := RunOutcome(o, client, now);
      var reply := client.createChatCompletion(RequestFor(o));
      && (reply.Fail? ==> out.result == Empty.(error := Some(Upstream(reply.message)))
                          && out.err == Some(Upstream(reply.message)))
      && (reply.Ok? && |reply.value| == 0 ==> out.result == Empty && out.err == Some(NoDataOnResponse))
      && (reply.Ok? && |reply.value| > 0 ==>
            && out.err == None
            && out.result == ResultValue(now, o.prompt, reply.value[0], ResolvedModel(o), None, false, "", false))
  {
  }

  /** Streaming dispatch: the run itself never fails; the result's stream is closed, holds
      exactly the completion, and the producer's failure is recorded on the result. */
  lemma StreamOutcome(o: Options, client: Client, now: string)
    requires o.openaiApiKey != "" && !o.listModels && (|o.system| != 0 || o.prompt != "") && o.stream
    ensures var out := RunOutcome(o, client, now);
      var reply := client.createChatCompletionStream(RequestFor(o).(stream := true));
      && out.calls == [CreateChatCompletionStream(RequestFor(o).(stream := true))]
      && out.err == None
      && out.result.streaming && out.result.closed
      && out.result.streamed == out.result.completion
      && out.result.timestamp == now
      && out.result.model == ResolvedModel(o) && out.result.prompt == o.prompt
      && (reply.Fail? ==> out.result.completion == "" && out.result.error == Some(Upstream(reply.message)))
      && (reply.Ok? ==> out.result.completion == Drain(reply.value).text
                        && out.result.error == Drain(reply.value).error)
  {
  }

  /** A stream of usable chunks ending in EOF completes with their first deltas in order
      and no error; a receive failure after them keeps their text and records it. */
  lemma StreamedCompletion(o: Options, client: Client, now: string, chunks: seq<StreamEvent>, rest: seq<StreamEvent>)
    requires o.openaiApiKey != "" && !o.listModels && (|o.system| != 0 || o.prompt != "") && o.stream
    requires forall k :: 0 <= k < |chunks| ==> Usable(chunks[k])
    requires |rest| > 0 && (rest[0].Eof? || rest[0].RecvError? || rest[0] == Chunk([]))
    requires client.createChatCompletionStream(RequestFor(o).(stream := true)) == Ok(chunks + rest)
    ensures RunOutcome(o, client, now).result.completion == Deltas(chunks)
    ensures rest[0].Eof? ==> RunOutcome(o, client, now).result.error == None
    ensures rest[0].RecvError? ==> RunOutcome(o, client, now).result.error == Some(Upstream(rest[0].message))
    ensures rest[0] == Chunk([]) ==> RunOutcome(o, client, now).result.error == Some(GotEmptyResponse)
  {
    StreamOutcome(o, client, now);
    assert chunks + rest == chunks + [rest[0]] + rest[1..];
    if rest[0].Eof? {
      DrainUntilEof(chunks, rest[1..]);
    } else if rest[0].RecvError? {
      DrainUntilRecvError(chunks, rest[0].message, rest[1..]);
    } else {
      DrainUntilEmptyChunk(chunks, rest[1..]);
    }
  }
}

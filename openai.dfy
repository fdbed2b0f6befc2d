/** The part of the go-openai client the runner uses, as plain values: the requests it
    builds, and the replies the provider gives back. The HTTP transport is not modelled;
    a `Client` is whatever the provider would answer. */
module OpenAI {

  /** Model identifiers and chat roles, with their values in go-openai. */
  const GPT3Dot5Turbo: string := "gpt-3.5-turbo"
  const GPT4TurboPreview: string := "gpt-4-turbo-preview"
  const ChatMessageRoleSystem: string := "system"
  const ChatMessageRoleUser: string := "user"

  datatype ChatCompletionMessage = ChatCompletionMessage(role: string, content: string)

  /** A chat-completion request. A zero `temperature` or `topP` is the unset default,
      which go-openai leaves out of the request body. */
  datatype ChatCompletionRequest = ChatCompletionRequest(
    model: string,
    messages: seq<ChatCompletionMessage>,
    temperature: real,
    topP: real,
    stream: bool)

  /** The outcome of one provider call: a value, or the transport error's message. */
  datatype Reply<T> = Ok(value: T) | Fail(message: string)

  /** One result of `stream.Recv()`: a chunk with the delta text of each of its choices,
      an error, or the end of the stream (`io.EOF`). */
  datatype StreamEvent = Chunk(deltas: seq<string>) | RecvError(message: string) | Eof

  /** The provider behind `openai.NewClient(key)`: the model IDs `ListModels` returns,
      the content of each choice `CreateChatCompletion` returns for a request, and the
      events the stream opened by `CreateChatCompletionStream` yields, in order. */
  datatype Client = Client(
    listModels: Reply<seq<string>>,
    createChatCompletion: ChatCompletionRequest -> Reply<seq<string>>,
    createChatCompletionStream: ChatCompletionRequest -> Reply<seq<StreamEvent>>)

  /** A call the runner made on the client. */
  datatype Call =
    | ListModels
    | CreateChatCompletion(request: ChatCompletionRequest)
    | CreateChatCompletionStream(request: ChatCompletionRequest)
}

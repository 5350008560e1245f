/**
 * The `openai` package as the modelled code sees it: one process-wide slot `openai.api_key`
 * and remote endpoints whose answers are an oracle. Each request is logged with the key that
 * was active when it was sent, so that what was (or was not) sent can be stated.
 */
module OpenaiLib {
  import opened Wrappers
  import opened PyValues

  /** The fields after `model` and the prompt that `Completion.create` and `Edit.create` receive. */
  datatype Params = Params(
    maxTokens: Value, temperature: Value, topP: Value, n: Value,
    stream: Value, stop: Value, user: Value)

  datatype Request =
    | CompletionCreate(model: Value, prompt: string, params: Params)             // openai.Completion.create
    | EditCreate(model: Value, input: string, instruction: Value, params: Params) // openai.Edit.create
    | EngineList                                                            // openai.Engine.list

  /** What the service does with a call: return choices (their texts, in order) or raise. */
  datatype Reply = Returned(texts: seq<string>) | Raised(reason: string)

  /** A request together with the value of `openai.api_key` when it was sent. */
  datatype Call = Call(key: Option<string>, request: Request)

  /** `response.choices[0].text` after the call, or the exception on the way. */
  function FirstText(reply: Reply): Result<string> {
    match reply
    case Raised(reason) => Err(RemoteError(reason))
    case Returned(texts) => if texts == [] then Err(IndexError) else Ok(texts[0])
  }

  class Library {
    /** `openai.api_key` */
    var apiKey: Option<string>
    /** Every call the service has received, oldest first. */
    var calls: seq<Call>
    /** The remote service, as an oracle over the calls it receives. */
    const respond: Call -> Reply

    constructor (apiKey: Option<string>, respond: Call -> Reply)
      ensures this.apiKey == apiKey && this.respond == respond && calls == []
    {
      this.apiKey := apiKey;
      this.respond := respond;
      calls := [];
    }

    /** Issue one request under the currently installed key. */
    method Send(request: Request) returns (reply: Reply)
      modifies this`calls
      ensures calls == old(calls) + [Call(apiKey, request)]
      ensures reply == respond(Call(apiKey, request))
    {
      calls := calls + [Call(apiKey, request)];
      reply := respond(Call(apiKey, request));
    }
  }
}

/**
 * The JSON-RPC messages the dispatcher consumes and produces, already decoded:
 * requests arrive as `Request` values and responses leave as `Response` values.
 */
module Protocol {
  import opened Wrappers

  /** A decoded JSON value (numbers are integers here). */
  datatype Json =
    | JNull
    | JBool(b: bool)
    | JNumber(n: int)
    | JString(s: string)
    | JArray(items: seq<Json>)
    | JObject(members: seq<(string, Json)>)

  /** Keyword arguments passed to a command: parameter name to value. */
  type Arguments = map<string, Json>

  /** The `params` object. An absent `name` is None; absent `arguments` is the empty map. */
  datatype Params = Params(name: Option<string>, arguments: Arguments)

  /** What `request.get("params", {})` yields when the request has no params. */
  const NoParams := Params(None, map[])

  /** A decoded request. An absent or null `id` is JNull; an absent `method` is None. */
  datatype Request = Request(id: Json, methodName: Option<string>, params: Params)

  datatype PromptArgument = PromptArgument(name: string, description: string, required: bool)

  datatype Prompt = Prompt(name: string, arguments: seq<PromptArgument>)

  /** The `result` member of a successful response, one shape per handler. */
  datatype Payload =
    | InitializeResult(protocolVersion: int, capabilities: Json, serverName: string, serverVersion: string)
    | PromptsListResult(prompts: seq<Prompt>)
    | PromptsGetResult(prompt: string)

  /** Either a `result` member or an `error: {code, message}` member. */
  datatype Body = ResultBody(result: Payload) | ErrorBody(code: int, message: string)

  datatype Response = Response(jsonrpc: string, id: Json, body: Body)

  const JsonRpcVersion := "2.0"

  /** Error code for a method outside the routing table. */
  const MethodNotFound := -32601

  /** Error code for any exception raised while a handler runs. */
  const ServerError := -32000

  /** How a Python f-string renders an optional string: None becomes "None". */
  function Display(s: Option<string>): string
  {
    match s
    case Some(v) => v
    case None => "None"
  }
}

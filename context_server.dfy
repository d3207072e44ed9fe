/**
 * The command registry and the request dispatcher of the context server.
 *
 * Registration is two-phase: `Argument` collects argument descriptors under the
 * implementing function's name, and `RegisterCommand` moves them into the
 * finished command record. The handlers only read the registry.
 */
module Server {
  import opened Wrappers
  import opened Protocol

  /** One declared argument: its name, the name of its declared type, and its help text. */
  datatype ArgumentInfo = ArgumentInfo(name: string, typeName: string, description: string)

  /** The metadata kept for a registered command. */
  datatype CommandInfo = CommandInfo(name: string, description: string, arguments: seq<ArgumentInfo>)

  /**
   * A command implementation: the function's name (`__name__`, which the
   * decorators' wrappers preserve) and what calling it with keyword arguments
   * gives: the text of its result, or the text of the exception it raises.
   */
  datatype Callable = Callable(funcName: string, invoke: Arguments -> Result<string, string>)

  /** The three entries of the routing table. */
  datatype Handler = Initialize | PromptsList | PromptsGet

  /** The routing table: method name to handler. */
  const Handlers: map<string, Handler> :=
    map["initialize" := Initialize, "prompts/list" := PromptsList, "prompts/get" := PromptsGet]

  /**
   * `self.handlers.get(method)`: each of the three method names selects its own
   * handler, and every other name, or a missing method, selects none.
   */
  function Route(methodName: Option<string>): (r: Option<Handler>)
    ensures r == Some(Initialize) <==> methodName == Some("initialize")
    ensures r == Some(PromptsList) <==> methodName == Some("prompts/list")
    ensures r == Some(PromptsGet) <==> methodName == Some("prompts/get")
  {
    if methodName.Some? && methodName.value in Handlers then Some(Handlers[methodName.value]) else None
  }

  /** The constant answer to `initialize`. */
  const InitializeInfo: Payload :=
    InitializeResult(1, JObject([("prompts", JObject([]))]), "Python Context Server", "0.1.0")

  /** The descriptors collected so far for a function name; none if it has no entry. */
  function PendingArguments(pending: map<string, seq<ArgumentInfo>>, funcName: string): (r: seq<ArgumentInfo>)
    ensures funcName in pending ==> r == pending[funcName]
    ensures funcName !in pending ==> r == []
  {
    if funcName in pending then pending[funcName] else []
  }

  /** Each argument descriptor as `prompts/list` shows it: the type is dropped, `required` is true. */
  function PromptArguments(args: seq<ArgumentInfo>): (r: seq<PromptArgument>)
    ensures |r| == |args|
    ensures forall i :: 0 <= i < |args| ==>
              r[i].name == args[i].name && r[i].description == args[i].description && r[i].required
  {
    if args == [] then []
    else [PromptArgument(args[0].name, args[0].description, true)] + PromptArguments(args[1..])
  }

  /** One prompt per name of `order`, in that order, with its arguments taken from `info`. */
  function PromptsOf(order: seq<string>, info: map<string, CommandInfo>): (r: seq<Prompt>)
    requires forall i :: 0 <= i < |order| ==> order[i] in info
    ensures |r| == |order|
    ensures forall i :: 0 <= i < |order| ==>
              r[i].name == order[i] && r[i].arguments == PromptArguments(info[order[i]].arguments)
  {
    if order == [] then []
    else [Prompt(order[0], PromptArguments(info[order[0]].arguments))] + PromptsOf(order[1..], info)
  }

  ghost predicate Distinct(s: seq<string>)
  {
    forall i, j :: 0 <= i < j < |s| ==> s[i] != s[j]
  }

  /** A sequence without repetitions has as many elements as the set of its elements. */
  lemma {:induction false} DistinctCardinality(s: seq<string>)
    requires Distinct(s)
    ensures |set x | x in s| == |s|
  {
    if s != [] {
      DistinctCardinality(s[1..]);
      assert (set x | x in s) == {s[0]} + (set x | x in s[1..]);
      assert s[0] !in (set x | x in s[1..]);
    }
  }

  class ContextServer {
    /** Command name to implementation. */
    var commands: map<string, Callable>
    /** Command name to its metadata. */
    var commandInfo: map<string, CommandInfo>
    /** Function name to the argument descriptors declared for it and not yet registered. */
    var pending: map<string, seq<ArgumentInfo>>
    /**
     * The registered names in first-insertion order, which is the order in which
     * a Python dict enumerates its keys; re-assigning a key keeps its place.
     */
    var order: seq<string>

    ghost predicate Valid()
      reads this
    {
      && Distinct(order)
      && (forall i :: 0 <= i < |order| ==> order[i] in commandInfo)
      && (forall n :: n in commandInfo ==> n in order)
      && commands.Keys == commandInfo.Keys
      && (forall n :: n in commandInfo ==> commandInfo[n].name == n)
    }

    constructor ()
      ensures Valid()
      ensures commands == map[] && commandInfo == map[] && pending == map[] && order == []
    {
      commands := map[];
      commandInfo := map[];
      pending := map[];
      order := [];
    }

    /**
     * The `argument` decorator applied to `func`: one more descriptor at the end
     * of the pending list for `func`'s name, which is created empty if missing.
     * The returned wrapper is `func` itself (same name, same behaviour).
     */
    method Argument(name: string, typeName: string, help: string, func: Callable) returns (wrapper: Callable)
      requires Valid()
      modifies this
      ensures Valid()
      ensures wrapper == func
      ensures pending == old(pending)[func.funcName := PendingArguments(old(pending), func.funcName) + [ArgumentInfo(name, typeName, help)]]
      ensures commands == old(commands) && commandInfo == old(commandInfo) && order == old(order)
    {
      if func.funcName !in pending {
        pending := pending[func.funcName := []];
      }
      pending := pending[func.funcName := pending[func.funcName] + [ArgumentInfo(name, typeName, help)]];
      wrapper := func;
    }

    /**
     * Registers `func` under `name` with the descriptors pending for its function
     * name, then drops that pending entry. An existing name is overwritten in
     * both maps and keeps its place in the enumeration order.
     */
    method RegisterCommand(name: string, func: Callable, description: string)
      requires Valid()
      modifies this
      ensures Valid()
      ensures commands == old(commands)[name := func]
      ensures commandInfo == old(commandInfo)[name := CommandInfo(name, description, PendingArguments(old(pending), func.funcName))]
      ensures pending == old(pending) - {func.funcName}
      ensures order == if name in old(commandInfo) then old(order) else old(order) + [name]
      ensures |commandInfo| == if name in old(commandInfo) then old(|commandInfo|) else old(|commandInfo|) + 1
    {
      var known := name in commandInfo;
      commands := commands[name := func];
      commandInfo := commandInfo[name := CommandInfo(name, description, PendingArguments(pending, func.funcName))];
      pending := pending - {func.funcName};
      if !known {
        order := order + [name];
      }
    }

    /** The `slash_command` decorator applied to `func`: registers it and returns it. */
    method SlashCommand(name: string, description: string, func: Callable) returns (wrapper: Callable)
      requires Valid()
      modifies this
      ensures Valid()
      ensures wrapper == func
      ensures commands == old(commands)[name := func]
      ensures commandInfo == old(commandInfo)[name := CommandInfo(name, description, PendingArguments(old(pending), func.funcName))]
      ensures pending == old(pending) - {func.funcName}
      ensures order == if name in old(commandInfo) then old(order) else old(order) + [name]
    {
      RegisterCommand(name, func, description);
      wrapper := func;
    }

    /** `initialize`: the same constant payload whatever the params. */
    function HandleInitialize(params: Params): (p: Payload)
      ensures p.InitializeResult? && p.protocolVersion == 1
      ensures p.capabilities == JObject([("prompts", JObject([]))])
      ensures p.serverName == "Python Context Server" && p.serverVersion == "0.1.0"
    {
      InitializeInfo
    }

    /**
     * `prompts/list`: one prompt per registered command, in registration order,
     * each argument shown with name and description and marked required.
     */
    function HandlePromptsList(params: Params): (p: Payload)
      reads this
      requires Valid()
      ensures p.PromptsListResult?
      ensures |p.prompts| == |order| == |commandInfo|
      ensures forall i :: 0 <= i < |p.prompts| ==> p.prompts[i].name == order[i]
      ensures forall i, j :: 0 <= i < j < |p.prompts| ==> p.prompts[i].name != p.prompts[j].name
      ensures forall i :: 0 <= i < |p.prompts| ==>
                p.prompts[i].name in commandInfo &&
                p.prompts[i].arguments == PromptArguments(commandInfo[p.prompts[i].name].arguments)
    {
      DistinctCardinality(order);
      assert (set x | x in order) == commandInfo.Keys;
      PromptsListResult(PromptsOf(order, commandInfo))
    }

    /**
     * `prompts/get`: runs the command named in the params with the given
     * arguments; an unknown or absent name fails with "Command '<name>' not found".
     */
    function HandlePromptsGet(params: Params): (r: Result<Payload, string>)
      reads this
      ensures params.name.None? || params.name.value !in commands ==>
                r == Err("Command '" + Display(params.name) + "' not found")
      ensures params.name.Some? && params.name.value in commands ==>
                var outcome := commands[params.name.value].invoke(params.arguments);
                (r.Ok? <==> outcome.Ok?) &&
                (r.Ok? ==> r.value == PromptsGetResult(outcome.value)) &&
                (r.Err? ==> r.error == outcome.error)
    {
      if params.name.None? || params.name.value !in commands then
        Err("Command '" + Display(params.name) + "' not found")
      else
        match commands[params.name.value].invoke(params.arguments)
        case Ok(text) => Ok(PromptsGetResult(text))
        case Err(e) => Err(e)
    }

    /**
     * `await handler(params)`: only `prompts/get` can fail, and each handler
     * answers with its own kind of payload.
     */
    function Handle(h: Handler, params: Params): (r: Result<Payload, string>)
      reads this
      requires Valid()
      ensures h != PromptsGet ==> r.Ok?
      ensures h == PromptsGet ==> r == HandlePromptsGet(params)
      ensures r.Ok? ==> (r.value.InitializeResult? <==> h == Initialize)
      ensures r.Ok? ==> (r.value.PromptsListResult? <==> h == PromptsList)
      ensures r.Ok? ==> (r.value.PromptsGetResult? <==> h == PromptsGet)
    {
      match h
      case Initialize => Ok(HandleInitialize(params))
      case PromptsList => Ok(HandlePromptsList(params))
      case PromptsGet => HandlePromptsGet(params)
    }

    /**
     * Answers one request: an unknown method is a -32601 error, a handler
     * failure a -32000 error carrying its message, anything else a result.
     * Every response carries protocol tag "2.0" and the request's id.
     */
    function HandleRequest(request: Request): (response: Response)
      reads this
      requires Valid()
      ensures response.jsonrpc == JsonRpcVersion && response.id == request.id
      ensures response.body.ErrorBody? && response.body.code == MethodNotFound <==> Route(request.methodName).None?
      ensures Route(request.methodName).None? ==>
                response.body.message == "Method '" + Display(request.methodName) + "' not found"
      ensures response.body.ErrorBody? ==> response.body.code in {MethodNotFound, ServerError}
      ensures request.methodName == Some("initialize") ==> response.body == ResultBody(InitializeInfo)
      ensures request.methodName == Some("prompts/list") ==>
                response.body.ResultBody? && response.body.result == HandlePromptsList(request.params)
      ensures request.methodName == Some("prompts/get") ==>
                match HandlePromptsGet(request.params)
                case Ok(p) => response.body == ResultBody(p)
                case Err(e) => response.body == ErrorBody(ServerError, e)
      ensures request.methodName == Some("prompts/get") &&
              (request.params.name.None? || request.params.name.value !in commands) ==>
                response.body == ErrorBody(ServerError, "Command '" + Display(request.params.name) + "' not found")
    {
      match Route(request.methodName)
      case None =>
        Response(JsonRpcVersion, request.id,
                 ErrorBody(MethodNotFound, "Method '" + Display(request.methodName) + "' not found"))
      case Some(h) =>
        match Handle(h, request.params)
        case Ok(result) => Response(JsonRpcVersion, request.id, ResultBody(result))
        case Err(e) => Response(JsonRpcVersion, request.id, ErrorBody(ServerError, e))
    }
  }
}

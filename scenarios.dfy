/**
 * Clients of the registry and the dispatcher: the registrations and requests
 * of the repository's unit tests and of the rot13 example, with what the
 * contracts of `Server` let a caller conclude about them.
 */
module Scenarios {
  // Each decorator returns the function it was given (see `ContextServer.Argument`),
  // so applying the next decorator to that function is the same as Python's stacking.
  import opened Wrappers
  import opened Protocol
  import opened Server
  import Rot13

  /**
   * The body of the test's `echo(message)`: `f"Echo: {message}"`. Only a string
   * message is modelled; any other value gives a fixed failure text.
   */
  function Echo(args: Arguments): Result<string, string>
  {
    if "message" !in args then Err("echo() missing 1 required positional argument: 'message'")
    else if args["message"].JString? then Ok("Echo: " + args["message"].s)
    else Err("echo: only string messages are modelled")
  }

  /** Python's name for the type of a decoded JSON value. */
  function PythonTypeName(v: Json): string
  {
    match v
    case JNull => "NoneType"
    case JBool(_) => "bool"
    case JNumber(_) => "int"
    case JString(_) => "str"
    case JArray(_) => "list"
    case JObject(_) => "dict"
  }

  /**
   * The registered rot13 command called with keyword arguments: a missing
   * `input` or a value without `lower()` fails as the call would in Python;
   * non-ASCII text is outside this model and gives a fixed failure text.
   */
  function Rot13Command(args: Arguments): Result<string, string>
  {
    if "input" !in args then Err("rot13() missing 1 required positional argument: 'input'")
    else if !args["input"].JString? then
      Err("'" + PythonTypeName(args["input"]) + "' object has no attribute 'lower'")
    else if Rot13.IsAscii(args["input"].s) then Ok(Rot13.Rot13(args["input"].s))
    else Err("rot13: only ASCII input is modelled")
  }

  /** A command body whose result is never looked at (the listing tests only register). */
  function NoResult(args: Arguments): Result<string, string>
  {
    Ok("None")
  }

  /** One command with one argument: it is registered, with its name, description and descriptor. */
  method SingleCommandRegistration() returns (registered: bool, info: CommandInfo)
    ensures registered
    ensures info == CommandInfo("test", "Test command", [ArgumentInfo("arg1", "str", "First argument")])
  {
    var server := new ContextServer();
    var f := Callable("test_command", NoResult);
    var _ := server.Argument("arg1", "str", "First argument", f);
    var _ := server.SlashCommand("test", "Test command", f);
    registered := "test" in server.commands && "test" in server.commandInfo;
    info := server.commandInfo["test"];
  }

  /**
   * Decorators written as `arg2` above `arg1` are applied `arg1` first, so the
   * command lists `arg1` before `arg2`.
   */
  method MultipleArguments() returns (registered: bool, args: seq<ArgumentInfo>)
    ensures registered
    ensures |args| == 2 && args[0].name == "arg1" && args[1].name == "arg2"
    ensures args == [ArgumentInfo("arg1", "str", "First argument"), ArgumentInfo("arg2", "int", "Second argument")]
  {
    var server := new ContextServer();
    var f := Callable("multi_arg_command", NoResult);
    var _ := server.Argument("arg1", "str", "First argument", f);
    var _ := server.Argument("arg2", "int", "Second argument", f);
    var _ := server.SlashCommand("multi_arg", "Multiple arguments", f);
    registered := "multi_arg" in server.commands && "multi_arg" in server.commandInfo;
    args := server.commandInfo["multi_arg"].arguments;
  }

  /** `prompts/get` on a registered `echo` runs it and returns its text as the prompt. */
  method CommandExecution() returns (response: Response)
    ensures response == Response("2.0", JNumber(1), ResultBody(PromptsGetResult("Echo: Hello, World!")))
  {
    var server := new ContextServer();
    var f := Callable("echo", Echo);
    var _ := server.Argument("message", "str", "Message to echo", f);
    var _ := server.SlashCommand("echo", "Echo command", f);
    var request := Request(JNumber(1), Some("prompts/get"),
                           Params(Some("echo"), map["message" := JString("Hello, World!")]));
    assert server.commands["echo"].invoke == Echo;
    assert "Echo: " + "Hello, World!" == "Echo: Hello, World!";
    assert Echo(request.params.arguments) == Ok("Echo: Hello, World!");
    assert server.HandlePromptsGet(request.params) == Ok(PromptsGetResult("Echo: Hello, World!"));
    response := server.HandleRequest(request);
  }

  /** The first registration of the listing test: `cmd1` with one argument. */
  method RegisterFirstCommand() returns (server: ContextServer)
    ensures fresh(server) && server.Valid()
    ensures server.order == ["cmd1"] && server.pending == map[]
    ensures server.commandInfo == map["cmd1" := CommandInfo("cmd1", "Command 1", [ArgumentInfo("arg1", "str", "Argument 1")])]
  {
    server := new ContextServer();
    var f := Callable("cmd1", NoResult);
    var _ := server.Argument("arg1", "str", "Argument 1", f);
    assert server.pending["cmd1"] == [ArgumentInfo("arg1", "str", "Argument 1")];
    var _ := server.SlashCommand("cmd1", "Command 1", f);
  }

  /** The second registration of the listing test: `cmd2` with two arguments. */
  method RegisterSecondCommand(server: ContextServer)
    requires server.Valid()
    requires server.order == ["cmd1"] && server.pending == map[]
    requires server.commandInfo == map["cmd1" := CommandInfo("cmd1", "Command 1", [ArgumentInfo("arg1", "str", "Argument 1")])]
    modifies server
    ensures server.Valid()
    ensures server.order == ["cmd1", "cmd2"] && "cmd1" in server.commandInfo && "cmd2" in server.commandInfo
    ensures server.commandInfo["cmd1"].arguments == [ArgumentInfo("arg1", "str", "Argument 1")]
    ensures server.commandInfo["cmd2"].arguments ==
              [ArgumentInfo("arg1", "str", "Argument 1"), ArgumentInfo("arg2", "int", "Argument 2")]
  {
    var g := Callable("cmd2", NoResult);
    var _ := server.Argument("arg1", "str", "Argument 1", g);
    var _ := server.Argument("arg2", "int", "Argument 2", g);
    var _ := server.SlashCommand("cmd2", "Command 2", g);
  }

  /** `prompts/list` on a registry holding the two commands of the listing test. */
  method ListTwoCommands(server: ContextServer) returns (prompts: seq<Prompt>)
    requires server.Valid()
    requires server.order == ["cmd1", "cmd2"] && "cmd1" in server.commandInfo && "cmd2" in server.commandInfo
    requires server.commandInfo["cmd1"].arguments == [ArgumentInfo("arg1", "str", "Argument 1")]
    requires server.commandInfo["cmd2"].arguments ==
              [ArgumentInfo("arg1", "str", "Argument 1"), ArgumentInfo("arg2", "int", "Argument 2")]
    ensures prompts == [
      Prompt("cmd1", [PromptArgument("arg1", "Argument 1", true)]),
      Prompt("cmd2", [PromptArgument("arg1", "Argument 1", true), PromptArgument("arg2", "Argument 2", true)])
    ]
  {
    var response := server.HandleRequest(Request(JNumber(1), Some("prompts/list"), NoParams));
    prompts := response.body.result.prompts;
    ghost var shown1 := PromptArguments(server.commandInfo["cmd1"].arguments);
    ghost var shown2 := PromptArguments(server.commandInfo["cmd2"].arguments);
    assert shown1 == [PromptArgument("arg1", "Argument 1", true)];
    assert shown2 == [PromptArgument("arg1", "Argument 1", true), PromptArgument("arg2", "Argument 2", true)];
  }

  /** `prompts/list` after two registrations lists both, arguments in declaration order. */
  method PromptsListing() returns (prompts: seq<Prompt>)
    ensures prompts == [
      Prompt("cmd1", [PromptArgument("arg1", "Argument 1", true)]),
      Prompt("cmd2", [PromptArgument("arg1", "Argument 1", true), PromptArgument("arg2", "Argument 2", true)])
    ]
  {
    var server := RegisterFirstCommand();
    RegisterSecondCommand(server);
    prompts := ListTwoCommands(server);
  }

  /** The rot13 example registered and invoked through `prompts/get`. */
  method Rot13Registration() returns (response: Response)
    ensures response.body == ResultBody(PromptsGetResult("uv!"))
  {
    var server := new ContextServer();
    var f := Callable("rot13", Rot13Command);
    var _ := server.Argument("input", "str", "String to rot13", f);
    var _ := server.SlashCommand("rot13", "Perform a rot13 transformation", f);
    assert server.commands["rot13"].invoke == Rot13Command;
    assert Rot13.IsAscii("Hi!") by {
      assert forall i :: 0 <= i < 3 ==> "Hi!"[i] as int < 128;
    }
    ghost var out := Rot13.Rot13("Hi!");
    assert out[0] == 'u' && out[1] == 'v' && out[2] == '!';
    assert out == "uv!";
    var params := Params(Some("rot13"), map["input" := JString("Hi!")]);
    assert Rot13Command(params.arguments) == Ok("uv!");
    response := server.HandleRequest(Request(JNumber(7), Some("prompts/get"), params));
  }

  /** `prompts/get` for a name nobody registered is a -32000 error naming it. */
  method UnknownCommand() returns (response: Response)
    ensures response == Response("2.0", JNumber(8), ErrorBody(ServerError, "Command 'rot26' not found"))
  {
    var server := new ContextServer();
    var f := Callable("rot13", Rot13Command);
    var _ := server.Argument("input", "str", "String to rot13", f);
    var _ := server.SlashCommand("rot13", "Perform a rot13 transformation", f);
    assert "rot26" !in server.commands;
    assert "Command '" + "rot26" + "' not found" == "Command 'rot26' not found";
    response := server.HandleRequest(Request(JNumber(8), Some("prompts/get"), Params(Some("rot26"), map[])));
  }

  /** A method outside the routing table is a -32601 error echoing the id. */
  method UnknownMethod() returns (response: Response)
    ensures response == Response("2.0", JString("a"), ErrorBody(MethodNotFound, "Method 'tools/list' not found"))
  {
    var server := new ContextServer();
    assert "Method '" + "tools/list" + "' not found" == "Method 'tools/list' not found";
    response := server.HandleRequest(Request(JString("a"), Some("tools/list"), NoParams));
  }
}

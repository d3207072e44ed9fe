# Python context server — a Dafny model

This project models the core of a small JSON-RPC "context server". The server keeps a
registry of slash commands. Each command has a name, a description, a list of argument
descriptors and an implementation. The server answers three methods: `initialize`,
`prompts/list` and `prompts/get`. It also models the example `rot13` command.

Files:

- `wrappers.dfy` (module `Wrappers`): `Option` and `Result`.
- `protocol.dfy` (module `Protocol`): decoded requests and responses, the JSON values they
  carry, and the error codes -32601 and -32000.
- `context_server.dfy` (module `Server`): the class `ContextServer`. Its fields are the
  three dictionaries of the source: `commands`, `commandInfo`, and `pending` (the
  source's `_temp_command_info`). A fourth field, `order`, is the sequence of registered
  names in first-insertion order. This is the order in which Python enumerates
  `command_info`. `Argument`, `RegisterCommand` and `SlashCommand` change the registry
  in place. The handlers are functions that read it.
- `rot13.dfy` (module `Rot13`): the character transform of the example command.
- `scenarios.dfy` (module `Scenarios`): the registrations and requests of the unit tests
  and of the rot13 example. Each is a verified client of the registry.

The registry invariant `ContextServer.Valid()` says four things:

- `order` has no repeated name.
- `order` holds exactly the keys of `commandInfo`.
- `commands` and `commandInfo` have the same keys.
- Each info record carries its own key as its name.

The constructor establishes it, and every registration method keeps it.

A command implementation is a `Callable`. It has the function's `__name__` and a total
function from keyword arguments to `Ok(text of the result)` or `Err(text of the raised
exception)`. The wrappers that `ft.wraps` builds keep `__name__` and pass every call
through, so each decorator returns the `Callable` it was given.

## Model

| member | source | states |
|---|---|---|
| `Server.ContextServer.constructor` | context_server/context_server.py:9-17 | a new server has no commands, no command info, no pending descriptors and an empty enumeration order, and satisfies the registry invariant |
| `Server.ContextServer.Argument` | context_server/context_server.py:41-56 | appends exactly one descriptor (name, type label, help) to the end of the pending list for the function's name, starting from an empty list when there is none; every other pending entry, `commands`, `commandInfo` and the order are unchanged; the returned wrapper is the given function |
| `Server.ContextServer.RegisterCommand` | context_server/context_server.py:19-28 | binds the name to the function in `commands`; records the name, the description and the pending list for the function's name (empty if none) in `commandInfo`; removes only that pending entry; a new name goes to the end of the order, while an existing name is overwritten in place, so the count does not grow; the invariant is kept |
| `Server.ContextServer.SlashCommand` | context_server/context_server.py:30-39 | the decorator registers the function exactly as `RegisterCommand` does and returns it |
| `Server.PendingArguments` | context_server/context_server.py:24-26 | the descriptors pending for a function name, or the empty list when that name has no pending entry |
| `Server.Route` | context_server/context_server.py:13-17 | the routing lookup: `initialize`, `prompts/list` and `prompts/get` each select their own handler; any other method name, or no method, selects none |
| `Server.ContextServer.HandleInitialize` | context_server/context_server.py:58-63 | `initialize` answers protocol version 1, capabilities `{"prompts": {}}`, and server name "Python Context Server" with version "0.1.0", whatever the params |
| `Server.ContextServer.Handle` | context_server/context_server.py:105 | calling the selected handler: `initialize` and `prompts/list` never fail; `prompts/get` gives exactly `HandlePromptsGet`'s outcome; each handler's result is its own kind of payload |
| `Server.PromptArguments` | context_server/context_server.py:69-76 | each argument descriptor becomes exactly one prompt argument at the same position, with the same name and description, marked required; the type label is dropped |
| `Server.PromptsOf` | context_server/context_server.py:66-79 | one prompt per name of the enumeration order, at the same position, whose arguments are the projection of that command's descriptors |
| `Server.ContextServer.HandlePromptsList` | context_server/context_server.py:65-80 | `prompts/list` returns one entry per registered command, with no name repeated, in first-registration order, each carrying the projection of its recorded arguments |
| `Server.ContextServer.HandlePromptsGet` | context_server/context_server.py:82-90 | an absent or unregistered name fails with `Command '<name>' not found`; otherwise the command runs with the given arguments, its text becomes the `prompt`, and its failure text is passed through unchanged |
| `Server.ContextServer.HandleRequest` | context_server/context_server.py:92-116 | every response has tag "2.0" and the request's id; the error code is -32601 exactly when the method is not one of the three routed names, with message `Method '<m>' not found` and no result; `initialize` gives the constant payload whatever the params; `prompts/list` and `prompts/get` wrap their handler's result, and a handler failure becomes code -32000 with the failure's text; an unknown command name under `prompts/get` is that -32000 error; no other error code occurs |
| `Rot13.Lower` | examples/rot13.py:12 | `lower()` on ASCII text keeps the length and lower-cases each character at its own position |
| `Rot13.Shift13` | examples/rot13.py:12 | `chr((ord(c) - 97 + 13) % 26 + 97)` is always a lower-case ASCII letter |
| `Rot13.Encode` | examples/rot13.py:11-13 | the generator keeps the length, shifts each letter and leaves every other character at its own position |
| `Rot13.Rot13` | examples/rot13.py:10-13 | for ASCII input, the output has the input's length; non-letters stay in place; each letter c becomes (lower(c) - 'a' + 13) mod 26 + 'a'; the output has no upper-case letter and is ASCII |
| `Rot13.Rot13Twice` | examples/rot13.py:11-13 | applying rot13 twice to ASCII input gives the lower-cased input |
| `Scenarios.SingleCommandRegistration` | context_server/context_server_test.py:10-32 | after one argument and one registration, the command is present in both maps with the given name, description and single descriptor (type label "str") |
| `Scenarios.MultipleArguments` | context_server/context_server_test.py:34-48 | decorators written as arg2 above arg1 register `multi_arg` with exactly two arguments, named arg1 then arg2 (type labels "str" and "int") |
| `Scenarios.CommandExecution` | context_server/context_server_test.py:50-67 | `prompts/get` for `echo` with message "Hello, World!" answers `{jsonrpc: "2.0", id: 1, result: {prompt: "Echo: Hello, World!"}}` |
| `Scenarios.RegisterFirstCommand` | context_server/context_server_test.py:70-73 | registering cmd1 with one argument leaves exactly that command and no pending entry |
| `Scenarios.RegisterSecondCommand` | context_server/context_server_test.py:75-79 | registering cmd2 after cmd1 keeps cmd1 and appends cmd2 with its two arguments in declaration order |
| `Scenarios.ListTwoCommands` | context_server/context_server_test.py:81-112 | `prompts/list` over those two commands lists both, in order, with their arguments marked required |
| `Scenarios.PromptsListing` | context_server/context_server_test.py:69-112 | the listing test from start to end: two registrations, then `prompts/list` returns the two expected entries |
| `Scenarios.Rot13Registration` | examples/rot13.py:8-13 | the rot13 example, registered with its decorators and invoked through `prompts/get` on "Hi!", answers the prompt "uv!" |
| `Scenarios.UnknownCommand` | context_server/context_server.py:86-87 | `prompts/get` for a name nobody registered answers code -32000 with `Command 'rot26' not found` |
| `Scenarios.UnknownMethod` | context_server/context_server.py:96-102 | a method outside the routing table answers code -32601 with `Method 'tools/list' not found` and echoes the id |

## Left out

- The stdin loop `run` (context_server/context_server.py:118-140) is left out. It covers reading through an executor, `print` with flush, and asyncio. At end of input `readline` returns `""` rather than raising `EOFError`, so no claim is made about clean termination.
- JSON decoding and encoding are left out, and so is the -32700 parse-error response. Requests are modelled as already-decoded `Request` values.
- The method and the command name are modelled as optional strings only. In Python the other cases behave as follows:
  - A hashable non-string `method` such as `5` or `true` finds no handler. It gets the ordinary -32601 answer `Method '5' not found` (context_server/context_server.py:96-102).
  - An unhashable `method` such as a list or an object raises `TypeError` in `self.handlers.get` at line 96. That line is outside the `try`, so the exception leaves `handle_request`.
  - A hashable non-string `name` such as `5` is not in `commands`. It gets the -32000 answer `Command '5' not found` (lines 86-87 and 111-116).
  - An unhashable `name` raises `TypeError` inside the `try`. It becomes a -32000 answer with Python's message for unhashable types.
- A request that is not a JSON object is not modelled. It fails at `request.get` (line 93), outside the `try`, so the exception leaves `handle_request` and no response is built.
- `params` that is not an object is not modelled. `initialize` and `prompts/list` never read `params`, so Python answers them normally. Under `prompts/get`, `params.get` raises inside the `try`, and the answer is a -32000 error.
- `HandleRequest` and `HandlePromptsGet`: every failure of a command becomes a -32000 answer. In Python, `except Exception` (line 111) does not catch `BaseException`s such as `SystemExit`, `KeyboardInterrupt` or `asyncio.CancelledError`. A command that raises one of these makes `handle_request` raise instead of answering. A command's outcome is modelled as a result text or an exception text only.
- `params.arguments` that is not an object (such as `null`) is not modelled. It would fail at `**arguments`.
- `async`/`await` and the bodies of user commands are abstracted. A command is a total function from keyword arguments to the text of its result or of its exception. `str(result)` and `type.__name__` are given strings.
- Argument values and ids are JSON values whose numbers are integers. Floating-point numbers are not modelled.
- `Rot13.Rot13`: only ASCII input is modelled. For other input, Python's `isalpha` and `lower` differ, and some `lower()` calls change the length.
- `Scenarios.Rot13Registration`: the example command's adapter reports non-ASCII text with a fixed failure text. It does not model the unexpected-keyword `TypeError` for extra arguments.
- The test command `echo` is modelled for string messages only. Other values give a fixed failure text instead of their `str()` form.

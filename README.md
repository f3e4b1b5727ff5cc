# Command dispatch engine of the `boat` chat bot, modelled in Dafny

The bot reacts to friend and party chat messages. A message whose first
space-separated token is a registered invocation key (`prefix + command name`)
is checked against the owner policy and, when permitted, handed to the command's
handler. This project models that core:

- `Commands` (boat/commands/command.py): the `Command` wrapper. `ParseParams` is
  the in-place rewrite of a handler's declared parameter list into the calling
  convention `[Context, Positional…, (separator), NonPositional, raw names…]` and
  its `length`; it is proved equal to the declarative `Compile`, and the lemmas
  state the convention's rules. `Command.Call` is `__call__`: it strips
  `prefix + name + " "` from the context's content and calls the handler once.
- `Contexts` (boat/commands/context.py): `MessageContext`, which classifies the
  channel as friend or party at construction and routes `reply` to the author or
  to the party.
- `Dispatch`: what both `MainClient` variants share — `FirstToken`
  (`content.split(" ")[0]`), the gate sequence `Route` (prefix gate, registry
  lookup, permission gate, run) and the owner set built from the configuration.
- `Router` (boat/main_script.py) and `LegacyRouter` (main_script.py): the two
  `MainClient` variants. They differ in three places: the prefix gate (the
  configured prefix, or the literal `"!"`), the registration check (`isinstance`
  of `Command`, or "is a coroutine function"), and what the handler receives (a
  new `MessageContext` with the invoker stripped, or the raw message). In
  boat/main_script.py `process_command` raises before it calls anything (see
  "## Findings"). `Router` models that as written (`ProcessCommand`,
  `TestCommands`, `DispatchOutcome`) and, under `Intended…` names, the pipeline
  with that one log line corrected. The lemmas about what a handler sees are
  stated for the corrected pipeline.

Handler bodies, sends and awaits are not executed: a handler call is recorded as
an `Invoked` event in a `CallLog`, and a send as a `Send` in an `Outbox`. The
handler receives a `WrappedContext` snapshot (author, content at the call,
channel kind) or the `RawMessage` itself.

A handler's declared parameters are a `ParamList`: the rendered signature without
parentheses and spaces, split on commas. `"*"` is the bare keyword-only
separator and `[""]` is the rendering of an empty signature. Splitting never
yields an empty list, so `ParamList` is non-empty by type.

The model follows the code, including where it departs from the intended design:

- The separator `"*"` stays in the compiled list as a raw entry. So `(ctx, a, *, b)`
  compiles to `[Context, Positional, Raw("*"), NonPositional]` with length 3, not
  to a three-entry list.
- Entries after the first non-positional entry keep their raw names. Every `"*"`
  in an unbroken run of separators lowers `length` by one.
- Registering an existing key silently overwrites it. There is no `DuplicateCommand` error.
- The first token is cut at the first single space, not at a run of whitespace,
  so content that starts with a space has an empty first token.
- `__call__` drops `len(prefix + handler.__name__ + " ")` characters whatever
  they are. It uses the handler's own name, not the registry key it was found
  under. The two agree for commands registered by the `command` decorator, and
  the end-to-end lemmas assume exactly that. Content that is only the key
  becomes the empty string.
- Channel kinds are `Friend` and `Party`: a message is `Friend` exactly when it is
  a `FriendMessage`.

## Model

| member | source | states |
|---|---|---|
| `Contexts.ChannelKind` | boat/commands/context.py:16-19 | the kind is Friend iff the wrapped message is a FriendMessage, otherwise Party |
| `Contexts.MessageContext.constructor` | boat/commands/context.py:12-19 | client, author and content are passed through unchanged; the kind is derived from the message class |
| `Contexts.MessageContext.ReplySend` | boat/commands/context.py:31-33 | the one send of `reply` carries the text; it goes to the author iff the context is Friend, otherwise to the party |
| `Contexts.MessageContext.Reply` | boat/commands/context.py:21-33 | `reply` appends exactly one send, the one `ReplySend` describes, and nothing else |
| `Commands.NextWhere` | boat/commands/command.py:31-35 | the scan position: the first index from `from` on that is (or is not) the separator, with no earlier such index |
| `Commands.Compile` | boat/commands/command.py:24-42 | the compiled list is as long as the declared one, and its length lies between 1 and the declared count; its rules are the `Compile…` lemmas below |
| `Commands.ParseParams` | boat/commands/command.py:24-42 | the in-place loop over the declared list, with its mode, length decrements and break, yields exactly `Compile(declared)` |
| `Commands.CompileRejectsOnlyEmpty` | boat/commands/command.py:25-29 | compilation fails iff the declared list is `[""]`, and the error is InvalidParameters |
| `Commands.CompileKeepsShape` | boat/commands/command.py:30-42 | entries are replaced in place: the compiled list is as long as the declared list and its first entry is Context |
| `Commands.CompilePositionalBeforeStar` | boat/commands/command.py:31-37 | every entry from index 1 up to before the first separator is Positional |
| `Commands.CompileAtFirstStar` | boat/commands/command.py:32-41 | the first separator stays raw; a name right after it becomes the only NonPositional entry, all later entries keep their raw names, and length is the declared count minus one |
| `Commands.CompileWithoutStar` | boat/commands/command.py:27-37 | with no separator, length equals the declared count and every entry after the first is Positional |
| `Commands.CompileConvention` | boat/commands/command.py:30-41 | only the first entry is Context, at most one entry is NonPositional, no Positional entry follows it, and it immediately follows a separator |
| `Commands.CompileExamples` | boat/commands/command.py:24-42 | the shapes (ctx), (ctx, a, b), (ctx, a, *, b) and (ctx, *, b, c) compile to the lists and lengths given |
| `Commands.Strip` | boat/commands/command.py:45-47 | when the invoker is a prefix of the content, the result is what follows it; a content shorter than the invoker becomes empty; the result is always a suffix of the content |
| `Commands.StripInvocation` | boat/commands/command.py:45-47 | stripping the invoker from `invoker + rest` leaves exactly `rest` |
| `Commands.Command.constructor` | boat/commands/command.py:17-22 | the command keeps its handler, prefix and compiled signature; `uses_non_positional` is false |
| `Commands.NewCommand` | boat/commands/command.py:17-29 | constructing a Command raises InvalidParameters iff the signature is empty; otherwise its params and length are `Compile` of the declared list |
| `Commands.Command.Invoker` | boat/commands/command.py:45-46 | the invoker is the prefix, then the handler's own name, then one space |
| `Commands.Command.Call` | boat/commands/command.py:44-48 | the context's content becomes the stripped content, and the handler is called exactly once, seeing that context |
| `Dispatch.FirstToken` | boat/main_script.py:115 | the token is a prefix of the content, holds no space, and ends at a space or at the end of the content |
| `Dispatch.FirstTokenUnique` | boat/main_script.py:115 | those three properties determine the first token |
| `Dispatch.FirstTokenOfInvocation` | boat/main_script.py:115 | the first token of `key + " " + rest`, and of `key`, is `key` when the key has no space |
| `Dispatch.Route` | boat/main_script.py:113-119 | the gates in source order: a message stops at the prefix gate iff its token lacks the gate; `process_command` is reached (Denied or Run) iff the token passes the gate and is a key; Denied only for an unpermitted sender; Run only for a permitted one, with the token's entry; so it runs iff all three gates pass |
| `Dispatch.GateSubsumedByLookup` | boat/main_script.py:116-118 | when every key starts with the gate, the prefix gate never changes whether or what runs |
| `Dispatch.KeyWithSpaceUnreachable` | boat/main_script.py:115-118 | a key containing a space is never the first token, so it can never be invoked |
| `Dispatch.OwnerSet` | boat/main_script.py:68-71 | the owner set is empty when owner mode is off, and is exactly the configured owners when it is on |
| `Router.MainClient.constructor` | boat/main_script.py:46-71 | the registry starts empty; prefix, owner mode and owner set come from the configuration |
| `Router.MainClient.GetPermission` | boat/main_script.py:96-101 | permitted iff owner mode is off, or the display name or the id is an owner |
| `Router.MainClient.RegisterCommand` | boat/main_script.py:89-94 | a non-Command raises TypeError and leaves the registry unchanged; a Command is stored under `prefix + name`, overwriting; every key keeps the prefix |
| `Router.RegisterDecidesNextDispatch` | boat/main_script.py:94-119 | once a command is stored under `prefix + name`, a permitted message whose first token is that key decides to run it, whatever was stored there before; every other message is decided as before |
| `Router.MainClient.CommandDecorator` | boat/main_script.py:121-131 | a non-coroutine raises TypeError, an empty signature raises InvalidParameters, both leave the registry unchanged; otherwise a fresh Command for the function is stored under its own name |
| `Router.MainClient.Valid` | boat/main_script.py:94 | every key is `prefix + name`, so a first token that is a key always passes the prefix gate |
| `Router.MainClient.Decide` | boat/main_script.py:113-118 | a message is decided to run iff its first token carries the prefix, is a key and the sender is permitted; what runs is the entry of that token |
| `Router.MainClient.DispatchOutcome` | boat/main_script.py:103-119 | as written, a dispatch raises iff its first token carries the prefix and is a key, whoever sent it, and what it raises is AttributeError; otherwise it ends normally |
| `Router.MainClient.ProcessCommand` | boat/main_script.py:103-104 | as written, `process_command` always raises AttributeError: formatting `command.__name__` fails on a `Command`, before the permission test |
| `Router.MainClient.TestCommands` | boat/main_script.py:113-119 | as written, a dispatch ends as `DispatchOutcome` says and records no handler call |
| `Router.MainClient.IntendedCalls` | boat/main_script.py:103-119 | with the log line corrected, one dispatch makes at most one handler call, and makes one iff the gates let the message run; the call goes to the decided command's handler, on a context with the sender, the channel kind and the content stripped by that command's invoker |
| `Router.MainClient.IntendedProcessCommand` | boat/main_script.py:105-111 | with the log line corrected: a denied sender causes no call; a permitted one causes exactly one call, on a new context whose content is stripped |
| `Router.MainClient.IntendedTestCommands` | boat/main_script.py:113-119 | with the log line corrected, the calls made are exactly the ones `IntendedCalls` describes |
| `Router.OpenModeAdmitsEveryone` | boat/main_script.py:96-101 | with owner mode off every sender is permitted and the owner set is empty |
| `Router.NoCallUnlessAllGatesPass` | boat/main_script.py:105-119 | even once corrected, no handler call for a token without the prefix, a token that is not a key, or a denied sender |
| `Router.RaisesWhereverACallWasIntended` | boat/main_script.py:103-119 | as written, a dispatch raises exactly when its first token is a key; in particular every message the corrected pipeline would hand to a handler raises AttributeError instead |
| `Router.InvocationRaises` | boat/main_script.py:103-119 | as written, `key + " " + rest` or `key` for any registered key raises AttributeError, whoever sends it |
| `Router.InvocationSeesRest` | boat/main_script.py:103-119 | once corrected, dispatching `prefix + name + " " + rest` from a permitted sender calls the decorator-registered handler once, and it sees `rest` |
| `Router.BareInvocationSeesEmpty` | boat/commands/command.py:45-47 | once corrected, dispatching just `prefix + name` calls the handler once with empty content |
| `Router.PlaylistBot` | boat/main_script.py:162-167 | the bot has prefix `"!"`, the owner settings given as arguments (read from settings.toml in the source), and `playlist` stored under `"!playlist"` by the decorator |
| `Router.PlaylistRaises` | boat/main_script.py:103-119 | as written, `"!playlist Duos"` to that bot raises AttributeError and no handler is called, for every owner setting and every sender |
| `Router.PlaylistDispatch` | boat/main_script.py:162-167 | with the log line corrected, `"!playlist Duos"` from any sender the owner settings permit calls `playlist` exactly once and it sees `"Duos"` |
| `Router.OwnerModeExample` | boat/main_script.py:96-119 | with owners {"alice"}, once corrected the command from "bob" causes no call and the same command from "alice" causes one; as written, both raise AttributeError |
| `LegacyRouter.MainClient.constructor` | main_script.py:40-63 | the registry starts empty; the owner set is empty unless owner mode is on |
| `LegacyRouter.MainClient.GetPermission` | main_script.py:87-92 | permitted iff owner mode is off, or the display name or the id is an owner |
| `LegacyRouter.MainClient.RegisterCommand` | main_script.py:80-85 | a non-coroutine raises TypeError and leaves the registry unchanged; a coroutine is stored under `prefix + name`, overwriting, other keys unchanged |
| `LegacyRouter.MainClient.CommandDecorator` | main_script.py:110-117 | registers the function under its own name, with the same TypeError rule |
| `LegacyRouter.MainClient.Valid` | main_script.py:80-85 | every key is `prefix + name` and holds a coroutine function, so a first token that is a key passes the prefix and names a coroutine |
| `LegacyRouter.MainClient.Decide` | main_script.py:102-107 | a message is decided to run iff its first token starts with `"!"`, is a key and the sender is permitted; what runs is the entry of that token |
| `LegacyRouter.MainClient.Dispatched` | main_script.py:102-108 | at most one handler call, one iff the gates let the message run; it goes to the decided coroutine and its argument is the raw message |
| `LegacyRouter.MainClient.ProcessCommand` | main_script.py:94-100 | a denied sender causes no call; a permitted one causes one call with the raw, unstripped message |
| `LegacyRouter.MainClient.TestCommands` | main_script.py:102-108 | the calls made are exactly the ones `Dispatched` describes, and the registry is not changed |
| `LegacyRouter.NoCallUnlessRegisteredAndPermitted` | main_script.py:96-108 | a token that is not a key, or a denied sender, causes no handler call |
| `LegacyRouter.OtherPrefixNeverDispatches` | main_script.py:104-106 | the gate is the literal `"!"`: with a configured prefix not starting with `'!'` no message ever reaches a handler |
| `LegacyRouter.HandlerGetsRawMessage` | main_script.py:94-108 | with a `"!"` prefix, `key + " " + rest` from a permitted sender calls the registered coroutine once with the message itself, content unstripped |

## Left out

- Reading device_auth.toml and settings.toml, and dumping TOML, is file I/O. Prefix, owner mode and the configured owners are constructor arguments.
- Owner mode is a `bool`, so boat's truthiness test and main_script.py's `== True` test agree. For non-boolean settings values they could differ.
- Logging and console output are terminal output only and are not modelled: `time`, `date_print`, `colored_print`, `unload_colorama`, and what `log.debug` writes. This includes the debug line naming a denied sender. Building a debug message is modelled where it can fail: at boat/main_script.py:104 it raises AttributeError (see "## Findings").
- Transport and lifecycle code is left out: `start`, `on_ready`, `on_invite`, `get_code`, `bind_to_http_client` and `client.run()`. So is which events get subscribed. boat/main_script.py subscribes `test_commands` to friend and party messages; main_script.py subscribes it to friend messages only.
- The bodies of the registered commands are not modelled: `playlist` and both `set_ready` commands are network calls, `test` writes to the console, and the `skin` of main_script.py reads `bot.http.fin`, an attribute that file never sets up. Only their registration, and the call each dispatch makes to them, are modelled. The `set_ready(message, lol)` of main_script.py:152-153 declares a second parameter that no call supplies, so a dispatch to it raises TypeError at main_script.py:100 and its body never runs (see the lines on the one-argument call below).
- boat/commands/http_client.py is not part of this model.
- async scheduling is not modelled. Each dispatch is one sequential run, and awaiting a handler or a send is one recorded event. Failures raised inside a handler body or by a send are not modelled.
- Commands.Command.Call: the handler is called with exactly one argument, the context (boat/commands/command.py:48); the compiled `params` and `length` are never used to bind further arguments. A handler that requires a second argument raises TypeError at that call, and the model records the call anyway.
- Router.MainClient.IntendedCalls: the recorded call is the one-argument call of boat/commands/command.py:48; a handler that requires more arguments raises TypeError there, which is not modelled.
- LegacyRouter.MainClient.ProcessCommand: the handler is called as `command(message)` (main_script.py:100) with one argument; a handler that requires more, such as `set_ready(message, lol)`, raises TypeError there, and the model records the call anyway.
- LegacyRouter.MainClient.Dispatched: the call it describes is that one-argument call, so for a handler that requires more arguments it describes a call that raises TypeError instead of running.
- The handler receives a `MessageContext` object. It is recorded as a snapshot of author, content at the call, and channel kind, so object identity is not modelled.
- Contexts.MessageContext.Reply: the Party branch is modelled as a send to the message's party. boat/commands/context.py never sets `self.party` (its constructor at boat/commands/context.py:15 passes only client, author and content to the library base class), so the model assumes the base class provides it; the base class is not part of this model.
- Rendering a signature with `inspect.signature` is not modelled. The model takes the comma-split list directly, so annotations, defaults and commas inside defaults are not covered.
- The `inner` wrapper that the decorators return is Python reflection plumbing and is not modelled.

## Findings

| source | as written | input that shows it | evidently intended | confidence | as-written member | corrected member |
|---|---|---|---|---|---|---|
| boat/main_script.py:104 | the debug message formats `command.__name__`; the registry holds `Command` instances, and `Command` defines neither `__name__` nor `__getattr__`, so `process_command` raises AttributeError before the permission test and no handler ever runs | `"!playlist Duos"` to the bot at boat/main_script.py:162-167, from any sender | name the wrapped function (`command.function.__name__`), then test permission and call the command | not executed | `Router.PlaylistRaises`, `Router.RaisesWhereverACallWasIntended` | `Router.MainClient.IntendedTestCommands`, `Router.PlaylistDispatch` |

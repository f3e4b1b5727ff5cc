/**
 * boat/main_script.py: the `MainClient` that owns the command registry (keyed by
 * `prefix + name`), the owner policy, and the per-message pipeline
 * `test_commands` -> `process_command` -> `Command.__call__`. As written,
 * `process_command` raises before it calls anything; the `Intended` members are
 * the pipeline with that one log line corrected.
 */
module Router {
  import opened Errors
  import opened Contexts
  import opened Handlers
  import opened Commands
  import opened Dispatch

  /** A value handed to `register_command`: a `Command` instance or anything else. */
  datatype Candidate = CommandObject(cmd: Command) | OtherObject

  class MainClient {
    const prefix: string
    const ownerMode: bool
    const owners: set<string>
    var commands: map<string, Command>

    /** Every registry key starts with the command prefix, so a first token that is a key passes the prefix gate. */
    ghost predicate Valid()
      reads this
      ensures Valid() ==> forall content :: FirstToken(content) in commands ==> prefix <= FirstToken(content)
    {
      forall key :: key in commands ==> prefix <= key
    }

    /** The configuration (otherwise read from settings.toml) is taken as arguments. */
    constructor (commandPrefix: string, ownerMode: bool, configuredOwners: seq<string>)
      ensures prefix == commandPrefix && this.ownerMode == ownerMode
      ensures owners == OwnerSet(ownerMode, configuredOwners)
      ensures commands == map[] && Valid()
    {
      commands := map[];
      prefix := commandPrefix;
      this.ownerMode := ownerMode;
      owners := OwnerSet(ownerMode, configuredOwners);
    }

    /** `get_permission`: in owner mode the display name or the id must be an owner. */
    function GetPermission(author: Author): (allowed: bool)
      ensures allowed <==> !ownerMode || author.displayName in owners || author.id in owners
    {
      if ownerMode then
        if author.displayName !in owners then
          if author.id !in owners then false else true
        else true
      else true
    }

    /** `register_command`: only a `Command` is accepted; it is stored under `prefix + name`. */
    method RegisterCommand(commandName: string, value: Candidate) returns (r: Outcome)
      requires Valid()
      modifies this
      ensures Valid()
      ensures r == if value.CommandObject? then Done else Raised(TypeError)
      ensures value.OtherObject? ==> commands == old(commands)
      ensures value.CommandObject? ==> commands == old(commands)[prefix + commandName := value.cmd]
    {
      if !value.CommandObject? {
        return Raised(TypeError);
      }
      commands := commands[prefix + commandName := value.cmd];
      return Done;
    }

    /** Where the gates of `test_commands` leave a message. */
    function Decide(message: Message): (d: Decision<Command>)
      reads this
      ensures d.Run? <==> prefix <= FirstToken(message.content) && FirstToken(message.content) in commands
                          && GetPermission(message.author)
      ensures d.Run? ==> d.target == commands[FirstToken(message.content)]
    {
      Route(prefix, commands, GetPermission(message.author), message.content)
    }

    /**
     * How `test_commands` ends as written: normally when the prefix gate or the
     * lookup stops the message, and with the AttributeError of `process_command`
     * whenever the lookup succeeds, whoever sent it.
     */
    function DispatchOutcome(message: Message): (r: Outcome)
      reads this
      ensures r.Raised? <==> prefix <= FirstToken(message.content) && FirstToken(message.content) in commands
      ensures r.Raised? ==> r.error == AttributeError
    {
      match Decide(message)
      case NotPrefixed => Done
      case NotRegistered => Done
      case _ => Raised(AttributeError)
    }

    /**
     * `process_command` as written. Its first statement formats
     * `command.__name__` for the debug log; a `Command` defines neither
     * `__name__` nor `__getattr__`, so that raises AttributeError before the
     * permission test, and the handler is never awaited.
     */
    method ProcessCommand(command: Command, message: Message) returns (r: Outcome)
      ensures r == Raised(AttributeError)
    {
      return Raised(AttributeError);
    }

    /**
     * `test_commands` as written: the prefix gate, the registry lookup, then
     * `process_command`, which raises. The log has no `modifies` here: no handler is called.
     */
    method TestCommands(message: Message, log: CallLog) returns (r: Outcome)
      ensures r == DispatchOutcome(message)
      ensures log.calls == old(log.calls)
    {
      var command := FirstToken(message.content);
      if !(prefix <= command) {
        return Done;
      }
      if command in commands {
        r := ProcessCommand(commands[command], message);
        return;
      }
      return Done;
    }

    /** The handler calls one dispatch makes once `process_command` names `command.function.__name__`. */
    function IntendedCalls(message: Message): (calls: seq<Call>)
      reads this
      ensures |calls| <= 1
      ensures calls != [] <==> Decide(message).Run?
      ensures calls != [] ==> calls[0].handler == Decide(message).target.fn
      ensures calls != [] ==> calls[0].arg.WrappedContext?
                              && calls[0].arg.author == message.author
                              && calls[0].arg.content == Strip(message.content, Decide(message).target.Invoker())
                              && calls[0].arg.kind == ChannelKind(message)
    {
      match Decide(message)
      case Run(cmd) =>
        [Invoked(cmd.fn, WrappedContext(message.author, Strip(message.content, cmd.Invoker()), ChannelKind(message)))]
      case _ => []
    }

    /**
     * `process_command` with its log line corrected: a denied sender is dropped
     * silently; otherwise the command runs once on a new context.
     */
    method IntendedProcessCommand(command: Command, message: Message, log: CallLog)
      modifies log
      ensures GetPermission(message.author) ==>
        log.calls == old(log.calls)
                     + [Invoked(command.fn,
                                WrappedContext(message.author, Strip(message.content, command.Invoker()), ChannelKind(message)))]
      ensures !GetPermission(message.author) ==> log.calls == old(log.calls)
    {
      var permission := GetPermission(message.author);
      if !permission {
        return;
      }
      var ctx := new MessageContext(message);
      command.Call(ctx, log);
    }

    /** `test_commands` over the corrected `process_command`. */
    method IntendedTestCommands(message: Message, log: CallLog)
      modifies log
      ensures log.calls == old(log.calls) + IntendedCalls(message)
    {
      var command := FirstToken(message.content);
      if !(prefix <= command) {
        return;
      }
      if command in commands {
        IntendedProcessCommand(commands[command], message, log);
      }
    }

    /**
     * The `command` decorator: a non-coroutine raises TypeError; an empty signature
     * raises InvalidParameters; otherwise a new `Command` is registered under the
     * function's own name.
     */
    method CommandDecorator(coro: Handler) returns (r: Outcome)
      requires Valid()
      modifies this
      ensures Valid()
      ensures !coro.isCoroutine ==> r == Raised(TypeError) && commands == old(commands)
      ensures coro.isCoroutine && coro.declared == [""] ==> r == Raised(InvalidParameters) && commands == old(commands)
      ensures coro.isCoroutine && coro.declared != [""] ==>
        && r == Done
        && prefix + coro.name in commands
        && commands == old(commands)[prefix + coro.name := commands[prefix + coro.name]]
        && fresh(commands[prefix + coro.name])
        && commands[prefix + coro.name].fn == coro
        && commands[prefix + coro.name].prefix == prefix
        && Compile(coro.declared)
           == Ok(Signature(commands[prefix + coro.name].params, commands[prefix + coro.name].length))
    {
      if !coro.isCoroutine {
        return Raised(TypeError);
      }
      var created := NewCommand(coro, prefix);
      if created.Err? {
        return Raised(created.error);
      }
      r := RegisterCommand(coro.name, CommandObject(created.value));
    }
  }

  // ---------------------------------------------------------------------------
  // Properties of the pipeline.

  /**
   * What registration changes about the next dispatch: after `register_command`
   * stores `cmd` under `prefix + name`, a permitted message whose first token is
   * that key runs `cmd`, whatever was stored there before, and every other
   * message ends where it did.
   */
  lemma RegisterDecidesNextDispatch(client: MainClient, before: map<string, Command>, name: string,
                                    cmd: Command, message: Message)
    requires client.commands == before[client.prefix + name := cmd]
    ensures FirstToken(message.content) == client.prefix + name && client.GetPermission(message.author)
        ==> client.Decide(message) == Run(cmd)
    ensures FirstToken(message.content) != client.prefix + name
        ==> client.Decide(message) == Route(client.prefix, before, client.GetPermission(message.author), message.content)
  {
  }

  /** Without owner mode everybody is permitted, and the owner set is empty. */
  lemma OpenModeAdmitsEveryone(client: MainClient, author: Author, configured: seq<string>)
    requires !client.ownerMode
    ensures client.GetPermission(author)
    ensures OwnerSet(client.ownerMode, configured) == {}
  {
  }

  /** A token without the prefix, a token that is not a key, or a denied sender: no handler call, even once corrected. */
  lemma NoCallUnlessAllGatesPass(client: MainClient, message: Message)
    requires !(client.prefix <= FirstToken(message.content))
          || FirstToken(message.content) !in client.commands
          || !client.GetPermission(message.author)
    ensures client.IntendedCalls(message) == []
  {
  }

  /**
   * As written, `process_command` is reached exactly when the first token is a
   * key, and it always raises; so every message the corrected pipeline hands to a
   * handler ends in AttributeError instead, and so does one from a denied sender.
   */
  lemma RaisesWhereverACallWasIntended(client: MainClient, message: Message)
    requires client.Valid()
    ensures client.DispatchOutcome(message).Raised? <==> FirstToken(message.content) in client.commands
    ensures client.IntendedCalls(message) != [] ==> client.DispatchOutcome(message) == Raised(AttributeError)
  {
  }

  /** As written, invoking any registered key, with or without trailing text and from anyone, raises AttributeError. */
  lemma InvocationRaises(client: MainClient, key: string, rest: string, message: Message)
    requires key in client.commands && client.prefix <= key && ' ' !in key
    requires message.content == key + " " + rest || message.content == key
    ensures client.DispatchOutcome(message) == Raised(AttributeError)
  {
    FirstTokenOfInvocation(key, rest);
  }

  /**
   * For a command `name` registered by the decorator (its handler's name is `name`
   * and it carries the client's prefix), the corrected pipeline dispatching
   * `prefix + name + " " + rest` from a permitted sender calls that handler
   * exactly once, and it sees `rest`.
   */
  lemma InvocationSeesRest(client: MainClient, name: string, rest: string, message: Message)
    requires client.prefix + name in client.commands
    requires client.commands[client.prefix + name].fn.name == name
    requires client.commands[client.prefix + name].prefix == client.prefix
    requires ' ' !in client.prefix + name
    requires message.content == client.prefix + name + " " + rest
    requires client.GetPermission(message.author)
    ensures client.IntendedCalls(message)
         == [Invoked(client.commands[client.prefix + name].fn, WrappedContext(message.author, rest, ChannelKind(message)))]
  {
    var key := client.prefix + name;
    FirstTokenOfInvocation(key, rest);
    assert message.content == (key + " ") + rest;
    StripInvocation(key + " ", rest);
  }

  /** A bare invocation, the key with no trailing text, reaches the handler with empty content. */
  lemma BareInvocationSeesEmpty(client: MainClient, name: string, message: Message)
    requires client.prefix + name in client.commands
    requires client.commands[client.prefix + name].fn.name == name
    requires client.commands[client.prefix + name].prefix == client.prefix
    requires ' ' !in client.prefix + name
    requires message.content == client.prefix + name
    requires client.GetPermission(message.author)
    ensures client.IntendedCalls(message)
         == [Invoked(client.commands[client.prefix + name].fn, WrappedContext(message.author, "", ChannelKind(message)))]
  {
    FirstTokenOfInvocation(client.prefix + name, "");
  }

  /**
   * The bot at the end of boat/main_script.py: prefix `"!"`, the owner settings
   * as configured, and `playlist` registered by the decorator.
   */
  method PlaylistBot(ownerMode: bool, configuredOwners: seq<string>) returns (bot: MainClient, playlist: Handler)
    ensures fresh(bot) && bot.Valid() && bot.prefix == "!"
    ensures bot.ownerMode == ownerMode && bot.owners == OwnerSet(ownerMode, configuredOwners)
    ensures playlist == Handler("playlist", ["message"], true)
    ensures "!playlist" in bot.commands && bot.commands["!playlist"].fn == playlist
    ensures bot.commands["!playlist"].prefix == "!"
  {
    bot := new MainClient("!", ownerMode, configuredOwners);
    playlist := Handler("playlist", ["message"], true);
    assert playlist.declared != [""];
    var registered := bot.CommandDecorator(playlist);
    assert bot.prefix + "playlist" == "!playlist";
  }

  /** As written, `"!playlist Duos"` to that bot raises AttributeError and calls no handler, whatever the owner settings. */
  method PlaylistRaises(ownerMode: bool, configuredOwners: seq<string>, author: Author, origin: Origin)
    returns (r: Outcome, calls: seq<Call>)
    ensures r == Raised(AttributeError) && calls == []
  {
    var bot, playlist := PlaylistBot(ownerMode, configuredOwners);
    var log := new CallLog();
    var message := Message(Client("bot"), author, "!playlist Duos", origin);
    assert message.content == "!playlist" + " " + "Duos";
    InvocationRaises(bot, "!playlist", "Duos", message);
    r := bot.TestCommands(message, log);
    calls := log.calls;
  }

  /**
   * With `process_command` corrected, `"!playlist Duos"` from a sender the owner
   * settings permit calls `playlist` once and it sees `"Duos"`.
   */
  method PlaylistDispatch(ownerMode: bool, configuredOwners: seq<string>, author: Author, origin: Origin)
    returns (calls: seq<Call>)
    requires !ownerMode || author.displayName in configuredOwners || author.id in configuredOwners
    ensures calls == [Invoked(Handler("playlist", ["message"], true),
                              WrappedContext(author, "Duos", if origin.FriendMessage? then Friend else Party))]
  {
    var bot, playlist := PlaylistBot(ownerMode, configuredOwners);
    assert bot.GetPermission(author);
    assert bot.prefix + "playlist" == "!playlist";
    assert ' ' !in "!playlist";
    var log := new CallLog();
    var message := Message(Client("bot"), author, "!playlist Duos", origin);
    assert message.content == bot.prefix + "playlist" + " " + "Duos";
    InvocationSeesRest(bot, "playlist", "Duos", message);
    bot.IntendedTestCommands(message, log);
    calls := log.calls;
  }

  /**
   * With owners {"alice"}, once `process_command` is corrected a command from
   * "bob" is dropped and the same command from "alice" runs; as written, both
   * end in AttributeError.
   */
  lemma OwnerModeExample(client: MainClient, cmd: Command, origin: Origin)
    requires client.ownerMode && client.owners == {"alice"}
    requires client.prefix == "!" && client.commands == map["!playlist" := cmd]
    ensures client.DispatchOutcome(Message(Client("bot"), Author("bob", "b0b"), "!playlist Duos", origin)) == Raised(AttributeError)
    ensures client.DispatchOutcome(Message(Client("bot"), Author("alice", "a11ce"), "!playlist Duos", origin)) == Raised(AttributeError)
    ensures client.IntendedCalls(Message(Client("bot"), Author("bob", "b0b"), "!playlist Duos", origin)) == []
    ensures client.IntendedCalls(Message(Client("bot"), Author("alice", "a11ce"), "!playlist Duos", origin)) != []
  {
    var bob, alice := Author("bob", "b0b"), Author("alice", "a11ce");
    assert !client.GetPermission(bob) && client.GetPermission(alice);
    assert "!playlist Duos" == "!playlist" + " " + "Duos";
    FirstTokenOfInvocation("!playlist", "Duos");
  }
}

/**
 * main_script.py: the older `MainClient`. Its registry holds the coroutine
 * functions themselves, its prefix gate is the literal `"!"`, and a handler
 * receives the raw message with its content untouched.
 */
module LegacyRouter {
  import opened Errors
  import opened Contexts
  import opened Handlers
  import opened Dispatch

  class MainClient {
    const prefix: string
    const ownerMode: bool
    const owners: set<string>
    var commands: map<string, Handler>

    /**
     * Every registry key starts with the command prefix and every entry is a
     * coroutine function, so a first token that is a key names a coroutine.
     */
    ghost predicate Valid()
      reads this
      ensures Valid() ==> forall content :: FirstToken(content) in commands ==>
        prefix <= FirstToken(content) && commands[FirstToken(content)].isCoroutine
    {
      forall key :: key in commands ==> prefix <= key && commands[key].isCoroutine
    }

    /** The configuration (otherwise read from settings.toml) is taken as arguments. */
    constructor (commandPrefix: string, ownerMode: bool, configuredOwners: seq<string>)
      ensures prefix == commandPrefix && this.ownerMode == ownerMode
      ensures owners == OwnerSet(ownerMode, configuredOwners)
      ensures commands == map[] && Valid()
    {
      commands := map[];
      prefix := commandPrefix;
      this.ownerMode := ownerMode;
      owners := OwnerSet(ownerMode, configuredOwners);
    }

    /** `get_permission`: in owner mode the display name or the id must be an owner. */
    function GetPermission(author: Author): (allowed: bool)
      ensures allowed <==> !ownerMode || author.displayName in owners || author.id in owners
    {
      if ownerMode then
        if !(author.displayName in owners) then
          if !(author.id in owners) then false else true
        else true
      else true
    }

    /** `register_command`: only a coroutine function is accepted; it is stored under `prefix + name`. */
    method RegisterCommand(commandName: string, handler: Handler) returns (r: Outcome)
      requires Valid()
      modifies this
      ensures Valid()
      ensures r == if handler.isCoroutine then Done else Raised(TypeError)
      ensures !handler.isCoroutine ==> commands == old(commands)
      ensures handler.isCoroutine ==> commands == old(commands)[prefix + commandName := handler]
    {
      if !handler.isCoroutine {
        return Raised(TypeError);
      }
      commands := commands[prefix + commandName := handler];
      return Done;
    }

    /** Where the pipeline ends for a message: the gate is `"!"`, whatever the configured prefix. */
    function Decide(message: Message): (d: Decision<Handler>)
      reads this
      ensures d.Run? <==> "!" <= FirstToken(message.content) && FirstToken(message.content) in commands
                          && GetPermission(message.author)
      ensures d.Run? ==> d.target == commands[FirstToken(message.content)]
    {
      Route("!", commands, GetPermission(message.author), message.content)
    }

    /** The handler calls one dispatch of `message` makes: none, or one call with the raw message. */
    function Dispatched(message: Message): (calls: seq<Call>)
      reads this
      ensures |calls| <= 1
      ensures calls != [] <==> Decide(message).Run?
      ensures calls != [] ==> calls[0].handler == Decide(message).target
      ensures calls != [] ==> calls[0].arg == RawMessage(message)
    {
      match Decide(message)
      case Run(handler) => [Invoked(handler, RawMessage(message))]
      case _ => []
    }

    /** `process_command`: a denied sender is dropped silently; otherwise the handler gets the message itself. */
    method ProcessCommand(command: Handler, message: Message, log: CallLog)
      modifies log
      ensures log.calls == old(log.calls) + if GetPermission(message.author) then [Invoked(command, RawMessage(message))] else []
    {
      var permission := GetPermission(message.author);
      if !permission {
        return;
      }
      log.calls := log.calls + [Invoked(command, RawMessage(message))];
    }

    /** `test_commands`: the `"!"` gate, the registry lookup, then `process_command`. */
    method TestCommands(message: Message, log: CallLog)
      modifies log
      ensures log.calls == old(log.calls) + Dispatched(message)
    {
      var command := FirstToken(message.content);
      if !("!" <= command) {
        return;
      }
      if command in commands {
        ProcessCommand(commands[command], message, log);
      }
    }

    /** The `command` decorator: registration under the function's own name. */
    method CommandDecorator(coro: Handler) returns (r: Outcome)
      requires Valid()
      modifies this
      ensures Valid()
      ensures r == if coro.isCoroutine then Done else Raised(TypeError)
      ensures !coro.isCoroutine ==> commands == old(commands)
      ensures coro.isCoroutine ==> commands == old(commands)[prefix + coro.name := coro]
    {
      r := RegisterCommand(coro.name, coro);
    }
  }

  // ---------------------------------------------------------------------------
  // Properties of the pipeline.

  /** A token that is not a key, or a denied sender: no handler call. */
  lemma NoCallUnlessRegisteredAndPermitted(client: MainClient, message: Message)
    requires FirstToken(message.content) !in client.commands || !client.GetPermission(message.author)
    ensures client.Dispatched(message) == []
  {
  }

  /**
   * The gate tests the literal `"!"`: with a configured prefix that does not begin
   * with `'!'`, every key fails the gate and no message ever reaches a handler.
   */
  lemma OtherPrefixNeverDispatches(client: MainClient, message: Message)
    requires client.Valid()
    requires client.prefix != "" && client.prefix[0] != '!'
    ensures client.Dispatched(message) == []
  {
    var command := FirstToken(message.content);
    if command in client.commands {
      assert client.prefix <= command;
      assert command[0] != '!';
    }
  }

  /**
   * With a prefix that begins with `"!"`, dispatching `key + " " + rest` for a
   * registered key from a permitted sender passes the message itself, content
   * unstripped, to the registered coroutine exactly once.
   */
  lemma HandlerGetsRawMessage(client: MainClient, key: string, rest: string, message: Message)
    requires client.Valid()
    requires "!" <= client.prefix
    requires key in client.commands && ' ' !in key
    requires message.content == key + " " + rest
    requires client.GetPermission(message.author)
    ensures client.Dispatched(message) == [Invoked(client.commands[key], RawMessage(message))]
    ensures client.commands[key].isCoroutine
  {
    FirstTokenOfInvocation(key, rest);
  }
}

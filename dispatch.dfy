/**
 * What both variants of `MainClient` share: the first-token split of
 * `test_commands`, its gates in order, and the owner set derived at construction.
 */
module Dispatch {

  /** `content.split(" ")[0]`: everything before the first space, or all of it. */
  function FirstToken(content: string): (token: string)
    ensures token <= content
    ensures ' ' !in token
    ensures |token| < |content| ==> content[|token|] == ' '
  {
    if content == [] || content[0] == ' ' then [] else [content[0]] + FirstToken(content[1..])
  }

  /** The three properties of `FirstToken` determine it. */
  lemma FirstTokenUnique(content: string, token: string)
    requires token <= content
    requires ' ' !in token
    requires |token| < |content| ==> content[|token|] == ' '
    ensures token == FirstToken(content)
  {
  }

  /** The first token of `key + " " + rest`, and of `key` alone, is `key` when it has no space. */
  lemma FirstTokenOfInvocation(key: string, rest: string)
    requires ' ' !in key
    ensures FirstToken(key + " " + rest) == key
    ensures FirstToken(key) == key
  {
    FirstTokenUnique(key + " " + rest, key);
    FirstTokenUnique(key, key);
  }

  /** How one dispatch run ends. */
  datatype Decision<T> = NotPrefixed | NotRegistered | Denied | Run(target: T)

  /**
   * The gates of one dispatch run, in the order the source applies them: the first
   * token must start with `gate`, must be a registry key, and the sender must be
   * permitted; then the entry for that key runs. The lookup is the last gate
   * before `process_command`, so that is reached exactly on `Denied` and `Run`.
   */
  function Route<T>(gate: string, commands: map<string, T>, permitted: bool, content: string): (d: Decision<T>)
    ensures d.NotPrefixed? <==> !(gate <= FirstToken(content))
    ensures d.Denied? || d.Run? <==> gate <= FirstToken(content) && FirstToken(content) in commands
    ensures d.Denied? ==> !permitted
    ensures d.Run? ==> permitted && d.target == commands[FirstToken(content)]
  {
    var command := FirstToken(content);
    if !(gate <= command) then NotPrefixed
    else if command !in commands then NotRegistered
    else if !permitted then Denied
    else Run(commands[command])
  }

  /**
   * When every key starts with the gate, a token that is a key always passes the
   * gate, so the gate decides nothing that the lookup does not.
   */
  lemma GateSubsumedByLookup<T>(gate: string, commands: map<string, T>, permitted: bool, content: string)
    requires forall key :: key in commands ==> gate <= key
    ensures Route(gate, commands, permitted, content).Run? <==> Route("", commands, permitted, content).Run?
    ensures Route(gate, commands, permitted, content).Run?
        ==> Route(gate, commands, permitted, content) == Route("", commands, permitted, content)
  {
  }

  /** A key with a space in it is never the first token, so it can never be invoked. */
  lemma KeyWithSpaceUnreachable(key: string, content: string)
    requires ' ' in key
    ensures FirstToken(content) != key
  {
  }

  /** `set(owners if owner_mode else [])`. */
  function OwnerSet(ownerMode: bool, configured: seq<string>): (owners: set<string>)
    ensures !ownerMode ==> owners == {}
    ensures ownerMode ==> forall name :: name in owners <==> name in configured
  {
    if ownerMode then set name | name in configured else {}
  }
}

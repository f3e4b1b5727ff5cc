/**
 * The Python callables that commands wrap, and the record of their invocations.
 * Handler bodies are not modelled: an invocation is an event in a `CallLog`.
 */
module Handlers {
  import opened Contexts

  /**
   * A handler's declared parameters as the command layer sees them: the rendered
   * signature without its parentheses and spaces, split on commas. Splitting never
   * yields an empty list; `[""]` is the rendering of an empty signature, and `"*"`
   * is the bare keyword-only separator.
   */
  type ParamList = s: seq<string> | |s| > 0 witness [""]

  /** A Python function: its `__name__`, its declared parameters, and whether it is `async def`. */
  datatype Handler = Handler(name: string, declared: ParamList, isCoroutine: bool)

  /** What a handler receives: a message context (as it stands at the call) or the raw message. */
  datatype Argument =
    | WrappedContext(author: Author, content: string, kind: MessageType)
    | RawMessage(message: Message)

  /** One awaited handler call. */
  datatype Call = Invoked(handler: Handler, arg: Argument)

  /** The handler calls made, in order. */
  class CallLog {
    var calls: seq<Call>

    constructor ()
      ensures calls == []
    {
      calls := [];
    }
  }
}

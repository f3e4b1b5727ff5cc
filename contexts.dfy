/**
 * The message wrapper of boat/commands/context.py: an inbound friend or party
 * message, normalised into a context that knows its channel kind and can reply.
 */
module Contexts {

  /** The sender of a message: its display name and its stable account id. */
  datatype Author = Author(displayName: string, id: string)

  /** The chat client the message arrived on (opaque to this layer). */
  datatype Client = Client(accountId: string)

  /** The two transport message classes, `FriendMessage` and `PartyMessage`. */
  datatype Origin = FriendMessage | PartyMessage

  /** An inbound message as the transport delivers it. */
  datatype Message = Message(client: Client, author: Author, content: string, origin: Origin)

  /** `MessageType`: where a reply goes. */
  datatype MessageType = Party | Friend

  /** One send performed on the transport: to the author directly, or to the party. */
  datatype Send = ToAuthor(recipient: Author, text: string) | ToParty(text: string)

  /** The channel kind a context derives at construction. */
  function ChannelKind(message: Message): (t: MessageType)
    ensures t == Friend <==> message.origin == FriendMessage
  {
    if message.origin.FriendMessage? then Friend else Party
  }

  /** The sends performed on the transport, in order. */
  class Outbox {
    var sent: seq<Send>

    constructor ()
      ensures sent == []
    {
      sent := [];
    }
  }

  class MessageContext {
    const client: Client
    const author: Author
    const kind: MessageType
    /** Mutable: the dispatch pipeline strips the invoker from it. */
    var content: string

    /** Copies client, author and content unchanged and classifies the channel. */
    constructor (message: Message)
      ensures client == message.client && author == message.author
      ensures content == message.content
      ensures kind == ChannelKind(message)
    {
      client := message.client;
      author := message.author;
      content := message.content;
      kind := ChannelKind(message);
    }

    /** The single send `reply(text)` performs. */
    function ReplySend(text: string): (s: Send)
      ensures s.text == text
      ensures s.ToAuthor? <==> kind == Friend
      ensures s.ToAuthor? ==> s.recipient == author
    {
      if kind == Friend then ToAuthor(author, text) else ToParty(text)
    }

    /** `reply`: exactly one send, to the author for a friend context, else to the party. */
    method Reply(text: string, outbox: Outbox)
      modifies outbox
      ensures outbox.sent == old(outbox.sent) + [ReplySend(text)]
    {
      if kind == Friend {
        outbox.sent := outbox.sent + [ToAuthor(author, text)];
        return;
      }
      outbox.sent := outbox.sent + [ToParty(text)];
    }
  }
}

/** The chat-platform values the handler consumes: reaction events, fetched
    messages, their attachments and authors. Identifiers are opaque numbers. */
module Discord {
  import opened Wrappers

  type ChannelId = nat
  type MessageId = nat
  type UserId = nat

  /** The emoji of a reaction: either a plain Unicode symbol or a
      server-specific custom emoji (which has an id and possibly a name). */
  datatype ReactionType =
    | Unicode(symbol: string)
    | Custom(id: nat, name: Option<string>, animated: bool)

  /** One "reaction added" event. */
  datatype Reaction = Reaction(
    emoji: ReactionType,
    channel: ChannelId,
    message: MessageId,
    user: UserId)

  /** A file attached to a message; `width` is present only when the
      platform recognised the file as an image. */
  datatype Attachment = Attachment(
    url: string,
    filename: string,
    width: Option<nat>,
    height: Option<nat>)

  datatype User = User(id: UserId, name: string)

  /** A message as returned by the platform's fetch call. */
  datatype Message = Message(
    id: MessageId,
    channel: ChannelId,
    author: User,
    attachments: seq<Attachment>)
}

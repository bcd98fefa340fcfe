/**
 * The values the mirroring engine exchanges with the chat platform.
 *
 * Every platform call (channel lookup, message fetch, send, edit, delete,
 * attachment download) and the store insert is not performed here: its
 * outcome is an input of the handler that makes the call, and the request
 * the handler issues is one of its outputs.
 */
module Transport {

  datatype Option<T> = None | Some(value: T)

  /** The exception classes the handlers distinguish: `discord.NotFound`,
      `discord.Forbidden` and every other exception. */
  datatype Failure = NotFound | Forbidden | OtherError

  /** What one platform call yields: a value, or the exception it raises. */
  datatype Outcome<T> = Ok(value: T) | Fail(failure: Failure)

  datatype Channel = Channel(id: nat)

  /** What `client.get_channel` (the client's local lookup) and
      `client.fetch_channel` (a platform call) answer for a channel id. */
  datatype Lookup = Lookup(local: Option<Channel>, remote: Outcome<Channel>)

  /** `client.get_channel(id)`, and `await client.fetch_channel(id)` only
      when that finds nothing; an exception of the fetch gives no channel. */
  function LookupChannel(lookup: Lookup): (r: Option<Channel>)
    ensures lookup.local.Some? ==> r == lookup.local
    ensures lookup.local.None? && lookup.remote.Ok? ==> r == Some(lookup.remote.value)
    ensures r.None? <==> lookup.local.None? && lookup.remote.Fail?
  {
    if lookup.local.Some? then lookup.local
    else if lookup.remote.Ok? then Some(lookup.remote.value)
    else None
  }

  datatype Author = Author(id: nat, bot: bool, displayName: Option<string>)

  /** An attachment, represented by what `attachment.to_file()` yields for
      it; its name and bytes do not enter any decision of the handlers. */
  datatype Attachment = Attachment(download: Outcome<()>)

  /** A full message event. `guild` is `None` for a direct message;
      `replyTo` is `message.reference.message_id`, if any. */
  datatype Message = Message(
    id: nat,
    guild: Option<nat>,
    channelId: nat,
    inThread: bool,
    author: Author,
    jumpUrl: string,
    content: string,
    replyTo: Option<nat>,
    attachments: seq<Attachment>)

  /** The minimal payload of a raw delete event. */
  datatype DeletePayload = DeletePayload(messageId: nat, guild: Option<nat>, channelId: nat)

  /** A state-changing platform call a handler issues. File arguments are
      the handles opened for the message's attachments. */
  datatype Request =
    | SendMessage(channelId: nat, content: string, files: seq<nat>, reference: Option<nat>, silent: bool)
    | EditMessage(messageId: nat, content: string)
    | DeleteMessage(channelId: nat, messageId: nat)

  /** How a handler ends: it returns, or an exception escapes it. */
  datatype Status = Returned | Raised(failure: Failure)
}

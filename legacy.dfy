/**
 * bot.py's `on_message`: the older single-file relay. It mirrors every
 * message not written by a bot and not posted in the feed channel (it has
 * no guild filter), with a mention header, and shares the send-and-record
 * path of the handlers, sending silently.
 */
module Legacy {
  import opened Transport
  import opened Content
  import opened Store
  import opened Relay
  import opened Files

  datatype LegacyWorld = LegacyWorld(lookup: Lookup, send: SendWorld)

  /** `on_message`. */
  function LegacyEffect(docs: Mappings, feedId: nat, m: Message, w: LegacyWorld, firstHandle: nat): (r: Mirroring)
    // every bot author and every message of the feed channel is skipped
    ensures m.author.bot || m.channelId == feedId ==> r == Mirroring(None, Returned, docs)
    // an unresolvable feed channel sends and records nothing
    ensures LookupChannel(w.lookup).None? ==> r == Mirroring(None, Returned, docs)
    ensures Key(m.id) in docs ==> r.request.None? && r.docs == docs
    ensures r.request.Some? ==>
      && !m.author.bot && m.channelId != feedId && LookupChannel(w.lookup).Some?
      && ReplyReference(m.replyTo, docs, w.send.parentFetch).Ok?
      && r.request.value == SendMessage(LookupChannel(w.lookup).value.id, LegacyContent(m),
           Handles(firstHandle, |m.attachments|), ReplyReference(m.replyTo, docs, w.send.parentFetch).value, true)
    ensures r.docs != docs ==>
      && r.request.Some? && w.send.send.Ok? && r.status == Returned
      && r.docs == docs[Key(m.id) := Mapping(m.id, w.send.send.value)]
    // an unskipped message with a resolved channel, successful downloads and
    // reply resolution and no mapping is sent
    ensures r.request.Some? <==>
      && !m.author.bot && m.channelId != feedId && LookupChannel(w.lookup).Some?
      && DownloadFailure(m.attachments).None?
      && ReplyReference(m.replyTo, docs, w.send.parentFetch).Ok?
      && Key(m.id) !in docs
    // a successful send and insert record the mapping to the sent copy
    ensures r.request.Some? && w.send.send.Ok? && w.send.insert.Ok? ==>
      r.status == Returned && r.docs == docs[Key(m.id) := Mapping(m.id, w.send.send.value)]
    // past the skip and the channel, exactly a download, reply resolution,
    // send or insert exception escapes
    ensures r.status.Raised? <==>
      && !m.author.bot && m.channelId != feedId && LookupChannel(w.lookup).Some?
      && (|| DownloadFailure(m.attachments).Some?
          || ReplyReference(m.replyTo, docs, w.send.parentFetch).Fail?
          || (r.request.Some? && (w.send.send.Fail? || w.send.insert.Fail?)))
    ensures r.status.Raised? ==> r.docs == docs
    ensures Keyed(docs) ==> Keyed(r.docs)
  {
    if m.author.bot || m.channelId == feedId then Mirroring(None, Returned, docs)
    else match LookupChannel(w.lookup)
      case None => Mirroring(None, Returned, docs)
      case Some(channel) => MirrorSpec(docs, m, channel, LegacyContent(m), true, w.send, firstHandle)
  }

  class LegacyBot {
    const feedChannelId: nat
    const store: MappingCollection
    const files: FileTable

    ghost predicate Valid()
      reads this, store, files
    {
      store.Valid() && files.Valid()
    }

    constructor (feedChannelId: nat, store: MappingCollection, files: FileTable)
      requires store.Valid() && files.Valid()
      ensures Valid() && this.feedChannelId == feedChannelId && this.store == store && this.files == files
    {
      this.feedChannelId, this.store, this.files := feedChannelId, store, files;
    }

    method OnMessage(m: Message, w: LegacyWorld) returns (request: Option<Request>, status: Status)
      requires Valid()
      modifies store, files
      ensures Valid()
      ensures Mirroring(request, status, store.docs) == LegacyEffect(old(store.docs), feedChannelId, m, w, old(files.next))
      ensures files.open == old(files.open)
    {
      if m.author.bot || m.channelId == feedChannelId {
        return None, Returned;
      }
      var content := LegacyContent(m);
      var channel := LookupChannel(w.lookup);
      if channel.None? {
        return None, Returned;
      }
      request, status := MirrorMessage(store, files, m, channel.value, content, true, w.send);
    }
  }
}

/**
 * The handlers of handlers.py: mirror a new message from an allowed guild
 * into the feed channel, propagate its edits and its deletion, over the
 * mapping collection, the feed-channel cache and the open files.
 */
module Mirror {
  import opened Transport
  import opened Content
  import opened Files
  import opened Store
  import opened Relay

  datatype CreateWorld = CreateWorld(lookup: Lookup, send: SendWorld)
  datatype EditWorld = EditWorld(lookup: Lookup, copyFetch: Outcome<()>, edit: Outcome<()>)
  datatype DeleteWorld = DeleteWorld(lookup: Lookup, delete: Outcome<()>)

  type Cache = map<nat, Channel>

  /** What a handler does: the state-changing platform call it issues, how it
      ends, and the collection and the cache after it. */
  datatype Effect = Effect(request: Option<Request>, status: Status, docs: Mappings, cache: Cache)

  /** `get_feed_channel`'s answer: a cached channel is used without any
      lookup; otherwise the local lookup, then the platform fetch, whose
      failure gives no channel. */
  function ResolvedChannel(cache: Cache, id: nat, lookup: Lookup): (r: Option<Channel>)
    ensures id in cache ==> r == Some(cache[id])
    ensures r.None? <==> id !in cache && lookup.local.None? && lookup.remote.Fail?
    ensures id !in cache && lookup.local.Some? ==> r == lookup.local
    ensures id !in cache && lookup.local.None? && lookup.remote.Ok? ==> r == Some(lookup.remote.value)
  {
    if id in cache then Some(cache[id]) else LookupChannel(lookup)
  }

  /** The cache after `get_feed_channel`: a resolved channel is stored under
      the requested id; a failed resolution stores nothing. */
  function CacheAfter(cache: Cache, id: nat, lookup: Lookup): (r: Cache)
    ensures ResolvedChannel(cache, id, lookup).None? ==> r == cache
    ensures ResolvedChannel(cache, id, lookup).Some? ==> r == cache[id := ResolvedChannel(cache, id, lookup).value]
    ensures id in cache ==> r == cache
    ensures forall k :: k in cache ==> k in r && r[k] == cache[k]
  {
    match ResolvedChannel(cache, id, lookup)
    case Some(channel) => cache[id := channel]
    case None => cache
  }

  predicate SelfAuthored(authorId: nat, botUser: Option<nat>) {
    botUser.Some? && authorId == botUser.value
  }

  /** The guard of the create, edit and delete handlers: an allowed guild,
      not the bot's own message, not a message in the feed channel. */
  predicate Mirrorable(m: Message, botUser: Option<nat>, feedId: nat, allowed: set<nat>) {
    IsAllowedGuild(m.guild, allowed) && !SelfAuthored(m.author.id, botUser) && m.channelId != feedId
  }

  /** The guard of the raw delete handler: the guild and the channel only. */
  predicate RawMirrorable(p: DeletePayload, feedId: nat, allowed: set<nat>) {
    IsAllowedGuild(p.guild, allowed) && p.channelId != feedId
  }

  /** `is_allowed_guild` as the handlers use it: a message without a guild,
      or from a guild outside `allowed`, is created, edited and deleted
      without any request and without any change to the collection or the
      cache, and so is a raw delete payload from such a guild. */
  lemma OtherGuildsIgnored(docs: Mappings, cache: Cache, feedId: nat, allowed: set<nat>, botUser: Option<nat>,
                           m: Message, p: DeletePayload, cw: CreateWorld, ew: EditWorld, dw: DeleteWorld, h: nat)
    requires m.guild.None? || m.guild.value !in allowed
    requires p.guild.None? || p.guild.value !in allowed
    ensures CreateEffect(docs, cache, feedId, allowed, botUser, m, cw, h) == Effect(None, Returned, docs, cache)
    ensures EditEffect(docs, cache, feedId, allowed, botUser, m, ew) == Effect(None, Returned, docs, cache)
    ensures DeleteEffect(docs, cache, feedId, Mirrorable(m, botUser, feedId, allowed), m.id, dw)
      == Effect(None, Returned, docs, cache)
    ensures DeleteEffect(docs, cache, feedId, RawMirrorable(p, feedId, allowed), p.messageId, dw)
      == Effect(None, Returned, docs, cache)
  {
  }

  /** `handle_message`. */
  function CreateEffect(docs: Mappings, cache: Cache, feedId: nat, allowed: set<nat>, botUser: Option<nat>,
                        m: Message, w: CreateWorld, firstHandle: nat): (r: Effect)
    // the guards leave everything unchanged and send nothing
    ensures !Mirrorable(m, botUser, feedId, allowed) ==> r == Effect(None, Returned, docs, cache)
    ensures ResolvedChannel(cache, feedId, w.lookup).None? ==> r.request.None? && r.docs == docs && r.cache == cache
    // idempotency
    ensures Key(m.id) in docs ==> r.request.None? && r.docs == docs
    ensures r.request.Some? ==>
      && Mirrorable(m, botUser, feedId, allowed)
      && ResolvedChannel(cache, feedId, w.lookup).Some?
      && r.request.value.SendMessage?
      && r.request.value.channelId == ResolvedChannel(cache, feedId, w.lookup).value.id
      && r.request.value.content == BuildContent(m)
      && ReplyReference(m.replyTo, docs, w.send.parentFetch).Ok?
      && r.request.value.reference == ReplyReference(m.replyTo, docs, w.send.parentFetch).value
      && |r.request.value.files| == |m.attachments|
    // exactly one new mapping, to the sent copy, and only after a send
    ensures r.docs != docs ==>
      && r.request.Some? && w.send.send.Ok? && r.status == Returned
      && r.docs == docs[Key(m.id) := Mapping(m.id, w.send.send.value)]
    // a message passing the guard, with a resolved channel, successful
    // downloads and reply resolution and no mapping, is sent
    ensures r.request.Some? <==>
      && Mirrorable(m, botUser, feedId, allowed)
      && ResolvedChannel(cache, feedId, w.lookup).Some?
      && DownloadFailure(m.attachments).None?
      && ReplyReference(m.replyTo, docs, w.send.parentFetch).Ok?
      && Key(m.id) !in docs
    // a successful send and insert record the mapping to the sent copy
    ensures r.request.Some? && w.send.send.Ok? && w.send.insert.Ok? ==>
      r.status == Returned && r.docs == docs[Key(m.id) := Mapping(m.id, w.send.send.value)]
    // past the guard and the channel, exactly a download, reply resolution,
    // send or insert exception escapes
    ensures r.status.Raised? <==>
      && Mirrorable(m, botUser, feedId, allowed)
      && ResolvedChannel(cache, feedId, w.lookup).Some?
      && (|| DownloadFailure(m.attachments).Some?
          || ReplyReference(m.replyTo, docs, w.send.parentFetch).Fail?
          || (r.request.Some? && (w.send.send.Fail? || w.send.insert.Fail?)))
    ensures r.status.Raised? ==> r.docs == docs
    // past the guard, `get_feed_channel` runs and leaves its cache
    ensures Mirrorable(m, botUser, feedId, allowed) ==> r.cache == CacheAfter(cache, feedId, w.lookup)
    ensures Keyed(docs) ==> Keyed(r.docs)
  {
    if !Mirrorable(m, botUser, feedId, allowed) then Effect(None, Returned, docs, cache)
    else
      var cache' := CacheAfter(cache, feedId, w.lookup);
      match ResolvedChannel(cache, feedId, w.lookup)
      case None => Effect(None, Returned, docs, cache')
      case Some(channel) =>
        var r := MirrorSpec(docs, m, channel, BuildContent(m), false, w.send, firstHandle);
        Effect(r.request, r.status, r.docs, cache')
  }

  /** `handle_message_edit`. */
  function EditEffect(docs: Mappings, cache: Cache, feedId: nat, allowed: set<nat>, botUser: Option<nat>,
                      after: Message, w: EditWorld): (r: Effect)
    // an edit never changes the collection
    ensures r.docs == docs
    ensures !Mirrorable(after, botUser, feedId, allowed) || Key(after.id) !in docs ==> r == Effect(None, Returned, docs, cache)
    // the copy is edited exactly when the guard passes, a mapping exists,
    // the feed channel resolves and the copy is found
    ensures r.request.Some? <==>
      && Mirrorable(after, botUser, feedId, allowed) && Key(after.id) in docs
      && ResolvedChannel(cache, feedId, w.lookup).Some? && w.copyFetch.Ok?
    ensures r.request.Some? ==> r.request.value == EditMessage(docs[Key(after.id)].feedMessageId, BuildContent(after))
    ensures r.status.Raised? <==>
      && Mirrorable(after, botUser, feedId, allowed) && Key(after.id) in docs
      && ResolvedChannel(cache, feedId, w.lookup).Some?
      && ((w.copyFetch.Fail? && w.copyFetch.failure != NotFound) || (w.copyFetch.Ok? && w.edit.Fail?))
    // the exception that escapes is the fetch's own, or else the edit's
    ensures r.status.Raised? ==> r.status.failure == (if w.copyFetch.Fail? then w.copyFetch.failure else w.edit.failure)
    // with a guard that passes and a mapping, `get_feed_channel` runs and
    // leaves its cache
    ensures Mirrorable(after, botUser, feedId, allowed) && Key(after.id) in docs ==>
      r.cache == CacheAfter(cache, feedId, w.lookup)
  {
    if !Mirrorable(after, botUser, feedId, allowed) || Key(after.id) !in docs then Effect(None, Returned, docs, cache)
    else
      var cache' := CacheAfter(cache, feedId, w.lookup);
      match ResolvedChannel(cache, feedId, w.lookup)
      case None => Effect(None, Returned, docs, cache')
      case Some(_) =>
        match w.copyFetch
        case Fail(NotFound) => Effect(None, Returned, docs, cache')
        case Fail(f) => Effect(None, Raised(f), docs, cache')
        case Ok(_) =>
          var request := EditMessage(docs[Key(after.id)].feedMessageId, BuildContent(after));
          match w.edit
          case Fail(f) => Effect(Some(request), Raised(f), docs, cache')
          case Ok(_) => Effect(Some(request), Returned, docs, cache')
  }

  /** `handle_message_delete` and `handle_raw_message_delete` once their
      guard is evaluated: `passes` is the guard, `id` the deleted message.
      The outcome of the platform delete does not enter the result. */
  function DeleteEffect(docs: Mappings, cache: Cache, feedId: nat, passes: bool, id: nat, w: DeleteWorld): (r: Effect)
    // a delete handler never raises
    ensures r.status == Returned
    ensures !passes || Key(id) !in docs ==> r == Effect(None, Returned, docs, cache)
    ensures ResolvedChannel(cache, feedId, w.lookup).None? ==> r == Effect(None, Returned, docs, cache)
    // once the mapping is found and the channel resolves, the delete is
    // attempted and the mapping is dropped, whatever the delete answered
    ensures passes && Key(id) in docs && ResolvedChannel(cache, feedId, w.lookup).Some? ==>
      && r.request == Some(DeleteMessage(ResolvedChannel(cache, feedId, w.lookup).value.id, docs[Key(id)].feedMessageId))
      && r.docs == Removed(docs, id)
    ensures r.request.None? ==> r.docs == docs
    // with a guard that passes and a mapping, `get_feed_channel` runs and
    // leaves its cache
    ensures passes && Key(id) in docs ==> r.cache == CacheAfter(cache, feedId, w.lookup)
    ensures Keyed(docs) ==> Keyed(r.docs)
  {
    if !passes || Key(id) !in docs then Effect(None, Returned, docs, cache)
    else
      var cache' := CacheAfter(cache, feedId, w.lookup);
      match ResolvedChannel(cache, feedId, w.lookup)
      case None => Effect(None, Returned, docs, cache')
      case Some(channel) =>
        Effect(Some(DeleteMessage(channel.id, docs[Key(id)].feedMessageId)), Returned, Removed(docs, id), cache')
  }

  /** After a successful delete, no mapping of the message remains and no
      other message's mapping is lost, so a later edit of the deleted
      message changes nothing. */
  lemma DeleteThenEditIsNoop(docs: Mappings, cache: Cache, feedId: nat, allowed: set<nat>, botUser: Option<nat>,
                             m: Message, dw: DeleteWorld, ew: EditWorld)
    requires Keyed(docs)
    ensures var d := DeleteEffect(docs, cache, feedId, Mirrorable(m, botUser, feedId, allowed), m.id, dw);
      && (d.request.Some? ==> forall k :: k in docs ==> (k in d.docs <==> docs[k].sourceMessageId != m.id))
      && (d.request.Some? ==> EditEffect(d.docs, d.cache, feedId, allowed, botUser, m, ew).request.None?)
  {
  }

  /** The engine's state: the mapping collection, the feed-channel cache and
      the open files, with the configuration the handlers are given. */
  class Engine {
    const feedChannelId: nat
    const allowedGuilds: set<nat>
    const store: MappingCollection
    const files: FileTable
    var cache: Cache

    ghost predicate Valid()
      reads this, store, files
    {
      store.Valid() && files.Valid()
    }

    constructor (feedChannelId: nat, allowedGuilds: set<nat>, store: MappingCollection, files: FileTable)
      requires store.Valid() && files.Valid()
      ensures Valid() && this.store == store && this.files == files && cache == map[]
      ensures this.feedChannelId == feedChannelId && this.allowedGuilds == allowedGuilds
    {
      this.feedChannelId, this.allowedGuilds := feedChannelId, allowedGuilds;
      this.store, this.files := store, files;
      cache := map[];
    }

    /** `get_feed_channel`. */
    method GetFeedChannel(lookup: Lookup) returns (channel: Option<Channel>)
      modifies this`cache
      ensures channel == ResolvedChannel(old(cache), feedChannelId, lookup)
      ensures cache == CacheAfter(old(cache), feedChannelId, lookup)
    {
      if feedChannelId in cache {
        return Some(cache[feedChannelId]);
      }
      channel := lookup.local;
      if channel.None? {
        match lookup.remote {
          case Fail(_) => return None;
          case Ok(c) => channel := Some(c);
        }
      }
      cache := cache[feedChannelId := channel.value];
    }

    /** `handle_message`: `botUser` is `client.user`'s id, absent before login. */
    method HandleMessage(m: Message, botUser: Option<nat>, w: CreateWorld) returns (request: Option<Request>, status: Status)
      requires Valid()
      modifies this`cache, store, files
      ensures Valid()
      ensures Effect(request, status, store.docs, cache)
        == CreateEffect(old(store.docs), old(cache), feedChannelId, allowedGuilds, botUser, m, w, old(files.next))
      ensures files.open == old(files.open)
    {
      if !Mirrorable(m, botUser, feedChannelId, allowedGuilds) {
        return None, Returned;
      }
      var channel := GetFeedChannel(w.lookup);
      if channel.None? {
        return None, Returned;
      }
      request, status := MirrorMessage(store, files, m, channel.value, BuildContent(m), false, w.send);
    }

    /** `handle_message_edit`. */
    method HandleMessageEdit(after: Message, botUser: Option<nat>, w: EditWorld) returns (request: Option<Request>, status: Status)
      requires Valid()
      modifies this`cache
      ensures Valid()
      ensures Effect(request, status, store.docs, cache)
        == EditEffect(store.docs, old(cache), feedChannelId, allowedGuilds, botUser, after, w)
    {
      request, status := None, Returned;
      if !Mirrorable(after, botUser, feedChannelId, allowedGuilds) {
        return;
      }
      var mapping := store.FindOne(after.id);
      if mapping.None? {
        return;
      }
      var channel := GetFeedChannel(w.lookup);
      if channel.None? {
        return;
      }
      match w.copyFetch {
        case Fail(NotFound) =>
        case Fail(f) => status := Raised(f);
        case Ok(_) =>
          request := Some(EditMessage(mapping.value.feedMessageId, BuildContent(after)));
          if w.edit.Fail? {
            status := Raised(w.edit.failure);
          }
      }
    }

    /** The common body of both delete handlers after their guard: find the
        mapping, resolve the channel, attempt the delete, and in its
        `finally` drop the mapping. */
    method DeleteMirror(passes: bool, id: nat, w: DeleteWorld) returns (request: Option<Request>, status: Status)
      requires Valid()
      modifies this`cache, store
      ensures Valid()
      ensures Effect(request, status, store.docs, cache)
        == DeleteEffect(old(store.docs), old(cache), feedChannelId, passes, id, w)
    {
      request, status := None, Returned;
      if !passes {
        return;
      }
      var mapping := store.FindOne(id);
      if mapping.None? {
        return;
      }
      var channel := GetFeedChannel(w.lookup);
      if channel.None? {
        return;
      }
      request := Some(DeleteMessage(channel.value.id, mapping.value.feedMessageId));
      // NotFound, Forbidden and every other exception of the delete are
      // caught; the mapping is deleted in all cases.
      store.DeleteOne(id);
    }

    /** `handle_message_delete`. */
    method HandleMessageDelete(m: Message, botUser: Option<nat>, w: DeleteWorld) returns (request: Option<Request>, status: Status)
      requires Valid()
      modifies this`cache, store
      ensures Valid()
      ensures Effect(request, status, store.docs, cache)
        == DeleteEffect(old(store.docs), old(cache), feedChannelId, Mirrorable(m, botUser, feedChannelId, allowedGuilds), m.id, w)
    {
      request, status := DeleteMirror(Mirrorable(m, botUser, feedChannelId, allowedGuilds), m.id, w);
    }

    /** `handle_raw_message_delete`: its guard ignores the author. */
    method HandleRawMessageDelete(p: DeletePayload, w: DeleteWorld) returns (request: Option<Request>, status: Status)
      requires Valid()
      modifies this`cache, store
      ensures Valid()
      ensures Effect(request, status, store.docs, cache)
        == DeleteEffect(old(store.docs), old(cache), feedChannelId, RawMirrorable(p, feedChannelId, allowedGuilds), p.messageId, w)
    {
      request, status := DeleteMirror(RawMirrorable(p, feedChannelId, allowedGuilds), p.messageId, w);
    }
  }

  /** At-least-once delivery: the same message handed to the engine twice
      is sent once; the second delivery sends nothing and keeps the store. */
  method Redeliver(e: Engine, m: Message, botUser: Option<nat>, w1: CreateWorld, w2: CreateWorld)
    returns (first: Option<Request>, firstStatus: Status, second: Option<Request>)
    requires e.Valid()
    modifies e`cache, e.store, e.files
    ensures e.Valid()
    ensures first.Some? && firstStatus == Returned ==> second.None? && Key(m.id) in e.store.docs
    ensures e.files.open == old(e.files.open)
  {
    first, firstStatus := e.HandleMessage(m, botUser, w1);
    ghost var docs := e.store.docs;
    var secondStatus;
    second, secondStatus := e.HandleMessage(m, botUser, w2);
    assert first.Some? && firstStatus == Returned ==> Key(m.id) in docs && e.store.docs == docs;
  }
}

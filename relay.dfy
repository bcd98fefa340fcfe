/**
 * The send-and-record path that handlers.py's `handle_message` and bot.py's
 * `on_message` share once the feed channel is resolved: download the
 * attachments, resolve the reply reference, skip a message that already
 * has a mapping, send, record the mapping, and close the files.
 */
module Relay {
  import opened Transport
  import opened Content
  import opened Files
  import opened Store

  /** What the platform and the store answer on this path: fetching the
      feed copy of the parent, the send, and the insert. */
  datatype SendWorld = SendWorld(parentFetch: Outcome<()>, send: Outcome<nat>, insert: Outcome<()>)

  /** The request a mirroring issues, how it ends, and the collection after it. */
  datatype Mirroring = Mirroring(request: Option<Request>, status: Status, docs: Mappings)

  /** The source message this one replies to; a reference id of 0 is falsy
      in Python and counts as no reply. */
  function ParentId(replyTo: Option<nat>): (p: Option<nat>)
    ensures p.Some? ==> replyTo == p && p.value != 0
    ensures replyTo.Some? && replyTo.value != 0 ==> p == replyTo
  {
    if replyTo.Some? && replyTo.value != 0 then replyTo else None
  }

  /** The reply reference: the feed copy of the parent when the parent has a
      mapping and that copy is fetched. A parent without mapping, or a copy
      that is gone, gives no reference and no error; any other fetch failure
      escapes. */
  function ReplyReference(replyTo: Option<nat>, docs: Mappings, fetch: Outcome<()>): (r: Outcome<Option<nat>>)
    ensures ParentId(replyTo).None? ==> r == Ok(None)
    ensures ParentId(replyTo).Some? && Key(ParentId(replyTo).value) !in docs ==> r == Ok(None)
    ensures r.Fail? ==> fetch == Fail(r.failure) && r.failure != NotFound
    // a mapped parent whose copy cannot be fetched for any reason other than
    // `NotFound` makes the whole handler raise: there is no fallback
    ensures && ParentId(replyTo).Some? && Key(ParentId(replyTo).value) in docs
            && fetch.Fail? && fetch.failure != NotFound
            ==> r == Fail(fetch.failure)
    ensures r.Ok? && r.value.Some? <==>
      ParentId(replyTo).Some? && Key(ParentId(replyTo).value) in docs && fetch.Ok?
    ensures r.Ok? && r.value.Some? ==> r.value.value == docs[Key(ParentId(replyTo).value)].feedMessageId
  {
    match ParentId(replyTo)
    case None => Ok(None)
    case Some(parent) =>
      if Key(parent) !in docs then Ok(None)
      else match fetch
        case Ok(_) => Ok(Some(docs[Key(parent)].feedMessageId))
        case Fail(NotFound) => Ok(None)
        case Fail(f) => Fail(f)
  }

  /** The decision the shared path takes, given the collection before it,
      the message, the resolved channel, the text to send, the platform's
      answers, and the first free file handle. */
  function MirrorSpec(docs: Mappings, m: Message, channel: Channel, content: string, silent: bool,
                      w: SendWorld, firstHandle: nat): (r: Mirroring)
    // at-least-once delivery: a message already mapped is never sent again
    ensures Key(m.id) in docs ==> r.request.None? && r.docs == docs
    // a send happens exactly when the downloads and the reply resolution
    // succeed and the message has no mapping yet
    ensures r.request.Some? <==>
      DownloadFailure(m.attachments).None? && ReplyReference(m.replyTo, docs, w.parentFetch).Ok? && Key(m.id) !in docs
    ensures r.request.Some? ==> r.request.value == SendMessage(channel.id, content,
      Handles(firstHandle, |m.attachments|), ReplyReference(m.replyTo, docs, w.parentFetch).value, silent)
    // the only change to the collection is one new mapping to the sent copy
    ensures r.docs != docs ==>
      && r.request.Some? && w.send.Ok? && w.insert.Ok? && r.status == Returned
      && r.docs == docs[Key(m.id) := Mapping(m.id, w.send.value)]
    ensures r.request.Some? && w.send.Ok? && w.insert.Ok? ==> r.docs != docs && Key(m.id) in r.docs
    // exactly a download, a reply resolution, a send or an insert exception
    // escapes, and it is the first one raised
    ensures r.status.Raised? <==>
      || DownloadFailure(m.attachments).Some?
      || ReplyReference(m.replyTo, docs, w.parentFetch).Fail?
      || (r.request.Some? && (w.send.Fail? || w.insert.Fail?))
    ensures DownloadFailure(m.attachments).Some? ==> r.status == Raised(DownloadFailure(m.attachments).value)
    ensures DownloadFailure(m.attachments).None? && ReplyReference(m.replyTo, docs, w.parentFetch).Fail? ==>
      r.status == Raised(ReplyReference(m.replyTo, docs, w.parentFetch).failure)
    ensures r.request.Some? && w.send.Fail? ==> r.status == Raised(w.send.failure)
    ensures r.request.Some? && w.send.Ok? && w.insert.Fail? ==> r.status == Raised(w.insert.failure)
    ensures r.status.Raised? ==> r.docs == docs
    ensures Keyed(docs) ==> Keyed(r.docs)
  {
    var failure := DownloadFailure(m.attachments);
    if failure.Some? then Mirroring(None, Raised(failure.value), docs)
    else
      var reference := ReplyReference(m.replyTo, docs, w.parentFetch);
      if reference.Fail? then Mirroring(None, Raised(reference.failure), docs)
      else if Key(m.id) in docs then Mirroring(None, Returned, docs)
      else
        var request := SendMessage(channel.id, content, Handles(firstHandle, |m.attachments|), reference.value, silent);
        match w.send
        case Fail(f) => Mirroring(Some(request), Raised(f), docs)
        case Ok(sent) =>
          match InsertResult(docs, m.id, w.insert)
          case Fail(f) => Mirroring(Some(request), Raised(f), docs)
          case Ok(_) => Mirroring(Some(request), Returned, docs[Key(m.id) := Mapping(m.id, sent)])
  }

  /** Mirroring the same message again, whatever the platform answers the
      second time, sends nothing and leaves the collection as it is. */
  lemma MirrorTwiceSendsOnce(docs: Mappings, m: Message, channel: Channel, content: string, silent: bool,
                             w1: SendWorld, w2: SendWorld, h1: nat, h2: nat)
    requires MirrorSpec(docs, m, channel, content, silent, w1, h1).status == Returned
    requires MirrorSpec(docs, m, channel, content, silent, w1, h1).request.Some?
    ensures var first := MirrorSpec(docs, m, channel, content, silent, w1, h1);
      var second := MirrorSpec(first.docs, m, channel, content, silent, w2, h2);
      second.request.None? && second.docs == first.docs
  {
  }

  /** The shared path itself: the `try` body and its `finally` that closes
      every file, on the collection and the file table it is given. */
  method MirrorMessage(store: MappingCollection, files: FileTable, m: Message, channel: Channel,
                       content: string, silent: bool, w: SendWorld) returns (request: Option<Request>, status: Status)
    requires store.Valid() && files.Valid()
    modifies store, files
    ensures store.Valid() && files.Valid()
    ensures Mirroring(request, status, store.docs)
      == MirrorSpec(old(store.docs), m, channel, content, silent, w, old(files.next))
    ensures files.open == old(files.open)
  {
    request, status := None, Returned;
    var handles, failure := files.OpenAll(m.attachments);
    if failure.Some? {
      status := Raised(failure.value);
    } else {
      var reference: Option<nat> := None;
      var parent := ParentId(m.replyTo);
      if parent.Some? {
        var parentDoc := store.FindOne(parent.value);
        if parentDoc.Some? {
          match w.parentFetch {
            case Ok(_) => reference := Some(parentDoc.value.feedMessageId);
            case Fail(NotFound) => reference := None;
            case Fail(f) => status := Raised(f);
          }
        }
      }
      if status == Returned {
        var existing := store.FindOne(m.id);
        if existing.None? {
          request := Some(SendMessage(channel.id, content, handles, reference, silent));
          match w.send {
            case Fail(f) => status := Raised(f);
            case Ok(sent) =>
              var inserted := store.InsertOne(m.id, sent, w.insert);
              if inserted.Fail? {
                status := Raised(inserted.failure);
              }
          }
        }
      }
    }
    files.CloseAll(handles);
  }
}

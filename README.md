# Feed-bot mirroring engine — Dafny model

Feed-bot mirrors messages posted in the allowed guilds of a Discord server
into a single feed channel. For every mirrored message it keeps a mapping
document (`_id` = `str(source_message_id)`, `source_message_id`,
`feed_message_id`) so that later edits and deletions of the source message
reach its copy, and so that a reply is mirrored as a reply to the parent's
copy.

This project models the handlers of `handlers.py` and the older single-file
`on_message` of `bot.py`:

- `Ids` — Python's `str` of a non-negative id, its inverse, and the fact
  that distinct ids give distinct store keys.
- `Transport` — the values exchanged with the platform: messages, authors,
  attachments, channel lookups, the three exception classes the handlers
  tell apart (`NotFound`, `Forbidden`, anything else), and the requests a
  handler issues (send, edit, delete).
- `Content` — `is_allowed_guild`, `build_content` and the bot.py header, with
  the lemmas that the first line of a mirrored text is its header and that
  the source text follows exactly one line break, only when non-empty.
- `Files` — the files built from attachments: the download loop that stops
  at the first exception, and the `finally` loop that closes them
  (`FileTable`, a class over the set of open handles).
- `Store` — the mapping collection as a class over a map from `_id` to
  document, with `find_one`, `insert_one` (the unique `_id` refuses a second
  document) and `delete_one`, and the invariant that each document sits
  under its own message's key.
- `Relay` — the path the create handler and `on_message` share once the feed
  channel is known: downloads, reply reference, idempotency check, send,
  insert, and release of the files.
- `Mirror` — the `Engine` class (mapping collection, feed-channel cache, open
  files) with `get_feed_channel` and the four handlers.
- `Legacy` — `LegacyBot.OnMessage`, bot.py's `on_message`.

Every platform call is an input: each handler takes the outcomes of the
calls it may make (`Ok(value)` or `Fail(NotFound | Forbidden | OtherError)`)
and returns the state-changing request it issued, if any, and whether it
returned or raised. Each handler method is proved equal to a pure effect
function (`CreateEffect`, `EditEffect`, `DeleteEffect`, `LegacyEffect`,
`MirrorSpec`) whose contracts state the guards, idempotency, the single
insert and the unconditional cleanup; the methods also prove that every
file they open is closed again.

Behaviour of the code that the model keeps as written:

- A parent copy that cannot be fetched for a reason other than `NotFound`
  (for instance `Forbidden`) makes `handle_message` raise, so the message is
  not mirrored at all; it does not fall back to sending without a reply
  reference (`Relay.ReplyReference`).
- When the feed channel cannot be resolved, the delete handlers keep the
  mapping (`Mirror.DeleteEffect`); only a resolved channel leads to the
  unconditional removal.
- There is one feed channel and no header grouping, channel-name emoji
  splitting, per-guild routes, permission checks or sticker/reply fallback
  retries; none of these exist in handlers.py or bot.py.

## Model

| member | source | states |
|---|---|---|
| `Ids.DecimalString` | handlers.py:84 | `str(id)` is a non-empty string of decimal digits without a leading zero |
| `Ids.ParseDecimalString` | handlers.py:95-97 | reading `str(id)` back as a number gives `id`: the `_id` and `source_message_id` of a document agree |
| `Ids.DecimalStringInjective` | handlers.py:84-86 | two ids have the same store key exactly when they are equal |
| `Mirror.OtherGuildsIgnored` | handlers.py:9-10 | a message with no guild, or a guild outside the allowed set, is created, edited and deleted (by either delete handler) with no request and no change to collection or cache |
| `Content.AuthorBadge` | handlers.py:15-22 | no badge exactly for bot authors; `**name**` for a non-empty display name; `**Unknown User**` when it is missing or empty |
| `Content.HeaderShowsBadge` | handlers.py:24 | the header starts with `**` exactly when the author is not a bot, and ends with the jump URL |
| `Content.SplitJoinLines` | handlers.py:25-28 | joining a header without line breaks and a body, then splitting at the first line break, gives both back; the join is the header alone exactly when the body is empty |
| `Content.BuildContentLines` | handlers.py:13-28 | the first line of `build_content` is the header and the rest is exactly the message text; the text is the header alone iff the message text is empty |
| `Content.LegacyHeaderParts` | bot.py:67-69 | the bot.py header opens with `<@author_id>` from which the author id reads back, and ends with ` → <#channel_id>` for a thread message, with the jump URL otherwise |
| `Content.LegacyContentLines` | bot.py:71-74 | the bot.py text splits back into its header and the message text, and is the header alone exactly when the message text is empty |
| `Transport.LookupChannel` | bot.py:76-82 | the local lookup is used when it finds the channel; otherwise a successful fetch gives the fetched channel; no channel exactly when the local lookup finds nothing and the fetch raises |
| `Files.Downloaded` | handlers.py:71-72 | the number of leading attachments downloaded: all of them succeed, and the next one, if any, raised |
| `Files.DownloadFailure` | handlers.py:70-72 | no exception escapes the download loop exactly when every download succeeds; an escaping exception is that of the first failing attachment |
| `Files.FileTable.OpenAll` | handlers.py:69-72 | opens one fresh handle per downloaded attachment, stops at the first failing download and reports its exception |
| `Files.FileTable.CloseAll` | handlers.py:101-106 | every handle in the list is closed and no other |
| `Store.KeyIdentifiesMessage` | handlers.py:94-100 | in a keyed collection, the document under `str(id)` is the only one of message `id` |
| `Store.Removed` | handlers.py:172 | after `delete_one`, no document of the message remains and every other message's document is kept unchanged; keying is preserved |
| `Store.SecondInsertRefused` | handlers.py:94-100 | once the insert for a message succeeds, its document is in place and any later insert for the same message fails and leaves the collection unchanged |
| `Store.MappingCollection.FindOne` | handlers.py:84 | finds the document exactly when the key is present, and that document belongs to the requested message |
| `Store.MappingCollection.InsertOne` | handlers.py:94-100 | the collection becomes `AfterInsert`: a successful insert adds exactly the document `{str(id), id, feed}`; a failed one changes nothing |
| `Store.MappingCollection.DeleteOne` | handlers.py:172 | the collection becomes `Removed(old, id)` |
| `Relay.ParentId` | handlers.py:75 | the reply parent is exactly the reference id when it is present and non-zero, and there is none otherwise |
| `Relay.ReplyReference` | handlers.py:74-82 | the reference is the parent's feed copy exactly when the parent is mapped and its copy is fetched; no reply, no mapping or `NotFound` give no reference and no error; any other fetch failure of a mapped parent escapes as that failure, and only such failures do |
| `Relay.MirrorSpec` | handlers.py:69-106 | a mapped message is never sent again; a send happens iff downloads and reply resolution succeed and no mapping exists; the path raises exactly on a download, reply-resolution, send or insert failure, with the first such exception; the only change to the collection is one mapping to the sent copy, after a send and insert that succeed; a raised handler leaves the collection unchanged |
| `Relay.MirrorTwiceSendsOnce` | handlers.py:84-100 | after a successful mirroring, mirroring the same message again sends nothing and leaves the collection as it is |
| `Relay.MirrorMessage` | handlers.py:69-106 | the shared send-and-record path issues the request, status and new collection of `MirrorSpec`, and every file it opened is closed on every path |
| `Mirror.ResolvedChannel` | handlers.py:34-44 | a cache hit gives the cached channel whatever the lookups answer; otherwise the local lookup, then the fetch; no channel exactly on a miss whose lookup and fetch both fail |
| `Mirror.CacheAfter` | handlers.py:46-47 | a resolved channel is stored under the feed channel id; a failed resolution and a cache hit leave the cache unchanged; no entry is ever lost |
| `Mirror.CreateEffect` | handlers.py:58-106 | a foreign guild, the bot's own message or a feed-channel message changes nothing and sends nothing; a message is sent exactly when it passes the guard, the channel resolves, downloads and reply resolution succeed and it has no mapping, and then with `build_content`, the reply reference and one file per attachment; a successful send and insert record the mapping to the sent copy, which is the only store change; past the guard and the channel it raises exactly on a download, reply-resolution, send or insert failure; past the guard the cache is `CacheAfter` of `get_feed_channel`, otherwise unchanged |
| `Mirror.EditEffect` | handlers.py:118-137 | an edit never changes the collection; the copy is edited exactly when the guard passes, a mapping exists, the channel resolves and the copy is found, and then with `build_content(after)`; it raises exactly on a non-`NotFound` fetch failure or a failed edit, with that fetch's or edit's own exception; with guard and mapping the cache is `CacheAfter` of `get_feed_channel`, otherwise unchanged |
| `Mirror.DeleteEffect` | handlers.py:154-172 | a delete handler never raises; without guard, mapping or channel nothing changes (request, collection and cache); with guard and mapping the cache is `CacheAfter` of `get_feed_channel`; otherwise the delete is requested for the mapped copy and the mapping is removed whatever the delete answered |
| `Mirror.DeleteThenEditIsNoop` | handlers.py:162-172 | after a delete that reached the platform, no mapping of the message remains, all other mappings survive, and a later edit of that message issues nothing |
| `Mirror.Engine.GetFeedChannel` | handlers.py:31-47 | returns `ResolvedChannel` of the old cache and leaves the cache as `CacheAfter` says |
| `Mirror.Engine.HandleMessage` | handlers.py:50-106 | request, status, collection and cache are those of `CreateEffect`; the open files are as before the call |
| `Mirror.Engine.HandleMessageEdit` | handlers.py:109-137 | request, status and cache are those of `EditEffect`; the collection is untouched |
| `Mirror.Engine.DeleteMirror` | handlers.py:154-172 | the body shared by both delete handlers after their guard equals `DeleteEffect` |
| `Mirror.Engine.HandleMessageDelete` | handlers.py:140-172 | `DeleteEffect` under the guard: allowed guild, not the feed channel, not the bot's own message |
| `Mirror.Engine.HandleRawMessageDelete` | handlers.py:175-208 | `DeleteEffect` under a guard that checks only the guild and the channel, not the author |
| `Mirror.Redeliver` | handlers.py:84-86 | handing the engine the same message twice: once the first delivery sent and returned, the second sends nothing and the mapping stays |
| `Legacy.LegacyEffect` | bot.py:61-123 | any bot author or feed-channel message, and an unresolvable feed channel, change nothing; a message is sent exactly when it is not skipped, the channel resolves, downloads and reply resolution succeed and it has no mapping, and then with the bot.py text, one file per attachment, the reply reference and the silent flag; a successful send and insert record the mapping to the sent copy, which is the only store change; past the skip and the channel it raises exactly on a download, reply-resolution, send or insert failure |
| `Legacy.LegacyBot.OnMessage` | bot.py:61-123 | request, status and collection are those of `LegacyEffect`; every file opened is closed again |

## Left out

- Discord transport (`send`, `fetch_message`, `edit`, `http.delete_message`, `attachment.to_file`, `get_channel`, `fetch_channel`): each is an outcome given to the handler, not network behaviour; the allowed-mentions policy sent with every send and edit is not represented.
- Async interleaving: handlers run sequentially; the check-then-insert race of handlers.py:84-100 is covered only by the unique `_id` (`Store.SecondInsertRefused`).
- Mapping-collection failures of `find_one` and `delete_one` are not modelled (they are treated as always answering); `insert_one` failures are.
- `f.close()` raising: handlers.py and bot.py swallow it; the model counts the file as released.
- The `print` diagnostics in the `except` branches: output only.
- db.py, config.py, logging_config.py, and bot.py's environment validation, `init_mongo`, `on_ready` and `main`: client-library setup, environment parsing and process start-up, outside the mirroring logic.
- Message contents of fetched messages: a fetched parent or copy is represented by its id only.

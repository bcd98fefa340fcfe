/**
 * The mapping collection: one document per mirrored source message, whose
 * `_id` is `str(source_message_id)` and which records the id of the copy
 * in the feed channel. The collection is modelled in memory; its `_id` is
 * unique, as in the document store.
 */
module Store {
  import opened Ids
  import opened Transport

  datatype Mapping = Mapping(sourceMessageId: nat, feedMessageId: nat)

  type Mappings = map<string, Mapping>

  /** The `_id` of the mapping of message `id`: `str(id)`. */
  function Key(id: nat): string
  {
    DecimalString(id)
  }

  /** Every document sits under the key of its own source message. */
  ghost predicate Keyed(docs: Mappings)
  {
    forall k :: k in docs ==> k == Key(docs[k].sourceMessageId)
  }

  /** In a keyed collection, the document under `Key(id)` is the only one
      that belongs to message `id`. */
  lemma KeyIdentifiesMessage(docs: Mappings, id: nat)
    requires Keyed(docs)
    ensures forall k :: k in docs ==> (docs[k].sourceMessageId == id <==> k == Key(id))
  {
    forall k | k in docs
      ensures docs[k].sourceMessageId == id <==> k == Key(id)
    {
      DecimalStringInjective(docs[k].sourceMessageId, id);
    }
  }

  /** The collection after `delete_one({"_id": str(id)})`: every document of
      message `id` is gone and every other message's document is kept. */
  function Removed(docs: Mappings, id: nat): (r: Mappings)
    ensures forall k :: k in r ==> k in docs && r[k] == docs[k]
    ensures Keyed(docs) ==> Keyed(r)
    ensures Keyed(docs) ==> forall k :: k in docs ==> (k in r <==> docs[k].sourceMessageId != id)
  {
    KeysRemoved(docs, id);
    docs - {Key(id)}
  }

  lemma KeysRemoved(docs: Mappings, id: nat)
    ensures Keyed(docs) ==> forall k :: k in docs ==> (k in docs - {Key(id)} <==> docs[k].sourceMessageId != id)
  {
    if Keyed(docs) {
      KeyIdentifiesMessage(docs, id);
    }
  }

  /** What `insert_one` of a new document for message `id` yields: the
      unique `_id` refuses a second document for the same message, and
      otherwise the store answers as `outcome` says. */
  function InsertResult(docs: Mappings, id: nat, outcome: Outcome<()>): Outcome<()>
  {
    if Key(id) in docs then Fail(OtherError) else outcome
  }

  /** The collection after `insert_one` of `{str(id), id, feed}`. */
  function AfterInsert(docs: Mappings, id: nat, feed: nat, outcome: Outcome<()>): Mappings
  {
    if InsertResult(docs, id, outcome).Ok? then docs[Key(id) := Mapping(id, feed)] else docs
  }

  /** The unique `_id`: once the insert for message `id` succeeds, any later
      insert for the same message fails, whatever the store would answer,
      and leaves the first document in place. */
  lemma SecondInsertRefused(docs: Mappings, id: nat, feed1: nat, feed2: nat, o1: Outcome<()>, o2: Outcome<()>)
    requires InsertResult(docs, id, o1).Ok?
    ensures var once := AfterInsert(docs, id, feed1, o1);
      && Key(id) in once && once[Key(id)] == Mapping(id, feed1)
      && InsertResult(once, id, o2).Fail?
      && AfterInsert(once, id, feed2, o2) == once
  {
  }

  class MappingCollection {
    var docs: Mappings

    ghost predicate Valid()
      reads this
    {
      Keyed(docs)
    }

    constructor ()
      ensures Valid() && docs == map[]
    {
      docs := map[];
    }

    /** `find_one({"_id": str(id)})`: the document of message `id`, if any. */
    method FindOne(id: nat) returns (doc: Option<Mapping>)
      requires Valid()
      ensures doc.Some? <==> Key(id) in docs
      ensures doc.Some? ==> doc.value == docs[Key(id)] && doc.value.sourceMessageId == id
    {
      if Key(id) in docs {
        doc := Some(docs[Key(id)]);
        DecimalStringInjective(doc.value.sourceMessageId, id);
      } else {
        doc := None;
      }
    }

    /** `insert_one({"_id": str(id), "source_message_id": id,
        "feed_message_id": feed})`. */
    method InsertOne(id: nat, feed: nat, outcome: Outcome<()>) returns (result: Outcome<()>)
      requires Valid()
      modifies this
      ensures Valid()
      ensures result == InsertResult(old(docs), id, outcome)
      ensures docs == AfterInsert(old(docs), id, feed, outcome)
    {
      result := InsertResult(docs, id, outcome);
      if result.Ok? {
        docs := docs[Key(id) := Mapping(id, feed)];
      }
    }

    /** `delete_one({"_id": str(id)})`. */
    method DeleteOne(id: nat)
      requires Valid()
      modifies this
      ensures Valid()
      ensures docs == Removed(old(docs), id)
    {
      docs := Removed(docs, id);
    }
  }
}

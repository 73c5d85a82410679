/** The document database as the driver exposes it to the model layer: named
    collections, each a map from identifier to document. Only the writes the
    mixin issues are modelled. */
module Store {
  import opened Values
  import opened Dicts

  type Docs = map<ObjectId, Document>

  /** `db[name]`: a collection that was never written is empty. */
  function DocsOf(db: map<string, Docs>, name: string): Docs {
    if name in db then db[name] else map[]
  }

  /** `update_one({"_id": id}, {"$set": fields})` without upsert: the fields
      overwrite those of the matching document; no match changes nothing. */
  function SetFields(docs: Docs, id: ObjectId, fields: Document): (r: Docs)
    ensures r.Keys == docs.Keys
    ensures forall k :: k in docs && k != id ==> r[k] == docs[k]
    ensures id in docs ==> r[id] == Merge(docs[id], fields)
  {
    if id in docs then docs[id := docs[id] + fields] else docs
  }

  /** The document `insert_one` stores for `doc`: the driver adds `_id` when it is absent. */
  function WithId(doc: Document, id: ObjectId): (r: Document)
    ensures "_id" in r
    ensures "_id" !in doc ==> r["_id"] == VOid(id)
    ensures forall k :: k in doc ==> k in r && r[k] == doc[k]
    ensures r.Keys == doc.Keys + {"_id"}
  {
    if "_id" in doc then doc else doc["_id" := VOid(id)]
  }

  class Database {
    var collections: map<string, Docs>

    constructor ()
      ensures collections == map[]
    {
      collections := map[];
    }

    function Collection(name: string): Docs
      reads this
    {
      DocsOf(collections, name)
    }

    /** `insert_one(doc)`: the dict object is given an `_id` (a new
        identifier from the driver) when it has none, and is stored under that identifier. */
    method InsertOne(name: string, doc: Dict, newId: ObjectId)
      requires newId !in Collection(name)
      modifies this, doc
      ensures doc.entries == WithId(old(doc.entries), newId)
      ensures collections == old(collections)[name := old(Collection(name))[newId := doc.entries]]
    {
      doc.entries := WithId(doc.entries, newId);
      collections := collections[name := Collection(name)[newId := doc.entries]];
    }

    /** `update_one({"_id": id}, {"$set": fields})`. */
    method UpdateOne(name: string, id: ObjectId, fields: Document)
      modifies this
      ensures collections == old(collections)[name := SetFields(old(Collection(name)), id, fields)]
    {
      collections := collections[name := SetFields(Collection(name), id, fields)];
    }

    /** `delete_one({"_id": id})`. */
    method DeleteOne(name: string, id: ObjectId)
      modifies this
      ensures collections == old(collections)[name := old(Collection(name)) - {id}]
    {
      collections := collections[name := Collection(name) - {id}];
    }
  }
}

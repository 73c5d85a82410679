/** The CRUD mixin every model class inherits: collection lookup, the
    attribute-dictionary normalisation `to_dict`, save and delete against the
    store, the query merge of `find`/`find_one`, and pagination. */
module Base {
  import opened Values
  import opened Dicts
  import opened Store

  /** A model class: its `__collection__` (None when it declares none) and
      the attribute dictionary its constructor builds from a document
      argument, `cls(doc)`. */
  datatype ModelClass = ModelClass(collection: Option<string>, init: Option<Document> -> Document)

  /** `__get_collection_name`: the collection a class names, or
      CollectionInvalid when the class declares none. */
  function CollectionName(collection: Option<string>): (r: Result<string>)
    ensures r.Err? <==> collection.None?
    ensures r.Err? ==> r.error == CollectionInvalid
    ensures r.Ok? ==> r.value == collection.value
  {
    if collection.Some? then Ok(collection.value) else Err(CollectionInvalid)
  }

  // ---------------------------------------------------------------------------
  // to_dict

  /** `to_dict` on an attribute dictionary: a truthy `_id` is renamed to `id`
      and stringified; failing that, a truthy `id` is stringified; every other
      key keeps its value. */
  function NormalizeIds(attrs: Document): (r: Document)
    ensures Truthy(Get(attrs, "_id")) ==> "_id" !in r && "id" in r && r["id"] == VStr(Str(attrs["_id"]))
    ensures !Truthy(Get(attrs, "_id")) && Truthy(Get(attrs, "id")) ==> "id" in r && r["id"] == VStr(Str(attrs["id"]))
    ensures !Truthy(Get(attrs, "_id")) && !Truthy(Get(attrs, "id")) ==> r == attrs
    ensures r.Keys == if Truthy(Get(attrs, "_id")) then attrs.Keys - {"_id"} + {"id"} else attrs.Keys
    ensures forall k :: k in attrs && k != "_id" && k != "id" ==> r[k] == attrs[k]
    ensures Truthy(Get(r, "id")) <==> Truthy(Get(attrs, "_id")) || Truthy(Get(attrs, "id"))
    ensures r == map[] <==> attrs == map[]
  {
    if Truthy(Get(attrs, "_id")) then
      (attrs - {"_id"})["id" := VStr(Str(attrs["_id"]))]
    else if Truthy(Get(attrs, "id")) then
      attrs["id" := VStr(Str(attrs["id"]))]
    else
      attrs
  }

  /** Calling `to_dict` a second time changes nothing. */
  lemma NormalizeIdsIdempotent(attrs: Document)
    ensures NormalizeIds(NormalizeIds(attrs)) == NormalizeIds(attrs)
  {
    var r := NormalizeIds(attrs);
    if Truthy(Get(attrs, "_id")) || Truthy(Get(attrs, "id")) {
      assert !Truthy(Get(r, "_id"));
      assert r["id"].VStr?;
      assert NormalizeIds(r) == r["id" := VStr(Str(r["id"]))];
    }
  }

  // ---------------------------------------------------------------------------
  // save

  /** What a call of `save` returns and leaves behind: the instance's
      attribute dictionary and the collections of the store. */
  datatype SaveOutcome = SaveOutcome(result: Result<Option<ObjectId>>, attrs: Document, db: map<string, Docs>)

  /** `save`: an empty instance is not written (None); otherwise a truthy
      `id` updates that document with `$set` of the other fields, and anything
      else inserts the fields under a new identifier. `id` is popped from the
      instance's own dictionary on the way. */
  function SaveSpec(collection: Option<string>, attrs: Document, db: map<string, Docs>, newId: ObjectId): SaveOutcome
  {
    var data := NormalizeIds(attrs);
    if data == map[] then SaveOutcome(Ok(None), data, db)
    else match CollectionName(collection)
      case Err(e) => SaveOutcome(Err(e), data, db)
      case Ok(name) =>
        var rest := data - {"id"};
        if Truthy(Get(data, "id")) then
          match ToObjectId(data["id"], newId)
          case Err(_) => SaveOutcome(Err(SaveFailed), rest, db)
          case Ok(id) => SaveOutcome(Ok(Some(id)), rest, db[name := SetFields(DocsOf(db, name), id, rest)])
        else
          var stored := WithId(rest, newId);
          SaveOutcome(Ok(Some(newId)), stored, db[name := DocsOf(db, name)[newId := stored]])
  }

  /** The identifier value `save` finds after `to_dict`: a truthy `_id`, else `id`. */
  function IdAttribute(attrs: Document): Value {
    if Truthy(Get(attrs, "_id")) then attrs["_id"] else Get(attrs, "id")
  }

  lemma SaveEmptyDoesNothing(collection: Option<string>, db: map<string, Docs>, newId: ObjectId)
    ensures SaveSpec(collection, map[], db, newId) == SaveOutcome(Ok(None), map[], db)
  {
  }

  lemma SaveWithoutCollectionFails(attrs: Document, db: map<string, Docs>, newId: ObjectId)
    requires attrs != map[]
    ensures SaveSpec(None, attrs, db, newId) == SaveOutcome(Err(CollectionInvalid), NormalizeIds(attrs), db)
  {
  }

  /** A truthy identifier that parses selects update-by-id: only that document
      changes, the fields present overwrite, absent fields are kept, `id` itself
      is not written, and the instance loses its `id` attribute. */
  lemma SaveUpdatesById(name: string, attrs: Document, db: map<string, Docs>, newId: ObjectId)
    requires Truthy(IdAttribute(attrs))
    requires IsObjectIdString(Str(IdAttribute(attrs)))
    ensures var out := SaveSpec(Some(name), attrs, db, newId);
            var id := ParseObjectId(Str(IdAttribute(attrs))).value;
            var fields := NormalizeIds(attrs) - {"id"};
            var docs, docs' := DocsOf(db, name), DocsOf(out.db, name);
            && out.result == Ok(Some(id))
            && out.attrs == fields
            && "id" !in fields
            && docs'.Keys == docs.Keys
            && (forall k :: k in docs && k != id ==> docs'[k] == docs[k])
            && (id in docs ==> forall f :: f in fields ==> f in docs'[id] && docs'[id][f] == fields[f])
            && (id in docs ==> forall f :: f in docs[id] && f !in fields ==> f in docs'[id] && docs'[id][f] == docs[id][f])
            && (forall n :: n != name ==> DocsOf(out.db, n) == DocsOf(db, n))
  {
    var data := NormalizeIds(attrs);
    assert data["id"] == VStr(Str(IdAttribute(attrs)));
  }

  /** An identifier that is not 24 hexadecimal digits makes `save` fail
      without writing. */
  lemma SaveInvalidIdFails(name: string, attrs: Document, db: map<string, Docs>, newId: ObjectId)
    requires Truthy(IdAttribute(attrs))
    requires !IsObjectIdString(Str(IdAttribute(attrs)))
    ensures var out := SaveSpec(Some(name), attrs, db, newId);
            out.result == Err(SaveFailed) && out.db == db
  {
    var data := NormalizeIds(attrs);
    assert data["id"] == VStr(Str(IdAttribute(attrs)));
  }

  /** Without a truthy identifier, `save` adds exactly one document, under the
      new identifier, holding every attribute but `id`, and returns that
      identifier; every existing document is unchanged. */
  lemma SaveInsertsNewDocument(name: string, attrs: Document, db: map<string, Docs>, newId: ObjectId)
    requires attrs != map[]
    requires !Truthy(IdAttribute(attrs))
    requires newId !in DocsOf(db, name)
    ensures var out := SaveSpec(Some(name), attrs, db, newId);
            var docs, docs' := DocsOf(db, name), DocsOf(out.db, name);
            && out.result == Ok(Some(newId))
            && docs'.Keys == docs.Keys + {newId}
            && |docs'| == |docs| + 1
            && (forall k :: k in docs ==> docs'[k] == docs[k])
            && "id" !in docs'[newId]
            && (forall f :: f in attrs && f != "id" ==> f in docs'[newId] && docs'[newId][f] == attrs[f])
            && ("_id" !in attrs ==> docs'[newId]["_id"] == VOid(newId))
            && (forall n :: n != name ==> DocsOf(out.db, n) == DocsOf(db, n))
  {
    var docs := DocsOf(db, name);
    assert DocsOf(SaveSpec(Some(name), attrs, db, newId).db, name).Keys == docs.Keys + {newId};
    assert |docs.Keys + {newId}| == |docs.Keys| + 1;
  }

  /** The finding: an instance loaded with identifier `o` and saved twice is
      written twice, as an update of `o` and then as a second, new document,
      because the first save popped `id` out of the instance. */
  lemma SaveTwiceInsertsDuplicate(name: string, attrs: Document, db: map<string, Docs>, o: ObjectId, newId: ObjectId)
    requires "_id" !in attrs && "id" in attrs && attrs["id"] == VOid(o)
    requires "name" in attrs
    requires o in DocsOf(db, name) && newId !in DocsOf(db, name)
    ensures var first := SaveSpec(Some(name), attrs, db, newId);
            var second := SaveSpec(Some(name), first.attrs, first.db, newId);
            && first.result == Ok(Some(o))
            && second.result == Ok(Some(newId))
            && newId != o
            && |DocsOf(second.db, name)| == |DocsOf(db, name)| + 1
  {
    ObjectIdRoundTrip(o);
    var first := SaveSpec(Some(name), attrs, db, newId);
    assert first.attrs == NormalizeIds(attrs) - {"id"};
    assert "name" in first.attrs;
    SaveInsertsNewDocument(name, first.attrs, first.db, newId);
  }

  /** `save` as evidently intended: identical to SaveSpec, except that an
      update leaves the instance's identifier in place. */
  function SaveKeepingId(collection: Option<string>, attrs: Document, db: map<string, Docs>, newId: ObjectId): SaveOutcome
  {
    var out := SaveSpec(collection, attrs, db, newId);
    var data := NormalizeIds(attrs);
    if out.result.Ok? && Truthy(Get(data, "id")) then out.(attrs := data) else out
  }

  lemma SetFieldsTwice(docs: Docs, id: ObjectId, fields: Document)
    ensures SetFields(SetFields(docs, id, fields), id, fields) == SetFields(docs, id, fields)
  {
    if id in docs {
      var d := docs[id];
      assert d + fields + fields == d + fields;
    }
  }

  /** With the identifier kept, saving again returns the same identifier and
      leaves the store as the first save left it (an instance with no falsy
      `_id` attribute, whose first save succeeded). */
  lemma SaveKeepingIdIsStable(name: string, attrs: Document, db: map<string, Docs>, newId: ObjectId, newId2: ObjectId)
    requires "_id" in attrs ==> Truthy(attrs["_id"])
    requires newId !in DocsOf(db, name)
    requires SaveKeepingId(Some(name), attrs, db, newId).result.Ok?
    ensures var first := SaveKeepingId(Some(name), attrs, db, newId);
            var second := SaveKeepingId(Some(name), first.attrs, first.db, newId2);
            second.result == first.result && second.db == first.db
  {
    var data := NormalizeIds(attrs);
    var first := SaveKeepingId(Some(name), attrs, db, newId);
    if data == map[] {
      assert first.attrs == map[];
    } else if Truthy(Get(data, "id")) {
      var id := ToObjectId(data["id"], newId).value;
      var rest := data - {"id"};
      assert first.attrs == data;
      NormalizeIdsIdempotent(attrs);
      ParseRenderParse(data["id"].s);
      assert ToObjectId(data["id"], newId2) == Ok(id);
      SetFieldsTwice(DocsOf(db, name), id, rest);
      assert first.db[name] == SetFields(DocsOf(db, name), id, rest);
    } else {
      var stored := WithId(data - {"id"}, newId);
      assert "_id" !in data;
      assert first.attrs == stored && stored["_id"] == VOid(newId);
      var data2 := NormalizeIds(stored);
      assert data2 == (stored - {"_id"})["id" := VStr(newId.hex)];
      ObjectIdRoundTrip(newId);
      assert ToObjectId(data2["id"], newId2) == Ok(newId);
      var docs1: Docs := DocsOf(first.db, name);
      assert docs1[newId] == stored;
      assert stored + (data2 - {"id"}) == stored;
      assert SetFields(docs1, newId, data2 - {"id"}) == docs1;
      var out2 := SaveSpec(Some(name), stored, first.db, newId2);
      assert out2.result == Ok(Some(newId));
      assert out2.db == first.db[name := docs1];
      assert name in first.db && first.db[name] == docs1;
    }
  }

  // ---------------------------------------------------------------------------
  // delete

  datatype DeleteOutcome = DeleteOutcome(result: Result<()>, attrs: Document, db: map<string, Docs>)

  /** `delete`: an empty instance is not deleted; otherwise `id` is popped (a
      KeyError when absent), a falsy `id` falls back to a popped `_id`, the
      value is converted to an ObjectId (None yields a new identifier) and the
      document with that identifier is removed. */
  function DeleteSpec(collection: Option<string>, attrs: Document, db: map<string, Docs>, newId: ObjectId): DeleteOutcome
  {
    var data := NormalizeIds(attrs);
    if data == map[] then DeleteOutcome(Ok(()), data, db)
    else if "id" !in data then DeleteOutcome(Err(KeyError("id")), data, db)
    else
      var rest := data - {"id"};
      var fallback := !Truthy(data["id"]) && "_id" in rest;
      var v := if fallback then rest["_id"] else data["id"];
      var left := if fallback then rest - {"_id"} else rest;
      match ToObjectId(v, newId)
      case Err(e) => DeleteOutcome(Err(e), left, db)
      case Ok(id) =>
        match CollectionName(collection)
        case Err(e) => DeleteOutcome(Err(e), left, db)
        case Ok(name) => DeleteOutcome(Ok(()), left, db[name := DocsOf(db, name) - {id}])
  }

  lemma DeleteEmptyDoesNothing(collection: Option<string>, db: map<string, Docs>, newId: ObjectId)
    ensures DeleteSpec(collection, map[], db, newId) == DeleteOutcome(Ok(()), map[], db)
  {
  }

  /** An instance with neither `id` nor a truthy `_id` raises KeyError and
      leaves the store alone. */
  lemma DeleteWithoutIdFails(collection: Option<string>, attrs: Document, db: map<string, Docs>, newId: ObjectId)
    requires attrs != map[] && "id" !in attrs && !Truthy(Get(attrs, "_id"))
    ensures DeleteSpec(collection, attrs, db, newId) == DeleteOutcome(Err(KeyError("id")), attrs, db)
  {
  }

  /** An instance whose identifier (a truthy `_id`, else a truthy `id`)
      converts to `o`, whether it is an ObjectId or its string, removes exactly
      the document `o`; every other document and every other collection is
      unchanged. */
  lemma DeleteRemovesOnlyItsDocument(name: string, attrs: Document, db: map<string, Docs>, o: ObjectId, newId: ObjectId)
    requires Truthy(IdAttribute(attrs))
    requires ParseObjectId(Str(IdAttribute(attrs))) == Some(o)
    ensures var out := DeleteSpec(Some(name), attrs, db, newId);
            var docs, docs' := DocsOf(db, name), DocsOf(out.db, name);
            && out.result == Ok(())
            && o !in docs'
            && docs'.Keys == docs.Keys - {o}
            && (forall k :: k in docs' ==> docs'[k] == docs[k])
            && (forall n :: n != name ==> DocsOf(out.db, n) == DocsOf(db, n))
  {
    assert NormalizeIds(attrs)["id"] == VStr(Str(IdAttribute(attrs)));
  }

  /** An identifier that is not 24 hexadecimal digits makes `delete` raise
      InvalidId after popping it, before the store is reached. */
  lemma DeleteInvalidIdFails(collection: Option<string>, attrs: Document, db: map<string, Docs>, newId: ObjectId)
    requires Truthy(IdAttribute(attrs))
    requires !IsObjectIdString(Str(IdAttribute(attrs)))
    ensures var out := DeleteSpec(collection, attrs, db, newId);
            && out.result == Err(InvalidId)
            && out.attrs == NormalizeIds(attrs) - {"id"}
            && out.db == db
  {
    assert NormalizeIds(attrs)["id"] == VStr(Str(IdAttribute(attrs)));
  }

  /** An unsaved instance (`id` None, no `_id`) converts None to a new
      identifier, which matches nothing: the store is unchanged. */
  lemma DeleteUnsavedDoesNothing(name: string, attrs: Document, db: map<string, Docs>, newId: ObjectId)
    requires "id" in attrs && attrs["id"] == VNone && "_id" !in attrs
    requires newId !in DocsOf(db, name)
    ensures var out := DeleteSpec(Some(name), attrs, db, newId);
            out.result == Ok(()) && DocsOf(out.db, name) == DocsOf(db, name)
  {
    assert DocsOf(db, name) - {newId} == DocsOf(db, name);
  }

  /** Deleting an instance right after `save` inserted it undoes the insert. */
  lemma SaveThenDeleteRestores(name: string, attrs: Document, db: map<string, Docs>, newId: ObjectId, newId2: ObjectId)
    requires attrs != map[]
    requires !Truthy(IdAttribute(attrs)) && "_id" !in attrs
    requires newId !in DocsOf(db, name)
    ensures var saved := SaveSpec(Some(name), attrs, db, newId);
            var deleted := DeleteSpec(Some(name), saved.attrs, saved.db, newId2);
            && saved.result == Ok(Some(newId))
            && deleted.result == Ok(())
            && DocsOf(deleted.db, name) == DocsOf(db, name)
  {
    var saved := SaveSpec(Some(name), attrs, db, newId);
    var stored := WithId(NormalizeIds(attrs) - {"id"}, newId);
    assert saved.attrs == stored;
    assert IdAttribute(stored) == VOid(newId);
    ObjectIdRoundTrip(newId);
    DeleteRemovesOnlyItsDocument(name, stored, saved.db, newId, newId2);
    assert DocsOf(saved.db, name) - {newId} == DocsOf(db, name);
  }

  // ---------------------------------------------------------------------------
  // The instance

  /** A model instance: the class's `__collection__` and the instance's own
      attribute dictionary, `__dict__`, which `to_dict`, `save` and `delete`
      change in place. */
  class Instance {
    const collection: Option<string>
    const attrs: Dict

    constructor (collection: Option<string>, init: Document)
      ensures this.collection == collection
      ensures fresh(attrs) && attrs.entries == init
    {
      this.collection := collection;
      attrs := new Dict(init);
    }

    /** `to_dict`: returns the instance's own dictionary, normalised in place. */
    method ToDict() returns (data: Dict)
      modifies attrs
      ensures data == attrs
      ensures attrs.entries == NormalizeIds(old(attrs.entries))
    {
      data := attrs;
      if data.entries != map[] && "_id" in data.entries && Truthy(Get(data.entries, "_id")) {
        var v := data.Pop("_id");
        data.Set("id", VStr(Str(v.value)));
      } else if data.entries != map[] && "id" in data.entries && Truthy(Get(data.entries, "id")) {
        var v := data.Pop("id");
        data.Set("id", VStr(Str(v.value)));
      }
    }

    /** `save`, with `newId` the identifier the driver assigns on insert. */
    method Save(db: Database, newId: ObjectId) returns (r: Result<Option<ObjectId>>)
      requires collection.Some? ==> newId !in db.Collection(collection.value)
      modifies attrs, db
      ensures var out := SaveSpec(collection, old(attrs.entries), old(db.collections), newId);
              r == out.result && attrs.entries == out.attrs && db.collections == out.db
    {
      var data := ToDict();
      if data.entries == map[] {
        return Ok(None);
      }
      var col := CollectionName(collection);
      if col.Err? {
        return Err(col.error);
      }
      if "id" in data.entries {
        var id := data.Pop("id");
        if Truthy(id.value) {
          var oid := ToObjectId(id.value, newId);
          if oid.Err? {
            return Err(SaveFailed);
          }
          db.UpdateOne(col.value, oid.value, data.entries);
          return Ok(Some(oid.value));
        }
      }
      db.InsertOne(col.value, data, newId);
      return Ok(Some(newId));
    }

    /** `delete`, with `newId` the identifier `ObjectId(None)` generates. */
    method Delete(db: Database, newId: ObjectId) returns (r: Result<()>)
      modifies attrs, db
      ensures var out := DeleteSpec(collection, old(attrs.entries), old(db.collections), newId);
              r == out.result && attrs.entries == out.attrs && db.collections == out.db
    {
      var data := ToDict();
      if data.entries == map[] {
        return Ok(());
      }
      var popped := data.Pop("id");
      if popped.None? {
        return Err(KeyError("id"));
      }
      var id := popped.value;
      if !Truthy(id) && "_id" in data.entries {
        var fallback := data.Pop("_id");
        id := fallback.value;
      }
      var oid := ToObjectId(id, newId);
      if oid.Err? {
        return Err(oid.error);
      }
      var col := CollectionName(collection);
      if col.Err? {
        return Err(col.error);
      }
      db.DeleteOne(col.value, oid.value);
      return Ok(());
    }
  }

  // ---------------------------------------------------------------------------
  // find / find_one

  datatype Found = Objects(items: seq<Instance>) | Raw(docs: seq<Document>)

  /** `find`: the query (None read as `{}`) is updated in place with the
      keyword arguments, the class's collection is looked up, and the driver's
      answer to the merged query is returned as documents or as instances. */
  method Find(cls: ModelClass, query: Dict?, objects: bool, kwargs: Document, driver: Document -> seq<Document>)
    returns (r: Result<Found>)
    modifies query
    ensures query != null && old(query.entries) != map[] ==> query.entries == Merge(old(query.entries), kwargs)
    ensures query != null && old(query.entries) == map[] ==> query.entries == map[]
    ensures r.Err? <==> cls.collection.None?
    ensures r.Err? ==> r.error == CollectionInvalid
    ensures var answer := driver(Merge(old(if query == null then map[] else query.entries), kwargs));
            && (r.Ok? && !objects ==> r.value == Raw(answer))
            && (r.Ok? && objects ==>
                  && r.value.Objects?
                  && |r.value.items| == |answer|
                  && (forall i :: 0 <= i < |answer| ==>
                        && fresh(r.value.items[i].attrs)
                        && r.value.items[i].collection == cls.collection
                        && r.value.items[i].attrs.entries == cls.init(Some(answer[i])))
                  && (forall i, j :: 0 <= i < j < |answer| ==> r.value.items[i].attrs != r.value.items[j].attrs))
  {
    var q := OrEmptyUpdate(query, kwargs);
    var col := CollectionName(cls.collection);
    if col.Err? {
      return Err(col.error);
    }
    var result := driver(q.entries);
    if !objects {
      return Ok(Raw(result));
    }
    var items: seq<Instance> := [];
    ghost var merged := q.entries;
    ghost var caller := if query == null then map[] else query.entries;
    for i := 0 to |result|
      invariant q.entries == merged
      invariant query != null ==> query.entries == caller
      invariant |items| == i
      invariant forall j :: 0 <= j < i ==>
                  && fresh(items[j].attrs)
                  && items[j].collection == cls.collection
                  && items[j].attrs.entries == cls.init(Some(result[j]))
      invariant forall j, k :: 0 <= j < k < i ==> items[j].attrs != items[k].attrs
    {
      var item := new Instance(cls.collection, cls.init(Some(result[i])));
      items := items + [item];
    }
    return Ok(Objects(items));
  }

  datatype FoundOne = Object(item: Instance) | RawOne(doc: Option<Document>)

  /** `find_one`: the same query merge; with `objects` the class is
      constructed even from a missing match, `cls(None)`. */
  method FindOne(cls: ModelClass, query: Dict?, objects: bool, kwargs: Document, driver: Document -> Option<Document>)
    returns (r: Result<FoundOne>)
    modifies query
    ensures query != null && old(query.entries) != map[] ==> query.entries == Merge(old(query.entries), kwargs)
    ensures query != null && old(query.entries) == map[] ==> query.entries == map[]
    ensures r.Err? <==> cls.collection.None?
    ensures r.Err? ==> r.error == CollectionInvalid
    ensures var answer := driver(Merge(old(if query == null then map[] else query.entries), kwargs));
            && (r.Ok? && !objects ==> r.value == RawOne(answer))
            && (r.Ok? && objects ==>
                  && r.value.Object?
                  && fresh(r.value.item.attrs)
                  && r.value.item.collection == cls.collection
                  && r.value.item.attrs.entries == cls.init(answer))
  {
    var q := OrEmptyUpdate(query, kwargs);
    var col := CollectionName(cls.collection);
    if col.Err? {
      return Err(col.error);
    }
    var result := driver(q.entries);
    if !objects {
      return Ok(RawOne(result));
    }
    var item := new Instance(cls.collection, cls.init(result));
    return Ok(Object(item));
  }

  // ---------------------------------------------------------------------------
  // query_paginate

  datatype Stage =
    | Match(filter: Document)
    | Sort(key: string, direction: int)
    | Skip(count: int)
    | Limit(count: int)

  /** The record `query_paginate` returns: `{count, page, limit, d}`. */
  datatype Page = Page(count: nat, page: int, limit: int, d: seq<Document>)

  /** `int(page) if page else 1`. */
  function PageNumber(page: Option<int>): (p: int)
    ensures page.None? || page.value == 0 ==> p == 1
    ensures page.Some? && page.value != 0 ==> p == page.value
  {
    if page.Some? && page.value != 0 then page.value else 1
  }

  /** The `t` filter added when both dates are given. */
  function TimeRange(sdate: Value, edate: Value): Value {
    VDoc(map["$gte" := sdate, "$lte" := edate])
  }

  /** The match filter: the query with `t` set to the date range only when both
      dates are truthy and the query has no `t` of its own. */
  function PageFilter(query: Document, sdate: Value, edate: Value): (f: Document)
    ensures forall k :: k in query ==> k in f && f[k] == query[k]
    ensures f.Keys == if Truthy(sdate) && Truthy(edate) then query.Keys + {"t"} else query.Keys
    ensures "t" in f && "t" !in query ==> f["t"] == TimeRange(sdate, edate)
  {
    if Truthy(sdate) && Truthy(edate) && "t" !in query then query["t" := TimeRange(sdate, edate)] else query
  }

  predicate IsPagePipeline(p: seq<Stage>) {
    |p| == 4 && p[0].Match? && p[1] == Sort("t", -1) && p[2].Skip? && p[3].Limit?
  }

  /** The aggregation pipeline: `$match`, `$sort {t: -1}`, `$skip`, `$limit`, in that order. */
  function PagePipeline(filter: Document, skip: int, limit: int): (p: seq<Stage>)
    ensures IsPagePipeline(p)
    ensures p[0].filter == filter && p[2].count == skip && p[3].count == limit
  {
    [Match(filter), Sort("t", -1), Skip(skip), Limit(limit)]
  }

  function Min(a: int, b: int): int {
    if a < b then a else b
  }

  /** `$skip` then `$limit` over the matched documents in `t`-descending order;
      the server rejects a negative skip and a limit that is not positive. */
  function PageSlice(sorted: seq<Document>, skip: int, limit: int): (r: Result<seq<Document>>)
    ensures r.Err? <==> skip < 0 || limit <= 0
    ensures r.Ok? ==> |r.value| <= limit
    ensures r.Ok? ==> |r.value| == if skip >= |sorted| then 0 else Min(limit, |sorted| - skip)
    ensures r.Ok? ==> forall i :: 0 <= i < |r.value| ==> r.value[i] == sorted[skip + i]
  {
    if skip < 0 || limit <= 0 then Err(StageRejected)
    else if skip >= |sorted| then Ok([])
    else Ok(sorted[skip..Min(skip + limit, |sorted|)])
  }

  /** The server running the pagination pipeline, where `ordered(f)` is the
      collection's documents matching `f` in `t`-descending order. */
  function Aggregate(p: seq<Stage>, ordered: Document -> seq<Document>): Result<seq<Document>>
    requires IsPagePipeline(p)
  {
    PageSlice(ordered(p[0].filter), p[2].count, p[3].count)
  }

  /** `query_paginate` over a query dictionary's contents. */
  function Paginate(collection: Option<string>, query: Document, page: Option<int>, limit: int,
                    sdate: Value, edate: Value, ordered: Document -> seq<Document>): (r: Result<Page>)
    ensures collection.None? ==> r == Err(CollectionInvalid)
    ensures collection.Some? ==> (r.Err? <==> (PageNumber(page) - 1) * limit < 0 || limit <= 0)
    ensures r.Ok? ==> var filter := PageFilter(query, sdate, edate);
                      var skip := (PageNumber(page) - 1) * limit;
                      && r.value.page == PageNumber(page)
                      && r.value.limit == limit
                      && r.value.count == |ordered(filter)|
                      && |r.value.d| <= limit
                      && Ok(r.value.d) == PageSlice(ordered(filter), skip, limit)
  {
    var p := PageNumber(page);
    var filter := PageFilter(query, sdate, edate);
    var pipeline := PagePipeline(filter, (p - 1) * limit, limit);
    if collection.None? then Err(CollectionInvalid)
    else match Aggregate(pipeline, ordered)
      case Err(e) => Err(e)
      case Ok(d) => Ok(Page(|ordered(filter)|, p, limit, d))
  }

  /** `query_paginate`: the caller's non-empty query dictionary receives the
      `t` filter in place. */
  method QueryPaginate(cls: ModelClass, query: Dict?, page: Option<int>, limit: int,
                       sdate: Value, edate: Value, ordered: Document -> seq<Document>)
    returns (r: Result<Page>)
    modifies query
    ensures r == Paginate(cls.collection, old(if query == null then map[] else query.entries), page, limit, sdate, edate, ordered)
    ensures query != null && old(query.entries) != map[] ==> query.entries == PageFilter(old(query.entries), sdate, edate)
    ensures query != null && old(query.entries) == map[] ==> query.entries == map[]
  {
    var q := OrEmpty(query);
    var p := PageNumber(page);
    var skip := (p - 1) * limit;
    if Truthy(sdate) && Truthy(edate) {
      q.SetDefault("t", TimeRange(sdate, edate));
    }
    var pipeline := PagePipeline(q.entries, skip, limit);
    var col := CollectionName(cls.collection);
    if col.Err? {
      return Err(col.error);
    }
    var datas := Aggregate(pipeline, ordered);
    if datas.Err? {
      return Err(datas.error);
    }
    var count := |ordered(q.entries)|;
    r := Ok(Page(count, p, limit, datas.value));
  }

  /** A defaulted or positive page with a non-negative limit never skips backwards. */
  lemma PageSkipNonNegative(page: Option<int>, limit: int)
    requires page.None? || page.value >= 0
    requires limit >= 0
    ensures PageNumber(page) >= 1
    ensures (PageNumber(page) - 1) * limit >= 0
  {
  }

  /** The first page holds the first `limit` matches, and `count` all of them. */
  lemma FirstPage(name: string, query: Document, limit: int, sdate: Value, edate: Value, ordered: Document -> seq<Document>)
    requires limit > 0
    ensures var r := Paginate(Some(name), query, None, limit, sdate, edate, ordered);
            var all := ordered(PageFilter(query, sdate, edate));
            && r.Ok?
            && r.value.count == |all|
            && r.value.d == all[..Min(limit, |all|)]
  {
    var all := ordered(PageFilter(query, sdate, edate));
    var r := Paginate(Some(name), query, None, limit, sdate, edate, ordered);
    assert r.value.d == PageSlice(all, 0, limit).value;
  }

  /** A page past the last match is empty while `count` still reports every match. */
  lemma PastLastPage(name: string, query: Document, page: int, limit: int, sdate: Value, edate: Value, ordered: Document -> seq<Document>)
    requires page >= 1 && limit > 0
    requires (page - 1) * limit >= |ordered(PageFilter(query, sdate, edate))|
    ensures var r := Paginate(Some(name), query, Some(page), limit, sdate, edate, ordered);
            r.Ok? && r.value.d == [] && r.value.count == |ordered(PageFilter(query, sdate, edate))|
  {
    assert (page - 1) * limit >= 0;
  }

  /** Two consecutive pages are one contiguous run of the ordered matches. */
  lemma ConsecutiveSlices(sorted: seq<Document>, skip: int, limit: int)
    requires skip >= 0 && limit > 0
    ensures var lo, mid, hi := Min(skip, |sorted|), Min(skip + limit, |sorted|), Min(skip + 2 * limit, |sorted|);
            PageSlice(sorted, skip, limit).value + PageSlice(sorted, skip + limit, limit).value == sorted[lo..hi]
  {
    var lo, mid, hi := Min(skip, |sorted|), Min(skip + limit, |sorted|), Min(skip + 2 * limit, |sorted|);
    assert PageSlice(sorted, skip, limit).value == sorted[lo..mid];
    assert PageSlice(sorted, skip + limit, limit).value == sorted[mid..hi];
    assert sorted[lo..mid] + sorted[mid..hi] == sorted[lo..hi];
  }

  lemma ConsecutivePages(name: string, query: Document, page: int, limit: int, sdate: Value, edate: Value, ordered: Document -> seq<Document>)
    requires page >= 1 && limit > 0
    ensures var all := ordered(PageFilter(query, sdate, edate));
            var r1 := Paginate(Some(name), query, Some(page), limit, sdate, edate, ordered);
            var r2 := Paginate(Some(name), query, Some(page + 1), limit, sdate, edate, ordered);
            && r1.Ok? && r2.Ok?
            && r1.value.d + r2.value.d == all[Min((page - 1) * limit, |all|)..Min((page + 1) * limit, |all|)]
  {
    var skip := (page - 1) * limit;
    assert skip >= 0 by { PageSkipNonNegative(Some(page), limit); }
    assert page * limit == skip + limit;
    assert (page + 1) * limit == skip + 2 * limit;
    ConsecutiveSlices(ordered(PageFilter(query, sdate, edate)), skip, limit);
  }
}

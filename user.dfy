/** The `User` model: collection `users`, and a constructor that projects a
    document onto four attributes. */
module User {
  import opened Values
  import opened Dicts
  import opened Store
  import opened Base

  /** The attributes a User has, and so the keys `to_dict` gives for one. */
  const UserAttributes: set<string> := {"id", "name", "age", "sex"}

  /** The attribute dictionary `User(data)` builds: `id` from the document's
      `_id`, and `name`, `age`, `sex` from the same-named keys, None where a
      key is missing. */
  function UserFields(data: Document): (r: Document)
    ensures r.Keys == UserAttributes
    ensures r["id"] == Get(data, "_id")
    ensures forall k :: k in UserAttributes && k != "id" ==> r[k] == Get(data, k)
  {
    map["id" := Get(data, "_id"), "name" := Get(data, "name"), "age" := Get(data, "age"), "sex" := Get(data, "sex")]
  }

  /** The class as the mixin's class methods see it; `cls(None)` reads None as `{}`. */
  const UserClass: ModelClass := ModelClass(Some("users"), (data: Option<Document>) => UserFields(Contents(data)))

  /** `User(data, **kwargs)`: a non-empty `data` dict is updated in place with
      the keyword arguments, then the four attributes are assigned. */
  method NewUser(data: Dict?, kwargs: Document) returns (u: Instance)
    modifies data
    ensures fresh(u) && fresh(u.attrs)
    ensures u.collection == Some("users")
    ensures u.attrs.entries == UserFields(Merge(if data == null then map[] else old(data.entries), kwargs))
    ensures data != null && old(data.entries) != map[] ==> data.entries == Merge(old(data.entries), kwargs)
    ensures data != null && old(data.entries) == map[] ==> data.entries == map[]
  {
    var d := OrEmptyUpdate(data, kwargs);
    u := new Instance(Some("users"), map[]);
    u.attrs.Set("id", Get(d.entries, "_id"));
    u.attrs.Set("name", Get(d.entries, "name"));
    u.attrs.Set("age", Get(d.entries, "age"));
    u.attrs.Set("sex", Get(d.entries, "sex"));
  }

  /** A document's own `id` key is ignored: only `_id` fills the attribute. */
  lemma UserIdOnlyFromUnderscoreId(data: Document, v: Value)
    requires "_id" !in data
    ensures UserFields(data["id" := v])["id"] == VNone
  {
  }

  /** Keyword arguments win over the same keys of `data`: an `_id` keyword
      sets `id`, and a `name`, `age` or `sex` keyword sets that attribute. */
  lemma KeywordsOverrideData(data: Document, kwargs: Document)
    ensures forall k :: k in UserAttributes && k != "id" && k in kwargs ==> UserFields(Merge(data, kwargs))[k] == kwargs[k]
    ensures "_id" in kwargs ==> UserFields(Merge(data, kwargs))["id"] == kwargs["_id"]
  {
  }

  /** `find_one` without a match, `User(None)`, has all four attributes None. */
  lemma UserOfNothingIsEmpty()
    ensures UserClass.init(None) == map["id" := VNone, "name" := VNone, "age" := VNone, "sex" := VNone]
  {
  }

  /** `to_dict` on a User has exactly the four attributes, with `id` the
      string form of the document's `_id` when that is truthy. */
  lemma UserToDict(data: Document)
    ensures NormalizeIds(UserFields(data)).Keys == UserAttributes
    ensures Truthy(Get(data, "_id")) ==> NormalizeIds(UserFields(data))["id"] == VStr(Str(data["_id"]))
    ensures !Truthy(Get(data, "_id")) ==> NormalizeIds(UserFields(data)) == UserFields(data)
  {
  }

  /** A User loaded from a stored document and saved unchanged updates that
      same document: `name`, `age` and `sex` are written back (as None where the
      document lacked them), so the document's User view is unchanged. */
  lemma LoadedUserSaveUpdatesItsDocument(db: map<string, Docs>, o: ObjectId, newId: ObjectId)
    requires o in DocsOf(db, "users")
    requires Get(DocsOf(db, "users")[o], "_id") == VOid(o)
    ensures var doc := DocsOf(db, "users")[o];
            var out := SaveSpec(UserClass.collection, UserFields(doc), db, newId);
            && out.result == Ok(Some(o))
            && DocsOf(out.db, "users")[o] == Merge(doc, UserFields(doc) - {"id"})
            && UserFields(DocsOf(out.db, "users")[o]) == UserFields(doc)
  {
    var doc := DocsOf(db, "users")[o];
    var attrs := UserFields(doc);
    assert IdAttribute(attrs) == VOid(o);
    ObjectIdRoundTrip(o);
    SaveUpdatesById("users", attrs, db, newId);
  }
}

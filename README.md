# mongodb-curd-model in Dafny

This project models the persistence mixin `CRUDMixin` (`model/base.py`) and
the `User` model (`model/user.py`) of a small object-document mapper over
MongoDB. Every model class inherits generic create/read/update/delete
operations, and they are modelled here:

- `to_dict` normalises an instance's attribute dictionary in place: a truthy
  `_id` becomes a string `id`, otherwise a truthy `id` is stringified.
- `save` either updates the document named by the instance's `id` with
  `$set`, or inserts the instance under a new identifier.
- `delete` removes the document named by the instance's identifier.
- `find` / `find_one` merge the query with keyword arguments in place and wrap
  the driver's answer in model instances.
- `query_paginate` builds the four-stage aggregation pipeline
  `$match` / `$sort {t: -1}` / `$skip` / `$limit` and returns
  `{count, page, limit, d}`.
- `__get_collection_name` refuses a class without `__collection__`.
- `User(data, **kwargs)` projects a document onto `id`, `name`, `age` and
  `sex`.

Files:

- `values.dfy` (module `Values`): Python values and their truthiness and
  `str()`, ObjectId identifiers (24 lower-case hexadecimal digits) with
  `ObjectId(...)` conversion, and the error kinds.
- `dicts.dfy` (module `Dicts`): a Python `dict` as a class. An instance's
  `__dict__`, a caller's query and a constructor's `data` are shared objects,
  and the code changes them in place.
- `store.dfy` (module `Store`): the database as named collections, each a map
  from ObjectId to document. Its `Database` class performs the three writes the
  mixin issues: `insert_one`, `update_one` with `$set` and no upsert, and
  `delete_one`.
- `base.dfy` (module `Base`): the mixin. `save` and `delete` are specified by
  the pure functions `SaveSpec` and `DeleteSpec`. The methods
  `Instance.Save` and `Instance.Delete` change the instance's dictionary and
  the database in place, and are proved equal to those functions. The lemmas
  about save and delete are stated over the two functions.
- `user.dfy` (module `User`): the `User` class.

The driver's reads are parameters:

- `find` / `find_one` take the driver's answer as a function of the merged
  query.
- `query_paginate` takes `ordered`, a function from a filter to the matching
  documents in `t`-descending order. `$skip`/`$limit` are then a slice of that
  sequence, and `count` is its length.
- The identifier the driver assigns on insert, and the one `ObjectId(None)`
  generates, are a parameter `newId`.

## Model

| member | source | states |
|---|---|---|
| `Values.Str` | model/base.py:151 | `str()` of a truthy value is a non-empty string (so `to_dict` keeps a truthy `id` truthy); `str()` of a string is that string; an ObjectId renders as its 24 lower-case hex digits |
| `Values.ParseObjectId` | model/base.py:108-109 | `ObjectId(s)` accepts exactly the strings of 24 hex digits of either case, and the identifier is their lower-case form |
| `Values.ToObjectId` | model/base.py:134-135 | the conversion both `save` and `delete` apply: an ObjectId is kept, None yields the new identifier, a 24-hex-digit string is parsed, any other string is InvalidId and any other type IdTypeError |
| `Values.ObjectIdRoundTrip` | model/base.py:151 | the string `to_dict` makes of an ObjectId converts back to that same ObjectId |
| `Values.ParseRenderParse` | model/base.py:108-109 | parsing an identifier string, rendering it and parsing again gives the same identifier |
| `Dicts.Merge` | model/base.py:23-24 | keyword arguments override query entries with the same key; every other query entry is kept |
| `Dicts.OrEmpty` | model/base.py:169 | `query or {}`: a non-empty dict is used itself; None or an empty dict gives a new empty dict |
| `Dicts.OrEmptyUpdate` | model/base.py:48-49 | `query = query or {}; query.update(kwargs)`: a non-empty caller dict is updated in place and used; None or an empty dict is replaced, and the caller's empty dict stays empty |
| `Store.SetFields` | model/base.py:110 | `update_one` with `$set`: only the matching document changes; its fields present in the update are overwritten, all others kept; no match changes nothing |
| `Store.WithId` | model/base.py:115 | `insert_one` stores the dict with an `_id` added when absent, every other field unchanged |
| `Store.Database.UpdateOne` | model/base.py:110 | the collection named becomes `SetFields` of its old contents; other collections unchanged |
| `Store.Database.InsertOne` | model/base.py:115 | the new identifier maps to the dict's contents plus `_id`, and the dict object itself gains that `_id` |
| `Store.Database.DeleteOne` | model/base.py:139 | removes exactly the key given from the named collection |
| `Base.CollectionName` | model/base.py:73-88 | a class without `__collection__` fails with CollectionInvalid; otherwise its collection name |
| `Base.NormalizeIds` | model/base.py:144-155 | truthy `_id`: afterwards `_id` is absent and `id == str(old _id)`; otherwise a truthy `id` becomes `str(id)`; every other key and value unchanged; a truthy `id` exists afterwards iff a truthy `_id` or `id` existed before |
| `Base.NormalizeIdsIdempotent` | model/base.py:149-155 | applying `to_dict` twice is the same as once |
| `Base.Instance.ToDict` | model/base.py:144-155 | returns the instance's own dictionary object, which is changed in place to `NormalizeIds` of its old contents |
| `Base.SaveEmptyDoesNothing` | model/base.py:97-100 | `save` of an instance with no attributes returns None and leaves the store unchanged |
| `Base.SaveWithoutCollectionFails` | model/base.py:99-101 | a non-empty instance of a class without `__collection__` fails with CollectionInvalid before any store access |
| `Base.SaveUpdatesById` | model/base.py:105-112 | a truthy identifier that parses: `save` returns it, only that document changes, present fields overwrite, absent fields are kept, `id` is not written, other collections unchanged, and the instance loses its `id` attribute |
| `Base.SaveInvalidIdFails` | model/base.py:105-119 | a truthy identifier that is not 24 hex digits makes `save` fail with the generic failure and write nothing |
| `Base.SaveInsertsNewDocument` | model/base.py:105-117 | no truthy identifier: `save` returns the new identifier, adds exactly one document, without an `id` key and holding every other attribute, with `_id` set to the new identifier; existing documents unchanged |
| `Base.Instance.Save` | model/base.py:97-119 | the returned value, the instance's dictionary and the store afterwards are exactly those `SaveSpec` gives for the old dictionary and store |
| `Base.SaveTwiceInsertsDuplicate` | model/base.py:99-112 | an instance loaded with identifier `o` and saved twice updates `o`, then inserts a second document under a new identifier (see Findings) |
| `Base.SaveKeepingIdIsStable` | model/base.py:97-117 | with the identifier kept on update, a second save returns the same identifier and leaves the store as the first save left it |
| `Base.DeleteEmptyDoesNothing` | model/base.py:126-128 | `delete` of an instance with no attributes does nothing |
| `Base.DeleteWithoutIdFails` | model/base.py:130 | an instance with no `id` and no truthy `_id` raises KeyError and leaves the store unchanged |
| `Base.DeleteRemovesOnlyItsDocument` | model/base.py:126-139 | an instance whose truthy identifier is ObjectId `o` or its string (as `to_dict` leaves it) removes exactly the document `o`; every other document and collection is unchanged |
| `Base.DeleteInvalidIdFails` | model/base.py:126-135 | a truthy identifier that is not 24 hex digits makes `delete` raise InvalidId after popping `id`, with the store untouched |
| `Base.DeleteUnsavedDoesNothing` | model/base.py:130-139 | an instance whose `id` is None (and no `_id`) converts None to a new identifier that matches nothing, so the store is unchanged |
| `Base.SaveThenDeleteRestores` | model/base.py:97-139 | deleting an instance right after `save` inserted it restores the collection to what it was before |
| `Base.Instance.Delete` | model/base.py:121-142 | the result, the instance's dictionary and the store afterwards are exactly those `DeleteSpec` gives |
| `Base.Find` | model/base.py:14-37 | the caller's non-empty query is updated in place with the keyword arguments; CollectionInvalid exactly when the class has no collection; otherwise the driver's answer to the merged query, raw or as one fresh instance per document with `cls(document)`'s attributes |
| `Base.FindOne` | model/base.py:39-57 | the same query merge; the driver's single answer, raw, or as an instance even when there is no match (`cls(None)`) |
| `Base.PageNumber` | model/base.py:172 | a missing or zero page becomes 1; any other page is kept |
| `Base.PageFilter` | model/base.py:176-177 | the `t` range `{$gte: sdate, $lte: edate}` is added only when both dates are truthy; every query entry, an existing `t` included, is left unchanged |
| `Base.PagePipeline` | model/base.py:179-189 | exactly four stages in order: `$match` filter, `$sort {t: -1}`, `$skip skip`, `$limit limit` |
| `Base.PageSlice` | model/base.py:184-188 | `$skip`/`$limit` over the ordered matches: refused for a negative skip or a non-positive limit; otherwise at most `limit` documents, element `i` being match `skip + i`, and none when the skip is past the end |
| `Base.Paginate` | model/base.py:157-198 | the result has `page` = the defaulted page, `limit`, `count` = all documents matching the filter (not the page), `d` = the page slice with skip `(page-1)*limit`, so `|d| <= limit`; CollectionInvalid without a collection |
| `Base.QueryPaginate` | model/base.py:157-198 | returns `Paginate` of the caller's query contents; a non-empty caller query receives the `t` filter in place |
| `Base.PageSkipNonNegative` | model/base.py:172-173 | for a missing or non-negative page and a non-negative limit, the page is at least 1 and the skip is non-negative |
| `Base.FirstPage` | model/base.py:172-197 | with no page given, `d` is the first `limit` matches and `count` all of them |
| `Base.PastLastPage` | model/base.py:172-197 | a page past the last match gives an empty `d` while `count` still reports every match |
| `Base.ConsecutiveSlices` | model/base.py:184-188 | two adjacent skip windows concatenate to one contiguous run of the ordered matches |
| `Base.ConsecutivePages` | model/base.py:172-189 | pages `p` and `p+1` together are matches `(p-1)*limit` up to `(p+1)*limit`, with no gap and no overlap |
| `User.UserFields` | model/user.py:12-15 | a User has exactly the attributes `id`, `name`, `age`, `sex`; `id` comes from `_id`, the others from the same-named keys, None where missing |
| `User.NewUser` | model/user.py:7-15 | a non-empty `data` dict is updated in place with the keyword arguments; the new User's attributes are `UserFields` of `data` merged with the keyword arguments, None data read as `{}` |
| `User.UserIdOnlyFromUnderscoreId` | model/user.py:12 | a document's `id` key does not reach the User's `id`, only `_id` does |
| `User.KeywordsOverrideData` | model/user.py:8-15 | a keyword argument wins over the same key of `data`: an `_id` keyword becomes `id`, and a `name`, `age` or `sex` keyword becomes that attribute |
| `User.UserOfNothingIsEmpty` | model/base.py:53-55 | `find_one` without a match constructs a User whose four attributes are all None |
| `User.UserToDict` | model/base.py:149-155 | `to_dict` on a User has exactly the keys `id`, `name`, `age`, `sex`, with `id` the string of a truthy `_id` |
| `User.LoadedUserSaveUpdatesItsDocument` | model/base.py:105-112 | a User built from a stored document and saved unchanged updates that same document, and the document's User view is unchanged |

## Findings

| source | as written | input that shows it | evidently intended | confidence | as-written member | corrected member |
|---|---|---|---|---|---|---|
| model/base.py:99-112 | `data` is the instance's own `__dict__`, so `data.pop("id")` removes the identifier from the instance before the update | a User returned by `find_one` with `id` = ObjectId `o` of a stored document, then `save()` twice | the instance keeps its identifier, and every save after the first updates `o` again | not executed; high (follows from `to_dict` returning `self.__dict__`) | `Base.SaveTwiceInsertsDuplicate` | `Base.SaveKeepingIdIsStable` |

`Instance.Save` and `SaveSpec` model the code as written. `SaveKeepingId` is the
corrected definition: it is `SaveSpec` except that an update leaves the
instance's normalised dictionary, with its `id`, in place.

## Left out

- The `MongoClient` connection and the database handle (model/base.py:9-10) are left out: this is process-global I/O. The store is the `Database` object passed in.
- MongoDB query matching, the execution of `$match` and `$sort`, and the read calls `find`, `find_one`, `count_documents` and `aggregate` are not modelled. Their answers are parameters, as functions of the filter sent.
- `count` (model/base.py:63-71) and `aggregate` (model/base.py:90-95) as separate class methods are left out: each is a collection lookup followed by one driver call. Inside `query_paginate` they appear as `Aggregate` and as the length of the ordered matches. `aggregate` has no retry loop in the code, so none is modelled.
- Base.Aggregate: only the four-stage pagination pipeline is executed; any other pipeline is outside the model.
- Base.PageSlice: the refusal of a negative `$skip` and of a `$limit` that is not positive is the MongoDB server's rule, modelled as a StageRejected error.
- Base.PageNumber: the page is an integer or None. `int()` applied to a string page is not modelled.
- The `isinstance(result, list)` check in `find` (model/base.py:31-32) is left out: `list(...)` always returns a list, so the check cannot fail.
- The `print` calls (model/base.py:111, 116, 140, 142) and the catching of `ConnectionError`/`AttributeError` are left out. They are output and connection-error plumbing.
- Generating ObjectIds (bson) is left out. The new identifier is the parameter `newId`, and `Instance.Save` requires it to be absent from the collection. The bson parser itself is not part of this model; `ParseObjectId` accepts exactly 24 hexadecimal digits.
- Base.Instance.Save: an invalid identifier string is reported as the generic failure (SaveFailed). This is the model's chosen framing: it treats the error `ObjectId(...)` raises as caught by the `ValueError` handler at model/base.py:118-119. In bson, `InvalidId` derives from `BSONError`, which derives from `Exception` and not from `ValueError`, so the real program most likely lets InvalidId escape `save` unchanged; bson is not part of this model.
- Base.SaveInvalidIdFails: states the SaveFailed framing of the line above; under bson's own exception hierarchy the error would be InvalidId. Either way nothing is written to the store. In `delete` the conversion sits outside the `try`, so there the InvalidId/IdTypeError error propagates.
- Base.SaveInsertsNewDocument: for an instance holding a falsy `_id` attribute it states the model's result, the new identifier; pymongo would return that falsy `_id` itself as `inserted_id` (see the next line).
- Base.SaveSpec: an instance holding a falsy `_id` attribute is inserted under the new identifier, with that falsy `_id` kept as a field. The server would use the falsy value itself as the identifier. An update whose `$set` would touch `_id` is applied as written; the server would refuse it.
- Values.Str: a nested document renders as `{}` or `{...}`, not as Python's `repr` of a dict, because the model's maps keep no key order. Floats, lists and datetimes are not separate value kinds.
- The module-level aggregation at model/user.py:22-26 is left out: it is an import-time side effect.
- utils/error.py is left out: it only re-exports driver exception classes.
- Concurrency is not modelled: the layer adds no coordination, and every call is modelled as one sequential step.

# Mongator save delta, document bookkeeping and identity map, in Dafny

Mongator is a PHP object-document mapper for MongoDB. This project models four parts of it.

- **The save delta (`queryForSave`).** A document tracks, for every field, the value last read
  from the database (`original`), the value it holds now (`current`) and whether it is modified.
  It also owns embedded-one children, embedded-many lists, and references stored as raw id fields.
  - A new document saves as a nested insert document. Null fields are dropped at every depth, and
    values are normalised by field type.
  - An existing document saves as `$set` / `$unset` / `$pushAll` groups with dotted paths.
  - A replaced embedded child is one `$set` (or `$unset`) at its path. A child changed in place
    is recursed into under `path.`.

  The tracked state is the value tree `Tracking.Node`, and the setters are `Tracking.Edit` values
  applied by `Tracking.Apply` / `Tracking.EditAt`. The delta is the pure function
  `Delta.QueryForSave`. General lemmas about both are in `DeltaProperties` and `Locality`. The
  test scenarios that fix the expected outputs are replayed in `SaveScenarios`,
  `ReferenceScenarios` and `EmbeddedScenarios`.
- **`Mongator\Document\Document` bookkeeping** (`Documents.Document`, a class over that tree):
  - new/existing status, the `refresh` guard, and how `save` dispatches its options;
  - the query-fields map, `isFieldInQuery`, and the `loadFull` overlay;
  - the ordered list of query hashes;
  - the fields/references cache updates (`Documents.FieldsCache`, a map from query hash to entry).
- **`Mongator\IdentityMap`** (`IdentityMaps.IdentityMap`): a map from the string serialisation of
  an id to a document.
- **The Type registry `Mongator\Type\Container`** (`Types.TypeContainer`). Its behaviour, and the
  two built-in types it starts from, are taken from its tests, which are replayed as methods.

Source paths below are relative to the repository root.

## Model

| member | source | states |
|---|---|---|
| Values.Normalize | tests/Mongator/Tests/Extension/CoreQueryForSaveTest.php:19-58 | Normalisation keeps null and only null. A string field casts to the string form, a boolean field to PHP truthiness, and a raw field keeps the value unchanged. |
| Values.NormalizeIdempotent | tests/Mongator/Tests/Extension/CoreQueryForSaveTest.php:44-45 | Normalising twice is normalising once, so a value re-set to its stored form is not a change. |
| Values.NormalizeTestValues | tests/Mongator/Tests/Extension/CoreQueryForSaveTest.php:19-58 | The test values cast as the tests expect: 123, 234, 345, 456 and 567 become their decimal strings, 1 becomes `true` for a boolean, and a string stays as it is. |
| Values.NatToStringRoundTrip | src/Mongator/IdentityMap.php:90-96 | Parsing the decimal string of a natural number gives the number back. |
| Values.IntToStringSign | src/Mongator/IdentityMap.php:90-96 | The string form of an integer is non-empty and starts with `-` exactly when the integer is negative. |
| Values.IntToStringInjective | src/Mongator/IdentityMap.php:90-96 | Distinct integers have distinct string forms. |
| Values.RemoveFirst | src/Mongator/Document/Document.php:176-181 | Removing an absent element changes nothing. Otherwise the first occurrence is dropped and the rest keep their order. |
| Values.RemoveFirstMultiset | src/Mongator/Document/Document.php:176-181 | Removing the first occurrence takes exactly one copy out of the multiset, or none when the element is absent. |
| Tracking.SetValue | tests/Mongator/Tests/Extension/CoreQueryForSaveTest.php:44-48 | A setter keeps the original value and records the new current value. The field is marked modified exactly when the normalised values differ. |
| Tracking.CreateValid | tests/Mongator/Tests/Extension/CoreQueryForSaveTest.php:21 | A freshly created document is well formed: names are distinct and every field's modified flag agrees with its values. |
| Tracking.RemoveMember | tests/Mongator/Tests/Extension/CoreQueryForSaveTest.php:282-284 | Removing a document that is in neither the saved nor the added members of an embedded-many leaves the association unchanged. |
| TrackingProperties.RemoveAddedMember | tests/Mongator/Tests/Extension/CoreQueryForSaveTest.php:282-284 | Removing an added document drops its first occurrence from the added members, in order, taking one copy out of their multiset. The saved and removed members are unchanged. |
| TrackingProperties.RemoveSavedMember | tests/Mongator/Tests/Extension/CoreQueryForSaveTest.php:293-295 | Removing a saved document that was not added takes it out of the saved members, one copy and in order, and appends it to the removed ones. The added members are unchanged. |
| TrackingProperties.RemoveUndoesAdd | tests/Mongator/Tests/Extension/CoreQueryForSaveTest.php:274-284 | Adding a document that was not yet added, then removing it, restores the association exactly. |
| Tracking.Hydrate | tests/Mongator/Tests/Extension/CoreQueryForSaveTest.php:37-43 | `setDocumentData`: every field takes the stored value (null when absent) as both original and current, unmodified. Embedded-one and embedded-many children are built from the sub-documents. Its properties are HydrateValid and HydrateClean. |
| Tracking.SetChild | tests/Mongator/Tests/Extension/CoreQueryForSaveTest.php:174-181 | An embedded-one setter always holds the new child (or none) and marks the association replaced, whatever it held before. |
| Tracking.AddMembers | tests/Mongator/Tests/Extension/CoreQueryForSaveTest.php:287-292 | `getX()->add($docs)` appends the documents to the added members, in order (see RemoveUndoesAdd). |
| Tracking.RemoveMembers | tests/Mongator/Tests/Extension/CoreQueryForSaveTest.php:293-295 | `getX()->remove($docs)` removes the documents one after another (see RemoveNeverAdded). |
| Tracking.Apply | tests/Mongator/Tests/Extension/CoreQueryForSaveTest.php:143-145 | One setter or association call on a document: field setter, embedded-one setter, or embedded-many `add` / `remove`. ApplyValid keeps the invariant. |
| Tracking.EditAt | tests/Mongator/Tests/Extension/CoreQueryForSaveTest.php:144-145 | A call made on the child reached through embedded-one getters mutates that child in place, without marking its association replaced (see EditLocal). |
| Tracking.HydrateOnes | tests/Mongator/Tests/Extension/CoreQueryForSaveTest.php:131-142 | `setDocumentData` gives every declared embedded-one exactly one association, in declaration order, none of them replaced. |
| Tracking.HydrateManys | tests/Mongator/Tests/Extension/CoreQueryForSaveTest.php:131-142 | `setDocumentData` gives every declared embedded-many one association, with nothing added or removed. |
| TrackingProperties.HydrateValid | tests/Mongator/Tests/Extension/CoreQueryForSaveTest.php:37-43 | A document filled by `setDocumentData` is well formed at every depth. |
| TrackingProperties.ApplyValid | tests/Mongator/Tests/Extension/CoreQueryForSaveTest.php:44-48 | Every setter, and every `add` / `remove` on an embedded-many, keeps a document well formed. |
| TrackingProperties.EditAtValid | tests/Mongator/Tests/Extension/CoreQueryForSaveTest.php:144-145 | An edit reached through embedded-one getters keeps the whole tree well formed. |
| TrackingProperties.SetValueRestores | tests/Mongator/Tests/Extension/CoreQueryForSaveTest.php:44-48 | Setting a field and then setting it back restores the field exactly. |
| TrackingProperties.SetValueBackToOriginal | tests/Mongator/Tests/Extension/CoreQueryForSaveTest.php:45 | Setting a field to a value that normalises to its original leaves it unmodified. |
| Delta.InsertNodes | tests/Mongator/Tests/Extension/CoreQueryForSaveTest.php:297-319 | An embedded-many inserts as a list with one document per member, in order: element k is the insert document of member k. |
| Delta.QueryForSave | tests/Mongator/Tests/Extension/CoreQueryForSaveTest.php:19-320 | A new document saves as its insert document. An existing one saves as its update's groups, or None when one of its embedded-many associations has removals or changes inside saved members. The scenario lemmas pin it down. |
| Delta.InsertDoc | tests/Mongator/Tests/Extension/CoreQueryForSaveTest.php:104-127 | The insert document is the non-null fields, then the held embedded-one children, then the non-empty embedded-many lists (see InsertDocNoNull, InsertFieldsExact). |
| Delta.UpdateDoc | tests/Mongator/Tests/Extension/CoreQueryForSaveTest.php:129-160 | The update of an existing document is the field operators, then those of the embedded-one associations, then those of the embedded-many ones, under prefix `p` (see CleanIffNoUpdate, UpdateUnder). |
| Delta.OneOps | tests/Mongator/Tests/Extension/CoreQueryForSaveTest.php:162-265 | A replaced embedded-one is set whole at its path, or unset when null. A child mutated in place contributes its own update under `path.` (see ReplaceAtDepthQuery, RemoveAtDepthQuery, EditLocal). |
| Delta.ManyOps | tests/Mongator/Tests/Extension/CoreQueryForSaveTest.php:267-324 | Added members of an existing document's embedded-many are pushed at its path. Removals or changes inside saved members give None. |
| Delta.Groups | tests/Mongator/Tests/Extension/CoreQueryForSaveTest.php:50-58 | The `$set`, `$unset` and `$pushAll` groups, in that order, each omitted when empty (see GroupsEmpty). |
| Delta.UnsetEntries | tests/Mongator/Tests/Extension/CoreQueryForSaveTest.php:55-57 | Each `$unset` path appears once, in order, with marker 1. |
| DeltaProperties.InsertFieldsExact | tests/Mongator/Tests/Extension/CoreQueryForSaveTest.php:19-32 | A new document's insert holds a field exactly when the field is not null, holding its normalised value. |
| DeltaProperties.InsertFieldsOmits | tests/Mongator/Tests/Extension/CoreQueryForSaveTest.php:19-32 | No key other than a field's name appears among the inserted fields. |
| DeltaProperties.InsertDocNoNull | tests/Mongator/Tests/Extension/CoreQueryForSaveTest.php:104-127 | No null value is written at any depth of an insert document. |
| DeltaProperties.CreateInsertsNothing | tests/Mongator/Tests/Extension/CoreQueryForSaveTest.php:21 | A new document with no setter called inserts the empty document. |
| DeltaProperties.UpdateFieldsExact | tests/Mongator/Tests/Extension/CoreQueryForSaveTest.php:34-58 | On an existing document, a field is in `$set` iff it is modified and its stored form is not null, and in `$unset` iff it is modified and its stored form is null. Fields never produce pushes. |
| DeltaProperties.UpdateFieldsOmits | tests/Mongator/Tests/Extension/CoreQueryForSaveTest.php:34-58 | A path that names no field is neither set nor unset. |
| DeltaProperties.UpdateFieldsAppend | tests/Mongator/Tests/Extension/CoreQueryForSaveTest.php:50-58 | The update of a field list is the updates of its parts joined in order. |
| DeltaProperties.JoinAssoc | tests/Mongator/Tests/Extension/CoreQueryForSaveTest.php:147-159 | Joining operator groups is associative. |
| DeltaProperties.CleanIffNoUpdate | tests/Mongator/Tests/Extension/CoreQueryForSaveTest.php:34-58 | An existing document's update is empty exactly when nothing in it, at any depth, was changed. |
| DeltaProperties.GroupsEmpty | tests/Mongator/Tests/Extension/CoreQueryForSaveTest.php:239-243 | Empty groups are omitted, so the query is empty exactly when there are no operators. |
| DeltaProperties.ExistingNoOpQuery | tests/Mongator/Tests/Extension/CoreQueryForSaveTest.php:34-58 | An existing document saves as the empty query exactly when it has no unsaved change. |
| DeltaProperties.HydrateClean | tests/Mongator/Tests/Extension/CoreQueryForSaveTest.php:37-43 | A document just filled by `setDocumentData` has no unsaved change at any depth. |
| DeltaProperties.UpdateUnder | tests/Mongator/Tests/Extension/CoreQueryForSaveTest.php:147-159 | Every path in the update of a document reached at prefix `p` starts with `p`. |
| Locality.EditLocal | tests/Mongator/Tests/Extension/CoreQueryForSaveTest.php:144-145 | In a clean document, an edit made through getters at a path updates exactly as that child would on its own, with every key prefixed by the dotted path. |
| Locality.SetFieldAtDepthQuery | tests/Mongator/Tests/Extension/CoreQueryForSaveTest.php:129-160 | Setting a field of a child at any depth of a clean document gives one `$set` of `path.field` with the normalised value, one `$unset` when that is null, or nothing when the field is unchanged. |
| Locality.ReplaceAtDepthQuery | tests/Mongator/Tests/Extension/CoreQueryForSaveTest.php:162-223 | Setting an embedded-one to a child at any depth of a clean document, whatever it held before, gives a single `$set` at its dotted path. The `$set` holds the new child's full insert document and no per-field entries. |
| Locality.RemoveAtDepthQuery | tests/Mongator/Tests/Extension/CoreQueryForSaveTest.php:225-265 | Setting an embedded-one to null at any depth of a clean document, whether or not it held a child, gives only `$unset` of its dotted path with marker 1. |
| Locality.AddEmbeddedLocal | tests/Mongator/Tests/Extension/CoreQueryForSaveTest.php:267-320 | Adding documents to an embedded-many of a clean document gives one `$pushAll` of their insert documents at its path. |
| Locality.RemoveNeverAdded | tests/Mongator/Tests/Extension/CoreQueryForSaveTest.php:282-284 | Removing documents that were never added or saved leaves an embedded-many unchanged. |
| SaveScenarios.DocumentFieldsInsert | tests/Mongator/Tests/Extension/CoreQueryForSaveTest.php:19-32 | The insert is exactly `title`, `content`, `isActive => true`, in that order, and the null `note` is left out. |
| SaveScenarios.DocumentFieldsUpdate | tests/Mongator/Tests/Extension/CoreQueryForSaveTest.php:34-58 | The update is exactly `$set` of `title => '234'` and `line`, then `$unset` of `isActive`. The re-set `content`, the never-stored null `date` and the untouched `note` produce nothing. |
| ReferenceScenarios.ReferencesOneInsert | tests/Mongator/Tests/Extension/CoreQueryForSaveTest.php:61-69 | For any author id, a new article with that author inserts exactly `author => id`. |
| ReferenceScenarios.ReferencesOneUpdate | tests/Mongator/Tests/Extension/CoreQueryForSaveTest.php:71-84 | For any stored author id and any different new one, the update is exactly `$set` of `author => new id`. |
| ReferenceScenarios.ReferencesManyInsert | tests/Mongator/Tests/Extension/CoreQueryForSaveTest.php:86-102 | For any list of category ids, a new article inserts exactly `categories =>` those ids in insertion order. |
| EmbeddedScenarios.EmbeddedsOneInsert | tests/Mongator/Tests/Extension/CoreQueryForSaveTest.php:104-127 | The insert nests `source` and `source.info` as documents, with the null `text` fields dropped at both depths and the numbers cast to strings. |
| EmbeddedScenarios.EmbeddedsOneUpdate | tests/Mongator/Tests/Extension/CoreQueryForSaveTest.php:129-160 | The update is exactly the five `$set` and two `$unset` dotted paths the test lists, in its order. |
| EmbeddedScenarios.EmbeddedsOneChange | tests/Mongator/Tests/Extension/CoreQueryForSaveTest.php:162-196 | Replacing `source` gives one `$set source` holding the new source's full insert document, nested `info` included. |
| EmbeddedScenarios.EmbeddedsOneChangeDeep | tests/Mongator/Tests/Extension/CoreQueryForSaveTest.php:197-223 | Replacing `source.info` gives one `$set source.info` holding only the non-null fields of the new info. |
| EmbeddedScenarios.EmbeddedsOneRemove | tests/Mongator/Tests/Extension/CoreQueryForSaveTest.php:225-244 | Setting `source` to null gives only `$unset source => 1`. |
| EmbeddedScenarios.EmbeddedsOneRemoveDeep | tests/Mongator/Tests/Extension/CoreQueryForSaveTest.php:246-265 | Setting `source.info` to null gives only `$unset source.info => 1`. |
| EmbeddedScenarios.EmbeddedsManyInsert | tests/Mongator/Tests/Extension/CoreQueryForSaveTest.php:267-320 | The insert lists the added comments, and inside the first comment its added infos, in insertion order. The documents removed without having been added do not appear. |
| EmbeddedScenarios.RemoveUnheld | tests/Mongator/Tests/Extension/CoreQueryForSaveTest.php:282-284 | A `remove` of a document the association never held is no edit at all. |
| Documents.IncludedFields | src/Mongator/Document/Document.php:238-244 | The query-fields map holds exactly the fields whose flag is truthy, each mapped to 1. |
| Documents.FieldInQuery | src/Mongator/Document/Document.php:249-256 | `isFieldInQuery`: every field is in the query when `queryFields` is the empty map. Otherwise a field is in it iff it is a key, and no field is when `queryFields` was never set (see QueryFieldsMeaning). |
| Documents.QueryFieldsMeaning | src/Mongator/Document/Document.php:238-256 | After `setQueryFields`, a field is in the query iff no field was included at all, or the field's own flag is truthy. |
| Documents.Document.SetQueryFields | src/Mongator/Document/Document.php:238-244 | The loop leaves `queryFields` equal to the included-fields map and changes nothing else. |
| Documents.Document.constructor | src/Mongator/Document/Document.php:25-27 | A created document is new, has a null id, a null `queryFields`, no query hashes and a fresh field tree. |
| Documents.Document.SetId | src/Mongator/Document/Document.php:48-53 | Only the id changes. |
| Documents.Document.SetIsNew | src/Mongator/Document/Document.php:74-79 | The new flag becomes the truthiness of the argument, and nothing else changes. |
| Documents.Document.Refresh | src/Mongator/Document/Document.php:102-111 | On a new document, `LogicException` is raised and nothing changes. Otherwise the fields are replaced by the fetched data with no change left unsaved. The document stays existing, and its id becomes the fetched `_id` when that is not null. |
| Documents.Document.SetDocumentData | src/Mongator/Document/Document.php:108 | The fetched data becomes the tracker state with no change left unsaved. A non-null `_id` makes the document existing with that id. Otherwise the id and the new flag are unchanged. |
| Documents.Document.Change | tests/Mongator/Tests/Extension/CoreQueryForSaveTest.php:143-145 | A setter or association call on the document, or on a child reached through embedded-one getters, is applied there. When a getter on the way returns null, `Error` is raised and nothing changes. |
| Documents.Document.Save | src/Mongator/Document/Document.php:122-136 | A new document gets an empty `queryFields`, and its options go to the batch-insert slot. An existing one keeps `queryFields`, and its options go to the update slot. The other slot is always empty. |
| Documents.ModifiedNames | src/Mongator/Document/Document.php:269-271 | The names listed are exactly the names of the modified fields. |
| Documents.WithoutLookup | src/Mongator/Document/Document.php:269-271 | After the modified keys are unset from the fetched data, a listed key is absent and every other key is as fetched. |
| Documents.UnsetKeys | src/Mongator/Document/Document.php:269-271 | The unset loop removes exactly the listed keys from the fetched data. |
| Documents.LoadFullKeepsModified | src/Mongator/Document/Document.php:261-277 | `loadFull` leaves every modified field exactly as it was. |
| Documents.LoadFullRefreshesClean | src/Mongator/Document/Document.php:261-277 | `loadFull` makes an unmodified field take the fetched value as both original and current. |
| Documents.OverlayValid | src/Mongator/Document/Document.php:273 | The overlay keeps the document well formed. |
| Documents.Document.LoadFull | src/Mongator/Document/Document.php:261-277 | The result is always true. An empty `queryFields` or a new document is left unchanged. Otherwise the fields are overlaid with the fetched data minus the modified keys, and `queryFields` becomes empty. |
| Documents.Document.AddQueryHash | src/Mongator/Document/Document.php:155-159 | The hash is appended, and nothing else changes. |
| Documents.Document.RemoveQueryHash | src/Mongator/Document/Document.php:176-181 | The first occurrence of the hash is removed and the rest keep their order. An absent hash leaves the list unchanged (corrected behaviour, see Findings). |
| Documents.RemoveQueryHashAsWritten | src/Mongator/Document/Document.php:176-181 | As written, a present hash loses its first occurrence, but an absent hash removes the first hash of the list. |
| Documents.RemoveAbsentHashAsWritten | src/Mongator/Document/Document.php:176-181 | Removing `"c"` from `["a", "b"]` as written yields `["b"]`. |
| Documents.Document.ClearQueryHashes | src/Mongator/Document/Document.php:186-189 | The list becomes empty, and nothing else changes. |
| Documents.StripIndexes | src/Mongator/Document/Document.php:200 | Removing `.<digits>` never creates a leading digit that was not there. |
| Documents.StripIndexesComplete | src/Mongator/Document/Document.php:200 | The stripped path contains no `.` followed by a digit. |
| Documents.StripIndexesFixed | src/Mongator/Document/Document.php:200 | A path with no `.<digit>` segment is left unchanged. |
| Documents.StripIndexesIdempotent | src/Mongator/Document/Document.php:200 | Stripping twice is stripping once. |
| Documents.StripIndexesSegment | src/Mongator/Document/Document.php:200 | A `.<digits>` segment after a plain name is removed whole, e.g. `comments.0.name` becomes `comments.name`. |
| Documents.UpdateEntry | src/Mongator/Document/Document.php:203-229 | A field update sets `fields[field] = 1` and keeps the references. A reference update keeps the fields and adds the reference exactly once, and only when it was absent. |
| Documents.UpdateEntryIdempotent | src/Mongator/Document/Document.php:194-231 | Applying the same cache update twice is applying it once. |
| Documents.UpdateAllSnoc | src/Mongator/Document/Document.php:202-210 | Updating one more hash updates its entry and leaves every other entry as it was. |
| Documents.ReferencesStayDistinct | src/Mongator/Document/Document.php:216-231 | When no cache entry holds a reference twice, none does after `addReferenceCache`. |
| Documents.Document.UpdateCache | src/Mongator/Document/Document.php:202-210 | The loop applies the update to the entry of every query hash. Without a cache, nothing happens. |
| Documents.Document.AddFieldCache | src/Mongator/Document/Document.php:194-211 | Every query hash's entry gets `fields[stripped path] = 1`. Without a cache, nothing changes. |
| Documents.Document.AddReferenceCache | src/Mongator/Document/Document.php:216-231 | Every query hash's entry holds the reference, added once and only when absent. Without a cache, nothing changes. |
| Documents.FieldsCache.Get | src/Mongator/Document/Document.php:203-204 | A missing entry reads as none, and a present one as its value. |
| IdentityMaps.Serialize | src/Mongator/IdentityMap.php:90-96 | Array ids and `MongoDB\BSON\ObjectID`s go through the hash. Scalars and legacy `\MongoId`s are cast to a string: an integer id's key is its decimal form, a string id's key is the string, and a `\MongoId`'s key is its hex. |
| IdentityMaps.SharedKeys | src/Mongator/IdentityMap.php:90-96 | Ids with the same string form share a key: `1`, `"1"` and `true`; a legacy `\MongoId` and its hex; null, `""` and `false`. |
| IdentityMaps.IntKeysDistinct | src/Mongator/IdentityMap.php:90-96 | Distinct integer ids never share a key. |
| IdentityMaps.IdentityMap.Has | src/Mongator/IdentityMap.php:46-48 | `has($id)`: some document is stored under the id's key. |
| IdentityMaps.IdentityMap.Get | src/Mongator/IdentityMap.php:53-55 | `get($id)`: the document stored under the id's key, for an id that `has` holds. |
| IdentityMaps.IdentityMap.All | src/Mongator/IdentityMap.php:60-62 | `all()`: the stored documents by key. |
| IdentityMaps.IdentityMap.Set | src/Mongator/IdentityMap.php:39-55 | After `set(id, d)`, `has(id)` holds and `get(id)` is `d`, replacing any earlier document under that key. Every id with another key is unaffected. |
| IdentityMaps.IdentityMap.Remove | src/Mongator/IdentityMap.php:74-76 | After `remove(id)`, `has(id)` is false. Every id with another key keeps its entry. |
| IdentityMaps.IdentityMap.Clear | src/Mongator/IdentityMap.php:81-83 | After `clear()`, `all()` is empty and `has` is false for every id. |
| Types.BuiltIns | tests/Mongator/Tests/Type/ContainerTest.php:38-75 | `string` and `float` are built in, and every built-in entry is a Type. |
| Types.TypeContainer.Has | tests/Mongator/Tests/Type/ContainerTest.php:38-42 | `has($name)`: the name is registered. |
| Types.TypeContainer.Add | tests/Mongator/Tests/Type/ContainerTest.php:44-66 | A new name for a Type class is registered. An existing name, or a class that is not a Type, raises `InvalidArgumentException` and leaves the registry unchanged. |
| Types.TypeContainer.Get | tests/Mongator/Tests/Type/ContainerTest.php:68-83 | A registered name returns its class, and an unknown name raises `InvalidArgumentException`. |
| Types.TypeContainer.Remove | tests/Mongator/Tests/Type/ContainerTest.php:85-97 | A registered name is dropped, and an unknown name raises `InvalidArgumentException` with the registry unchanged. |
| Types.TypeContainer.Reset | tests/Mongator/Tests/Type/ContainerTest.php:99-106 | The registry is exactly the built-ins again. |
| Types.HasBuiltIn | tests/Mongator/Tests/Type/ContainerTest.php:38-42 | `string` is registered and `no` is not. |
| Types.AddThenGet | tests/Mongator/Tests/Type/ContainerTest.php:44-50 | An added type is registered and returned by `get`. |
| Types.AddRefused | tests/Mongator/Tests/Type/ContainerTest.php:55-66 | Adding an existing name, or adding `DateTime`, raises `InvalidArgumentException`. |
| Types.GetBuiltInOrRefuse | tests/Mongator/Tests/Type/ContainerTest.php:68-83 | `string` and `float` return their built-in classes, and `no` raises. |
| Types.RemoveThenHas | tests/Mongator/Tests/Type/ContainerTest.php:85-97 | After removing `string` it is not registered, and removing `no` raises. |
| Types.ResetDropsAdded | tests/Mongator/Tests/Type/ContainerTest.php:99-106 | After a reset the built-ins are back and the added type is gone. |

## Left out

- The implementation of `queryForSave` lives in `Mongator\Document\AbstractDocument` and the generated model classes, which are not part of this model. The delta engine is rebuilt from the scenarios in `CoreQueryForSaveTest.php`, and every test that is not skipped is replayed as a lemma (the skipped embedded-many update test is discussed below).
- Values.Normalize: the Type classes' casting (`Mongator\Type\*`) is not part of this model. Normalisation is concrete, for three kinds only: string cast, boolean truthiness, and raw values kept as they are. Dates, floats, binary data and serialised values are not modelled.
- Database I/O is not modelled: `getRepository`, the `findOne` calls in `refresh` and `loadFull`, `Repository::save`, and `delete`. The fetched document is a parameter of `Refresh` and `LoadFull`. `Save` returns the two option slots that it would pass to the repository.
- IdentityMaps.Serialize: `md5(serialize($id))` is the parameter `hash`, applied to arrays and to `MongoDB\BSON\ObjectID`s (`Oid`, the id type of documents and scenarios), which are objects that are not `\MongoId`. Objects of other classes and float ids are not modelled.
- The identity map's `allByReference` and the Type instance cache of the container are not modelled.
- Documents are compared by value in embedded-many `remove`. PHP compares objects by identity, but the only test removes a document that was never added, which is a no-op under both rules.
- Embedded-many changes on an existing document are supported only as pure additions (`$pushAll`). Removal from, or mutation inside, an already-saved list makes `QueryForSave` return `None`. The only test of that path is skipped in the source as having conflicting operators.
- Field values are compared after normalisation by their type, and null is distinct from `false` (an `isActive` stored as `false` and set to null is unset, as the fields update test expects). The generated setters that make this comparison are not part of this model.
- Documents.Document.RemoveQueryHash and Documents.Document.AddReferenceCache compare strictly, where `array_search` (Document.php:179) and `in_array` (Document.php:226) compare loosely. The hashes and references are all strings, and PHP's loose `==` compares two numeric strings as numbers, so the source also matches distinct strings that are equal as numbers (`"10"` and `"1e1"`, `"1"` and `"01"`, any two hashes of the form `"0e<digits>"`); the model matches only identical strings.
- Documents.RemoveQueryHashAsWritten: its `hash in hashes` test is strict as well, so it models the `array_search` of Document.php:179 only for hashes that no other listed hash equals as a number; the `false`-as-key-0 defect it exhibits does not depend on that.
- The ObjectIDs of the scenarios are lemma parameters (arbitrary hex strings). Reference-many is modelled as a raw field holding the list of ids, as `updateReferenceFields` stores it.
- `src/Mongator/Type/Container.php` is not part of this model: the registry is modelled from `ContainerTest.php`, and a class is represented by its name and whether it extends `Type`. `get` returns that class where the source returns an instance of it.
- Types.BuiltIns: holds only `string` and `float`, the built-ins the tests name. The rest of the built-in list is in `Container.php`, which is not part of this model.
- `QueryDefaultFindersTest.php` (generated finders, BSON and date conversion) and the logger tests (driver wrappers, wall-clock time) are not modelled.
- Documents.Document.SetQueryFields requires distinct field names, because a PHP array cannot hold a key twice.
- `isFieldInQuery` on a document whose `queryFields` was never set (PHP `null`) answers false for every field, and `loadFull` then proceeds. This follows the code's `=== array()` test; a null `queryFields` is not treated as empty.

- Documents.Document.LoadFull: only the scalar fields are overlaid with the fetched data. The source passes the whole fetched document to the generated `setDocumentData`, which is not part of this model; whether it rebuilds embedded-one and embedded-many children held by a partially loaded document is not fixed by any test. So the model leaves the children as they were.
- Tracking.EditAt: as a function, a path through an empty embedded-one changes nothing. The PHP error for that path (a method call on null) is modelled by `Documents.Document.Change`, which raises `Error` before any edit, and every scenario only uses paths that resolve.
- The update operator for appending to an embedded-many is spelled `$pushAll`, the MongoDB operator name. The only occurrence in the source is a skipped test that spells it `$pushall`.
- Embedded-one setters always mark the association replaced, as object identity is not modelled: setting the child already held, or setting null where none is held, is still reported as a `$set` or `$unset` of its path.

## Findings

| source | as written | input that shows it | evidently intended | confidence | as-written member | corrected member |
|---|---|---|---|---|---|---|
| src/Mongator/Document/Document.php:176-181 | the key found by `array_search` is unset; for an absent hash the search gives `false`, which PHP takes as key 0, so the first hash is dropped | hashes `["a", "b"]`, remove `"c"`, gives `["b"]` | an absent hash leaves the list unchanged | not executed | Documents.RemoveAbsentHashAsWritten | Documents.Document.RemoveQueryHash |

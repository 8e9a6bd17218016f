/**
 * The save queries the Mongator test suite expects for references: a
 * reference-one is stored as the referenced document's id in a raw field, a
 * reference-many as the list of ids (written by `updateReferenceFields`).
 */
module ReferenceScenarios {
  import opened Values
  import opened Tracking
  import opened Delta
  import opened SaveScenarios
  import opened EmbeddedScenarios
  import opened DeltaProperties

  /** The ids of the referenced documents, in the order they were added. */
  function OidList(hexes: seq<string>): (v: Value)
    ensures v.List? && |v.items| == |hexes|
    ensures forall k :: 0 <= k < |hexes| ==> v.items[k] == Oid(hexes[k])
  {
    List(seq(|hexes|, k requires 0 <= k < |hexes| => Oid(hexes[k])))
  }

  /** A new article's only set field is the raw field at index k of its declaration. */
  lemma NewArticleRawSet(fs: seq<Field>, k: nat, name: string, v: Value)
    requires fs == NewArticleFields() && 5 <= k < 8 && fs[k].name == name && v != Null
    ensures SetFieldIn(fs, name, v) == fs[k := M(name, RawKind, Null, v)]
  {
  }

  lemma {:induction false} InsertOnlyRaw(fs: seq<Field>, k: nat, v: Value)
    requires k < |fs| && fs[k].kind == RawKind && fs[k].current == v && v != Null
    requires forall j :: 0 <= j < |fs| && j != k ==> fs[j].current == Null
    ensures InsertFields(fs) == [Entry(fs[k].name, BVal(v))]
    decreases |fs|
  {
    if k == 0 {
      NullFieldsInsertNothing(fs[1..]);
    } else {
      InsertOnlyRaw(fs[1..], k - 1, v);
    }
  }

  lemma {:induction false} NullFieldsInsertNothing(fs: seq<Field>)
    requires forall j :: 0 <= j < |fs| ==> fs[j].current == Null
    ensures InsertFields(fs) == []
    decreases |fs|
  {
    if fs != [] {
      NullFieldsInsertNothing(fs[1..]);
    }
  }

  /** A new article with one raw field set inserts exactly that field, unchanged. */
  lemma NewArticleRawInsert(a0: Node, k: nat, name: string, v: Value)
    requires a0 == Create(ArticleSchema) && 5 <= k < 8 && NewArticleFields()[k].name == name && v != Null
    ensures QueryForSave(true, Apply(a0, SetField(name, v))) == Some([Entry(name, BVal(v))])
  {
    NewArticle(a0);
    var fs := NewArticleFields();
    NewArticleRawSet(fs, k, name, v);
    SetFieldShape(a0, name, v);
    var n := Apply(a0, SetField(name, v));
    InsertOnlyRaw(n.fields, k, v);
    FlatInsert(n);
  }

  /** `setAuthor($author)` on a new article: the insert holds the author's id alone. */
  lemma ReferencesOneInsert(a0: Node, id: string)
    requires a0 == Create(ArticleSchema)
    ensures QueryForSave(true, Apply(a0, SetField("author", Oid(id)))) == Some([Entry("author", BVal(Oid(id)))])
  {
    NewArticleRawInsert(a0, 6, "author", Oid(id));
  }

  /** `getCategories()->add($categories)` and `updateReferenceFields()` on a new article: the insert holds the ids in order. */
  lemma ReferencesManyInsert(a0: Node, hexes: seq<string>)
    requires a0 == Create(ArticleSchema)
    ensures QueryForSave(true, Apply(a0, SetField("categories", OidList(hexes))))
            == Some([Entry("categories", BVal(OidList(hexes)))])
  {
    NewArticleRawInsert(a0, 7, "categories", OidList(hexes));
  }

  /** The stored article of the reference-one update test: an id and an author. */
  function AuthoredData(docId: string, authorId: string): seq<Entry> {
    [Entry("_id", BVal(Oid(docId))), Entry("author", BVal(Oid(authorId)))]
  }

  function AuthoredFields(authorId: string): seq<Field> {
    [F("title", StringKind, Null), F("content", StringKind, Null), F("note", StringKind, Null),
     F("line", StringKind, Null), F("isActive", BooleanKind, Null), F("date", RawKind, Null),
     F("author", RawKind, Oid(authorId)), F("categories", RawKind, Null)]
  }

  lemma AuthoredLookup(docId: string, authorId: string, key: string)
    ensures Lookup(AuthoredData(docId, authorId), key)
            == if key == "_id" then Some(BVal(Oid(docId))) else if key == "author" then Some(BVal(Oid(authorId))) else None
  {
    var e0, e1 := Entry("_id", BVal(Oid(docId))), Entry("author", BVal(Oid(authorId)));
    assert AuthoredData(docId, authorId) == [e0] + [e1];
    LookupCons(e0, [e1], key);
    assert [e1] == [e1] + [];
    LookupCons(e1, [], key);
  }

  lemma AuthoredHydrated(n: Node, docId: string, authorId: string)
    requires n == Hydrate(ArticleSchema, AuthoredData(docId, authorId))
    ensures n == Node(AuthoredFields(authorId), NoSource, NoComments)
  {
    var data := AuthoredData(docId, authorId);
    forall key | true
      ensures Lookup(data, key) == if key == "_id" then Some(BVal(Oid(docId))) else if key == "author" then Some(BVal(Oid(authorId))) else None
    {
      AuthoredLookup(docId, authorId, key);
    }
    assert StoredValue(data, "author") == Oid(authorId);
    assert n.fields == AuthoredFields(authorId);
    assert Lookup(data, "source") == None && Lookup(data, "comments") == None;
  }

  /** `setAuthor($other)` on the stored article saves as `$set author` with the new id alone. */
  lemma ReferencesOneUpdate(n: Node, docId: string, oldId: string, newId: string)
    requires n == Hydrate(ArticleSchema, AuthoredData(docId, oldId))
    requires oldId != newId
    ensures QueryForSave(false, Apply(n, SetField("author", Oid(newId))))
            == Some([Entry("$set", BDoc([Entry("author", BVal(Oid(newId)))]))])
  {
    AuthoredHydrated(n, docId, oldId);
    SetFieldShape(n, "author", Oid(newId));
    var fs := AuthoredFields(oldId);
    var changed := fs[6 := M("author", RawKind, Oid(oldId), Oid(newId))];
    assert SetFieldIn(fs, "author", Oid(newId)) == changed;
    AuthorUpdate(changed, oldId, newId);
    var m := Apply(n, SetField("author", Oid(newId)));
    assert m == Node(changed, NoSource, NoComments);
    assert !DirtyOnes(m.ones) && !DirtyManys(m.manys);
    var ops := Ops([Entry("author", BVal(Oid(newId)))], [], []);
    QueryFromFields(m, ops);
    assert Groups(ops) == [Entry("$set", BDoc(ops.sets))] + [] + [];
    assert QueryForSave(false, m) == Some(Groups(ops));
    assert Groups(ops) == [Entry("$set", BDoc([Entry("author", BVal(Oid(newId)))]))];
  }

  lemma AuthorUpdate(fs: seq<Field>, oldId: string, newId: string)
    requires fs == AuthoredFields(oldId)[6 := M("author", RawKind, Oid(oldId), Oid(newId))]
    ensures UpdateFields(fs, "") == Ops([Entry("author", BVal(Oid(newId)))], [], [])
  {
    UnmodifiedFields(fs[7..], "");
    assert "" + "author" == "author";
    assert fs[6..][1..] == fs[7..];
    assert UpdateFields(fs[6..], "") == Ops([Entry("author", BVal(Oid(newId)))], [], []);
    UnmodifiedPrefix(fs, 6, "");
  }

  /** Unmodified leading fields add nothing in front of the rest's update. */
  lemma {:induction false} UnmodifiedPrefix(fs: seq<Field>, k: nat, p: string)
    requires k <= |fs| && forall j :: 0 <= j < k ==> !fs[j].modified
    ensures UpdateFields(fs, p) == UpdateFields(fs[k..], p)
    decreases k
  {
    if k > 0 {
      UnmodifiedPrefix(fs[1..], k - 1, p);
      assert fs[1..][k - 1..] == fs[k..];
    }
  }
}

/**
 * The save queries the Mongator test suite expects, computed by the model
 * on the suite's own model classes (Article, Source, Info, Comment).
 */
module SaveScenarios {
  import opened Values
  import opened Tracking
  import opened Delta
  import opened DeltaProperties
  import opened Locality

  const InfoSchema := Schema(
    [FieldDecl("name", StringKind), FieldDecl("text", StringKind), FieldDecl("line", StringKind), FieldDecl("note", StringKind)],
    [], [])

  const SourceSchema := Schema(
    [FieldDecl("name", StringKind), FieldDecl("text", StringKind), FieldDecl("line", StringKind), FieldDecl("note", StringKind)],
    [SubDecl("info", InfoSchema)], [])

  const CommentSchema := Schema(
    [FieldDecl("name", StringKind), FieldDecl("text", StringKind), FieldDecl("note", StringKind), FieldDecl("line", StringKind)],
    [], [SubDecl("infos", InfoSchema)])

  const ArticleSchema := Schema(
    [FieldDecl("title", StringKind), FieldDecl("content", StringKind), FieldDecl("note", StringKind),
     FieldDecl("line", StringKind), FieldDecl("isActive", BooleanKind), FieldDecl("date", RawKind),
     FieldDecl("author", RawKind), FieldDecl("categories", RawKind)],
    [SubDecl("source", SourceSchema)], [SubDecl("comments", CommentSchema)])

  /** The article's embedded associations, both empty. */
  const NoSource := [One("source", None, false)]
  const NoComments := [Many("comments", [], [], [])]

  /** An unmodified field holding v as both original and current value. */
  function F(name: string, kind: Kind, v: Value): Field {
    Field(name, kind, v, v, false)
  }

  /** A modified field. */
  function M(name: string, kind: Kind, original: Value, current: Value): Field {
    Field(name, kind, original, current, true)
  }

  function S(s: string): Value {
    Str(s)
  }

  /** A document whose embedded associations are all empty inserts as its fields. */
  lemma FlatInsert(n: Node)
    requires forall k :: 0 <= k < |n.ones| ==> n.ones[k].current == None
    requires forall k :: 0 <= k < |n.manys| ==> n.manys[k].saved == [] && n.manys[k].added == []
    ensures InsertDoc(n) == InsertFields(n.fields)
  {
    CreateOnesInsertNothing(n.ones);
    CreateManysInsertNothing(n.manys);
    assert InsertFields(n.fields) + [] + [] == InsertFields(n.fields);
  }

  /** An existing document whose embedded associations are unchanged updates its fields only. */
  lemma OnlyFields(n: Node, p: string)
    requires !DirtyOnes(n.ones) && !DirtyManys(n.manys)
    ensures UpdateDoc(n, p) == Some(UpdateFields(n.fields, p))
  {
    OnesCleanIffNoUpdate(n.ones, p);
    ManysCleanIffNoUpdate(n.manys, p);
    JoinOptUnit(Some(NoOps));
    JoinOptUnit(Some(UpdateFields(n.fields, p)));
  }

  /** The saved query of an existing document whose only changes are in its own fields. */
  lemma QueryFromFields(n: Node, ops: Ops)
    requires !DirtyOnes(n.ones) && !DirtyManys(n.manys)
    requires UpdateFields(n.fields, "") == ops
    ensures QueryForSave(false, n) == Some(Groups(ops))
  {
    OnlyFields(n, "");
  }

  // ------------------------------------------------- testDocumentFieldsInsert

  /** The article after `setTitle('foo')`, `setContent('bar')`, `setNote(null)`, `setIsActive(1)`. */
  function FieldsInsertArticle(): Node {
    Apply(Apply(Apply(Apply(Create(ArticleSchema),
      SetField("title", S("foo"))), SetField("content", S("bar"))), SetField("note", Null)), SetField("isActive", Int(1)))
  }

  lemma FieldsInsertState()
    ensures FieldsInsertArticle() == Node(
      [M("title", StringKind, Null, S("foo")), M("content", StringKind, Null, S("bar")),
       F("note", StringKind, Null), F("line", StringKind, Null), M("isActive", BooleanKind, Null, Int(1)),
       F("date", RawKind, Null), F("author", RawKind, Null), F("categories", RawKind, Null)],
      NoSource, NoComments)
  {
  }

  lemma FieldsInsertFields()
    ensures InsertFields(
      [M("title", StringKind, Null, S("foo")), M("content", StringKind, Null, S("bar")),
       F("note", StringKind, Null), F("line", StringKind, Null), M("isActive", BooleanKind, Null, Int(1)),
       F("date", RawKind, Null), F("author", RawKind, Null), F("categories", RawKind, Null)])
      == FieldsInsertExpected()
  {
  }

  /** The new article inserts its non-null fields only, `isActive` cast to true and the null `note` dropped. */
  lemma DocumentFieldsInsert()
    ensures QueryForSave(true, FieldsInsertArticle()) == Some(FieldsInsertExpected())
  {
    FieldsInsertState();
    FieldsInsertFields();
    FieldsInsertQuery(FieldsInsertArticle());
  }

  function FieldsInsertExpected(): seq<Entry> {
    [Entry("title", BVal(S("foo"))), Entry("content", BVal(S("bar"))), Entry("isActive", BVal(Bool(true)))]
  }

  lemma FieldsInsertQuery(n: Node)
    requires n.ones == NoSource && n.manys == NoComments
    requires InsertFields(n.fields) == FieldsInsertExpected()
    ensures QueryForSave(true, n) == Some(FieldsInsertExpected())
  {
    FlatInsert(n);
  }

  // ------------------------------------------------- testDocumentFieldsUpdate

  const FieldsUpdateData := [
    Entry("_id", BVal(Oid("4f1e2d"))), Entry("title", BVal(S("foo"))), Entry("content", BVal(S("bar"))),
    Entry("note", BVal(S("ups"))), Entry("isActive", BVal(Bool(false)))]

  /** The article's fields as `setDocumentData` leaves them: stored values, nothing modified. */
  function FieldsUpdateStored(): seq<Field> {
    [F("title", StringKind, S("foo")), F("content", StringKind, S("bar")), F("note", StringKind, S("ups")),
     F("line", StringKind, Null), F("isActive", BooleanKind, Bool(false)),
     F("date", RawKind, Null), F("author", RawKind, Null), F("categories", RawKind, Null)]
  }

  /** The article's fields once the setters ran. */
  function FieldsUpdateChanged(): seq<Field> {
    ChangedHead() + ChangedTail()
  }

  function ChangedHead(): seq<Field> {
    [M("title", StringKind, S("foo"), Int(234)), F("content", StringKind, S("bar")), F("note", StringKind, S("ups"))]
  }

  function ChangedTail(): seq<Field> {
    [M("line", StringKind, Null, S("mmm")), M("isActive", BooleanKind, Bool(false), Null),
     F("date", RawKind, Null), F("author", RawKind, Null), F("categories", RawKind, Null)]
  }

  lemma FieldsUpdateHydrated()
    ensures Hydrate(ArticleSchema, FieldsUpdateData) == Node(FieldsUpdateStored(), NoSource, NoComments)
  {
  }

  /** `setTitle(234)`, `setContent('bar')`, `setLine('mmm')`, `setIsActive(null)`, `setDate(null)`. */
  function FieldsUpdateSetters(n: Node): Node {
    Apply(Apply(Apply(Apply(Apply(n,
      SetField("title", Int(234))), SetField("content", S("bar"))), SetField("line", S("mmm"))),
      SetField("isActive", Null)), SetField("date", Null))
  }

  lemma FieldsUpdateChanges()
    ensures SetFieldIn(SetFieldIn(SetFieldIn(SetFieldIn(SetFieldIn(FieldsUpdateStored(),
      "title", Int(234)), "content", S("bar")), "line", S("mmm")), "isActive", Null), "date", Null)
      == FieldsUpdateChanged()
  {
    NormalizeTestValues();
  }

  lemma FieldsUpdateState()
    ensures FieldsUpdateSetters(Hydrate(ArticleSchema, FieldsUpdateData)) == Node(FieldsUpdateChanged(), NoSource, NoComments)
  {
    FieldsUpdateHydrated();
    FieldsUpdateChanges();
  }

  /** The field updates of the changed article under a path prefix p; the saved query is the case p = "". */
  function FieldsUpdateOpsAt(p: string): Ops {
    Ops([Entry(p + "title", BVal(S("234"))), Entry(p + "line", BVal(S("mmm")))], [p + "isActive"], [])
  }

  lemma FieldsUpdateFields(fs: seq<Field>, p: string)
    requires fs == FieldsUpdateChanged()
    ensures UpdateFields(fs, p) == FieldsUpdateOpsAt(p)
  {
    var head, tail := ChangedHead(), ChangedTail();
    UpdateFieldsAppend(head, tail, p);
    ChangedHeadOps(head, p);
    ChangedTailOps(tail, p);
    var set1, set2 := Entry(p + "title", BVal(S("234"))), Entry(p + "line", BVal(S("mmm")));
    assert [set1] + [set2] == [set1, set2];
    assert [] + [p + "isActive"] == [p + "isActive"];
  }

  lemma ChangedHeadOps(fs: seq<Field>, p: string)
    requires fs == ChangedHead()
    ensures UpdateFields(fs, p) == Ops([Entry(p + "title", BVal(S("234")))], [], [])
  {
    NormalizeTestValues();
    assert UpdateFields(fs[2..], p) == NoOps;
    assert UpdateFields(fs[1..], p) == NoOps;
  }

  lemma ChangedTailOps(fs: seq<Field>, p: string)
    requires fs == ChangedTail()
    ensures UpdateFields(fs, p) == Ops([Entry(p + "line", BVal(S("mmm")))], [p + "isActive"], [])
  {
    assert UpdateFields(fs[4..], p) == NoOps;
    assert UpdateFields(fs[3..], p) == NoOps;
    assert UpdateFields(fs[2..], p) == NoOps;
    assert UpdateFields(fs[1..], p) == Ops([], [p + "isActive"], []);
  }

  /**
   * The existing article sets the changed non-null fields (234 cast to
   * "234") and unsets the field set to null; the field re-set to its
   * stored value, the never-stored field set to null and the untouched
   * field yield nothing.
   */
  lemma DocumentFieldsUpdate()
    ensures QueryForSave(false, FieldsUpdateSetters(Hydrate(ArticleSchema, FieldsUpdateData))) == Some(FieldsUpdateExpected())
  {
    var n := FieldsUpdateSetters(Hydrate(ArticleSchema, FieldsUpdateData));
    FieldsUpdateState();
    forall p | true ensures UpdateFields(n.fields, p) == FieldsUpdateOpsAt(p) {
      FieldsUpdateFields(n.fields, p);
    }
    FieldsUpdateQuery(n);
  }

  lemma FieldsUpdateQuery(n: Node)
    requires n.ones == NoSource && n.manys == NoComments
    requires forall p :: UpdateFields(n.fields, p) == FieldsUpdateOpsAt(p)
    ensures QueryForSave(false, n) == Some(FieldsUpdateExpected())
  {
    assert UpdateFields(n.fields, "") == FieldsUpdateOpsAt("");
    assert "" + "title" == "title" && "" + "line" == "line" && "" + "isActive" == "isActive";
    FieldsUpdateGroups();
    QueryFromFields(n, FieldsUpdateOps());
  }

  function FieldsUpdateOps(): Ops {
    Ops([Entry("title", BVal(S("234"))), Entry("line", BVal(S("mmm")))], ["isActive"], [])
  }

  /** The query the test expects. */
  function FieldsUpdateExpected(): seq<Entry> {
    [Entry("$set", BDoc([Entry("title", BVal(S("234"))), Entry("line", BVal(S("mmm")))])),
     Entry("$unset", BDoc([Entry("isActive", BVal(Int(1)))]))]
  }

  lemma FieldsUpdateGroups()
    ensures Groups(FieldsUpdateOps()) == FieldsUpdateExpected()
  {
    assert UnsetEntries(["isActive"]) == [Entry("isActive", BVal(Int(1)))];
  }
}

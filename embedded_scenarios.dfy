/**
 * The save queries the Mongator test suite expects for embedded-one and
 * embedded-many associations, computed by the model on the suite's Article,
 * Source, Info and Comment classes.
 */
module EmbeddedScenarios {
  import opened Values
  import opened Tracking
  import opened Delta
  import opened DeltaProperties
  import opened TrackingProperties
  import opened Locality
  import opened SaveScenarios

  lemma ArticleSchemaValid()
    ensures ValidSchema(ArticleSchema)
  {
    assert ValidSchema(InfoSchema);
    assert ValidSchema(CommentSchema);
    assert ValidSchema(SourceSchema);
  }

  /** The stored article shared by the change and removal tests: a title and a source holding an info. */
  function StoredArticle(): seq<Entry> {
    [Entry("_id", BVal(Oid("4f0d3c"))), Entry("title", BVal(S("foo"))), Entry("source", BDoc(StoredSource()))]
  }

  function StoredSource(): seq<Entry> {
    [Entry("name", BVal(S("bar"))), Entry("info", BDoc(StoredInfo()))]
  }

  function StoredInfo(): seq<Entry> {
    [Entry("name", BVal(S("mon")))]
  }

  /** The hydrated article is valid and clean. */
  lemma StoredArticleClean(n: Node)
    requires n == Hydrate(ArticleSchema, StoredArticle())
    ensures Valid(n) && !Dirty(n)
  {
    ArticleSchemaValid();
    HydrateValid(ArticleSchema, StoredArticle());
    HydrateClean(ArticleSchema, StoredArticle());
  }

  /** The hydrated article's source is the hydrated stored source. */
  lemma StoredArticleSource(n: Node)
    requires n == Hydrate(ArticleSchema, StoredArticle())
    ensures n.ones[0].name == "source" && n.ones[0].current == Some(Hydrate(SourceSchema, StoredSource()))
  {
    assert Lookup(StoredArticle(), "source") == Some(BDoc(StoredSource()));
  }

  lemma StoredArticleSourceAt(n: Node)
    requires n == Hydrate(ArticleSchema, StoredArticle())
    ensures NodeAt(n, ["source"]) == Some(Hydrate(SourceSchema, StoredSource()))
  {
    assert Lookup(StoredArticle(), "source") == Some(BDoc(StoredSource()));
    assert ChildNamed(n.ones, "source") == n.ones[0].current;
    assert ["source"][1..] == [];
  }

  lemma StoredSourceState(t: Node)
    requires t == Hydrate(SourceSchema, StoredSource())
    ensures t.ones[0].name == "info" && t.ones[0].current == Some(Hydrate(InfoSchema, StoredInfo()))
    ensures t.fields[0].current == S("bar")
  {
    assert Lookup(StoredSource(), "info") == Some(BDoc(StoredInfo()));
    assert Lookup(StoredSource(), "name") == Some(BVal(S("bar")));
  }

  // --------------------------------------------- testDocumentEmbeddedsOneInsert

  /** The new info `setName(234)->setText(null)`. */
  function InsertInfo(): Node {
    Apply(Apply(Create(InfoSchema), SetField("name", Int(234))), SetField("text", Null))
  }

  /** The new source `setName(123)->setText(null)->setInfo(...)`. */
  function InsertSource(): Node {
    Apply(Apply(Apply(Create(SourceSchema),
      SetField("name", Int(123))), SetField("text", Null)), SetEmbeddedOne("info", Some(InsertInfo())))
  }

  /** The new article `setTitle('foo')->setSource(...)`. */
  function InsertArticle(): Node {
    Apply(Apply(Create(ArticleSchema), SetField("title", S("foo"))), SetEmbeddedOne("source", Some(InsertSource())))
  }

  function InsertInfoFields(): seq<Field> {
    [M("name", StringKind, Null, Int(234)), F("text", StringKind, Null), F("line", StringKind, Null), F("note", StringKind, Null)]
  }

  function InsertSourceFields(): seq<Field> {
    [M("name", StringKind, Null, Int(123)), F("text", StringKind, Null), F("line", StringKind, Null), F("note", StringKind, Null)]
  }

  function InsertArticleFields(): seq<Field> {
    [M("title", StringKind, Null, S("foo")), F("content", StringKind, Null), F("note", StringKind, Null),
     F("line", StringKind, Null), F("isActive", BooleanKind, Null), F("date", RawKind, Null),
     F("author", RawKind, Null), F("categories", RawKind, Null)]
  }

  function OneInsertExpected(): seq<Entry> {
    [Entry("title", BVal(S("foo"))),
     Entry("source", BDoc([Entry("name", BVal(S("123"))), Entry("info", BDoc([Entry("name", BVal(S("234")))]))]))]
  }

  lemma InsertInfoState()
    ensures InsertInfo() == Node(InsertInfoFields(), [], [])
  {
  }

  lemma InsertSourceState()
    ensures InsertSource() == Node(InsertSourceFields(), [One("info", Some(InsertInfo()), true)], [])
  {
  }

  lemma InsertArticleState()
    ensures InsertArticle() == Node(InsertArticleFields(), [One("source", Some(InsertSource()), true)], NoComments)
  {
  }

  lemma InsertInfoFieldsInsert()
    ensures InsertFields(InsertInfoFields()) == [Entry("name", BVal(S("234")))]
  {
    NormalizeTestValues();
  }

  lemma InsertSourceFieldsInsert()
    ensures InsertFields(InsertSourceFields()) == [Entry("name", BVal(S("123")))]
  {
    NormalizeTestValues();
  }

  lemma InsertArticleFieldsInsert()
    ensures InsertFields(InsertArticleFields()) == [Entry("title", BVal(S("foo")))]
  {
  }

  /** A document with one held embedded-one child and empty embedded-many lists inserts as its fields and the child. */
  lemma LevelInsert(n: Node, c: Node, fields: seq<Entry>, inserted: seq<Entry>)
    requires |n.ones| == 1 && n.ones[0].current == Some(c)
    requires forall k :: 0 <= k < |n.manys| ==> n.manys[k].saved == [] && n.manys[k].added == []
    requires InsertFields(n.fields) == fields && InsertDoc(c) == inserted
    ensures InsertDoc(n) == fields + [Entry(n.ones[0].name, BDoc(inserted))]
  {
    InsertWithOne(n, c);
  }

  function InsertInfoExpected(): seq<Entry> {
    [Entry("name", BVal(S("234")))]
  }

  function InsertSourceExpected(): seq<Entry> {
    [Entry("name", BVal(S("123"))), Entry("info", BDoc(InsertInfoExpected()))]
  }

  lemma InfoLevel(i: Node)
    requires InsertFields(i.fields) == InsertInfoExpected() && i.ones == [] && i.manys == []
    ensures InsertDoc(i) == InsertInfoExpected()
  {
    FlatInsert(i);
  }

  lemma SourceLevel(s: Node, i: Node)
    requires InsertFields(s.fields) == [Entry("name", BVal(S("123")))] && s.ones == [One("info", Some(i), true)] && s.manys == []
    requires InsertDoc(i) == InsertInfoExpected()
    ensures InsertDoc(s) == InsertSourceExpected()
  {
    LevelInsert(s, i, [Entry("name", BVal(S("123")))], InsertInfoExpected());
  }

  lemma ArticleLevel(a: Node, s: Node)
    requires InsertFields(a.fields) == [Entry("title", BVal(S("foo")))] && a.ones == [One("source", Some(s), true)] && a.manys == NoComments
    requires InsertDoc(s) == InsertSourceExpected()
    ensures InsertDoc(a) == OneInsertExpected()
  {
    LevelInsert(a, s, [Entry("title", BVal(S("foo")))], InsertSourceExpected());
  }

  /** The new article inserts its title and its source whole, null fields dropped at every depth. */
  lemma EmbeddedsOneInsert()
    ensures QueryForSave(true, InsertArticle()) == Some(OneInsertExpected())
  {
    InsertInfoState();
    InsertSourceState();
    InsertArticleState();
    InsertInfoFieldsInsert();
    InsertSourceFieldsInsert();
    InsertArticleFieldsInsert();
    InfoLevel(InsertInfo());
    SourceLevel(InsertSource(), InsertInfo());
    ArticleLevel(InsertArticle(), InsertSource());
  }

  // --------------------------------------------- testDocumentEmbeddedsOneUpdate

  function UpdateStoredArticle(): seq<Entry> {
    [Entry("_id", BVal(Oid("4f0d3d"))), Entry("title", BVal(S("foo"))), Entry("source", BDoc(UpdateStoredSource()))]
  }

  function UpdateStoredSource(): seq<Entry> {
    [Entry("name", BVal(S("bar"))), Entry("text", BVal(S("ups"))), Entry("info", BDoc(UpdateStoredInfo()))]
  }

  function UpdateStoredInfo(): seq<Entry> {
    [Entry("name", BVal(S("mon"))), Entry("text", BVal(S("dongo")))]
  }

  /** `setTitle('foobar')`. */
  function TitleSetter(n: Node): Node {
    EditAt(n, [], SetField("title", S("foobar")))
  }

  /** `getSource()->setName(234)->setText(null)->setLine(345)->setNote(null)`. */
  function SourceSetters(n: Node): Node {
    EditAt(EditAt(EditAt(EditAt(n,
      ["source"], SetField("name", Int(234))), ["source"], SetField("text", Null)),
      ["source"], SetField("line", Int(345))), ["source"], SetField("note", Null))
  }

  /** `getSource()->getInfo()->setName(null)->setText(456)->setLine(null)->setNote(567)`. */
  function InfoSetters(n: Node): Node {
    EditAt(EditAt(EditAt(EditAt(n,
      ["source", "info"], SetField("name", Null)), ["source", "info"], SetField("text", Int(456))),
      ["source", "info"], SetField("line", Null)), ["source", "info"], SetField("note", Int(567)))
  }

  function UpdateArticleFields(): seq<Field> {
    [F("title", StringKind, S("foo")), F("content", StringKind, Null), F("note", StringKind, Null),
     F("line", StringKind, Null), F("isActive", BooleanKind, Null), F("date", RawKind, Null),
     F("author", RawKind, Null), F("categories", RawKind, Null)]
  }

  function UpdateSourceFields(): seq<Field> {
    [F("name", StringKind, S("bar")), F("text", StringKind, S("ups")), F("line", StringKind, Null), F("note", StringKind, Null)]
  }

  function UpdateInfoFields(): seq<Field> {
    [F("name", StringKind, S("mon")), F("text", StringKind, S("dongo")), F("line", StringKind, Null), F("note", StringKind, Null)]
  }

  function ChangedArticleFields(): seq<Field> {
    [M("title", StringKind, S("foo"), S("foobar"))] + UpdateArticleFields()[1..]
  }

  function ChangedSourceFields(): seq<Field> {
    [M("name", StringKind, S("bar"), Int(234)), M("text", StringKind, S("ups"), Null),
     M("line", StringKind, Null, Int(345)), F("note", StringKind, Null)]
  }

  function ChangedInfoFields(): seq<Field> {
    [M("name", StringKind, S("mon"), Null), M("text", StringKind, S("dongo"), Int(456)),
     F("line", StringKind, Null), M("note", StringKind, Null, Int(567))]
  }

  /** A document whose single embedded-one association holds c, unreplaced. */
  function WithOne(fs: seq<Field>, name: string, c: Node, ms: seq<Many>): Node {
    Node(fs, [One(name, Some(c), false)], ms)
  }

  lemma UpdateInfoHydrated()
    ensures Hydrate(InfoSchema, UpdateStoredInfo()) == Node(UpdateInfoFields(), [], [])
  {
  }

  lemma UpdateSourceHydrated()
    ensures Hydrate(SourceSchema, UpdateStoredSource())
            == WithOne(UpdateSourceFields(), "info", Hydrate(InfoSchema, UpdateStoredInfo()), [])
  {
    assert Lookup(UpdateStoredSource(), "info") == Some(BDoc(UpdateStoredInfo()));
  }

  lemma UpdateArticleHydrated()
    ensures Hydrate(ArticleSchema, UpdateStoredArticle())
            == WithOne(UpdateArticleFields(), "source", Hydrate(SourceSchema, UpdateStoredSource()), NoComments)
  {
    assert Lookup(UpdateStoredArticle(), "source") == Some(BDoc(UpdateStoredSource()));
    assert Lookup(UpdateStoredArticle(), "comments") == None;
  }

  /** An edit through the single embedded-one association reaches its child and nothing else. */
  lemma EditThroughOne(fs: seq<Field>, name: string, c: Node, ms: seq<Many>, rest: seq<string>, e: Edit)
    ensures EditAt(WithOne(fs, name, c, ms), [name] + rest, e) == WithOne(fs, name, EditAt(c, rest, e), ms)
  {
    assert ([name] + rest)[0] == name && ([name] + rest)[1..] == rest;
  }

  lemma TitleSetterShape(fs: seq<Field>, c: Node, ms: seq<Many>)
    ensures TitleSetter(WithOne(fs, "source", c, ms)) == WithOne(SetFieldIn(fs, "title", S("foobar")), "source", c, ms)
  {
  }

  /** The four source setters, applied to the source itself. */
  function SourceEdits(c: Node): Node {
    Apply(Apply(Apply(Apply(c, SetField("name", Int(234))), SetField("text", Null)), SetField("line", Int(345))), SetField("note", Null))
  }

  /** The four info setters, applied to the info itself. */
  function InfoEdits(c: Node): Node {
    Apply(Apply(Apply(Apply(c, SetField("name", Null)), SetField("text", Int(456))), SetField("line", Null)), SetField("note", Int(567)))
  }

  lemma SourceSettersShape(fs: seq<Field>, c: Node, ms: seq<Many>)
    ensures SourceSetters(WithOne(fs, "source", c, ms)) == WithOne(fs, "source", SourceEdits(c), ms)
  {
    var e1, e2, e3, e4 := SetField("name", Int(234)), SetField("text", Null), SetField("line", Int(345)), SetField("note", Null);
    assert ["source"] == ["source"] + [];
    EditThroughOne(fs, "source", c, ms, [], e1);
    var c1 := Apply(c, e1);
    EditThroughOne(fs, "source", c1, ms, [], e2);
    var c2 := Apply(c1, e2);
    EditThroughOne(fs, "source", c2, ms, [], e3);
    var c3 := Apply(c2, e3);
    EditThroughOne(fs, "source", c3, ms, [], e4);
  }

  lemma InfoSettersShape(fs: seq<Field>, sfs: seq<Field>, i: Node, ms: seq<Many>)
    ensures InfoSetters(WithOne(fs, "source", WithOne(sfs, "info", i, []), ms))
            == WithOne(fs, "source", WithOne(sfs, "info", InfoEdits(i), []), ms)
  {
    var e1, e2, e3, e4 := SetField("name", Null), SetField("text", Int(456)), SetField("line", Null), SetField("note", Int(567));
    var path := ["source", "info"];
    assert path == ["source"] + ["info"] && ["info"] == ["info"] + [];
    var i1, i2, i3 := Apply(i, e1), Apply(Apply(i, e1), e2), Apply(Apply(Apply(i, e1), e2), e3);
    EditThroughOne(sfs, "info", i, [], [], e1);
    EditThroughOne(fs, "source", WithOne(sfs, "info", i, []), ms, ["info"], e1);
    EditThroughOne(sfs, "info", i1, [], [], e2);
    EditThroughOne(fs, "source", WithOne(sfs, "info", i1, []), ms, ["info"], e2);
    EditThroughOne(sfs, "info", i2, [], [], e3);
    EditThroughOne(fs, "source", WithOne(sfs, "info", i2, []), ms, ["info"], e3);
    EditThroughOne(sfs, "info", i3, [], [], e4);
    EditThroughOne(fs, "source", WithOne(sfs, "info", i3, []), ms, ["info"], e4);
  }

  /** A field setter changes the fields and nothing else. */
  lemma SetFieldShape(n: Node, f: string, v: Value)
    ensures Apply(n, SetField(f, v)) == Node(SetFieldIn(n.fields, f, v), n.ones, n.manys)
  {
  }

  lemma ArticleFieldsChanged()
    ensures SetFieldIn(UpdateArticleFields(), "title", S("foobar")) == ChangedArticleFields()
  {
  }

  lemma SourceFieldsChanged()
    ensures SetFieldIn(SetFieldIn(SetFieldIn(SetFieldIn(UpdateSourceFields(),
      "name", Int(234)), "text", Null), "line", Int(345)), "note", Null) == ChangedSourceFields()
  {
    NormalizeTestValues();
  }

  lemma InfoFieldsChanged()
    ensures SetFieldIn(SetFieldIn(SetFieldIn(SetFieldIn(UpdateInfoFields(),
      "name", Null), "text", Int(456)), "line", Null), "note", Int(567)) == ChangedInfoFields()
  {
    NormalizeTestValues();
  }

  lemma SourceEditsShape(i: Node)
    ensures SourceEdits(WithOne(UpdateSourceFields(), "info", i, [])) == WithOne(ChangedSourceFields(), "info", i, [])
  {
    SourceFieldsChanged();
  }

  lemma InfoEditsShape()
    ensures InfoEdits(Node(UpdateInfoFields(), [], [])) == Node(ChangedInfoFields(), [], [])
  {
    InfoFieldsChanged();
  }

  /** The article after all setters: title changed, source and info changed in place. */
  function ChangedArticle(): Node {
    WithOne(ChangedArticleFields(), "source", WithOne(ChangedSourceFields(), "info", Node(ChangedInfoFields(), [], []), []), NoComments)
  }

  lemma OneUpdateState(n: Node)
    requires n == Hydrate(ArticleSchema, UpdateStoredArticle())
    ensures InfoSetters(SourceSetters(TitleSetter(n))) == ChangedArticle()
  {
    var i0 := Node(UpdateInfoFields(), [], []);
    var s0 := WithOne(UpdateSourceFields(), "info", i0, []);
    UpdateInfoHydrated();
    UpdateSourceHydrated();
    UpdateArticleHydrated();
    TitleSetterShape(UpdateArticleFields(), s0, NoComments);
    ArticleFieldsChanged();
    SourceSettersShape(ChangedArticleFields(), s0, NoComments);
    SourceEditsShape(i0);
    InfoSettersShape(ChangedArticleFields(), ChangedSourceFields(), i0, NoComments);
    InfoEditsShape();
  }

  lemma ArticleFieldsOps(fs: seq<Field>, p: string)
    requires fs == ChangedArticleFields()
    ensures UpdateFields(fs, p) == Ops([Entry(p + "title", BVal(S("foobar")))], [], [])
  {
    UnmodifiedFields(fs[1..], p);
  }

  /** The update of four fields is the join of their own updates, in order. */
  lemma FourFieldsOps(a: Field, b: Field, c: Field, d: Field, p: string)
    ensures UpdateFields([a, b, c, d], p) == Join(FieldOps(a, p), Join(FieldOps(b, p), Join(FieldOps(c, p), Join(FieldOps(d, p), NoOps))))
  {
    var fs := [a, b, c, d];
    assert fs[3..][1..] == [];
    assert UpdateFields(fs[3..], p) == Join(FieldOps(d, p), NoOps);
    assert fs[2..][1..] == fs[3..];
    assert UpdateFields(fs[2..], p) == Join(FieldOps(c, p), UpdateFields(fs[3..], p));
    assert fs[1..][1..] == fs[2..];
    assert UpdateFields(fs[1..], p) == Join(FieldOps(b, p), UpdateFields(fs[2..], p));
  }

  /** A modified field whose stored form is the non-null value v is set at its path. */
  lemma SetOps(f: Field, p: string, v: Value)
    requires f.modified && Stored(f) == v && v != Null
    ensures FieldOps(f, p) == Ops([Entry(p + f.name, BVal(v))], [], [])
  {
  }

  /** A modified field whose value is now null is unset at its path. */
  lemma UnsetOps(f: Field, p: string)
    requires f.modified && f.current == Null
    ensures FieldOps(f, p) == Ops([], [p + f.name], [])
  {
  }

  /** Four fields of which the first three are modified: set, unset, set. */
  lemma SetUnsetSetOps(fs: seq<Field>, q: string, n0: string, v0: Value, n1: string, n2: string, v2: Value)
    requires |fs| == 4
    requires fs[0].modified && fs[0].name == n0 && Stored(fs[0]) == v0 && v0 != Null
    requires fs[1].modified && fs[1].name == n1 && fs[1].current == Null
    requires fs[2].modified && fs[2].name == n2 && Stored(fs[2]) == v2 && v2 != Null
    requires !fs[3].modified
    ensures UpdateFields(fs, q) == Ops([Entry(q + n0, BVal(v0)), Entry(q + n2, BVal(v2))], [q + n1], [])
  {
    SetOps(fs[0], q, v0);
    UnsetOps(fs[1], q);
    SetOps(fs[2], q, v2);
    FourFieldsOps(fs[0], fs[1], fs[2], fs[3], q);
    assert fs == [fs[0], fs[1], fs[2], fs[3]];
  }

  /** Four fields of which the first, second and fourth are modified: unset, set, set. */
  lemma UnsetSetSetOps(fs: seq<Field>, r: string, n0: string, n1: string, v1: Value, n3: string, v3: Value)
    requires |fs| == 4
    requires fs[0].modified && fs[0].name == n0 && fs[0].current == Null
    requires fs[1].modified && fs[1].name == n1 && Stored(fs[1]) == v1 && v1 != Null
    requires !fs[2].modified
    requires fs[3].modified && fs[3].name == n3 && Stored(fs[3]) == v3 && v3 != Null
    ensures UpdateFields(fs, r) == Ops([Entry(r + n1, BVal(v1)), Entry(r + n3, BVal(v3))], [r + n0], [])
  {
    UnsetOps(fs[0], r);
    SetOps(fs[1], r, v1);
    SetOps(fs[3], r, v3);
    FourFieldsOps(fs[0], fs[1], fs[2], fs[3], r);
    assert fs == [fs[0], fs[1], fs[2], fs[3]];
  }

  lemma SourceFieldsOps(q: string)
    ensures UpdateFields(ChangedSourceFields(), q)
            == Ops([Entry(q + "name", BVal(S("234"))), Entry(q + "line", BVal(S("345")))], [q + "text"], [])
  {
    NormalizeTestValues();
    SetUnsetSetOps(ChangedSourceFields(), q, "name", S("234"), "text", "line", S("345"));
  }

  lemma InfoFieldsOps(r: string)
    ensures UpdateFields(ChangedInfoFields(), r)
            == Ops([Entry(r + "text", BVal(S("456"))), Entry(r + "note", BVal(S("567")))], [r + "name"], [])
  {
    NormalizeTestValues();
    UnsetSetSetOps(ChangedInfoFields(), r, "name", "text", S("456"), "note", S("567"));
  }

  lemma {:induction false} UnmodifiedFields(fs: seq<Field>, p: string)
    requires forall k :: 0 <= k < |fs| ==> !fs[k].modified
    ensures UpdateFields(fs, p) == NoOps
    decreases |fs|
  {
    if fs != [] {
      UnmodifiedFields(fs[1..], p);
    }
  }

  /** A document without embedded associations updates its fields. */
  lemma UpdateLeaf(n: Node, p: string)
    requires n.ones == [] && n.manys == []
    ensures UpdateDoc(n, p) == Some(UpdateFields(n.fields, p))
  {
    OnlyFields(n, p);
  }

  /** A document whose single embedded-one child is mutated in place updates its fields, then the child under `name.`. */
  lemma UpdateWithOne(fs: seq<Field>, name: string, c: Node, ms: seq<Many>, p: string, co: Ops)
    requires UpdateManys(ms, p) == Some(NoOps)
    requires UpdateDoc(c, p + name + ".") == Some(co)
    ensures UpdateDoc(WithOne(fs, name, c, ms), p) == Some(Join(UpdateFields(fs, p), co))
  {
    var n := WithOne(fs, name, c, ms);
    assert n.ones[1..] == [];
    assert UpdateOnes(n.ones, p) == JoinOpt(Some(co), Some(NoOps));
    JoinOptUnit(Some(co));
  }

  lemma NoCommentsSilent(p: string)
    ensures UpdateManys(NoComments, p) == Some(NoOps)
    ensures UpdateManys([], p) == Some(NoOps)
  {
    assert NoComments[0].added == [] && NoComments[0].removed == [] && NoComments[1..] == [];
    ManysCleanIffNoUpdate(NoComments, p);
  }

  function OneUpdateExpected(): seq<Entry> {
    [Entry("$set", BDoc([Entry("title", BVal(S("foobar"))), Entry("source.name", BVal(S("234"))),
                         Entry("source.line", BVal(S("345"))), Entry("source.info.text", BVal(S("456"))),
                         Entry("source.info.note", BVal(S("567")))])),
     Entry("$unset", BDoc([Entry("source.text", BVal(Int(1))), Entry("source.info.name", BVal(Int(1)))]))]
  }

  function InfoOps(): Ops {
    Ops([Entry("source.info.text", BVal(S("456"))), Entry("source.info.note", BVal(S("567")))], ["source.info.name"], [])
  }

  /** The info changed in place, under `source.info.`. */
  lemma InfoUpdate(i: Node, r: string)
    requires i.ones == [] && i.manys == [] && r == "source.info."
    requires UpdateFields(i.fields, r) == Ops([Entry(r + "text", BVal(S("456"))), Entry(r + "note", BVal(S("567")))], [r + "name"], [])
    ensures UpdateDoc(i, r) == Some(InfoOps())
  {
    UpdateLeaf(i, r);
    assert r + "text" == "source.info.text" && r + "note" == "source.info.note" && r + "name" == "source.info.name";
  }

  function SourceOps(): Ops {
    Ops([Entry("source.name", BVal(S("234"))), Entry("source.line", BVal(S("345"))),
         Entry("source.info.text", BVal(S("456"))), Entry("source.info.note", BVal(S("567")))],
        ["source.text", "source.info.name"], [])
  }

  /** The source changed in place, its info too, under `source.`. */
  lemma SourceUpdate(fs: seq<Field>, i: Node, q: string)
    requires q == "source."
    requires UpdateFields(fs, q) == Ops([Entry(q + "name", BVal(S("234"))), Entry(q + "line", BVal(S("345")))], [q + "text"], [])
    requires UpdateDoc(i, q + "info" + ".") == Some(InfoOps())
    ensures UpdateDoc(WithOne(fs, "info", i, []), q) == Some(SourceOps())
  {
    NoCommentsSilent(q);
    UpdateWithOne(fs, "info", i, [], q, InfoOps());
    assert q + "name" == "source.name" && q + "line" == "source.line" && q + "text" == "source.text";
    var fo := Ops([Entry("source.name", BVal(S("234"))), Entry("source.line", BVal(S("345")))], ["source.text"], []);
    assert Join(fo, InfoOps()).sets == SourceOps().sets;
    assert Join(fo, InfoOps()).unsets == SourceOps().unsets;
  }

  /** The changed source with its changed info, under `source.`. */
  lemma ChangedSourceUpdate()
    ensures UpdateDoc(WithOne(ChangedSourceFields(), "info", Node(ChangedInfoFields(), [], []), []), "source.") == Some(SourceOps())
  {
    var r := "source." + "info" + ".";
    assert r == "source.info.";
    InfoFieldsOps(r);
    InfoUpdate(Node(ChangedInfoFields(), [], []), r);
    SourceFieldsOps("source.");
    SourceUpdate(ChangedSourceFields(), Node(ChangedInfoFields(), [], []), "source.");
  }

  /** The update of the edited article: its title, then its source in place. */
  lemma OneUpdateQuery(fs: seq<Field>, src: Node)
    requires UpdateFields(fs, "") == Ops([Entry("" + "title", BVal(S("foobar")))], [], [])
    requires UpdateDoc(src, "" + "source" + ".") == Some(SourceOps())
    ensures QueryForSave(false, WithOne(fs, "source", src, NoComments)) == Some(OneUpdateExpected())
  {
    NoCommentsSilent("");
    UpdateWithOne(fs, "source", src, NoComments, "", SourceOps());
    OneUpdateJoin();
    OneUpdateGroups();
  }

  function OneUpdateOps(): Ops {
    Ops([Entry("title", BVal(S("foobar"))), Entry("source.name", BVal(S("234"))),
         Entry("source.line", BVal(S("345"))), Entry("source.info.text", BVal(S("456"))),
         Entry("source.info.note", BVal(S("567")))],
        ["source.text", "source.info.name"], [])
  }

  lemma OneUpdateJoin()
    ensures Join(Ops([Entry("" + "title", BVal(S("foobar")))], [], []), SourceOps()) == OneUpdateOps()
  {
    assert "" + "title" == "title";
  }

  lemma OneUpdateGroups()
    ensures Groups(OneUpdateOps()) == OneUpdateExpected()
  {
    assert UnsetEntries(["source.text", "source.info.name"]) == [Entry("source.text", BVal(Int(1))), Entry("source.info.name", BVal(Int(1)))];
  }

  lemma ChangedArticleQuery()
    ensures QueryForSave(false, ChangedArticle()) == Some(OneUpdateExpected())
  {
    ArticleFieldsOps(ChangedArticleFields(), "");
    assert "" + "source" + "." == "source.";
    ChangedSourceUpdate();
    OneUpdateQuery(ChangedArticleFields(), WithOne(ChangedSourceFields(), "info", Node(ChangedInfoFields(), [], []), []));
  }

  /**
   * Changing fields of the article, of its source and of the source's info
   * in place saves as dot-path `$set` entries for the non-null new values and
   * `$unset` entries for the fields set to null, at each depth.
   */
  lemma EmbeddedsOneUpdate(n: Node)
    requires n == Hydrate(ArticleSchema, UpdateStoredArticle())
    ensures QueryForSave(false, InfoSetters(SourceSetters(TitleSetter(n)))) == Some(OneUpdateExpected())
  {
    OneUpdateState(n);
    ChangedArticleQuery();
  }

  // --------------------------------------------- testDocumentEmbeddedsOneRemove

  /** `setSource(null)` on the stored article saves as `$unset source` alone. */
  lemma EmbeddedsOneRemove(n: Node)
    requires n == Hydrate(ArticleSchema, StoredArticle())
    ensures QueryForSave(false, EditAt(n, [], SetEmbeddedOne("source", None)))
            == Some([Entry("$unset", BDoc([Entry("source", BVal(Int(1)))]))])
  {
    StoredArticleClean(n);
    StoredArticleSource(n);
    assert Dotted([]) + "source" == "source";
    RemoveQuery(n, [], n, "source", "source");
  }

  // ----------------------------------------- testDocumentEmbeddedsOneRemoveDeep

  /** `getSource()->setInfo(null)` saves as `$unset source.info` alone. */
  lemma EmbeddedsOneRemoveDeep(n: Node)
    requires n == Hydrate(ArticleSchema, StoredArticle())
    ensures QueryForSave(false, EditAt(n, ["source"], SetEmbeddedOne("info", None)))
            == Some([Entry("$unset", BDoc([Entry("source.info", BVal(Int(1)))]))])
  {
    var t := Hydrate(SourceSchema, StoredSource());
    StoredArticleClean(n);
    StoredArticleSourceAt(n);
    StoredSourceState(t);
    RemoveDeepQuery(n, t);
  }

  lemma RemoveDeepQuery(n: Node, t: Node)
    requires Valid(n) && !Dirty(n) && NodeAt(n, ["source"]) == Some(t)
    requires t.ones != [] && t.ones[0].name == "info" && t.ones[0].current.Some?
    ensures QueryForSave(false, EditAt(n, ["source"], SetEmbeddedOne("info", None)))
            == Some([Entry("$unset", BDoc([Entry("source.info", BVal(Int(1)))]))])
  {
    assert Dotted(["source"]) + "info" == "source.info";
    RemoveQuery(n, ["source"], t, "info", "source.info");
  }

  // --------------------------------------------- testDocumentEmbeddedsOneChange

  /** The new info `setName(456)->setText(567)`. */
  function ChangeInfo(): Node {
    Apply(Apply(Create(InfoSchema), SetField("name", Int(456))), SetField("text", Int(567)))
  }

  /** The new source `setText(234)->setLine(345)->setInfo(...)`. */
  function ChangeSource(): Node {
    Apply(Apply(Apply(Create(SourceSchema),
      SetField("text", Int(234))), SetField("line", Int(345))), SetEmbeddedOne("info", Some(ChangeInfo())))
  }

  function ChangeInfoExpected(): seq<Entry> {
    [Entry("name", BVal(S("456"))), Entry("text", BVal(S("567")))]
  }

  function ChangeExpected(): seq<Entry> {
    [Entry("text", BVal(S("234"))), Entry("line", BVal(S("345"))), Entry("info", BDoc(ChangeInfoExpected()))]
  }

  function ChangeInfoFields(): seq<Field> {
    [M("name", StringKind, Null, Int(456)), M("text", StringKind, Null, Int(567)),
     F("line", StringKind, Null), F("note", StringKind, Null)]
  }

  function ChangeSourceFields(): seq<Field> {
    [F("name", StringKind, Null), M("text", StringKind, Null, Int(234)),
     M("line", StringKind, Null, Int(345)), F("note", StringKind, Null)]
  }

  lemma ChangeInfoState()
    ensures ChangeInfo() == Node(ChangeInfoFields(), [], [])
  {
  }

  lemma ChangeInfoFieldsInsert()
    ensures InsertFields(ChangeInfoFields()) == ChangeInfoExpected()
  {
    NormalizeTestValues();
  }

  lemma ChangeInfoInsert(i: Node)
    requires i.fields == ChangeInfoFields() && i.ones == [] && i.manys == []
    ensures InsertDoc(i) == ChangeInfoExpected()
  {
    ChangeInfoFieldsInsert();
    FlatInsert(i);
  }

  lemma ChangeSourceState()
    ensures ChangeSource() == Node(ChangeSourceFields(), [One("info", Some(ChangeInfo()), true)], [])
  {
  }

  lemma ChangeSourceFieldsInsert()
    ensures InsertFields(ChangeSourceFields()) == [Entry("text", BVal(S("234"))), Entry("line", BVal(S("345")))]
  {
    NormalizeTestValues();
  }

  /** A document holding one embedded-one child and no embedded-many inserts as its fields and that child. */
  lemma InsertWithOne(n: Node, c: Node)
    requires |n.ones| == 1 && n.ones[0].current == Some(c)
    requires forall k :: 0 <= k < |n.manys| ==> n.manys[k].saved == [] && n.manys[k].added == []
    ensures InsertDoc(n) == InsertFields(n.fields) + [Entry(n.ones[0].name, BDoc(InsertDoc(c)))]
  {
    assert n.ones[1..] == [];
    assert InsertOnes(n.ones) == [Entry(n.ones[0].name, BDoc(InsertDoc(c)))] + [];
    CreateManysInsertNothing(n.manys);
  }

  lemma ChangeSourceInsert(x: Node, i: Node)
    requires x.fields == ChangeSourceFields() && x.ones == [One("info", Some(i), true)] && x.manys == []
    requires i.fields == ChangeInfoFields() && i.ones == [] && i.manys == []
    ensures InsertDoc(x) == ChangeExpected()
  {
    ChangeSourceFieldsInsert();
    ChangeInfoInsert(i);
    InsertWithOne(x, i);
  }

  /** `setSource(new source)` on the stored article saves as one `$set source` holding the new source whole. */
  lemma EmbeddedsOneChange(n: Node)
    requires n == Hydrate(ArticleSchema, StoredArticle())
    ensures QueryForSave(false, EditAt(n, [], SetEmbeddedOne("source", Some(ChangeSource()))))
            == Some([Entry("$set", BDoc([Entry("source", BDoc(ChangeExpected()))]))])
  {
    var t := Hydrate(SourceSchema, StoredSource());
    StoredArticleClean(n);
    StoredArticleSource(n);
    StoredSourceState(t);
    ChangeInsert(ChangeSource());
    ChangeQuery(n, ChangeSource());
  }

  lemma ChangeInsert(x: Node)
    requires x == ChangeSource()
    ensures x.fields != [] && x.fields[0].current == Null
    ensures InsertDoc(x) == ChangeExpected()
  {
    ChangeSourceState();
    ChangeInfoState();
    ChangeSourceInsert(x, ChangeInfo());
  }

  lemma ChangeQuery(n: Node, x: Node)
    requires Valid(n) && !Dirty(n)
    requires n.ones != [] && n.ones[0].name == "source" && n.ones[0].current.Some?
    requires n.ones[0].current.value.fields != [] && n.ones[0].current.value.fields[0].current == S("bar")
    requires x.fields != [] && x.fields[0].current == Null
    requires InsertDoc(x) == ChangeExpected()
    ensures QueryForSave(false, EditAt(n, [], SetEmbeddedOne("source", Some(x))))
            == Some([Entry("$set", BDoc([Entry("source", BDoc(ChangeExpected()))]))])
  {
    assert NodeAt(n, []) == Some(n);
    assert Dotted([]) + "source" == "source";
    ReplaceQuery(n, [], n, "source", "source", x, ChangeExpected());
  }

  // ----------------------------------------- testDocumentEmbeddedsOneChangeDeep

  /** The new info `setName(null)->setText(234)->setNote(345)`. */
  function ChangeDeepInfo(): Node {
    Apply(Apply(Apply(Create(InfoSchema), SetField("name", Null)), SetField("text", Int(234))), SetField("note", Int(345)))
  }

  function ChangeDeepExpected(): seq<Entry> {
    [Entry("text", BVal(S("234"))), Entry("note", BVal(S("345")))]
  }

  function ChangeDeepFields(): seq<Field> {
    [F("name", StringKind, Null), M("text", StringKind, Null, Int(234)),
     F("line", StringKind, Null), M("note", StringKind, Null, Int(345))]
  }

  lemma ChangeDeepInfoState()
    ensures ChangeDeepInfo() == Node(ChangeDeepFields(), [], [])
  {
  }

  lemma ChangeDeepFieldsInsert()
    ensures InsertFields(ChangeDeepFields()) == ChangeDeepExpected()
  {
    NormalizeTestValues();
  }

  /** `getSource()->setInfo(new info)` saves as one `$set source.info` holding the new info whole. */
  lemma EmbeddedsOneChangeDeep(n: Node)
    requires n == Hydrate(ArticleSchema, StoredArticle())
    ensures QueryForSave(false, EditAt(n, ["source"], SetEmbeddedOne("info", Some(ChangeDeepInfo()))))
            == Some([Entry("$set", BDoc([Entry("source.info", BDoc(ChangeDeepExpected()))]))])
  {
    var t := Hydrate(SourceSchema, StoredSource());
    StoredArticleClean(n);
    StoredArticleSourceAt(n);
    StoredSourceState(t);
    StoredInfoState(t.ones[0].current.value);
    ChangeDeepInsert(ChangeDeepInfo());
    ChangeDeepQuery(n, t, ChangeDeepInfo());
  }

  lemma ChangeDeepInsert(x: Node)
    requires x == ChangeDeepInfo()
    ensures x.fields != [] && x.fields[0].current == Null
    ensures InsertDoc(x) == ChangeDeepExpected()
  {
    ChangeDeepInfoState();
    ChangeDeepFieldsInsert();
    FlatInsert(x);
  }

  lemma ChangeDeepQuery(n: Node, t: Node, x: Node)
    requires Valid(n) && !Dirty(n) && NodeAt(n, ["source"]) == Some(t)
    requires t.ones != [] && t.ones[0].name == "info" && t.ones[0].current.Some?
    requires t.ones[0].current.value.fields != [] && t.ones[0].current.value.fields[0].current == S("mon")
    requires x.fields != [] && x.fields[0].current == Null
    requires InsertDoc(x) == ChangeDeepExpected()
    ensures QueryForSave(false, EditAt(n, ["source"], SetEmbeddedOne("info", Some(x))))
            == Some([Entry("$set", BDoc([Entry("source.info", BDoc(ChangeDeepExpected()))]))])
  {
    assert Dotted(["source"]) + "info" == "source.info";
    ReplaceQuery(n, ["source"], t, "info", "source.info", x, ChangeDeepExpected());
  }

  lemma StoredInfoState(i: Node)
    requires i == Hydrate(InfoSchema, StoredInfo())
    ensures i.fields[0].current == S("mon")
  {
    assert Lookup(StoredInfo(), "name") == Some(BVal(S("mon")));
  }

  /** The replacement at depth, for a path whose first embedded-one is named `name`. */
  lemma ReplaceQuery(n: Node, path: seq<string>, t: Node, name: string, key: string, x: Node, inserted: seq<Entry>)
    requires Valid(n) && !Dirty(n) && NodeAt(n, path) == Some(t)
    requires t.ones != [] && t.ones[0].name == name && t.ones[0].current.Some?
    requires t.ones[0].current.value.fields != [] && x.fields != []
    requires t.ones[0].current.value.fields[0].current != x.fields[0].current
    requires key == Dotted(path) + name && InsertDoc(x) == inserted
    ensures QueryForSave(false, EditAt(n, path, SetEmbeddedOne(name, Some(x))))
            == Some([Entry("$set", BDoc([Entry(key, BDoc(inserted))]))])
  {
    ReplaceAtDepthQuery(n, path, t, 0, x);
  }

  /** The removal at depth, for a path whose first embedded-one is named `name`. */
  lemma RemoveQuery(n: Node, path: seq<string>, t: Node, name: string, key: string)
    requires Valid(n) && !Dirty(n) && NodeAt(n, path) == Some(t)
    requires t.ones != [] && t.ones[0].name == name && t.ones[0].current.Some?
    requires key == Dotted(path) + name
    ensures QueryForSave(false, EditAt(n, path, SetEmbeddedOne(name, None)))
            == Some([Entry("$unset", BDoc([Entry(key, BVal(Int(1)))]))])
  {
    RemoveAtDepthQuery(n, path, t, 0);
  }

  // -------------------------------------------- testDocumentEmbeddedsManyInsert

  // The documents of this test, built from freshly created ones: i0 a new
  // Info, c0 a new Comment, a0 a new Article.

  /** `setName(345)->setText('foobar')`. */
  function Info345(i0: Node): Node {
    Apply(Apply(i0, SetField("name", Int(345))), SetField("text", S("foobar")))
  }

  /** `setName(456)->setLine('barfoo')`. */
  function Info456(i0: Node): Node {
    Apply(Apply(i0, SetField("name", Int(456))), SetField("line", S("barfoo")))
  }

  /** `setName('ups')`: an info removed without ever being added. */
  function InfoUps(i0: Node): Node {
    Apply(i0, SetField("name", S("ups")))
  }

  /** `setName(123)->setText(null)->setNote('foo')`, two infos added, a never-added info removed. */
  function Comment123(c0: Node, i0: Node): Node {
    Apply(Apply(Apply(Apply(Apply(c0,
      SetField("name", Int(123))), SetField("text", Null)), SetField("note", S("foo"))),
      AddEmbedded("infos", [Info345(i0), Info456(i0)])), RemoveEmbedded("infos", [InfoUps(i0)]))
  }

  /** `setName(234)->setText('bar')`. */
  function Comment234(c0: Node): Node {
    Apply(Apply(c0, SetField("name", Int(234))), SetField("text", S("bar")))
  }

  /** `setName(567)`: a comment removed without ever being added. */
  function Comment567(c0: Node): Node {
    Apply(c0, SetField("name", Int(567)))
  }

  /** `setTitle('foo')`, both comments added, a never-added comment removed. */
  function ManyArticle(a0: Node, c0: Node, i0: Node): Node {
    Apply(Apply(Apply(a0, SetField("title", S("foo"))),
      AddEmbedded("comments", [Comment123(c0, i0), Comment234(c0)])), RemoveEmbedded("comments", [Comment567(c0)]))
  }

  function NewInfoFields(): seq<Field> {
    [F("name", StringKind, Null), F("text", StringKind, Null), F("line", StringKind, Null), F("note", StringKind, Null)]
  }

  function NewCommentFields(): seq<Field> {
    [F("name", StringKind, Null), F("text", StringKind, Null), F("note", StringKind, Null), F("line", StringKind, Null)]
  }

  function NewArticleFields(): seq<Field> {
    [F("title", StringKind, Null), F("content", StringKind, Null), F("note", StringKind, Null),
     F("line", StringKind, Null), F("isActive", BooleanKind, Null), F("date", RawKind, Null),
     F("author", RawKind, Null), F("categories", RawKind, Null)]
  }

  lemma NewInfo(i0: Node)
    requires i0 == Create(InfoSchema)
    ensures i0 == Node(NewInfoFields(), [], [])
  {
  }

  lemma NewComment(c0: Node)
    requires c0 == Create(CommentSchema)
    ensures c0 == Node(NewCommentFields(), [], [Many("infos", [], [], [])])
  {
  }

  lemma NewArticle(a0: Node)
    requires a0 == Create(ArticleSchema)
    ensures a0 == Node(NewArticleFields(), NoSource, [Many("comments", [], [], [])])
  {
  }

  function Info345Fields(): seq<Field> {
    [M("name", StringKind, Null, Int(345)), M("text", StringKind, Null, S("foobar")), F("line", StringKind, Null), F("note", StringKind, Null)]
  }

  function Info456Fields(): seq<Field> {
    [M("name", StringKind, Null, Int(456)), F("text", StringKind, Null), M("line", StringKind, Null, S("barfoo")), F("note", StringKind, Null)]
  }

  function Comment123Fields(): seq<Field> {
    [M("name", StringKind, Null, Int(123)), F("text", StringKind, Null), M("note", StringKind, Null, S("foo")), F("line", StringKind, Null)]
  }

  function Comment234Fields(): seq<Field> {
    [M("name", StringKind, Null, Int(234)), M("text", StringKind, Null, S("bar")), F("note", StringKind, Null), F("line", StringKind, Null)]
  }

  lemma Info345FieldsSet()
    ensures SetFieldIn(SetFieldIn(NewInfoFields(), "name", Int(345)), "text", S("foobar")) == Info345Fields()
  {
    NormalizeTestValues();
  }

  lemma Info456FieldsSet()
    ensures SetFieldIn(SetFieldIn(NewInfoFields(), "name", Int(456)), "line", S("barfoo")) == Info456Fields()
  {
    NormalizeTestValues();
  }

  lemma Comment123FieldsSet()
    ensures SetFieldIn(SetFieldIn(SetFieldIn(NewCommentFields(), "name", Int(123)), "text", Null), "note", S("foo")) == Comment123Fields()
  {
    NormalizeTestValues();
  }

  lemma Comment234FieldsSet()
    ensures SetFieldIn(SetFieldIn(NewCommentFields(), "name", Int(234)), "text", S("bar")) == Comment234Fields()
  {
    NormalizeTestValues();
  }

  lemma ArticleTitleSet()
    ensures SetFieldIn(NewArticleFields(), "title", S("foo")) == InsertArticleFields()
  {
  }

  /** Adding documents to the only embedded-many association of a document appends them to its added ones. */
  lemma AddToOnlyMany(fs: seq<Field>, os: seq<One>, name: string, docs: seq<Node>)
    ensures Apply(Node(fs, os, [Many(name, [], [], [])]), AddEmbedded(name, docs)) == Node(fs, os, [Many(name, [], docs, [])])
  {
    var ms := [Many(name, [], [], [])];
    assert AddMembers(ms[0], docs) == Many(name, [], docs, []);
    assert ManyIn(ms, name, m => AddMembers(m, docs)) == [Many(name, [], docs, [])];
  }

  /** Removing a document that is neither saved nor added leaves an embedded-many association as it was. */
  lemma RemoveUnheld(n: Node, name: string, d: Node)
    requires |n.manys| == 1 && n.manys[0].name == name
    requires d !in n.manys[0].added && d !in n.manys[0].saved
    ensures Apply(n, RemoveEmbedded(name, [d])) == n
  {
    RemoveNeverAdded(n.manys[0], [d]);
    assert ManyIn(n.manys, name, m => RemoveMembers(m, [d])) == n.manys;
  }

  lemma Info345State(i0: Node)
    requires i0 == Node(NewInfoFields(), [], [])
    ensures Info345(i0) == Node(Info345Fields(), [], [])
  {
    SetFieldShape(i0, "name", Int(345));
    SetFieldShape(Apply(i0, SetField("name", Int(345))), "text", S("foobar"));
    Info345FieldsSet();
  }

  lemma Info456State(i0: Node)
    requires i0 == Node(NewInfoFields(), [], [])
    ensures Info456(i0) == Node(Info456Fields(), [], [])
  {
    SetFieldShape(i0, "name", Int(456));
    SetFieldShape(Apply(i0, SetField("name", Int(456))), "line", S("barfoo"));
    Info456FieldsSet();
  }

  lemma InfoUpsState(i0: Node)
    requires i0 == Node(NewInfoFields(), [], [])
    ensures InfoUps(i0).fields[0].current == S("ups")
  {
    SetFieldShape(i0, "name", S("ups"));
  }

  /** The first comment holds its fields and the two added infos; the never-added info changed nothing. */
  lemma Comment123State(c0: Node, i0: Node)
    requires c0 == Node(NewCommentFields(), [], [Many("infos", [], [], [])])
    requires i0 == Node(NewInfoFields(), [], [])
    ensures Comment123(c0, i0) == Node(Comment123Fields(), [], [Many("infos", [], [Info345(i0), Info456(i0)], [])])
  {
    var c1 := Apply(c0, SetField("name", Int(123)));
    var c2 := Apply(c1, SetField("text", Null));
    var c3 := Apply(c2, SetField("note", S("foo")));
    SetFieldShape(c0, "name", Int(123));
    SetFieldShape(c1, "text", Null);
    SetFieldShape(c2, "note", S("foo"));
    Comment123FieldsSet();
    var docs := [Info345(i0), Info456(i0)];
    AddToOnlyMany(Comment123Fields(), [], "infos", docs);
    var c4 := Apply(c3, AddEmbedded("infos", docs));
    InfoUpsState(i0);
    Info345State(i0);
    Info456State(i0);
    assert InfoUps(i0).fields[0] != Info345(i0).fields[0] && InfoUps(i0).fields[0] != Info456(i0).fields[0];
    RemoveUnheld(c4, "infos", InfoUps(i0));
  }

  lemma Comment234State(c0: Node)
    requires c0 == Node(NewCommentFields(), [], [Many("infos", [], [], [])])
    ensures Comment234(c0) == Node(Comment234Fields(), [], [Many("infos", [], [], [])])
  {
    SetFieldShape(c0, "name", Int(234));
    SetFieldShape(Apply(c0, SetField("name", Int(234))), "text", S("bar"));
    Comment234FieldsSet();
  }

  lemma Comment567State(c0: Node)
    requires c0 == Node(NewCommentFields(), [], [Many("infos", [], [], [])])
    ensures Comment567(c0).fields[0].current == Int(567)
  {
    SetFieldShape(c0, "name", Int(567));
  }

  lemma ManyArticleState(a0: Node, c0: Node, i0: Node)
    requires a0 == Node(NewArticleFields(), NoSource, [Many("comments", [], [], [])])
    requires c0 == Node(NewCommentFields(), [], [Many("infos", [], [], [])])
    requires i0 == Node(NewInfoFields(), [], [])
    ensures ManyArticle(a0, c0, i0) == Node(InsertArticleFields(), NoSource, [Many("comments", [], [Comment123(c0, i0), Comment234(c0)], [])])
  {
    SetFieldShape(a0, "title", S("foo"));
    ArticleTitleSet();
    var docs := [Comment123(c0, i0), Comment234(c0)];
    AddToOnlyMany(InsertArticleFields(), NoSource, "comments", docs);
    var a2 := Apply(Apply(a0, SetField("title", S("foo"))), AddEmbedded("comments", docs));
    Comment567State(c0);
    Comment123State(c0, i0);
    Comment234State(c0);
    assert Comment567(c0).fields[0] != Comment123(c0, i0).fields[0] && Comment567(c0).fields[0] != Comment234(c0).fields[0];
    RemoveUnheld(a2, "comments", Comment567(c0));
  }

  /** A document without embedded-one children whose one embedded-many association holds added documents inserts as its fields and their list. */
  lemma ManyLevelInsert(n: Node, fields: seq<Entry>, docs: seq<Node>, listed: seq<Bson>)
    requires forall k :: 0 <= k < |n.ones| ==> n.ones[k].current == None
    requires |n.manys| == 1 && n.manys[0].saved == [] && n.manys[0].added == docs && docs != []
    requires InsertFields(n.fields) == fields && InsertNodes(docs) == listed
    ensures InsertDoc(n) == fields + [Entry(n.manys[0].name, BList(listed))]
  {
    var leaf := n.(manys := []);
    FlatInsert(leaf);
    assert InsertOnes(n.ones) == InsertOnes(leaf.ones) == [];
    assert n.manys[1..] == [];
    assert InsertNodes(n.manys[0].saved) + InsertNodes(docs) == listed;
  }

  /** Two documents list as their two insert forms, in order. */
  lemma TwoNodes(a: Node, b: Node)
    ensures InsertNodes([a, b]) == [BDoc(InsertDoc(a)), BDoc(InsertDoc(b))]
  {
    assert [a, b][1..] == [b];
    assert [b][1..] == [];
  }

  function Info345Expected(): seq<Entry> {
    [Entry("name", BVal(S("345"))), Entry("text", BVal(S("foobar")))]
  }

  function Info456Expected(): seq<Entry> {
    [Entry("name", BVal(S("456"))), Entry("line", BVal(S("barfoo")))]
  }

  function Comment123Expected(): seq<Entry> {
    [Entry("name", BVal(S("123"))), Entry("note", BVal(S("foo"))),
     Entry("infos", BList([BDoc(Info345Expected()), BDoc(Info456Expected())]))]
  }

  function Comment234Expected(): seq<Entry> {
    [Entry("name", BVal(S("234"))), Entry("text", BVal(S("bar")))]
  }

  function ManyInsertExpected(): seq<Entry> {
    [Entry("title", BVal(S("foo"))),
     Entry("comments", BList([BDoc(Comment123Expected()), BDoc(Comment234Expected())]))]
  }

  lemma Info345FieldsInsert()
    ensures InsertFields(Info345Fields()) == Info345Expected()
  {
    NormalizeTestValues();
  }

  lemma Info456FieldsInsert()
    ensures InsertFields(Info456Fields()) == Info456Expected()
  {
    NormalizeTestValues();
  }

  lemma Comment123FieldsInsert()
    ensures InsertFields(Comment123Fields()) == [Entry("name", BVal(S("123"))), Entry("note", BVal(S("foo")))]
  {
    NormalizeTestValues();
  }

  lemma Comment234FieldsInsert()
    ensures InsertFields(Comment234Fields()) == Comment234Expected()
  {
    NormalizeTestValues();
  }

  lemma Comment123Insert(c: Node, i1: Node, i2: Node)
    requires c.ones == [] && c.manys == [Many("infos", [], [i1, i2], [])]
    requires InsertFields(c.fields) == [Entry("name", BVal(S("123"))), Entry("note", BVal(S("foo")))]
    requires InsertDoc(i1) == Info345Expected() && InsertDoc(i2) == Info456Expected()
    ensures InsertDoc(c) == Comment123Expected()
  {
    TwoNodes(i1, i2);
    ManyLevelInsert(c, InsertFields(c.fields), [i1, i2], [BDoc(Info345Expected()), BDoc(Info456Expected())]);
  }

  lemma ManyArticleInsert(a: Node, c1: Node, c2: Node)
    requires a.ones == NoSource && a.manys == [Many("comments", [], [c1, c2], [])]
    requires InsertFields(a.fields) == [Entry("title", BVal(S("foo")))]
    requires InsertDoc(c1) == Comment123Expected() && InsertDoc(c2) == Comment234Expected()
    ensures InsertDoc(a) == ManyInsertExpected()
  {
    TwoNodes(c1, c2);
    ManyLevelInsert(a, InsertFields(a.fields), [c1, c2], [BDoc(Comment123Expected()), BDoc(Comment234Expected())]);
  }

  /** The article with its two comments, the first with its two infos, inserts whole. */
  lemma ManyInsertTree(a: Node, c1: Node, c2: Node, i1: Node, i2: Node)
    requires i1.ones == [] && i1.manys == [] && InsertFields(i1.fields) == Info345Expected()
    requires i2.ones == [] && i2.manys == [] && InsertFields(i2.fields) == Info456Expected()
    requires c1.ones == [] && c1.manys == [Many("infos", [], [i1, i2], [])]
    requires InsertFields(c1.fields) == [Entry("name", BVal(S("123"))), Entry("note", BVal(S("foo")))]
    requires c2.ones == [] && c2.manys == [Many("infos", [], [], [])] && InsertFields(c2.fields) == Comment234Expected()
    requires a.ones == NoSource && a.manys == [Many("comments", [], [c1, c2], [])]
    requires InsertFields(a.fields) == [Entry("title", BVal(S("foo")))]
    ensures InsertDoc(a) == ManyInsertExpected()
  {
    FlatInsert(i1);
    FlatInsert(i2);
    Comment123Insert(c1, i1, i2);
    FlatInsert(c2);
    ManyArticleInsert(a, c1, c2);
  }

  /**
   * The new article inserts its title and its added comments as a list, each
   * comment with its added infos as a nested list; documents removed without
   * ever being added leave no trace.
   */
  lemma EmbeddedsManyInsert(a0: Node, c0: Node, i0: Node)
    requires a0 == Create(ArticleSchema) && c0 == Create(CommentSchema) && i0 == Create(InfoSchema)
    ensures QueryForSave(true, ManyArticle(a0, c0, i0)) == Some(ManyInsertExpected())
  {
    NewArticle(a0);
    NewComment(c0);
    NewInfo(i0);
    Info345State(i0);
    Info456State(i0);
    Comment123State(c0, i0);
    Comment234State(c0);
    ManyArticleState(a0, c0, i0);
    Info345FieldsInsert();
    Info456FieldsInsert();
    Comment123FieldsInsert();
    Comment234FieldsInsert();
    InsertArticleFieldsInsert();
    ManyInsertTree(ManyArticle(a0, c0, i0), Comment123(c0, i0), Comment234(c0), Info345(i0), Info456(i0));
  }
}

/**
 * The dirty-tracking state of a document and of the documents embedded in
 * it: per field the original (last stored) value, the current value and
 * whether it is modified; per embedded-one association the held child and
 * whether it was replaced; per embedded-many association the saved, added
 * and removed members. Embedded documents are owned exclusively by their
 * parent, so the whole state is one tree of values.
 */
module Tracking {
  import opened Values

  /** The mapping metadata of a document class: its fields and embedded associations, in declaration order. */
  datatype FieldDecl = FieldDecl(name: string, kind: Kind)
  datatype SubDecl = SubDecl(name: string, schema: Schema)
  datatype Schema = Schema(fields: seq<FieldDecl>, ones: seq<SubDecl>, manys: seq<SubDecl>)

  datatype Field = Field(name: string, kind: Kind, original: Value, current: Value, modified: bool)
  datatype One = One(name: string, current: Option<Node>, replaced: bool)
  datatype Many = Many(name: string, saved: seq<Node>, added: seq<Node>, removed: seq<Node>)
  datatype Node = Node(fields: seq<Field>, ones: seq<One>, manys: seq<Many>)

  predicate Distinct(names: seq<string>) {
    forall i, j :: 0 <= i < j < |names| ==> names[i] != names[j]
  }

  function FieldNames(fs: seq<Field>): seq<string> {
    seq(|fs|, k requires 0 <= k < |fs| => fs[k].name)
  }

  function OneNames(os: seq<One>): seq<string> {
    seq(|os|, k requires 0 <= k < |os| => os[k].name)
  }

  function ManyNames(ms: seq<Many>): seq<string> {
    seq(|ms|, k requires 0 <= k < |ms| => ms[k].name)
  }

  /** A field is modified exactly when its current value differs from the original once both are normalised. */
  predicate FieldTracked(f: Field) {
    f.modified <==> Normalize(f.kind, f.current) != Normalize(f.kind, f.original)
  }

  /**
   * The tracker invariant, at every depth: each field's modified flag agrees
   * with its values, and the names of the fields and of the embedded
   * associations of one document are distinct.
   */
  predicate Valid(n: Node)
    decreases n
  {
    && Distinct(FieldNames(n.fields))
    && Distinct(OneNames(n.ones))
    && Distinct(ManyNames(n.manys))
    && (forall k :: 0 <= k < |n.fields| ==> FieldTracked(n.fields[k]))
    && (forall k :: 0 <= k < |n.ones| && n.ones[k].current.Some? ==> Valid(n.ones[k].current.value))
    && (forall k :: 0 <= k < |n.manys| ==> ValidNodes(n.manys[k].saved) && ValidNodes(n.manys[k].added))
  }

  predicate ValidNodes(ns: seq<Node>)
    decreases ns
  {
    ns == [] || (Valid(ns[0]) && ValidNodes(ns[1..]))
  }

  /** The schema metadata a generated document class is built from: distinct names at every depth. */
  predicate ValidSchema(s: Schema)
    decreases s
  {
    && Distinct(seq(|s.fields|, k requires 0 <= k < |s.fields| => s.fields[k].name))
    && Distinct(seq(|s.ones|, k requires 0 <= k < |s.ones| => s.ones[k].name))
    && Distinct(seq(|s.manys|, k requires 0 <= k < |s.manys| => s.manys[k].name))
    && (forall k :: 0 <= k < |s.ones| ==> ValidSchema(s.ones[k].schema))
    && (forall k :: 0 <= k < |s.manys| ==> ValidSchema(s.manys[k].schema))
  }

  // ---------------------------------------------------------------- creation

  /** A new document (`$mongator->create(...)`): every field null and unmodified, no embedded documents. */
  function Create(s: Schema): Node {
    Node(
      seq(|s.fields|, k requires 0 <= k < |s.fields| => Field(s.fields[k].name, s.fields[k].kind, Null, Null, false)),
      seq(|s.ones|, k requires 0 <= k < |s.ones| => One(s.ones[k].name, None, false)),
      seq(|s.manys|, k requires 0 <= k < |s.manys| => Many(s.manys[k].name, [], [], [])))
  }

  lemma CreateValid(s: Schema)
    requires ValidSchema(s)
    ensures Valid(Create(s))
  {
    var n := Create(s);
    assert FieldNames(n.fields) == seq(|s.fields|, k requires 0 <= k < |s.fields| => s.fields[k].name);
    assert OneNames(n.ones) == seq(|s.ones|, k requires 0 <= k < |s.ones| => s.ones[k].name);
    assert ManyNames(n.manys) == seq(|s.manys|, k requires 0 <= k < |s.manys| => s.manys[k].name);
  }

  // --------------------------------------------------------------- hydration

  /** The value a stored document holds for a field; an absent key reads as null. */
  function StoredValue(data: seq<Entry>, name: string): Value {
    match Lookup(data, name)
    case Some(BVal(v)) => v
    case _ => Null
  }

  /**
   * `setDocumentData($data, true)`: the stored document becomes both the
   * original and the current state, with nothing modified; embedded
   * documents are built from their sub-arrays.
   */
  function Hydrate(s: Schema, data: seq<Entry>): Node
    decreases s, 0
  {
    Node(
      seq(|s.fields|, k requires 0 <= k < |s.fields| =>
        var v := StoredValue(data, s.fields[k].name);
        Field(s.fields[k].name, s.fields[k].kind, v, v, false)),
      HydrateOnes(s.ones, data),
      HydrateManys(s.manys, data))
  }

  function HydrateOnes(ds: seq<SubDecl>, data: seq<Entry>): (os: seq<One>)
    ensures |os| == |ds|
    ensures forall k :: 0 <= k < |ds| ==> os[k].name == ds[k].name && !os[k].replaced
    decreases ds
  {
    if ds == [] then []
    else
      var child := match Lookup(data, ds[0].name)
        case Some(BDoc(d)) => Some(Hydrate(ds[0].schema, d))
        case _ => None;
      [One(ds[0].name, child, false)] + HydrateOnes(ds[1..], data)
  }

  function HydrateManys(ds: seq<SubDecl>, data: seq<Entry>): (ms: seq<Many>)
    ensures |ms| == |ds|
    ensures forall k :: 0 <= k < |ds| ==> ms[k].name == ds[k].name && ms[k].added == [] && ms[k].removed == []
    decreases ds
  {
    if ds == [] then []
    else
      var saved := match Lookup(data, ds[0].name)
        case Some(BList(items)) => HydrateItems(ds[0].schema, items)
        case _ => [];
      [Many(ds[0].name, saved, [], [])] + HydrateManys(ds[1..], data)
  }

  /** The members of a stored list of embedded documents (entries that are not sub-documents are skipped). */
  function HydrateItems(s: Schema, items: seq<Bson>): seq<Node>
    decreases s, 1, items
  {
    if items == [] then []
    else
      (match items[0] case BDoc(d) => [Hydrate(s, d)] case _ => []) + HydrateItems(s, items[1..])
  }

  // ----------------------------------------------------------------- setters

  /** A field setter: the new current value, modified iff it differs from the original after normalisation. */
  function SetValue(f: Field, v: Value): (r: Field)
    ensures FieldTracked(r)
    ensures r.name == f.name && r.kind == f.kind && r.original == f.original && r.current == v
  {
    f.(current := v, modified := Normalize(f.kind, v) != Normalize(f.kind, f.original))
  }

  function SetFieldIn(fs: seq<Field>, name: string, v: Value): seq<Field> {
    seq(|fs|, k requires 0 <= k < |fs| => if fs[k].name == name then SetValue(fs[k], v) else fs[k])
  }

  /** An embedded-one setter: the new child (or none) is held and the association is marked replaced. */
  function SetChild(o: One, c: Option<Node>): (r: One)
    ensures r.name == o.name && r.current == c && r.replaced
  {
    o.(current := c, replaced := true)
  }

  function SetOneIn(os: seq<One>, name: string, c: Option<Node>): seq<One> {
    seq(|os|, k requires 0 <= k < |os| => if os[k].name == name then SetChild(os[k], c) else os[k])
  }

  /** `getX()->add($docs)` on an embedded-many association: the documents are appended to the added ones. */
  function AddMembers(m: Many, docs: seq<Node>): Many {
    m.(added := m.added + docs)
  }

  /**
   * `getX()->remove($doc)`: an added document is dropped from the added ones,
   * a saved one is moved to the removed ones, any other document is ignored.
   */
  function RemoveMember(m: Many, d: Node): (r: Many)
    ensures d !in m.added && d !in m.saved ==> r == m
  {
    if d in m.added then m.(added := RemoveFirst(m.added, d))
    else if d in m.saved then m.(saved := RemoveFirst(m.saved, d), removed := m.removed + [d])
    else m
  }

  function RemoveMembers(m: Many, docs: seq<Node>): Many
    decreases docs
  {
    if docs == [] then m else RemoveMembers(RemoveMember(m, docs[0]), docs[1..])
  }

  function ManyIn(ms: seq<Many>, name: string, change: Many -> Many): seq<Many> {
    seq(|ms|, k requires 0 <= k < |ms| => if ms[k].name == name then change(ms[k]) else ms[k])
  }

  /** One mutation of a document, as its generated setters and association objects perform it. */
  datatype Edit =
    | SetField(field: string, v: Value)
    | SetEmbeddedOne(one: string, child: Option<Node>)
    | AddEmbedded(many: string, docs: seq<Node>)
    | RemoveEmbedded(many: string, docs: seq<Node>)

  function Apply(n: Node, e: Edit): Node {
    match e
    case SetField(name, v) => n.(fields := SetFieldIn(n.fields, name, v))
    case SetEmbeddedOne(name, c) => n.(ones := SetOneIn(n.ones, name, c))
    case AddEmbedded(name, docs) => n.(manys := ManyIn(n.manys, name, m => AddMembers(m, docs)))
    case RemoveEmbedded(name, docs) => n.(manys := ManyIn(n.manys, name, m => RemoveMembers(m, docs)))
  }

  /**
   * The edit applied to the document reached through the embedded-one
   * associations named by path (`$article->getSource()->getInfo()->setName(...)`).
   * The child is mutated in place: its association is not marked replaced.
   * A path through an empty association changes nothing (a document
   * reaches such a path only through a getter that returns null, see
   * `Documents.Document.Change`).
   */
  function EditAt(n: Node, path: seq<string>, e: Edit): Node
    decreases path
  {
    if path == [] then Apply(n, e)
    else
      n.(ones := seq(|n.ones|, k requires 0 <= k < |n.ones| =>
        if n.ones[k].name == path[0] && n.ones[k].current.Some?
        then n.ones[k].(current := Some(EditAt(n.ones[k].current.value, path[1..], e)))
        else n.ones[k]))
  }

  /** The child held by the first embedded-one association with this name. */
  function ChildNamed(os: seq<One>, name: string): Option<Node>
    decreases os
  {
    if os == [] then None else if os[0].name == name then os[0].current else ChildNamed(os[1..], name)
  }

  /** The embedded document reached from n through the embedded-one associations named by path. */
  function NodeAt(n: Node, path: seq<string>): Option<Node>
    decreases path
  {
    if path == [] then Some(n)
    else match ChildNamed(n.ones, path[0])
      case Some(c) => NodeAt(c, path[1..])
      case None => None
  }
}

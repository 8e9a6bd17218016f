/**
 * The tracker invariant is kept by every operation: a document read from
 * the database, a setter, an association change, and an edit made to an
 * embedded child at any depth all leave each modified flag in agreement
 * with the values and the names distinct.
 */
module TrackingProperties {
  import opened Values
  import opened Tracking

  lemma {:induction false} ValidNodesAll(ns: seq<Node>)
    ensures ValidNodes(ns) <==> forall k :: 0 <= k < |ns| ==> Valid(ns[k])
    decreases |ns|
  {
    if ns != [] {
      ValidNodesAll(ns[1..]);
      if forall k :: 0 <= k < |ns| ==> Valid(ns[k]) {
        assert forall k :: 0 <= k < |ns| - 1 ==> ns[1..][k] == ns[k + 1];
      }
      if ValidNodes(ns) {
        forall k | 0 <= k < |ns| ensures Valid(ns[k]) {
          if k > 0 { assert ns[k] == ns[1..][k - 1]; }
        }
      }
    }
  }

  // ------------------------------------------------------------- hydration

  /** A document read from the database satisfies the tracker invariant. */
  lemma {:induction false} HydrateValid(s: Schema, data: seq<Entry>)
    requires ValidSchema(s)
    ensures Valid(Hydrate(s, data))
    decreases s, 0
  {
    var n := Hydrate(s, data);
    assert FieldNames(n.fields) == seq(|s.fields|, k requires 0 <= k < |s.fields| => s.fields[k].name);
    assert OneNames(n.ones) == seq(|s.ones|, k requires 0 <= k < |s.ones| => s.ones[k].name);
    assert ManyNames(n.manys) == seq(|s.manys|, k requires 0 <= k < |s.manys| => s.manys[k].name);
    HydrateOnesValid(s.ones, data);
    HydrateManysValid(s.manys, data);
    assert n.ones == HydrateOnes(s.ones, data);
    assert n.manys == HydrateManys(s.manys, data);
  }

  lemma {:induction false} HydrateOnesValid(ds: seq<SubDecl>, data: seq<Entry>)
    requires forall k :: 0 <= k < |ds| ==> ValidSchema(ds[k].schema)
    ensures var os := HydrateOnes(ds, data);
      forall k :: 0 <= k < |os| && os[k].current.Some? ==> Valid(os[k].current.value)
    decreases ds
  {
    if ds != [] {
      var os := HydrateOnes(ds, data);
      HydrateOnesValid(ds[1..], data);
      assert os[1..] == HydrateOnes(ds[1..], data);
      match Lookup(data, ds[0].name) {
        case Some(BDoc(d)) => HydrateValid(ds[0].schema, d);
        case _ =>
      }
      forall k | 0 <= k < |os| && os[k].current.Some? ensures Valid(os[k].current.value) {
        if k > 0 { assert os[k] == os[1..][k - 1]; }
      }
    }
  }

  lemma {:induction false} HydrateManysValid(ds: seq<SubDecl>, data: seq<Entry>)
    requires forall k :: 0 <= k < |ds| ==> ValidSchema(ds[k].schema)
    ensures var ms := HydrateManys(ds, data);
      forall k :: 0 <= k < |ms| ==> ValidNodes(ms[k].saved) && ValidNodes(ms[k].added)
    decreases ds
  {
    if ds != [] {
      var ms := HydrateManys(ds, data);
      HydrateManysValid(ds[1..], data);
      assert ms[1..] == HydrateManys(ds[1..], data);
      match Lookup(data, ds[0].name) {
        case Some(BList(items)) => HydrateItemsValid(ds[0].schema, items);
        case _ =>
      }
      forall k | 0 <= k < |ms| ensures ValidNodes(ms[k].saved) && ValidNodes(ms[k].added) {
        if k > 0 { assert ms[k] == ms[1..][k - 1]; }
      }
    }
  }

  lemma {:induction false} HydrateItemsValid(s: Schema, items: seq<Bson>)
    requires ValidSchema(s)
    ensures ValidNodes(HydrateItems(s, items))
    decreases s, 1, items
  {
    if items != [] {
      HydrateItemsValid(s, items[1..]);
      match items[0]
      case BDoc(d) =>
        HydrateValid(s, d);
        assert HydrateItems(s, items)[1..] == HydrateItems(s, items[1..]);
      case _ =>
        assert HydrateItems(s, items) == HydrateItems(s, items[1..]);
    }
  }

  // ----------------------------------------------------------------- edits

  /** The documents an edit brings into the tree satisfy the invariant themselves. */
  predicate EditValid(e: Edit) {
    match e
    case SetEmbeddedOne(_, Some(c)) => Valid(c)
    case AddEmbedded(_, docs) => ValidNodes(docs)
    case _ => true
  }

  /** `remove($d)` of an added document drops its first occurrence from the added ones, and nothing else changes. */
  lemma RemoveAddedMember(m: Many, d: Node)
    requires d in m.added
    ensures var r := RemoveMember(m, d);
      && r.name == m.name && r.saved == m.saved && r.removed == m.removed
      && r.added == RemoveFirst(m.added, d)
      && multiset(r.added) == multiset(m.added) - multiset{d}
  {
    RemoveFirstMultiset(m.added, d);
  }

  /** `remove($d)` of a saved document that was not added moves it from the saved ones to the removed ones. */
  lemma RemoveSavedMember(m: Many, d: Node)
    requires d in m.saved && d !in m.added
    ensures var r := RemoveMember(m, d);
      && r.name == m.name && r.added == m.added && r.removed == m.removed + [d]
      && r.saved == RemoveFirst(m.saved, d)
      && multiset(r.saved) == multiset(m.saved) - multiset{d}
  {
    RemoveFirstMultiset(m.saved, d);
  }

  /** Adding a document and then removing it restores the association. */
  lemma RemoveUndoesAdd(m: Many, d: Node)
    requires d !in m.added
    ensures RemoveMember(AddMembers(m, [d]), d) == m
  {
    var a := m.added + [d];
    assert a[|m.added|] == d;
    var k := IndexOf(a, d);
    assert k == |m.added|;
    assert RemoveAt(a, k) == m.added;
  }

  lemma RemoveFirstValid(ns: seq<Node>, d: Node)
    requires ValidNodes(ns)
    ensures ValidNodes(RemoveFirst(ns, d))
  {
    ValidNodesAll(ns);
    ValidNodesAll(RemoveFirst(ns, d));
  }

  lemma {:induction false} RemoveMembersValid(m: Many, docs: seq<Node>)
    requires ValidNodes(m.saved) && ValidNodes(m.added)
    ensures var r := RemoveMembers(m, docs);
      ValidNodes(r.saved) && ValidNodes(r.added) && r.name == m.name
    decreases docs
  {
    if docs != [] {
      RemoveFirstValid(m.added, docs[0]);
      RemoveFirstValid(m.saved, docs[0]);
      RemoveMembersValid(RemoveMember(m, docs[0]), docs[1..]);
    }
  }

  /** Every setter and association change keeps the tracker invariant. */
  lemma ApplyValid(n: Node, e: Edit)
    requires Valid(n) && EditValid(e)
    ensures Valid(Apply(n, e))
  {
    var r := Apply(n, e);
    match e
    case SetField(name, v) =>
      assert FieldNames(r.fields) == FieldNames(n.fields);
    case SetEmbeddedOne(name, c) =>
      assert OneNames(r.ones) == OneNames(n.ones);
    case AddEmbedded(name, docs) =>
      assert ManyNames(r.manys) == ManyNames(n.manys);
      ValidNodesAll(docs);
      forall k | 0 <= k < |n.manys| ensures ValidNodes(r.manys[k].added) {
        ValidNodesAll(n.manys[k].added);
        ValidNodesAll(n.manys[k].added + docs);
      }
    case RemoveEmbedded(name, docs) =>
      forall k | 0 <= k < |n.manys|
        ensures ValidNodes(r.manys[k].saved) && ValidNodes(r.manys[k].added) && r.manys[k].name == n.manys[k].name
      {
        RemoveMembersValid(n.manys[k], docs);
      }
      assert ManyNames(r.manys) == ManyNames(n.manys);
  }

  /** An edit made to an embedded child at any depth keeps the invariant of the whole document. */
  lemma {:induction false} EditAtValid(n: Node, path: seq<string>, e: Edit)
    requires Valid(n) && EditValid(e)
    ensures Valid(EditAt(n, path, e))
    decreases path
  {
    if path == [] {
      ApplyValid(n, e);
    } else {
      var r := EditAt(n, path, e);
      assert OneNames(r.ones) == OneNames(n.ones);
      forall k | 0 <= k < |r.ones| && r.ones[k].current.Some? ensures Valid(r.ones[k].current.value) {
        if n.ones[k].name == path[0] && n.ones[k].current.Some? {
          EditAtValid(n.ones[k].current.value, path[1..], e);
        }
      }
    }
  }

  /** Setting a field back to its current value gives back the same field: the dirty state is a function of the values. */
  lemma SetValueRestores(f: Field, v: Value)
    requires FieldTracked(f)
    ensures SetValue(SetValue(f, v), f.current) == f
  {
  }

  /** Setting a field to a value that stores as the original clears its modified flag. */
  lemma SetValueBackToOriginal(f: Field, v: Value)
    requires Normalize(f.kind, v) == Normalize(f.kind, f.original)
    ensures !SetValue(f, v).modified
  {
  }
}

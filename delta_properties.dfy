/**
 * What the save query promises, for every document: the insert form holds
 * exactly the non-null fields, normalised, and no null at any depth; the
 * update holds exactly the modified fields; an unchanged document has an
 * empty update and a changed one a non-empty update; every path of a
 * child's update lies under the child's path.
 */
module DeltaProperties {
  import opened Values
  import opened Tracking
  import opened Delta

  // ------------------------------------------------------------ insert form

  /** Each field appears in the insert document, with its stored value, exactly when that value is not null. */
  lemma {:induction false} InsertFieldsExact(fs: seq<Field>, k: nat)
    requires Distinct(FieldNames(fs))
    requires k < |fs|
    ensures Lookup(InsertFields(fs), fs[k].name) == if Stored(fs[k]) != Null then Some(BVal(Stored(fs[k]))) else None
    decreases |fs|
  {
    DistinctTail(fs);
    var rest := InsertFields(fs[1..]);
    if Stored(fs[0]) != Null {
      LookupCons(Entry(fs[0].name, BVal(Stored(fs[0]))), rest, fs[k].name);
    } else {
      assert InsertFields(fs) == rest;
    }
    if k == 0 {
      if Stored(fs[0]) == Null {
        InsertFieldsOmits(fs[1..], fs[0].name);
      }
    } else {
      assert fs[0].name != fs[k].name by {
        assert FieldNames(fs)[0] == fs[0].name && FieldNames(fs)[k] == fs[k].name;
      }
      InsertFieldsExact(fs[1..], k - 1);
    }
  }

  /** The fields after the first have distinct names, none of them the first's. */
  lemma DistinctTail(fs: seq<Field>)
    requires Distinct(FieldNames(fs))
    requires fs != []
    ensures Distinct(FieldNames(fs[1..]))
    ensures forall k :: 0 <= k < |fs| - 1 ==> fs[1..][k].name != fs[0].name
  {
    forall i, j | 0 <= i < j < |fs| - 1 ensures FieldNames(fs[1..])[i] != FieldNames(fs[1..])[j] {
      assert FieldNames(fs[1..])[i] == FieldNames(fs)[i + 1];
      assert FieldNames(fs[1..])[j] == FieldNames(fs)[j + 1];
    }
    forall k | 0 <= k < |fs| - 1 ensures fs[1..][k].name != fs[0].name {
      assert FieldNames(fs)[0] == fs[0].name && FieldNames(fs)[k + 1] == fs[k + 1].name;
    }
  }

  lemma LookupCons(e: Entry, rest: seq<Entry>, key: string)
    ensures Lookup([e] + rest, key) == if e.key == key then Some(e.val) else Lookup(rest, key)
  {
    assert ([e] + rest)[1..] == rest;
  }

  /** A key that names no field is absent from the insert document. */
  lemma {:induction false} InsertFieldsOmits(fs: seq<Field>, name: string)
    requires forall k :: 0 <= k < |fs| ==> fs[k].name != name
    ensures Lookup(InsertFields(fs), name) == None
    decreases |fs|
  {
    if fs != [] {
      InsertFieldsOmits(fs[1..], name);
      if Stored(fs[0]) != Null {
        LookupCons(Entry(fs[0].name, BVal(Stored(fs[0]))), InsertFields(fs[1..]), name);
      } else {
        assert InsertFields(fs) == InsertFields(fs[1..]);
      }
    }
  }

  /** No null is written at any depth of a new document (fields set to null are dropped, also in embedded documents). */
  lemma {:induction false} InsertDocNoNull(n: Node)
    ensures NoNullDoc(InsertDoc(n))
    decreases n, 3
  {
    InsertFieldsNoNull(n.fields);
    InsertOnesNoNull(n.ones);
    InsertManysNoNull(n.manys);
    NoNullDocAppend(InsertFields(n.fields), InsertOnes(n.ones));
    NoNullDocAppend(InsertFields(n.fields) + InsertOnes(n.ones), InsertManys(n.manys));
  }

  lemma {:induction false} InsertFieldsNoNull(fs: seq<Field>)
    ensures NoNullDoc(InsertFields(fs))
    decreases fs
  {
    if fs != [] {
      InsertFieldsNoNull(fs[1..]);
      var head := if Stored(fs[0]) != Null then [Entry(fs[0].name, BVal(Stored(fs[0])))] else [];
      assert NoNullDoc(head) by {
        if head != [] {
          assert head[1..] == [];
        }
      }
      NoNullDocAppend(head, InsertFields(fs[1..]));
    }
  }

  lemma {:induction false} InsertOnesNoNull(os: seq<One>)
    ensures NoNullDoc(InsertOnes(os))
    decreases os, 2
  {
    if os != [] {
      InsertOnesNoNull(os[1..]);
      match os[0].current
      case Some(c) =>
        InsertDocNoNull(c);
        var head := [Entry(os[0].name, BDoc(InsertDoc(c)))];
        assert head[1..] == [];
        NoNullDocAppend(head, InsertOnes(os[1..]));
      case None =>
        assert InsertOnes(os) == InsertOnes(os[1..]);
    }
  }

  lemma {:induction false} InsertManysNoNull(ms: seq<Many>)
    ensures NoNullDoc(InsertManys(ms))
    decreases ms, 2
  {
    if ms != [] {
      InsertManysNoNull(ms[1..]);
      if ms[0].saved + ms[0].added == [] {
        assert InsertManys(ms) == InsertManys(ms[1..]);
      } else {
        InsertNodesNoNull(ms[0].saved);
        InsertNodesNoNull(ms[0].added);
        NoNullListAppend(InsertNodes(ms[0].saved), InsertNodes(ms[0].added));
        var head := [Entry(ms[0].name, BList(InsertNodes(ms[0].saved) + InsertNodes(ms[0].added)))];
        assert head[1..] == [];
        assert NoNullBson(head[0].val);
        assert NoNullDoc(head);
        NoNullDocAppend(head, InsertManys(ms[1..]));
      }
    }
  }

  lemma {:induction false} InsertNodesNoNull(ns: seq<Node>)
    ensures NoNullList(InsertNodes(ns))
    decreases ns, 2
  {
    if ns != [] {
      InsertDocNoNull(ns[0]);
      InsertNodesNoNull(ns[1..]);
      assert InsertNodes(ns)[1..] == InsertNodes(ns[1..]);
    }
  }

  lemma {:induction false} NoNullListAppend(a: seq<Bson>, b: seq<Bson>)
    requires NoNullList(a) && NoNullList(b)
    ensures NoNullList(a + b)
    decreases |a|
  {
    if a == [] {
      assert a + b == b;
    } else {
      assert (a + b)[0] == a[0];
      assert (a + b)[1..] == a[1..] + b;
      NoNullListAppend(a[1..], b);
    }
  }

  /** A document just created, before any setter, inserts as the empty array. */
  lemma CreateInsertsNothing(s: Schema)
    ensures InsertDoc(Create(s)) == []
  {
    var n := Create(s);
    CreateFieldsInsertNothing(n.fields);
    CreateOnesInsertNothing(n.ones);
    CreateManysInsertNothing(n.manys);
  }

  lemma {:induction false} CreateFieldsInsertNothing(fs: seq<Field>)
    requires forall k :: 0 <= k < |fs| ==> fs[k].current == Null
    ensures InsertFields(fs) == []
    decreases |fs|
  {
    if fs != [] {
      CreateFieldsInsertNothing(fs[1..]);
    }
  }

  lemma {:induction false} CreateOnesInsertNothing(os: seq<One>)
    requires forall k :: 0 <= k < |os| ==> os[k].current == None
    ensures InsertOnes(os) == []
    decreases |os|
  {
    if os != [] {
      CreateOnesInsertNothing(os[1..]);
    }
  }

  lemma {:induction false} CreateManysInsertNothing(ms: seq<Many>)
    requires forall k :: 0 <= k < |ms| ==> ms[k].saved == [] && ms[k].added == []
    ensures InsertManys(ms) == []
    decreases |ms|
  {
    if ms != [] {
      CreateManysInsertNothing(ms[1..]);
    }
  }

  // ------------------------------------------------------------ update form

  /**
   * The `$set` entries of a document's own fields are exactly its modified
   * fields with a non-null stored value; its `$unset` paths are exactly its
   * modified fields whose value is now null; fields never push.
   */
  lemma {:induction false} UpdateFieldsExact(fs: seq<Field>, p: string, k: nat)
    requires Distinct(FieldNames(fs))
    requires k < |fs|
    ensures Lookup(UpdateFields(fs, p).sets, p + fs[k].name)
            == if fs[k].modified && Stored(fs[k]) != Null then Some(BVal(Stored(fs[k]))) else None
    ensures (p + fs[k].name in UpdateFields(fs, p).unsets) <==> fs[k].modified && Stored(fs[k]) == Null
    ensures UpdateFields(fs, p).pushes == []
    decreases |fs|
  {
    DistinctTail(fs);
    var head, rest := FieldOps(fs[0], p), UpdateFields(fs[1..], p);
    if head.sets != [] {
      assert head.sets == [head.sets[0]];
      LookupCons(head.sets[0], rest.sets, p + fs[k].name);
    } else {
      assert UpdateFields(fs, p).sets == rest.sets;
    }
    if k == 0 {
      UpdateFieldsOmits(fs[1..], p, fs[0].name);
    } else {
      assert fs[0].name != fs[k].name by {
        assert FieldNames(fs)[0] == fs[0].name && FieldNames(fs)[k] == fs[k].name;
      }
      PrefixInjective(p, fs[0].name, fs[k].name);
      UpdateFieldsExact(fs[1..], p, k - 1);
    }
  }

  lemma PrefixInjective(p: string, a: string, b: string)
    requires a != b
    ensures p + a != p + b
  {
    assert (p + a)[|p|..] == a && (p + b)[|p|..] == b;
  }

  /** A path that is no field's path is neither set nor unset by the fields. */
  lemma {:induction false} UpdateFieldsOmits(fs: seq<Field>, p: string, name: string)
    requires forall k :: 0 <= k < |fs| ==> fs[k].name != name
    ensures Lookup(UpdateFields(fs, p).sets, p + name) == None
    ensures p + name !in UpdateFields(fs, p).unsets
    ensures UpdateFields(fs, p).pushes == []
    decreases |fs|
  {
    if fs != [] {
      UpdateFieldsOmits(fs[1..], p, name);
      PrefixInjective(p, fs[0].name, name);
      var head, rest := FieldOps(fs[0], p), UpdateFields(fs[1..], p);
      if head.sets != [] {
        assert head.sets == [head.sets[0]];
        LookupCons(head.sets[0], rest.sets, p + name);
      } else {
        assert UpdateFields(fs, p).sets == rest.sets;
      }
    }
  }

  // ---------------------------------------------------- clean <==> no-op

  lemma JoinAssoc(a: Ops, b: Ops, c: Ops)
    ensures Join(a, Join(b, c)) == Join(Join(a, b), c)
  {
    assert a.sets + (b.sets + c.sets) == (a.sets + b.sets) + c.sets;
    assert a.unsets + (b.unsets + c.unsets) == (a.unsets + b.unsets) + c.unsets;
    assert a.pushes + (b.pushes + c.pushes) == (a.pushes + b.pushes) + c.pushes;
  }

  /** The update of a field list is the updates of its parts, in order. */
  lemma {:induction false} UpdateFieldsAppend(a: seq<Field>, b: seq<Field>, p: string)
    ensures UpdateFields(a + b, p) == Join(UpdateFields(a, p), UpdateFields(b, p))
    decreases |a|
  {
    if a == [] {
      assert a + b == b;
      var u := UpdateFields(b, p);
      assert [] + u.sets == u.sets && [] + u.unsets == u.unsets && [] + u.pushes == u.pushes;
    } else {
      var ab := a + b;
      assert ab != [] && ab[0] == a[0] && ab[1..] == a[1..] + b;
      assert UpdateFields(ab, p) == Join(FieldOps(a[0], p), UpdateFields(a[1..] + b, p));
      UpdateFieldsAppend(a[1..], b, p);
      JoinAssoc(FieldOps(a[0], p), UpdateFields(a[1..], p), UpdateFields(b, p));
    }
  }

  lemma JoinNoOps(a: Ops, b: Ops)
    ensures Join(a, b) == NoOps <==> a == NoOps && b == NoOps
  {
    if Join(a, b) == NoOps {
      assert |a.sets| == 0 && |a.unsets| == 0 && |a.pushes| == 0;
    }
  }

  /** The update of an existing document is empty exactly when the document has no unsaved change. */
  lemma {:induction false} CleanIffNoUpdate(n: Node, p: string)
    ensures UpdateDoc(n, p) == Some(NoOps) <==> !Dirty(n)
    decreases n, 3
  {
    FieldsCleanIffNoUpdate(n.fields, p);
    OnesCleanIffNoUpdate(n.ones, p);
    ManysCleanIffNoUpdate(n.manys, p);
    var f, o, m := UpdateFields(n.fields, p), UpdateOnes(n.ones, p), UpdateManys(n.manys, p);
    if o.Some? && m.Some? {
      JoinNoOps(o.value, m.value);
      JoinNoOps(f, Join(o.value, m.value));
    }
  }

  lemma {:induction false} FieldsCleanIffNoUpdate(fs: seq<Field>, p: string)
    ensures UpdateFields(fs, p) == NoOps <==> !(exists k :: 0 <= k < |fs| && fs[k].modified)
    decreases |fs|
  {
    if fs != [] {
      FieldsCleanIffNoUpdate(fs[1..], p);
      JoinNoOps(FieldOps(fs[0], p), UpdateFields(fs[1..], p));
      if exists k :: 0 <= k < |fs| && fs[k].modified {
        var k :| 0 <= k < |fs| && fs[k].modified;
        if k > 0 {
          assert fs[1..][k - 1].modified;
        }
      }
      if exists k :: 0 <= k < |fs| - 1 && fs[1..][k].modified {
        var k :| 0 <= k < |fs| - 1 && fs[1..][k].modified;
        assert fs[k + 1].modified;
      }
    }
  }

  lemma {:induction false} OnesCleanIffNoUpdate(os: seq<One>, p: string)
    ensures UpdateOnes(os, p) == Some(NoOps) <==> !DirtyOnes(os)
    decreases os, 2
  {
    if os != [] {
      OneCleanIffNoUpdate(os[0], p);
      OnesCleanIffNoUpdate(os[1..], p);
      var a, b := OneOps(os[0], p), UpdateOnes(os[1..], p);
      if a.Some? && b.Some? {
        JoinNoOps(a.value, b.value);
      }
    }
  }

  lemma {:induction false} OneCleanIffNoUpdate(o: One, p: string)
    ensures OneOps(o, p) == Some(NoOps) <==> !OneDirty(o)
    decreases o, 1
  {
    if !o.replaced && o.current.Some? {
      CleanIffNoUpdate(o.current.value, p + o.name + ".");
    }
  }

  lemma {:induction false} ManysCleanIffNoUpdate(ms: seq<Many>, p: string)
    ensures UpdateManys(ms, p) == Some(NoOps) <==> !DirtyManys(ms)
    decreases ms, 2
  {
    if ms != [] {
      ManysCleanIffNoUpdate(ms[1..], p);
      var a, b := ManyOps(ms[0], p), UpdateManys(ms[1..], p);
      if a.Some? && b.Some? {
        JoinNoOps(a.value, b.value);
      }
    }
  }

  /** Groups are omitted when empty, so an empty update is the empty query. */
  lemma GroupsEmpty(ops: Ops)
    ensures Groups(ops) == [] <==> ops == NoOps
  {
  }

  /** An existing document saves as the empty query exactly when nothing in it changed. */
  lemma ExistingNoOpQuery(n: Node)
    ensures QueryForSave(false, n) == Some([]) <==> !Dirty(n)
  {
    CleanIffNoUpdate(n, "");
    if UpdateDoc(n, "").Some? {
      GroupsEmpty(UpdateDoc(n, "").value);
    }
  }

  // -------------------------------------------------------------- hydration

  /** A document just read from the database (`setDocumentData`) has no unsaved change. */
  lemma {:induction false} HydrateClean(s: Schema, data: seq<Entry>)
    ensures !Dirty(Hydrate(s, data))
    decreases s, 0
  {
    HydrateOnesClean(s.ones, data);
    HydrateManysClean(s.manys, data);
  }

  lemma {:induction false} HydrateOnesClean(ds: seq<SubDecl>, data: seq<Entry>)
    ensures !DirtyOnes(HydrateOnes(ds, data))
    decreases ds
  {
    if ds != [] {
      var os := HydrateOnes(ds, data);
      assert os[1..] == HydrateOnes(ds[1..], data);
      HydrateOnesClean(ds[1..], data);
      match Lookup(data, ds[0].name)
      case Some(BDoc(d)) =>
        HydrateClean(ds[0].schema, d);
      case _ =>
    }
  }

  lemma {:induction false} HydrateManysClean(ds: seq<SubDecl>, data: seq<Entry>)
    ensures !DirtyManys(HydrateManys(ds, data))
    decreases ds
  {
    if ds != [] {
      var ms := HydrateManys(ds, data);
      assert ms[1..] == HydrateManys(ds[1..], data);
      HydrateManysClean(ds[1..], data);
      match Lookup(data, ds[0].name)
      case Some(BList(items)) =>
        HydrateItemsClean(ds[0].schema, items);
        assert ms[0].saved == HydrateItems(ds[0].schema, items);
      case _ =>
        assert ms[0].saved == [];
        assert !DirtyNodes(ms[0].saved);
        assert ms[0].added == [] && ms[0].removed == [];
    }
  }

  lemma {:induction false} HydrateItemsClean(s: Schema, items: seq<Bson>)
    ensures !DirtyNodes(HydrateItems(s, items))
    decreases s, 1, items
  {
    if items != [] {
      HydrateItemsClean(s, items[1..]);
      match items[0]
      case BDoc(d) =>
        HydrateClean(s, d);
        assert HydrateItems(s, items) == [Hydrate(s, d)] + HydrateItems(s, items[1..]);
        assert HydrateItems(s, items)[1..] == HydrateItems(s, items[1..]);
      case _ =>
        assert HydrateItems(s, items) == HydrateItems(s, items[1..]);
    }
  }

  // ------------------------------------------------------------ paths

  /** Every path in an update lies under the given prefix. */
  predicate Under(ops: Ops, p: string) {
    && (forall k :: 0 <= k < |ops.sets| ==> p <= ops.sets[k].key)
    && (forall k :: 0 <= k < |ops.unsets| ==> p <= ops.unsets[k])
    && (forall k :: 0 <= k < |ops.pushes| ==> p <= ops.pushes[k].key)
  }

  lemma JoinUnder(a: Ops, b: Ops, p: string)
    requires Under(a, p) && Under(b, p)
    ensures Under(Join(a, b), p)
  {
    var j := Join(a, b);
    forall k | 0 <= k < |j.sets| ensures p <= j.sets[k].key {
      if k >= |a.sets| { assert j.sets[k] == b.sets[k - |a.sets|]; }
    }
    forall k | 0 <= k < |j.unsets| ensures p <= j.unsets[k] {
      if k >= |a.unsets| { assert j.unsets[k] == b.unsets[k - |a.unsets|]; }
    }
    forall k | 0 <= k < |j.pushes| ensures p <= j.pushes[k].key {
      if k >= |a.pushes| { assert j.pushes[k] == b.pushes[k - |a.pushes|]; }
    }
  }

  lemma PrefixExtends(p: string, q: string, s: string)
    requires p + q <= s
    ensures p <= s
  {
    assert (p + q)[..|p|] == p;
  }

  lemma UnderWeaken(ops: Ops, p: string, q: string)
    requires Under(ops, p + q)
    ensures Under(ops, p)
  {
    forall k | 0 <= k < |ops.sets| ensures p <= ops.sets[k].key { PrefixExtends(p, q, ops.sets[k].key); }
    forall k | 0 <= k < |ops.unsets| ensures p <= ops.unsets[k] { PrefixExtends(p, q, ops.unsets[k]); }
    forall k | 0 <= k < |ops.pushes| ensures p <= ops.pushes[k].key { PrefixExtends(p, q, ops.pushes[k].key); }
  }

  /**
   * The update of a document reached under prefix p only touches paths
   * under p: a child mutated in place reports under `child.`.
   */
  lemma {:induction false} UpdateUnder(n: Node, p: string)
    requires UpdateDoc(n, p).Some?
    ensures Under(UpdateDoc(n, p).value, p)
    decreases n, 3
  {
    FieldsUnder(n.fields, p);
    OnesUnder(n.ones, p);
    ManysUnder(n.manys, p);
    JoinUnder(UpdateOnes(n.ones, p).value, UpdateManys(n.manys, p).value, p);
    JoinUnder(UpdateFields(n.fields, p), Join(UpdateOnes(n.ones, p).value, UpdateManys(n.manys, p).value), p);
  }

  lemma {:induction false} FieldsUnder(fs: seq<Field>, p: string)
    ensures Under(UpdateFields(fs, p), p)
    decreases |fs|
  {
    if fs != [] {
      FieldsUnder(fs[1..], p);
      JoinUnder(FieldOps(fs[0], p), UpdateFields(fs[1..], p), p);
    }
  }

  lemma {:induction false} OnesUnder(os: seq<One>, p: string)
    requires UpdateOnes(os, p).Some?
    ensures Under(UpdateOnes(os, p).value, p)
    decreases os, 2
  {
    if os != [] {
      OneUnder(os[0], p);
      OnesUnder(os[1..], p);
      JoinUnder(OneOps(os[0], p).value, UpdateOnes(os[1..], p).value, p);
    }
  }

  lemma {:induction false} OneUnder(o: One, p: string)
    requires OneOps(o, p).Some?
    ensures Under(OneOps(o, p).value, p)
    decreases o, 1
  {
    if !o.replaced && o.current.Some? {
      UpdateUnder(o.current.value, p + o.name + ".");
      UnderWeaken(OneOps(o, p).value, p, o.name + ".");
    }
  }

  lemma {:induction false} ManysUnder(ms: seq<Many>, p: string)
    requires UpdateManys(ms, p).Some?
    ensures Under(UpdateManys(ms, p).value, p)
    decreases |ms|
  {
    if ms != [] {
      ManysUnder(ms[1..], p);
      JoinUnder(ManyOps(ms[0], p).value, UpdateManys(ms[1..], p).value, p);
    }
  }
}

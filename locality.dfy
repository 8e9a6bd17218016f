/**
 * Where a change shows up in the update of an existing document. A
 * document that has just been read has no change; one edit made to it, at
 * any depth of embedded-one children, is reported under the dotted path of
 * the child it was made in, and nothing else is reported.
 */
module Locality {
  import opened Values
  import opened Tracking
  import opened Delta
  import opened DeltaProperties

  /** The update prefix of an embedded path: every name followed by a dot. */
  function Dotted(path: seq<string>): (d: string)
    ensures path != [] ==> d == path[0] + "." + Dotted(path[1..])
    decreases path
  {
    if path == [] then "" else path[0] + "." + Dotted(path[1..])
  }

  lemma {:induction false} ChildNamedAt(os: seq<One>, name: string) returns (k: nat)
    requires ChildNamed(os, name).Some?
    ensures k < |os| && os[k].name == name && os[k].current == ChildNamed(os, name)
    decreases |os|
  {
    if os[0].name == name {
      k := 0;
    } else {
      var j := ChildNamedAt(os[1..], name);
      k := j + 1;
    }
  }

  // ------------------------------------------------- clean parts are silent

  lemma JoinOptUnit(x: Option<Ops>)
    ensures JoinOpt(Some(NoOps), JoinOpt(x, Some(NoOps))) == x
    ensures JoinOpt(x, Some(NoOps)) == x
    ensures JoinOpt(Some(NoOps), x) == x
  {
    if x.Some? {
      var o := x.value;
      assert o.sets + [] == o.sets && [] + o.sets == o.sets;
      assert o.unsets + [] == o.unsets && [] + o.unsets == o.unsets;
      assert o.pushes + [] == o.pushes && [] + o.pushes == o.pushes;
      assert Join(o, NoOps) == o;
      assert Join(NoOps, o) == o;
    }
  }

  lemma {:induction false} OneDirtyFromIndex(os: seq<One>, k: nat)
    requires k < |os| && OneDirty(os[k])
    ensures DirtyOnes(os)
    decreases k
  {
    if k > 0 {
      OneDirtyFromIndex(os[1..], k - 1);
    }
  }

  lemma {:induction false} ManyDirtyFromIndex(ms: seq<Many>, k: nat)
    requires k < |ms| && ManyDirty(ms[k])
    ensures DirtyManys(ms)
    decreases k
  {
    if k > 0 {
      ManyDirtyFromIndex(ms[1..], k - 1);
    }
  }

  lemma {:induction false} OnesAllClean(os: seq<One>)
    requires forall j :: 0 <= j < |os| ==> !OneDirty(os[j])
    ensures !DirtyOnes(os)
    decreases |os|
  {
    if os != [] {
      OnesAllClean(os[1..]);
    }
  }

  lemma {:induction false} ManysAllClean(ms: seq<Many>)
    requires forall j :: 0 <= j < |ms| ==> !ManyDirty(ms[j])
    ensures !DirtyManys(ms)
    decreases |ms|
  {
    if ms != [] {
      ManysAllClean(ms[1..]);
    }
  }

  /** When every field but the k-th is unmodified, the fields' update is the k-th field's. */
  lemma {:induction false} UpdateFieldsSingle(fs: seq<Field>, p: string, k: nat)
    requires k < |fs|
    requires forall j :: 0 <= j < |fs| && j != k ==> !fs[j].modified
    ensures UpdateFields(fs, p) == FieldOps(fs[k], p)
    decreases |fs|
  {
    if k == 0 {
      FieldsCleanIffNoUpdate(fs[1..], p);
      var x := FieldOps(fs[0], p);
      assert x.sets + [] == x.sets && x.unsets + [] == x.unsets && x.pushes + [] == x.pushes;
    } else {
      UpdateFieldsSingle(fs[1..], p, k - 1);
    }
  }

  /** When every embedded-one association but the k-th is unchanged, their update is the k-th's. */
  lemma {:induction false} UpdateOnesSingle(os: seq<One>, p: string, k: nat)
    requires k < |os|
    requires forall j :: 0 <= j < |os| && j != k ==> !OneDirty(os[j])
    ensures UpdateOnes(os, p) == OneOps(os[k], p)
    decreases |os|
  {
    if k == 0 {
      OnesAllClean(os[1..]);
      OnesCleanIffNoUpdate(os[1..], p);
      JoinOptUnit(OneOps(os[0], p));
    } else {
      OneCleanIffNoUpdate(os[0], p);
      UpdateOnesSingle(os[1..], p, k - 1);
      JoinOptUnit(UpdateOnes(os[1..], p));
    }
  }

  /** When every embedded-many association but the k-th is unchanged, their update is the k-th's. */
  lemma {:induction false} UpdateManysSingle(ms: seq<Many>, p: string, k: nat)
    requires k < |ms|
    requires forall j :: 0 <= j < |ms| && j != k ==> !ManyDirty(ms[j])
    ensures UpdateManys(ms, p) == ManyOps(ms[k], p)
    decreases |ms|
  {
    if k == 0 {
      ManysAllClean(ms[1..]);
      ManysCleanIffNoUpdate(ms[1..], p);
      JoinOptUnit(ManyOps(ms[0], p));
    } else {
      UpdateManysSingle(ms[1..], p, k - 1);
      JoinOptUnit(UpdateManys(ms[1..], p));
    }
  }

  // ------------------------------------------------------------ edits at depth

  /**
   * An edit made inside an embedded-one child of a clean document (the
   * child is mutated in place) yields exactly the update the edit yields
   * on that child, with its paths under the child's dotted path.
   */
  lemma {:induction false} EditLocal(n: Node, path: seq<string>, e: Edit, p: string, t: Node)
    requires Valid(n) && !Dirty(n)
    requires NodeAt(n, path) == Some(t)
    ensures UpdateDoc(EditAt(n, path, e), p) == UpdateDoc(Apply(t, e), p + Dotted(path))
    decreases path
  {
    if path != [] {
      var k := ChildNamedAt(n.ones, path[0]);
      var c := n.ones[k].current.value;
      var q := p + path[0] + ".";
      assert !OneDirty(n.ones[k]) by {
        if OneDirty(n.ones[k]) {
          OneDirtyFromIndex(n.ones, k);
          assert false;
        }
      }
      EditLocal(c, path[1..], e, q, t);
      assert p + Dotted(path) == q + Dotted(path[1..]);
      var m := EditAt(n, path, e);
      assert m.ones[k] == n.ones[k].(current := Some(EditAt(c, path[1..], e)));
      forall j | 0 <= j < |m.ones| && j != k
        ensures !OneDirty(m.ones[j])
      {
        assert OneNames(n.ones)[j] == n.ones[j].name && OneNames(n.ones)[k] == n.ones[k].name;
        assert m.ones[j] == n.ones[j];
        if OneDirty(n.ones[j]) {
          OneDirtyFromIndex(n.ones, j);
          assert false;
        }
      }
      UpdateOnesSingle(m.ones, p, k);
      FieldsCleanIffNoUpdate(n.fields, p);
      ManysCleanIffNoUpdate(n.manys, p);
      JoinOptUnit(UpdateOnes(m.ones, p));
      assert OneOps(m.ones[k], p) == UpdateDoc(EditAt(c, path[1..], e), q);
    } else {
      assert p + Dotted(path) == p;
    }
  }

  /**
   * Setting a field of a clean document: nothing when the new value stores
   * as the original did (re-setting the stored value, or null on a field
   * never stored); otherwise one `$set` of the stored form, or one
   * `$unset` when the new value is null.
   */
  lemma SetFieldLocal(t: Node, k: nat, v: Value, q: string)
    requires Valid(t) && !Dirty(t) && k < |t.fields|
    ensures var f := t.fields[k];
      UpdateDoc(Apply(t, SetField(f.name, v)), q) == Some(
        if Normalize(f.kind, v) == Normalize(f.kind, f.original) then NoOps
        else if v != Null then Ops([Entry(q + f.name, BVal(Normalize(f.kind, v)))], [], [])
        else Ops([], [q + f.name], []))
  {
    var f := t.fields[k];
    var m := Apply(t, SetField(f.name, v));
    forall j | 0 <= j < |m.fields| && j != k
      ensures !m.fields[j].modified
    {
      assert FieldNames(t.fields)[j] == t.fields[j].name && FieldNames(t.fields)[k] == f.name;
      assert m.fields[j] == t.fields[j];
    }
    UpdateFieldsSingle(m.fields, q, k);
    OnesCleanIffNoUpdate(t.ones, q);
    ManysCleanIffNoUpdate(t.manys, q);
    JoinOptUnit(Some(UpdateFields(m.fields, q)));
    // the field was clean, so its original stores as its current value
    assert FieldTracked(f);
  }

  /**
   * Setting an embedded-one association of a clean document, whatever it
   * held before: one `$set` of the whole new child's insert form at its
   * path, or one `$unset` of the path when the child is set to null. No
   * entry for the child's own fields appears.
   */
  lemma SetEmbeddedOneLocal(t: Node, k: nat, c: Option<Node>, q: string)
    requires Valid(t) && !Dirty(t) && k < |t.ones|
    ensures var o := t.ones[k];
      UpdateDoc(Apply(t, SetEmbeddedOne(o.name, c)), q) == Some(
        match c
          case Some(x) => Ops([Entry(q + o.name, BDoc(InsertDoc(x)))], [], [])
          case None => Ops([], [q + o.name], []))
  {
    var o := t.ones[k];
    var m := Apply(t, SetEmbeddedOne(o.name, c));
    OneCleanSilent(t, k, q);
    forall j | 0 <= j < |m.ones| && j != k
      ensures !OneDirty(m.ones[j])
    {
      assert OneNames(t.ones)[j] == t.ones[j].name && OneNames(t.ones)[k] == o.name;
      assert m.ones[j] == t.ones[j];
      if OneDirty(t.ones[j]) {
        OneDirtyFromIndex(t.ones, j);
        assert false;
      }
    }
    UpdateOnesSingle(m.ones, q, k);
    FieldsCleanIffNoUpdate(t.fields, q);
    ManysCleanIffNoUpdate(t.manys, q);
    JoinOptUnit(UpdateOnes(m.ones, q));
  }

  lemma OneCleanSilent(t: Node, k: nat, q: string)
    requires !Dirty(t) && k < |t.ones|
    ensures OneOps(t.ones[k], q) == Some(NoOps)
  {
    if OneDirty(t.ones[k]) {
      OneDirtyFromIndex(t.ones, k);
      assert false;
    }
    OneCleanIffNoUpdate(t.ones[k], q);
  }

  /** Adding documents to an embedded-many association of a clean document: one `$pushAll` of their insert forms, in order. */
  lemma AddEmbeddedLocal(t: Node, k: nat, docs: seq<Node>, q: string)
    requires Valid(t) && !Dirty(t) && k < |t.manys| && docs != []
    ensures UpdateDoc(Apply(t, AddEmbedded(t.manys[k].name, docs)), q)
            == Some(Ops([], [], [Entry(q + t.manys[k].name, BList(InsertNodes(docs)))]))
  {
    var mk := t.manys[k];
    var m := Apply(t, AddEmbedded(mk.name, docs));
    assert !ManyDirty(mk) by {
      if ManyDirty(mk) {
        ManyDirtyFromIndex(t.manys, k);
        assert false;
      }
    }
    assert m.manys[k] == AddMembers(mk, docs);
    assert AddMembers(mk, docs).added == docs;
    forall j | 0 <= j < |m.manys| && j != k
      ensures !ManyDirty(m.manys[j])
    {
      assert ManyNames(t.manys)[j] == t.manys[j].name && ManyNames(t.manys)[k] == mk.name;
      assert m.manys[j] == t.manys[j];
      if ManyDirty(t.manys[j]) {
        ManyDirtyFromIndex(t.manys, j);
        assert false;
      }
    }
    UpdateManysSingle(m.manys, q, k);
    FieldsCleanIffNoUpdate(t.fields, q);
    OnesCleanIffNoUpdate(t.ones, q);
    JoinOptUnit(UpdateManys(m.manys, q));
  }

  /** Removing documents that the association never held (never added, never saved) leaves it as it was. */
  lemma {:induction false} RemoveNeverAdded(m: Many, docs: seq<Node>)
    requires forall k :: 0 <= k < |docs| ==> docs[k] !in m.added && docs[k] !in m.saved
    ensures RemoveMembers(m, docs) == m
    decreases |docs|
  {
    if docs != [] {
      RemoveNeverAdded(m, docs[1..]);
    }
  }

  // ------------------------------------------------------- the saved query

  /**
   * Replacing an embedded-one child at any depth of a clean existing
   * document saves as a single `$set` at the child's full path holding the
   * new child's insert form.
   */
  lemma ReplaceAtDepthQuery(n: Node, path: seq<string>, t: Node, k: nat, x: Node)
    requires Valid(n) && !Dirty(n) && NodeAt(n, path) == Some(t)
    requires k < |t.ones|
    ensures QueryForSave(false, EditAt(n, path, SetEmbeddedOne(t.ones[k].name, Some(x))))
            == Some([Entry("$set", BDoc([Entry(Dotted(path) + t.ones[k].name, BDoc(InsertDoc(x)))]))])
  {
    var ops := Ops([Entry(Dotted(path) + t.ones[k].name, BDoc(InsertDoc(x)))], [], []);
    AtDepth(n, path, SetEmbeddedOne(t.ones[k].name, Some(x)), t);
    SetEmbeddedOneLocal(t, k, Some(x), Dotted(path));
    assert Groups(ops) == [Entry("$set", BDoc(ops.sets))];
  }

  /**
   * Setting an embedded-one association to null at any depth of a clean
   * existing document, whether or not it held a child, saves as a single
   * `$unset` of the association's full path;
   * the empty `$set` group is omitted.
   */
  lemma RemoveAtDepthQuery(n: Node, path: seq<string>, t: Node, k: nat)
    requires Valid(n) && !Dirty(n) && NodeAt(n, path) == Some(t)
    requires k < |t.ones|
    ensures QueryForSave(false, EditAt(n, path, SetEmbeddedOne(t.ones[k].name, None)))
            == Some([Entry("$unset", BDoc([Entry(Dotted(path) + t.ones[k].name, BVal(Int(1)))]))])
  {
    var ops := Ops([], [Dotted(path) + t.ones[k].name], []);
    AtDepth(n, path, SetEmbeddedOne(t.ones[k].name, None), t);
    SetEmbeddedOneLocal(t, k, None, Dotted(path));
    assert UnsetEntries(ops.unsets) == [Entry(Dotted(path) + t.ones[k].name, BVal(Int(1)))];
    assert Groups(ops) == [Entry("$unset", BDoc(UnsetEntries(ops.unsets)))];
  }

  /**
   * Setting one field at any depth of a clean existing document to a value
   * that stores differently saves as a single `$set` of the stored form at
   * the field's full path, or a single `$unset` when the value is null.
   */
  lemma SetFieldAtDepthQuery(n: Node, path: seq<string>, t: Node, k: nat, v: Value)
    requires Valid(n) && !Dirty(n) && NodeAt(n, path) == Some(t)
    requires k < |t.fields|
    ensures var f := t.fields[k];
      QueryForSave(false, EditAt(n, path, SetField(f.name, v)))
      == Some(
        if Normalize(f.kind, v) == Normalize(f.kind, f.original) then []
        else if v != Null then [Entry("$set", BDoc([Entry(Dotted(path) + f.name, BVal(Normalize(f.kind, v)))]))]
        else [Entry("$unset", BDoc([Entry(Dotted(path) + f.name, BVal(Int(1)))]))])
  {
    var f := t.fields[k];
    AtDepth(n, path, SetField(f.name, v), t);
    SetFieldLocal(t, k, v, Dotted(path));
    OneFieldGroups(Dotted(path) + f.name, f.kind, v, f.original);
  }

  /** The operator groups of a single field change: none, one `$set`, or one `$unset`. */
  lemma OneFieldGroups(key: string, kind: Kind, v: Value, original: Value)
    ensures Groups(
        if Normalize(kind, v) == Normalize(kind, original) then NoOps
        else if v != Null then Ops([Entry(key, BVal(Normalize(kind, v)))], [], [])
        else Ops([], [key], []))
      == if Normalize(kind, v) == Normalize(kind, original) then []
        else if v != Null then [Entry("$set", BDoc([Entry(key, BVal(Normalize(kind, v)))]))]
        else [Entry("$unset", BDoc([Entry(key, BVal(Int(1)))]))]
  {
    if Normalize(kind, v) == Normalize(kind, original) {
      assert Groups(NoOps) == [];
    } else if v != Null {
      var ops := Ops([Entry(key, BVal(Normalize(kind, v)))], [], []);
      assert Groups(ops) == [Entry("$set", BDoc(ops.sets))];
    } else {
      var ops := Ops([], [key], []);
      assert UnsetEntries(ops.unsets) == [Entry(key, BVal(Int(1)))];
      assert Groups(ops) == [Entry("$unset", BDoc(UnsetEntries(ops.unsets)))];
    }
  }

  /** The saved query of an edit at depth is the edited child's update, under its dotted path. */
  lemma AtDepth(n: Node, path: seq<string>, e: Edit, t: Node)
    requires Valid(n) && !Dirty(n) && NodeAt(n, path) == Some(t)
    ensures Valid(t) && !Dirty(t)
    ensures QueryForSave(false, EditAt(n, path, e))
            == match UpdateDoc(Apply(t, e), Dotted(path)) case Some(ops) => Some(Groups(ops)) case None => None
  {
    EditLocal(n, path, e, "", t);
    assert "" + Dotted(path) == Dotted(path);
    ValidAt(n, path, t);
    DirtyAt(n, path, t);
  }

  /** The document reached by a path inside a valid document is valid. */
  lemma {:induction false} ValidAt(n: Node, path: seq<string>, t: Node)
    requires Valid(n) && NodeAt(n, path) == Some(t)
    ensures Valid(t)
    decreases path
  {
    if path != [] {
      var k := ChildNamedAt(n.ones, path[0]);
      ValidAt(n.ones[k].current.value, path[1..], t);
    }
  }

  /** The document reached by a path inside a clean document is clean. */
  lemma {:induction false} DirtyAt(n: Node, path: seq<string>, t: Node)
    requires !Dirty(n) && NodeAt(n, path) == Some(t)
    ensures !Dirty(t)
    decreases path
  {
    if path != [] {
      var k := ChildNamedAt(n.ones, path[0]);
      if OneDirty(n.ones[k]) {
        OneDirtyFromIndex(n.ones, k);
        assert false;
      }
      DirtyAt(n.ones[k].current.value, path[1..], t);
    }
  }
}

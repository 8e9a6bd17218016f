/**
 * The save query of a document (`queryForSave`). A new document yields the
 * nested array to insert. An existing document yields the update operators
 * `$set`, `$unset` and `$pushAll` over dot-separated paths, each group
 * present only when it has entries.
 */
module Delta {
  import opened Values
  import opened Tracking

  // ------------------------------------------------------------ insert form

  /** The stored form of a field's current value. */
  function Stored(f: Field): Value {
    Normalize(f.kind, f.current)
  }

  /** The non-null fields, normalised, in declaration order. */
  function InsertFields(fs: seq<Field>): seq<Entry>
    decreases fs
  {
    if fs == [] then []
    else (if Stored(fs[0]) != Null then [Entry(fs[0].name, BVal(Stored(fs[0])))] else []) + InsertFields(fs[1..])
  }

  /** The whole document as it is inserted: fields, then embedded-one children, then embedded-many lists. */
  function InsertDoc(n: Node): seq<Entry>
    decreases n
  {
    InsertFields(n.fields) + InsertOnes(n.ones) + InsertManys(n.manys)
  }

  function InsertOnes(os: seq<One>): seq<Entry>
    decreases os
  {
    if os == [] then []
    else
      (match os[0].current
       case Some(c) => [Entry(os[0].name, BDoc(InsertDoc(c)))]
       case None => [])
      + InsertOnes(os[1..])
  }

  function InsertManys(ms: seq<Many>): seq<Entry>
    decreases ms
  {
    if ms == [] then []
    else
      (if ms[0].saved + ms[0].added == [] then []
       else [Entry(ms[0].name, BList(InsertNodes(ms[0].saved) + InsertNodes(ms[0].added)))])
      + InsertManys(ms[1..])
  }

  /** The insert documents of a list of embedded documents: one per member, in order. */
  function InsertNodes(ns: seq<Node>): (bs: seq<Bson>)
    ensures |bs| == |ns|
    ensures forall k :: 0 <= k < |ns| ==> bs[k] == BDoc(InsertDoc(ns[k]))
    decreases ns
  {
    if ns == [] then [] else [BDoc(InsertDoc(ns[0]))] + InsertNodes(ns[1..])
  }

  // ------------------------------------------------------------ update form

  /** Update operators: `$set` path => value, `$unset` paths, `$pushAll` path => list. */
  datatype Ops = Ops(sets: seq<Entry>, unsets: seq<string>, pushes: seq<Entry>)

  const NoOps := Ops([], [], [])

  function Join(a: Ops, b: Ops): Ops {
    Ops(a.sets + b.sets, a.unsets + b.unsets, a.pushes + b.pushes)
  }

  /** Operators of two parts of a document; None when either part cannot be expressed as one update. */
  function JoinOpt(a: Option<Ops>, b: Option<Ops>): Option<Ops> {
    if a.Some? && b.Some? then Some(Join(a.value, b.value)) else None
  }

  /** A modified field is set to its stored form, or unset when that is null; an unmodified one yields nothing. */
  function FieldOps(f: Field, p: string): Ops {
    if !f.modified then NoOps
    else if Stored(f) != Null then Ops([Entry(p + f.name, BVal(Stored(f)))], [], [])
    else Ops([], [p + f.name], [])
  }

  function UpdateFields(fs: seq<Field>, p: string): Ops
    decreases fs
  {
    if fs == [] then NoOps else Join(FieldOps(fs[0], p), UpdateFields(fs[1..], p))
  }

  /** The update of an existing document whose paths start with p. */
  function UpdateDoc(n: Node, p: string): Option<Ops>
    decreases n
  {
    JoinOpt(Some(UpdateFields(n.fields, p)), JoinOpt(UpdateOnes(n.ones, p), UpdateManys(n.manys, p)))
  }

  function UpdateOnes(os: seq<One>, p: string): Option<Ops>
    decreases os
  {
    if os == [] then Some(NoOps) else JoinOpt(OneOps(os[0], p), UpdateOnes(os[1..], p))
  }

  /**
   * A replaced child is set whole at its path (its insert form), or unset
   * when it was replaced by null; a child mutated in place contributes its
   * own update under `path.`.
   */
  function OneOps(o: One, p: string): Option<Ops>
    decreases o
  {
    if o.replaced then
      match o.current
      case Some(c) => Some(Ops([Entry(p + o.name, BDoc(InsertDoc(c)))], [], []))
      case None => Some(Ops([], [p + o.name], []))
    else
      match o.current
      case Some(c) => UpdateDoc(c, p + o.name + ".")
      case None => Some(NoOps)
  }

  function UpdateManys(ms: seq<Many>, p: string): Option<Ops>
    decreases ms
  {
    if ms == [] then Some(NoOps) else JoinOpt(ManyOps(ms[0], p), UpdateManys(ms[1..], p))
  }

  /**
   * An embedded-many association of an existing document: added members are
   * appended with `$pushAll`. Removed members or saved members changed in
   * place, which would conflict with the append, make the update None.
   */
  function ManyOps(m: Many, p: string): Option<Ops> {
    if m.removed != [] || DirtyNodes(m.saved) then None
    else if m.added == [] then Some(NoOps)
    else Some(Ops([], [], [Entry(p + m.name, BList(InsertNodes(m.added)))]))
  }

  // --------------------------------------------------------------- dirtiness

  /** The document has a change not yet saved, at some depth. */
  predicate Dirty(n: Node)
    decreases n
  {
    (exists k :: 0 <= k < |n.fields| && n.fields[k].modified) || DirtyOnes(n.ones) || DirtyManys(n.manys)
  }

  predicate DirtyOnes(os: seq<One>)
    decreases os
  {
    os != [] && (OneDirty(os[0]) || DirtyOnes(os[1..]))
  }

  predicate OneDirty(o: One)
    decreases o
  {
    o.replaced || (o.current.Some? && Dirty(o.current.value))
  }

  predicate DirtyManys(ms: seq<Many>)
    decreases ms
  {
    ms != [] && (ManyDirty(ms[0]) || DirtyManys(ms[1..]))
  }

  predicate ManyDirty(m: Many)
    decreases m
  {
    m.added != [] || m.removed != [] || DirtyNodes(m.saved)
  }

  predicate DirtyNodes(ns: seq<Node>)
    decreases ns
  {
    ns != [] && (Dirty(ns[0]) || DirtyNodes(ns[1..]))
  }

  // ----------------------------------------------------------- queryForSave

  function UnsetEntries(paths: seq<string>): (es: seq<Entry>)
    ensures Keys(es) == paths
    ensures forall k :: 0 <= k < |es| ==> es[k].val == BVal(Int(1))
  {
    if paths == [] then [] else [Entry(paths[0], BVal(Int(1)))] + UnsetEntries(paths[1..])
  }

  /** The operator groups of an update, each omitted when empty. */
  function Groups(ops: Ops): seq<Entry> {
    (if ops.sets != [] then [Entry("$set", BDoc(ops.sets))] else [])
    + (if ops.unsets != [] then [Entry("$unset", BDoc(UnsetEntries(ops.unsets)))] else [])
    + (if ops.pushes != [] then [Entry("$pushAll", BDoc(ops.pushes))] else [])
  }

  /** `queryForSave()`: the insert document of a new document, the update of an existing one, None for an update that cannot be expressed. */
  function QueryForSave(isNew: bool, n: Node): Option<seq<Entry>> {
    if isNew then Some(InsertDoc(n))
    else match UpdateDoc(n, "")
      case Some(ops) => Some(Groups(ops))
      case None => None
  }
}

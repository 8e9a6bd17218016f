/**
 * The bookkeeping a stored document keeps besides its field values: whether
 * it is new, its id, the fields the query that loaded it asked for, the
 * hashes of the queries that returned it, and the fields cache those hashes
 * index. The field values and embedded documents are the tracker state of
 * the Tracking module, held in `data`.
 */
module Documents {
  import opened Values
  import opened Tracking
  import opened Delta
  import opened DeltaProperties
  import opened TrackingProperties

  // ------------------------------------------------------------ query fields

  /** The query-fields map `setQueryFields` builds: every field whose included flag is truthy, mapped to 1. */
  function IncludedFields(fields: seq<(string, Value)>): (m: map<string, int>)
    ensures forall f :: f in m <==> exists i :: 0 <= i < |fields| && fields[i].0 == f && Truthy(fields[i].1)
    ensures forall f :: f in m ==> m[f] == 1
    decreases |fields|
  {
    if fields == [] then map[]
    else
      var init := fields[..|fields| - 1];
      var last := fields[|fields| - 1];
      var m := IncludedFields(init);
      assert forall i :: 0 <= i < |init| ==> init[i] == fields[i];
      if Truthy(last.1) then m[last.0 := 1] else m
  }

  /**
   * `isFieldInQuery`: an empty query-fields map means the whole document was
   * loaded, so every field is in the query; with no map recorded (null) none is.
   */
  predicate FieldInQuery(queryFields: Option<map<string, int>>, field: string) {
    match queryFields
    case None => false
    case Some(m) => m == map[] || field in m
  }

  /**
   * After `setQueryFields(fields)` a field is in the query iff its flag is
   * truthy, except that when no flag is truthy the map is empty and every
   * field counts as queried.
   */
  lemma QueryFieldsMeaning(fields: seq<(string, Value)>, f: string)
    ensures FieldInQuery(Some(IncludedFields(fields)), f) <==>
      (forall i :: 0 <= i < |fields| ==> !Truthy(fields[i].1))
      || (exists i :: 0 <= i < |fields| && fields[i].0 == f && Truthy(fields[i].1))
  {
    var m := IncludedFields(fields);
    if forall i :: 0 <= i < |fields| ==> !Truthy(fields[i].1) {
      assert m.Keys == {};
    } else {
      var i :| 0 <= i < |fields| && Truthy(fields[i].1);
      assert fields[i].0 in m;
    }
  }

  // -------------------------------------------------------------- load full

  /** The names of the modified fields, in order (`array_keys($this->fieldsModified)`). */
  function ModifiedNames(fs: seq<Field>): (names: seq<string>)
    ensures forall k :: 0 <= k < |fs| && fs[k].modified ==> fs[k].name in names
    ensures forall x :: x in names ==> exists k :: 0 <= k < |fs| && fs[k].modified && fs[k].name == x
    decreases fs
  {
    if fs == [] then []
    else
      var rest := ModifiedNames(fs[1..]);
      assert forall k :: 0 < k < |fs| ==> fs[k] == fs[1..][k - 1];
      (if fs[0].modified then [fs[0].name] else []) + rest
  }

  /** The fetched document with the entries whose key is one of names unset. */
  function Without(es: seq<Entry>, names: seq<string>): seq<Entry>
    decreases es
  {
    if es == [] then []
    else (if es[0].key in names then [] else [es[0]]) + Without(es[1..], names)
  }

  /** Unsetting the keys of the names one after another is unsetting them all. */
  lemma {:induction false} WithoutSnoc(es: seq<Entry>, names: seq<string>, name: string)
    ensures Without(Without(es, names), [name]) == Without(es, names + [name])
    decreases es
  {
    if es != [] {
      WithoutSnoc(es[1..], names, name);
      var head := if es[0].key in names then [] else [es[0]];
      assert Without(es, names) == head + Without(es[1..], names);
      if head == [] {
        assert Without(es, names) == Without(es[1..], names);
      } else {
        assert Without(es, names)[1..] == Without(es[1..], names);
      }
    }
  }

  lemma {:induction false} WithoutNone(es: seq<Entry>)
    ensures Without(es, []) == es
    decreases es
  {
    if es != [] {
      WithoutNone(es[1..]);
    }
  }

  /** An unset key reads as absent; every other key reads as before. */
  lemma {:induction false} WithoutLookup(es: seq<Entry>, names: seq<string>, key: string)
    ensures Lookup(Without(es, names), key) == if key in names then None else Lookup(es, key)
    decreases es
  {
    if es != [] {
      WithoutLookup(es[1..], names, key);
      if es[0].key !in names {
        assert Without(es, names) == [es[0]] + Without(es[1..], names);
        LookupCons(es[0], Without(es[1..], names), key);
      } else {
        assert Without(es, names) == Without(es[1..], names);
      }
    }
  }

  /** `foreach ($names as $name) unset($data[$name]);` */
  method UnsetKeys(fetched: seq<Entry>, names: seq<string>) returns (d: seq<Entry>)
    ensures d == Without(fetched, names)
  {
    d := fetched;
    WithoutNone(fetched);
    var i := 0;
    while i < |names|
      invariant 0 <= i <= |names|
      invariant d == Without(fetched, names[..i])
    {
      WithoutSnoc(fetched, names[..i], names[i]);
      assert names[..i + 1] == names[..i] + [names[i]];
      d := Without(d, [names[i]]);
      i := i + 1;
    }
    assert names[..|names|] == names;
  }

  /**
   * `setDocumentData($data)` on the fields: a field whose key the data sets
   * to a non-null value takes it as its stored value, unmodified; every other
   * field is kept.
   */
  function LoadField(f: Field, data: seq<Entry>): Field {
    match Lookup(data, f.name)
    case Some(BVal(v)) => if v == Null then f else Field(f.name, f.kind, v, v, false)
    case _ => f
  }

  function Overlay(fs: seq<Field>, data: seq<Entry>): (r: seq<Field>)
    ensures FieldNames(r) == FieldNames(fs)
  {
    var r := seq(|fs|, k requires 0 <= k < |fs| => LoadField(fs[k], data));
    assert FieldNames(r) == FieldNames(fs);
    r
  }

  /** `loadFull` could not lose an unsaved change: a modified field is kept over the fetched value. */
  lemma LoadFullKeepsModified(fs: seq<Field>, fetched: seq<Entry>, k: nat)
    requires k < |fs| && fs[k].modified
    ensures Overlay(fs, Without(fetched, ModifiedNames(fs)))[k] == fs[k]
  {
    WithoutLookup(fetched, ModifiedNames(fs), fs[k].name);
  }

  /** ... while an unmodified field the fetched document sets takes the fetched value, unmodified. */
  lemma LoadFullRefreshesClean(fs: seq<Field>, fetched: seq<Entry>, k: nat, v: Value)
    requires Distinct(FieldNames(fs))
    requires k < |fs| && !fs[k].modified
    requires Lookup(fetched, fs[k].name) == Some(BVal(v)) && v != Null
    ensures Overlay(fs, Without(fetched, ModifiedNames(fs)))[k] == Field(fs[k].name, fs[k].kind, v, v, false)
  {
    ModifiedNamesExclude(fs, k);
    WithoutLookup(fetched, ModifiedNames(fs), fs[k].name);
    var r := Overlay(fs, Without(fetched, ModifiedNames(fs)));
    assert r[k] == LoadField(fs[k], Without(fetched, ModifiedNames(fs)));
  }

  lemma {:induction false} ModifiedNamesExclude(fs: seq<Field>, k: nat)
    requires Distinct(FieldNames(fs))
    requires k < |fs| && !fs[k].modified
    ensures fs[k].name !in ModifiedNames(fs)
  {
    forall j | 0 <= j < |fs| && fs[j].modified ensures fs[j].name != fs[k].name {
      assert FieldNames(fs)[j] != FieldNames(fs)[k];
    }
  }

  /** Loading fetched values keeps the tracker invariant. */
  lemma OverlayValid(n: Node, data: seq<Entry>)
    requires Valid(n)
    ensures Valid(n.(fields := Overlay(n.fields, data)))
  {
    var r := n.(fields := Overlay(n.fields, data));
    forall k | 0 <= k < |r.fields| ensures FieldTracked(r.fields[k]) {
      assert FieldTracked(n.fields[k]);
    }
  }

  // ------------------------------------------------------------- query hashes

  /**
   * `removeQueryHash` as written: `array_search` returns false for a hash
   * that is not in the list, and false used as an array key is 0, so the
   * first hash is removed instead.
   */
  function RemoveQueryHashAsWritten(hashes: seq<string>, hash: string): (r: seq<string>)
    ensures hash in hashes ==> r == RemoveFirst(hashes, hash)
    ensures hash !in hashes && hashes != [] ==> r == hashes[1..]
  {
    if hash in hashes then RemoveAt(hashes, IndexOf(hashes, hash))
    else if hashes != [] then RemoveAt(hashes, 0)
    else hashes
  }

  /** Removing a hash that was never added drops another one. */
  lemma RemoveAbsentHashAsWritten()
    ensures RemoveQueryHashAsWritten(["a", "b"], "c") == ["b"]
  {
    assert "c" !in ["a", "b"];
  }

  // ------------------------------------------------------------- fields cache

  /** The cached record of one query: the fields it used and the references it followed. */
  datatype CacheEntry = CacheEntry(fields: map<string, int>, references: seq<string>)

  /** The record the cache holds for a hash; a missing record reads as the empty one (`if (!$value) $value = array()`). */
  function EntryOf(entries: map<string, CacheEntry>, hash: string): CacheEntry {
    if hash in entries then entries[hash] else CacheEntry(map[], [])
  }

  /** What `addFieldCache` and `addReferenceCache` do to the record of each hash. */
  datatype CacheUpdate = AddField(field: string) | AddReference(reference: string)

  function UpdateEntry(e: CacheEntry, u: CacheUpdate): (r: CacheEntry)
    ensures u.AddField? ==> r.references == e.references && r.fields == e.fields[u.field := 1]
    ensures u.AddReference? ==> r.fields == e.fields && u.reference in r.references
    ensures u.AddReference? ==> multiset(r.references) == multiset(e.references) + (if u.reference in e.references then multiset{} else multiset{u.reference})
  {
    match u
    case AddField(f) => e.(fields := e.fields[f := 1])
    case AddReference(x) => if x in e.references then e else e.(references := e.references + [x])
  }

  /** An update already made changes nothing the second time, so a hash listed twice is harmless. */
  lemma UpdateEntryIdempotent(e: CacheEntry, u: CacheUpdate)
    ensures UpdateEntry(UpdateEntry(e, u), u) == UpdateEntry(e, u)
  {
    match u
    case AddField(f) =>
      assert e.fields[f := 1][f := 1] == e.fields[f := 1];
    case AddReference(x) =>
  }

  /** The cache after the record of every hash in hashes has been updated, the others kept. */
  function UpdateAll(entries: map<string, CacheEntry>, hashes: seq<string>, u: CacheUpdate): map<string, CacheEntry> {
    map h | h in entries.Keys + (set x | x in hashes) :: if h in hashes then UpdateEntry(EntryOf(entries, h), u) else entries[h]
  }

  lemma UpdateAllSnoc(entries: map<string, CacheEntry>, hashes: seq<string>, h: string, u: CacheUpdate)
    ensures var c := UpdateAll(entries, hashes, u);
      UpdateAll(entries, hashes + [h], u) == c[h := UpdateEntry(EntryOf(c, h), u)]
  {
    var c := UpdateAll(entries, hashes, u);
    if h in hashes {
      UpdateEntryIdempotent(EntryOf(entries, h), u);
    }
    assert forall x :: x in hashes + [h] <==> x in hashes || x == h;
  }

  /** A reference is recorded at most once per query: duplicates never arise. */
  lemma ReferencesStayDistinct(entries: map<string, CacheEntry>, hashes: seq<string>, x: string, h: string)
    requires h in UpdateAll(entries, hashes, AddReference(x))
    requires forall k :: k in entries ==> forall j :: j in multiset(entries[k].references) ==> multiset(entries[k].references)[j] == 1
    ensures var rs := UpdateAll(entries, hashes, AddReference(x))[h].references;
      forall j :: j in multiset(rs) ==> multiset(rs)[j] == 1
  {
  }

  /**
   * `preg_replace('/\.\d+/', '', $field)`: every dot followed by one or more
   * digits is removed, so `comments.0.name` is cached as `comments.name`.
   */
  function StripIndexes(s: string): (r: string)
    ensures r != [] && IsDigit(r[0]) ==> s != [] && IsDigit(s[0])
    decreases |s|
  {
    if s == [] then []
    else if |s| >= 2 && s[0] == '.' && IsDigit(s[1]) then StripIndexes(DropDigits(s[2..]))
    else [s[0]] + StripIndexes(s[1..])
  }

  /** s without its leading run of digits. */
  function DropDigits(s: string): (r: string)
    ensures |r| <= |s|
    ensures r != [] ==> !IsDigit(r[0])
    ensures r == s[|s| - |r|..]
  {
    if s != [] && IsDigit(s[0]) then DropDigits(s[1..]) else s
  }

  /** No dot followed by a digit: a path without list indexes. */
  predicate NoIndexes(s: string) {
    forall i :: 0 <= i < |s| - 1 ==> !(s[i] == '.' && IsDigit(s[i + 1]))
  }

  /** The stripped path holds no index any more. */
  lemma {:induction false} StripIndexesComplete(s: string)
    ensures NoIndexes(StripIndexes(s))
    decreases |s|
  {
    if s == [] {
    } else if |s| >= 2 && s[0] == '.' && IsDigit(s[1]) {
      StripIndexesComplete(DropDigits(s[2..]));
    } else {
      var rest := StripIndexes(s[1..]);
      StripIndexesComplete(s[1..]);
      var r := [s[0]] + rest;
      forall i | 0 <= i < |r| - 1 ensures !(r[i] == '.' && IsDigit(r[i + 1])) {
        if i > 0 {
          assert r[i] == rest[i - 1] && r[i + 1] == rest[i];
        }
      }
    }
  }

  /** A path without indexes is left as it is. */
  lemma {:induction false} StripIndexesFixed(s: string)
    requires NoIndexes(s)
    ensures StripIndexes(s) == s
    decreases |s|
  {
    if s != [] {
      assert !(|s| >= 2 && s[0] == '.' && IsDigit(s[1]));
      assert NoIndexes(s[1..]) by {
        forall i | 0 <= i < |s[1..]| - 1 ensures !(s[1..][i] == '.' && IsDigit(s[1..][i + 1])) {
          assert s[1..][i] == s[i + 1] && s[1..][i + 1] == s[i + 2];
        }
      }
      StripIndexesFixed(s[1..]);
    }
  }

  /** Stripping twice is stripping once. */
  lemma StripIndexesIdempotent(s: string)
    ensures StripIndexes(StripIndexes(s)) == StripIndexes(s)
  {
    StripIndexesComplete(s);
    StripIndexesFixed(StripIndexes(s));
  }

  /** A prefix without dots is copied as it is. */
  lemma {:induction false} StripIndexesPrefix(p: string, s: string)
    requires '.' !in p
    ensures StripIndexes(p + s) == p + StripIndexes(s)
    decreases |p|
  {
    if p != [] {
      var t := p + s;
      assert t[0] == p[0] && p[0] != '.' && t[1..] == p[1..] + s;
      assert '.' !in p[1..] by {
        forall k | 0 <= k < |p[1..]| ensures p[1..][k] != '.' {
          assert p[1..][k] == p[k + 1];
        }
      }
      StripIndexesPrefix(p[1..], s);
      assert StripIndexes(t) == [t[0]] + StripIndexes(t[1..]);
    } else {
      assert p + s == s;
    }
  }

  /** One index segment after a dotless prefix: `comments.0.name` is stripped to `comments.name`. */
  lemma {:induction false} StripIndexesSegment(p: string, digits: string, rest: string)
    requires '.' !in p
    requires digits != [] && forall k :: 0 <= k < |digits| ==> IsDigit(digits[k])
    requires rest == [] || !IsDigit(rest[0])
    ensures StripIndexes(p + ("." + digits + rest)) == p + StripIndexes(rest)
  {
    StripIndexesLeadingSegment(digits, rest);
    StripIndexesPrefix(p, "." + digits + rest);
  }

  lemma {:induction false} StripIndexesLeadingSegment(digits: string, rest: string)
    requires digits != [] && forall k :: 0 <= k < |digits| ==> IsDigit(digits[k])
    requires rest == [] || !IsDigit(rest[0])
    ensures StripIndexes("." + digits + rest) == StripIndexes(rest)
  {
    var t := "." + digits + rest;
    assert t[0] == '.' && t[1] == digits[0] && t[2..] == digits[1..] + rest;
    DropDigitsRun(digits[1..], rest);
  }

  lemma {:induction false} DropDigitsRun(digits: string, rest: string)
    requires forall k :: 0 <= k < |digits| ==> IsDigit(digits[k])
    requires rest == [] || !IsDigit(rest[0])
    ensures DropDigits(digits + rest) == rest
    decreases |digits|
  {
    if digits == [] {
      assert digits + rest == rest;
    } else {
      assert (digits + rest)[1..] == digits[1..] + rest;
      DropDigitsRun(digits[1..], rest);
    }
  }

  /** The fields cache of the Mongator instance: a store from query hash to record. */
  class FieldsCache {
    var entries: map<string, CacheEntry>

    constructor ()
      ensures entries == map[]
    {
      entries := map[];
    }

    method Get(hash: string) returns (e: Option<CacheEntry>)
      ensures e == if hash in entries then Some(entries[hash]) else None
    {
      e := if hash in entries then Some(entries[hash]) else None;
    }

    method Set(hash: string, e: CacheEntry)
      modifies this
      ensures entries == old(entries)[hash := e]
    {
      entries := entries[hash := e];
    }
  }

  // ----------------------------------------------------------------- document

  /** A document of a mapped class, as `Mongator\Document\Document` keeps it. */
  class Document {
    const schema: Schema
    var isNew: bool
    var id: Value
    var queryFields: Option<map<string, int>>
    var queryHashes: seq<string>
    var data: Node

    /** The schema is well formed and the tracker state keeps its invariant. */
    ghost predicate Consistent()
      reads this
    {
      ValidSchema(schema) && Valid(data)
    }

    /** `$mongator->create(...)`: a new document with every field null. */
    constructor (s: Schema)
      requires ValidSchema(s)
      ensures schema == s && isNew && id == Null && queryFields == None && queryHashes == []
      ensures data == Create(s) && Consistent()
    {
      schema := s;
      isNew := true;
      id := Null;
      queryFields := None;
      queryHashes := [];
      data := Create(s);
      new;
      CreateValid(s);
    }

    method SetId(newId: Value)
      modifies this
      ensures id == newId
      ensures isNew == old(isNew) && queryFields == old(queryFields) && queryHashes == old(queryHashes) && data == old(data)
    {
      id := newId;
    }

    /** `setIsNew($isNew)` casts its argument to a boolean. */
    method SetIsNew(flag: Value)
      modifies this
      ensures isNew == Truthy(flag)
      ensures id == old(id) && queryFields == old(queryFields) && queryHashes == old(queryHashes) && data == old(data)
    {
      isNew := Truthy(flag);
    }

    /**
     * `setDocumentData($data, true)`: the stored document becomes the
     * tracker state, nothing modified; an `_id` makes it an existing
     * document with that id.
     */
    method SetDocumentData(fetched: seq<Entry>)
      requires Consistent()
      modifies this
      ensures data == Hydrate(schema, fetched) && !Dirty(data) && Consistent()
      ensures match Lookup(fetched, "_id")
        case Some(BVal(v)) =>
          if v != Null then id == v && !isNew else id == old(id) && isNew == old(isNew)
        case _ => id == old(id) && isNew == old(isNew)
      ensures queryFields == old(queryFields) && queryHashes == old(queryHashes)
    {
      data := Hydrate(schema, fetched);
      HydrateValid(schema, fetched);
      HydrateClean(schema, fetched);
      match Lookup(fetched, "_id") {
        case Some(BVal(v)) =>
          if v != Null {
            id := v;
            isNew := false;
          }
        case _ =>
      }
    }

    /**
     * A setter or association change made on the document or on the
     * embedded child reached through the embedded-one getters named by
     * path. When a getter on the way returns null, the next call is a
     * method call on null: PHP raises an `Error` and nothing changes.
     */
    method Change(path: seq<string>, e: Edit) returns (r: Result<()>)
      requires Consistent() && EditValid(e)
      modifies this
      ensures NodeAt(old(data), path).Some? ==> r == Ok(()) && data == EditAt(old(data), path, e)
      ensures NodeAt(old(data), path).None? ==> r.Throws? && r.exception.Error? && data == old(data)
      ensures Consistent()
      ensures isNew == old(isNew) && id == old(id) && queryFields == old(queryFields) && queryHashes == old(queryHashes)
    {
      if NodeAt(data, path).None? {
        return Throws(Error("Call to a member function on null"));
      }
      data := EditAt(data, path, e);
      EditAtValid(old(data), path, e);
      r := Ok(());
    }

    /** `refresh()`: a new document has nothing to read back and raises; an existing one is reloaded. */
    method Refresh(fetched: seq<Entry>) returns (r: Result<()>)
      requires Consistent()
      modifies this
      ensures old(isNew) ==> r == Throws(LogicException("The document is new.")) && unchanged(this)
      ensures !old(isNew) ==> r == Ok(()) && data == Hydrate(schema, fetched) && !Dirty(data) && Consistent()
      ensures !old(isNew) ==> !isNew && match Lookup(fetched, "_id")
        case Some(BVal(v)) => id == if v != Null then v else old(id)
        case _ => id == old(id)
      ensures queryFields == old(queryFields) && queryHashes == old(queryHashes)
    {
      if isNew {
        return Throws(LogicException("The document is new."));
      }
      SetDocumentData(fetched);
      r := Ok(());
    }

    /**
     * `save($options)`: the options go to the batch insert of a new document
     * or to the update of an existing one, never to both; a new document's
     * query fields become the empty map, as it now holds every field.
     */
    method Save(options: seq<Entry>) returns (batchInsertOptions: seq<Entry>, updateOptions: seq<Entry>)
      modifies this
      ensures old(isNew) ==> queryFields == Some(map[]) && batchInsertOptions == options && updateOptions == []
      ensures !old(isNew) ==> queryFields == old(queryFields) && batchInsertOptions == [] && updateOptions == options
      ensures isNew == old(isNew) && id == old(id) && queryHashes == old(queryHashes) && data == old(data)
    {
      if isNew {
        queryFields := Some(map[]);
        batchInsertOptions := options;
        updateOptions := [];
      } else {
        batchInsertOptions := [];
        updateOptions := options;
      }
    }

    /** `setQueryFields($fields)`, with the fields of the associative array in order and their keys distinct. */
    method SetQueryFields(fields: seq<(string, Value)>)
      requires forall i, j :: 0 <= i < j < |fields| ==> fields[i].0 != fields[j].0
      modifies this
      ensures queryFields == Some(IncludedFields(fields))
      ensures isNew == old(isNew) && id == old(id) && queryHashes == old(queryHashes) && data == old(data)
    {
      var m: map<string, int> := map[];
      var i := 0;
      while i < |fields|
        invariant 0 <= i <= |fields|
        invariant m == IncludedFields(fields[..i])
      {
        assert fields[..i + 1][..i] == fields[..i];
        if Truthy(fields[i].1) {
          m := m[fields[i].0 := 1];
        }
        i := i + 1;
      }
      assert fields[..|fields|] == fields;
      queryFields := Some(m);
    }

    /**
     * `loadFull()`: unless the whole document is already loaded or it is new,
     * the fetched document, without the keys of the modified fields, is
     * loaded over the fields, and the whole document counts as loaded.
     */
    method LoadFull(fetched: seq<Entry>) returns (r: bool)
      requires Consistent()
      modifies this
      ensures r
      ensures old(queryFields) == Some(map[]) || old(isNew) ==> unchanged(this)
      ensures !(old(queryFields) == Some(map[]) || old(isNew)) ==>
        && data == old(data).(fields := Overlay(old(data).fields, Without(fetched, ModifiedNames(old(data).fields))))
        && queryFields == Some(map[])
      ensures Consistent() && isNew == old(isNew) && id == old(id) && queryHashes == old(queryHashes)
    {
      if queryFields == Some(map[]) || isNew {
        return true;
      }
      var d := UnsetKeys(fetched, ModifiedNames(data.fields));
      OverlayValid(data, d);
      data := data.(fields := Overlay(data.fields, d));
      queryFields := Some(map[]);
      r := true;
    }

    method AddQueryHash(hash: string)
      modifies this
      ensures queryHashes == old(queryHashes) + [hash]
      ensures isNew == old(isNew) && id == old(id) && queryFields == old(queryFields) && data == old(data)
    {
      queryHashes := queryHashes + [hash];
    }

    /** `removeQueryHash($hash)` as intended: the first occurrence of the hash is removed, if there is one. */
    method RemoveQueryHash(hash: string)
      modifies this
      ensures queryHashes == RemoveFirst(old(queryHashes), hash)
      ensures multiset(queryHashes) == multiset(old(queryHashes)) - multiset{hash}
      ensures isNew == old(isNew) && id == old(id) && queryFields == old(queryFields) && data == old(data)
    {
      RemoveFirstMultiset(queryHashes, hash);
      queryHashes := RemoveFirst(queryHashes, hash);
    }

    method ClearQueryHashes()
      modifies this
      ensures queryHashes == []
      ensures isNew == old(isNew) && id == old(id) && queryFields == old(queryFields) && data == old(data)
    {
      queryHashes := [];
    }

    /** Records, in the cache entry of every query hash of the document, the update u; nothing without a cache. */
    method UpdateCache(cache: FieldsCache?, u: CacheUpdate)
      modifies cache
      ensures cache != null ==> cache.entries == UpdateAll(old(cache.entries), queryHashes, u)
    {
      if cache == null {
        return;
      }
      var i := 0;
      while i < |queryHashes|
        invariant 0 <= i <= |queryHashes|
        invariant cache.entries == UpdateAll(old(cache.entries), queryHashes[..i], u)
      {
        var hash := queryHashes[i];
        UpdateAllSnoc(old(cache.entries), queryHashes[..i], hash, u);
        assert queryHashes[..i + 1] == queryHashes[..i] + [hash];
        var got := cache.Get(hash);
        var value := if got.Some? then got.value else CacheEntry(map[], []);
        match u {
          case AddField(f) =>
            if f !in value.fields || value.fields[f] != 1 {
              value := value.(fields := value.fields[f := 1]);
              cache.Set(hash, value);
            } else {
              assert value.fields[f := 1] == value.fields;
              assert cache.entries == cache.entries[hash := value];
            }
          case AddReference(x) =>
            if x !in value.references {
              value := value.(references := value.references + [x]);
              cache.Set(hash, value);
            } else {
              assert cache.entries == cache.entries[hash := value];
            }
        }
        i := i + 1;
      }
      assert queryHashes[..|queryHashes|] == queryHashes;
    }

    /** `addFieldCache($field)`: the field, without list indexes, is marked used in every query hash's record. */
    method AddFieldCache(cache: FieldsCache?, field: string)
      modifies cache
      ensures cache != null ==> cache.entries == UpdateAll(old(cache.entries), queryHashes, AddField(StripIndexes(field)))
    {
      UpdateCache(cache, AddField(StripIndexes(field)));
    }

    /** `addReferenceCache($reference)`: the reference is appended to every query hash's record that lacks it. */
    method AddReferenceCache(cache: FieldsCache?, reference: string)
      modifies cache
      ensures cache != null ==> cache.entries == UpdateAll(old(cache.entries), queryHashes, AddReference(reference))
    {
      UpdateCache(cache, AddReference(reference));
    }
  }
}

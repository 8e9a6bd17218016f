/**
 * The identity map of a Mongator instance: at most one document object per
 * stored id, keyed by a string serialisation of the id.
 */
module IdentityMaps {
  import opened Values
  import opened Documents

  /**
   * `serialize($id)`: an array id, and an object id other than a legacy
   * `\MongoId` (so a `MongoDB\BSON\ObjectID` too), is hashed
   * (`md5(serialize($id))`, here the hash parameter); a scalar or a
   * `\MongoId` is cast to a string.
   */
  function Serialize(id: Value, hash: Value -> string): (key: string)
    ensures id.List? || id.Oid? ==> key == hash(id)
    ensures id.MongoId? ==> key == id.hex
    ensures id.Int? ==> key == IntToString(id.i)
    ensures id.Str? ==> key == id.s
  {
    match id
    case List(_) => hash(id)
    case Oid(_) => hash(id)
    case _ => CastString(id)
  }

  /**
   * Ids whose string forms agree share one key: 1, "1" and true name the
   * same document, and so do a `\MongoId` and its hexadecimal string.
   */
  lemma SharedKeys(hash: Value -> string, i: int, hex: string)
    ensures Serialize(Int(i), hash) == Serialize(Str(IntToString(i)), hash)
    ensures Serialize(Int(1), hash) == Serialize(Bool(true), hash)
    ensures Serialize(MongoId(hex), hash) == Serialize(Str(hex), hash)
    ensures Serialize(Null, hash) == Serialize(Str(""), hash) == Serialize(Bool(false), hash)
  {
    assert NatToString(1) == "1";
  }

  /** Distinct integer ids never share a key. */
  lemma IntKeysDistinct(hash: Value -> string, i: int, j: int)
    requires i != j
    ensures Serialize(Int(i), hash) != Serialize(Int(j), hash)
  {
    if Serialize(Int(i), hash) == Serialize(Int(j), hash) {
      IntToStringInjective(i, j);
    }
  }

  /** `Mongator\IdentityMap`. */
  class IdentityMap {
    const hash: Value -> string
    var documents: map<string, Document>

    constructor (hash: Value -> string)
      ensures this.hash == hash && documents == map[]
    {
      this.hash := hash;
      documents := map[];
    }

    predicate Has(id: Value)
      reads this
    {
      Serialize(id, hash) in documents
    }

    /** `get($id)`; the source does not handle an id that is not in the map. */
    function Get(id: Value): Document
      requires Has(id)
      reads this
    {
      documents[Serialize(id, hash)]
    }

    function All(): map<string, Document>
      reads this
    {
      documents
    }

    /** `set($id, $document)`: the document is stored under the id's key, replacing any document there. */
    method Set(id: Value, d: Document)
      modifies this
      ensures documents == old(documents)[Serialize(id, hash) := d]
      ensures Has(id) && Get(id) == d
      ensures forall other :: Serialize(other, hash) != Serialize(id, hash) ==>
        Has(other) == old(Has(other)) && (Has(other) ==> Get(other) == old(Get(other)))
    {
      documents := documents[Serialize(id, hash) := d];
    }

    /** `remove($id)`: the id's key is dropped, every other entry is kept. */
    method Remove(id: Value)
      modifies this
      ensures documents == old(documents) - {Serialize(id, hash)}
      ensures !Has(id)
      ensures forall other :: Serialize(other, hash) != Serialize(id, hash) ==>
        Has(other) == old(Has(other)) && (Has(other) ==> Get(other) == old(Get(other)))
    {
      documents := documents - {Serialize(id, hash)};
    }

    method Clear()
      modifies this
      ensures All() == map[]
      ensures forall id :: !Has(id)
    {
      documents := map[];
    }
  }
}

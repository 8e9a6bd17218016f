/**
 * PHP values as a Mongator document holds them, the Type capability that
 * normalises a field value before it is written, and the nested arrays
 * (insert documents and update operators) that a save query is made of.
 */
module Values {

  datatype Option<T> = None | Some(value: T)

  /** The outcome of an operation that may throw: its value, or the exception it raises. */
  datatype Result<T> = Ok(value: T) | Throws(exception: Exception)
  datatype Exception =
    | LogicException(message: string)
    | InvalidArgumentException(message: string)
    /** PHP's `Error`, raised by a method call on null. */
    | Error(message: string)

  /**
   * A value held by a document field: a PHP scalar, an id object, or an
   * array of values. `Oid` is a `MongoDB\BSON\ObjectID`; `MongoId` is the
   * legacy driver's `\MongoId`. Both print as their hexadecimal form.
   */
  datatype Value =
    | Null
    | Bool(b: bool)
    | Int(i: int)
    | Str(s: string)
    | Oid(hex: string)
    | MongoId(hex: string)
    | List(items: seq<Value>)

  /** The declared type of a field, which selects the Type that normalises it. */
  datatype Kind = StringKind | BooleanKind | RawKind

  /** A PHP array as it is sent to MongoDB: a scalar, an ordered map, or a list. */
  datatype Bson = BVal(v: Value) | BDoc(entries: seq<Entry>) | BList(items: seq<Bson>)
  datatype Entry = Entry(key: string, val: Bson)

  predicate IsDigit(c: char) {
    '0' <= c <= '9'
  }

  function DigitChar(d: nat): (c: char)
    requires d < 10
    ensures IsDigit(c)
  {
    "0123456789"[d]
  }

  function DigitValue(c: char): (d: nat)
    requires IsDigit(c)
    ensures d < 10
  {
    (c as int) - ('0' as int)
  }

  /** Decimal digits of a natural number, most significant first. */
  function NatToString(n: nat): (s: string)
    ensures |s| >= 1
    ensures forall k :: 0 <= k < |s| ==> IsDigit(s[k])
    decreases n
  {
    if n < 10 then [DigitChar(n)] else NatToString(n / 10) + [DigitChar(n % 10)]
  }

  /** The number a string of decimal digits denotes. */
  function ParseNat(s: string): nat
    requires forall k :: 0 <= k < |s| ==> IsDigit(s[k])
    decreases |s|
  {
    if s == [] then 0 else ParseNat(s[..|s| - 1]) * 10 + DigitValue(s[|s| - 1])
  }

  /** PHP's (string) cast of an integer. */
  function IntToString(i: int): string {
    if i < 0 then "-" + NatToString(-i) else NatToString(i)
  }

  /** The decimal rendering is read back as the number it came from. */
  lemma {:induction false} NatToStringRoundTrip(n: nat)
    ensures ParseNat(NatToString(n)) == n
  {
    var s := NatToString(n);
    if n < 10 {
      assert s[..|s| - 1] == [];
    } else {
      assert s[..|s| - 1] == NatToString(n / 10);
      NatToStringRoundTrip(n / 10);
    }
  }

  /** The cast starts with a minus sign exactly for negative integers. */
  lemma IntToStringSign(i: int)
    ensures |IntToString(i)| > 0
    ensures IntToString(i)[0] == '-' <==> i < 0
  {
    if i >= 0 {
      assert IsDigit(NatToString(i)[0]);
    }
  }

  /** Two integers cast to the same string are the same integer. */
  lemma IntToStringInjective(i: int, j: int)
    requires IntToString(i) == IntToString(j)
    ensures i == j
  {
    if (i < 0) == (j < 0) {
      var n: nat, m: nat := if i < 0 then -i else i, if j < 0 then -j else j;
      assert NatToString(n) == NatToString(m) by {
        if i < 0 {
          assert NatToString(n) == IntToString(i)[1..];
          assert NatToString(m) == IntToString(j)[1..];
        }
      }
      NatToStringRoundTrip(n);
      NatToStringRoundTrip(m);
    } else {
      IntToStringSign(i);
      IntToStringSign(j);
      assert false;
    }
  }

  /** PHP truthiness of a value ((bool) cast, `if ($v)`). */
  predicate Truthy(v: Value) {
    match v
    case Null => false
    case Bool(b) => b
    case Int(i) => i != 0
    case Str(s) => s != "" && s != "0"
    case Oid(_) => true
    case MongoId(_) => true
    case List(items) => |items| > 0
  }

  /** PHP's (string) cast of a non-array value; an array becomes "Array". */
  function CastString(v: Value): string {
    match v
    case Null => ""
    case Bool(b) => if b then "1" else ""
    case Int(i) => IntToString(i)
    case Str(s) => s
    case Oid(hex) => hex
    case MongoId(hex) => hex
    case List(_) => "Array"
  }

  /**
   * The Type capability: the stored form of a field value. Null stays null
   * (a null field is never written), a string field is cast to a string, a
   * boolean field to a boolean, and a raw field (ids, id lists) is kept.
   */
  function Normalize(k: Kind, v: Value): (r: Value)
    ensures r == Null <==> v == Null
    ensures k == StringKind && v != Null ==> r == Str(CastString(v))
    ensures k == BooleanKind && v != Null ==> r == Bool(Truthy(v))
    ensures k == RawKind ==> r == v
  {
    if v == Null then Null
    else match k
      case StringKind => Str(CastString(v))
      case BooleanKind => Bool(Truthy(v))
      case RawKind => v
  }

  /** A normalised value is already in stored form. */
  lemma NormalizeIdempotent(k: Kind, v: Value)
    ensures Normalize(k, Normalize(k, v)) == Normalize(k, v)
  {
  }

  /** The conversions the save tests rely on: 234 becomes "234", 1 becomes true. */
  lemma NormalizeTestValues()
    ensures Normalize(StringKind, Int(234)) == Str("234")
    ensures Normalize(StringKind, Int(123)) == Str("123")
    ensures Normalize(StringKind, Int(345)) == Str("345")
    ensures Normalize(StringKind, Int(456)) == Str("456")
    ensures Normalize(StringKind, Int(567)) == Str("567")
    ensures Normalize(BooleanKind, Int(1)) == Bool(true)
    ensures Normalize(StringKind, Str("foo")) == Str("foo")
  {
    Cast234();
    Cast123();
    Cast345();
    Cast456();
    Cast567();
  }

  lemma Cast123()
    ensures Normalize(StringKind, Int(123)) == Str("123")
  {
    CastsTo(123, "123");
  }

  lemma Cast234()
    ensures Normalize(StringKind, Int(234)) == Str("234")
  {
    CastsTo(234, "234");
  }

  lemma Cast345()
    ensures Normalize(StringKind, Int(345)) == Str("345")
  {
    CastsTo(345, "345");
  }

  lemma Cast456()
    ensures Normalize(StringKind, Int(456)) == Str("456")
  {
    CastsTo(456, "456");
  }

  lemma Cast567()
    ensures Normalize(StringKind, Int(567)) == Str("567")
  {
    CastsTo(567, "567");
  }

  /** The string field of a three-digit number holds its digits. */
  lemma CastsTo(n: nat, digits: string)
    requires 100 <= n < 1000 && digits == [DigitChar(n / 100), DigitChar(n / 10 % 10), DigitChar(n % 10)]
    ensures Normalize(StringKind, Int(n)) == Str(digits)
  {
    ThreeDigits(n);
  }

  /** A three-digit number renders as its three digits. */
  lemma ThreeDigits(n: nat)
    requires 100 <= n < 1000
    ensures NatToString(n) == [DigitChar(n / 100), DigitChar(n / 10 % 10), DigitChar(n % 10)]
  {
    assert n / 10 / 10 == n / 100;
    assert NatToString(n / 10) == [DigitChar(n / 100)] + [DigitChar(n / 10 % 10)];
  }

  /** The keys of an ordered map, in order. */
  function Keys(es: seq<Entry>): (ks: seq<string>)
    ensures |ks| == |es|
    ensures forall k :: 0 <= k < |es| ==> ks[k] == es[k].key
  {
    if es == [] then [] else [es[0].key] + Keys(es[1..])
  }

  /** True when no scalar anywhere in the array is null. */
  predicate NoNullDoc(es: seq<Entry>)
    decreases es
  {
    es == [] || (NoNullBson(es[0].val) && NoNullDoc(es[1..]))
  }

  predicate NoNullList(bs: seq<Bson>)
    decreases bs
  {
    bs == [] || (NoNullBson(bs[0]) && NoNullList(bs[1..]))
  }

  predicate NoNullBson(b: Bson)
    decreases b
  {
    match b
    case BVal(v) => v != Null
    case BDoc(es) => NoNullDoc(es)
    case BList(bs) => NoNullList(bs)
  }

  lemma {:induction false} NoNullDocAppend(a: seq<Entry>, b: seq<Entry>)
    requires NoNullDoc(a) && NoNullDoc(b)
    ensures NoNullDoc(a + b)
    decreases |a|
  {
    if a != [] {
      assert (a + b)[0] == a[0];
      assert (a + b)[1..] == a[1..] + b;
      NoNullDocAppend(a[1..], b);
    } else {
      assert a + b == b;
    }
  }

  /** The entry stored under a key of an ordered map (PHP `$a[$k]`), if any. */
  function Lookup(es: seq<Entry>, k: string): Option<Bson>
  {
    if es == [] then None
    else if es[0].key == k then Some(es[0].val)
    else Lookup(es[1..], k)
  }

  /** The position of the first occurrence of x in s (PHP's array_search on a list). */
  function IndexOf<T(==)>(s: seq<T>, x: T): (k: nat)
    requires x in s
    ensures k < |s| && s[k] == x
    ensures forall j :: 0 <= j < k ==> s[j] != x
  {
    if s[0] == x then 0 else 1 + IndexOf(s[1..], x)
  }

  /** s without its element at position k. */
  function RemoveAt<T>(s: seq<T>, k: nat): (r: seq<T>)
    requires k < |s|
    ensures |r| == |s| - 1
    ensures forall j :: 0 <= j < k ==> r[j] == s[j]
    ensures forall j :: k <= j < |r| ==> r[j] == s[j + 1]
  {
    s[..k] + s[k + 1..]
  }

  /** s without the first occurrence of x; s itself when x does not occur. */
  function RemoveFirst<T(==)>(s: seq<T>, x: T): (r: seq<T>)
    ensures x !in s ==> r == s
    ensures x in s ==> r == RemoveAt(s, IndexOf(s, x))
  {
    if x in s then RemoveAt(s, IndexOf(s, x)) else s
  }

  /** Removing the first occurrence takes exactly one copy of x out of the multiset. */
  lemma RemoveFirstMultiset<T>(s: seq<T>, x: T)
    ensures multiset(RemoveFirst(s, x)) == multiset(s) - multiset{x}
  {
    if x in s {
      var k := IndexOf(s, x);
      assert s == s[..k] + [x] + s[k + 1..];
      assert multiset(s) == multiset(s[..k]) + multiset{x} + multiset(s[k + 1..]);
    }
  }
}

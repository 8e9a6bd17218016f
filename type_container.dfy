/**
 * The registry of field types (`Mongator\Type\Container`): a map from type
 * name to Type class, starting from the built-in types, that can be
 * extended, queried, shrunk and reset.
 */
module Types {
  import opened Values

  /** A Type class as the registry sees it: its name and whether it extends `Mongator\Type\Type`. */
  datatype TypeClass = TypeClass(className: string, isType: bool)

  /**
   * The built-in types the registry starts from, by name: the two that its
   * behaviour is fixed for, `string` and `float`.
   */
  function BuiltIns(): (types: map<string, TypeClass>)
    ensures forall name :: name in types ==> types[name].isType
    ensures "string" in types && "float" in types
  {
    map[
      "float" := TypeClass("Mongator\\Type\\FloatType", true),
      "string" := TypeClass("Mongator\\Type\\StringType", true)]
  }

  class TypeContainer {
    var types: map<string, TypeClass>

    /** Every registered class is a Type. */
    ghost predicate Valid()
      reads this
    {
      forall name :: name in types ==> types[name].isType
    }

    constructor ()
      ensures types == BuiltIns() && Valid()
    {
      types := BuiltIns();
    }

    predicate Has(name: string)
      reads this
    {
      name in types
    }

    /** `add($name, $class)`: a new name for a Type class is registered; an existing name or a class that is not a Type is refused. */
    method Add(name: string, c: TypeClass) returns (r: Result<()>)
      requires Valid()
      modifies this
      ensures old(Has(name)) || !c.isType ==> r.Throws? && r.exception.InvalidArgumentException? && types == old(types)
      ensures !old(Has(name)) && c.isType ==> r == Ok(()) && types == old(types)[name := c]
      ensures Valid()
    {
      if name in types {
        return Throws(InvalidArgumentException("The type already exists."));
      }
      if !c.isType {
        return Throws(InvalidArgumentException("The class is not a subclass of Type."));
      }
      types := types[name := c];
      r := Ok(());
    }

    /** `get($name)`: the Type registered under the name; an unknown name is refused. */
    method Get(name: string) returns (r: Result<TypeClass>)
      ensures Has(name) ==> r == Ok(types[name])
      ensures !Has(name) ==> r.Throws? && r.exception.InvalidArgumentException?
    {
      if name !in types {
        return Throws(InvalidArgumentException("The type does not exist."));
      }
      r := Ok(types[name]);
    }

    /** `remove($name)`: the name is unregistered; an unknown name is refused. */
    method Remove(name: string) returns (r: Result<()>)
      requires Valid()
      modifies this
      ensures old(Has(name)) ==> r == Ok(()) && types == old(types) - {name}
      ensures !old(Has(name)) ==> r.Throws? && r.exception.InvalidArgumentException? && types == old(types)
      ensures !Has(name) && Valid()
    {
      if name !in types {
        return Throws(InvalidArgumentException("The type does not exist."));
      }
      types := types - {name};
      r := Ok(());
    }

    /** `reset()`: back to exactly the built-in types. */
    method Reset()
      modifies this
      ensures types == BuiltIns() && Valid()
    {
      types := BuiltIns();
    }
  }

  const TestingType := TypeClass("Mongator\\Tests\\Type\\TestingType", true)
  const DateTimeClass := TypeClass("DateTime", false)

  /** `testHas`: `string` is built in, `no` is not. */
  method HasBuiltIn() returns (hasString: bool, hasNo: bool)
    ensures hasString && !hasNo
  {
    var container := new TypeContainer();
    hasString := container.Has("string");
    hasNo := container.Has("no");
  }

  /** `testAdd`: a type added under a new name is there and is returned by `get`. */
  method AddThenGet() returns (has: bool, got: Result<TypeClass>)
    ensures has && got == Ok(TestingType)
  {
    var container := new TypeContainer();
    var added := container.Add("testing", TestingType);
    has := container.Has("testing");
    got := container.Get("testing");
  }

  /** `testAddAlreadyExists` and `testAddClassNotSubclassType`. */
  method AddRefused() returns (existing: Result<()>, notType: Result<()>)
    ensures existing.Throws? && existing.exception.InvalidArgumentException?
    ensures notType.Throws? && notType.exception.InvalidArgumentException?
  {
    var container := new TypeContainer();
    existing := container.Add("string", TestingType);
    notType := container.Add("testing", DateTimeClass);
  }

  /** `testGet` and `testGetNotExists`. */
  method GetBuiltInOrRefuse() returns (str: Result<TypeClass>, float: Result<TypeClass>, no: Result<TypeClass>)
    ensures str == Ok(TypeClass("Mongator\\Type\\StringType", true))
    ensures float == Ok(TypeClass("Mongator\\Type\\FloatType", true))
    ensures no.Throws? && no.exception.InvalidArgumentException?
  {
    var container := new TypeContainer();
    str := container.Get("string");
    float := container.Get("float");
    no := container.Get("no");
  }

  /** `testRemove` and `testRemoveNotExists`. */
  method RemoveThenHas() returns (hasString: bool, unknown: Result<()>)
    ensures !hasString
    ensures unknown.Throws? && unknown.exception.InvalidArgumentException?
  {
    var container := new TypeContainer();
    var removed := container.Remove("string");
    hasString := container.Has("string");
    unknown := container.Remove("no");
  }

  /** `testResetTypes`: reset brings the built-ins back and drops the added type. */
  method ResetDropsAdded() returns (hasString: bool, hasTesting: bool)
    ensures hasString && !hasTesting
  {
    var container := new TypeContainer();
    var added := container.Add("testing", TestingType);
    container.Reset();
    hasString := container.Has("string");
    hasTesting := container.Has("testing");
  }
}

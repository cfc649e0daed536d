/** The class-level state Fluxo::Operation::Attributes::ClassMethods gives every
    operation class: the validations proxy, the strict flag (cached from the global
    configuration on first read) and the required-attribute list. */
module FluxoAttributes {
  import opened Values
  import FluxoConfig

  /** What `validations_proxy.validate!` decides for a set of attributes: None when
      they are valid, Some(errors) otherwise. */
  type Validator = AttrMap -> Option<Value>

  class ClassMethods {
    /** `@validations_proxy`; set only by the ActiveModel extension. */
    var validationsProxy: Option<Validator>
    /** `@strict`: None while the instance variable is undefined. */
    var strict: Option<Value>
    /** `@required_attributes`; the reader materialises an unset list as []. */
    var requiredAttributes: seq<Value>

    /** The list never holds the same name twice. */
    predicate Valid()
      reads this
    {
      NoDup(requiredAttributes)
    }

    /** A freshly defined operation class: nothing declared, no strict override. */
    constructor (validationsProxy: Option<Validator>)
      ensures Valid()
      ensures this.validationsProxy == validationsProxy
      ensures strict == None
      ensures RequiredAttributes() == []
    {
      this.validationsProxy := validationsProxy;
      strict := None;
      requiredAttributes := [];
    }

    /** `required_attributes`. */
    function RequiredAttributes(): seq<Value>
      reads this
    {
      requiredAttributes
    }

    /** `strict = v`. */
    method SetStrict(v: Value)
      modifies this
      ensures strict == Some(v)
      ensures requiredAttributes == old(requiredAttributes) && validationsProxy == old(validationsProxy)
    {
      strict := Some(v);
    }

    /** `strict?`: the class's own value once one is defined, even a falsey one;
        otherwise `Fluxo.config.strict?` is read and stored, so later changes of the
        global configuration no longer reach this class. */
    method IsStrict(config: FluxoConfig.Config) returns (r: Value)
      modifies this
      ensures old(strict).Some? ==> r == old(strict).value && strict == old(strict)
      ensures old(strict).None? ==> r == Bool(config.IsStrict()) && strict == Some(r)
      ensures requiredAttributes == old(requiredAttributes) && validationsProxy == old(validationsProxy)
    {
      if strict.Some? {
        r := strict.value;
      } else {
        r := Bool(config.IsStrict());
        strict := Some(r);
      }
    }

    /** `require_attributes(*names)`: `@required_attributes |= names`. */
    method RequireAttributes(names: seq<Value>) returns (r: seq<Value>)
      requires Valid()
      modifies this
      ensures Valid()
      ensures requiredAttributes == Union(old(requiredAttributes), names) && r == requiredAttributes
      ensures old(requiredAttributes) <= requiredAttributes
      ensures forall x :: x in requiredAttributes <==> x in old(requiredAttributes) || x in names
      ensures strict == old(strict) && validationsProxy == old(validationsProxy)
    {
      UnionSpec(requiredAttributes, names);
      requiredAttributes := Union(requiredAttributes, names);
      r := requiredAttributes;
    }

    /** `require_attribute`, an alias of `require_attributes`. */
    method RequireAttribute(names: seq<Value>) returns (r: seq<Value>)
      requires Valid()
      modifies this
      ensures Valid()
      ensures requiredAttributes == Union(old(requiredAttributes), names) && r == requiredAttributes
      ensures strict == old(strict) && validationsProxy == old(validationsProxy)
    {
      r := RequireAttributes(names);
    }

    /** `attributes`, another alias of `require_attributes`. */
    method Attributes(names: seq<Value>) returns (r: seq<Value>)
      requires Valid()
      modifies this
      ensures Valid()
      ensures requiredAttributes == Union(old(requiredAttributes), names) && r == requiredAttributes
      ensures strict == old(strict) && validationsProxy == old(validationsProxy)
    {
      r := RequireAttributes(names);
    }

    /** `transient_attributes(*names)`: deprecated; changes nothing and answers nil
        (what `puts` returns). */
    method TransientAttributes(names: seq<Value>) returns (r: Value)
      ensures r == Nil
    {
      r := Nil;
    }

    /** `validations` without the ActiveModel extension always raises NotImplementedError,
        which a `rescue => e` does not catch. */
    method Validations() returns (o: Outcome<Value>)
      ensures o.Raised? && o.exception.cls == NotImplementedError
      ensures !IsStandardError(o.exception.cls)
    {
      o := Raised(Exception(NotImplementedError, Str("ActiveModel is not defined to use validations.")));
    }
  }

  /** Declaring the same names again leaves the list as it is. */
  lemma RequireTwice(current: seq<Value>, names: seq<Value>)
    requires NoDup(current)
    ensures Union(Union(current, names), names) == Union(current, names)
    ensures (forall x :: x in names ==> x in current) ==> Union(current, names) == current
  {
    UnionSpec(current, names);
    if forall x :: x in names ==> x in current {
      UniqAbsorbs(current, names);
    }
  }

  /** A new name is appended once, after the names already declared, whatever the
      number of times it appears among the arguments. */
  lemma RequireAppendsOnce(current: seq<Value>, x: Value, n: nat)
    requires NoDup(current) && x !in current
    ensures Union(current, seq(n + 1, _ => x)) == current + [x]
  {
    var c := current + [x];
    assert NoDup(c) by {
      forall i, j | 0 <= i < j < |c| ensures c[i] != c[j] {
        if j == |current| {
          assert c[i] in current;
        }
      }
    }
    var rest := seq(n, _ => x);
    assert current + seq(n + 1, _ => x) == c + rest;
    UniqAbsorbs(c, rest);
  }
}

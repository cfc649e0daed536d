/** The class-level state Floop::Operation::Attributes::ClassMethods gives every Floop
    operation class: the declared attribute and transient-attribute names and the two
    sloppy flags, which fall back to the global configuration. */
module FloopAttributes {
  import opened Values
  import FloopConfig

  /** `names.map(&:to_sym)`: every name symbolised in order; the first name that is
      neither a String nor a Symbol raises NoMethodError. */
  function SymbolizeAll(names: seq<Value>): (r: Outcome<seq<Value>>)
    ensures r.Returned? <==> forall x :: x in names ==> x.Str? || x.Sym?
    ensures r.Returned? ==>
              |r.value| == |names| &&
              forall i :: 0 <= i < |names| ==> Returned(r.value[i]) == ToSym(names[i])
    ensures r.Raised? ==> r.exception.cls == NoMethodError
    decreases |names|
  {
    if names == [] then Returned([])
    else
      match ToSym(names[0])
      case Raised(e) => Raised(e)
      case Returned(s) =>
        match SymbolizeAll(names[1..])
        case Raised(e) => Raised(e)
        case Returned(rest) => Returned([s] + rest)
  }

  /** The list `attributes(*names)` leaves behind when it started from `current`:
      the symbolised names not yet present are appended in the order given. */
  function Declared(current: seq<Value>, names: seq<Value>): Outcome<seq<Value>> {
    match SymbolizeAll(names)
    case Raised(e) => Raised(e)
    case Returned(syms) => Returned(current + Minus(syms, current))
  }

  /** Declaring keeps the old names as a prefix, adds exactly the new symbols, and a
      second identical declaration changes nothing. */
  lemma DeclaredSpec(current: seq<Value>, names: seq<Value>)
    requires Declared(current, names).Returned?
    ensures var r := Declared(current, names).value;
      current <= r &&
      (forall x :: x in r <==> x in current || x in SymbolizeAll(names).value) &&
      Declared(r, names) == Returned(r)
  {
    var syms := SymbolizeAll(names).value;
    var r := current + Minus(syms, current);
    assert forall x :: x in syms ==> x in r;
    MinusAllPresent(syms, r);
    assert r + Minus(syms, r) == r;
  }

  lemma {:induction false} MinusAllPresent(a: seq<Value>, b: seq<Value>)
    requires forall x :: x in a ==> x in b
    ensures Minus(a, b) == []
    decreases |a|
  {
    if a != [] {
      assert forall x :: x in a[1..] ==> x in a;
      MinusAllPresent(a[1..], b);
    }
  }

  /** Declaring keeps the old list in front and appends every new symbol as many times
      as the names give it: duplicates inside one call are kept. */
  lemma DeclaredCounts(current: seq<Value>, names: seq<Value>)
    requires Declared(current, names).Returned?
    ensures var syms := SymbolizeAll(names).value;
      var r := Declared(current, names).value;
      |current| <= |r| && r[..|current|] == current &&
      forall x :: multiset(r[|current|..])[x] == if x in current then 0 else multiset(syms)[x]
  {
    var syms := SymbolizeAll(names).value;
    var r := current + Minus(syms, current);
    assert r[..|current|] == current && r[|current|..] == Minus(syms, current);
    MinusCounts(syms, current);
  }

  /** Symbolising all but the last name gives all but the last symbol. */
  lemma SymbolizeFront(names: seq<Value>)
    requires SymbolizeAll(names).Returned? && |names| > 0
    ensures var syms := SymbolizeAll(names).value;
      SymbolizeAll(names[..|names| - 1]).Returned? &&
      syms == SymbolizeAll(names[..|names| - 1]).value + [syms[|syms| - 1]]
  {
    var syms := SymbolizeAll(names).value;
    var n := |names| - 1;
    var front := names[..n];
    assert forall x :: x in front ==> x in names;
    var fs := SymbolizeAll(front).value;
    forall i | 0 <= i < n ensures fs[i] == syms[i] {
      assert Returned(fs[i]) == ToSym(front[i]) == ToSym(names[i]) == Returned(syms[i]);
    }
  }

  /** Declaring appends the names one by one, in the order given, each unless the list
      held it before the call. */
  lemma DeclaredInOrder(current: seq<Value>, names: seq<Value>)
    requires Declared(current, names).Returned? && |names| > 0
    ensures var syms := SymbolizeAll(names).value;
      var last := syms[|syms| - 1];
      Declared(current, names[..|names| - 1]).Returned? &&
      Declared(current, names).value ==
        Declared(current, names[..|names| - 1]).value + (if last in current then [] else [last])
  {
    SymbolizeFront(names);
    var syms := SymbolizeAll(names).value;
    var fs := SymbolizeAll(names[..|names| - 1]).value;
    var last := syms[|syms| - 1];
    MinusAppend(fs, [last], current);
    MinusOne(last, current);
  }

  /** `attribute?(key)` against a list of names: false for nil and false, otherwise
      `names.include?(key.to_sym)`, which raises when the key has no `to_sym`. */
  function IsMember(names: seq<Value>, key: Value): (r: Outcome<bool>)
    ensures !Truthy(key) ==> r == Returned(false)
    ensures Truthy(key) ==> (r.Raised? <==> !(key.Str? || key.Sym?))
    ensures r == Returned(true) ==> key.Str? || key.Sym?
  {
    if !Truthy(key) then Returned(false)
    else
      match ToSym(key)
      case Raised(e) => Raised(e)
      case Returned(s) => Returned(s in names)
  }

  /** After a successful declaration every declared name, as a String or a Symbol, is an attribute. */
  lemma DeclaredAreMembers(current: seq<Value>, names: seq<Value>, i: nat)
    requires Declared(current, names).Returned?
    requires i < |names|
    ensures IsMember(Declared(current, names).value, names[i]) == Returned(true)
  {
    DeclaredSpec(current, names);
    var syms := SymbolizeAll(names).value;
    assert syms[i] in syms;
  }

  class ClassMethods {
    /** `@validations_proxy`; set only by the ActiveModel extension. */
    var validationsProxy: Option<AttrMap -> Option<Value>>
    /** `@sloppy_transient_attributes`, None while undefined. */
    var sloppyTransientAttributes: Option<Value>
    /** `@sloppy_attributes`, None while undefined. */
    var sloppyAttributes: Option<Value>
    /** `@attribute_names`; the reader materialises an unset list as []. */
    var attributeNames: seq<Value>
    /** `@transient_attribute_names`; the reader materialises an unset list as []. */
    var transientAttributeNames: seq<Value>

    /** A freshly defined operation class: no names declared, no overrides. */
    constructor (validationsProxy: Option<AttrMap -> Option<Value>>)
      ensures this.validationsProxy == validationsProxy
      ensures sloppyTransientAttributes == None && sloppyAttributes == None
      ensures AttributeNames() == [] && TransientAttributeNames() == []
    {
      this.validationsProxy := validationsProxy;
      sloppyTransientAttributes := None;
      sloppyAttributes := None;
      attributeNames := [];
      transientAttributeNames := [];
    }

    /** `attribute_names`. */
    function AttributeNames(): seq<Value>
      reads this
    {
      attributeNames
    }

    /** `transient_attribute_names`. */
    function TransientAttributeNames(): seq<Value>
      reads this
    {
      transientAttributeNames
    }

    /** `sloppy_attributes = v`. */
    method SetSloppyAttributes(v: Value)
      modifies this
      ensures sloppyAttributes == Some(v)
      ensures sloppyTransientAttributes == old(sloppyTransientAttributes)
      ensures attributeNames == old(attributeNames) && transientAttributeNames == old(transientAttributeNames)
      ensures validationsProxy == old(validationsProxy)
    {
      sloppyAttributes := Some(v);
    }

    /** `sloppy_transient_attributes = v`. */
    method SetSloppyTransientAttributes(v: Value)
      modifies this
      ensures sloppyTransientAttributes == Some(v)
      ensures sloppyAttributes == old(sloppyAttributes)
      ensures attributeNames == old(attributeNames) && transientAttributeNames == old(transientAttributeNames)
      ensures validationsProxy == old(validationsProxy)
    {
      sloppyTransientAttributes := Some(v);
    }

    /** `sloppy_attributes?`: the class's own value whenever one was assigned, even
        false; otherwise the global setting as it is now (nothing is cached). */
    function IsSloppyAttributes(config: FloopConfig.Config): (r: Value)
      reads this, config
      ensures sloppyAttributes.Some? ==> r == sloppyAttributes.value
      ensures sloppyAttributes.None? ==> r == config.sloppyAttributes
    {
      if sloppyAttributes.Some? then sloppyAttributes.value else config.sloppyAttributes
    }

    /** `sloppy_transient_attributes?`, resolved the same way. */
    function IsSloppyTransientAttributes(config: FloopConfig.Config): (r: Value)
      reads this, config
      ensures sloppyTransientAttributes.Some? ==> r == sloppyTransientAttributes.value
      ensures sloppyTransientAttributes.None? ==> r == config.sloppyTransientAttributes
    {
      if sloppyTransientAttributes.Some? then sloppyTransientAttributes.value else config.sloppyTransientAttributes
    }

    /** `attributes(*names)`: appends the symbolised names not yet declared and answers
        the list; when a name cannot be symbolised it raises before anything changes. */
    method Attributes(names: seq<Value>) returns (r: Outcome<seq<Value>>)
      modifies this
      ensures r == Declared(old(attributeNames), names)
      ensures r.Returned? ==> attributeNames == r.value
      ensures r.Raised? ==> attributeNames == old(attributeNames)
      ensures transientAttributeNames == old(transientAttributeNames)
      ensures sloppyAttributes == old(sloppyAttributes) && sloppyTransientAttributes == old(sloppyTransientAttributes)
      ensures validationsProxy == old(validationsProxy)
    {
      var syms := SymbolizeAll(names);
      if syms.Raised? {
        return Raised(syms.exception);
      }
      attributeNames := attributeNames + Minus(syms.value, attributeNames);
      r := Returned(attributeNames);
    }

    /** `transient_attributes(*names)`: the same on the transient list, which is
        independent of the attribute list. */
    method TransientAttributes(names: seq<Value>) returns (r: Outcome<seq<Value>>)
      modifies this
      ensures r == Declared(old(transientAttributeNames), names)
      ensures r.Returned? ==> transientAttributeNames == r.value
      ensures r.Raised? ==> transientAttributeNames == old(transientAttributeNames)
      ensures attributeNames == old(attributeNames)
      ensures sloppyAttributes == old(sloppyAttributes) && sloppyTransientAttributes == old(sloppyTransientAttributes)
      ensures validationsProxy == old(validationsProxy)
    {
      var syms := SymbolizeAll(names);
      if syms.Raised? {
        return Raised(syms.exception);
      }
      transientAttributeNames := transientAttributeNames + Minus(syms.value, transientAttributeNames);
      r := Returned(transientAttributeNames);
    }

    /** `attribute?(key)`. */
    function IsAttribute(key: Value): (r: Outcome<bool>)
      reads this
      ensures !Truthy(key) ==> r == Returned(false)
      ensures key.Sym? ==> r == Returned(key in attributeNames)
      ensures key.Str? ==> r == Returned(Sym(key.text) in attributeNames)
      ensures Truthy(key) && !key.Sym? && !key.Str? ==> r.Raised? && r.exception.cls == NoMethodError
    {
      IsMember(attributeNames, key)
    }

    /** `transient_attribute?(key)`. */
    function IsTransientAttribute(key: Value): (r: Outcome<bool>)
      reads this
      ensures !Truthy(key) ==> r == Returned(false)
      ensures key.Sym? ==> r == Returned(key in transientAttributeNames)
      ensures key.Str? ==> r == Returned(Sym(key.text) in transientAttributeNames)
      ensures Truthy(key) && !key.Sym? && !key.Str? ==> r.Raised? && r.exception.cls == NoMethodError
    {
      IsMember(transientAttributeNames, key)
    }

    /** `validations` without the ActiveModel extension always raises NotImplementedError. */
    method Validations() returns (o: Outcome<Value>)
      ensures o.Raised? && o.exception.cls == NotImplementedError
      ensures !IsStandardError(o.exception.cls)
    {
      o := Raised(Exception(NotImplementedError, Str("ActiveModel is not defined to use validations.")));
    }
  }
}

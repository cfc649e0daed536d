/** Fluxo::Result: the tagged outcome every step and every operation produces
    ({operation, type, value, transient_attributes, ids}), its structural equality,
    its type predicates, its in-place `mutate` and its three hooks. Floop::Result is
    the same class and reuses this model. */
module Results {
  import opened Values

  const OK: Value := Sym("ok")
  const FAILURE: Value := Sym("failure")
  const EXCEPTION: Value := Sym("exception")

  const OPERATION: Value := Sym("operation")
  const TYPE: Value := Sym("type")
  const VALUE: Value := Sym("value")
  const TRANSIENT_ATTRIBUTES: Value := Sym("transient_attributes")
  const IDS: Value := Sym("ids")

  /** Result::ATTRIBUTES, the only keys `mutate` writes. */
  const ATTRIBUTES: seq<Value> := [OPERATION, TYPE, VALUE, TRANSIENT_ATTRIBUTES, IDS]

  /** The five instance variables of a Result, as a value. */
  datatype ResultData = ResultData(
    operation: Value,
    kind: Value,
    value: Value,
    transientAttributes: Value,
    ids: Value)

  /** `Result.new(operation:, type:, value:, ids:)`: ids go through Kernel#Array and
      transient_attributes is left unset (nil). */
  function Initial(operation: Value, kind: Value, value: Value, ids: Value): (r: ResultData)
    ensures r.operation == operation && r.kind == kind && r.value == value
    ensures r.transientAttributes == Nil
    ensures r.ids.Arr?
    ensures ids == Nil ==> r.ids == Arr([])
    ensures ids.Arr? ==> r.ids == ids
    ensures !ids.Nil? && !ids.Arr? ==> r.ids == Arr([ids])
  {
    ResultData(operation, kind, value, Nil, Arr(ArrayOf(ids)))
  }

  /** The instance variable a key of ATTRIBUTES names. */
  function Field(d: ResultData, key: Value): Value
    requires key in ATTRIBUTES
  {
    if key == OPERATION then d.operation
    else if key == TYPE then d.kind
    else if key == VALUE then d.value
    else if key == TRANSIENT_ATTRIBUTES then d.transientAttributes
    else d.ids
  }

  /** One `instance_variable_set` of the `mutate` loop: only keys of ATTRIBUTES are written. */
  function Assign(d: ResultData, key: Value, v: Value): ResultData {
    if key == OPERATION then d.(operation := v)
    else if key == TYPE then d.(kind := v)
    else if key == VALUE then d.(value := v)
    else if key == TRANSIENT_ATTRIBUTES then d.(transientAttributes := v)
    else if key == IDS then d.(ids := v)
    else d
  }

  /** The state after `mutate(**kvs)`, the keyword pairs taken in order. */
  function Mutated(d: ResultData, kvs: seq<(Value, Value)>): ResultData
    decreases |kvs|
  {
    if kvs == [] then d
    else
      var last := kvs[|kvs| - 1];
      Assign(Mutated(d, kvs[..|kvs| - 1]), last.0, last.1)
  }

  /** The value the last pair with key `key` carries, or `otherwise` when no pair has that key. */
  function LastBinding(kvs: seq<(Value, Value)>, key: Value, otherwise: Value): Value
    decreases |kvs|
  {
    if kvs == [] then otherwise
    else if kvs[|kvs| - 1].0 == key then kvs[|kvs| - 1].1
    else LastBinding(kvs[..|kvs| - 1], key, otherwise)
  }

  /** After `mutate(**kvs)` every attribute holds the value of the last pair naming it,
      and an attribute no pair names is unchanged; keys outside ATTRIBUTES have no effect. */
  lemma {:induction false} MutatedFields(d: ResultData, kvs: seq<(Value, Value)>)
    ensures forall k :: k in ATTRIBUTES ==> Field(Mutated(d, kvs), k) == LastBinding(kvs, k, Field(d, k))
    decreases |kvs|
  {
    if kvs != [] {
      MutatedFields(d, kvs[..|kvs| - 1]);
    }
  }

  /** Pairs whose keys are not attributes can be dropped without changing the outcome. */
  lemma {:induction false} MutatedIgnoresOtherKeys(d: ResultData, kvs: seq<(Value, Value)>, key: Value, v: Value)
    requires key !in ATTRIBUTES
    ensures Mutated(d, kvs + [(key, v)]) == Mutated(d, kvs)
  {
    var s := kvs + [(key, v)];
    assert s[..|s| - 1] == kvs;
  }

  /** Two states that agree on every attribute are the same state. */
  lemma FieldsDetermine(a: ResultData, b: ResultData)
    requires forall k :: k in ATTRIBUTES ==> Field(a, k) == Field(b, k)
    ensures a == b
  {
    assert Field(a, OPERATION) == Field(b, OPERATION);
    assert Field(a, TYPE) == Field(b, TYPE);
    assert Field(a, VALUE) == Field(b, VALUE);
    assert Field(a, TRANSIENT_ATTRIBUTES) == Field(b, TRANSIENT_ATTRIBUTES);
    assert Field(a, IDS) == Field(b, IDS);
  }

  /** Mutating with the same pairs twice is the same as mutating once. */
  lemma MutateIdempotent(d: ResultData, kvs: seq<(Value, Value)>)
    ensures Mutated(Mutated(d, kvs), kvs) == Mutated(d, kvs)
  {
    MutatedFields(d, kvs);
    MutatedFields(Mutated(d, kvs), kvs);
    forall k | k in ATTRIBUTES
      ensures Field(Mutated(Mutated(d, kvs), kvs), k) == Field(Mutated(d, kvs), k)
    {
      LastBindingTwice(kvs, k, Field(d, k), Field(Mutated(d, kvs), k));
    }
    FieldsDetermine(Mutated(Mutated(d, kvs), kvs), Mutated(d, kvs));
  }

  /** A field no pair names keeps the value it had. */
  lemma {:induction false} LastBindingAbsent(kvs: seq<(Value, Value)>, key: Value, x: Value)
    requires forall i :: 0 <= i < |kvs| ==> kvs[i].0 != key
    ensures LastBinding(kvs, key, x) == x
    decreases |kvs|
  {
    if kvs != [] {
      LastBindingAbsent(kvs[..|kvs| - 1], key, x);
    }
  }

  /** A field some pair names takes the value of the last such pair. */
  lemma {:induction false} LastBindingPresent(kvs: seq<(Value, Value)>, key: Value, x: Value, i: nat)
    requires i < |kvs| && kvs[i].0 == key
    requires forall j :: i < j < |kvs| ==> kvs[j].0 != key
    ensures LastBinding(kvs, key, x) == kvs[i].1
    decreases |kvs|
  {
    if i < |kvs| - 1 {
      var front := kvs[..|kvs| - 1];
      assert front[i] == kvs[i];
      LastBindingPresent(front, key, x, i);
    }
  }

  /** A field that already holds its last binding keeps it when the pairs are applied again. */
  lemma {:induction false} LastBindingTwice(kvs: seq<(Value, Value)>, key: Value, x: Value, y: Value)
    requires y == LastBinding(kvs, key, x)
    ensures LastBinding(kvs, key, y) == y
    decreases |kvs|
  {
    if kvs != [] && kvs[|kvs| - 1].0 != key {
      LastBindingTwice(kvs[..|kvs| - 1], key, x, y);
    }
  }

  /** `Result#==` (and `eql?`): the other object is a Result (None stands for any
      other object) and operation, type, value and ids are equal;
      transient_attributes is not compared. */
  predicate Equals(self: ResultData, other: Option<ResultData>) {
    other.Some? &&
    other.value.operation == self.operation && other.value.kind == self.kind &&
    other.value.value == self.value && other.value.ids == self.ids
  }

  /** `==` is exactly equality once transient_attributes is forgotten, so it is an
      equivalence relation on Results. */
  lemma EqualsIgnoresOnlyTransient(a: ResultData, b: ResultData)
    ensures Equals(a, Some(b)) <==> a.(transientAttributes := Nil) == b.(transientAttributes := Nil)
    ensures Equals(a, Some(b)) <==> Equals(b, Some(a))
    ensures Equals(a, Some(a))
  {
  }

  /** Mutating all four compared fields gives a Result equal to one built fresh from them. */
  lemma MutateAllIsNew(d: ResultData, operation: Value, kind: Value, value: Value, ids: seq<Value>)
    ensures Equals(Mutated(d, [(OPERATION, operation), (VALUE, value), (TYPE, kind), (IDS, Arr(ids))]),
                   Some(Initial(operation, kind, value, Arr(ids))))
  {
    var kvs := [(OPERATION, operation), (VALUE, value), (TYPE, kind), (IDS, Arr(ids))];
    assert kvs[..1][..0] == [];
    assert Mutated(d, kvs[..1]) == d.(operation := operation);
    assert kvs[..2][..1] == kvs[..1];
    assert Mutated(d, kvs[..2]) == d.(operation := operation, value := value);
    assert kvs[..3][..2] == kvs[..2];
    assert Mutated(d, kvs[..3]) == d.(operation := operation, value := value, kind := kind);
    assert kvs[..3] == kvs[..|kvs| - 1];
  }

  /** Mutating a single attribute gives a Result equal to one built fresh from the old
      fields with that attribute replaced. */
  lemma MutateOneIsNew(d: ResultData, key: Value, v: Value)
    requires key in [OPERATION, TYPE, VALUE, IDS]
    requires d.ids.Arr? && (key == IDS ==> v.Arr?)
    ensures var m := Mutated(d, [(key, v)]);
      Equals(m, Some(Initial(
        if key == OPERATION then v else d.operation,
        if key == TYPE then v else d.kind,
        if key == VALUE then v else d.value,
        if key == IDS then v else d.ids)))
  {
    var kvs := [(key, v)];
    assert kvs[..0] == [];
  }

  predicate IsSuccess(d: ResultData) { d.kind == OK }
  predicate IsFailure(d: ResultData) { d.kind == FAILURE }
  predicate IsError(d: ResultData) { d.kind == EXCEPTION }

  /** At most one of the three predicates holds, and for the three documented types exactly one. */
  lemma PredicatesExclusive(d: ResultData)
    ensures !(IsSuccess(d) && IsFailure(d)) && !(IsSuccess(d) && IsError(d)) && !(IsFailure(d) && IsError(d))
    ensures d.kind in [OK, FAILURE, EXCEPTION] <==> (IsSuccess(d) || IsFailure(d) || IsError(d))
  {
  }

  /** Whether `on_<kind>(*handlerIds) { ... }` calls its block: the type matches and either
      no truthy filter id was given or `ids & handlerIds` holds a truthy element.
      `ids` is an Array unless `mutate` put something else there: `Integer#&` then raises
      TypeError, and every other object either lacks `&` or answers a boolean without
      `any?` (NoMethodError). */
  function HookFires(d: ResultData, expected: Value, handlerIds: seq<Value>): (r: Outcome<bool>)
    ensures r.Raised? ==> d.kind == expected && AnyTruthy(handlerIds) && !d.ids.Arr?
    ensures r.Raised? ==> r.exception.cls == (if d.ids.Int? then TypeError else NoMethodError)
  {
    if d.kind != expected then Returned(false)
    else if !AnyTruthy(handlerIds) then Returned(true)
    else match d.ids
      case Arr(xs) => Returned(AnyTruthy(Intersection(xs, handlerIds)))
      case Int(_) => Raised(Exception(TypeError, d.ids))
      case _ => Raised(Exception(NoMethodError, Sym("any?")))
  }

  /** The hook condition read set-theoretically. */
  lemma HookFiresSpec(d: ResultData, expected: Value, handlerIds: seq<Value>)
    requires d.ids.Arr?
    ensures HookFires(d, expected, handlerIds).Returned?
    ensures HookFires(d, expected, handlerIds).value <==>
      d.kind == expected &&
      (!AnyTruthy(handlerIds) || exists x :: x in d.ids.items && x in handlerIds && Truthy(x))
  {
    IntersectionAnyTruthy(d.ids.items, handlerIds);
  }

  /** A Result object. Its fields are those of Fluxo::Result; `Data()` reads them as a value. */
  class Result {
    var operation: Value
    var kind: Value
    var value: Value
    var transientAttributes: Value
    var ids: Value

    function Data(): ResultData
      reads this
    {
      ResultData(operation, kind, value, transientAttributes, ids)
    }

    /** `Result.new(operation:, type:, value:, ids:)`. */
    constructor (operation: Value, kind: Value, value: Value, ids: Value)
      ensures Data() == Initial(operation, kind, value, ids)
    {
      this.operation := operation;
      this.kind := kind;
      this.value := value;
      this.transientAttributes := Nil;
      this.ids := Arr(ArrayOf(ids));
    }

    /** A Result object holding a given state, as handed back by a step or another operation. */
    constructor Holding(d: ResultData)
      ensures Data() == d
    {
      operation := d.operation;
      kind := d.kind;
      value := d.value;
      transientAttributes := d.transientAttributes;
      ids := d.ids;
    }

    /** `mutate(**kvs)`: sets each attribute key in order, ignores other keys, returns self. */
    method Mutate(kvs: seq<(Value, Value)>) returns (r: Result)
      modifies this
      ensures r == this
      ensures Data() == Mutated(old(Data()), kvs)
    {
      var i := 0;
      while i < |kvs|
        invariant 0 <= i <= |kvs|
        invariant Data() == Mutated(old(Data()), kvs[..i])
      {
        var (key, v) := kvs[i];
        if key == OPERATION {
          operation := v;
        } else if key == TYPE {
          kind := v;
        } else if key == VALUE {
          value := v;
        } else if key == TRANSIENT_ATTRIBUTES {
          transientAttributes := v;
        } else if key == IDS {
          ids := v;
        }
        assert kvs[..i + 1][..i] == kvs[..i];
        i := i + 1;
      }
      assert kvs[..i] == kvs;
      r := this;
    }

    /** `on_success(*handlerIds) { |result| ... }`: returns the receiver untouched and
        reports whether the block is called with it. */
    method OnSuccess(handlerIds: seq<Value>) returns (called: Outcome<bool>, r: Result)
      ensures r == this
      ensures called == HookFires(Data(), OK, handlerIds)
      ensures called == Returned(true) ==> IsSuccess(r.Data())
    {
      called := HookFires(Data(), OK, handlerIds);
      r := this;
    }

    /** `on_failure(*handlerIds) { |result| ... }`. */
    method OnFailure(handlerIds: seq<Value>) returns (called: Outcome<bool>, r: Result)
      ensures r == this
      ensures called == HookFires(Data(), FAILURE, handlerIds)
      ensures called == Returned(true) ==> IsFailure(r.Data())
    {
      called := HookFires(Data(), FAILURE, handlerIds);
      r := this;
    }

    /** `on_error(*handlerIds) { |result| ... }`. */
    method OnError(handlerIds: seq<Value>) returns (called: Outcome<bool>, r: Result)
      ensures r == this
      ensures called == HookFires(Data(), EXCEPTION, handlerIds)
      ensures called == Returned(true) ==> IsError(r.Data())
    {
      called := HookFires(Data(), EXCEPTION, handlerIds);
      r := this;
    }
  }

  /** Chained hooks all see the same Result, and for one Result at most one of the
      three blocks runs. */
  lemma HooksExclusive(d: ResultData, hs: seq<Value>, gs: seq<Value>, fs: seq<Value>)
    ensures !(HookFires(d, OK, hs) == Returned(true) && HookFires(d, FAILURE, gs) == Returned(true))
    ensures !(HookFires(d, OK, hs) == Returned(true) && HookFires(d, EXCEPTION, fs) == Returned(true))
    ensures !(HookFires(d, FAILURE, gs) == Returned(true) && HookFires(d, EXCEPTION, fs) == Returned(true))
  {
  }
}

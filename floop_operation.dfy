/** Floop::Operation, the older variant: `new(**attrs)` accepts only declared
    attributes and stores them as instance variables, `call!` is written by hand, and
    `call` turns a StandardError into an exception Result that goes to the error
    handlers. Its Success, Failure and Void are those of FluxoFlow. */
module FloopOperation {
  import opened Values
  import opened Results
  import FluxoFlow
  import FloopAttributes
  import FloopConfig

  /** How `call!` is defined on the class: inherited (raises NotImplementedError) or
      written by hand, reading the instance variables. */
  datatype CallBang = DefaultCallBang | CustomCallBang(m: map<string, Value> -> FluxoFlow.Reply)

  /** The name `"#{key}"` a string or symbol key gives its instance variable (`@` and
      this name): a string and a symbol of the same name set the same variable. */
  function NameOf(key: Value): (r: string)
    requires key.Str? || key.Sym?
    ensures key.Str? ==> r == key.text
    ensures key.Sym? ==> r == key.name
  {
    if key.Str? then key.text else key.name
  }

  predicate IdentStart(c: char) {
    ('a' <= c <= 'z') || ('A' <= c <= 'Z') || c == '_' || c as int >= 128
  }

  predicate IdentChar(c: char) {
    IdentStart(c) || ('0' <= c <= '9')
  }

  /** Whether `@` followed by `name` is a valid instance variable name, without which
      `instance_variable_set` raises NameError. */
  predicate IvarNameOk(name: string) {
    |name| > 0 && IdentStart(name[0]) && forall k :: 1 <= k < |name| ==> IdentChar(name[k])
  }

  /** The instance variables the keyword arguments set, in order: each string or symbol
      key names its variable, and a later pair for the same name wins. Only string and
      symbol keys ever get this far (`attribute?` raises for the others). */
  function Assigned(kwargs: seq<(Value, Value)>): map<string, Value>
    decreases |kwargs|
  {
    if kwargs == [] then map[]
    else
      var (key, value) := kwargs[|kwargs| - 1];
      var before := Assigned(kwargs[..|kwargs| - 1]);
      if key.Str? || key.Sym? then before[NameOf(key) := value] else before
  }

  /** Whether the key of a pair names the variable `name`. */
  predicate Names(key: Value, name: string) {
    (key.Str? || key.Sym?) && NameOf(key) == name
  }

  /** Exactly the variables some key names are set. */
  lemma {:induction false} AssignedKeys(kwargs: seq<(Value, Value)>, name: string)
    ensures name in Assigned(kwargs) <==> exists i :: 0 <= i < |kwargs| && Names(kwargs[i].0, name)
    decreases |kwargs|
  {
    if kwargs != [] {
      var n := |kwargs| - 1;
      var front := kwargs[..n];
      AssignedKeys(front, name);
      if name in Assigned(front) && !Names(kwargs[n].0, name) {
        var i :| 0 <= i < |front| && Names(front[i].0, name);
        assert kwargs[i] == front[i];
      }
      if exists i :: 0 <= i < |kwargs| && Names(kwargs[i].0, name) {
        var i :| 0 <= i < |kwargs| && Names(kwargs[i].0, name);
        if i < n {
          assert front[i] == kwargs[i];
        }
      }
    }
  }

  /** A variable holds the value of the last pair whose key names it. */
  lemma {:induction false} AssignedLast(kwargs: seq<(Value, Value)>, i: nat)
    requires i < |kwargs| && (kwargs[i].0.Str? || kwargs[i].0.Sym?)
    requires forall j :: i < j < |kwargs| ==> !Names(kwargs[j].0, NameOf(kwargs[i].0))
    ensures NameOf(kwargs[i].0) in Assigned(kwargs) && Assigned(kwargs)[NameOf(kwargs[i].0)] == kwargs[i].1
    decreases |kwargs|
  {
    var n := |kwargs| - 1;
    if i < n {
      var front := kwargs[..n];
      assert front[i] == kwargs[i];
      forall j | i < j < |front| ensures !Names(front[j].0, NameOf(front[i].0)) {
        assert front[j] == kwargs[j];
      }
      AssignedLast(front, i);
    }
  }

  /** A string key and a symbol key of the same name set one variable, and the later
      pair wins, in either order. */
  lemma StringAndSymbolShareVariable(kwargs: seq<(Value, Value)>, name: string, x: Value, y: Value)
    ensures Assigned(kwargs + [(Sym(name), x), (Str(name), y)]) == Assigned(kwargs)[name := y]
    ensures Assigned(kwargs + [(Str(name), x), (Sym(name), y)]) == Assigned(kwargs)[name := y]
  {
    var k1 := kwargs + [(Sym(name), x), (Str(name), y)];
    var k2 := kwargs + [(Str(name), x), (Sym(name), y)];
    assert k1[..|k1| - 1] == kwargs + [(Sym(name), x)] && (kwargs + [(Sym(name), x)])[..|kwargs|] == kwargs;
    assert k2[..|k2| - 1] == kwargs + [(Str(name), x)] && (kwargs + [(Str(name), x)])[..|kwargs|] == kwargs;
  }

  /** `initialize` accepts a key when `attribute?(key)` answers true and the key names a
      valid instance variable. */
  predicate Accepted(names: seq<Value>, key: Value) {
    FloopAttributes.IsMember(names, key) == Returned(true) && IvarNameOk(NameOf(key))
  }

  /** The check `initialize` makes of one key: `attribute?(key)` must answer true, or
      ArgumentError is raised, and then `instance_variable_set` raises NameError when
      the key does not name a valid instance variable. */
  function Rejection(names: seq<Value>, key: Value): (r: Option<Exception>)
    ensures r.None? <==> Accepted(names, key)
    ensures FloopAttributes.IsMember(names, key) == Returned(false) ==> r == Some(Exception(ArgumentError, key))
    ensures FloopAttributes.IsMember(names, key) == Returned(true) && !IvarNameOk(NameOf(key)) ==>
      r == Some(Exception(NameError, key))
  {
    match FloopAttributes.IsMember(names, key)
    case Raised(e) => Some(e)
    case Returned(ok) =>
      if !ok then Some(Exception(ArgumentError, key))
      else if !IvarNameOk(NameOf(key)) then Some(Exception(NameError, key))
      else None
  }

  /** The exception `initialize` raises for these keyword arguments, if any: the one for
      the first pair whose key is rejected. */
  function FirstRejection(names: seq<Value>, kwargs: seq<(Value, Value)>): Option<Exception>
    decreases |kwargs|
  {
    if kwargs == [] then None
    else
      var before := FirstRejection(names, kwargs[..|kwargs| - 1]);
      if before.Some? then before else Rejection(names, kwargs[|kwargs| - 1].0)
  }

  /** `new(**attrs)` succeeds exactly when every key is accepted; otherwise it raises
      for the first key that is not. */
  lemma {:induction false} FirstRejectionSpec(names: seq<Value>, kwargs: seq<(Value, Value)>)
    ensures FirstRejection(names, kwargs).None? <==>
      forall i :: 0 <= i < |kwargs| ==> Accepted(names, kwargs[i].0)
    ensures FirstRejection(names, kwargs).Some? ==>
      exists i :: 0 <= i < |kwargs| && FirstRejection(names, kwargs) == Rejection(names, kwargs[i].0) &&
        forall j :: 0 <= j < i ==> Accepted(names, kwargs[j].0)
    decreases |kwargs|
  {
    if kwargs != [] {
      var n := |kwargs| - 1;
      var front := kwargs[..n];
      FirstRejectionSpec(names, front);
      assert forall i :: 0 <= i < n ==> front[i] == kwargs[i];
      if FirstRejection(names, front).Some? {
        var i :| 0 <= i < n && FirstRejection(names, front) == Rejection(names, front[i].0) &&
          forall j :: 0 <= j < i ==> Accepted(names, front[j].0);
        assert FirstRejection(names, kwargs) == Rejection(names, kwargs[i].0);
      }
    }
  }

  /** What `call` answers for the way `call!` ended on the instance `instance`: its
      return value as it is (nothing is wrapped), the exception Result for a
      StandardError, and any other exception raised again. */
  function Answer(instance: Value, reply: FluxoFlow.Reply): (r: Outcome<FluxoFlow.Raw>)
    ensures reply.Return? ==> r == Returned(reply.raw)
    ensures reply.Throw? ==> (r.Raised? <==> !IsStandardError(reply.exception.cls))
    ensures r.Raised? ==> r == Raised(reply.exception)
    ensures reply.Throw? && r.Returned? ==> r.value == FluxoFlow.AResult(FluxoFlow.ExceptionResult(instance, reply.exception))
  {
    match reply
    case Return(raw) => Returned(raw)
    case Throw(e) => if IsStandardError(e.cls) then Returned(FluxoFlow.AResult(FluxoFlow.ExceptionResult(instance, e))) else Raised(e)
  }

  /** An instance of a Floop operation: its identity and its instance variables. */
  class Instance {
    const id: nat
    /** The instance variables, by name without the `@`. */
    var ivars: map<string, Value>

    constructor (id: nat)
      ensures this.id == id && ivars == map[]
    {
      this.id := id;
      ivars := map[];
    }
  }

  /** A Floop operation class. */
  class OperationClass {
    var callBang: CallBang
    const attributes: FloopAttributes.ClassMethods

    constructor (attributes: FloopAttributes.ClassMethods)
      ensures callBang == DefaultCallBang && this.attributes == attributes
    {
      callBang := DefaultCallBang;
      this.attributes := attributes;
    }

    /** `def call! ... end` written by hand. */
    method DefineCallBang(m: map<string, Value> -> FluxoFlow.Reply)
      modifies this
      ensures callBang == CustomCallBang(m)
    {
      callBang := CustomCallBang(m);
    }

    /** How `call!` ends on an instance with these instance variables. */
    function CallBangReply(ivars: map<string, Value>): FluxoFlow.Reply
      reads this
    {
      match callBang
      case DefaultCallBang => FluxoFlow.Throw(Exception(NotImplementedError, Str("You must implement the #call! method in your operation.")))
      case CustomCallBang(m) => m(ivars)
    }

    /** `new(**attrs)`: for each pair in order, raises ArgumentError unless its key is a
        declared attribute, and otherwise sets the instance variable the key names
        (NameError when that is not a valid name). The sloppy flags play no part. */
    method New(id: nat, kwargs: seq<(Value, Value)>) returns (o: Outcome<Instance>)
      ensures FirstRejection(attributes.attributeNames, kwargs).None? ==>
        o.Returned? && fresh(o.value) && o.value.id == id && o.value.ivars == Assigned(kwargs)
      ensures FirstRejection(attributes.attributeNames, kwargs).Some? ==>
        o == Raised(FirstRejection(attributes.attributeNames, kwargs).value)
    {
      var inst := new Instance(id);
      var i := 0;
      while i < |kwargs|
        invariant 0 <= i <= |kwargs|
        invariant FirstRejection(attributes.attributeNames, kwargs[..i]).None?
        invariant inst.ivars == Assigned(kwargs[..i])
        invariant fresh(inst) && inst.id == id
        decreases |kwargs| - i
      {
        assert kwargs[..i + 1][..i] == kwargs[..i];
        var (key, value) := kwargs[i];
        var ok := attributes.IsAttribute(key);
        if ok.Raised? {
          RejectionStops(attributes.attributeNames, kwargs, i + 1);
          return Raised(ok.exception);
        }
        if !ok.value {
          RejectionStops(attributes.attributeNames, kwargs, i + 1);
          return Raised(Exception(ArgumentError, key));
        }
        var name := NameOf(key);
        if !IvarNameOk(name) {
          RejectionStops(attributes.attributeNames, kwargs, i + 1);
          return Raised(Exception(NameError, key));
        }
        inst.ivars := inst.ivars[name := value];
        i := i + 1;
      }
      assert kwargs[..i] == kwargs;
      o := Returned(inst);
    }

    /** `call(**attrs)` on a new instance `id`: `new` raises outside the rescue; then
        `call!` runs, and a StandardError it raises becomes the exception Result, which
        every error handler of `config` is called with in order (`notified` lists the
        calls) and which `call` answers. */
    method Call(id: nat, kwargs: seq<(Value, Value)>, config: FloopConfig.Config)
        returns (o: Outcome<FluxoFlow.Raw>, notified: seq<(Value, ResultData)>)
      ensures var gate := FirstRejection(attributes.attributeNames, kwargs);
        gate.Some? ==> o == Raised(gate.value) && notified == []
      ensures var gate := FirstRejection(attributes.attributeNames, kwargs);
        var reply := CallBangReply(Assigned(kwargs));
        var rescued := reply.Throw? && IsStandardError(reply.exception.cls);
        gate.None? ==>
          o == Answer(Obj(id), reply) &&
          (rescued ==>
             |notified| == |config.errorHandlers| &&
             forall k :: 0 <= k < |notified| ==> notified[k] == (config.errorHandlers[k], FluxoFlow.ExceptionResult(Obj(id), reply.exception))) &&
          (!rescued ==> notified == [])
    {
      notified := [];
      var made := New(id, kwargs);
      if made.Raised? {
        return Raised(made.exception), notified;
      }
      var instance := made.value;
      var reply := CallBangReply(instance.ivars);
      match reply {
        case Return(raw) =>
          o := Returned(raw);
        case Throw(e) =>
          if !IsStandardError(e.cls) {
            o := Raised(e);
          } else {
            var result := new Result(Obj(id), EXCEPTION, Exc(e), Arr([FluxoFlow.ERROR]));
            var d := result.Data();
            var hs := config.errorHandlers;
            var k := 0;
            while k < |hs|
              invariant 0 <= k <= |hs|
              invariant |notified| == k && forall m :: 0 <= m < k ==> notified[m] == (hs[m], d)
            {
              notified := notified + [(hs[k], d)];
              k := k + 1;
            }
            o := Returned(FluxoFlow.AResult(d));
          }
      }
    }
  }

  /** A key that fails the check makes `initialize` raise for it, whatever follows. */
  lemma {:induction false} RejectionStops(names: seq<Value>, kwargs: seq<(Value, Value)>, i: nat)
    requires 0 < i <= |kwargs|
    requires FirstRejection(names, kwargs[..i - 1]).None?
    requires Rejection(names, kwargs[i - 1].0).Some?
    ensures FirstRejection(names, kwargs) == Rejection(names, kwargs[i - 1].0)
    decreases |kwargs| - i
  {
    assert kwargs[..i][..i - 1] == kwargs[..i - 1];
    if i < |kwargs| {
      assert kwargs[..|kwargs| - 1][..i - 1] == kwargs[..i - 1];
      RejectionStops(names, kwargs[..|kwargs| - 1], i);
    } else {
      assert kwargs[..i] == kwargs;
    }
  }
}

/** Ruby values as the operation core sees them, the exception classes it raises,
    rescues or lets through, and the few Ruby built-ins it relies on: truthiness,
    Kernel#Array, Array#uniq, Array#|, Array#-, Array#&, Array#any?/none? and #to_sym. */
module Values {

  datatype Option<+T> = None | Some(value: T)

  /** The exception classes the core distinguishes. Every class listed before
      NotImplementedError descends from StandardError. */
  datatype ErrorClass =
    | StandardError
    | ArgumentError
    | NoMethodError
    | TypeError
    | NameError                        // also the parent of NoMethodError, which is kept apart here
    | LocalJumpError
    | RuntimeError
    | FluxoError                       // Fluxo::Error and, below it, its subclasses
    | FluxoInvalidResultError
    | FluxoAttributeError
    | FluxoNotDefinedAttributeError
    | FluxoMissingAttributeError
    | FluxoValidationDefinitionError
    | FloopError                       // Floop::Error and its subclasses
    | FloopInvalidResultError
    | FloopInvalidValidationsError
    | NotImplementedError              // a ScriptError
    | SystemStackError
    | Interrupt

  /** What a bare `rescue => e` catches. */
  predicate IsStandardError(c: ErrorClass) {
    !(c.NotImplementedError? || c.SystemStackError? || c.Interrupt?)
  }

  /** `e.is_a?(Fluxo::Error)`. */
  predicate IsFluxoError(c: ErrorClass) {
    c.FluxoError? || c.FluxoInvalidResultError? || c.FluxoAttributeError? ||
    c.FluxoNotDefinedAttributeError? || c.FluxoMissingAttributeError? ||
    c.FluxoValidationDefinitionError?
  }

  datatype Value =
    | Nil
    | Bool(b: bool)
    | Int(n: int)
    | Str(text: string)
    | Sym(name: string)
    | Arr(items: seq<Value>)
    | Hash(entries: map<Value, Value>)
    | Obj(id: nat)                     // any other object: an operation instance, a class, a handler
    | Exc(exception: Exception)        // an exception object

  /** An exception object: its class and what its message is built from. */
  datatype Exception = Exception(cls: ErrorClass, detail: Value)

  /** How a Ruby call ends: with a value, or by raising. */
  datatype Outcome<+T> = Returned(value: T) | Raised(exception: Exception)

  /** Keyword arguments and the attributes threaded through a flow. */
  type AttrMap = map<Value, Value>

  /** Only nil and false are falsey. */
  predicate Truthy(v: Value) {
    v != Nil && v != Bool(false)
  }

  /** Kernel#Array: nil gives [], an Array is kept, anything else is wrapped. */
  function ArrayOf(v: Value): seq<Value> {
    match v
    case Nil => []
    case Arr(xs) => xs
    case _ => [v]
  }

  /** `x.to_sym`: defined on Symbol and String only. */
  function ToSym(v: Value): (r: Outcome<Value>)
    ensures r.Returned? <==> v.Sym? || v.Str?
    ensures r.Returned? ==> r.value.Sym? && (v.Sym? ==> r.value == v) && (v.Str? ==> r.value.name == v.text)
    ensures r.Raised? ==> r.exception.cls == NoMethodError
  {
    match v
    case Sym(_) => Returned(v)
    case Str(s) => Returned(Sym(s))
    case _ => Raised(Exception(NoMethodError, Sym("to_sym")))
  }

  predicate NoDup<T(==)>(s: seq<T>) {
    forall i, j :: 0 <= i < j < |s| ==> s[i] != s[j]
  }

  /** Array#uniq: keeps the first occurrence of every element, in order. */
  function Uniq<T(==)>(s: seq<T>): seq<T>
    decreases |s|
  {
    if s == [] then []
    else
      var u := Uniq(s[..|s| - 1]);
      if s[|s| - 1] in u then u else u + [s[|s| - 1]]
  }

  lemma {:induction false} UniqSpec<T>(s: seq<T>)
    ensures NoDup(Uniq(s))
    ensures forall x :: x in Uniq(s) <==> x in s
    decreases |s|
  {
    if s != [] {
      UniqSpec(s[..|s| - 1]);
      assert s == s[..|s| - 1] + [s[|s| - 1]];
    }
  }

  /** Uniq never reorders: deduplicating a prefix gives a prefix of the deduplicated whole. */
  lemma {:induction false} UniqPrefix<T>(a: seq<T>, b: seq<T>)
    ensures Uniq(a) <= Uniq(a + b)
    decreases |b|
  {
    if b == [] {
      assert a + b == a;
    } else {
      var c := a + b;
      assert c[..|c| - 1] == a + b[..|b| - 1];
      UniqPrefix(a, b[..|b| - 1]);
    }
  }

  /** A list that is already duplicate-free is its own uniq. */
  lemma {:induction false} UniqOfNoDup<T>(s: seq<T>)
    requires NoDup(s)
    ensures Uniq(s) == s
    decreases |s|
  {
    if s != [] {
      var p := s[..|s| - 1];
      UniqOfNoDup(p);
      assert s == p + [s[|s| - 1]];
      assert s[|s| - 1] !in p by {
        forall k | 0 <= k < |p| ensures p[k] != s[|s| - 1] {
          assert p[k] == s[k];
        }
      }
    }
  }

  /** Appending elements that are already present leaves a duplicate-free list's uniq unchanged. */
  lemma {:induction false} UniqAbsorbs<T>(u: seq<T>, b: seq<T>)
    requires NoDup(u)
    requires forall x :: x in b ==> x in u
    ensures Uniq(u + b) == u
    decreases |b|
  {
    if b == [] {
      assert u + b == u;
      UniqOfNoDup(u);
    } else {
      var c := u + b;
      assert c[..|c| - 1] == u + b[..|b| - 1];
      UniqAbsorbs(u, b[..|b| - 1]);
      assert c[|c| - 1] == b[|b| - 1];
    }
  }

  /** Array#| : `a | b` is the uniq of `a + b`. */
  function Union<T(==)>(a: seq<T>, b: seq<T>): seq<T> {
    Uniq(a + b)
  }

  /** Ruby's `a | b` keeps a duplicate-free `a` unchanged in front, contains exactly the
      elements of both, has no duplicates, and a second union with the same `b` changes nothing. */
  lemma UnionSpec<T>(a: seq<T>, b: seq<T>)
    requires NoDup(a)
    ensures a <= Union(a, b)
    ensures NoDup(Union(a, b))
    ensures forall x :: x in Union(a, b) <==> x in a || x in b
    ensures Union(Union(a, b), b) == Union(a, b)
  {
    UniqPrefix(a, b);
    UniqOfNoDup(a);
    UniqSpec(a + b);
    UniqAbsorbs(Union(a, b), b);
  }

  /** Array#- : every element of `a` that does not occur in `b`, in order, duplicates kept. */
  function Minus(a: seq<Value>, b: seq<Value>): (r: seq<Value>)
    ensures forall x :: x in r <==> x in a && x !in b
    ensures |r| <= |a|
  {
    if a == [] then []
    else (if a[0] in b then [] else [a[0]]) + Minus(a[1..], b)
  }

  /** Array#- keeps the order of `a`: it distributes over concatenation. */
  lemma {:induction false} MinusAppend(a: seq<Value>, c: seq<Value>, b: seq<Value>)
    ensures Minus(a + c, b) == Minus(a, b) + Minus(c, b)
    decreases |a|
  {
    if a == [] {
      assert a + c == c;
    } else {
      assert (a + c)[0] == a[0] && (a + c)[1..] == a[1..] + c;
      MinusAppend(a[1..], c, b);
    }
  }

  /** Array#- on one element: dropped when it occurs in `b`, kept otherwise. */
  lemma MinusOne(x: Value, b: seq<Value>)
    ensures Minus([x], b) == if x in b then [] else [x]
  {
    assert [x][1..] == [];
  }

  /** Array#- keeps the duplicates of `a`: an element not in `b` occurs as often as in `a`. */
  lemma {:induction false} MinusCounts(a: seq<Value>, b: seq<Value>)
    ensures forall x :: multiset(Minus(a, b))[x] == if x in b then 0 else multiset(a)[x]
    decreases |a|
  {
    if a != [] {
      MinusCounts(a[1..], b);
      assert a == [a[0]] + a[1..];
    }
  }

  /** Array#& : the uniq of the elements of `a` that occur in `b`, in the order of `a`. */
  function Intersection(a: seq<Value>, b: seq<Value>): seq<Value> {
    Uniq(Keep(a, b))
  }

  function Keep(a: seq<Value>, b: seq<Value>): (r: seq<Value>)
    ensures forall x :: x in r <==> x in a && x in b
  {
    if a == [] then []
    else (if a[0] in b then [a[0]] else []) + Keep(a[1..], b)
  }

  /** Array#any? without a block: some element is truthy. */
  predicate AnyTruthy(s: seq<Value>) {
    exists i :: 0 <= i < |s| && Truthy(s[i])
  }

  /** `(a & b).any?` holds exactly when a truthy element occurs in both lists. */
  lemma IntersectionAnyTruthy(a: seq<Value>, b: seq<Value>)
    ensures AnyTruthy(Intersection(a, b)) <==> exists x :: x in a && x in b && Truthy(x)
  {
    var c := Intersection(a, b);
    UniqSpec(Keep(a, b));
    if AnyTruthy(c) {
      var i :| 0 <= i < |c| && Truthy(c[i]);
      assert c[i] in a && c[i] in b;
    }
    if exists x :: x in a && x in b && Truthy(x) {
      var x :| x in a && x in b && Truthy(x);
      assert x in c;
      var i :| 0 <= i < |c| && c[i] == x;
    }
  }
}

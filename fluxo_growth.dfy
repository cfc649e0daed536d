/** `__execute_flow__` puts `:__validate__` in front of the steps array it is given, and
    the array of a `flow` is the one its `call!` closes over: with validations, every
    call of the operation leaves that array one `:__validate__` longer. This module
    proves that the extra steps never change what a run answers. */
module FluxoGrowth {
  import opened Values
  import opened Results
  import opened FluxoFlow

  /** `n` copies of the `:__validate__` step. */
  function Validations(n: nat): (r: seq<Step>)
    ensures |r| == n && forall k :: 0 <= k < n ==> r[k] == Named(VALIDATE)
  {
    if n == 0 then [] else [Named(VALIDATE)] + Validations(n - 1)
  }

  /** The flow array after `calls` calls of the operation. */
  lemma {:induction false} GrowthOfFlowArray(env: Env, fs: seq<Step>, calls: nat)
    requires env.validator.Some?
    ensures Grown(env, fs, calls) == Validations(calls) + fs
    decreases calls
  {
    if calls > 0 {
      GrowthOfFlowArray(env, fs, calls - 1);
      assert [Named(VALIDATE)] + (Validations(calls - 1) + fs) == Validations(calls) + fs;
    }
  }

  /** The array of a flow after `calls` runs with validation. */
  function Grown(env: Env, fs: seq<Step>, calls: nat): seq<Step>
    decreases calls
  {
    if calls == 0 then fs else Prepared(env, Grown(env, fs, calls - 1), true)
  }

  /** `uniq` of a concatenation sees its first part only through that part's `uniq`. */
  lemma {:induction false} UniqAppendSame(x: seq<Value>, x2: seq<Value>, y: seq<Value>)
    requires Uniq(x) == Uniq(x2)
    ensures Uniq(x + y) == Uniq(x2 + y)
    decreases |y|
  {
    if y == [] {
      assert x + y == x && x2 + y == x2;
    } else {
      var y0 := y[..|y| - 1];
      UniqAppendSame(x, x2, y0);
      assert (x + y)[..|x + y| - 1] == x + y0 && (x + y)[|x + y| - 1] == y[|y| - 1];
      assert (x2 + y)[..|x2 + y| - 1] == x2 + y0 && (x2 + y)[|x2 + y| - 1] == y[|y| - 1];
    }
  }

  /** Two states that no later step, nor the final `mutate`, can tell apart: the same
      attributes and current result, and ids that agree once deduplicated. */
  ghost predicate Alike(a: State, b: State) {
    a.attrs == b.attrs && a.result == b.result &&
    forall t :: Uniq(Tags(a.tags, t)) == Uniq(Tags(b.tags, t))
  }

  lemma PushedAlike(a: State, b: State, d: ResultData)
    requires Alike(a, b)
    ensures Alike(Pushed(a, d), Pushed(b, d))
  {
    forall t ensures Uniq(Tags(Pushed(a, d).tags, t)) == Uniq(Tags(Pushed(b, d).tags, t)) {
      assert Uniq(Tags(a.tags, t)) == Uniq(Tags(b.tags, t));
      if t == d.kind {
        UniqAppendSame(Tags(a.tags, t), Tags(b.tags, t), ArrayOf(d.ids));
      }
    }
  }

  /** A group reads only the attributes and the current result, and writes only the result. */
  lemma {:induction false} GroupLoopFrame(env: Env, ds: seq<Dispatch>, a: State, b: State)
    requires EnvOk(env) && a.attrs == b.attrs && a.result == b.result
    ensures var pa := GroupLoop(env, ds, a);
      pa.state == a.(result := pa.state.result) &&
      GroupLoop(env, ds, b) == Progress(pa.raised, b.(result := pa.state.result))
    decreases ds
  {
    if ds != [] {
      var bh := Invoke(env, ds[0].dispatcher, a.attrs);
      var afterA, afterB := a, b;
      if bh.yielded.Some? {
        var given := bh.yielded.value;
        var ex := Loop(env, ds[0].nested, Fresh(if given.Some? then given.value else a.attrs));
        if ex.outcome.Returned? {
          afterA, afterB := a.(result := Some(ex.outcome.value)), b.(result := Some(ex.outcome.value));
        }
      }
      GroupLoopFrame(env, ds[1..], afterA, afterB);
    }
  }

  lemma StepAlike(env: Env, step: Step, a: State, b: State)
    requires EnvOk(env) && Alike(a, b)
    ensures StepAt(env, step, a).raised == StepAt(env, step, b).raised
    ensures Alike(StepAt(env, step, a).state, StepAt(env, step, b).state)
  {
    match step
    case Named(n) =>
      if n == CALL_BANG && env.callBang.FlowDefined? {
        var ex := Loop(env, Prepared(env, env.callBang.steps, true), Fresh(a.attrs));
        if ex.outcome.Returned? {
          PushedAlike(a.(expanded := true), b.(expanded := true), ex.outcome.value);
        }
      } else {
        var reply := StepReply(env, n, a.attrs);
        if reply.Return? && Wrap(env, reply.raw).Returned? {
          PushedAlike(a, b, Wrap(env, reply.raw).value);
        }
      }
    case Group(ds) =>
      GroupLoopFrame(env, ds, a, b);
  }

  /** Runs from alike states answer alike. */
  lemma {:induction false} LoopAlike(env: Env, steps: seq<Step>, a: State, b: State)
    requires EnvOk(env) && Alike(a, b)
    ensures Loop(env, steps, a).outcome == Loop(env, steps, b).outcome
    decreases steps
  {
    if steps == [] {
      if a.result.Some? {
        assert Uniq(Tags(a.tags, a.result.value.kind)) == Uniq(Tags(b.tags, a.result.value.kind));
      }
    } else {
      StepAlike(env, steps[0], a, b);
      var pa := StepAt(env, steps[0], a);
      var pb := StepAt(env, steps[0], b);
      if pa.raised.None? && pa.state.result.Some? {
        if IsSuccess(pa.state.result.value) {
          var na := if |steps| > 1 then pa.state.(attrs := Merge(pa.state.attrs, pa.state.result.value.value)) else pa.state;
          var nb := if |steps| > 1 then pb.state.(attrs := Merge(pb.state.attrs, pb.state.result.value.value)) else pb.state;
          LoopAlike(env, steps[1..], na, nb);
        } else {
          var k := pa.state.result.value.kind;
          assert Uniq(Tags(pa.state.tags, k)) == Uniq(Tags(pb.state.tags, k));
        }
      }
    }
  }

  /** Pushing `Void` onto a state whose result is already `Void` and whose success ids
      already hold `:void` changes nothing a later step can see. */
  lemma VoidAgainAlike(st: State, instance: Value)
    requires st.result == Some(Void(instance)) && VOID in Tags(st.tags, OK)
    ensures Alike(Pushed(st, Void(instance)), st)
  {
    var p := Pushed(st, Void(instance));
    forall t ensures Uniq(Tags(p.tags, t)) == Uniq(Tags(st.tags, t)) {
      if t == OK {
        var s := Tags(st.tags, OK);
        UniqSpec(s);
        assert Tags(p.tags, OK) == s + [VOID];
        assert (s + [VOID])[..|s + [VOID]| - 1] == s;
      }
    }
  }

  /** Once the attributes passed validation, a further `:__validate__` is invisible:
      it answers `Void` again and pushes a `:void` already among the success ids. */
  lemma {:induction false} ExtraValidations(env: Env, n: nat, rest: seq<Step>, st: State)
    requires EnvOk(env) && env.validator.Some? && VALIDATE !in env.methods
    requires env.validator.value(st.attrs).None?
    requires st.result == Some(Void(env.instance)) && VOID in Tags(st.tags, OK)
    ensures Loop(env, Validations(n) + rest, st).outcome == Loop(env, rest, st).outcome
    decreases n
  {
    if n > 0 {
      var steps := Validations(n) + rest;
      var tail := Validations(n - 1) + rest;
      assert steps[0] == Named(VALIDATE) && steps[1..] == tail;
      var p := StepAt(env, Named(VALIDATE), st);
      assert p.state == Pushed(st, Void(env.instance));
      assert p.raised.None? && p.state.result == Some(Void(env.instance));
      var next := if |steps| > 1 then p.state.(attrs := Merge(p.state.attrs, Nil)) else p.state;
      assert next == p.state;
      assert Loop(env, steps, st) == Loop(env, tail, p.state);
      VoidAgainAlike(st, env.instance);
      LoopAlike(env, tail, p.state, st);
      ExtraValidations(env, n - 1, rest, st);
    } else {
      assert Validations(n) + rest == rest;
    }
  }

  /** Running a flow whose array grew by `n` extra `:__validate__` steps answers
      exactly what running the flow as declared answers. */
  lemma GrownFlowAnswersTheSame(env: Env, fs: seq<Step>, attrs: AttrMap, n: nat)
    requires EnvOk(env) && env.validator.Some? && VALIDATE !in env.methods
    ensures Execute(env, Validations(n) + fs, attrs, true).outcome == Execute(env, fs, attrs, true).outcome
  {
    var V := Named(VALIDATE);
    var lhs := [V] + (Validations(n) + fs);
    var rhs := [V] + fs;
    assert lhs[0] == V && lhs[1..] == Validations(n) + fs;
    assert rhs[0] == V && rhs[1..] == fs;
    var p := StepAt(env, V, Fresh(attrs));
    if env.validator.value(attrs).None? {
      var st := Pushed(Fresh(attrs), Void(env.instance));
      assert p.state == st;
      assert Tags(st.tags, OK) == [VOID];
      assert Merge(attrs, Nil) == attrs;
      ExtraValidations(env, n, fs, st);
    }
  }

  /** What a flow-defined `call!` answers after any number of earlier calls is what it
      answered on the first one. */
  lemma LaterCallsAnswerTheSame(env: Env, fs: seq<Step>, attrs: AttrMap, calls: nat)
    requires EnvOk(env) && VALIDATE !in env.methods
    ensures Execute(env, Grown(env, fs, calls), attrs, true).outcome == Execute(env, fs, attrs, true).outcome
  {
    if env.validator.Some? {
      GrowthOfFlowArray(env, fs, calls);
      GrownFlowAnswersTheSame(env, fs, attrs, calls);
    } else {
      GrownWithoutValidations(env, fs, calls);
    }
  }

  /** Without validations the array never grows. */
  lemma {:induction false} GrownWithoutValidations(env: Env, fs: seq<Step>, calls: nat)
    requires env.validator.None?
    ensures Grown(env, fs, calls) == fs
    decreases calls
  {
    if calls > 0 {
      GrownWithoutValidations(env, fs, calls - 1);
    }
  }
}

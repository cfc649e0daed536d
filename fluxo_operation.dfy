/** The engine of Fluxo::Operation as imperative code: `__execute_flow__` as a loop
    over the steps with its mutable locals, the loop over the pairs of a group step,
    and the operation class with its `call!` definition and the `call` error boundary.
    Each method is proved against the functions of FluxoFlow. */
module FluxoOperation {
  import opened Values
  import opened Results
  import opened FluxoFlow
  import FluxoAttributes
  import FluxoConfig

  /** The Ruby outcome `o` (a Result object or an exception) is the outcome `spec`. */
  predicate Reports(o: Outcome<Result>, spec: Outcome<ResultData>)
    reads if o.Returned? then {o.value} else {}
  {
    match o
    case Raised(e) => spec == Raised(e)
    case Returned(r) => spec.Returned? && r.Data() == spec.value
  }

  // Termination of the engine: a size that counts every step and pair, so that a
  // step put in front of an array is still smaller than the array's run.

  function StepSize(step: Step): nat
    decreases step, 0
  {
    match step
    case Named(_) => 1
    case Group(ds) => 1 + DispatchesSize(ds)
  }

  function DispatchesSize(ds: seq<Dispatch>): nat
    decreases ds, 1
  {
    if ds == [] then 0 else 3 + StepsSize(ds[0].nested) + DispatchesSize(ds[1..])
  }

  function StepsSize(steps: seq<Step>): nat
    decreases steps, 1
  {
    if steps == [] then 0 else StepSize(steps[0]) + StepsSize(steps[1..])
  }

  lemma {:induction false} RankAt(steps: seq<Step>, k: nat)
    requires k < |steps|
    ensures CallBangRankOfStep(steps[k]) <= CallBangRank(steps)
    ensures StepSize(steps[k]) <= StepsSize(steps)
    decreases k
  {
    if k > 0 {
      RankAt(steps[1..], k - 1);
      assert steps[1..][k - 1] == steps[k];
    }
  }

  lemma {:induction false} NestedRankAt(ds: seq<Dispatch>, j: nat)
    requires j < |ds|
    ensures CallBangRank(ds[j].nested) <= CallBangRankOfDispatches(ds)
    ensures StepsSize(ds[j].nested) + 3 <= DispatchesSize(ds)
    decreases j
  {
    if j > 0 {
      NestedRankAt(ds[1..], j - 1);
      assert ds[1..][j - 1] == ds[j];
    }
  }

  /** The step the loop reaches is no larger than the steps it was given, with the
      `__validate__` put in front counted apart. */
  lemma StepMeasure(steps: seq<Step>, all: seq<Step>, offset: nat, i: nat)
    requires i < |all| && offset == |all| - |steps|
    requires offset == 0 ==> all == steps
    requires offset == 1 ==> all == [Named(VALIDATE)] + steps
    requires offset <= 1
    ensures CallBangRankOfStep(all[i]) <= CallBangRank(steps)
    ensures StepSize(all[i]) < StepsSize(steps) + 2
  {
    if i >= offset {
      assert all[i] == steps[i - offset];
      RankAt(steps, i - offset);
    } else {
      assert all[i] == Named(VALIDATE);
    }
  }

  /** One turn of the loop over the steps. */
  lemma LoopUnfold(env: Env, steps: seq<Step>, st: State)
    requires EnvOk(env) && steps != []
    ensures var p := StepAt(env, steps[0], st);
      Loop(env, steps, st) ==
        if p.raised.Some? then Exit(Raised(p.raised.value), p.state)
        else if p.state.result.None? then Exit(Raised(Exception(NoMethodError, Sym("success?"))), p.state)
        else if !IsSuccess(p.state.result.value) then Finish(env, p.state)
        else Loop(env, steps[1..], if |steps| > 1 then p.state.(attrs := Merge(p.state.attrs, p.state.result.value.value)) else p.state)
  {
  }

  /** `__execute_flow__(steps:, attributes:, validate:)`. The Result it answers is a
      new object; `expanded` tells whether a flow-defined `call!` ran, that is, whether
      the flow's own steps array had `:__validate__` put in front of it. */
  method ExecuteFlow(env: Env, steps: seq<Step>, attrs: AttrMap, validate: bool)
      returns (o: Outcome<Result>, expanded: bool)
    requires EnvOk(env)
    ensures var ex := Execute(env, steps, attrs, validate);
      Reports(o, ex.outcome) && expanded == ex.state.expanded
    ensures o.Returned? ==> fresh(o.value)
    decreases CallBangRank(steps), StepsSize(steps) + 2
  {
    var all := steps;
    if env.validator.Some? && validate {
      all := [Named(VALIDATE)] + steps;
    }
    var offset := |all| - |steps|;
    assert offset <= 1;
    assert offset == 0 ==> all == steps;
    assert offset == 1 ==> all == [Named(VALIDATE)] + steps;

    var transientAttributes, transientIds: map<Value, seq<Value>> := attrs, map[];
    var result: Option<ResultData> := None;
    ghost var log: seq<ResultData> := [];
    expanded := false;
    ghost var spec := Loop(env, all, Fresh(attrs));

    var i := 0;
    while i < |all|
      invariant 0 <= i <= |all|
      invariant Loop(env, all[i..], State(transientAttributes, transientIds, result, log, expanded)) == spec
      decreases |all| - i
    {
      ghost var cur := State(transientAttributes, transientIds, result, log, expanded);
      assert all[i..][0] == all[i] && all[i..][1..] == all[i + 1..];
      StepMeasure(steps, all, offset, i);
      var raised, grew;
      raised, transientIds, result, grew := RunStep(env, all[i], transientAttributes, transientIds, result, cur);
      expanded := expanded || grew;
      ghost var p := StepAt(env, all[i], cur);
      log := p.state.log;
      assert p.state == State(transientAttributes, transientIds, result, log, expanded);
      LoopUnfold(env, all[i..], cur);
      if raised.Some? {
        return Raised(raised.value), expanded;
      }
      if result.None? {
        return Raised(Exception(NoMethodError, Sym("success?"))), expanded;
      }
      if !IsSuccess(result.value) {
        assert spec == Finish(env, State(transientAttributes, transientIds, result, log, expanded));
        break;
      }
      if i + 1 < |all| {
        transientAttributes := Merge(transientAttributes, result.value.value);
      }
      i := i + 1;
    }
    assert spec == Finish(env, State(transientAttributes, transientIds, result, log, expanded));

    o := Complete(env, transientIds, result, State(transientAttributes, transientIds, result, log, expanded));
  }

  /** The last line of `__execute_flow__`: `result.mutate(ids: transient_ids[result.type].uniq,
      operation: self)` on the current result, which raises NoMethodError when no
      step set one. */
  method Complete(env: Env, tags: map<Value, seq<Value>>, result: Option<ResultData>, ghost st: State)
      returns (o: Outcome<Result>)
    requires st.tags == tags && st.result == result
    ensures Reports(o, Finish(env, st).outcome)
    ensures o.Returned? ==> fresh(o.value)
  {
    if result.None? {
      return Raised(Exception(NoMethodError, Sym("mutate")));
    }
    var r := new Result.Holding(result.value);
    var _ := r.Mutate([(IDS, Arr(Uniq(Tags(tags, result.value.kind)))), (OPERATION, env.instance)]);
    o := Returned(r);
  }

  /** The body of the loop for one step, from the loop's locals: a named step is sent
      the attributes and its wrapped Result is pushed; a group runs its pairs. `grew`
      tells whether this step expanded a flow-defined `call!`. */
  method RunStep(env: Env, step: Step, attrs: AttrMap, tags: map<Value, seq<Value>>,
                 prior: Option<ResultData>, ghost st: State)
      returns (raised: Option<Exception>, newTags: map<Value, seq<Value>>, result: Option<ResultData>, grew: bool)
    requires EnvOk(env) && st.attrs == attrs && st.tags == tags && st.result == prior
    ensures var p := StepAt(env, step, st);
      p.raised == raised && p.state.attrs == attrs && p.state.tags == newTags &&
      p.state.result == result && p.state.expanded == (st.expanded || grew)
    decreases CallBangRankOfStep(step), StepSize(step)
  {
    newTags, result, grew := tags, prior, false;
    match step {
      case Named(n) =>
        var d: ResultData;
        if n == CALL_BANG && env.callBang.FlowDefined? {
          var inner, _ := ExecuteFlow(env, env.callBang.steps, attrs, true);
          grew := true;
          if inner.Raised? {
            return Some(inner.exception), newTags, result, grew;
          }
          d := inner.value.Data();
        } else {
          var reply := StepReply(env, n, attrs);
          if reply.Throw? {
            return Some(reply.exception), newTags, result, grew;
          }
          var w := Wrap(env, reply.raw);
          if w.Raised? {
            return Some(w.exception), newTags, result, grew;
          }
          d := w.value;
        }
        // transient_ids[result.type].push(*result.ids)
        newTags := tags[d.kind := Tags(tags, d.kind) + ArrayOf(d.ids)];
        result := Some(d);
        raised := None;
      case Group(ds) =>
        raised, result := RunGroup(env, ds, attrs, prior, st);
    }
  }

  /** `step.each do |group_method, group_steps| ... end` over the pairs of a group step,
      from the outer loop's attributes and current result `prior`: only the current
      result changes. */
  method RunGroup(env: Env, ds: seq<Dispatch>, attrs: AttrMap, prior: Option<ResultData>, ghost st: State)
      returns (raised: Option<Exception>, result: Option<ResultData>)
    requires EnvOk(env) && st.attrs == attrs && st.result == prior
    ensures GroupLoop(env, ds, st) == Progress(raised, st.(result := result))
    decreases CallBangRankOfDispatches(ds), DispatchesSize(ds)
  {
    result := prior;
    var j := 0;
    while j < |ds|
      invariant 0 <= j <= |ds|
      invariant GroupLoop(env, ds[j..], st.(result := result)) == GroupLoop(env, ds, st)
    {
      assert ds[j..][0] == ds[j] && ds[j..][1..] == ds[j + 1..];
      var b := Invoke(env, ds[j].dispatcher, attrs);
      var block := NotYielded;
      if b.yielded.Some? {
        var given := b.yielded.value;
        NestedRankAt(ds, j);
        var inner, _ := ExecuteFlow(env, ds[j].nested, if given.Some? then given.value else attrs, false);
        match inner {
          case Raised(e) =>
            block := BlockRaised(e);
          case Returned(r) =>
            result := Some(r.Data());
            block := BlockReturned(r.Data());
        }
      }
      var reply := b.reply(block);
      if reply.Throw? {
        return Some(reply.exception), result;
      }
      if result.None? {
        return Some(Exception(NoMethodError, Sym("success?"))), result;
      }
      if !IsSuccess(result.value) {
        return None, result;
      }
      j := j + 1;
    }
    raised := None;
  }

  /** The exceptions `call` lets through: ArgumentError and Fluxo::Error are rescued
      and raised again, and what is not a StandardError is never rescued. */
  predicate Escapes(e: Exception) {
    e.cls == ArgumentError || IsFluxoError(e.cls) || !IsStandardError(e.cls)
  }

  /** What `call` answers for a run that ended with `run`, when the class's `strict?`
      is `strict`: a Result passes; an escaping exception is raised; any other one
      is raised when strict and answered as an exception Result otherwise. */
  function Answer(instance: Value, run: Outcome<ResultData>, strict: bool): (r: Outcome<ResultData>)
    ensures run.Returned? ==> r == run
    ensures run.Raised? ==> (r.Raised? <==> Escapes(run.exception) || strict)
    ensures r.Raised? ==> r == run
    ensures r.Returned? && run.Raised? ==> r.value == ExceptionResult(instance, run.exception)
  {
    match run
    case Returned(_) => run
    case Raised(e) =>
      if Escapes(e) || strict then run else Returned(ExceptionResult(instance, e))
  }

  /** A class that never defined `call!`: once its attributes pass validation (or it has
      no validations proxy), `call` raises the inherited NotImplementedError whether
      or not the class is strict, because that error is not a StandardError. */
  lemma InheritedCallBangEscapes(env: Env, attrs: AttrMap, strict: bool)
    requires EnvOk(env) && env.callBang == DefaultCallBang
    requires env.validator.None? || (VALIDATE !in env.methods && env.validator.value(attrs).None?)
    ensures var run := Execute(env, [Named(CALL_BANG)], attrs, true).outcome;
      run.Raised? && run.exception.cls == NotImplementedError &&
      Answer(env.instance, run, strict) == run
  {
    var callBang := [Named(CALL_BANG)];
    assert callBang[0] == Named(CALL_BANG) && callBang[1..] == [];
    if env.validator.Some? {
      var all := [Named(VALIDATE)] + callBang;
      assert all[0] == Named(VALIDATE) && all[1..] == callBang;
      LoopUnfold(env, all, Fresh(attrs));
      var p := StepAt(env, Named(VALIDATE), Fresh(attrs));
      assert p.raised.None? && p.state.result == Some(Void(env.instance));
      LoopUnfold(env, callBang, p.state.(attrs := Merge(p.state.attrs, Nil)));
    } else {
      LoopUnfold(env, callBang, Fresh(attrs));
    }
  }

  /** Putting `__validate__` in front of a flow keeps it free of `call!`. */
  lemma PreparedRank(env: Env, fs: seq<Step>)
    requires CallBangRank(fs) == 0
    ensures CallBangRank(Prepared(env, fs, true)) == 0
  {
    var p := Prepared(env, fs, true);
    if p != fs {
      assert p[0] == Named(VALIDATE) && p[1..] == fs;
    }
  }

  /** A Fluxo operation class: how its `call!` is defined, the methods its instances
      answer to, and its class-level attribute state. */
  class OperationClass {
    var callBang: CallBang
    const methods: map<Name, Method>
    const attributes: FluxoAttributes.ClassMethods

    /** A flow never names `call!` among its steps. */
    predicate Valid()
      reads this
    {
      callBang.FlowDefined? ==> CallBangRank(callBang.steps) == 0
    }

    /** What a run of an instance `instance` reads, under the global configuration `config`. */
    function EnvFor(instance: Value, config: FluxoConfig.Config): (env: Env)
      reads this, attributes, config
      ensures Valid() ==> EnvOk(env)
    {
      Env(instance, methods, attributes.validationsProxy, config.wrapFalseyResult, config.wrapTruthyResult, callBang)
    }

    /** A subclass of Fluxo::Operation that inherits `call!`. */
    constructor (methods: map<Name, Method>, attributes: FluxoAttributes.ClassMethods)
      ensures Valid()
      ensures callBang == DefaultCallBang
      ensures this.methods == methods && this.attributes == attributes
    {
      callBang := DefaultCallBang;
      this.methods := methods;
      this.attributes := attributes;
    }

    /** `flow(*steps)`: defines `call!` as a run of the flow over this array of steps. */
    method Flow(steps: seq<Step>)
      requires CallBangRank(steps) == 0
      modifies this
      ensures Valid()
      ensures callBang == FlowDefined(steps)
    {
      callBang := FlowDefined(steps);
    }

    /** `def call!(**attrs) ... end` written by hand. */
    method DefineCallBang(m: Method)
      modifies this
      ensures Valid()
      ensures callBang == CustomCallBang(m)
    {
      callBang := CustomCallBang(m);
    }

    /** `call(**attrs)` on a new instance `instance`: runs `[:call!]`; an exception that
        does not escape becomes an exception Result, which every error handler of
        `config` is called with in order (`notified` lists the calls) before `strict?`
        decides between raising it and answering the Result. A flow-defined `call!`
        leaves its steps array one `__validate__` longer when the class validates. */
    method Call(instance: Value, attrs: AttrMap, config: FluxoConfig.Config)
        returns (o: Outcome<Result>, notified: seq<(Value, ResultData)>)
      requires Valid()
      modifies this, attributes
      ensures Valid()
      ensures var env := old(EnvFor(instance, config));
        var run := Execute(env, [Named(CALL_BANG)], attrs, true).outcome;
        var strict := if old(attributes.strict).Some? then Truthy(old(attributes.strict).value) else config.IsStrict();
        Reports(o, Answer(instance, run, strict))
      ensures o.Returned? ==> fresh(o.value)
      ensures var env := old(EnvFor(instance, config));
        var run := Execute(env, [Named(CALL_BANG)], attrs, true).outcome;
        var rescued := run.Raised? && !Escapes(run.exception);
        (rescued ==>
           |notified| == |config.errorHandlers| &&
           forall k :: 0 <= k < |notified| ==> notified[k] == (config.errorHandlers[k], ExceptionResult(instance, run.exception))) &&
        (!rescued ==> notified == []) &&
        attributes.strict == (if rescued && old(attributes.strict).None? then Some(Bool(config.IsStrict())) else old(attributes.strict))
      ensures var env := old(EnvFor(instance, config));
        var ex := Execute(env, [Named(CALL_BANG)], attrs, true);
        callBang == (if ex.state.expanded && old(callBang).FlowDefined? then FlowDefined(Prepared(env, old(callBang).steps, true)) else old(callBang))
      ensures attributes.requiredAttributes == old(attributes.requiredAttributes)
      ensures attributes.validationsProxy == old(attributes.validationsProxy)
    {
      var env := EnvFor(instance, config);
      var run, expanded := ExecuteFlow(env, [Named(CALL_BANG)], attrs, true);
      if expanded && callBang.FlowDefined? {
        PreparedRank(env, callBang.steps);
        callBang := FlowDefined(Prepared(env, callBang.steps, true));
      }
      notified := [];
      match run {
        case Returned(_) =>
          o := run;
        case Raised(e) =>
          if Escapes(e) {
            o := run;
          } else {
            var result := new Result(instance, EXCEPTION, Exc(e), Arr([ERROR]));
            var d := result.Data();
            var hs := config.errorHandlers;
            var k := 0;
            while k < |hs|
              invariant 0 <= k <= |hs|
              invariant |notified| == k && forall m :: 0 <= m < k ==> notified[m] == (hs[m], d)
            {
              notified := notified + [(hs[k], d)];
              k := k + 1;
            }
            var strict := attributes.IsStrict(config);
            o := if Truthy(strict) then Raised(e) else Returned(result);
          }
      }
    }
  }
}

/** The step-by-step execution of a Fluxo operation (`__execute_flow__` and the helpers
    it calls) as functions over values: the reference the imperative engine in
    FluxoOperation is proved against, and the place where the properties of a flow
    are stated. */
module FluxoFlow {
  import opened Values
  import opened Results
  import FluxoAttributes

  type Name = string

  const CALL_BANG: Name := "call!"
  const VALIDATE: Name := "__validate__"

  const FALSEY: Value := Sym("falsey")
  const TRUTHY: Value := Sym("truthy")
  const VOID: Value := Sym("void")
  const VALIDATION: Value := Sym("validation")
  const ERROR: Value := Sym("error")

  /** A flow step: a method name, or a Hash whose pairs map a dispatcher method to
      the nested steps its block runs. */
  datatype Step = Named(name: Name) | Group(dispatches: seq<Dispatch>)
  datatype Dispatch = Dispatch(dispatcher: Name, nested: seq<Step>)

  /** What a step method returns: a Result, or any other object. */
  datatype Raw = Plain(v: Value) | AResult(d: ResultData)

  /** How a method call ends. */
  datatype Reply = Return(raw: Raw) | Throw(exception: Exception)

  /** How the block given to a group dispatcher ended, as the dispatcher sees it: it
      was never yielded to, `yield` answered the nested run's Result, or `yield`
      raised the nested run's exception (which the dispatcher may rescue). */
  datatype BlockOutcome = NotYielded | BlockReturned(result: ResultData) | BlockRaised(exception: Exception)

  /** What a method does when it is sent the current attributes: whether it yields to
      its block and with which attributes (Some(None) is a yield of nil), then how it
      ends, which may depend on how the block ended. A method that does not rescue
      answers `Throw(e)` to `BlockRaised(e)`. */
  datatype Behaviour = Behaviour(yielded: Option<Option<AttrMap>>, reply: BlockOutcome -> Reply)

  /** A method that never yields and ends with `r`. */
  function Plainly(r: Reply): Behaviour {
    Behaviour(None, _ => r)
  }

  type Method = AttrMap -> Behaviour

  /** How `call!` is defined on the operation class: inherited (raises), written by
      hand, or generated by `flow(*steps)`, whose array of steps it closes over. */
  datatype CallBang = DefaultCallBang | CustomCallBang(m: Method) | FlowDefined(steps: seq<Step>)

  /** Everything a run reads and does not change: the operation instance (`self`),
      the methods it answers to, the class's validations proxy, the two wrap settings
      of the global configuration, and the `call!` definition. */
  datatype Env = Env(
    instance: Value,
    methods: map<Name, Method>,
    validator: Option<FluxoAttributes.Validator>,
    wrapFalseyResult: Value,
    wrapTruthyResult: Value,
    callBang: CallBang)

  /** The locals of one `__execute_flow__`: the transient attributes, `transient_ids`
      (the ids pushed per result type), the current result, and, for the statements
      below, `log` (the results of the named steps, in order) and `expanded` (whether
      a flow-defined `call!` ran and so grew its steps array). */
  datatype State = State(
    attrs: AttrMap,
    tags: map<Value, seq<Value>>,
    result: Option<ResultData>,
    log: seq<ResultData>,
    expanded: bool)

  /** How one `__execute_flow__` ends, with its last state. */
  datatype Exit = Exit(outcome: Outcome<ResultData>, state: State)

  /** How one step ends: whether it raised, and the state after it. */
  datatype Progress = Progress(raised: Option<Exception>, state: State)

  function Fresh(attrs: AttrMap): State {
    State(attrs, map[], None, [], false)
  }

  // ---------------------------------------------------------------------------
  // Result constructors of Fluxo::Operation (also those of Floop::Operation)

  /** `Success(arg)` (block = None) or `Success(arg) { block }`. */
  function Success(instance: Value, arg: Value, block: Option<Value>): (r: ResultData)
    ensures IsSuccess(r) && r.operation == instance
    ensures block.None? ==> r.value == arg && r.ids == Arr([])
    ensures block.Some? ==> r.value == block.value && r.ids == Arr(ArrayOf(arg))
  {
    if block.Some? then Initial(instance, OK, block.value, arg) else Initial(instance, OK, arg, Nil)
  }

  /** `Failure(arg)` or `Failure(arg) { block }`. */
  function Failure(instance: Value, arg: Value, block: Option<Value>): (r: ResultData)
    ensures IsFailure(r) && r.operation == instance
    ensures block.None? ==> r.value == arg && r.ids == Arr([])
    ensures block.Some? ==> r.value == block.value && r.ids == Arr(ArrayOf(arg))
  {
    if block.Some? then Initial(instance, FAILURE, block.value, arg) else Initial(instance, FAILURE, arg, Nil)
  }

  /** `Void`: `Success(:void) { nil }`. */
  function Void(instance: Value): (r: ResultData)
    ensures IsSuccess(r) && r.value == Nil && r.ids == Arr([VOID]) && r.operation == instance
  {
    Success(instance, VOID, Some(Nil))
  }

  /** The Result `call` builds for an exception it rescues (Fluxo and Floop alike):
      type `:exception`, the exception as value, ids `[:error]`. */
  function ExceptionResult(instance: Value, e: Exception): (r: ResultData)
    ensures IsError(r) && r.value == Exc(e) && r.ids == Arr([ERROR]) && r.operation == instance
    ensures r.transientAttributes == Nil
  {
    Initial(instance, EXCEPTION, Exc(e), Arr([ERROR]))
  }

  /** Success and Failure build the same Result up to its type. */
  lemma SuccessFailureDiffer(instance: Value, arg: Value, block: Option<Value>)
    ensures Success(instance, arg, block).(kind := FAILURE) == Failure(instance, arg, block)
    ensures Equals(Success(instance, arg, block), Some(Failure(instance, arg, block))) == false
  {
  }

  // ---------------------------------------------------------------------------
  // Private helpers of Fluxo::Operation

  /** `__merge_result_attributes__`: a Hash value overlays its Symbol keys on the
      attributes, its own values winning; any other value leaves them as they are. */
  function Merge(current: AttrMap, value: Value): (r: AttrMap)
    ensures !value.Hash? ==> r == current
    ensures value.Hash? ==> forall k :: k in r <==> k in current || (k in value.entries && k.Sym?)
    ensures value.Hash? ==> forall k :: k in r ==>
      r[k] == (if k in value.entries && k.Sym? then value.entries[k] else current[k])
  {
    if value.Hash? then current + map k | k in value.entries && k.Sym? :: value.entries[k] else current
  }

  /** Merging the same value twice is merging it once. */
  lemma MergeIdempotent(current: AttrMap, value: Value)
    ensures Merge(Merge(current, value), value) == Merge(current, value)
  {
  }

  /** `__wrap_result__`: a Result passes unchanged; otherwise a falsey value becomes
      `Failure(:falsey)` and a truthy one `Success(:truthy)` when the configuration
      asks for it; anything else raises Fluxo::InvalidResultError. */
  function Wrap(env: Env, raw: Raw): (r: Outcome<ResultData>)
    ensures raw.AResult? ==> r == Returned(raw.d)
    ensures raw.Plain? && r.Returned? ==> r.value.value == raw.v && r.value.operation == env.instance
    ensures raw.Plain? && r.Returned? ==>
      if Truthy(raw.v) then IsSuccess(r.value) && r.value.ids == Arr([TRUTHY])
      else IsFailure(r.value) && r.value.ids == Arr([FALSEY])
    ensures raw.Plain? ==>
      (r.Raised? <==> if Truthy(raw.v) then !Truthy(env.wrapTruthyResult) else !Truthy(env.wrapFalseyResult))
    ensures r.Raised? ==> r.exception.cls == FluxoInvalidResultError
  {
    match raw
    case AResult(d) => Returned(d)
    case Plain(v) =>
      if Truthy(env.wrapFalseyResult) && !Truthy(v) then Returned(Failure(env.instance, FALSEY, Some(v)))
      else if Truthy(env.wrapTruthyResult) && Truthy(v) then Returned(Success(env.instance, TRUTHY, Some(v)))
      else Raised(Exception(FluxoInvalidResultError, v))
  }

  /** The Result `__validate__` answers: `Void` when the attributes are valid,
      `Failure(:validation) { errors }` otherwise. */
  function Validated(instance: Value, verdict: Option<Value>): (r: ResultData)
    ensures verdict.None? ==> r == Void(instance)
    ensures verdict.Some? ==> IsFailure(r) && r.value == verdict.value && r.ids == Arr([VALIDATION])
  {
    match verdict
    case None => Void(instance)
    case Some(errors) => Failure(instance, VALIDATION, Some(errors))
  }

  /** `send(name, **attrs)` for every name but `call!`: a method of the operation, the
      private `__validate__`, or NoMethodError. */
  function Invoke(env: Env, name: Name, attrs: AttrMap): Behaviour {
    if name in env.methods then env.methods[name](attrs)
    else if name == VALIDATE then
      match env.validator
      case Some(v) => Plainly(Return(AResult(Validated(env.instance, v(attrs)))))
      case None => Plainly(Throw(Exception(NoMethodError, Sym("validate!"))))
    else Plainly(Throw(Exception(NoMethodError, Str(name))))
  }

  /** `send(step, **attrs)` for a named step, which is given no block: `call!` as the
      class defines it (when it is not a flow), or another method, and a method that
      yields without a block raises LocalJumpError. */
  function StepReply(env: Env, n: Name, attrs: AttrMap): (r: Reply)
    requires !(n == CALL_BANG && env.callBang.FlowDefined?)
    ensures n == CALL_BANG && env.callBang.DefaultCallBang? ==>
      r == Throw(Exception(NotImplementedError, Str("You must implement the #call! method in your operation.")))
    ensures n != CALL_BANG && n !in env.methods && n != VALIDATE ==> r == Throw(Exception(NoMethodError, Str(n)))
    ensures n == VALIDATE && n !in env.methods && env.validator.Some? ==>
      r == Return(AResult(Validated(env.instance, env.validator.value(attrs))))
  {
    var b :=
      if n != CALL_BANG then Invoke(env, n, attrs)
      else if env.callBang.CustomCallBang? then env.callBang.m(attrs)
      else Plainly(Throw(Exception(NotImplementedError, Str("You must implement the #call! method in your operation."))));
    if b.yielded.Some? then Throw(Exception(LocalJumpError, Str("no block given (yield)")))
    else b.reply(NotYielded)
  }

  /** `steps.unshift(:__validate__) if validations_proxy && validate`. */
  function Prepared(env: Env, steps: seq<Step>, validate: bool): (r: seq<Step>)
    ensures |r| >= |steps|
  {
    if env.validator.Some? && validate then [Named(VALIDATE)] + steps else steps
  }

  /** `transient_ids[type]` of the Hash whose default is a new empty Array. */
  function Tags(tags: map<Value, seq<Value>>, t: Value): seq<Value> {
    if t in tags then tags[t] else []
  }

  // ---------------------------------------------------------------------------
  // Termination: a flow array never names `call!`, so expanding `call!` can happen
  // once and only from the top-level `[:call!]`.

  function CallBangRankOfStep(step: Step): nat
    decreases step, 0
  {
    match step
    case Named(n) => if n == CALL_BANG then 1 else 0
    case Group(ds) => CallBangRankOfDispatches(ds)
  }

  function CallBangRankOfDispatches(ds: seq<Dispatch>): nat
    decreases ds, 1
  {
    if ds == [] then 0
    else
      var here := Max(if ds[0].dispatcher == CALL_BANG then 1 else 0, CallBangRank(ds[0].nested));
      Max(here, CallBangRankOfDispatches(ds[1..]))
  }

  /** 1 when `call!` is named somewhere in the steps, as a step or a dispatcher, their
      groups included; 0 otherwise. */
  function CallBangRank(steps: seq<Step>): nat
    decreases steps, 1
  {
    if steps == [] then 0 else Max(CallBangRankOfStep(steps[0]), CallBangRank(steps[1..]))
  }

  function Max(a: nat, b: nat): nat { if a < b then b else a }

  /** The steps a `flow` declares do not name `call!` (see the README's Left out). */
  predicate EnvOk(env: Env) {
    env.callBang.FlowDefined? ==> CallBangRank(env.callBang.steps) == 0
  }

  // ---------------------------------------------------------------------------
  // The loop of `__execute_flow__`

  /** `__execute_flow__(steps:, attributes:, validate:)`. */
  function Execute(env: Env, steps: seq<Step>, attrs: AttrMap, validate: bool): Exit
    requires EnvOk(env)
  {
    Loop(env, Prepared(env, steps, validate), Fresh(attrs))
  }

  /** The last line: `result.mutate(ids: transient_ids[result.type].uniq, operation: self)`,
      which raises NoMethodError when no step set a result. */
  function Finish(env: Env, st: State): (ex: Exit)
    ensures ex.outcome.Raised? <==> st.result.None?
    ensures ex.outcome.Returned? ==>
      var r := ex.outcome.value;
      r == st.result.value.(ids := Arr(Uniq(Tags(st.tags, r.kind))), operation := env.instance) &&
      ex.state == st.(result := Some(r))
  {
    match st.result
    case None => Exit(Raised(Exception(NoMethodError, Sym("mutate"))), st)
    case Some(r) =>
      var kvs := [(IDS, Arr(Uniq(Tags(st.tags, r.kind)))), (OPERATION, env.instance)];
      var d := Mutated(r, kvs);
      assert kvs[..1][..0] == [] && Mutated(r, kvs[..1]) == r.(ids := kvs[0].1);
      Exit(Returned(d), st.(result := Some(d)))
  }

  /** The loop over the remaining steps: a step that raises ends the run, a missing
      result raises NoMethodError (`nil.success?`), a non-success result ends the run
      through Finish, and a success merges its value into the attributes when a
      further step follows. */
  function Loop(env: Env, steps: seq<Step>, st: State): (ex: Exit)
    requires EnvOk(env)
    ensures ex.outcome.Returned? ==>
      var r := ex.outcome.value;
      ex.state.result == Some(r) && r.operation == env.instance &&
      r.ids == Arr(Uniq(Tags(ex.state.tags, r.kind)))
    decreases CallBangRank(steps), steps, 2
  {
    if steps == [] then Finish(env, st)
    else
      var p := StepAt(env, steps[0], st);
      if p.raised.Some? then Exit(Raised(p.raised.value), p.state)
      else if p.state.result.None? then Exit(Raised(Exception(NoMethodError, Sym("success?"))), p.state)
      else if !IsSuccess(p.state.result.value) then Finish(env, p.state)
      else
        var next := if |steps| > 1 then p.state.(attrs := Merge(p.state.attrs, p.state.result.value.value)) else p.state;
        Loop(env, steps[1..], next)
  }

  /** A named step's Result becomes the current result and its ids are pushed under its type. */
  function Pushed(st: State, d: ResultData): State {
    st.(tags := st.tags[d.kind := Tags(st.tags, d.kind) + ArrayOf(d.ids)], result := Some(d), log := st.log + [d])
  }

  /** The body of the loop for one step. */
  function StepAt(env: Env, step: Step, st: State): Progress
    requires EnvOk(env)
    decreases CallBangRankOfStep(step), step, 1
  {
    match step
    case Named(n) =>
      if n == CALL_BANG && env.callBang.FlowDefined? then
        // the generated call! runs `__execute_flow__` on the flow's own steps array
        var fs := Prepared(env, env.callBang.steps, true);
        assert CallBangRank(fs) == 0 by {
          if fs != env.callBang.steps {
            assert fs[1..] == env.callBang.steps;
          }
        }
        var ex := Loop(env, fs, Fresh(st.attrs));
        var grown := st.(expanded := true);
        if ex.outcome.Raised? then Progress(Some(ex.outcome.exception), grown)
        else Progress(None, Pushed(grown, ex.outcome.value))
      else
        var reply := StepReply(env, n, st.attrs);
        if reply.Throw? then Progress(Some(reply.exception), st)
        else
          var w := Wrap(env, reply.raw);
          if w.Raised? then Progress(Some(w.exception), st)
          else Progress(None, Pushed(st, w.value))
    case Group(ds) => GroupLoop(env, ds, st)
  }

  /** `step.each do |group_method, group_steps| ... end` over the pairs of a group:
      the dispatcher is sent the attributes; if it yields, the nested steps run
      without validation on the yielded attributes (or the current ones when it
      yields nil), and when they answer, their Result becomes the current result and
      the value of `yield`; when they raise, `yield` raises in the dispatcher, which
      may rescue it. The dispatcher's own return value is dropped, and a non-success
      current result stops the group. The ids of the nested run are not pushed here. */
  function GroupLoop(env: Env, ds: seq<Dispatch>, st: State): Progress
    requires EnvOk(env)
    decreases CallBangRankOfDispatches(ds), ds, 1
  {
    if ds == [] then Progress(None, st)
    else
      var b := Invoke(env, ds[0].dispatcher, st.attrs);
      var block: (BlockOutcome, State) :=
        match b.yielded
        case None => (NotYielded, st)
        case Some(given) =>
          var ex := Loop(env, ds[0].nested, Fresh(if given.Some? then given.value else st.attrs));
          match ex.outcome
          case Raised(e) => (BlockRaised(e), st)
          case Returned(r) => (BlockReturned(r), st.(result := Some(r)));
      var after := block.1;
      var reply := b.reply(block.0);
      if reply.Throw? then Progress(Some(reply.exception), after)
      else if after.result.None? then Progress(Some(Exception(NoMethodError, Sym("success?"))), after)
      else if !IsSuccess(after.result.value) then Progress(None, after)
      else GroupLoop(env, ds[1..], after)
  }
}

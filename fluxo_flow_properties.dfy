/** What a run of `__execute_flow__` guarantees: where it stops, what the final
    Result carries, how validation and groups take part. */
module FluxoFlowProperties {
  import opened Values
  import opened Results
  import opened FluxoFlow

  /** The ids the named steps of a run pushed under type `t`, in the order they ran:
      the reference the `transient_ids` Hash is checked against. */
  function Collected(log: seq<ResultData>, t: Value): seq<Value>
    decreases |log|
  {
    if log == [] then []
    else
      var last := log[|log| - 1];
      Collected(log[..|log| - 1], t) + (if last.kind == t then ArrayOf(last.ids) else [])
  }

  /** `transient_ids` holds, for every type, exactly what the logged named steps pushed. */
  ghost predicate TagsMatchLog(st: State) {
    forall t :: Tags(st.tags, t) == Collected(st.log, t)
  }

  lemma PushedKeepsMatch(st: State, d: ResultData)
    requires TagsMatchLog(st)
    ensures TagsMatchLog(Pushed(st, d))
  {
    var p := Pushed(st, d);
    assert p.log[..|p.log| - 1] == st.log;
    forall t ensures Tags(p.tags, t) == Collected(p.log, t) {
      assert Tags(st.tags, t) == Collected(st.log, t);
    }
  }

  /** A group changes neither `transient_ids` nor the log: the ids of nested steps
      never reach the outer run. */
  lemma {:induction false} GroupKeepsTags(env: Env, ds: seq<Dispatch>, st: State)
    requires EnvOk(env)
    ensures GroupLoop(env, ds, st).state.tags == st.tags
    ensures GroupLoop(env, ds, st).state.log == st.log
    ensures GroupLoop(env, ds, st).state.attrs == st.attrs
    decreases ds
  {
    if ds != [] {
      var b := Invoke(env, ds[0].dispatcher, st.attrs);
      var block: (BlockOutcome, State) :=
        match b.yielded
        case None => (NotYielded, st)
        case Some(given) =>
          var ex := Loop(env, ds[0].nested, Fresh(if given.Some? then given.value else st.attrs));
          match ex.outcome
          case Raised(e) => (BlockRaised(e), st)
          case Returned(r) => (BlockReturned(r), st.(result := Some(r)));
      var after := block.1;
      if !b.reply(block.0).Throw? && after.result.Some? && IsSuccess(after.result.value) {
        GroupKeepsTags(env, ds[1..], after);
      }
    }
  }

  lemma StepKeepsMatch(env: Env, step: Step, st: State)
    requires EnvOk(env) && TagsMatchLog(st)
    ensures TagsMatchLog(StepAt(env, step, st).state)
  {
    match step
    case Named(n) =>
      if n == CALL_BANG && env.callBang.FlowDefined? {
        var ex := Loop(env, Prepared(env, env.callBang.steps, true), Fresh(st.attrs));
        if ex.outcome.Returned? {
          PushedKeepsMatch(st.(expanded := true), ex.outcome.value);
        }
      } else {
        var reply := StepReply(env, n, st.attrs);
        if reply.Return? && Wrap(env, reply.raw).Returned? {
          PushedKeepsMatch(st, Wrap(env, reply.raw).value);
        }
      }
    case Group(ds) =>
      GroupKeepsTags(env, ds, st);
  }

  lemma {:induction false} LoopKeepsMatch(env: Env, steps: seq<Step>, st: State)
    requires EnvOk(env) && TagsMatchLog(st)
    ensures TagsMatchLog(Loop(env, steps, st).state)
    decreases steps
  {
    if steps != [] {
      var p := StepAt(env, steps[0], st);
      StepKeepsMatch(env, steps[0], st);
      if p.raised.None? && p.state.result.Some? && IsSuccess(p.state.result.value) {
        var next := if |steps| > 1 then p.state.(attrs := Merge(p.state.attrs, p.state.result.value.value)) else p.state;
        LoopKeepsMatch(env, steps[1..], next);
      }
    }
  }

  /** The Result a run returns carries the operation instance and, as ids, the
      first-seen-order dedup of the ids that the named steps of this run (not those of
      nested groups) pushed under the final type; type and value are those of the
      last step that ran. */
  lemma FinalIds(env: Env, steps: seq<Step>, attrs: AttrMap, validate: bool)
    requires EnvOk(env)
    ensures var ex := Execute(env, steps, attrs, validate);
      ex.outcome.Returned? ==>
        ex.outcome.value.operation == env.instance &&
        ex.outcome.value.ids == Arr(Uniq(Collected(ex.state.log, ex.outcome.value.kind)))
  {
    LoopKeepsMatch(env, Prepared(env, steps, validate), Fresh(attrs));
    var ex := Execute(env, steps, attrs, validate);
    if ex.outcome.Returned? {
      assert Tags(ex.state.tags, ex.outcome.value.kind) == Collected(ex.state.log, ex.outcome.value.kind);
    }
  }

  /** The loop stops at the first step that raises or answers a non-success Result:
      the steps after it never run, and a non-success Result is returned with its
      type and value. */
  lemma HaltIgnoresRest(env: Env, s: Step, rest: seq<Step>, st: State)
    requires EnvOk(env)
    ensures var p := StepAt(env, s, st);
      (p.raised.Some? ==> Loop(env, [s] + rest, st) == Exit(Raised(p.raised.value), p.state)) &&
      (p.raised.None? && p.state.result.Some? && !IsSuccess(p.state.result.value) ==>
        Loop(env, [s] + rest, st) == Finish(env, p.state) &&
        Loop(env, [s] + rest, st).outcome.value.kind == p.state.result.value.kind &&
        Loop(env, [s] + rest, st).outcome.value.value == p.state.result.value.value)
  {
    assert ([s] + rest)[0] == s;
  }

  /** A success followed by more steps hands its Hash value on: the next step sees the
      attributes merged with it. */
  lemma SuccessMergesIntoNext(env: Env, s: Step, t: Step, rest: seq<Step>, st: State)
    requires EnvOk(env)
    requires var p := StepAt(env, s, st);
      p.raised.None? && p.state.result.Some? && IsSuccess(p.state.result.value)
    ensures var p := StepAt(env, s, st);
      Loop(env, [s, t] + rest, st) ==
        Loop(env, [t] + rest, p.state.(attrs := Merge(p.state.attrs, p.state.result.value.value)))
  {
    var steps := [s, t] + rest;
    assert steps[0] == s && steps[1..] == [t] + rest;
  }

  /** The last step's success is returned as it is, without a further merge. */
  lemma LastSuccessIsResult(env: Env, s: Step, st: State)
    requires EnvOk(env)
    requires var p := StepAt(env, s, st);
      p.raised.None? && p.state.result.Some? && IsSuccess(p.state.result.value)
    ensures Loop(env, [s], st) == Finish(env, StepAt(env, s, st).state)
  {
    assert [s][1..] == [];
  }

  /** With a validations proxy, a run that validates starts with `__validate__`; when
      the attributes are invalid no other step runs and the run answers
      `Failure(:validation)` carrying the errors. */
  lemma InvalidAttributesStopTheRun(env: Env, steps: seq<Step>, attrs: AttrMap)
    requires EnvOk(env) && env.validator.Some? && VALIDATE !in env.methods
    requires env.validator.value(attrs).Some?
    ensures Execute(env, steps, attrs, true).outcome ==
      Returned(ResultData(env.instance, FAILURE, env.validator.value(attrs).value, Nil, Arr([VALIDATION])))
  {
    var all := [Named(VALIDATE)] + steps;
    HaltIgnoresRest(env, Named(VALIDATE), steps, Fresh(attrs));
    var p := StepAt(env, Named(VALIDATE), Fresh(attrs));
    assert Tags(p.state.tags, FAILURE) == [VALIDATION];
    assert Uniq([VALIDATION]) == [VALIDATION] by {
      assert [VALIDATION][..0] == [];
    }
  }

  /** When the attributes are valid, `__validate__` only pushes `:void` among the
      success ids and the flow's own steps run on the unchanged attributes. */
  lemma ValidAttributesRunTheSteps(env: Env, steps: seq<Step>, attrs: AttrMap)
    requires EnvOk(env) && env.validator.Some? && VALIDATE !in env.methods
    requires env.validator.value(attrs).None?
    requires steps != []
    ensures Execute(env, steps, attrs, true) ==
      Loop(env, steps, State(attrs, map[OK := [VOID]], Some(Void(env.instance)), [Void(env.instance)], false))
  {
    var all := [Named(VALIDATE)] + steps;
    assert all[0] == Named(VALIDATE) && all[1..] == steps;
    var p := StepAt(env, Named(VALIDATE), Fresh(attrs));
    assert p.state == Pushed(Fresh(attrs), Void(env.instance));
    assert Tags(map[], OK) == [] && ArrayOf(Void(env.instance).ids) == [VOID];
    var none: map<Value, seq<Value>> := map[];
    var empty: seq<Value> := [];
    assert empty + [VOID] == [VOID];
    assert none[OK := [VOID]] == map[OK := [VOID]];
    assert Pushed(Fresh(attrs), Void(env.instance)) ==
      State(attrs, map[OK := [VOID]], Some(Void(env.instance)), [Void(env.instance)], false);
  }

  /** Group steps never validate: the nested steps run as they are written. */
  lemma GroupsDoNotValidate(env: Env, nested: seq<Step>, attrs: AttrMap)
    requires EnvOk(env)
    ensures Execute(env, nested, attrs, false) == Loop(env, nested, Fresh(attrs))
  {
  }

  /** A dispatcher that yields hands the nested run's Result to the outer loop as the
      step's result, and to itself as the value of `yield`; the outer ids and
      attributes are untouched. */
  lemma GroupResultIsNestedResult(env: Env, d: Dispatch, st: State)
    requires EnvOk(env)
    requires Invoke(env, d.dispatcher, st.attrs).yielded.Some?
    ensures var b := Invoke(env, d.dispatcher, st.attrs);
      var given := b.yielded.value;
      var ex := Loop(env, d.nested, Fresh(if given.Some? then given.value else st.attrs));
      ex.outcome.Returned? && b.reply(BlockReturned(ex.outcome.value)).Return? ==>
        GroupLoop(env, [d], st) == Progress(None, st.(result := Some(ex.outcome.value)))
  {
    assert [d][0] == d && [d][1..] == [];
  }

  /** When the nested steps raise, `yield` raises in the dispatcher: the exception ends
      the run unless the dispatcher rescues it, and a dispatcher that rescues it leaves
      the previous result in place (NoMethodError when there is none). */
  lemma NestedExceptionReachesDispatcher(env: Env, d: Dispatch, st: State)
    requires EnvOk(env)
    requires Invoke(env, d.dispatcher, st.attrs).yielded.Some?
    ensures var b := Invoke(env, d.dispatcher, st.attrs);
      var given := b.yielded.value;
      var ex := Loop(env, d.nested, Fresh(if given.Some? then given.value else st.attrs));
      ex.outcome.Raised? ==>
        var reply := b.reply(BlockRaised(ex.outcome.exception));
        (reply.Throw? ==> GroupLoop(env, [d], st) == Progress(Some(reply.exception), st)) &&
        (reply.Return? && st.result.Some? && IsSuccess(st.result.value) ==> GroupLoop(env, [d], st) == Progress(None, st)) &&
        (reply.Return? && st.result.None? ==> GroupLoop(env, [d], st).raised == Some(Exception(NoMethodError, Sym("success?"))))
  {
    assert [d][0] == d && [d][1..] == [];
  }

  /** A dispatcher that never yields leaves the previous step's result in place: the
      group passes on that result, or raises NoMethodError when there is none. */
  lemma SilentDispatcherKeepsPrevious(env: Env, d: Dispatch, st: State)
    requires EnvOk(env)
    requires var b := Invoke(env, d.dispatcher, st.attrs);
      b.yielded.None? && b.reply(NotYielded).Return?
    ensures st.result.Some? && IsSuccess(st.result.value) ==> GroupLoop(env, [d], st) == Progress(None, st)
    ensures st.result.None? ==> GroupLoop(env, [d], st).raised == Some(Exception(NoMethodError, Sym("success?")))
  {
    assert [d][0] == d && [d][1..] == [];
  }
}

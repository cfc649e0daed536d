/** Floop::Config, the global settings of Floop operations, and the memoised
    `Floop.config` accessor. */
module FloopConfig {
  import opened Values

  /** The state of a Config object. */
  datatype ConfigData = ConfigData(
    errorHandlers: seq<Value>,
    wrapFalseyResult: Value,
    wrapTruthyResult: Value,
    sloppyTransientAttributes: Value,
    sloppyAttributes: Value)

  /** What `Config.new` sets up: no handlers, all four flags false. */
  const DEFAULTS: ConfigData := ConfigData([], Bool(false), Bool(false), Bool(false), Bool(false))

  /** One statement of a `Floop.config { |c| ... }` block: an assignment through an
      accessor, or an in-place change of the handler list obtained from its reader. */
  datatype Setting =
    | SetWrapFalseyResult(v: Value)
    | SetWrapTruthyResult(v: Value)
    | SetSloppyTransientAttributes(v: Value)
    | SetSloppyAttributes(v: Value)
    | AddErrorHandler(handler: Value)   // config.error_handlers << handler
    | ClearErrorHandlers                // config.error_handlers.clear

  function Apply(d: ConfigData, s: Setting): ConfigData {
    match s
    case SetWrapFalseyResult(v) => d.(wrapFalseyResult := v)
    case SetWrapTruthyResult(v) => d.(wrapTruthyResult := v)
    case SetSloppyTransientAttributes(v) => d.(sloppyTransientAttributes := v)
    case SetSloppyAttributes(v) => d.(sloppyAttributes := v)
    case AddErrorHandler(h) => d.(errorHandlers := d.errorHandlers + [h])
    case ClearErrorHandlers => d.(errorHandlers := [])
  }

  /** The field a setting writes. */
  function Target(s: Setting): nat {
    match s
    case SetWrapFalseyResult(_) => 0
    case SetWrapTruthyResult(_) => 1
    case SetSloppyTransientAttributes(_) => 2
    case SetSloppyAttributes(_) => 3
    case _ => 4
  }

  /** Each accessor reads back what was last written to it: the other settings leave it alone. */
  lemma SettingReadsBack(d: ConfigData, s: Setting, t: Setting)
    requires Target(s) != Target(t)
    ensures Apply(Apply(d, s), t) == Apply(Apply(d, t), s)
    ensures s.SetSloppyAttributes? ==> Apply(Apply(d, s), t).sloppyAttributes == s.v
    ensures s.SetSloppyTransientAttributes? ==> Apply(Apply(d, s), t).sloppyTransientAttributes == s.v
    ensures s.SetWrapFalseyResult? ==> Apply(Apply(d, s), t).wrapFalseyResult == s.v
    ensures s.SetWrapTruthyResult? ==> Apply(Apply(d, s), t).wrapTruthyResult == s.v
  {
  }

  /** The settings of a block, applied in order. */
  function ApplyAll(d: ConfigData, ss: seq<Setting>): ConfigData
    decreases |ss|
  {
    if ss == [] then d else Apply(ApplyAll(d, ss[..|ss| - 1]), ss[|ss| - 1])
  }

  /** The handler list after a block: additions are appended in order, and a `clear`
      forgets everything added before it. */
  function HandlersAfter(hs: seq<Value>, ss: seq<Setting>): seq<Value>
    decreases |ss|
  {
    if ss == [] then hs
    else
      var before := HandlersAfter(hs, ss[..|ss| - 1]);
      match ss[|ss| - 1]
      case AddErrorHandler(h) => before + [h]
      case ClearErrorHandlers => []
      case _ => before
  }

  /** The handler list a block leaves behind depends only on its handler statements,
      and a block without a `clear` keeps the old handlers as a prefix. */
  lemma {:induction false} ApplyAllHandlers(d: ConfigData, ss: seq<Setting>)
    ensures ApplyAll(d, ss).errorHandlers == HandlersAfter(d.errorHandlers, ss)
    ensures (forall s :: s in ss ==> !s.ClearErrorHandlers?) ==> d.errorHandlers <= ApplyAll(d, ss).errorHandlers
    decreases |ss|
  {
    if ss != [] {
      ApplyAllHandlers(d, ss[..|ss| - 1]);
      if forall s :: s in ss ==> !s.ClearErrorHandlers? {
        forall s | s in ss[..|ss| - 1] ensures !s.ClearErrorHandlers? {
          assert s in ss;
        }
        assert ss[|ss| - 1] in ss;
      }
    }
  }

  class Config {
    var errorHandlers: seq<Value>
    var wrapFalseyResult: Value
    var wrapTruthyResult: Value
    var sloppyTransientAttributes: Value
    var sloppyAttributes: Value

    function Data(): ConfigData
      reads this
    {
      ConfigData(errorHandlers, wrapFalseyResult, wrapTruthyResult, sloppyTransientAttributes, sloppyAttributes)
    }

    /** `Config.new`. */
    constructor ()
      ensures Data() == DEFAULTS
    {
      errorHandlers := [];
      wrapFalseyResult := Bool(false);
      wrapTruthyResult := Bool(false);
      sloppyTransientAttributes := Bool(false);
      sloppyAttributes := Bool(false);
    }

    /** One setting, performed on the object. */
    method Perform(s: Setting)
      modifies this
      ensures Data() == Apply(old(Data()), s)
    {
      match s
      case SetWrapFalseyResult(v) => wrapFalseyResult := v;
      case SetWrapTruthyResult(v) => wrapTruthyResult := v;
      case SetSloppyTransientAttributes(v) => sloppyTransientAttributes := v;
      case SetSloppyAttributes(v) => sloppyAttributes := v;
      case AddErrorHandler(h) => errorHandlers := errorHandlers + [h];
      case ClearErrorHandlers => errorHandlers := [];
    }
  }

  /** The module-level memo `@config` of `Floop`. */
  class Registry {
    var config: Config?

    constructor ()
      ensures config == null
    {
      config := null;
    }

    /** `Floop.config { |c| block }`: creates the Config on first use only, yields it
        to the block (whose statements are `block`), and returns that same object. */
    method GetConfig(block: seq<Setting>) returns (c: Config)
      modifies this, config
      ensures c == config
      ensures old(config) != null ==> c == old(config) && c.Data() == ApplyAll(old(config.Data()), block)
      ensures old(config) == null ==> fresh(c) && c.Data() == ApplyAll(DEFAULTS, block)
    {
      if config == null {
        config := new Config();
      }
      c := config;
      ghost var start := c.Data();
      var i := 0;
      while i < |block|
        invariant 0 <= i <= |block|
        invariant c == config
        invariant c.Data() == ApplyAll(start, block[..i])
      {
        c.Perform(block[i]);
        assert block[..i + 1][..i] == block[..i];
        i := i + 1;
      }
      assert block[..i] == block;
    }
  }
}

/** Fluxo::Config, the global settings of the Fluxo engine, and the memoised
    `Fluxo.config` / `Fluxo.configure` accessor. */
module FluxoConfig {
  import opened Values

  /** The state of a Config object. */
  datatype ConfigData = ConfigData(
    errorHandlers: seq<Value>,
    wrapFalseyResult: Value,
    wrapTruthyResult: Value,
    strict: Value)

  /** What `Config.new` sets up: no handlers, every flag false. */
  const DEFAULTS: ConfigData := ConfigData([], Bool(false), Bool(false), Bool(false))

  /** One statement of a `Fluxo.config { |c| ... }` block: an assignment through a
      writer, or an in-place change of the handler list obtained from its reader. */
  datatype Setting =
    | SetWrapFalseyResult(v: Value)
    | SetWrapTruthyResult(v: Value)
    | SetStrict(v: Value)
    | AddErrorHandler(handler: Value)   // config.error_handlers << handler
    | ClearErrorHandlers                // config.error_handlers.clear

  function Apply(d: ConfigData, s: Setting): ConfigData {
    match s
    case SetWrapFalseyResult(v) => d.(wrapFalseyResult := v)
    case SetWrapTruthyResult(v) => d.(wrapTruthyResult := v)
    case SetStrict(v) => d.(strict := v)
    case AddErrorHandler(h) => d.(errorHandlers := d.errorHandlers + [h])
    case ClearErrorHandlers => d.(errorHandlers := [])
  }

  /** The field a setting writes. */
  function Target(s: Setting): nat {
    match s
    case SetWrapFalseyResult(_) => 0
    case SetWrapTruthyResult(_) => 1
    case SetStrict(_) => 2
    case _ => 3
  }

  /** Settings of different fields commute: each one touches its own field only. */
  lemma SettingsCommute(d: ConfigData, s: Setting, t: Setting)
    requires Target(s) != Target(t)
    ensures Apply(Apply(d, s), t) == Apply(Apply(d, t), s)
  {
  }

  /** The settings of a block, applied in order. */
  function ApplyAll(d: ConfigData, ss: seq<Setting>): ConfigData
    decreases |ss|
  {
    if ss == [] then d else Apply(ApplyAll(d, ss[..|ss| - 1]), ss[|ss| - 1])
  }

  /** A block that never assigns the strict flag leaves it as it was, and one whose
      last strict assignment is `v` leaves `v`. */
  lemma {:induction false} ApplyAllStrict(d: ConfigData, ss: seq<Setting>, v: Value)
    requires forall s :: s in ss ==> !s.SetStrict?
    ensures ApplyAll(d, ss).strict == d.strict
    ensures ApplyAll(d.(strict := v), ss).strict == v
    decreases |ss|
  {
    if ss != [] {
      ApplyAllStrict(d, ss[..|ss| - 1], v);
      assert ss[|ss| - 1] in ss;
    }
  }

  /** `Config#strict?`: `!!@strict`, the truthiness of whatever was assigned. */
  predicate StrictQ(d: ConfigData) {
    Truthy(d.strict)
  }

  /** A fresh configuration is not strict; after `strict = v` it is strict exactly when
      `v` is truthy, whatever other settings follow. */
  lemma StrictAfterSettings(ss: seq<Setting>, v: Value)
    requires forall s :: s in ss ==> !s.SetStrict?
    ensures !StrictQ(DEFAULTS)
    ensures StrictQ(ApplyAll(DEFAULTS, [SetStrict(v)] + ss)) <==> Truthy(v)
  {
    ApplyAllStrict(DEFAULTS, ss, v);
    ApplyAllPrefix(DEFAULTS, SetStrict(v), ss);
  }

  /** Applying `s` and then `ss` is applying `ss` to the result of `s`. */
  lemma {:induction false} ApplyAllPrefix(d: ConfigData, s: Setting, ss: seq<Setting>)
    ensures ApplyAll(d, [s] + ss) == ApplyAll(Apply(d, s), ss)
    decreases |ss|
  {
    var t := [s] + ss;
    if ss == [] {
      assert t[..|t| - 1] == [];
    } else {
      assert t[..|t| - 1] == [s] + ss[..|ss| - 1];
      ApplyAllPrefix(d, s, ss[..|ss| - 1]);
    }
  }

  class Config {
    var errorHandlers: seq<Value>
    var wrapFalseyResult: Value
    var wrapTruthyResult: Value
    var strict: Value

    function Data(): ConfigData
      reads this
    {
      ConfigData(errorHandlers, wrapFalseyResult, wrapTruthyResult, strict)
    }

    /** `Config.new`. */
    constructor ()
      ensures Data() == DEFAULTS
    {
      errorHandlers := [];
      wrapFalseyResult := Bool(false);
      wrapTruthyResult := Bool(false);
      strict := Bool(false);
    }

    /** `strict?`: always a boolean. */
    function IsStrict(): (r: bool)
      reads this
      ensures r <==> StrictQ(Data())
      ensures strict == Nil || strict == Bool(false) ==> !r
    {
      Truthy(strict)
    }

    /** One setting, performed on the object. */
    method Perform(s: Setting)
      modifies this
      ensures Data() == Apply(old(Data()), s)
    {
      match s
      case SetWrapFalseyResult(v) => wrapFalseyResult := v;
      case SetWrapTruthyResult(v) => wrapTruthyResult := v;
      case SetStrict(v) => strict := v;
      case AddErrorHandler(h) => errorHandlers := errorHandlers + [h];
      case ClearErrorHandlers => errorHandlers := [];
    }
  }

  /** The module-level memo `@config` of `Fluxo`. */
  class Registry {
    var config: Config?

    constructor ()
      ensures config == null
    {
      config := null;
    }

    /** `Fluxo.config { |c| block }`: creates the Config on first use only, yields it
        to the block (whose statements are `block`), and returns that same object. */
    method GetConfig(block: seq<Setting>) returns (c: Config)
      modifies this, config
      ensures c == config
      ensures old(config) != null ==> c == old(config) && c.Data() == ApplyAll(old(config.Data()), block)
      ensures old(config) == null ==> fresh(c) && c.Data() == ApplyAll(DEFAULTS, block)
    {
      if config == null {
        config := new Config();
      }
      c := config;
      ghost var start := c.Data();
      var i := 0;
      while i < |block|
        invariant 0 <= i <= |block|
        invariant c == config
        invariant c.Data() == ApplyAll(start, block[..i])
      {
        c.Perform(block[i]);
        assert block[..i + 1][..i] == block[..i];
        i := i + 1;
      }
      assert block[..i] == block;
    }

    /** `Fluxo.configure`, an alias of `Fluxo.config`. */
    method Configure(block: seq<Setting>) returns (c: Config)
      modifies this, config
      ensures c == config
      ensures old(config) != null ==> c == old(config) && c.Data() == ApplyAll(old(config.Data()), block)
      ensures old(config) == null ==> fresh(c) && c.Data() == ApplyAll(DEFAULTS, block)
    {
      c := GetConfig(block);
    }
  }
}

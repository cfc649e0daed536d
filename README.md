# Fluxo and Floop operations in Dafny

This project models the core of the `fluxo` gem: the engine that runs an operation's
flow of steps, the `Result` object the engine produces, the class-level attribute
registries, and the global configuration records. It also models the older `Floop`
variant of an operation.

## Data and modules

- `Values` holds the Ruby objects the engine handles:
  - `nil`, booleans, integers, strings, symbols, arrays, hashes, opaque objects and
    exceptions.
  - Ruby truthiness, `Array()`, `to_sym`, and `uniq`, `|`, `-` and `&` on arrays.
  - A flat enumeration of the exception classes, with the two tests the code makes on
    them: "is a StandardError" and "is a Fluxo::Error".
- `Results` holds `Fluxo::Result`:
  - The value of its five fields as `ResultData`.
  - A `Result` class whose fields `mutate` assigns in place.
  - Structural `==`, the three type predicates and the three hooks.
- `FluxoConfig` and `FloopConfig` hold the global settings records and the memoised
  accessors that create them on first use.
  - A configuration block is a sequence of `Setting`s.
  - Each setting is a writer assignment, or an append to / clear of the handler list.
- `FluxoAttributes` and `FloopAttributes` hold the class-level registries:
  - Fluxo's required attributes and cached `strict?`.
  - Floop's attribute and transient-attribute name lists and the sloppy flags.
- `FluxoFlow` holds the reference definition of a run of `__execute_flow__`, as
  functions over values. A run is a sequence of `Step`s, each a method name or a group
  `{dispatcher => nested steps}`.
  - Step methods come from a table from names to functions of the attributes, in place
    of `send`.
  - Each function says whether the method yields to the block (and with which
    attributes), and what it returns or raises given how the block ended: not
    called, returned a Result, or raised.
  - The validations proxy is a function from attributes to `None` (valid) or the
    errors.
- `FluxoFlowProperties` holds what a run guarantees:
  - where it stops;
  - how values are merged;
  - which ids the final Result carries;
  - how validation and groups take part.
- `FluxoGrowth` deals with the effect of `steps.unshift(:__validate__)`:
  - The step array that `flow` captures gains one `:__validate__` per call.
  - The module proves that this never changes what a later call answers.
- `FluxoOperation` is the imperative engine:
  - `__execute_flow__` is a loop over the steps, with mutable locals for the
    attributes, the current result and the ids per type.
  - The loop over the pairs of a group.
  - The operation class with `flow`, `call!` and the `call` error boundary.
  - Each method is proved against the `FluxoFlow` functions.
- `FloopOperation` holds the Floop operation:
  - the `initialize` attribute gate;
  - the hand-written `call!`;
  - its error boundary, which never re-raises.

The global configuration, the operation instance (`new`), and the error handlers are
explicit parameters. The handlers are external code: `call` reports the ordered list
of handler calls it makes instead of running them.

Where the code and the gem's documented behaviour differ, the model follows the code:
- Fluxo does not check required attributes before a run, and has no per-step
  attribute gate; `next_step` is unused in `__merge_result_attributes__`.
- `call` raises an `ArgumentError` again instead of turning it into an exception
  Result.
- The ids pushed by the steps nested in a group never reach the outer run's ids.
- Floop's `call` wraps nothing and has no strict mode.

## Model

| member | source | states |
|---|---|---|
| Values.ToSym | lib/floop/operation/attributes.rb:45 | `to_sym` succeeds exactly on strings and symbols, giving the symbol of the same name; anything else raises NoMethodError |
| Values.UniqSpec | lib/fluxo/operation.rb:68 | `uniq` leaves no duplicates and keeps exactly the elements of its input |
| Values.UniqPrefix | lib/fluxo/operation.rb:68 | `uniq` keeps first-seen order: the dedup of a prefix is a prefix of the dedup of the whole |
| Values.UniqOfNoDup | lib/fluxo/operation.rb:68 | `uniq` of a duplicate-free array is that array |
| Values.UniqAbsorbs | lib/fluxo/operation.rb:68 | appending elements already present leaves `uniq` unchanged |
| Values.UnionSpec | lib/fluxo/operation/attributes.rb:33 | for a duplicate-free `a`, `a \| b` keeps `a` as a prefix, has no duplicates, holds exactly the elements of both, and absorbs a repeated `b` |
| Values.Minus | lib/floop/operation/attributes.rb:45 | `a - b` holds exactly the elements of `a` not in `b` and is no longer than `a` |
| Values.MinusAppend | lib/floop/operation/attributes.rb:45 | `a - b` keeps the order of `a`: `(a + c) - b` is `(a - b) + (c - b)` |
| Values.MinusOne | lib/floop/operation/attributes.rb:45 | a one-element array loses its element exactly when `b` holds it |
| Values.MinusCounts | lib/floop/operation/attributes.rb:45 | `a - b` keeps duplicates: an element not in `b` occurs in `a - b` as many times as in `a`, one in `b` not at all |
| Values.Keep | lib/fluxo/result.rb:48 | the kept elements are exactly those in both lists |
| Values.IntersectionAnyTruthy | lib/fluxo/result.rb:48 | `(ids & handler_ids).any?` holds exactly when some truthy element is in both |
| Results.Initial | lib/fluxo/result.rb:13-18 | a new Result holds the given operation, type and value, and `Array(ids)`: nil becomes [], an array stays, anything else becomes a one-element array; `transient_attributes` is nil |
| Results.MutatedFields | lib/fluxo/result.rb:5 | after `mutate` every field in ATTRIBUTES holds the last value given for its key, or its old value when none is given |
| Results.MutatedIgnoresOtherKeys | lib/fluxo/result.rb:20-25 | a key outside ATTRIBUTES changes nothing |
| Results.MutateIdempotent | lib/fluxo/result.rb:20-25 | mutating twice with the same pairs equals mutating once |
| Results.LastBindingAbsent | lib/fluxo/result.rb:21-23 | a field that no pair names keeps the value it held |
| Results.LastBindingPresent | lib/fluxo/result.rb:21-23 | a field some pair names ends with the value of the last such pair, whatever it held |
| Results.LastBindingTwice | lib/fluxo/result.rb:21-23 | applying the pairs again leaves a field that already holds its last binding as it is |
| Results.FieldsDetermine | lib/fluxo/result.rb:5-6 | two Results with equal fields in ATTRIBUTES are equal |
| Results.MutateAllIsNew | lib/fluxo/result.rb:20-29 | mutating operation, value, type and ids gives a Result `==` to one built from those four fields |
| Results.MutateOneIsNew | lib/fluxo/result.rb:20-25 | mutating one listed field changes that field and leaves the other four as they were |
| Results.EqualsIgnoresOnlyTransient | lib/fluxo/result.rb:27-30 | `==` holds exactly when operation, type, value and ids agree, whatever `transient_attributes` holds; it is symmetric and reflexive |
| Results.PredicatesExclusive | lib/fluxo/result.rb:33-45 | at most one of `success?`, `failure?`, `error?` holds, and one holds exactly when the type is :ok, :failure or :exception |
| Results.HookFires | lib/fluxo/result.rb:47-57 | a hook raises only when the type matches, a truthy filter id is given and ids is not an array (TypeError for an integer, NoMethodError otherwise) |
| Results.HookFiresSpec | lib/fluxo/result.rb:47-57 | with an array of ids, the block runs exactly when the type matches and either no filter id is truthy or a truthy filter id is among the ids |
| Results.HooksExclusive | lib/fluxo/result.rb:47-57 | no Result runs the blocks of two different hooks |
| Results.Result.constructor | lib/fluxo/result.rb:13-18 | the new object holds the normalised fields of `initialize` |
| Results.Result.Mutate | lib/fluxo/result.rb:20-25 | `mutate` assigns the listed keys in order, in place, and answers the receiver itself |
| Results.Result.OnSuccess | lib/fluxo/result.rb:47-49 | `on_success` runs its block by the hook rule for :ok and answers the receiver unchanged |
| Results.Result.OnFailure | lib/fluxo/result.rb:51-53 | `on_failure` runs its block by the hook rule for :failure and answers the receiver unchanged |
| Results.Result.OnError | lib/fluxo/result.rb:55-57 | `on_error` runs its block by the hook rule for :exception and answers the receiver unchanged |
| FluxoConfig.SettingsCommute | lib/fluxo/config.rb:17-23 | writers of different settings commute: each writes only its own field |
| FluxoConfig.ApplyAllStrict | lib/fluxo/config.rb:23 | a block that never assigns `strict` leaves it as it was |
| FluxoConfig.StrictAfterSettings | lib/fluxo/config.rb:25-34 | a fresh Config is not strict; after `strict = v` and other settings, `strict?` is the truthiness of `v` |
| FluxoConfig.ApplyAllPrefix | lib/fluxo/config.rb:5-9 | a block's settings apply in order, first statement first |
| FluxoConfig.Config.constructor | lib/fluxo/config.rb:25-30 | a new Config has no handlers and wrap_falsey, wrap_truthy and strict all false |
| FluxoConfig.Config.IsStrict | lib/fluxo/config.rb:32-34 | `strict?` is a boolean, the truthiness of the stored flag |
| FluxoConfig.Config.Perform | lib/fluxo/config.rb:14-23 | a writer, or `<<`/`clear` on the handler list, changes that one field only |
| FluxoConfig.Registry.GetConfig | lib/fluxo/config.rb:5-9 | `Fluxo.config` creates the Config once, answers the same object afterwards, and applies the block to it |
| FluxoConfig.Registry.Configure | lib/fluxo/config.rb:10 | `configure` has exactly the effect of `config` |
| FloopConfig.SettingReadsBack | lib/floop/config.rb:14-23 | accessors of different flags commute, and each flag reads back the value last assigned |
| FloopConfig.ApplyAllHandlers | lib/floop/config.rb:11 | the handler list after a block follows its `<<` and `clear` statements, and without a `clear` the old handlers stay as a prefix |
| FloopConfig.Config.constructor | lib/floop/config.rb:25-31 | a new Config has no handlers and all four flags false |
| FloopConfig.Config.Perform | lib/floop/config.rb:11-23 | an accessor, or `<<`/`clear` on the handler list, changes that one field only |
| FloopConfig.Registry.GetConfig | lib/floop/config.rb:4-8 | `Floop.config` creates the Config once, answers the same object afterwards, and applies the block to it |
| FluxoAttributes.ClassMethods.constructor | lib/fluxo/operation/attributes.rb:27-29 | a new class has no required attributes and no `strict` override |
| FluxoAttributes.ClassMethods.SetStrict | lib/fluxo/operation/attributes.rb:15 | `strict=` sets the override and nothing else |
| FluxoAttributes.ClassMethods.IsStrict | lib/fluxo/operation/attributes.rb:17-21 | `strict?` answers the override when one is set; otherwise it reads the global `strict?` once and caches it on the class |
| FluxoAttributes.ClassMethods.RequireAttributes | lib/fluxo/operation/attributes.rb:31-34 | the list becomes its ordered union with the names: the old names keep their order and new ones are appended once |
| FluxoAttributes.ClassMethods.RequireAttribute | lib/fluxo/operation/attributes.rb:35 | the alias `require_attribute` has the same effect |
| FluxoAttributes.ClassMethods.Attributes | lib/fluxo/operation/attributes.rb:36 | the alias `attributes` has the same effect |
| FluxoAttributes.ClassMethods.TransientAttributes | lib/fluxo/operation/attributes.rb:38-40 | `transient_attributes` changes no state and answers nil |
| FluxoAttributes.ClassMethods.Validations | lib/fluxo/operation/attributes.rb:23-25 | `validations` raises NotImplementedError, which is not a StandardError |
| FluxoAttributes.RequireTwice | lib/fluxo/operation/attributes.rb:31-34 | declaring the same names again changes nothing, nor does declaring names already present |
| FluxoAttributes.RequireAppendsOnce | lib/fluxo/operation/attributes.rb:33 | declaring a new name several times in one call appends it once |
| FloopAttributes.SymbolizeAll | lib/floop/operation/attributes.rb:45 | `names.map(&:to_sym)` succeeds exactly when every name is a string or symbol, symbolising each in place; otherwise it raises NoMethodError |
| FloopAttributes.DeclaredSpec | lib/floop/operation/attributes.rb:43-53 | declaring keeps the old names as a prefix, adds exactly the new symbols, and repeating the declaration changes nothing |
| FloopAttributes.MinusAllPresent | lib/floop/operation/attributes.rb:45 | names that are all present leave nothing to append |
| FloopAttributes.DeclaredCounts | lib/floop/operation/attributes.rb:43-47 | declaring keeps the old list in front and appends each new symbol as many times as the names give it, duplicates inside one call included |
| FloopAttributes.SymbolizeFront | lib/floop/operation/attributes.rb:45 | `map(&:to_sym)` of all but the last name is all but the last symbol |
| FloopAttributes.DeclaredInOrder | lib/floop/operation/attributes.rb:43-47 | the symbols are appended in the order given: declaring n names is declaring the first n-1 and then appending the last unless the list held it before the call |
| FloopAttributes.IsMember | lib/floop/operation/attributes.rb:55-65 | a nil or false key is not a member; another key raises exactly when it has no `to_sym`; a member is a string or symbol |
| FloopAttributes.DeclaredAreMembers | lib/floop/operation/attributes.rb:43-59 | every name of a successful declaration, as a string or symbol, is then an attribute |
| FloopAttributes.ClassMethods.constructor | lib/floop/operation/attributes.rb:35-41 | a new class has empty name lists and no sloppy overrides |
| FloopAttributes.ClassMethods.SetSloppyAttributes | lib/floop/operation/attributes.rb:17 | the writer sets that override only |
| FloopAttributes.ClassMethods.SetSloppyTransientAttributes | lib/floop/operation/attributes.rb:14 | the writer sets that override only |
| FloopAttributes.ClassMethods.IsSloppyAttributes | lib/floop/operation/attributes.rb:19-23 | the class's value whenever one was assigned, even false; otherwise the global value as it is now |
| FloopAttributes.ClassMethods.IsSloppyTransientAttributes | lib/floop/operation/attributes.rb:25-29 | the class's value whenever one was assigned, even false; otherwise the global value as it is now |
| FloopAttributes.ClassMethods.Attributes | lib/floop/operation/attributes.rb:43-47 | `attributes(*names)` appends the new symbols in place and answers the list; it leaves the transient list and flags alone, and changes nothing when a name cannot be symbolised |
| FloopAttributes.ClassMethods.TransientAttributes | lib/floop/operation/attributes.rb:49-53 | the same on the transient list, which is independent of the attribute list |
| FloopAttributes.ClassMethods.IsAttribute | lib/floop/operation/attributes.rb:55-59 | false for nil and false; for a symbol or string, membership of its symbol; otherwise NoMethodError |
| FloopAttributes.ClassMethods.IsTransientAttribute | lib/floop/operation/attributes.rb:61-65 | the same rule against the transient list |
| FloopAttributes.ClassMethods.Validations | lib/floop/operation/attributes.rb:31-33 | `validations` raises NotImplementedError, which is not a StandardError |
| FluxoFlow.Success | lib/fluxo/operation.rb:72-81 | an :ok Result of this operation: without a block the argument is the value and ids are []; with one, the block's value and `Array(argument)` as ids; Floop's Success at lib/floop/operation.rb:43-52 is the same |
| FluxoFlow.Failure | lib/fluxo/operation.rb:84-93 | the same with type :failure; so is Floop's at lib/floop/operation.rb:55-64 |
| FluxoFlow.Void | lib/fluxo/operation.rb:95-97 | an :ok Result with value nil and ids [:void]; so is Floop's at lib/floop/operation.rb:66-68 |
| FluxoFlow.SuccessFailureDiffer | lib/fluxo/operation.rb:72-93 | Success and Failure of the same arguments differ only in type, and are never `==` |
| FluxoFlow.ExceptionResult | lib/fluxo/operation.rb:24 | the Result built for a rescued exception: type :exception, the exception as value, ids [:error], the instance as operation |
| FluxoFlow.Merge | lib/fluxo/operation.rb:106-110 | a value that is not a Hash leaves the attributes as they are; a Hash adds its Symbol keys only, and its values win |
| FluxoFlow.MergeIdempotent | lib/fluxo/operation.rb:106-110 | merging the same value twice equals merging it once |
| FluxoFlow.Wrap | lib/fluxo/operation.rb:126-144 | a Result passes unchanged; with wrap_falsey a nil/false becomes Failure with ids [:falsey]; with wrap_truthy a truthy value becomes Success with ids [:truthy]; otherwise InvalidResultError is raised |
| FluxoFlow.StepReply | lib/fluxo/operation.rb:54 | what `send(step, **attrs)` answers: the inherited `call!` raises NotImplementedError (lib/fluxo/operation.rb:31-36), a missing method NoMethodError with its name, `:__validate__` with a proxy the validation Result; a method that yields raises LocalJumpError, as it gets no block |
| FluxoFlow.Validated | lib/fluxo/operation.rb:116-118 | valid attributes give Void; invalid ones give a Failure with ids [:validation] carrying the errors |
| FluxoFlow.Prepared | lib/fluxo/operation.rb:44 | putting `:__validate__` in front never shortens the steps |
| FluxoFlow.Finish | lib/fluxo/operation.rb:68 | the final `mutate` raises when no result was set; otherwise it stamps the result with the dedup of the ids of its type and with the instance |
| FluxoFlow.Loop | lib/fluxo/operation.rb:45-68 | a run that answers a Result answers the current result, stamped with the instance and the dedup of the ids collected for its type |
| FluxoFlowProperties.GroupKeepsTags | lib/fluxo/operation.rb:46-52 | a group changes neither the collected ids nor the attributes |
| FluxoFlowProperties.PushedKeepsMatch | lib/fluxo/operation.rb:55 | pushing a named step's ids keeps the collected ids equal to those the logged steps pushed |
| FluxoFlowProperties.StepKeepsMatch | lib/fluxo/operation.rb:46-56 | so does every step |
| FluxoFlowProperties.LoopKeepsMatch | lib/fluxo/operation.rb:45-67 | so does a whole run |
| FluxoFlowProperties.FinalIds | lib/fluxo/operation.rb:55-68 | the final Result's ids are the first-seen-order dedup of the ids that the run's named steps pushed under its type, and its operation is the instance |
| FluxoFlowProperties.HaltIgnoresRest | lib/fluxo/operation.rb:45-58 | a raising step ends the run with that exception; a non-success step ends it with its own type and value; later steps never run |
| FluxoFlowProperties.SuccessMergesIntoNext | lib/fluxo/operation.rb:58-66 | a success followed by another step hands that step the attributes merged with its value |
| FluxoFlowProperties.LastSuccessIsResult | lib/fluxo/operation.rb:58-68 | the last step's success is finished as it is, with no merge |
| FluxoFlowProperties.InvalidAttributesStopTheRun | lib/fluxo/operation.rb:44 | with a validations proxy and invalid attributes, the run answers Failure with ids [:validation] and the errors, and no step runs |
| FluxoFlowProperties.ValidAttributesRunTheSteps | lib/fluxo/operation.rb:44-66 | with valid attributes, `:__validate__` pushes only :void under :ok and the steps run on the unchanged attributes |
| FluxoFlowProperties.GroupsDoNotValidate | lib/fluxo/operation.rb:49 | nested steps run without `:__validate__` |
| FluxoFlowProperties.GroupResultIsNestedResult | lib/fluxo/operation.rb:47-51 | when the nested run answers a Result and the dispatcher, given that Result as the value of `yield`, returns normally, the Result is the step's result; the outer ids and attributes stay |
| FluxoFlowProperties.NestedExceptionReachesDispatcher | lib/fluxo/operation.rb:47-51 | an exception of the nested run is raised inside the dispatcher: if the dispatcher raises, that exception ends the run with the outer state unchanged; if it rescues and returns, the previous result stays, or NoMethodError is raised when there is none |
| FluxoFlowProperties.SilentDispatcherKeepsPrevious | lib/fluxo/operation.rb:47-51 | a dispatcher that never yields and returns normally leaves the previous result in place, or raises NoMethodError when there is none |
| FluxoGrowth.Validations | lib/fluxo/operation.rb:44 | n copies of `:__validate__` |
| FluxoGrowth.GrowthOfFlowArray | lib/fluxo/operation.rb:13-44 | with a validations proxy, the array captured by `flow` holds one `:__validate__` per earlier call in front of the declared steps |
| FluxoGrowth.GrownWithoutValidations | lib/fluxo/operation.rb:44 | without a validations proxy the array never grows |
| FluxoGrowth.UniqAppendSame | lib/fluxo/operation.rb:68 | arrays with the same dedup keep the same dedup after the same ids are appended |
| FluxoGrowth.PushedAlike | lib/fluxo/operation.rb:55 | pushing the same Result keeps two runs alike (same attributes, result, and deduplicated ids per type) |
| FluxoGrowth.GroupLoopFrame | lib/fluxo/operation.rb:46-52 | a group reads only the attributes and result and writes only the result |
| FluxoGrowth.StepAlike | lib/fluxo/operation.rb:46-56 | a step from alike states raises alike and ends in alike states |
| FluxoGrowth.LoopAlike | lib/fluxo/operation.rb:45-68 | runs from alike states answer the same |
| FluxoGrowth.ExtraValidations | lib/fluxo/operation.rb:44-66 | after a passed validation, further `:__validate__` steps change no answer |
| FluxoGrowth.GrownFlowAnswersTheSame | lib/fluxo/operation.rb:44 | a flow with any number of extra `:__validate__` in front answers what the declared flow answers |
| FluxoGrowth.LaterCallsAnswerTheSame | lib/fluxo/operation.rb:13-44 | however many times `call` ran before, the grown array answers what it answered the first time |
| FluxoOperation.ExecuteFlow | lib/fluxo/operation.rb:40-69 | the loop of `__execute_flow__` raises or answers a new Result exactly as the reference run does, and reports whether a flow-defined `call!` grew its array |
| FluxoOperation.Complete | lib/fluxo/operation.rb:68 | the final `mutate` on the current result answers the finished Result, or NoMethodError when none was set |
| FluxoOperation.RunStep | lib/fluxo/operation.rb:46-56 | one step changes the ids and current result exactly as the reference step does |
| FluxoOperation.RunGroup | lib/fluxo/operation.rb:46-52 | the loop over a group's pairs ends exactly as the reference group does, changing only the current result |
| FluxoOperation.Answer | lib/fluxo/operation.rb:19-27 | a Result passes; ArgumentError, Fluxo errors and non-StandardErrors are raised; another exception is raised when strict and answered as the exception Result otherwise |
| FluxoOperation.InheritedCallBangEscapes | lib/fluxo/operation.rb:31-36 | the inherited `call!` makes `call` raise NotImplementedError whether or not the class is strict |
| FluxoOperation.PreparedRank | lib/fluxo/operation.rb:44 | putting `:__validate__` in front keeps a flow free of `call!` |
| FluxoOperation.OperationClass.EnvFor | lib/fluxo/operation.rb:11-14 | what a run reads of the class and the global config satisfies the engine's requirement |
| FluxoOperation.OperationClass.constructor | lib/fluxo/operation.rb:31-36 | a new operation class inherits `call!` |
| FluxoOperation.OperationClass.Flow | lib/fluxo/operation.rb:12-14 | `flow(*steps)` defines `call!` as a run over that array |
| FluxoOperation.OperationClass.DefineCallBang | lib/fluxo/operation.rb:31 | a hand-written `call!` replaces the inherited one |
| FluxoOperation.OperationClass.Call | lib/fluxo/operation.rb:16-28 | `call` answers as Answer says for the run of `[:call!]`; a rescued exception is handed to every handler in order and fixes the cached `strict?`; the flow's array grows by the one `:__validate__` the run put in front |
| FloopOperation.AssignedKeys | lib/floop/operation.rb:28-31 | an instance variable is set exactly when some key's text is its name |
| FloopOperation.StringAndSymbolShareVariable | lib/floop/operation.rb:31 | `"a"` and `:a` set the same variable: whichever comes last wins |
| FloopOperation.AssignedLast | lib/floop/operation.rb:28-31 | an instance variable holds the value of the last pair whose key has its name, String or Symbol |
| FloopOperation.Rejection | lib/floop/operation.rb:29-31 | a key is accepted exactly when `attribute?` answers true and `@` plus its text is a valid instance variable name; a key `attribute?` answers false for raises ArgumentError, a declared key with an invalid name raises NameError |
| FloopOperation.FirstRejectionSpec | lib/floop/operation.rb:27-33 | `new` succeeds exactly when every key is accepted; otherwise it raises the rejection of the first key that is not |
| FloopOperation.RejectionStops | lib/floop/operation.rb:28-29 | a key that fails the check makes `new` raise for it, whatever follows |
| FloopOperation.Answer | lib/floop/operation.rb:17-23 | `call` answers what `call!` returned, unwrapped; a StandardError becomes the exception Result; any other exception is raised |
| FloopOperation.Instance.constructor | lib/floop/operation.rb:27 | a new instance has no instance variables |
| FloopOperation.OperationClass.constructor | lib/floop/operation.rb:35-40 | a new Floop operation class inherits `call!` |
| FloopOperation.OperationClass.DefineCallBang | lib/floop/operation.rb:35 | a hand-written `call!` replaces the inherited one |
| FloopOperation.OperationClass.New | lib/floop/operation.rb:27-33 | `new(**attrs)` raises the first rejection (ArgumentError, NameError, or the NoMethodError of `to_sym` for a key that has none), whatever the sloppy flags say; otherwise it answers a new instance whose variables are those the pairs name, each with its last value |
| FloopOperation.OperationClass.Call | lib/floop/operation.rb:14-24 | `new` raises its ArgumentError, NameError, or the NoMethodError of `to_sym` for a key that has none, outside the rescue; otherwise `call` answers as Answer says, handing a rescued exception's Result to every handler in order, with no strict re-raise |

## Left out

- `Array(hash)` is not modelled as splitting a Hash into pairs: hashes are unordered maps here, so a Hash given as `ids` becomes a one-element array.
- Hash ordering in general is not modelled. Ruby's `==` on hashes ignores order, and only key lookups are used.
- A dispatcher that yields more than once is not modelled: a method either yields once, with optional attributes, or does not yield. What it then returns or raises may depend on how the block ended.
- FluxoFlow.GroupLoop and FluxoFlow.Behaviour: a dispatcher yields either a Hash of attributes or nothing, so a yield of a truthy value that is not a Hash (`yield 5`) is not modelled. In Ruby that value reaches the nested run, whose first step raises TypeError (NoMethodError when the group has no steps). `yield false` and `yield nil` both hand on the current attributes, and the model treats them alike as a yield without attributes.
- Handlers and hook blocks are external code. The model records which handler is called with which Result, in order. A handler that raises or changes the Result is not modelled.
- Result object identity is not modelled inside a run:
  - the engine carries Results as values;
  - the Result `call` answers is a new object;
  - a step that returns the same Result object twice, or keeps one and later sees it mutated, is not modelled.
- A flow that names `:call!` among its steps, or a group dispatcher named `:call!`, is excluded: `flow` and the engine require flows free of `call!`. In Ruby such a flow recurses until the stack overflows.
- A named step is sent no block, so a step method that yields raises LocalJumpError; `block_given?` inside a step method is not modelled beyond that.
- The name check `instance_variable_set` makes follows Ruby's rule for UTF-8 names: a letter, `_` or any non-ASCII character first, then those or digits. Other string encodings are not modelled.
- The deprecation message printed by Fluxo's `transient_attributes` is output only, so it is left out.
- `new` is a parameter: the instance and its identity are given to `call`.
- The global `Fluxo.config` / `Floop.config` is a parameter of `call`.
- `send` with keyword arguments is replaced by the table of step methods. A method that rejects the keywords raises ArgumentError, which its table entry models as raising.
- `next_step` is passed to `__merge_result_attributes__` but never read, so the model leaves it out.
- The validations proxy (ActiveModel) is a function from attributes to the validation errors, if any. The ActiveModel extension is not part of this model.
- lib/fluxo/rspec.rb, lib/floop/operation/constructor.rb, the gem's entry files and the ActiveModel extensions are not part of this model. The exception classes of lib/fluxo/errors.rb and lib/floop/errors.rb are an enumeration.
- `Floop::Result` is taken to be the Fluxo Result model.
- FluxoFlow.Prepared: states only that the steps are not shortened; its exact effect is stated by the lemmas of FluxoFlowProperties and FluxoGrowth.

# Dais parameter engine in Dafny

Dais is a Ruby mixin. A class includes it and calls `inputs :one, two: 2 do ... end`. That one call gives the class:

- a split of its arguments into required names and optional defaults;
- the completeness test `incomplete?`;
- a currier, reached through `curry` and `call`;
- an `initialize` that binds the parameters, runs the `dep` declarations of the block, and reports missing keywords;
- `get_deps`, which reports the dependency bindings;
- `expand`, which builds a Hash from named parameters.

This project models that engine and proves what it does.

- `values.dfy` (`Values`): Ruby values, names and Hashes. It also holds truthiness, `h[k]`, `a || b` and the right-biased `Hash#merge`.
- `declaration.dfy` (`Declaration`): the required/optional split, `incomplete?`, and the deduplicated missing-keyword list with its order.
- `dependencies.dfy` (`Dependencies`): the `dep` declarations run in order against the merged arguments. It covers how each one resolves its value (a truthy override wins) and what the run binds.
- `currying.dfy` (`Currying`): the currier as a step function (`Rejected`, `Pending` or `Build`), `curry`'s first step, and partial applications.
- `construction.dfy` (`Construction`): a class definition and what `initialize` produces as functions of the arguments:
  - the instance bindings;
  - the `ArgumentError`;
  - the outcome of a currier step or of `call`;
  - the instance helper `expand`, written as a loop.
- `commands.dfy` (`Commands`): `CommandType`, the class after `inputs` has run. It holds the two variables that all instances share and that construction overwrites, `initialize_merged_args` and `dep_params`. It also holds the methods `New` (`initialize`), `Call`, `CurryCall`, `PartialCall` and `GetDeps`. Each method is proved against the functions of `Construction`.
- `scenarios.dfy` (`Scenarios`): the examples of the unit tests, stated as verified methods on `CommandType` objects. It also has examples for the quirks below.

Places where the code does something other than what its documentation suggests. The model follows the code:

- `call` and `curry` hand the map already merged with the defaults to `new` (lib/dais.rb:24, 39-43). A default for a required name therefore satisfies that name.
- The missing-keyword list is `(required - keys).uniq`. It follows the order of `required` and is not sorted.
- A `dep` override is `initialize_merged_args[key] || value`. It is decided by truthiness, not by presence: a `nil` or `false` override is ignored. It is read from `optional.merge(args)`, so a default with a dep's name also overrides it.
- The dep block runs inside every construction (lib/dais.rb:79), not once per class. It runs before the missing-keyword check, so `dep_params` is written even when construction then raises.
- `incomplete?` counts distinct required names. A required name declared twice, or a Hash that is not the last argument of `inputs`, therefore keeps `curry` incomplete for ever. A repeated name leaves `call` working. A Hash that is not the last argument stays in `required`, where no key can ever supply it, so `call` always raises `ArgumentError`.
- `dep_params` belongs to the class and is never reset. Every construction runs every declared dep again, so `get_deps` on any instance reports exactly the latest construction's dep bindings.

## Model

| member | source | states |
|---|---|---|
| Values.Merge | lib/dais.rb:77-78 | `a.merge(b)` has the keys of both; where both hold a key the right-hand value wins, whatever it is; other keys keep the left value |
| Values.MergeAssociative | lib/dais.rb:19-21 | successive merges can be regrouped, so accumulated partial maps equal one merge of everything |
| Declaration.Split | lib/dais.rb:9-10 | a trailing Hash becomes the defaults and the rest stays required; putting the Hash back gives the arguments again; without a trailing Hash the defaults are empty |
| Declaration.Incomplete | lib/dais.rb:12-14 | `incomplete?`: a complete map supplies every required entry, and a required entry declared twice makes every map incomplete |
| Declaration.IncompleteOnlyByRequiredKeys | lib/dais.rb:12-14 | `incomplete?` depends only on which required entries the keys supply: values and keys naming no required entry play no part |
| Declaration.ElemsCount | lib/dais.rb:13 | a sequence has at most as many distinct entries as its length, exactly as many iff no entry repeats (the counting behind `keys & required`) |
| Declaration.IncompleteIffUnsupplied | lib/dais.rb:12-14 | with distinct required entries, a map is incomplete exactly when some required entry is not among its keys |
| Declaration.CompletenessMonotone | lib/dais.rb:12-20 | merging more parameters into a complete map keeps it complete |
| Declaration.Missing | lib/dais.rb:80 | the missing list holds exactly the required entries whose name is not a key, each once; it is empty exactly when every required entry is supplied |
| Declaration.MissingInRequiredOrder | lib/dais.rb:80 | the missing list follows the order of first occurrence in `required` |
| Declaration.CompleteHasNoMissing | lib/dais.rb:12-26 | a map the currier finds complete leaves no missing keyword, so building it cannot raise `ArgumentError` |
| Dependencies.Resolve | lib/dais.rb:65 | one `dep`: a truthy merged argument of the dep's name wins; otherwise the declared value, computed from the bindings so far |
| Dependencies.DepStep | lib/dais.rb:64-67 | one `dep` binds its key to the resolved value, computed from the merged arguments overlaid with the earlier deps, and leaves every other key alone |
| Dependencies.DepBindings | lib/dais.rb:79 | running the dep block in order binds every declared dep key |
| Dependencies.DepBindingsKeys | lib/dais.rb:64-67 | running the deps binds exactly the declared dep keys |
| Dependencies.DepBindingsAbsorb | lib/dais.rb:62-67 | writing a run's bindings over a map that holds only dep keys leaves exactly the run's bindings: nothing from an earlier construction survives |
| Dependencies.LaterDepsKeep | lib/dais.rb:64-67 | deps declared after the last one for a key leave that key's binding unchanged |
| Dependencies.LastDepDecides | lib/dais.rb:65 | a key's binding is what its last `dep` resolved, `merged[key] \|\| value`, with the value computed from the bindings before it |
| Dependencies.DepBindingAt | lib/dais.rb:64-67 | a truthy merged argument of the dep's name wins; a missing, nil or false one yields the dep's own value, computed from the merged arguments and the earlier deps |
| Currying.Currier | lib/dais.rb:16-29 | complete maps build with the map and block handed on; incomplete maps with a block are rejected; incomplete maps without one become a partial holding the map |
| Currying.Partial.Apply | lib/dais.rb:19-21 | a partial proc runs the currier on `params.merge(params2)`: accumulated keys persist, the later value wins, defaults are not merged again; it builds iff that map is complete and refuses a block iff it is not |
| Currying.CurryStep | lib/dais.rb:31-36 | `curry`'s proc starts from the defaults: the map it builds from or keeps holds every default and every supplied key with its supplied value; it builds iff that map is complete |
| Currying.CurryIsPartialOfDefaults | lib/dais.rb:31-36 | `curry`'s proc behaves as a partial application holding just the defaults |
| Currying.FeedIsOneStep | lib/dais.rb:17-21 | feeding maps one by one to successive partials equals one step on their left-folded merge, while every intermediate map is incomplete |
| Currying.TwoStepCurry | lib/dais.rb:19-35 | `curry.call(p1).call(p2)` is `curry.call(p1.merge(p2))` when the first step is incomplete; defaults are not merged again |
| Construction.Instance.Expand | lib/dais.rb:47-53 | succeeds iff the instance answers every non-final argument; otherwise fails on the first one it does not answer, with a TypeError for a Hash and NoMethodError for an unbound name; on success maps each named parameter to its binding, overlaid by a trailing Hash |
| Construction.Bindings | lib/dais.rb:76-79 | the instance binds every key of `optional.merge(args)` and every dep key; a key no dep names keeps its argument, or else its default |
| Construction.Construct | lib/dais.rb:76-85 | construction raises iff some required entry is not a key of the arguments, with the class name and the missing list; otherwise the instance has the bindings above |
| Construction.Perform | lib/dais.rb:22-28 | a refused block raises, a pending step hands back the partial proc, and a build raises the missing-keyword error iff a required entry is not a key of the built map, otherwise returns the compute step on the bindings with the block |
| Construction.CallOutcome | lib/dais.rb:38-45 | `call` never curries; it raises iff a required entry is neither supplied nor defaulted; otherwise it returns the compute step on the bindings, with the block |
| Construction.CurrierNeverMissing | lib/dais.rb:16-28 | a currier step never raises `ArgumentError`; its only error is the block with incomplete arguments |
| Construction.CompleteStepIsCall | lib/dais.rb:22-45 | a complete `curry` step gives exactly what `call` gives for the same map and block, and succeeds |
| Construction.DuplicateRequiredQuirk | lib/dais.rb:12-45 | with a repeated required name, `curry` stays pending while `call` with the same map succeeds |
| Construction.NonFinalHashAlwaysRaises | lib/dais.rb:9-10 | a Hash that is not the last argument of `inputs` stays required, so `call` raises for every parameter map, naming that Hash among the missing entries |
| Construction.TwoStageEqualsDirect | lib/dais.rb:16-45 | completing a curried proc in a second stage equals one `call` with both stages' parameters merged |
| Construction.InstanceDepBinding | lib/dais.rb:64-79 | an instance's binding for a dep key is the truthy merged argument, or else the dep's own value computed from the earlier bindings |
| Commands.CommandType.constructor | lib/dais.rb:8-63 | a class after `inputs`: its split shape, deps and compute step, with `initialize_merged_args` and `dep_params` empty; `dep_params` holds only declared dep keys from then on |
| Commands.CommandType.New | lib/dais.rb:76-85 | records `optional.merge(args)` as the merged arguments, leaves `dep_params` equal to exactly this construction's dep bindings even when it then raises, and returns what `Construct` specifies |
| Commands.CommandType.BindParams | lib/dais.rb:77 | binding parameters one by one yields exactly the merged map |
| Commands.CommandType.RunDeps | lib/dais.rb:64-67 | running the deps in order writes exactly the dep bindings into `dep_params` and into the instance's bindings |
| Commands.CommandType.Run | lib/dais.rb:22-28 | only a build constructs, and so touches the shared state, which then holds the built map's merged arguments and dep bindings; the outcome is the specified one |
| Commands.CommandType.CurryCall | lib/dais.rb:31-36 | `curry`'s proc gives the specified outcome; an incomplete call changes nothing; a complete one records `optional.merge(params)` and that construction's dep bindings |
| Commands.CommandType.PartialCall | lib/dais.rb:19-21 | a partial proc gives the currier's outcome on the accumulated map merged with the new one; an incomplete call changes nothing; a complete one records that map (merged with the defaults) and that construction's dep bindings |
| Commands.CommandType.Call | lib/dais.rb:38-45 | `call` gives `CallOutcome` and leaves the merged arguments and exactly that construction's dep bindings in the class state |
| Commands.CommandType.GetDeps | lib/dais.rb:69-74 | the copy built key by key equals `dep_params` |
| Scenarios.NoDepsScenario | spec/unit/dais_spec.rb:18-24 | a class without deps reports no deps |
| Scenarios.GetDepsScenario | spec/unit/dais_spec.rb:58-104 | the declared dep, whichever callable it is, is reported by `get_deps` |
| Scenarios.GetDepsOverrideScenario | spec/unit/dais_spec.rb:63-84 | a callable passed in the call for the dep is reported instead of the declared one |
| Scenarios.ProductScenario | spec/unit/dais_spec.rb:108-115 | `call(one: 1)` with `two: 2` defaulted gives 2 |
| Scenarios.ClassDepScenario | spec/unit/dais_spec.rb:146-152 | with class B as the dep the result is 96 |
| Scenarios.ProcOverrideScenario | spec/unit/dais_spec.rb:154-162 | a proc passed in the call overrides the dep: 100 |
| Scenarios.CurriedOverrideScenario | spec/unit/dais_spec.rb:164-171 | a curried B passed in the call gives 2400 |
| Scenarios.CurriedDepScenario | spec/unit/dais_spec.rb:173-180 | a curried B declared as the dep gives 2400 |
| Scenarios.LazyDepScenario | spec/unit/dais_spec.rb:182-188 | a proc produced by the dep declaration gives 2 |
| Scenarios.DepFromInputScenario | spec/unit/dais_spec.rb:190-210 | a dep reading the parameter `one` gives 2 |
| Scenarios.DepFromDepScenario | spec/unit/dais_spec.rb:213-233 | a dep reading an earlier dep gives 8 |
| Scenarios.NilOverrideScenario | lib/dais.rb:65 | a nil override is ignored and the declared dep is used: 96 |
| Scenarios.MissingKeywordScenario | lib/dais.rb:76-85 | construction without `one` raises naming the class and `one`, yet the deps were recorded |
| Scenarios.SharedDepStateScenario | lib/dais.rb:62-74 | the deps reported are the latest construction's, because `dep_params` belongs to the class |
| Scenarios.CurryScenario | lib/dais.rb:16-36 | `curry.call({})` returns a partial holding the defaults, completing it with `one: 1` gives 2, and a block with incomplete arguments is refused |
| Scenarios.DuplicateRequiredScenario | lib/dais.rb:9-45 | with `inputs :one, :one`, `curry` stays pending while `call` gives 1 |
| Scenarios.DefaultSatisfiesRequiredScenario | lib/dais.rb:38-45 | with `inputs :one, one: 5`, `call` with no arguments gives 5, because the default satisfies the required name |

## Left out

- The Ruby metaprogramming that installs the engine is not modelled: `define_singleton_method`, `define_method`, `instance_variable_set`, and the generated private `attr_reader`s (lib/dais.rb:8, 55-60). The bound parameters are a map and an accessor is a lookup in it. `param` is the map update in `BindParams` and `RunDeps`.
- Accessors that an earlier instance of the same class defined are not modelled. In Ruby they stay on the class, so a later instance can answer a name it never bound, with `nil`. The model's `expand` only answers names the instance bound.
- `expand` sends the name of any instance method, not only a bound parameter. Only the parameter bindings are modelled, so any other name fails with `NoMethod`.
- The procs that `curry` and a partial step return take their map without a default (lib/dais.rb:19, 32), unlike `call`'s `params={}` (lib/dais.rb:38). Called with no argument they raise a TypeError from `merge(nil)`. The model's procs always receive a map, so that error is not modelled.
- The `included` hook and `require 'dais/version'` (lib/dais.rb:1-5) are load-time plumbing.
- Proc semantics (arity, `.call` dispatch) are not modelled. The class's compute step is a function of the bindings and the block. Callables passed around as values are opaque ids, which the example compute steps interpret.
- A dep's value is a total function of the bindings made so far. An error raised while computing it is not modelled, and neither is an error raised by the compute step.
- The declared dep value is computed even when an override wins, as in Ruby. Because the model has no side effects, that evaluation is invisible.
- The `NoMethodError` for a `dep` written outside the `inputs` block (spec/unit/dais_spec.rb:236-250) comes from Ruby method lookup. A dep is only an entry of the definition's list, so that situation cannot be expressed.
- The text of the `ArgumentError` message (lib/dais.rb:82) is left out. The error carries the class name and the missing list.
- Keyword keys are names only. Ruby would also accept other key objects in a Hash, which would never match a required symbol.
- Access to the shared class state from several threads is not modelled. Constructions run one after another.


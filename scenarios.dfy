/**
 * The examples of the project's unit tests, stated as verified methods on
 * command classes built with `inputs`: called, curried, and asked for their
 * deps.
 * Callables passed around as values are `Opaque` ids that the compute steps
 * below interpret.
 */
module Scenarios {
  import opened Values
  import opened Declaration
  import opened Dependencies
  import opened Currying
  import opened Construction
  import opened Commands

  function AsInt(v: Value): int {
    if v.Int? then v.i else 0
  }

  function Get(b: Params, k: Name): int {
    AsInt(Lookup(b, k))
  }

  function ResultOf(o: Outcome): Value {
    if o.Done? then o.value else Nil
  }

  /** The dependency class B: `inputs :three, four: 4`, computing `24 * three * four`. */
  function B(): Definition {
    Definition("B", Split([Sym("three"), Defaults(map["four" := Int(4)])]), [],
      (b: Params, blk: Option<Block>) => Int(24 * Get(b, "three") * Get(b, "four")))
  }

  /** `dep_one.call(args)` for the callables the examples pass around:
      1 is class B, 2 the proc `params[:three] * 100`, 3 the curried proc
      `B.curry.call(four: 100)`, 4 the proc `params[:three] * 2`. */
  function Invoke(callee: Value, args: Params): Value {
    match callee
    case Opaque(1) => ResultOf(CallOutcome(B(), args, None))
    case Opaque(2) => Int(Get(args, "three") * 100)
    case Opaque(3) => ResultOf(CurriedBOutcome(args))
    case Opaque(4) => Int(Get(args, "three") * 2)
    case _ => Nil
  }

  /** `B.curry.call(four: 100).call(args)`. */
  function CurriedBOutcome(args: Params): Outcome {
    match CurryStep(B().shape, map["four" := Int(100)], None)
    case Pending(q) => Perform(B(), q.Apply(B().shape, args, None))
    case s => Perform(B(), s)
  }

  /** The shape every test class declares: `inputs :one, two: 2`. */
  function OneTwo(): seq<Arg> {
    [Sym("one"), Defaults(map["two" := Int(2)])]
  }

  /** `dep_one.call(three: one)`, the compute step of the classes with a dep. */
  function CallDepOne(b: Params, blk: Option<Block>): Value {
    Invoke(Lookup(b, "dep_one"), map["three" := Lookup(b, "one")])
  }

  /** `one * two` */
  function Product(b: Params, blk: Option<Block>): Value {
    Int(Get(b, "one") * Get(b, "two"))
  }

  /** The class with `dep :dep_one, <callable>` and compute `dep_one.call(three: one)`. */
  function WithDep(callable: nat): Definition {
    Definition("A", Split(OneTwo()), [Dep("dep_one", (env: Params) => Opaque(callable))], CallDepOne)
  }

  method ClassWithDep(callable: nat) returns (k: CommandType)
    ensures fresh(k) && k.Valid()
    ensures k.def == WithDep(callable)
    ensures k.mergedArgs == map[] && k.depParams == map[]
  {
    k := new CommandType("A", OneTwo(), [Dep("dep_one", (env: Params) => Opaque(callable))], CallDepOne);
  }

  lemma OneTwoShape()
    ensures Split(OneTwo()) == Shape([Sym("one")], map["two" := Int(2)])
  {
    assert OneTwo()[..1] == [Sym("one")];
  }

  lemma NothingMissing(required: seq<Arg>, keys: set<Name>)
    requires required == [Sym("one")] && "one" in keys
    ensures Missing(required, keys) == []
  {
  }

  lemma BShape()
    ensures B().shape == Shape([Sym("three")], map["four" := Int(4)])
  {
    assert [Sym("three"), Defaults(map["four" := Int(4)])][..1] == [Sym("three")];
  }

  /** Building B with `three` and `four` at hand gives `24 * three * four`. */
  lemma BuildB(params: Params)
    requires "three" in params && "four" in params
    ensures Perform(B(), Build(params, None)) == Done(Int(24 * Get(params, "three") * Get(params, "four")))
  {
    BShape();
    assert Missing([Sym("three")], params.Keys) == [];
    var merged := Merge(map["four" := Int(4)], params);
    assert merged == params;
    assert DepBindings([], merged) == map[];
    assert Bindings(B(), params) == params;
  }

  /** Calling B with `three: v` gives `24 * v * 4`. */
  lemma CallB(v: Value)
    ensures CallOutcome(B(), map["three" := v], None) == Done(Int(24 * AsInt(v) * 4))
  {
    BShape();
    var params := map["three" := v, "four" := Int(4)];
    assert Merge(map["four" := Int(4)], map["three" := v]) == params;
    BuildB(params);
  }

  /** `B.curry.call(four: 100)` is incomplete: it holds `four: 100`. */
  lemma CurryB()
    ensures CurryStep(B().shape, map["four" := Int(100)], None) == Pending(Partial(map["four" := Int(100)]))
  {
    BShape();
    var acc := map["four" := Int(100)];
    assert Merge(map["four" := Int(4)], acc) == acc;
    assert Hits([Sym("three")], acc) == {};
  }

  /** Completing it with `three: v` builds B with both. */
  lemma CompleteCurriedB(v: Value)
    ensures Partial(map["four" := Int(100)]).Apply(B().shape, map["three" := v], None)
            == Build(map["four" := Int(100), "three" := v], None)
  {
    BShape();
    var params := map["four" := Int(100), "three" := v];
    assert Merge(map["four" := Int(100)], map["three" := v]) == params;
    assert Hits([Sym("three")], params) == {Sym("three")};
  }

  /** The curried B completed with `three: v` gives `24 * v * 100`. */
  lemma CurriedB(v: Value)
    ensures Invoke(Opaque(3), map["three" := v]) == Int(24 * AsInt(v) * 100)
  {
    CurryB();
    CompleteCurriedB(v);
    BuildB(map["four" := Int(100), "three" := v]);
  }

  /** The dep of `WithDep(c)`: a truthy `dep_one` argument, else the callable. */
  lemma WithDepBindings(c: nat, args: Params)
    ensures var merged := Merge(WithDep(c).shape.optional, args);
      DepBindings(WithDep(c).deps, merged) == map["dep_one" := Or(Lookup(args, "dep_one"), Opaque(c))]
  {
    OneTwoShape();
    var deps := WithDep(c).deps;
    assert deps[..0] == [];
  }

  /** `call(args)` on a class declaring `inputs :one, two: 2`, with `one`
      supplied: the compute step on the merged arguments and the deps. */
  lemma CallOneTwo(def: Definition, args: Params)
    requires def.shape == Split(OneTwo())
    requires "one" in args
    ensures var merged := Merge(map["two" := Int(2)], args);
      CallOutcome(def, args, None) == Done(def.compute(Merge(merged, DepBindings(def.deps, merged)), None))
  {
    OneTwoShape();
    var merged := Merge(def.shape.optional, args);
    NothingMissing(def.shape.required, merged.Keys);
    assert Merge(def.shape.optional, merged) == merged;
  }

  /** `call(args)` on `WithDep(c)` with `one` supplied invokes the resolved dep with `three: one`. */
  lemma CallWithDep(c: nat, args: Params)
    requires "one" in args
    ensures CallOutcome(WithDep(c), args, None)
            == Done(Invoke(Or(Lookup(args, "dep_one"), Opaque(c)), map["three" := args["one"]]))
  {
    OneTwoShape();
    var merged := Merge(map["two" := Int(2)], args);
    CallOneTwo(WithDep(c), args);
    WithDepBindings(c, merged);
    var b := Merge(merged, map["dep_one" := Or(Lookup(args, "dep_one"), Opaque(c))]);
    assert Lookup(b, "one") == args["one"] && Lookup(b, "dep_one") == Or(Lookup(args, "dep_one"), Opaque(c));
  }

  /** `new({})` on `WithDep(c)` reports `one` missing. */
  lemma NoArgumentsMissOne(c: nat)
    ensures Construct(WithDep(c), map[]) == Err(MissingKeywords("A", [Sym("one")]))
  {
    OneTwoShape();
    assert [Sym("one")][..0] == [];
    assert Missing([Sym("one")], {}) == [Sym("one")];
  }

  /** `Invoke` on the two procs. */
  lemma InvokeProcs(args: Params)
    ensures Invoke(Opaque(2), args) == Int(Get(args, "three") * 100)
    ensures Invoke(Opaque(4), args) == Int(Get(args, "three") * 2)
  {
  }

  function ReadOne(env: Params): Value {
    Lookup(env, "one")
  }

  function Two(env: Params): Value {
    Int(2)
  }

  function ReadDepOne(env: Params): Value {
    Lookup(env, "dep_one")
  }

  /** The class with `dep :dep_one, one`, computing `dep_one * 2`. */
  function DepOnInput(): Definition {
    Definition("A", Split(OneTwo()), [Dep("dep_one", ReadOne)], DoubleDep)
  }

  /** `dep_one * 2` */
  function DoubleDep(b: Params, blk: Option<Block>): Value {
    Int(Get(b, "dep_one") * 2)
  }

  /** The class with `dep :dep_one, 2` and `dep :dep_two, dep_one`,
      computing `dep_one * dep_two * 2`. */
  function DepChain(): Definition {
    Definition("A", Split(OneTwo()), [Dep("dep_one", Two), Dep("dep_two", ReadDepOne)], DepsProduct)
  }

  /** `dep_one * dep_two * 2` */
  function DepsProduct(b: Params, blk: Option<Block>): Value {
    Int(Get(b, "dep_one") * Get(b, "dep_two") * 2)
  }

  lemma DoubleDepOnInput(args: Params)
    requires "one" in args && args["one"] == Int(1) && "dep_one" !in args
    ensures var merged := Merge(map["two" := Int(2)], args);
      DoubleDep(Merge(merged, DepBindings(DepOnInput().deps, merged)), None) == Int(2)
  {
    var deps := DepOnInput().deps;
    var merged := Merge(map["two" := Int(2)], args);
    DepBindingsSnoc(deps, merged, 0);
    assert deps[..0] == [] && deps[..1] == deps;
    assert DepBindings(deps, merged)["dep_one"] == Int(1);
  }

  lemma CallDepOnInput()
    ensures CallOutcome(DepOnInput(), map["one" := Int(1)], None) == Done(Int(2))
  {
    CallOneTwo(DepOnInput(), map["one" := Int(1)]);
    DoubleDepOnInput(map["one" := Int(1)]);
  }

  lemma DepChainBindings(merged: Params)
    requires "dep_one" !in merged && "dep_two" !in merged
    ensures var b := DepBindings(DepChain().deps, merged);
      "dep_one" in b && b["dep_one"] == Int(2) && "dep_two" in b && b["dep_two"] == Int(2)
  {
    var deps := DepChain().deps;
    DepBindingsSnoc(deps, merged, 0);
    DepBindingsSnoc(deps, merged, 1);
    assert deps[..0] == [] && deps[..2] == deps;
    var first := DepBindings(deps[..1], merged);
    assert first["dep_one"] == Int(2);
    assert Lookup(Merge(merged, first), "dep_one") == Int(2);
  }

  lemma ChainProduct(args: Params)
    requires "dep_one" !in args && "dep_two" !in args
    ensures var merged := Merge(map["two" := Int(2)], args);
      DepsProduct(Merge(merged, DepBindings(DepChain().deps, merged)), None) == Int(8)
  {
    var merged := Merge(map["two" := Int(2)], args);
    DepChainBindings(merged);
  }

  lemma CallDepChain()
    ensures CallOutcome(DepChain(), map["one" := Int(1)], None) == Done(Int(8))
  {
    CallOneTwo(DepChain(), map["one" := Int(1)]);
    ChainProduct(map["one" := Int(1)]);
  }

  /** The class `inputs :one, two: 2` computing `one * two`. */
  function ProductClass(): Definition {
    Definition("A", Split(OneTwo()), [], Product)
  }

  /** The currier of `ProductClass`: incomplete without `one`, complete with it. */
  lemma CurryProductShape()
    ensures CurryStep(ProductClass().shape, map[], None) == Pending(Partial(map["two" := Int(2)]))
    ensures CurryStep(ProductClass().shape, map[], Some(Block(0))) == Rejected
    ensures Partial(map["two" := Int(2)]).Apply(ProductClass().shape, map["one" := Int(1)], None)
            == Build(map["two" := Int(2), "one" := Int(1)], None)
  {
    OneTwoShape();
    var acc := map["two" := Int(2), "one" := Int(1)];
    assert Merge(map["two" := Int(2)], map["one" := Int(1)]) == acc;
    assert Hits([Sym("one")], acc) == {Sym("one")};
    assert Hits([Sym("one")], map["two" := Int(2)]) == {};
  }

  lemma BuildProduct()
    ensures Perform(ProductClass(), Build(map["two" := Int(2), "one" := Int(1)], None)) == Done(Int(2))
  {
    OneTwoShape();
    var merged := map["two" := Int(2), "one" := Int(1)];
    NothingMissing([Sym("one")], merged.Keys);
    assert Merge(map["two" := Int(2)], merged) == merged;
    assert DepBindings([], merged) == map[];
    assert Bindings(ProductClass(), merged) == merged;
  }

  lemma CurryProductSteps()
    ensures Perform(ProductClass(), CurryStep(ProductClass().shape, map[], None)) == More(Partial(map["two" := Int(2)]))
    ensures Perform(ProductClass(), CurryStep(ProductClass().shape, map[], Some(Block(0)))) == Raised(BlockWithIncompleteArgs)
    ensures Perform(ProductClass(), Partial(map["two" := Int(2)]).Apply(ProductClass().shape, map["one" := Int(1)], None))
            == Done(Int(2))
  {
    CurryProductShape();
    BuildProduct();
  }

  /** `call(one: 1)` with `two: 2` defaulted gives 2. */
  method ProductScenario() returns (o: Outcome)
    ensures o == Done(Int(2))
  {
    var k := new CommandType("A", OneTwo(), [], Product);
    o := k.Call(map["one" := Int(1)], None);
  }

  /** With `dep :dep_one, B`, `call(one: 1)` gives 24 * 1 * 4. */
  method ClassDepScenario() returns (o: Outcome)
    ensures o == Done(Int(96))
  {
    var k := ClassWithDep(1);
    o := k.Call(map["one" := Int(1)], None);
    CallWithDep(1, map["one" := Int(1)]);
    CallB(Int(1));
  }

  /** A proc passed in the call for `dep_one` overrides the declared dep. */
  method ProcOverrideScenario() returns (o: Outcome)
    ensures o == Done(Int(100))
  {
    var k := ClassWithDep(1);
    o := k.Call(map["one" := Int(1), "dep_one" := Opaque(2)], None);
    CallWithDep(1, map["one" := Int(1), "dep_one" := Opaque(2)]);
    InvokeProcs(map["three" := Int(1)]);
  }

  /** A curried B passed in the call completes with `three: one`: 24 * 1 * 100. */
  method CurriedOverrideScenario() returns (o: Outcome)
    ensures o == Done(Int(2400))
  {
    var k := ClassWithDep(1);
    o := k.Call(map["one" := Int(1), "dep_one" := Opaque(3)], None);
    CallWithDep(1, map["one" := Int(1), "dep_one" := Opaque(3)]);
    CurriedB(Int(1));
  }

  /** A curried B declared as the dep gives the same 2400. */
  method CurriedDepScenario() returns (o: Outcome)
    ensures o == Done(Int(2400))
  {
    var k := ClassWithDep(3);
    o := k.Call(map["one" := Int(1)], None);
    CallWithDep(3, map["one" := Int(1)]);
    CurriedB(Int(1));
  }

  /** A proc produced lazily by the dep declaration: `params[:three] * 2`. */
  method LazyDepScenario() returns (o: Outcome)
    ensures o == Done(Int(2))
  {
    var k := ClassWithDep(4);
    o := k.Call(map["one" := Int(1)], None);
    CallWithDep(4, map["one" := Int(1)]);
    InvokeProcs(map["three" := Int(1)]);
  }

  /** A nil override is ignored by `||`: the declared dep B is used. */
  method NilOverrideScenario() returns (o: Outcome)
    ensures o == Done(Int(96))
  {
    var k := ClassWithDep(1);
    o := k.Call(map["one" := Int(1), "dep_one" := Nil], None);
    CallWithDep(1, map["one" := Int(1), "dep_one" := Nil]);
    CallB(Int(1));
  }

  /** `dep :dep_one, one` reads a parameter: `dep_one * 2` gives 2. */
  method DepFromInputScenario() returns (o: Outcome)
    ensures o == Done(Int(2))
  {
    var k := new CommandType("A", OneTwo(), DepOnInput().deps, DepOnInput().compute);
    OneTwoShape();
    o := k.Call(map["one" := Int(1)], None);
    CallDepOnInput();
  }

  /** `dep :dep_one, 2; dep :dep_two, dep_one` reads the earlier dep:
      `dep_one * dep_two * 2` gives 8. */
  method DepFromDepScenario() returns (o: Outcome)
    ensures o == Done(Int(8))
  {
    var k := new CommandType("A", OneTwo(), DepChain().deps, DepChain().compute);
    OneTwoShape();
    o := k.Call(map["one" := Int(1)], None);
    CallDepChain();
  }

  /** `get_deps` of a class without deps is empty. */
  method NoDepsScenario() returns (d: Params)
    ensures d == map[]
  {
    var k := new CommandType("A", OneTwo(), [], Product);
    var r := k.New(map["one" := Int(1)]);
    d := k.GetDeps();
  }

  /** `get_deps` reports the declared dep, whichever callable it is (class
      B, the curried B, or a lazily produced proc). */
  method GetDepsScenario(c: nat) returns (d: Params)
    ensures d == map["dep_one" := Opaque(c)]
  {
    var k := ClassWithDep(c);
    var r := k.New(map["one" := Int(1)]);
    WithDepBindings(c, map["one" := Int(1)]);
    d := k.GetDeps();
  }

  /** `get_deps` reports a callable passed in the call for `dep_one` (a proc
      or a curried B) instead of the declared B. */
  method GetDepsOverrideScenario(c: nat) returns (d: Params)
    ensures d == map["dep_one" := Opaque(c)]
  {
    var k := ClassWithDep(1);
    var r := k.New(map["one" := Int(1), "dep_one" := Opaque(c)]);
    WithDepBindings(1, map["one" := Int(1), "dep_one" := Opaque(c)]);
    d := k.GetDeps();
  }

  /** Construction without `one` raises, naming the class and `one`, but the
      deps ran first, so `dep_params` was still written. */
  method MissingKeywordScenario() returns (r: Result<Instance, Error>, d: Params)
    ensures r == Err(MissingKeywords("A", [Sym("one")]))
    ensures d == map["dep_one" := Opaque(1)]
  {
    var k := ClassWithDep(1);
    r := k.New(map[]);
    WithDepBindings(1, map[]);
    NoArgumentsMissOne(1);
    d := k.GetDeps();
  }

  /** `dep_params` belongs to the class: after a second construction, the
      deps reported are the second construction's, whichever instance asks. */
  method SharedDepStateScenario() returns (d: Params)
    ensures d == map["dep_one" := Opaque(2)]
  {
    var k := ClassWithDep(1);
    var first := k.New(map["one" := Int(1)]);
    var second := k.New(map["one" := Int(1), "dep_one" := Opaque(2)]);
    WithDepBindings(1, map["one" := Int(1), "dep_one" := Opaque(2)]);
    d := k.GetDeps();
  }

  /** Currying: `curry.call({})` is incomplete and returns a proc; calling it
      with `one: 1` runs the command. A block with incomplete arguments is
      refused. */
  method CurryScenario() returns (first: Outcome, second: Outcome, withBlock: Outcome)
    ensures first == More(Partial(map["two" := Int(2)]))
    ensures second == Done(Int(2))
    ensures withBlock == Raised(BlockWithIncompleteArgs)
  {
    var k := new CommandType("A", OneTwo(), [], Product);
    CurryProductSteps();
    first := k.CurryCall(map[], None);
    second := k.PartialCall(Partial(map["two" := Int(2)]), map["one" := Int(1)], None);
    withBlock := k.CurryCall(map[], Some(Block(0)));
  }

  /** `inputs :one, :one`: curry never completes, while call runs. */
  method DuplicateRequiredScenario() returns (curried: Outcome, called: Outcome)
    ensures curried.More?
    ensures called == Done(Int(1))
  {
    var k := new CommandType("A", [Sym("one"), Sym("one")], [], (b: Params, blk: Option<Block>) => Lookup(b, "one"));
    var required := k.def.shape.required;
    assert required == [Sym("one"), Sym("one")] && required[0] == required[1];
    curried := k.CurryCall(map["one" := Int(1)], None);
    called := k.Call(map["one" := Int(1)], None);
  }

  /** A default for a required name satisfies it: `call` merges the defaults
      before constructing, so `inputs :one, one: 5` runs with no arguments. */
  method DefaultSatisfiesRequiredScenario() returns (o: Outcome)
    ensures o == Done(Int(5))
  {
    var k := new CommandType("A", [Sym("one"), Defaults(map["one" := Int(5)])], [],
      (b: Params, blk: Option<Block>) => Lookup(b, "one"));
    o := k.Call(map[], None);
  }
}

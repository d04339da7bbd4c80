/**
 * What constructing a command (`initialize`) and running it produce, as
 * functions of the class definition and the arguments: the bindings of the
 * new instance, the missing-keyword error, and the outcome of a currier step
 * or of `call`. The instance helper `expand` is here too.
 */
module Construction {
  import opened Values
  import opened Declaration
  import opened Dependencies
  import opened Currying

  /** A command class: the name it reports in errors, the shape `inputs`
      declared, the `dep` calls of the `inputs` block in order, and the
      class's own `call` method (the compute step), which reads the bound
      parameters and may take a block. */
  datatype Definition = Definition(
    name: string,
    shape: Shape,
    deps: seq<DepSpec>,
    compute: (Params, Option<Block>) -> Value)

  datatype Error =
    | BlockWithIncompleteArgs                           // the currier's RuntimeError
    | MissingKeywords(klass: string, missing: seq<Arg>) // the ArgumentError of `initialize`
    | NoMethod(arg: Arg)                                // `send` of a name the instance does not answer
    | NotASymbol(arg: Arg)                              // the TypeError of `send` given a Hash

  /** What a call of a curried proc, `curry`'s proc or `call` gives back. */
  datatype Outcome = Done(value: Value) | More(next: Partial) | Raised(error: Error)

  /** A constructed command: its bound parameters, one per accessor. */
  datatype Instance = Instance(bindings: Params) {

    /** The instance answers `send(a)` when `a` names a bound parameter. */
    predicate Answers(a: Arg) {
      a.Sym? && a.name in bindings
    }

    /** `expand(*args)`: a Hash from each named parameter to its bound value,
        merged with a trailing Hash argument if there is one. The first
        entry the instance does not answer raises: a Hash that is not the
        last argument with a TypeError, an unbound name with NoMethodError. */
    method Expand(args: seq<Arg>) returns (r: Result<Params, Error>)
      ensures r.Ok? <==> forall i :: 0 <= i < |Split(args).required| ==> Answers(Split(args).required[i])
      ensures r.Err? ==> exists i :: 0 <= i < |Split(args).required|
                          && r.error == SendError(Split(args).required[i])
                          && !Answers(Split(args).required[i])
                          && forall j :: 0 <= j < i ==> Answers(Split(args).required[j])
      ensures r.Ok? ==> r.value.Keys == SymNames(Split(args).required) + Split(args).optional.Keys
      ensures r.Ok? ==> forall k :: k in Split(args).optional ==> r.value[k] == Split(args).optional[k]
      ensures r.Ok? ==> forall k :: k in r.value && k !in Split(args).optional ==> r.value[k] == bindings[k]
    {
      var names, extra := Split(args).required, Split(args).optional;
      var hash: Params := map[];
      var i := 0;
      while i < |names|
        invariant 0 <= i <= |names|
        invariant forall j :: 0 <= j < i ==> Answers(names[j])
        invariant hash.Keys == set j | 0 <= j < i :: names[j].name
        invariant forall k :: k in hash ==> k in bindings && hash[k] == bindings[k]
      {
        var a := names[i];
        if a.Defaults? {
          return Err(NotASymbol(a));
        }
        if a.name !in bindings {
          return Err(NoMethod(a));
        }
        hash := hash[a.name := bindings[a.name]];
        i := i + 1;
      }
      r := Ok(Merge(hash, extra));
    }
  }

  /** What `send(a)` raises when the instance does not answer `a`. */
  function SendError(a: Arg): Error {
    if a.Sym? then NoMethod(a) else NotASymbol(a)
  }

  /** The names of the symbols in a sequence of arguments. */
  function SymNames(args: seq<Arg>): set<Name> {
    set i | 0 <= i < |args| && args[i].Sym? :: args[i].name
  }

  /** The parameters `initialize` binds: every key of `optional.merge(args)`
      and every dep key, the deps overwriting parameters of the same name. */
  function Bindings(def: Definition, args: Params): (b: Params)
    ensures b.Keys == Merge(def.shape.optional, args).Keys + DepKeys(def.deps)
    ensures forall k :: k in args && k !in DepKeys(def.deps) ==> b[k] == args[k]
    ensures forall k :: k in def.shape.optional && k !in args && k !in DepKeys(def.deps) ==>
              b[k] == def.shape.optional[k]
  {
    var merged := Merge(def.shape.optional, args);
    DepBindingsKeys(def.deps, merged);
    Merge(merged, DepBindings(def.deps, merged))
  }

  /** `new(args)`: an instance with its bindings, unless some required entry
      is not a key of `args`; then the ArgumentError names the class and
      the missing entries. */
  function Construct(def: Definition, args: Params): (r: Result<Instance, Error>)
    ensures r.Err? <==> exists a :: a in def.shape.required && !Supplied(a, args.Keys)
    ensures r.Err? ==> r.error == MissingKeywords(def.name, Missing(def.shape.required, args.Keys))
    ensures r.Ok? ==> r.value.bindings == Bindings(def, args)
  {
    var missing := Missing(def.shape.required, args.Keys);
    if missing != [] then Err(MissingKeywords(def.name, missing))
    else Ok(Instance(Bindings(def, args)))
  }

  /** Carrying out a currier step: a refused block raises, a partial
      application is handed back, and a build constructs the instance and
      runs the compute step on its bindings, or raises the missing-keyword
      error when a required entry is not a key of the built map. */
  function Perform(def: Definition, s: Step): (o: Outcome)
    ensures s.Rejected? ==> o == Raised(BlockWithIncompleteArgs)
    ensures s.Pending? ==> o == More(s.next)
    ensures s.Build? ==> (o.Raised? <==> exists a :: a in def.shape.required && !Supplied(a, s.params.Keys))
    ensures s.Build? && o.Raised? ==>
              o.error == MissingKeywords(def.name, Missing(def.shape.required, s.params.Keys))
    ensures s.Build? && o.Done? ==> o.value == def.compute(Bindings(def, s.params), s.block)
  {
    match s
    case Rejected => Raised(BlockWithIncompleteArgs)
    case Pending(q) => More(q)
    case Build(params, block) =>
      match Construct(def, params)
      case Err(e) => Raised(e)
      case Ok(inst) => Done(def.compute(inst.bindings, block))
  }

  /** `call(params, &block)`: one merge with the defaults and a construction,
      with no completeness check. It raises exactly when a required entry is
      neither supplied nor defaulted; otherwise it runs the compute step on
      the bindings, handing on the block. */
  function CallOutcome(def: Definition, params: Params, block: Option<Block>): (o: Outcome)
    ensures !o.More?
    ensures o.Raised? <==>
              exists a :: a in def.shape.required && !Supplied(a, Merge(def.shape.optional, params).Keys)
    ensures o.Raised? ==>
              o.error == MissingKeywords(def.name, Missing(def.shape.required, Merge(def.shape.optional, params).Keys))
    ensures o.Done? ==> o.value == def.compute(Bindings(def, Merge(def.shape.optional, params)), block)
  {
    Perform(def, Build(Merge(def.shape.optional, params), block))
  }

  /** A currier step never raises the missing-keyword error: when it builds,
      every required entry is present. Its only error is a block given with
      incomplete arguments. */
  lemma CurrierNeverMissing(def: Definition, params: Params, block: Option<Block>)
    ensures var o := Perform(def, Currier(def.shape, params, block));
      o.Raised? ==> o.error == BlockWithIncompleteArgs
  {
    if !Incomplete(def.shape.required, params) {
      CompleteHasNoMissing(def.shape.required, params);
    }
  }

  /** A complete step builds exactly what `call` would, with the same block. */
  lemma CompleteStepIsCall(def: Definition, params: Params, block: Option<Block>)
    requires !Incomplete(def.shape.required, Merge(def.shape.optional, params))
    ensures Perform(def, CurryStep(def.shape, params, block)) == CallOutcome(def, params, block)
    ensures CallOutcome(def, params, block).Done?
  {
    CompleteHasNoMissing(def.shape.required, Merge(def.shape.optional, params));
  }

  /** With a required name declared twice, `curry` never completes while
      `call` with the same parameters succeeds. */
  lemma DuplicateRequiredQuirk(def: Definition, params: Params)
    requires !Distinct(def.shape.required)
    requires forall a :: a in def.shape.required ==> Supplied(a, Merge(def.shape.optional, params).Keys)
    ensures CurryStep(def.shape, params, None).Pending?
    ensures CallOutcome(def, params, None).Done?
  {
  }

  /** A Hash that is not the last argument of `inputs` stays in `required`,
      and no key ever supplies it: `call` raises the missing-keyword error,
      naming it, whatever the parameters. */
  lemma NonFinalHashAlwaysRaises(def: Definition, params: Params, block: Option<Block>, h: Params)
    requires Defaults(h) in def.shape.required
    ensures CallOutcome(def, params, block).Raised?
    ensures Defaults(h) in CallOutcome(def, params, block).error.missing
  {
    assert !Supplied(Defaults(h), Merge(def.shape.optional, params).Keys);
  }

  /** Completing a curried proc in a second stage gives the same result as
      calling the command once with the union of both stages' parameters. */
  lemma TwoStageEqualsDirect(def: Definition, p1: Params, p2: Params, block: Option<Block>)
    requires CurryStep(def.shape, p1, None).Pending?
    requires !Incomplete(def.shape.required, Merge(def.shape.optional, Merge(p1, p2)))
    ensures Perform(def, CurryStep(def.shape, p1, None).next.Apply(def.shape, p2, block))
            == CallOutcome(def, Merge(p1, p2), block)
  {
    TwoStepCurry(def.shape, p1, p2, block);
    CompleteStepIsCall(def, Merge(p1, p2), block);
  }

  /** The instance binding of a dep key is decided by its last `dep`: the
      merged argument of that name when it is truthy, otherwise the declared
      value computed from the bindings made before it. */
  lemma InstanceDepBinding(def: Definition, args: Params, i: nat)
    requires i < |def.deps|
    requires forall j :: i < j < |def.deps| ==> def.deps[j].key != def.deps[i].key
    ensures var merged, k := Merge(def.shape.optional, args), def.deps[i].key;
      k in Bindings(def, args)
      && (Truthy(Lookup(merged, k)) ==> Bindings(def, args)[k] == merged[k])
      && (!Truthy(Lookup(merged, k)) ==>
            Bindings(def, args)[k] == def.deps[i].producer(EnvBefore(def.deps, merged, i)))
  {
    DepBindingAt(def.deps, Merge(def.shape.optional, args), i);
  }
}

/**
 * A command class after `inputs` has run on it. Besides its definition it
 * holds the two locals of the `inputs` call that every instance shares:
 * `initialize_merged_args`, reassigned by each construction, and
 * `dep_params`, written by each `dep` and never reset.
 */
module Commands {
  import opened Values
  import opened Declaration
  import opened Dependencies
  import opened Currying
  import opened Construction

  class CommandType {
    const def: Definition
    var mergedArgs: Params   // `initialize_merged_args`
    var depParams: Params    // `dep_params`

    /** `dep_params` only ever holds keys that some `dep` declares. */
    predicate Valid()
      reads this
    {
      depParams.Keys <= DepKeys(def.deps)
    }

    /** `inputs(*args) { deps }` on a class whose `call` is `compute`. */
    constructor (name: string, args: seq<Arg>, deps: seq<DepSpec>, compute: (Params, Option<Block>) -> Value)
      ensures Valid()
      ensures def == Definition(name, Split(args), deps, compute)
      ensures mergedArgs == map[] && depParams == map[]
    {
      def := Definition(name, Split(args), deps, compute);
      mergedArgs := map[];
      depParams := map[];
    }

    /** `new(args)`, that is `initialize`: bind every merged parameter, record
        the merged arguments, run the deps in order, then check for missing
        keywords. The deps have run, and `dep_params` is updated, even when
        the check then raises. Every declared dep runs again, so `dep_params`
        then holds exactly this construction's dep bindings. */
    method New(args: Params) returns (r: Result<Instance, Error>)
      requires Valid()
      modifies this
      ensures Valid()
      ensures mergedArgs == Merge(def.shape.optional, args)
      ensures depParams == DepBindings(def.deps, Merge(def.shape.optional, args))
      ensures r == Construct(def, args)
    {
      var merged := Merge(def.shape.optional, args);
      var bindings := BindParams(merged);
      mergedArgs := merged;
      bindings := RunDeps(bindings);
      DepBindingsAbsorb(old(depParams), def.deps, merged);
      DepBindingsKeys(def.deps, merged);
      var missing := Missing(def.shape.required, args.Keys);
      if missing != [] {
        r := Err(MissingKeywords(def.name, missing));
      } else {
        r := Ok(Instance(bindings));
      }
    }

    /** `optional.merge(initialize_args).each { |key, value| param(key, value) }`:
        one binding per merged parameter. */
    method BindParams(merged: Params) returns (bindings: Params)
      ensures bindings == merged
    {
      bindings := map[];
      var rest := merged.Keys;
      while rest != {}
        invariant rest <= merged.Keys
        invariant bindings == map k | k in merged.Keys - rest :: merged[k]
        decreases rest
      {
        var k :| k in rest;
        bindings := bindings[k := merged[k]];
        rest := rest - {k};
      }
    }

    /** The `inputs` block under `instance_eval`: each `dep` in order writes
        `initialize_merged_args[key] || value` into `dep_params` and binds it. */
    method RunDeps(bindings: Params) returns (bound: Params)
      requires bindings == mergedArgs
      modifies this`depParams
      ensures bound == Merge(mergedArgs, DepBindings(def.deps, mergedArgs))
      ensures depParams == Merge(old(depParams), DepBindings(def.deps, mergedArgs))
    {
      var deps, merged := def.deps, mergedArgs;
      bound := bindings;
      var i := 0;
      while i < |deps|
        invariant 0 <= i <= |deps|
        invariant bound == Merge(merged, DepBindings(deps[..i], merged))
        invariant depParams == Merge(old(depParams), DepBindings(deps[..i], merged))
      {
        var d := deps[i];
        ghost var acc := DepBindings(deps[..i], merged);
        DepBindingsSnoc(deps, merged, i);
        var v := Or(Lookup(merged, d.key), d.producer(bound));
        MergeUpdate(old(depParams), acc, d.key, v);
        MergeUpdate(merged, acc, d.key, v);
        depParams := depParams[d.key := v];
        bound := bound[d.key := v];
        i := i + 1;
      }
      assert deps[..i] == deps;
    }

    /** Carry out a currier step: only a build constructs an instance (and
        so touches the shared state); its outcome is the compute step's
        result on the instance, with the block handed on. */
    method Run(s: Step) returns (o: Outcome)
      requires Valid()
      modifies this
      ensures Valid()
      ensures o == Perform(def, s)
      ensures s.Build? ==> mergedArgs == Merge(def.shape.optional, s.params)
      ensures s.Build? ==> depParams == DepBindings(def.deps, Merge(def.shape.optional, s.params))
      ensures !s.Build? ==> unchanged(this)
    {
      match s
      case Rejected =>
        o := Raised(BlockWithIncompleteArgs);
      case Pending(q) =>
        o := More(q);
      case Build(params, block) =>
        var r := New(params);
        match r
        case Err(e) =>
          o := Raised(e);
        case Ok(inst) =>
          o := Done(def.compute(inst.bindings, block));
    }

    /** Calling the proc that `curry` returns. */
    method CurryCall(params: Params, block: Option<Block>) returns (o: Outcome)
      requires Valid()
      modifies this
      ensures Valid()
      ensures o == Perform(def, CurryStep(def.shape, params, block))
      ensures !Incomplete(def.shape.required, Merge(def.shape.optional, params)) ==>
                mergedArgs == Merge(def.shape.optional, params)
                && depParams == DepBindings(def.deps, Merge(def.shape.optional, params))
      ensures Incomplete(def.shape.required, Merge(def.shape.optional, params)) ==> unchanged(this)
    {
      o := Run(CurryStep(def.shape, params, block));
    }

    /** Calling a proc returned by an incomplete step of this class's currier. */
    method PartialCall(q: Partial, params: Params, block: Option<Block>) returns (o: Outcome)
      requires Valid()
      modifies this
      ensures Valid()
      ensures o == Perform(def, q.Apply(def.shape, params, block))
      ensures !Incomplete(def.shape.required, Merge(q.acc, params)) ==>
                mergedArgs == Merge(def.shape.optional, Merge(q.acc, params))
                && depParams == DepBindings(def.deps, Merge(def.shape.optional, Merge(q.acc, params)))
      ensures Incomplete(def.shape.required, Merge(q.acc, params)) ==> unchanged(this)
    {
      o := Run(q.Apply(def.shape, params, block));
    }

    /** `call(params, &block)`: always constructs, never curries. */
    method Call(params: Params, block: Option<Block>) returns (o: Outcome)
      requires Valid()
      modifies this
      ensures Valid()
      ensures o == CallOutcome(def, params, block)
      ensures mergedArgs == Merge(def.shape.optional, params)
      ensures depParams == DepBindings(def.deps, Merge(def.shape.optional, params))
    {
      o := Run(Build(Merge(def.shape.optional, params), block));
    }

    /** `get_deps`: a copy of the class-wide `dep_params`, built key by key. */
    method GetDeps() returns (m: Params)
      ensures m == depParams
    {
      m := map[];
      var rest := depParams.Keys;
      while rest != {}
        invariant rest <= depParams.Keys
        invariant m == map k | k in depParams.Keys - rest :: depParams[k]
        decreases rest
      {
        var k :| k in rest;
        m := m[k := depParams[k]];
        rest := rest - {k};
      }
    }
  }
}

/**
 * The `dep` declarations of an `inputs` block. Construction evaluates them
 * in declaration order; each binds its key to the merged construction
 * argument of that name when that argument is truthy, and to the declared
 * value otherwise, and records the binding in the class-wide `dep_params`.
 */
module Dependencies {
  import opened Values

  /** `dep key, value`: the value is computed from the bindings made so far
      (the instance's parameters and the earlier deps). */
  datatype DepSpec = Dep(key: Name, producer: Params -> Value)

  function DepKeys(deps: seq<DepSpec>): set<Name> {
    set i | 0 <= i < |deps| :: deps[i].key
  }

  /** One `dep`: `initialize_merged_args[key] || value`. */
  function Resolve(d: DepSpec, merged: Params, env: Params): (v: Value)
    ensures Truthy(Lookup(merged, d.key)) ==> d.key in merged && v == merged[d.key]
    ensures !Truthy(Lookup(merged, d.key)) ==> v == d.producer(env)
  {
    Or(Lookup(merged, d.key), d.producer(env))
  }

  /** The bindings written into `dep_params` by running `deps` in order
      against the merged arguments; each dep reads the merged arguments
      overlaid with the deps before it. A later dep with the same key wins. */
  function DepBindings(deps: seq<DepSpec>, merged: Params): (b: Params)
    ensures forall i :: 0 <= i < |deps| ==> deps[i].key in b
    decreases |deps|
  {
    if deps == [] then map[]
    else DepStep(DepBindings(deps[..|deps| - 1], merged), deps[|deps| - 1], merged)
  }

  /** Exactly the declared dep keys are bound. */
  lemma {:induction false} DepBindingsKeys(deps: seq<DepSpec>, merged: Params)
    ensures DepBindings(deps, merged).Keys == DepKeys(deps)
  {
    if deps != [] {
      DepBindingsKeys(deps[..|deps| - 1], merged);
      DepKeysLast(deps);
    }
  }

  /** `dep_params[key] = ...` for one dep, given the bindings before it. */
  function DepStep(acc: Params, d: DepSpec, merged: Params): (r: Params)
    ensures r.Keys == acc.Keys + {d.key}
    ensures r[d.key] == Resolve(d, merged, Merge(merged, acc))
    ensures forall k :: k in acc && k != d.key ==> r[k] == acc[k]
  {
    acc[d.key := Resolve(d, merged, Merge(merged, acc))]
  }

  lemma DepKeysLast(deps: seq<DepSpec>)
    requires deps != []
    ensures DepKeys(deps) == DepKeys(deps[..|deps| - 1]) + {deps[|deps| - 1].key}
  {
    var i := |deps| - 1;
    forall k | k in DepKeys(deps) ensures k in DepKeys(deps[..i]) + {deps[i].key} {
      var j :| 0 <= j < |deps| && deps[j].key == k;
      if j < i {
        assert deps[..i][j] == deps[j];
      }
    }
    forall k | k in DepKeys(deps[..i]) ensures k in DepKeys(deps) {
      var j :| 0 <= j < i && deps[..i][j].key == k;
      assert deps[j] == deps[..i][j];
    }
  }

  /** Merging the bindings of a run over a map holding only dep keys gives
      the bindings of the run: every such key is bound again. */
  lemma DepBindingsAbsorb(prior: Params, deps: seq<DepSpec>, merged: Params)
    requires prior.Keys <= DepKeys(deps)
    ensures Merge(prior, DepBindings(deps, merged)) == DepBindings(deps, merged)
  {
    DepBindingsKeys(deps, merged);
  }

  /** The environment the `i`-th dep sees. */
  function EnvBefore(deps: seq<DepSpec>, merged: Params, i: nat): Params
    requires i <= |deps|
  {
    Merge(merged, DepBindings(deps[..i], merged))
  }

  /** Running one more dep. */
  lemma DepBindingsSnoc(deps: seq<DepSpec>, merged: Params, i: nat)
    requires i < |deps|
    ensures DepBindings(deps[..i + 1], merged) == DepStep(DepBindings(deps[..i], merged), deps[i], merged)
  {
    assert deps[..i + 1][..i] == deps[..i];
  }

  /** A dep leaves the bindings of other keys alone. */
  lemma DepStepOther(acc: Params, d: DepSpec, merged: Params, k: Name)
    requires k != d.key && k in acc
    ensures k in DepStep(acc, d, merged) && DepStep(acc, d, merged)[k] == acc[k]
  {
  }

  /** Deps declared after the last one for a key leave its binding alone:
      running the first `m` deps binds it as running the first `i + 1` did. */
  lemma {:induction false} LaterDepsKeep(deps: seq<DepSpec>, merged: Params, i: nat, m: nat)
    requires i < m <= |deps|
    requires forall j :: i < j < |deps| ==> deps[j].key != deps[i].key
    ensures deps[i].key in DepBindings(deps[..m], merged)
    ensures DepBindings(deps[..m], merged)[deps[i].key] == DepBindings(deps[..i + 1], merged)[deps[i].key]
    decreases m
  {
    if m == i + 1 {
      DepBindingsSnoc(deps, merged, i);
    } else {
      LaterDepsKeep(deps, merged, i, m - 1);
      DepBindingsSnoc(deps, merged, m - 1);
      DepStepOther(DepBindings(deps[..m - 1], merged), deps[m - 1], merged, deps[i].key);
    }
  }

  /** The binding of a key is what its last `dep` resolved to. */
  lemma LastDepDecides(deps: seq<DepSpec>, merged: Params, i: nat)
    requires i < |deps|
    requires forall j :: i < j < |deps| ==> deps[j].key != deps[i].key
    ensures deps[i].key in DepBindings(deps, merged)
    ensures DepBindings(deps, merged)[deps[i].key] == Resolve(deps[i], merged, EnvBefore(deps, merged, i))
  {
    LaterDepsKeep(deps, merged, i, |deps|);
    DepBindingsSnoc(deps, merged, i);
    assert deps[..|deps|] == deps;
  }

  /** The last dep declared for a key decides its binding: the merged
      argument of that name if it is truthy (a call-time override, or an
      optional default of the same name), otherwise the dep's own value,
      computed from the bindings that precede it. A nil or false override
      is ignored. */
  lemma DepBindingAt(deps: seq<DepSpec>, merged: Params, i: nat)
    requires i < |deps|
    requires forall j :: i < j < |deps| ==> deps[j].key != deps[i].key
    ensures deps[i].key in DepBindings(deps, merged)
    ensures Truthy(Lookup(merged, deps[i].key)) ==>
              DepBindings(deps, merged)[deps[i].key] == merged[deps[i].key]
    ensures !Truthy(Lookup(merged, deps[i].key)) ==>
              DepBindings(deps, merged)[deps[i].key] == deps[i].producer(EnvBefore(deps, merged, i))
  {
    LastDepDecides(deps, merged, i);
  }
}

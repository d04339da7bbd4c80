/**
 * The currier that `inputs` builds: given the accumulated parameters, it
 * either refuses a block, returns a further partial application, or asks
 * for the command to be constructed and run. `curry` starts it from the
 * optional defaults merged with the first parameters.
 */
module Currying {
  import opened Values
  import opened Declaration

  /** A proc returned by an incomplete currier step, holding the parameters
      accumulated so far. */
  datatype Partial = Partial(acc: Params) {
    /** Calling the proc: the currier on `acc.merge(more)`. Defaults are
        not merged again. */
    function Apply(shape: Shape, more: Params, block: Option<Block>): (s: Step)
      ensures s.Build? || s.Pending? ==> StepMap(s).Keys == acc.Keys + more.Keys
      ensures s.Build? || s.Pending? ==> forall k :: k in more ==> StepMap(s)[k] == more[k]
      ensures s.Build? || s.Pending? ==> forall k :: k in acc && k !in more ==> StepMap(s)[k] == acc[k]
      ensures s.Build? <==> !Incomplete(shape.required, Merge(acc, more))
      ensures s.Rejected? <==> Incomplete(shape.required, Merge(acc, more)) && block.Some?
    {
      Currier(shape, Merge(acc, more), block)
    }
  }

  /** What one currier step decides. */
  datatype Step =
    | Rejected                                        // a block with incomplete arguments
    | Pending(next: Partial)                          // a further partial application
    | Build(params: Params, block: Option<Block>)     // `new(params).call(&block)`

  /** The currier: complete parameters are built, with the block handed on;
      incomplete ones refuse a block and are otherwise kept for later. */
  function Currier(shape: Shape, params: Params, block: Option<Block>): (s: Step)
    ensures s.Build? <==> !Incomplete(shape.required, params)
    ensures s.Build? ==> s.params == params && s.block == block
    ensures s.Rejected? <==> Incomplete(shape.required, params) && block.Some?
    ensures s.Pending? ==> s.next.acc == params && block.None?
  {
    if Incomplete(shape.required, params) then
      if block.Some? then Rejected else Pending(Partial(params))
    else
      Build(params, block)
  }

  /** The map a building or pending step carries. */
  function StepMap(s: Step): Params
    requires s.Build? || s.Pending?
  {
    if s.Build? then s.params else s.next.acc
  }

  /** Calling the proc that `curry` returns. It starts from the defaults:
      unless it refuses a block, the map it builds from or keeps holds every
      default, and every supplied key with its supplied value, nil and false
      included. */
  function CurryStep(shape: Shape, params: Params, block: Option<Block>): (s: Step)
    ensures s.Build? || s.Pending? ==> StepMap(s).Keys == shape.optional.Keys + params.Keys
    ensures s.Build? || s.Pending? ==> forall k :: k in params ==> StepMap(s)[k] == params[k]
    ensures s.Build? || s.Pending? ==>
              forall k :: k in shape.optional && k !in params ==> StepMap(s)[k] == shape.optional[k]
    ensures s.Build? <==> !Incomplete(shape.required, Merge(shape.optional, params))
    ensures s.Rejected? <==> Incomplete(shape.required, Merge(shape.optional, params)) && block.Some?
  {
    Currier(shape, Merge(shape.optional, params), block)
  }

  /** The proc from `curry` behaves as a partial application holding only
      the defaults. */
  lemma CurryIsPartialOfDefaults(shape: Shape, params: Params, block: Option<Block>)
    ensures CurryStep(shape, params, block) == Partial(shape.optional).Apply(shape, params, block)
  {
  }

  /** Left fold of `merge` over successive parameter maps. */
  function MergeAll(acc: Params, ps: seq<Params>): Params
    decreases |ps|
  {
    if ps == [] then acc else MergeAll(Merge(acc, ps[0]), ps[1..])
  }

  /** Feeding parameter maps one by one to whatever partial application the
      previous step returned (without blocks); stops at the first step that
      is not a partial application. */
  function Feed(shape: Shape, s: Step, ps: seq<Params>): Step
    decreases |ps|
  {
    if ps == [] then s
    else match s
      case Pending(q) => Feed(shape, q.Apply(shape, ps[0], None), ps[1..])
      case _ => s
  }

  /** Several partial steps equal one step on the left-folded merge, as long
      as every intermediate accumulation is incomplete. */
  lemma {:induction false} FeedIsOneStep(shape: Shape, acc: Params, ps: seq<Params>)
    requires forall j :: 0 <= j < |ps| ==> Incomplete(shape.required, MergeAll(acc, ps[..j]))
    ensures Feed(shape, Currier(shape, acc, None), ps) == Currier(shape, MergeAll(acc, ps), None)
    decreases |ps|
  {
    if ps != [] {
      assert ps[..0] == [];
      var acc' := Merge(acc, ps[0]);
      forall j | 0 <= j < |ps| - 1
        ensures Incomplete(shape.required, MergeAll(acc', ps[1..][..j]))
      {
        assert ps[..j + 1][0] == ps[0] && ps[..j + 1][1..] == ps[1..][..j];
      }
      FeedIsOneStep(shape, acc', ps[1..]);
    }
  }

  /** `curry.call(p1).call(p2)` equals `curry.call(p1.merge(p2))` when the
      first step is incomplete: keys accumulate and the later value wins. */
  lemma TwoStepCurry(shape: Shape, p1: Params, p2: Params, block: Option<Block>)
    requires CurryStep(shape, p1, None).Pending?
    ensures CurryStep(shape, p1, None).next.Apply(shape, p2, block) == CurryStep(shape, Merge(p1, p2), block)
  {
    MergeAssociative(shape.optional, p1, p2);
  }
}

/**
 * The Ruby values that the parameter engine of Dais handles: keyword names,
 * argument values, the arguments of the `inputs` macro, and `Hash#merge`.
 */
module Values {

  /** A keyword name (a Ruby Symbol). */
  type Name = string

  /** A Ruby value. The engine only ever asks whether a value is truthy;
      classes, procs and curried procs passed around as values are opaque. */
  datatype Value = Nil | False | True | Int(i: int) | Opaque(id: nat)

  /** A Ruby Hash from keyword names to values. */
  type Params = map<Name, Value>

  /** One argument of `inputs` (or of `expand`): a symbol, or a Hash. */
  datatype Arg = Sym(name: Name) | Defaults(pairs: Params)

  /** A block passed with `&`; the engine only hands it on. */
  datatype Block = Block(id: nat)

  datatype Option<T> = None | Some(value: T)

  datatype Result<T, E> = Ok(value: T) | Err(error: E)

  /** Ruby truthiness: everything except nil and false. */
  predicate Truthy(v: Value) {
    !(v.Nil? || v.False?)
  }

  /** `h[k]`: a Hash answers nil for a key it does not hold. */
  function Lookup(h: Params, k: Name): Value {
    if k in h then h[k] else Nil
  }

  /** Ruby's `a || b`. */
  function Or(a: Value, b: Value): Value {
    if Truthy(a) then a else b
  }

  /** `a.merge(b)`: every key of either Hash; where both hold a key, the value
      from `b` wins, whatever that value is (nil and false included). */
  function Merge(a: Params, b: Params): (r: Params)
    ensures r.Keys == a.Keys + b.Keys
    ensures forall k :: k in b ==> r[k] == b[k]
    ensures forall k :: k in a && k !in b ==> r[k] == a[k]
  {
    a + b
  }

  /** Merging is associative, so successive merges can be regrouped. */
  lemma MergeAssociative(a: Params, b: Params, c: Params)
    ensures Merge(Merge(a, b), c) == Merge(a, Merge(b, c))
  {
    var l, r := Merge(Merge(a, b), c), Merge(a, Merge(b, c));
    assert l.Keys == r.Keys;
    forall k | k in l ensures l[k] == r[k] {
    }
  }

  /** Writing a key after a merge is writing it into the right-hand Hash. */
  lemma MergeUpdate(a: Params, b: Params, k: Name, v: Value)
    ensures Merge(a, b)[k := v] == Merge(a, b[k := v])
  {
    var l, r := Merge(a, b)[k := v], Merge(a, b[k := v]);
    assert l.Keys == r.Keys;
  }
}

/**
 * The shape a command class declares with `inputs`: its required names and
 * its optional defaults, the completeness test `incomplete?`, and the list
 * of missing keywords that construction reports.
 */
module Declaration {
  import opened Values

  /** What `inputs` keeps from its arguments. */
  datatype Shape = Shape(required: seq<Arg>, optional: Params)

  /** `args[-1].class == Hash` (false for an empty argument list). */
  predicate EndsWithHash(args: seq<Arg>) {
    |args| > 0 && args[|args| - 1].Defaults?
  }

  /** The declaration split: a trailing Hash becomes the optional defaults
      and everything before it (or everything, when there is no trailing
      Hash) stays in `required`. Nothing is lost: putting the Hash back
      after the required entries gives the arguments again. */
  function Split(args: seq<Arg>): (s: Shape)
    ensures s.required + (if EndsWithHash(args) then [Defaults(s.optional)] else []) == args
    ensures !EndsWithHash(args) ==> s.optional == map[]
    ensures |s.required| == if EndsWithHash(args) then |args| - 1 else |args|
  {
    if EndsWithHash(args) then Shape(args[..|args| - 1], args[|args| - 1].pairs)
    else Shape(args, map[])
  }

  function Elems(s: seq<Arg>): set<Arg> {
    set a | a in s
  }

  predicate Distinct(s: seq<Arg>) {
    forall i, j :: 0 <= i < j < |s| ==> s[i] != s[j]
  }

  /** A required entry is supplied by a set of keys when it is a symbol among them. */
  predicate Supplied(a: Arg, keys: set<Name>) {
    a.Sym? && a.name in keys
  }

  /** The required entries that keys of `params` name. It has as many
      elements as Ruby's `params.keys & required`. */
  function Hits(required: seq<Arg>, params: Params): set<Arg> {
    set a | a in required && Supplied(a, params.Keys)
  }

  /** `incomplete?`: the number of distinct required names present among the
      keys differs from the length of `required`. A complete map therefore
      supplies every required entry, and a required entry declared twice
      makes every map incomplete. */
  predicate Incomplete(required: seq<Arg>, params: Params)
    ensures !Incomplete(required, params) ==> forall a :: a in required ==> Supplied(a, params.Keys)
    ensures !Distinct(required) ==> Incomplete(required, params)
  {
    ElemsCount(required);
    SubsetCount(Hits(required, params), Elems(required));
    assert forall a :: a in required ==> a in Elems(required);
    |Hits(required, params)| != |required|
  }

  /** Only which required entries the keys supply matters: values, and keys
      that name no required entry, play no part in `incomplete?`. */
  lemma IncompleteOnlyByRequiredKeys(required: seq<Arg>, p: Params, q: Params)
    requires forall a :: a in required ==> (Supplied(a, p.Keys) <==> Supplied(a, q.Keys))
    ensures Incomplete(required, p) <==> Incomplete(required, q)
  {
    assert Hits(required, p) == Hits(required, q);
  }

  /** A sequence has at most as many distinct elements as entries, and
      exactly as many when no entry repeats. */
  lemma {:induction false} ElemsCount(s: seq<Arg>)
    ensures |Elems(s)| <= |s|
    ensures |Elems(s)| == |s| <==> Distinct(s)
  {
    if s != [] {
      var p, x := s[..|s| - 1], s[|s| - 1];
      assert s == p + [x];
      assert Elems(s) == Elems(p) + {x};
      ElemsCount(p);
      if x in p {
        assert Elems(s) == Elems(p);
        var j :| 0 <= j < |p| && p[j] == x;
        assert s[j] == s[|s| - 1];
      } else {
        assert Distinct(s) <==> Distinct(p);
      }
    }
  }

  lemma SubsetCount<T>(a: set<T>, b: set<T>)
    requires a <= b
    ensures |a| <= |b|
    ensures |a| == |b| ==> a == b
  {
    assert b == a + (b - a);
    assert |b| == |a| + |b - a|;
    if |a| == |b| {
      assert |b - a| == 0;
      assert b - a == {};
    }
  }

  /** With distinct required entries, a map is incomplete exactly when some
      required entry is not supplied by its keys. */
  lemma IncompleteIffUnsupplied(required: seq<Arg>, params: Params)
    requires Distinct(required)
    ensures Incomplete(required, params) <==> exists a :: a in required && !Supplied(a, params.Keys)
  {
    ElemsCount(required);
    var h := Hits(required, params);
    SubsetCount(h, Elems(required));
    if forall a :: a in required ==> Supplied(a, params.Keys) {
      assert h == Elems(required);
    } else {
      var a :| a in required && !Supplied(a, params.Keys);
      assert a in Elems(required) && a !in h;
    }
  }

  /** Merging more parameters into a complete map keeps it complete. */
  lemma CompletenessMonotone(required: seq<Arg>, a: Params, b: Params)
    requires !Incomplete(required, a)
    ensures !Incomplete(required, Merge(a, b))
  {
    IncompleteIffUnsupplied(required, Merge(a, b));
  }

  /** `(required - keys).uniq`: the required entries not supplied by the
      keys, each once. */
  function Missing(required: seq<Arg>, keys: set<Name>): (m: seq<Arg>)
    ensures forall a :: a in m <==> a in required && !Supplied(a, keys)
    ensures Distinct(m)
    ensures m == [] <==> forall a :: a in required ==> Supplied(a, keys)
    decreases |required|
  {
    if required == [] then []
    else
      var p, a := required[..|required| - 1], required[|required| - 1];
      assert required == p + [a];
      var m := Missing(p, keys);
      if !Supplied(a, keys) && a !in m then m + [a] else m
  }

  /** The position of the first occurrence of `a` in `s`. */
  function FirstIndex(s: seq<Arg>, a: Arg): (i: nat)
    requires a in s
    ensures i < |s| && s[i] == a && a !in s[..i]
  {
    if s[0] == a then 0
    else
      assert a in s[1..];
      var i := FirstIndex(s[1..], a) + 1;
      assert s[..i] == [s[0]] + s[1..][..i - 1];
      i
  }

  lemma FirstIndexUnique(s: seq<Arg>, a: Arg, j: nat)
    requires j < |s| && s[j] == a && a !in s[..j]
    ensures FirstIndex(s, a) == j
  {
    var i := FirstIndex(s, a);
  }

  /** Every element of `m` occurs in `s`, and earlier in `m` means an
      earlier first occurrence in `s`. */
  predicate FollowsOrder(m: seq<Arg>, s: seq<Arg>) {
    forall i, j :: 0 <= i < j < |m| ==> m[i] in s && m[j] in s && FirstIndex(s, m[i]) < FirstIndex(s, m[j])
  }

  /** Appending to a sequence does not move first occurrences. */
  lemma FirstIndexAppend(p: seq<Arg>, a: Arg, x: Arg)
    requires x in p
    ensures FirstIndex(p + [a], x) == FirstIndex(p, x) < |p|
  {
    var k := FirstIndex(p, x);
    assert (p + [a])[..k] == p[..k];
    FirstIndexUnique(p + [a], x, k);
  }

  /** A new element appended to a sequence first occurs at the end. */
  lemma FirstIndexNew(p: seq<Arg>, a: Arg)
    requires a !in p
    ensures FirstIndex(p + [a], a) == |p|
  {
    assert (p + [a])[..|p|] == p;
    FirstIndexUnique(p + [a], a, |p|);
  }

  /** The missing list follows the order of `required` (first occurrences). */
  lemma {:induction false} MissingInRequiredOrder(required: seq<Arg>, keys: set<Name>)
    ensures FollowsOrder(Missing(required, keys), required)
  {
    if required != [] {
      var p, a := required[..|required| - 1], required[|required| - 1];
      assert required == p + [a];
      var mp := Missing(p, keys);
      MissingInRequiredOrder(p, keys);
      var m := Missing(required, keys);
      forall i, j | 0 <= i < j < |m|
        ensures m[i] in required && m[j] in required && FirstIndex(required, m[i]) < FirstIndex(required, m[j])
      {
        assert m[i] == mp[i] && mp[i] in mp;
        FirstIndexAppend(p, a, mp[i]);
        if j < |mp| {
          assert m[j] == mp[j] && mp[j] in mp;
          FirstIndexAppend(p, a, mp[j]);
        } else {
          assert m == mp + [a] && m[j] == a;
          FirstIndexNew(p, a);
        }
      }
    }
  }

  /** A complete map leaves nothing missing. */
  lemma CompleteHasNoMissing(required: seq<Arg>, params: Params)
    requires !Incomplete(required, params)
    ensures Missing(required, params.Keys) == []
  {
  }
}

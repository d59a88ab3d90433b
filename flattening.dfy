/** The meaning of `BufferWorker.flattenBDF` as pure functions, and the facts about it
    that the method and the properties module build on. */
module Flattening {
  import opened BdfSchema

  /** Every element is a leaf: no element has an own `properties` key. */
  predicate AllLeaves(ns: seq<Node>)
  {
    forall i :: 0 <= i < |ns| ==> ns[i].Leaf?
  }

  /** Sequential composition of two steps of the fold: the first failure wins, and two
      successes concatenate in order (`tmp.concat(part)`). */
  function Join(x: Result<seq<Node>>, y: Result<seq<Node>>): Result<seq<Node>>
  {
    if x.Err? then x
    else if y.Err? then y
    else Ok(x.value + y.value)
  }

  /** What flattenBDF returns or throws for `s`: the two guards on the value itself, then
      the fold over the array. */
  function Flatten(s: Schema): (r: Result<seq<Node>>)
    ensures r.Ok? ==> AllLeaves(r.value)
    ensures !s.Arr? ==> r.Err?
    decreases s, 0
  {
    match s
    case Falsy => Err(EmptyError)
    case NotArray => Err(NotArrayError)
    case Arr(elems) => FlattenAll(elems)
  }

  /** The `forEach` fold over a description array, one element at a time from the left:
      the result for a prefix is extended by the contribution of the next element. */
  function FlattenAll(elems: seq<Node>): (r: Result<seq<Node>>)
    ensures r.Ok? ==> AllLeaves(r.value)
    decreases elems
  {
    if elems == [] then Ok([])
    else Join(FlattenAll(elems[..|elems| - 1]), Contribution(elems[|elems| - 1]))
  }

  /** What one element adds to the accumulator: a group its flattened `properties`, any
      other element itself. */
  function Contribution(n: Node): (r: Result<seq<Node>>)
    ensures r.Ok? ==> AllLeaves(r.value)
    decreases n
  {
    match n
    case Leaf(_) => Ok([n])
    case Group(_, props) => Flatten(props)
  }

  lemma JoinAssociative(x: Result<seq<Node>>, y: Result<seq<Node>>, z: Result<seq<Node>>)
    ensures Join(Join(x, y), z) == Join(x, Join(y, z))
  {
    if x.Ok? && y.Ok? && z.Ok? {
      assert (x.value + y.value) + z.value == x.value + (y.value + z.value);
    }
  }

  /** Flattening an array split in two is flattening the halves in order: the first
      failure, or the two lists one after the other. */
  lemma {:induction false} FlattenAllConcat(a: seq<Node>, b: seq<Node>)
    ensures FlattenAll(a + b) == Join(FlattenAll(a), FlattenAll(b))
    decreases |b|
  {
    if b == [] {
      assert a + b == a;
      var x := FlattenAll(a);
      if x.Ok? {
        assert x.value + [] == x.value;
      }
    } else {
      var ab := a + b;
      var b' := b[..|b| - 1];
      assert ab[..|ab| - 1] == a + b';
      assert ab[|ab| - 1] == b[|b| - 1];
      FlattenAllConcat(a, b');
      JoinAssociative(FlattenAll(a), FlattenAll(b'), Contribution(b[|b| - 1]));
    }
  }

  /** The fold seen from the first element instead of the last. */
  lemma FlattenAllCons(x: Node, rest: seq<Node>)
    ensures FlattenAll([x] + rest) == Join(Contribution(x), FlattenAll(rest))
  {
    FlattenAllConcat([x], rest);
    assert [x][..0] == [];
    var c := Contribution(x);
    if c.Ok? {
      assert [] + c.value == c.value;
    }
  }

  /** Once a prefix has thrown, nothing after it changes the outcome. */
  lemma FlattenAllPrefixFailure(elems: seq<Node>, k: nat)
    requires k <= |elems|
    requires FlattenAll(elems[..k]).Err?
    ensures FlattenAll(elems) == FlattenAll(elems[..k])
  {
    assert elems == elems[..k] + elems[k..];
    FlattenAllConcat(elems[..k], elems[k..]);
  }
}

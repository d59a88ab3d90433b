/** What flattenBDF promises, stated against reference definitions that do not follow the
    fold: which descriptions succeed, which exception a failing one throws, and what list a
    succeeding one yields. */
module FlattenProperties {
  import opened BdfSchema
  import opened Flattening

  // ---------------------------------------------------------------------------------
  // Reference definitions, each read off the tree from the first element onwards.

  /** Every schema position in the tree (the description itself and the `properties` of
      every group at any depth) holds an array. */
  predicate WellFormed(s: Schema)
    decreases s, 1
  {
    s.Arr? && forall i :: 0 <= i < |s.elems| ==> NodeWellFormed(s.elems[i])
  }

  predicate NodeWellFormed(n: Node)
    decreases n
  {
    n.Group? ==> WellFormed(n.props)
  }

  /** The exception each schema position would throw on its own, in depth-first order:
      one entry per position that is falsy or not an array. */
  function Defects(s: Schema): seq<FlattenError>
    decreases s, 1
  {
    match s
    case Falsy => [EmptyError]
    case NotArray => [NotArrayError]
    case Arr(elems) => DefectsAll(elems)
  }

  function DefectsAll(elems: seq<Node>): seq<FlattenError>
    decreases elems
  {
    if elems == [] then [] else NodeDefects(elems[0]) + DefectsAll(elems[1..])
  }

  function NodeDefects(n: Node): seq<FlattenError>
    decreases n
  {
    match n
    case Leaf(_) => []
    case Group(_, props) => Defects(props)
  }

  /** The leaf elements of the tree, depth-first and left to right. */
  function LeafNodes(s: Schema): seq<Node>
    decreases s, 1
  {
    match s
    case Arr(elems) => LeafNodesAll(elems)
    case _ => []
  }

  function LeafNodesAll(elems: seq<Node>): seq<Node>
    decreases elems
  {
    if elems == [] then [] else NodeLeafNodes(elems[0]) + LeafNodesAll(elems[1..])
  }

  function NodeLeafNodes(n: Node): seq<Node>
    decreases n
  {
    match n
    case Leaf(_) => [n]
    case Group(_, props) => LeafNodes(props)
  }

  /** The number of leaves in the tree. */
  function LeafCount(s: Schema): nat
    decreases s, 1
  {
    match s
    case Arr(elems) => LeafCountAll(elems)
    case _ => 0
  }

  function LeafCountAll(elems: seq<Node>): nat
    decreases elems
  {
    if elems == [] then 0 else NodeLeafCount(elems[0]) + LeafCountAll(elems[1..])
  }

  function NodeLeafCount(n: Node): nat
    decreases n
  {
    match n
    case Leaf(_) => 1
    case Group(_, props) => LeafCount(props)
  }

  // ---------------------------------------------------------------------------------
  // The guards on the description itself.

  /** A falsy description throws the "empty" error, a truthy non-array the "must be an
      array" error, and the empty array passes both guards and yields the empty list. The
      two errors carry distinct messages. */
  lemma TopLevelGuards()
    ensures Flatten(Falsy) == Err(EmptyError)
    ensures Flatten(Falsy).error.Message() == "Buffer description file is empty."
    ensures Flatten(NotArray) == Err(NotArrayError)
    ensures Flatten(NotArray).error.Message() == "Description file must be an array."
    ensures EmptyError.Message() != NotArrayError.Message()
    ensures Flatten(Arr([])) == Ok([])
  {
  }

  // ---------------------------------------------------------------------------------
  // Order and shape of the result.

  /** The result for an array is the concatenation, in declaration order, of what its two
      parts yield; the first part that throws decides the exception. */
  lemma FlattenConcat(a: seq<Node>, b: seq<Node>)
    ensures Flatten(Arr(a + b)) == Join(Flatten(Arr(a)), Flatten(Arr(b)))
  {
    FlattenAllConcat(a, b);
  }

  /** A one-element array yields that element's contribution: the element itself for a
      leaf, the flattening of `properties` for a group. */
  lemma FlattenSingleton(x: Node)
    ensures Flatten(Arr([x])) == (if x.Group? then Flatten(x.props) else Ok([x]))
  {
    FlattenAllCons(x, []);
    var c := Contribution(x);
    if c.Ok? {
      assert c.value + [] == c.value;
    }
  }

  /** A group whose `properties` is the empty array contributes nothing, wherever it stands. */
  lemma EmptyGroupContributesNothing(a: seq<Node>, name: string, b: seq<Node>)
    ensures Flatten(Arr(a + [Group(name, Arr([]))] + b)) == Flatten(Arr(a + b))
  {
    var g := Group(name, Arr([]));
    FlattenAllConcat(a + [g], b);
    FlattenAllConcat(a, [g]);
    FlattenAllConcat(a, b);
    FlattenSingleton(g);
    var x := FlattenAll(a);
    if x.Ok? {
      assert x.value + [] == x.value;
    }
  }

  /** An array of leaves only is returned as it is. */
  lemma {:induction false} LeavesOnlyFlattenToThemselves(elems: seq<Node>)
    requires AllLeaves(elems)
    ensures Flatten(Arr(elems)) == Ok(elems)
    decreases |elems|
  {
    if elems != [] {
      var init := elems[..|elems| - 1];
      assert AllLeaves(init) by {
        forall i | 0 <= i < |init| ensures init[i].Leaf? {
          assert init[i] == elems[i];
        }
      }
      LeavesOnlyFlattenToThemselves(init);
      var last := elems[|elems| - 1];
      assert last.Leaf?;
      assert FlattenAll(elems) == Join(FlattenAll(init), Contribution(last));
      assert init + [last] == elems;
    }
  }

  /** Flattening is idempotent: flattening a result again changes nothing. */
  lemma FlattenIdempotent(s: Schema)
    requires Flatten(s).Ok?
    ensures Flatten(Arr(Flatten(s).value)) == Flatten(s)
  {
    LeavesOnlyFlattenToThemselves(Flatten(s).value);
  }

  // ---------------------------------------------------------------------------------
  // When it throws, and what.

  /** Flattening succeeds exactly when every schema position at every depth is an array. */
  lemma {:induction false} FlattenSucceedsIffWellFormed(s: Schema)
    ensures Flatten(s).Ok? <==> WellFormed(s)
    decreases s, 1
  {
    if s.Arr? {
      AllSucceedIffWellFormed(s.elems);
    }
  }

  lemma {:induction false} AllSucceedIffWellFormed(elems: seq<Node>)
    ensures FlattenAll(elems).Ok? <==> forall i :: 0 <= i < |elems| ==> NodeWellFormed(elems[i])
    decreases elems
  {
    if elems != [] {
      var rest := elems[1..];
      assert elems == [elems[0]] + rest;
      FlattenAllCons(elems[0], rest);
      NodeSucceedsIffWellFormed(elems[0]);
      AllSucceedIffWellFormed(rest);
      if NodeWellFormed(elems[0]) && forall i :: 0 <= i < |rest| ==> NodeWellFormed(rest[i]) {
        forall i | 0 <= i < |elems| ensures NodeWellFormed(elems[i]) {
          if i > 0 {
            assert elems[i] == rest[i - 1];
          }
        }
      } else if NodeWellFormed(elems[0]) {
        var j :| 0 <= j < |rest| && !NodeWellFormed(rest[j]);
        assert elems[j + 1] == rest[j];
      }
    }
  }

  lemma {:induction false} NodeSucceedsIffWellFormed(n: Node)
    ensures Contribution(n).Ok? <==> NodeWellFormed(n)
    decreases n
  {
    if n.Group? {
      FlattenSucceedsIffWellFormed(n.props);
    }
  }

  /** Flattening throws exactly when some schema position is falsy or not an array, and
      then it throws the error of the first such position in depth-first order; a call
      that throws returns no list. */
  lemma {:induction false} FlattenThrowsFirstDefect(s: Schema)
    ensures Flatten(s).Ok? <==> Defects(s) == []
    ensures Flatten(s).Err? ==> Flatten(s).error == Defects(s)[0]
    decreases s, 1
  {
    if s.Arr? {
      AllThrowFirstDefect(s.elems);
    }
  }

  lemma {:induction false} AllThrowFirstDefect(elems: seq<Node>)
    ensures FlattenAll(elems).Ok? <==> DefectsAll(elems) == []
    ensures FlattenAll(elems).Err? ==> FlattenAll(elems).error == DefectsAll(elems)[0]
    decreases elems
  {
    if elems != [] {
      assert elems == [elems[0]] + elems[1..];
      FlattenAllCons(elems[0], elems[1..]);
      NodeThrowsFirstDefect(elems[0]);
      AllThrowFirstDefect(elems[1..]);
    }
  }

  lemma {:induction false} NodeThrowsFirstDefect(n: Node)
    ensures Contribution(n).Ok? <==> NodeDefects(n) == []
    ensures Contribution(n).Err? ==> Contribution(n).error == NodeDefects(n)[0]
    decreases n
  {
    if n.Group? {
      FlattenThrowsFirstDefect(n.props);
    }
  }

  /** The two reference views of a malformed description agree: a tree is well formed
      exactly when it has no defect. */
  lemma WellFormedIffNoDefects(s: Schema)
    ensures WellFormed(s) <==> Defects(s) == []
  {
    FlattenSucceedsIffWellFormed(s);
    FlattenThrowsFirstDefect(s);
  }

  // ---------------------------------------------------------------------------------
  // What a successful result holds.

  /** A successful result is the tree's leaf elements, unchanged, depth-first and left to
      right, and so its length is the number of leaves. */
  lemma FlattenListsLeaves(s: Schema)
    requires Flatten(s).Ok?
    ensures Flatten(s).value == LeafNodes(s)
    ensures |Flatten(s).value| == LeafCount(s)
  {
    FlattenYieldsLeafNodes(s);
    LeafNodesCounted(s);
  }

  lemma {:induction false} FlattenYieldsLeafNodes(s: Schema)
    ensures Flatten(s).Ok? ==> Flatten(s).value == LeafNodes(s)
    decreases s, 1
  {
    if s.Arr? {
      AllYieldLeafNodes(s.elems);
    }
  }

  lemma {:induction false} AllYieldLeafNodes(elems: seq<Node>)
    ensures FlattenAll(elems).Ok? ==> FlattenAll(elems).value == LeafNodesAll(elems)
    decreases elems
  {
    if elems != [] {
      assert elems == [elems[0]] + elems[1..];
      FlattenAllCons(elems[0], elems[1..]);
      NodeYieldsLeafNodes(elems[0]);
      AllYieldLeafNodes(elems[1..]);
    }
  }

  lemma {:induction false} NodeYieldsLeafNodes(n: Node)
    ensures Contribution(n).Ok? ==> Contribution(n).value == NodeLeafNodes(n)
    decreases n
  {
    if n.Group? {
      FlattenYieldsLeafNodes(n.props);
    }
  }

  lemma {:induction false} LeafNodesCounted(s: Schema)
    ensures |LeafNodes(s)| == LeafCount(s)
    decreases s, 1
  {
    if s.Arr? {
      AllLeafNodesCounted(s.elems);
    }
  }

  lemma {:induction false} AllLeafNodesCounted(elems: seq<Node>)
    ensures |LeafNodesAll(elems)| == LeafCountAll(elems)
    decreases elems
  {
    if elems != [] {
      NodeLeafNodesCounted(elems[0]);
      AllLeafNodesCounted(elems[1..]);
    }
  }

  lemma {:induction false} NodeLeafNodesCounted(n: Node)
    ensures |NodeLeafNodes(n)| == NodeLeafCount(n)
    decreases n
  {
    if n.Group? {
      LeafNodesCounted(n.props);
    }
  }
}

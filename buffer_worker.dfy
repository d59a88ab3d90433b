/** `BufferWorker.flattenBDF` as the source runs it: two guards, then a loop that
    reassigns a local accumulator with the contribution of each element in turn, recursing
    into the `properties` of groups. */
module BufferWorker {
  import opened BdfSchema
  import opened Flattening

  method FlattenBdf(bdf: Schema) returns (r: Result<seq<Node>>)
    ensures r == Flatten(bdf)
    decreases bdf
  {
    if bdf.Falsy? {
      return Err(EmptyError);
    }
    if bdf.NotArray? {
      return Err(NotArrayError);
    }
    var elems := bdf.elems;
    var tmp: seq<Node> := [];
    var i := 0;
    while i < |elems|
      invariant 0 <= i <= |elems|
      invariant FlattenAll(elems[..i]) == Ok(tmp)
    {
      var field := elems[i];
      assert elems[..i + 1][..i] == elems[..i];
      var part: seq<Node>;
      if field.Group? {
        var sub := FlattenBdf(field.props);
        if sub.Err? {
          // the recursive call threw: the exception leaves flattenBDF with it
          FlattenAllPrefixFailure(elems, i + 1);
          return sub;
        }
        part := sub.value;
      } else {
        part := [field];
      }
      tmp := tmp + part;
      i := i + 1;
    }
    assert elems[..i] == elems;
    return Ok(tmp);
  }
}

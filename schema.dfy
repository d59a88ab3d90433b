/** The values that `BufferWorker.flattenBDF` receives and returns.

    In the JavaScript source a buffer description is an arbitrary value. Flattening only
    asks three questions of it: is it truthy, is it an array, and does each element have an
    own `properties` key. The datatypes below keep exactly those distinctions. */
module BdfSchema {

  datatype Option<T> = None | Some(value: T)

  /** A leaf field descriptor. Flattening never looks inside one; the attributes are those
      a schema author writes, kept so that "emitted unchanged" has something to preserve. */
  datatype Field = Field(
    name: string,
    typeName: string,
    offset: int,
    length: Option<int>,
    bitNumber: Option<int>)

  /** A value in schema position: the top-level description, or the `properties` of a group.
      `Falsy` stands for every JavaScript value that `!bdf` accepts (undefined, null, false,
      0, -0, 0n, NaN, ""), `NotArray` for every truthy value that is not an array. */
  datatype Schema = Falsy | NotArray | Arr(elems: seq<Node>)

  /** An element of a description array. An object with an own `properties` key is a group,
      whatever that key holds; every other object is a leaf. The group's other keys (its
      name, for one) are dropped by flattening. */
  datatype Node = Leaf(field: Field) | Group(name: string, props: Schema)

  /** The two exceptions flattenBDF throws. */
  datatype FlattenError = EmptyError | NotArrayError
  {
    /** The message of the thrown `Error`. */
    function Message(): string
    {
      match this
      case EmptyError => "Buffer description file is empty."
      case NotArrayError => "Description file must be an array."
    }
  }

  /** Either the flattened list or the exception; a thrown call returns no list at all. */
  datatype Result<T> = Ok(value: T) | Err(error: FlattenError)
}

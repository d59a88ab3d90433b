# io-buffer-coder: buffer-description flattening

This project models `BufferWorker.flattenBDF` from `index.js`. It is the only part of the
repository that computes anything. It takes a buffer description (BD): a nested schema of
field descriptors and groups. It returns the ordered list of leaf field descriptors, or it
throws one of two errors.

The model has four modules:

- `BdfSchema` (`schema.dfy`) holds the values flattening can tell apart. A schema position
  (the description itself, or the `properties` of a group) is `Falsy`, `NotArray` or
  `Arr(elems)`. An element is a `Group` when it has its own `properties` key, and a `Leaf`
  otherwise. The errors are `EmptyError` ("Buffer description file is empty.") and
  `NotArrayError` ("Description file must be an array."). A `Result` carries either the
  list or the error, so a call that throws returns no partial list.
- `Flattening` (`flattening.dfy`) gives the meaning of the operation as pure recursive
  functions. `Flatten` applies the two guards. `FlattenAll` is the `forEach` fold, taken
  from the left as the source does. `Contribution` is what one element adds to the
  accumulator.
- `BufferWorker` (`buffer_worker.dfy`) has `FlattenBdf`, the method as the source runs it:
  two guards, then a loop that reassigns a local accumulator with `tmp + part`, and
  recursion into the `properties` of each group. It is proved equal to `Flatten`.
- `FlattenProperties` (`flatten_properties.dfy`) proves what flattening promises. It
  compares `Flatten` with reference definitions that walk the tree from the first element:
  `WellFormed`, `Defects`, `LeafNodes` and `LeafCount`.

Flattening looks at only three things: whether the value is truthy, whether it is an array,
and whether an element has its own `properties` key. The datatypes keep exactly these
distinctions. Leaf attributes (`name`, `typeName`, `offset`, `length`, `bitNumber`) are
carried through unread. They are there so that "emitted unchanged" has something to keep.

## Model

| member | source | states |
|---|---|---|
| `Flattening.Flatten` | index.js:32-40 | a successful result holds only leaves (no element has its own `properties` key); an input that is falsy or not an array always fails |
| `Flattening.FlattenAll` | index.js:35-38 | the fold over an array yields only leaves when it succeeds |
| `Flattening.Contribution` | index.js:37 | what one element adds to the accumulator is, on success, leaves only |
| `Flattening.FlattenAllConcat` | index.js:35-38 | folding an array split in two equals folding the two parts in order: the first exception wins, otherwise the two lists are concatenated |
| `Flattening.FlattenAllPrefixFailure` | index.js:36-38 | once an element throws, later elements cannot change the outcome; the exception leaves the `forEach` |
| `BufferWorker.FlattenBdf` | index.js:32-40 | the loop with its accumulator and its recursive calls returns exactly `Flatten(bdf)`, with the same exception on every malformed input |
| `FlattenProperties.TopLevelGuards` | index.js:33-35 | a falsy description throws the "empty" error, with message "Buffer description file is empty."; a truthy non-array throws the "must be an array" error, with message "Description file must be an array."; the two messages differ; `[]` passes both guards and gives `[]` |
| `FlattenProperties.FlattenConcat` | index.js:36-38 | order is preserved: the result for `a + b` is the result for `a` followed by the result for `b`, and the first failing part decides the error |
| `FlattenProperties.FlattenSingleton` | index.js:37 | a single leaf gives itself; a single group gives the flattening of its `properties` |
| `FlattenProperties.EmptyGroupContributesNothing` | index.js:37 | a group with `properties: []` adds nothing, wherever it stands |
| `FlattenProperties.LeavesOnlyFlattenToThemselves` | index.js:37 | an array with no groups flattens to itself, element for element |
| `FlattenProperties.FlattenIdempotent` | index.js:37 | flattening the result of a successful flattening gives the same result |
| `FlattenProperties.FlattenSucceedsIffWellFormed` | index.js:33-37 | flattening succeeds exactly when the description and the `properties` of every group, at every depth, are arrays |
| `FlattenProperties.FlattenThrowsFirstDefect` | index.js:33-37 | flattening fails exactly when some schema position is falsy or not an array; the error is the one for the first such position in depth-first order |
| `FlattenProperties.WellFormedIffNoDefects` | index.js:33-37 | the two views of a malformed description agree: every schema position is an array exactly when there is no falsy or non-array position |
| `FlattenProperties.FlattenListsLeaves` | index.js:37 | a successful result is the tree's leaf elements, unchanged, depth-first and left to right; its length is the number of leaves |

## Left out

- `getFileDescription` (index.js:16-30) is not modelled. It resolves a path against `__dirname`, calls `stat` on the file and `require`s it, which is filesystem I/O. The model starts from an already-loaded schema value.
- The `encode` and `decode` wrappers (index.js:42-66) are not modelled. They are asynchronous and return Promises. `encode` only resolves with `flattenBDF` of the loaded schema, which is `FlattenBdf`. `decode` returns the loaded schema unchanged. The config merge `{...this.defaultConfig, ...config}` they compute is never used.
- The constructor's `defaultConfig` (index.js:10-14) is not modelled. `flattenBDF` reads no field of the object, so the model has no class, only a method.
- No binary codec is modelled: no type table, offsets, endianness, bit packing, length-prefixed strings or repeated groups under an `array` key. None of these exists in `index.js`. Flattening recurses only into `properties`, never into `array`.
- JavaScript value quirks at index.js:37 are outside the model. Each element of a description array is assumed to be an object, either a leaf or a group. With a raw nested array as an element, `concat` would splice it in one level deep. With a `null` or `undefined` element, `hasOwnProperty` would throw a `TypeError`. The model has no such elements.
- An inherited (not own) `properties` key is not modelled. Such an element counts as a leaf in the source, which is also how the model treats every element without its own key.
- The code throws two distinct errors, and neither names the offending group. It never recurses into an `array` key. The model does the same.
- Schemas in the model are finite trees of objects, so three behaviours of the source are not captured. First, a description that contains itself, or one nested deeper than the call stack, makes the recursion at index.js:37 throw a `RangeError`; a `.js` file loaded by `require` can build one, and for it the model (and the reading of `FlattenSucceedsIffWellFormed`) gives `Ok` where the source throws. Second, `forEach` at index.js:36 skips the holes of a sparse array, and a `seq` has no holes. Third, an `undefined` element throws a `TypeError` just as a `null` one does.

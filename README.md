# Simulated-beads image loader: XML codec

This project models the XML codec of the simulated-beads image loader in
multiview-simulation (`XmlIoSimulatedBeadsImgLoader`). The codec stores the
parameters of a synthetic bead acquisition in a BigDataViewer/SPIM dataset
XML and reads them back. Those parameters are rotation angles, rotation axis,
number of points, a simulation range, a render interval and the PSF sigma.

- `ToXml` writes an `ImageLoader` element whose format attribute is
  `spimreconstruction.simulatedbeads`. It holds six children in a fixed
  order: `rotation_angles`, `axis`, `num_points`, `range_simulation`,
  `interval_render`, `sigma`. A `for d` loop flattens each 3-D interval into
  an `int[6]` laid out `[min0, min1, min2, max0, max1, max2]`, with each
  `long` coordinate narrowed by Java's `(int)` cast.
- `FromXml` looks the six children up by name. It rebuilds each interval
  with min taken from entries 0..2 and max from entries 3..5, each widened
  back to `long`.

Modules:

- `JavaInts` (`java_ints.dfy`) holds Java's `int` and `long` as newtypes and
  the `(int)` cast from `long` (keep the low 32 bits, two's complement).
- `XmlTree` (`xml_tree.dfy`) is the element as the codec sees it through its
  typed helpers. An element has a name, a format attribute and an ordered
  list of named children holding an `int`, an `int[]` or a `double[]`.
  Lookup by name returns the first child with that name. The typed getters
  fail with `Missing` or `WrongType`.
- `SimulatedBeadsXml` (`simulated_beads_xml.dfy`) holds the configuration
  datatype, the method `ToXml` with its flattening loop, the spec function
  `Encode` that `ToXml` is proved to build, the decoder `FromXml`, and the
  lemmas.

The element is a datatype value. `ToXml` builds its child list by appending
one child at a time to a local sequence, as the source does with
`addContent`.

The decoder's errors model the exceptions the source lets escape:

- a missing child gives `Missing(name)`;
- a child of another kind gives `WrongType(name)`;
- an interval array shorter than six gives `TooShort(name)`, where the
  source throws an array index exception.

The error that comes back is the first one the source would hit.

Neither direction validates the configuration
(XmlIoSimulatedBeadsImgLoader.java:46-91):

- The decoder checks no configuration invariant. It accepts min > max, any
  axis, a negative point count and a sigma of any length.
- It accepts interval arrays longer than six and ignores the extra entries.
  Only arrays shorter than six fail.
- The encoder does not check sigma's length.

## Model

| member | source | states |
|---|---|---|
| `JavaInts.ToInt32` | src/main/java/net/preibisch/simulation/imgloader/XmlIoSimulatedBeadsImgLoader.java:58-62 | the `(int)` cast of a `long` agrees with it modulo 2^32, and returns the value unchanged exactly when it fits in an `int` |
| `XmlTree.LookupSound` | src/main/java/net/preibisch/simulation/imgloader/XmlIoSimulatedBeadsImgLoader.java:80-85 | the lookup by name fails exactly when no child has that name; otherwise it returns the value of the first child with that name |
| `XmlTree.LookupFindsMember` | src/main/java/net/preibisch/simulation/imgloader/XmlIoSimulatedBeadsImgLoader.java:80-85 | among distinctly named children, the lookup returns `v` for `name` if and only if the child `(name, v)` is in the list |
| `XmlTree.LookupIgnoresOrder` | src/main/java/net/preibisch/simulation/imgloader/XmlIoSimulatedBeadsImgLoader.java:80-85 | any permutation of distinctly named children gives the same lookup result for every name |
| `XmlTree.GetInt` | src/main/java/net/preibisch/simulation/imgloader/XmlIoSimulatedBeadsImgLoader.java:81-82 | reading an `int` child fails with `Missing` exactly when no child has the name; it succeeds exactly when the first child with the name holds an `int`, and returns that `int`; otherwise it fails with `WrongType` |
| `XmlTree.GetIntArray` | src/main/java/net/preibisch/simulation/imgloader/XmlIoSimulatedBeadsImgLoader.java:80-84 | reading an `int[]` child fails with `Missing` exactly when no child has the name; it succeeds exactly when the first child with the name holds an `int[]`, and returns that array; otherwise it fails with `WrongType` |
| `XmlTree.GetDoubleArray` | src/main/java/net/preibisch/simulation/imgloader/XmlIoSimulatedBeadsImgLoader.java:85 | reading a `double[]` child fails with `Missing` exactly when no child has the name; it succeeds exactly when the first child with the name holds a `double[]`, and returns that array; otherwise it fails with `WrongType` |
| `SimulatedBeadsXml.Flatten` | src/main/java/net/preibisch/simulation/imgloader/XmlIoSimulatedBeadsImgLoader.java:53-63 | the flat interval array has length 6; index d holds `(int)min(d)` and index d+3 holds `(int)max(d)` for d in 0..2 |
| `SimulatedBeadsXml.FromFlat` | src/main/java/net/preibisch/simulation/imgloader/XmlIoSimulatedBeadsImgLoader.java:87-88 | the rebuilt interval has three dimensions, min(d) equals entry d and max(d) equals entry d+3, and every coordinate fits in an `int` |
| `SimulatedBeadsXml.ToXml` | src/main/java/net/preibisch/simulation/imgloader/XmlIoSimulatedBeadsImgLoader.java:46-73 | the loop over d in 0..2 and the six `addContent` calls build exactly the element `Encode` describes (two flat arrays in the `Flatten` layout, six children in order) |
| `SimulatedBeadsXml.FromXml` | src/main/java/net/preibisch/simulation/imgloader/XmlIoSimulatedBeadsImgLoader.java:76-92 | decoding succeeds if and only if all six children are present with the right kinds and both interval arrays have at least six entries; a decoded configuration has two three-dimensional intervals whose coordinates all fit in an `int` |
| `SimulatedBeadsXml.DecodeFound` | src/main/java/net/preibisch/simulation/imgloader/XmlIoSimulatedBeadsImgLoader.java:80-91 | when the six lookups find values of the right kinds and both interval arrays have at least six entries, decoding copies angles, axis, point count and sigma and rebuilds each interval with `FromFlat` |
| `SimulatedBeadsXml.EncodeShape` | src/main/java/net/preibisch/simulation/imgloader/XmlIoSimulatedBeadsImgLoader.java:38-70 | the element is named `ImageLoader` and tagged `spimreconstruction.simulatedbeads`; its children are exactly the six names in the written order, all distinct |
| `SimulatedBeadsXml.EncodeValues` | src/main/java/net/preibisch/simulation/imgloader/XmlIoSimulatedBeadsImgLoader.java:51-70 | reading the encoded element by name gives angles, axis, point count and sigma verbatim and both intervals in the `Flatten` layout |
| `SimulatedBeadsXml.FlattenRoundTrip` | src/main/java/net/preibisch/simulation/imgloader/XmlIoSimulatedBeadsImgLoader.java:56-88 | flattening an interval and rebuilding it gives the interval back if and only if it has exactly three dimensions and every coordinate fits in an `int` |
| `SimulatedBeadsXml.FromFlatRoundTrip` | src/main/java/net/preibisch/simulation/imgloader/XmlIoSimulatedBeadsImgLoader.java:56-88 | rebuilding an interval from a flat array and flattening it again gives the array's first six entries |
| `SimulatedBeadsXml.RoundTrip` | src/main/java/net/preibisch/simulation/imgloader/XmlIoSimulatedBeadsImgLoader.java:46-92 | when both intervals are three-dimensional with every coordinate within `int` range, decoding the encoded configuration gives it back field by field |
| `SimulatedBeadsXml.RoundTripLossy` | src/main/java/net/preibisch/simulation/imgloader/XmlIoSimulatedBeadsImgLoader.java:46-92 | in every other case decoding the encoded configuration still succeeds but gives a different configuration, so the round trip holds exactly under that condition |
| `SimulatedBeadsXml.DecodeEncodeDecode` | src/main/java/net/preibisch/simulation/imgloader/XmlIoSimulatedBeadsImgLoader.java:46-92 | any configuration the decoder produces can be encoded, and encoding then decoding it reproduces it |
| `SimulatedBeadsXml.FromXmlIgnoresOrder` | src/main/java/net/preibisch/simulation/imgloader/XmlIoSimulatedBeadsImgLoader.java:80-85 | two elements whose children are permutations of each other, with distinct names, decode to the same result, whatever their names and format attributes |
| `SimulatedBeadsXml.MissingChild` | src/main/java/net/preibisch/simulation/imgloader/XmlIoSimulatedBeadsImgLoader.java:80-85 | removing any one of the six children from an encoded element makes decoding fail with that child reported missing |
| `SimulatedBeadsXml.DecodeMissing` | src/main/java/net/preibisch/simulation/imgloader/XmlIoSimulatedBeadsImgLoader.java:80-85 | when one of the six names is absent and every other lookup finds a value of the right kind, decoding fails with that name reported missing |

## Left out

- The `basePath` and `sequenceDescription` parameters are not modelled: neither affects the codec.
- The format string is a constant. The source reads it reflectively from the class annotation at line 49.
- The attribute's key is `IMGLOADER_FORMAT_ATTRIBUTE_NAME` from the SPIM data library. It is the element's `format` field; the library's XmlKeys is not part of this model.
- The tag constants at lines 41-43 are not modelled: the codec never uses them.
- `XmlHelpers` text conversion and jdom's `Element` are not modelled. A child holds a typed value, and reading one of another kind is a `WrongType` error. Parsing text that happens to read as another kind (a single integer read as a one-element array) is not modelled.
- `sigma` is a sequence over an abstract element type: it is only copied, so no floating-point behaviour is modelled.
- The `SimulateBeads` algorithm is not modelled. `SimulatedBeadsImgLoader`'s image access is not modelled either. `FromXml` returns the configuration that the source wraps in a new loader at lines 90-91.
- Java `null` arrays are not modelled: a configuration's sequences are always present.
- `SimulatedBeadsXml.ToXml` requires both intervals to have at least three dimensions. The source reads `min(d)` and `max(d)` for d in 0..2 without a check and throws on a smaller interval.
- No configuration invariant is modelled as checked: the source checks neither axis in {0,1,2}, nor min ≤ max, nor sigma of length 3.

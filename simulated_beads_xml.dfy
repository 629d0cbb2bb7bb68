/** The XML codec of the simulated-beads image loader: `ToXml` writes the
    configuration of a bead simulation as an `ImageLoader` element with six
    named children, and `FromXml` reads those children back by name and
    rebuilds the configuration.  Each 3-D interval travels as a flat
    `int[6]` holding the min corner at indices 0..2 and the max corner at
    indices 3..5. */
module SimulatedBeadsXml {
  import opened JavaInts
  import opened XmlTree

  /** The format identifier the codec is registered under. */
  const Format: string := "spimreconstruction.simulatedbeads"
  const ElementName: string := "ImageLoader"

  const RotationAngles: string := "rotation_angles"
  const Axis: string := "axis"
  const NumPoints: string := "num_points"
  const RangeSimulation: string := "range_simulation"
  const IntervalRender: string := "interval_render"
  const Sigma: string := "sigma"

  /** The child names, in the order the encoder writes them. */
  const ChildNames: seq<string> := [RotationAngles, Axis, NumPoints, RangeSimulation, IntervalRender, Sigma]

  /** An imglib2 interval: per-dimension min and max `long` coordinates. */
  datatype Interval = Interval(min: seq<Int64>, max: seq<Int64>)

  /** The parameters of a bead simulation; `D` stands for `double`. */
  datatype SimulateBeads<D> = SimulateBeads(
    angles: seq<Int32>,
    axis: Int32,
    numPoints: Int32,
    rangeSimulation: Interval,
    intervalRender: Interval,
    sigma: seq<D>)

  /** The encoder reads dimensions 0, 1 and 2 of both intervals. */
  predicate AtLeast3D(iv: Interval) {
    |iv.min| >= 3 && |iv.max| >= 3
  }

  predicate Encodable<D>(sb: SimulateBeads<D>) {
    AtLeast3D(sb.rangeSimulation) && AtLeast3D(sb.intervalRender)
  }

  /** An interval that survives the trip through `int[6]`: exactly three
      dimensions, every coordinate within `int` range. */
  predicate Representable(iv: Interval) {
    |iv.min| == 3 && |iv.max| == 3 &&
    (forall d :: 0 <= d < 3 ==> FitsInt32(iv.min[d]) && FitsInt32(iv.max[d]))
  }

  predicate RepresentableConfig<D>(sb: SimulateBeads<D>) {
    Representable(sb.rangeSimulation) && Representable(sb.intervalRender)
  }

  /** The flat layout `[min0, min1, min2, max0, max1, max2]`, each coordinate
      narrowed by `(int)`. */
  function Flatten(iv: Interval): (a: seq<Int32>)
    requires AtLeast3D(iv)
    ensures |a| == 6
    ensures forall d :: 0 <= d < 3 ==> a[d] == ToInt32(iv.min[d]) && a[d + 3] == ToInt32(iv.max[d])
  {
    [ToInt32(iv.min[0]), ToInt32(iv.min[1]), ToInt32(iv.min[2]),
     ToInt32(iv.max[0]), ToInt32(iv.max[1]), ToInt32(iv.max[2])]
  }

  /** The interval rebuilt from a flat array: min from `a[0..3)`, max from
      `a[3..6)`, each `int` widened to `long`.  Entries past index 5 are
      ignored. */
  function FromFlat(a: seq<Int32>): (iv: Interval)
    requires |a| >= 6
    ensures Representable(iv)
    ensures forall d :: 0 <= d < 3 ==> iv.min[d] as int == a[d] as int && iv.max[d] as int == a[d + 3] as int
  {
    Interval([a[0] as Int64, a[1] as Int64, a[2] as Int64], [a[3] as Int64, a[4] as Int64, a[5] as Int64])
  }

  /** The element `ToXml` builds, as a value. */
  function Encode<D>(sb: SimulateBeads<D>): (e: Element<D>)
    requires Encodable(sb)
  {
    Element(ElementName, Format, [
      Child(RotationAngles, IntArr(sb.angles)),
      Child(Axis, IntVal(sb.axis)),
      Child(NumPoints, IntVal(sb.numPoints)),
      Child(RangeSimulation, IntArr(Flatten(sb.rangeSimulation))),
      Child(IntervalRender, IntArr(Flatten(sb.intervalRender))),
      Child(Sigma, DblArr(sb.sigma))])
  }

  /** Writes the configuration as an `ImageLoader` element: the two intervals
      are flattened into fresh `int[6]` arrays by the loop over dimensions,
      then the six children are added one after another. */
  method ToXml<D>(sb: SimulateBeads<D>) returns (elem: Element<D>)
    requires Encodable(sb)
    ensures elem == Encode(sb)
  {
    var rangeSimulation := new Int32[6];
    var intervalRender := new Int32[6];

    for d := 0 to 3
      invariant forall k :: 0 <= k < d ==>
        rangeSimulation[k] == ToInt32(sb.rangeSimulation.min[k]) &&
        intervalRender[k] == ToInt32(sb.intervalRender.min[k]) &&
        rangeSimulation[k + 3] == ToInt32(sb.rangeSimulation.max[k]) &&
        intervalRender[k + 3] == ToInt32(sb.intervalRender.max[k])
    {
      rangeSimulation[d] := ToInt32(sb.rangeSimulation.min[d]);
      intervalRender[d] := ToInt32(sb.intervalRender.min[d]);

      rangeSimulation[d + 3] := ToInt32(sb.rangeSimulation.max[d]);
      intervalRender[d + 3] := ToInt32(sb.intervalRender.max[d]);
    }

    var children: seq<Child<D>> := [];
    children := children + [Child(RotationAngles, IntArr(sb.angles))];
    children := children + [Child(Axis, IntVal(sb.axis))];
    children := children + [Child(NumPoints, IntVal(sb.numPoints))];
    children := children + [Child(RangeSimulation, IntArr(rangeSimulation[..]))];
    children := children + [Child(IntervalRender, IntArr(intervalRender[..]))];
    children := children + [Child(Sigma, DblArr(sb.sigma))];

    assert rangeSimulation[..] == Flatten(sb.rangeSimulation);
    assert intervalRender[..] == Flatten(sb.intervalRender);
    elem := Element(ElementName, Format, children);
  }

  /** An element `FromXml` accepts: all six children present with the
      expected kinds of value, both interval arrays at least six long. */
  predicate Decodable<D>(e: Element<D>) {
    GetIntArray(e, RotationAngles).Ok? &&
    GetInt(e, Axis).Ok? &&
    GetInt(e, NumPoints).Ok? &&
    GetIntArray(e, RangeSimulation).Ok? &&
    GetIntArray(e, IntervalRender).Ok? &&
    GetDoubleArray(e, Sigma).Ok? &&
    |GetIntArray(e, RangeSimulation).value| >= 6 &&
    |GetIntArray(e, IntervalRender).value| >= 6
  }

  /** Reads the configuration back: the six children are looked up by name
      in the order the source reads them, then both intervals are rebuilt
      from their flat arrays.  Neither the element's name nor its format
      attribute is consulted, and no value is range-checked. */
  function FromXml<D>(e: Element<D>): (r: Result<SimulateBeads<D>>)
    ensures r.Ok? <==> Decodable(e)
    ensures r.Ok? ==> RepresentableConfig(r.value)
  {
    var angles :- GetIntArray(e, RotationAngles);
    var axis :- GetInt(e, Axis);
    var numPoints :- GetInt(e, NumPoints);
    var rs :- GetIntArray(e, RangeSimulation);
    var ir :- GetIntArray(e, IntervalRender);
    var sigma :- GetDoubleArray(e, Sigma);

    if |rs| < 6 then Err(TooShort(RangeSimulation))
    else if |ir| < 6 then Err(TooShort(IntervalRender))
    else
      var rangeSimulation := FromFlat(rs);
      var intervalRender := FromFlat(ir);
      Ok(SimulateBeads(angles, axis, numPoints, rangeSimulation, intervalRender, sigma))
  }

  /** The names of a list of children, in order. */
  function Names<D>(cs: seq<Child<D>>): (ns: seq<string>)
    ensures |ns| == |cs|
    ensures forall i :: 0 <= i < |cs| ==> ns[i] == cs[i].name
  {
    if cs == [] then [] else [cs[0].name] + Names(cs[1..])
  }

  /** The encoder names the element `ImageLoader`, tags it with the format
      identifier and writes exactly the six children, in the fixed order,
      under distinct names. */
  lemma EncodeShape<D>(sb: SimulateBeads<D>)
    requires Encodable(sb)
    ensures Encode(sb).name == ElementName && Encode(sb).format == Format
    ensures Names(Encode(sb).children) == ChildNames
    ensures UniqueNames(Encode(sb).children)
  {
  }

  /** Reading the encoded element by name finds angles, axis, point count
      and sigma verbatim, and both intervals in the flat layout of
      `Flatten`. */
  lemma EncodeValues<D>(sb: SimulateBeads<D>)
    requires Encodable(sb)
    ensures Lookup(Encode(sb).children, RotationAngles) == Some(IntArr(sb.angles))
    ensures Lookup(Encode(sb).children, Axis) == Some(IntVal(sb.axis))
    ensures Lookup(Encode(sb).children, NumPoints) == Some(IntVal(sb.numPoints))
    ensures Lookup(Encode(sb).children, RangeSimulation) == Some(IntArr(Flatten(sb.rangeSimulation)))
    ensures Lookup(Encode(sb).children, IntervalRender) == Some(IntArr(Flatten(sb.intervalRender)))
    ensures Lookup(Encode(sb).children, Sigma) == Some(DblArr(sb.sigma))
  {
    var cs := Encode(sb).children;
    EncodeShape(sb);
    LookupFindsMember(cs, RotationAngles, cs[0].value);
    LookupFindsMember(cs, Axis, cs[1].value);
    LookupFindsMember(cs, NumPoints, cs[2].value);
    LookupFindsMember(cs, RangeSimulation, cs[3].value);
    LookupFindsMember(cs, IntervalRender, cs[4].value);
    LookupFindsMember(cs, Sigma, cs[5].value);
  }

  /** Flattening an interval and rebuilding it gives the interval back
      exactly when it has three dimensions and every coordinate fits an
      `int`; otherwise the `(int)` cast or the dropped dimensions lose it. */
  lemma FlattenRoundTrip(iv: Interval)
    requires AtLeast3D(iv)
    ensures FromFlat(Flatten(iv)) == iv <==> Representable(iv)
  {
  }

  /** Rebuilding an interval from a flat array and flattening it again gives
      back the first six entries. */
  lemma FromFlatRoundTrip(a: seq<Int32>)
    requires |a| >= 6
    ensures Flatten(FromFlat(a)) == a[..6]
  {
  }

  /** Round trip: decoding what the encoder wrote rebuilds the configuration
      field by field when both intervals are three-dimensional with every
      coordinate within `int` range. */
  lemma RoundTrip<D>(sb: SimulateBeads<D>)
    requires Encodable(sb) && RepresentableConfig(sb)
    ensures FromXml(Encode(sb)) == Ok(sb)
  {
    EncodeValues(sb);
    DecodeFound(Encode(sb), sb.angles, sb.axis, sb.numPoints,
                Flatten(sb.rangeSimulation), Flatten(sb.intervalRender), sb.sigma);
    FlattenRoundTrip(sb.rangeSimulation);
    FlattenRoundTrip(sb.intervalRender);
  }

  /** Otherwise the decoder still accepts what the encoder wrote, but the
      configuration it rebuilds differs from the original: the `(int)` cast
      or the dimensions past the third have lost information. */
  lemma RoundTripLossy<D>(sb: SimulateBeads<D>)
    requires Encodable(sb) && !RepresentableConfig(sb)
    ensures FromXml(Encode(sb)).Ok?
    ensures FromXml(Encode(sb)) != Ok(sb)
  {
    EncodeValues(sb);
    DecodeFound(Encode(sb), sb.angles, sb.axis, sb.numPoints,
                Flatten(sb.rangeSimulation), Flatten(sb.intervalRender), sb.sigma);
  }

  /** An element whose six lookups find values of the right kinds, with both
      interval arrays long enough, decodes to exactly those values. */
  lemma DecodeFound<D>(e: Element<D>, angles: seq<Int32>, axis: Int32, numPoints: Int32,
                       rs: seq<Int32>, ir: seq<Int32>, sigma: seq<D>)
    requires Lookup(e.children, RotationAngles) == Some(IntArr(angles))
    requires Lookup(e.children, Axis) == Some(IntVal(axis))
    requires Lookup(e.children, NumPoints) == Some(IntVal(numPoints))
    requires Lookup(e.children, RangeSimulation) == Some(IntArr(rs))
    requires Lookup(e.children, IntervalRender) == Some(IntArr(ir))
    requires Lookup(e.children, Sigma) == Some(DblArr(sigma))
    requires |rs| >= 6 && |ir| >= 6
    ensures FromXml(e) == Ok(SimulateBeads(angles, axis, numPoints, FromFlat(rs), FromFlat(ir), sigma))
  {
  }

  /** Whatever configuration the decoder produces, writing it and reading it
      back reproduces it. */
  lemma DecodeEncodeDecode<D>(e: Element<D>)
    requires FromXml(e).Ok?
    ensures Encodable(FromXml(e).value)
    ensures FromXml(Encode(FromXml(e).value)) == FromXml(e)
  {
    RoundTrip(FromXml(e).value);
  }

  /** The decoder finds its children by name, so any reordering of an
      element's (distinctly named) children, and any element name or format
      attribute, decode to the same result. */
  lemma FromXmlIgnoresOrder<D>(e1: Element<D>, e2: Element<D>)
    requires UniqueNames(e1.children)
    requires multiset(e1.children) == multiset(e2.children)
    ensures FromXml(e1) == FromXml(e2)
  {
    LookupIgnoresOrder(e1.children, e2.children, RotationAngles);
    LookupIgnoresOrder(e1.children, e2.children, Axis);
    LookupIgnoresOrder(e1.children, e2.children, NumPoints);
    LookupIgnoresOrder(e1.children, e2.children, RangeSimulation);
    LookupIgnoresOrder(e1.children, e2.children, IntervalRender);
    LookupIgnoresOrder(e1.children, e2.children, Sigma);
  }

  /** The children other than those called `name`, in order. */
  function Without<D>(cs: seq<Child<D>>, name: string): (r: seq<Child<D>>)
    ensures |r| <= |cs|
    ensures forall i :: 0 <= i < |r| ==> r[i].name != name
  {
    if cs == [] then []
    else if cs[0].name == name then Without(cs[1..], name)
    else [cs[0]] + Without(cs[1..], name)
  }

  /** Removing the children called `name` hides that name from a lookup and
      leaves every other lookup as it was. */
  lemma {:induction false} LookupWithout<D>(cs: seq<Child<D>>, name: string, other: string)
    ensures Lookup(Without(cs, name), other) == if other == name then None else Lookup(cs, other)
  {
    if cs != [] {
      LookupWithout(cs[1..], name, other);
    }
  }

  /** An element that has everything the encoder writes except one child
      fails to decode, and the error names that child: no other child is
      short or of the wrong kind, and lengths are checked only after every
      lookup. */
  lemma MissingChild<D>(sb: SimulateBeads<D>, name: string, elementName: string, format: string)
    requires Encodable(sb)
    requires name in ChildNames
    ensures FromXml(Element(elementName, format, Without(Encode(sb).children, name))) == Err(Missing(name))
  {
    var cs := Encode(sb).children;
    EncodeValues(sb);
    LookupWithout(cs, name, RotationAngles);
    LookupWithout(cs, name, Axis);
    LookupWithout(cs, name, NumPoints);
    LookupWithout(cs, name, RangeSimulation);
    LookupWithout(cs, name, IntervalRender);
    LookupWithout(cs, name, Sigma);
    DecodeMissing(Element(elementName, format, Without(cs, name)), name, sb.angles, sb.axis, sb.numPoints,
                  Flatten(sb.rangeSimulation), Flatten(sb.intervalRender), sb.sigma);
  }

  /** An element in which one of the six names is absent and every other
      lookup finds a value of the right kind fails with that name missing. */
  lemma DecodeMissing<D>(e: Element<D>, name: string, angles: seq<Int32>, axis: Int32, numPoints: Int32,
                         rs: seq<Int32>, ir: seq<Int32>, sigma: seq<D>)
    requires name in ChildNames
    requires Lookup(e.children, RotationAngles) == if name == RotationAngles then None else Some(IntArr(angles))
    requires Lookup(e.children, Axis) == if name == Axis then None else Some(IntVal(axis))
    requires Lookup(e.children, NumPoints) == if name == NumPoints then None else Some(IntVal(numPoints))
    requires Lookup(e.children, RangeSimulation) == if name == RangeSimulation then None else Some(IntArr(rs))
    requires Lookup(e.children, IntervalRender) == if name == IntervalRender then None else Some(IntArr(ir))
    requires Lookup(e.children, Sigma) == if name == Sigma then None else Some(DblArr(sigma))
    ensures FromXml(e) == Err(Missing(name))
  {
  }
}

/** Java's fixed-width integers, as far as the image-loader codec uses them:
    `int` fields of the simulation, `long` coordinates of an imglib2 interval,
    and the narrowing `(int)` cast from one to the other. */
module JavaInts {

  const TwoTo32: int := 0x1_0000_0000

  /** A Java `int`. */
  newtype Int32 = x: int | -0x8000_0000 <= x < 0x8000_0000

  /** A Java `long`. */
  newtype Int64 = x: int | -0x8000_0000_0000_0000 <= x < 0x8000_0000_0000_0000

  /** True when a `long` holds a value that an `int` can hold too. */
  predicate FitsInt32(x: Int64) {
    -0x8000_0000 <= x < 0x8000_0000
  }

  /** Java's `(int)` cast of a `long`: keep the low 32 bits and read them
      as a two's-complement number. */
  function ToInt32(x: Int64): (r: Int32)
    ensures (r as int - x as int) % TwoTo32 == 0
    ensures r as int == x as int <==> FitsInt32(x)
  {
    var m := x as int % TwoTo32;
    if m < 0x8000_0000 then m as Int32 else (m - TwoTo32) as Int32
  }
}

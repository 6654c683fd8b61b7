/** The C scalar types the core stores and copies. */
module CTypes {

  /** A C `float`, kept as its IEEE 754 binary32 bit pattern. The core only
      copies floats between structures and hands them to the renderer, so no
      floating-point arithmetic is modelled. */
  datatype Float = Float(bits: bv32)

  const ZERO_F: Float := Float(0x0000_0000)   // 0.0f
  const ONE_F: Float := Float(0x3F80_0000)    // 1.0f

  newtype uint32 = x: int | 0 <= x < 0x1_0000_0000

  const INT32_MIN: int := -0x8000_0000
  const INT32_MAX: int := 0x7FFF_FFFF

  /** The value a `uint32_t` takes when it is passed where a 32-bit `int` is
      expected (two's complement wrap-around). */
  function ToInt32(u: uint32): (r: int)
    ensures INT32_MIN <= r <= INT32_MAX
    ensures (r - u as int) % 0x1_0000_0000 == 0
    ensures u as int <= INT32_MAX ==> r == u as int
  {
    if u as int <= INT32_MAX then u as int else u as int - 0x1_0000_0000
  }
}

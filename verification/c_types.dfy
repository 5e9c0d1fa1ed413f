/** The C++ integer types the model needs, as ranges of unbounded integers,
    with the conversions that wrap. */
module CTypes {
  const UInt32Limit: int := 0x1_0000_0000
  const SizeLimit: int := 0x1_0000_0000_0000_0000

  /** `uint32_t`. */
  type UInt32 = x: int | 0 <= x < UInt32Limit

  /** `size_t` on a 64-bit target. */
  type SizeT = x: int | 0 <= x < SizeLimit

  /** `int` / `GLint`. */
  type Int32 = x: int | -0x8000_0000 <= x < 0x8000_0000

  /** The conversion of an integer to `size_t`, and `size_t` arithmetic:
      the value modulo 2^64. */
  function ToSizeT(x: int): (r: SizeT)
    ensures 0 <= x < SizeLimit ==> r == x
    ensures -SizeLimit <= x < 0 ==> r == x + SizeLimit
    ensures x == SizeLimit ==> r == 0
  {
    x % SizeLimit
  }
}

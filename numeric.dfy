/** The fixed-width integer types of the source, as bounded newtypes, and an
    opaque 64-bit float on which the model does no arithmetic. */
module Numeric {

  const U64_LIMIT: int := 0x1_0000_0000_0000_0000

  newtype i32 = x: int | -0x8000_0000 <= x < 0x8000_0000
  newtype i64 = x: int | -0x8000_0000_0000_0000 <= x < 0x8000_0000_0000_0000
  newtype i128 = x: int | -0x8000_0000_0000_0000_0000_0000_0000_0000 <= x < 0x8000_0000_0000_0000_0000_0000_0000_0000
  newtype u16 = x: int | 0 <= x < 0x1_0000
  newtype u32 = x: int | 0 <= x < 0x1_0000_0000
  newtype u64 = x: int | 0 <= x < 0x1_0000_0000_0000_0000
  newtype u128 = x: int | 0 <= x < 0x1_0000_0000_0000_0000_0000_0000_0000_0000

  /** An IEEE 754 double, kept as its bit pattern: floats are only stored and
      serialized, never computed with. */
  datatype F64 = F64(bits: bv64)
}

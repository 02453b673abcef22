/** The fixed-width unsigned integer types of the configuration schema. */
module Types {

  /** `u16`: 0 .. 65535. */
  newtype U16 = x: int | 0 <= x < 0x1_0000

  /** `u32`: 0 .. 2^32 - 1. */
  newtype U32 = x: int | 0 <= x < 0x1_0000_0000
}

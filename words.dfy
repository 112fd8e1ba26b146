/** The optional value used for every call that can fail without saying why. */
module Wrappers {
  datatype Option<+T> = None | Some(value: T)
}

/** Fixed-width integers of the target process: 32-bit unsigned addresses and
    cell contents, 32-bit signed game values. */
module Words {
  const U32_MODULUS: int := 0x1_0000_0000

  type u32 = x: int | 0 <= x < 0x1_0000_0000
  type i32 = x: int | -0x8000_0000 <= x < 0x8000_0000

  /** `a + b` on `u32` as a release build computes it: wrapping modulo 2^32
      (a debug build panics instead). */
  function Add32(a: u32, b: u32): (r: u32)
    ensures r == a + b || r == a + b - U32_MODULUS
  {
    (a + b) % U32_MODULUS
  }

  /** How far `b` has to move forward, wrapping, to reach `a`. */
  function Diff32(a: u32, b: u32): (r: u32)
    ensures Add32(b, r) == a
  {
    (a - b) % U32_MODULUS
  }

  /** The signed value whose two's-complement bytes are the cell `v`. */
  function AsI32(v: u32): (r: i32)
    ensures r % U32_MODULUS == v
  {
    if v < 0x8000_0000 then v else v - U32_MODULUS
  }

  /** The cell holding the two's-complement bytes of `x`. */
  function AsU32(x: i32): (r: u32)
    ensures AsI32(r) == x
  {
    if x >= 0 then x else x + U32_MODULUS
  }
}

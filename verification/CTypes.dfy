// Machine integers and kernel macros shared by the driver models.

module CTypes {

  const U32_MODULUS := 0x1_0000_0000

  datatype Option<+T> = None | Some(value: T)

  type byte = x: int | 0 <= x < 256
  type u16 = x: int | 0 <= x < 0x1_0000
  type u32 = x: int | 0 <= x < U32_MODULUS

  type u64 = x: int | 0 <= x < 0x1_0000_0000_0000_0000

  // A cast from u32 to a 32-bit int, as clamp_t(int, ...) performs it.
  function ToInt32(x: u32): int {
    if x < 0x8000_0000 then x else x - U32_MODULUS
  }

  // The kernel's clamp() tests the upper limit first, which decides what it
  // yields when the limits cross.
  function Clamp(x: int, lo: int, hi: int): int {
    if x >= hi then hi else if x <= lo then lo else x
  }

  function Min(a: int, b: int): int {
    if a <= b then a else b
  }

  function Max(a: int, b: int): int {
    if a >= b then a else b
  }

  // DIV_ROUND_UP for a non-negative numerator.
  function DivRoundUp(n: nat, d: nat): nat
    requires 0 < d
  {
    (n + d - 1) / d
  }

  // ALIGN(x, 8)
  function Align8(x: nat): (r: nat)
    ensures x <= r < x + 8 && r % 8 == 0
  {
    (x + 7) / 8 * 8
  }
}

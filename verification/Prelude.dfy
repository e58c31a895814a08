/** Shared vocabulary: optional values, machine integers and byte strings. */
module Prelude {

  datatype Option<+T> = None | Some(value: T)

  datatype Result<+T, +E> = Ok(value: T) | Err(error: E)

  const U32_MAX: nat := 0xFFFF_FFFF
  const U64_MAX: nat := 0xFFFF_FFFF_FFFF_FFFF

  type U64 = n: nat | n <= U64_MAX

  type Byte = n: nat | n < 256

  type Bytes = seq<Byte>

  function Min(a: nat, b: nat): nat {
    if a < b then a else b
  }

  /** The 64-bit `saturating_add`. */
  function SaturatingAdd(a: U64, b: U64): U64 {
    if a + b <= U64_MAX then a + b else U64_MAX
  }

  /** The unsigned `div_ceil`. */
  function DivCeil(a: nat, d: nat): nat
    requires d > 0
  {
    if a % d == 0 then a / d else a / d + 1
  }

  /** How many values `n` bytes can hold. */
  function Pow256(n: nat): (p: nat)
    ensures p > 0
  {
    if n == 0 then 1 else 256 * Pow256(n - 1)
  }
}

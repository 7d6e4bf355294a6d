/** The fixed-width number types of the program, its saturating operators, and Option/Result. */
module Numbers {
  type byte = n: int | 0 <= n < 0x100
  type u8 = n: int | 0 <= n < 0x100
  type u16 = n: int | 0 <= n < 0x1_0000
  type u32 = n: int | 0 <= n < 0x1_0000_0000
  type u64 = n: int | 0 <= n < 0x1_0000_0000_0000_0000

  const U64_MAX: u64 := 0xFFFF_FFFF_FFFF_FFFF

  datatype Option<+T> = None | Some(value: T)

  datatype Result<+T, +E> = Ok(value: T) | Err(error: E)

  function Min(a: int, b: int): int {
    if a <= b then a else b
  }

  function Max(a: int, b: int): int {
    if a <= b then b else a
  }

  function Clamp(n: int, lo: int, hi: int): int {
    if n < lo then lo else if hi < n then hi else n
  }

  /** One if the flag is set: a SYN or a FIN takes one sequence number. */
  function Bit(flag: bool): nat {
    if flag then 1 else 0
  }

  /** `saturating_sub` on an unsigned type. */
  function SatSub(a: nat, b: nat): nat {
    if a <= b then 0 else a - b
  }

  /** `saturating_add` on the 64-bit clock and on a 64-bit `usize`. */
  function SatAdd(a: nat, b: nat): u64 {
    if a + b <= U64_MAX then a + b else U64_MAX
  }

  /** `saturating_mul` on a 64-bit type. */
  function SatMul(a: nat, b: nat): u64 {
    if 0 <= a * b <= U64_MAX then a * b else U64_MAX
  }

  /** `div_ceil`. */
  function DivCeil(a: nat, b: nat): nat
    requires b > 0
  {
    (a + b - 1) / b
  }
}

/** The fixed-width Rust integer types the exporter uses, as ranges of `int`. */
module Ints {

  const TWO_16: int := 0x1_0000
  const TWO_32: int := 0x1_0000_0000
  const TWO_63: int := 0x8000_0000_0000_0000
  const TWO_64: int := 0x1_0000_0000_0000_0000

  type u16 = x: int | 0 <= x < TWO_16
  type u32 = x: int | 0 <= x < TWO_32
  type u64 = x: int | 0 <= x < TWO_64
  type i64 = x: int | -TWO_63 <= x < TWO_63

  /** `u64::saturating_sub`: the least non-negative `r` with `r + b >= a`. */
  function SaturatingSub(a: u64, b: u64): (r: u64)
    ensures r <= a
    ensures a <= r + b
    ensures r == 0 || r + b == a
  {
    if b <= a then a - b else 0
  }

  /** `v as u64` for an `i64`: the same 64 bits read as unsigned, so equal modulo 2^64. */
  function I64AsU64(v: i64): (r: u64)
    ensures (r - v) % TWO_64 == 0
    ensures 0 <= v ==> r == v
    ensures v < 0 ==> TWO_63 <= r
  {
    if v < 0 then v + TWO_64 else v
  }
}

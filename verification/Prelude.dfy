/** Small shared vocabulary: optional values, results, and Go's 64-bit signed integers. */
module Prelude {

  datatype Option<+T> = None | Some(value: T)

  datatype Result<+T> = Ok(value: T) | Err

  const INT64_MIN := -0x8000_0000_0000_0000
  const INT64_MAX := 0x7FFF_FFFF_FFFF_FFFF

  type int64 = x: int | INT64_MIN <= x <= INT64_MAX

  /** What a 64-bit signed register holds after computing x: two's-complement wrap-around. */
  function Wrap64(x: int): (r: int64) {
    (x - INT64_MIN) % 0x1_0000_0000_0000_0000 + INT64_MIN
  }

  function Min(a: int, b: int): int { if a <= b then a else b }

  function Max(a: int, b: int): int { if a <= b then b else a }
}

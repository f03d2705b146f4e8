/** Go's fixed-width integers: ranges, truncating division and wrap-around. */
module GoIntegers {
  type int64 = x: int | -0x8000_0000_0000_0000 <= x < 0x8000_0000_0000_0000
  type int32 = x: int | -0x8000_0000 <= x < 0x8000_0000

  const MAX32: int := 0x7FFF_FFFF
  const MIN32: int := -0x8000_0000

  /** Division truncates toward zero. */
  function Quot(a: int, b: int): int
    requires b > 0
  {
    if a >= 0 then a / b else -((-a) / b)
  }

  function Rem(a: int, b: int): int
    requires b > 0
  {
    a - Quot(a, b) * b
  }

  /** Arithmetic and conversions keep the low bits. */
  function Wrap32(x: int): int32 {
    (x + 0x8000_0000) % 0x1_0000_0000 - 0x8000_0000
  }

  function Wrap64(x: int): int64 {
    (x + 0x8000_0000_0000_0000) % 0x1_0000_0000_0000_0000 - 0x8000_0000_0000_0000
  }

  /** They are the one value in range that differs by a multiple of the width. */
  lemma Wraps32(x: int, r: int32)
    ensures r == Wrap32(x) <==> (r - x) % 0x1_0000_0000 == 0
  {
  }

  lemma Wraps64(x: int, r: int64)
    ensures r == Wrap64(x) <==> (r - x) % 0x1_0000_0000_0000_0000 == 0
  {
  }
}

/** Go's fixed-width signed integers and their two's-complement arithmetic. */
module GoInt {

  const TwoTo31: int := 0x8000_0000
  const TwoTo32: int := 0x1_0000_0000
  const TwoTo63: int := 0x8000_0000_0000_0000
  const TwoTo64: int := 0x1_0000_0000_0000_0000

  const MaxInt32: int := TwoTo31 - 1
  const MaxInt64: int := TwoTo63 - 1

  newtype int32 = x: int | -0x8000_0000 <= x < 0x8000_0000
  newtype int64 = x: int | -0x8000_0000_0000_0000 <= x < 0x8000_0000_0000_0000

  /** The int32 that a mathematical integer becomes when Go's int32 arithmetic wraps around. */
  function Wrap32(x: int): (r: int32)
    ensures -TwoTo31 <= x < TwoTo31 ==> r as int == x
    ensures (x - r as int) % 0x1_0000_0000 == 0
  {
    var m := x % 0x1_0000_0000;
    assert x - m == 0x1_0000_0000 * (x / 0x1_0000_0000);
    if m < 0x8000_0000 then m as int32 else (m - 0x1_0000_0000) as int32
  }

  /** The int64 that a mathematical integer becomes when Go's int64 arithmetic wraps around. */
  function Wrap64(x: int): (r: int64)
    ensures -TwoTo63 <= x < TwoTo63 ==> r as int == x
    ensures (x - r as int) % 0x1_0000_0000_0000_0000 == 0
  {
    var m := x % 0x1_0000_0000_0000_0000;
    assert x - m == 0x1_0000_0000_0000_0000 * (x / 0x1_0000_0000_0000_0000);
    if m < 0x8000_0000_0000_0000 then m as int64 else (m - 0x1_0000_0000_0000_0000) as int64
  }

  /** Go's `a - b` on int32. */
  function Sub32(a: int32, b: int32): int32 { Wrap32(a as int - b as int) }

  /** Go's `a * b` on int32. */
  function Mul32(a: int32, b: int32): int32 { Wrap32(a as int * b as int) }

  /** Go's `a + b` on int64. */
  function Add64(a: int64, b: int64): int64 { Wrap64(a as int + b as int) }

  /** Go's `a - b` on int64. */
  function Sub64(a: int64, b: int64): int64 { Wrap64(a as int - b as int) }
}

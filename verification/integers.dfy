// The bounds of the source's 64-bit signed integers.

module Integers {
  const MinInt64: int := -0x8000_0000_0000_0000
  const MaxInt64: int := 0x7fff_ffff_ffff_ffff
}

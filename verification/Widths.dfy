/** The bounds of the source's 64-bit integers. */
module Widths {
  const TWO_63 := 0x8000_0000_0000_0000
  const TWO_64 := 0x1_0000_0000_0000_0000
}

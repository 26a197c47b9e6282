/** The nanoseconds of a second, and the widths of the source's integers. */
module Units {
  const NANOS: nat := 1_000_000_000
  const TWO_32: nat := 0x1_0000_0000
  const TWO_64: nat := 0x1_0000_0000_0000_0000
}

/** Log positions (jlog_id) and the sentinel the binding compares them against. */
module Positions {

  /** An unsigned 32-bit field, as the two halves of a jlog_id are. */
  type u32 = x: int | 0 <= x < 0x1_0000_0000

  /** A jlog_id: the log segment number and the marker (message number) in it.
      The binding compares positions only with memcmp, so equality is structural. */
  datatype Pos = Pos(log: u32, marker: u32)

  /** The all-zero position, used as "unset" for start, last, prev and end. */
  const Epoch: Pos := Pos(0, 0)
}

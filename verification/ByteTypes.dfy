/** Machine-sized integers as ranges of `int`. */
module ByteTypes {
  type Byte = x: int | 0 <= x < 256
  type Bytes = seq<Byte>
  type U16 = x: int | 0 <= x < 65536

  /** u16::to_le_bytes, and its inverse. */
  function LittleEndian(v: U16): (b: Bytes)
    ensures |b| == 2 && FromLittleEndian(b[0], b[1]) == v
  {
    [v % 256, v / 256]
  }

  function FromLittleEndian(lo: Byte, hi: Byte): U16 {
    lo + 256 * hi
  }
}

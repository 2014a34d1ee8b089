/** Fixed-width unsigned integers and their little-endian images. */
module Bytes {
  type byte = n: nat | n < 0x100
  type u16 = n: nat | n < 0x1_0000
  type u32 = n: nat | n < 0x1_0000_0000

  /** What a UTF-8 string or a printed socket address is on the wire. */
  type Text = seq<byte>
}

/** Bytes, as the rings, the wire format and the snapshots hold them. */
module Bytes {

  type Byte = b: int | 0 <= b < 256
}

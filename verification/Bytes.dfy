/** Bytes, and the node identifiers made of them. */
module Bytes {
  type byte = x: int | 0 <= x < 256

  /** A compressed public key. */
  datatype NodeID = NodeID(key: seq<byte>)
}

/** Octets as 8-bit bit-vectors, with the one conversion fact the framing proofs need. */
module Bytes {

  type Byte = bv8

  /** A number below 256 survives the trip through a byte. */
  lemma ByteOfSmall(r: nat)
    requires r < 256
    ensures (r as Byte) as nat == r
  {
  }
}

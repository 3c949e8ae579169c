/**
 * Unsigned bytes and byte strings. Java strings that end up on the wire are
 * modelled by their byte encoding; the literals used by the model are ASCII.
 */
module ByteStrings {

  /** An unsigned byte, as returned by `getUnsignedByte`. */
  type Byte = b: int | 0 <= b < 256

  type Bytes = seq<Byte>

  /** The ASCII encoding of a string whose characters are all below 128. */
  function Ascii(s: string): (r: Bytes)
    requires forall i :: 0 <= i < |s| ==> s[i] as int < 128
    ensures |r| == |s|
    ensures forall i :: 0 <= i < |s| ==> r[i] == s[i] as int
  {
    seq(|s|, i requires 0 <= i < |s| => s[i] as int)
  }
}

/** Bytes, and the line ends that frame a byte stream. */
module Bytes {
  import opened Framing

  newtype byte = b: int | 0 <= b < 256

  const LF: byte := 10
  const CR: byte := 13
  const ByteEnds := Ends(LF, CR)

  /** ASCII white space: tab, line feed, form feed, carriage return and space. */
  predicate IsBlank(s: seq<byte>) {
    forall i | 0 <= i < |s| :: s[i] in {9, 10, 12, 13, 32}
  }
}

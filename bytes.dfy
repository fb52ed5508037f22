/** Go strings are byte sequences; query text is modelled as such. */
module Bytes {

  newtype byte = x: int | 0 <= x < 256

  type ByteString = seq<byte>

  const OpenBrace: byte := 0x7B   // '{'
  const Percent: byte := 0x25     // '%'
}

/** Octets and octet strings, shared by the modules that work on raw buffers. */
module Octets {
  newtype Byte = b: int | 0 <= b < 256
  type Bytes = seq<Byte>
}

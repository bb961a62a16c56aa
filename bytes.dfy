/** The value of one byte, as a `Uint8Array` element or a UTF-8 code unit holds it. */
module Bytes {
  type Byte = b: int | 0 <= b < 256
}

/** Bytes, as the streams and buffers hold them. */
module Bytes {
  type byte = x: int | 0 <= x < 256
}

/** What travels on the wire. */
module Bytes {
  type byte = x: int | 0 <= x < 256
}

/** One octet. */
module Octets {

  type byte = x: int | 0 <= x < 256
}

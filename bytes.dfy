/** The 8-bit unsigned values both parts of the display use: opacities, brightness, words per minute. */
module Bytes {
  type Byte = n: int | 0 <= n < 256
}

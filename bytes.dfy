/** Bytes as the Python code sees them: integers in [0, 256). */
module Bytes {
  type byte = x: int | 0 <= x < 256
}

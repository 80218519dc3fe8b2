/** The bytes of frames, payloads and streams. */
module Octets {
  type byte = bv8
}

/** Octets, as written to I/O ports and as held in C `char` buffers. */
module Bytes {

  newtype byte = b: int | 0 <= b < 0x100
}

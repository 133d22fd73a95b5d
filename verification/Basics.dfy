// Definitions shared by every part of the model.
module Basics {
  datatype Option<+T> = None | Some(value: T)

  const U32_MAX: nat := 0xFFFF_FFFF
  const U64_MAX: nat := 0xFFFF_FFFF_FFFF_FFFF

  const TAG_SIZE: nat := 16
  const MAX_DATA: nat := 16_384
  const DATAGRAM_HEADER_SIZE: nat := 32
  const MAX_DATAGRAM: nat := 976
}

/** Names that several parts share. */
module Base {
  type RoomId(==, !new)
  type Byte = bv8
}

/** Row identities. */
module Ids {
  import opened Text

  /** The canonical text of a UUID is 36 bytes long. */
  type UuidText = text: Bytes | |text| == 36 witness seq(36, i => 48)

  datatype Id = Id(text: UuidText)

  /** The primary key of a Space membership. */
  datatype Member = MemberKey(space: Id, user: Id)
}

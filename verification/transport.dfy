/** Transport classification: whether a write waits for the device's
    acknowledgement (`CommandKind` and its conversion into btleplug's
    `WriteType`). */
module Transport {

  /** A request expects an acknowledgement; a command is fire-and-forget. */
  datatype CommandKind = Request | Command

  /** The two GATT write types the conversion can produce. */
  datatype WriteType = WithResponse | WithoutResponse

  /** `Into<WriteType> for CommandKind`: an exhaustive match, so every kind
      converts; only a request waits for a response. */
  function IntoWriteType(kind: CommandKind): (w: WriteType)
    ensures w.WithResponse? <==> kind.Request?
    ensures w.WithoutResponse? <==> kind.Command?
  {
    match kind
    case Request => WithResponse
    case Command => WithoutResponse
  }

  /** The two kinds convert to different write types, and both write types
      are reached. */
  lemma IntoWriteTypeBijective()
    ensures forall k1, k2 :: IntoWriteType(k1) == IntoWriteType(k2) ==> k1 == k2
    ensures {IntoWriteType(Request), IntoWriteType(Command)} == {WithResponse, WithoutResponse}
  {
  }
}

/** The default `request_payload` of each capability trait (`Get`,
    `ModeGet`, `Set`, `ModeSet`, `ParameterlessSet`), as builders
    parameterised by the opcode the implementing command supplies. */
module Capabilities {
  import opened Results
  import opened Framing
  import opened Parameters

  /** `Get::request_payload`: magic and opcode, four bytes. */
  function GetPayload(opcode: Byte): (p: Payload)
    ensures p == [0x00, 0x0a, 0x04, opcode]
  {
    Frame(MagicRequest, opcode, None)
  }

  /** `ModeGet::request_payload`: magic, opcode, then the mode byte. */
  function ModeGetPayload(opcode: Byte, mode: OperationalMode): (p: Payload)
    ensures p == [0x00, 0x0a, 0x04, opcode, mode.ModeByte()]
    ensures p[4] == 0x01 || p[4] == 0x02
  {
    Frame(MagicRequest, opcode, Some([mode.ModeByte()]))
  }

  /** `ParameterlessSet::request_payload`: the mode byte is the whole body. */
  function ParameterlessSetPayload(opcode: Byte, mode: OperationalMode): (p: Payload)
    ensures p == [0x00, 0x0a, 0x04, opcode, mode.ModeByte()]
    ensures p[4] == 0x01 || p[4] == 0x02
  {
    Frame(MagicRequest, opcode, Some([mode.ModeByte()]))
  }

  /** `Set::request_payload`: magic, opcode, then `parameter.value()`. The
      parameter is any `&dyn Parameter`; nothing checks its type. */
  function SetPayload(opcode: Byte, parameter: Parameter): (p: Payload)
    ensures |p| == 4 + |parameter.Value()|
    ensures p[..4] == [0x00, 0x0a, 0x04, opcode]
    ensures p[4..] == parameter.Value()
  {
    Frame(MagicRequest, opcode, Some(parameter.Value()))
  }

  /** `ModeSet::request_payload`: the mode byte is inserted at the front of
      the parameter bytes, so it directly follows the opcode and precedes
      every parameter byte. */
  function ModeSetPayload(opcode: Byte, mode: OperationalMode, parameter: Parameter): (p: Payload)
    ensures |p| == 5 + |parameter.Value()|
    ensures p[..4] == [0x00, 0x0a, 0x04, opcode]
    ensures p[4] == mode.ModeByte()
    ensures p[5..] == parameter.Value()
  {
    var tail := [mode.ModeByte()] + parameter.Value();
    Frame(MagicRequest, opcode, Some(tail))
  }

  /** Every request starts with the request magic, never the reply magic. */
  lemma RequestsNeverCarryReplyMagic(opcode: Byte, mode: OperationalMode, parameter: Parameter)
    ensures GetPayload(opcode)[..3] == MagicRequest != MagicReply
    ensures SetPayload(opcode, parameter)[..3] == MagicRequest
    ensures ModeSetPayload(opcode, mode, parameter)[..3] == MagicRequest
    ensures ModeGetPayload(opcode, mode)[..3] == MagicRequest
    ensures ParameterlessSetPayload(opcode, mode)[..3] == MagicRequest
  {
  }

  /** The `ModeGet` and `ParameterlessSet` defaults emit identical bytes for
      the same opcode and mode. */
  lemma ModeGetMatchesParameterlessSet(opcode: Byte, mode: OperationalMode)
    ensures ModeGetPayload(opcode, mode) == ParameterlessSetPayload(opcode, mode)
  {
  }

  /** A write extends the read of the same opcode: the `Get` frame is a
      prefix of every `Set` frame, and the `ModeGet` frame a prefix of every
      `ModeSet` frame with the same mode. */
  lemma WritesExtendReads(opcode: Byte, mode: OperationalMode, parameter: Parameter)
    ensures SetPayload(opcode, parameter)[..4] == GetPayload(opcode)
    ensures ModeSetPayload(opcode, mode, parameter)[..5] == ModeGetPayload(opcode, mode)
  {
  }

  /** A `ModeSet` frame is the `Set` frame of the same opcode with the mode
      byte slipped in right after the opcode. */
  lemma ModeSetInsertsModeAfterOpcode(opcode: Byte, mode: OperationalMode, parameter: Parameter)
    ensures ModeSetPayload(opcode, mode, parameter)
            == SetPayload(opcode, parameter)[..4] + [mode.ModeByte()] + SetPayload(opcode, parameter)[4..]
  {
  }

  /** Mode-scoped writes lose nothing: equal frames have equal modes and
      equal parameter bytes. */
  lemma ModeSetPayloadInjective(opcode: Byte, m1: OperationalMode, p1: Parameter, m2: OperationalMode, p2: Parameter)
    ensures ModeSetPayload(opcode, m1, p1) == ModeSetPayload(opcode, m2, p2)
            <==> m1 == m2 && p1.Value() == p2.Value()
  {
  }

  /** Setting volume `v` with opcode 0x02 writes `[0x00, 0x0a, 0x04, 0x02, v]`. */
  lemma VolumeSetExample(volume: VolumeSettingParameter)
    ensures SetPayload(0x02, VolumeSettingParam(volume)) == [0x00, 0x0a, 0x04, 0x02, volume.level]
  {
  }
}

/** The command registry: the 18 command identities, the opcodes the
    `get!`, `mode_get!`, `set!`, `mode_set!` and `parameterless_set!` macro
    invocations attach to them, the `Toggle` markers, and the dispatch from a
    (command, request) pair to the payload the registered trait builds. */
module Registry {
  import opened Results
  import opened Framing
  import opened Codecs
  import opened Parameters
  import opened Capabilities

  /** The commands of `define_command!`. */
  datatype Command =
    | DeviceVersion
    | CurrentConnectionCodec
    | BootMode
    | LedMode
    | LedPattern
    | TxLdacQualitySetting
    | SpdifVolumeAdjustmentSetting
    | UpsamplingSetting
    | VolumeSetting
    | DacLowpassSetting
    | OutputBalance
    | Name
    | InputSources
    | VolumeMode
    | EnabledCodecs
    | FactoryReset
    | PowerOff
    | ClearPairing

  /** The opcode of the command's `impl Get`, if any. The `mode_get!` and
      `parameterless_set!` macros both expand to `impl Get`, so their six
      commands are plain `Get` commands here, and every command has one. */
  function GetOpcode(c: Command): (r: Option<Byte>)
    ensures r.Some?
  {
    match c
    // get!
    case DeviceVersion => Some(0x18)
    case CurrentConnectionCodec => Some(0x16)
    case BootMode => Some(0x1C)
    case LedMode => Some(0x3D)
    case LedPattern => Some(0x4A)
    case TxLdacQualitySetting => Some(0x4C)
    case SpdifVolumeAdjustmentSetting => Some(0x52)
    case UpsamplingSetting => Some(0x50)
    case VolumeSetting => Some(0x12)
    case DacLowpassSetting => Some(0x11)
    case OutputBalance => Some(0x13)
    case Name => Some(0x45)
    // mode_get!
    case InputSources => Some(0x48)
    case VolumeMode => Some(0x4E)
    case EnabledCodecs => Some(0x17)
    // parameterless_set!
    case FactoryReset => Some(0x04)
    case PowerOff => Some(0x25)
    case ClearPairing => Some(0x43)
  }

  /** The opcode of the command's `impl Set` (the `set!` table), if any.
      `Name` has none: its write is not implemented. */
  function SetOpcode(c: Command): (r: Option<Byte>)
    ensures r.Some? ==> r != GetOpcode(c)
  {
    match c
    case BootMode => Some(0x0B)
    case LedMode => Some(0x3E)
    case LedPattern => Some(0x4B)
    case TxLdacQualitySetting => Some(0x4D)
    case SpdifVolumeAdjustmentSetting => Some(0x53)
    case UpsamplingSetting => Some(0x51)
    case VolumeSetting => Some(0x02)
    case DacLowpassSetting => Some(0x01)
    case OutputBalance => Some(0x03)
    case _ => None
  }

  /** The opcode of the command's `impl ModeSet` (the `mode_set!` table), if any. */
  function ModeSetOpcode(c: Command): (r: Option<Byte>)
    ensures r.Some? ==> SetOpcode(c).None?
    ensures r.Some? ==> r != GetOpcode(c)
  {
    match c
    case InputSources => Some(0x49)
    case VolumeMode => Some(0x4F)
    case EnabledCodecs => Some(0x07)
    case _ => None
  }

  /** The write opcode of a command, from whichever write table holds it. */
  function WriteOpcode(c: Command): (r: Option<Byte>)
    ensures r.Some? <==> SetOpcode(c).Some? || ModeSetOpcode(c).Some?
    ensures SetOpcode(c).Some? ==> r == SetOpcode(c)
    ensures ModeSetOpcode(c).Some? ==> r == ModeSetOpcode(c)
  {
    if SetOpcode(c).Some? then SetOpcode(c) else ModeSetOpcode(c)
  }

  /** The `type Parameter` each `set!` and `mode_set!` entry declares. It is
      documentation only: `request_payload` takes any `&dyn Parameter`. */
  function DeclaredParameter(c: Command): (r: Option<ParameterKind>)
    ensures r.Some? <==> WriteOpcode(c).Some?
  {
    match c
    case BootMode => Some(StateKind)
    case LedMode => Some(StateKind)
    case LedPattern => Some(LedPatternKind)
    case TxLdacQualitySetting => Some(TxLdacQualityKind)
    case SpdifVolumeAdjustmentSetting => Some(StateKind)
    case UpsamplingSetting => Some(StateKind)
    case VolumeSetting => Some(VolumeSettingKind)
    case DacLowpassSetting => Some(DacLowpassKind)
    case OutputBalance => Some(OutputBalanceKind)
    case InputSources => Some(InputSourcesKind)
    case VolumeMode => Some(VolumeModeKind)
    case EnabledCodecs => Some(EnabledCodecsKind)
    case _ => None
  }

  /** The commands of `impl_toggle!`. Rust only accepts them because each also
      implements `Get` and `Set`. */
  predicate IsToggle(c: Command)
    ensures IsToggle(c) ==> GetOpcode(c).Some? && SetOpcode(c).Some?
  {
    c in {BootMode, LedMode, LedPattern, SpdifVolumeAdjustmentSetting, UpsamplingSetting}
  }

  /** The capability traits. */
  datatype Capability = Get | ModeGet | Set | ModeSet | ParameterlessSet | Toggle

  /** Whether the command implements the trait. No command implements
      `ModeGet` or `ParameterlessSet`. */
  predicate Implements(c: Command, capability: Capability)
    ensures capability == Get ==> Implements(c, capability)
    ensures capability == ModeSet && Implements(c, capability) ==> SetOpcode(c).None?
  {
    match capability
    case Get => GetOpcode(c).Some?
    case ModeGet => false
    case Set => SetOpcode(c).Some?
    case ModeSet => ModeSetOpcode(c).Some?
    case ParameterlessSet => false
    case Toggle => IsToggle(c)
  }

  /** A call of one trait's `request_payload`, with its arguments. */
  datatype Request =
    | Read
    | ModeRead(mode: OperationalMode)
    | Write(parameter: Parameter)
    | ModeWrite(mode: OperationalMode, parameter: Parameter)
    | ParameterlessWrite(mode: OperationalMode)
  {
    /** The trait whose `request_payload` this call uses. */
    function Capability(): Capability {
      match this
      case Read => Get
      case ModeRead(_) => ModeGet
      case Write(_) => Set
      case ModeWrite(_, _) => ModeSet
      case ParameterlessWrite(_) => ParameterlessSet
    }
  }

  /** The payload `C::request_payload(..)` builds for command `C`, or `None`
      when `C` does not implement the trait (Rust rejects such a call at
      compile time). Write frames carry the registered write opcode at byte 3,
      and exactly `4 + (mode ? 1 : 0) + |value|` bytes. */
  function RequestPayload(c: Command, q: Request): (r: Option<Payload>)
    ensures r.Some? <==> Implements(c, q.Capability())
    ensures r.Some? ==> |r.value| >= 4 && r.value[..3] == MagicRequest
    ensures r.Some? && q.Read? ==> r.value == MagicRequest + [GetOpcode(c).value]
    ensures r.Some? && q.Write? ==>
              |r.value| == 4 + |q.parameter.Value()|
              && r.value[3] == WriteOpcode(c).value
              && r.value[4..] == q.parameter.Value()
    ensures r.Some? && q.ModeWrite? ==>
              |r.value| == 5 + |q.parameter.Value()|
              && r.value[3] == WriteOpcode(c).value
              && r.value[4] == q.mode.ModeByte()
              && r.value[5..] == q.parameter.Value()
  {
    match q
    case Read => Some(GetPayload(GetOpcode(c).value))
    case ModeRead(_) => None
    case Write(parameter) =>
      if SetOpcode(c).Some? then Some(SetPayload(SetOpcode(c).value, parameter)) else None
    case ModeWrite(mode, parameter) =>
      if ModeSetOpcode(c).Some? then Some(ModeSetPayload(ModeSetOpcode(c).value, mode, parameter)) else None
    case ParameterlessWrite(_) => None
  }

  /** The toggle list is not every command with both opcodes: the volume,
      LDAC quality, DAC lowpass and output balance commands are not toggles. */
  lemma ReadWriteCommandsThatAreNotToggles()
    ensures forall c :: SetOpcode(c).Some? && !IsToggle(c)
              <==> c in {TxLdacQualitySetting, VolumeSetting, DacLowpassSetting, OutputBalance}
  {
  }

  /** No opcode appears twice in the `Get` table (the `get!`, `mode_get!` and
      `parameterless_set!` entries together). */
  lemma GetOpcodeInjective(c1: Command, c2: Command)
    ensures GetOpcode(c1) == GetOpcode(c2) <==> c1 == c2
  {
  }

  /** No opcode appears twice in the `set!` and `mode_set!` tables together. */
  lemma WriteOpcodeInjective(c1: Command, c2: Command)
    requires WriteOpcode(c1).Some?
    ensures WriteOpcode(c1) == WriteOpcode(c2) <==> c1 == c2
  {
  }

  /** Read and write opcodes come from disjoint ranges: no command's write
      opcode is the `Get` opcode of any command, itself included. */
  lemma ReadAndWriteOpcodesDisjoint(c1: Command, c2: Command)
    requires WriteOpcode(c1).Some?
    ensures WriteOpcode(c1) != GetOpcode(c2)
  {
  }

  /** The mode-scoped commands are reachable only through their `Get` frame
      and their `ModeSet` frame; the `ModeGet` frame with a mode byte is never
      produced for them. */
  lemma ModeCommandsReadWithoutModeByte(c: Command, mode: OperationalMode, parameter: Parameter)
    requires c in {InputSources, VolumeMode, EnabledCodecs}
    ensures RequestPayload(c, Read).Some? && |RequestPayload(c, Read).value| == 4
    ensures RequestPayload(c, ModeRead(mode)).None?
    ensures RequestPayload(c, ModeWrite(mode, parameter)).Some?
  {
  }

  /** Factory reset, power off and clear pairing are registered only as `Get`
      commands: their one producible frame is four bytes with no mode byte,
      and no write of any shape exists for them. */
  lemma ParameterlessCommandsOnlyRead(c: Command, mode: OperationalMode, parameter: Parameter)
    requires c in {FactoryReset, PowerOff, ClearPairing}
    ensures RequestPayload(c, Read) == Some(GetPayload(GetOpcode(c).value))
    ensures |RequestPayload(c, Read).value| == 4
    ensures RequestPayload(c, ParameterlessWrite(mode)).None?
    ensures RequestPayload(c, Write(parameter)).None?
    ensures RequestPayload(c, ModeWrite(mode, parameter)).None?
  {
  }

  /** Power off as registered: `[0x00, 0x0a, 0x04, 0x25]`; the
      `ParameterlessSet` default would have added the mode byte. */
  lemma PowerOffFrames()
    ensures RequestPayload(PowerOff, Read) == Some([0x00, 0x0a, 0x04, 0x25])
    ensures ParameterlessSetPayload(GetOpcode(PowerOff).value, Tx) == [0x00, 0x0a, 0x04, 0x25, 0x02]
  {
  }

  /** Read-only commands expose no write of any shape. */
  lemma ReadOnlyCommandsHaveNoWrite(c: Command, mode: OperationalMode, parameter: Parameter)
    requires c in {DeviceVersion, CurrentConnectionCodec, Name}
    ensures RequestPayload(c, Write(parameter)).None?
    ensures RequestPayload(c, ModeWrite(mode, parameter)).None?
    ensures RequestPayload(c, ParameterlessWrite(mode)).None?
  {
  }

  /** The parameter type is not checked: a `Set` command frames a parameter
      of any kind, including one other than it declares. */
  lemma SetAcceptsAnyParameterKind(c: Command, parameter: Parameter)
    requires SetOpcode(c).Some?
    ensures RequestPayload(c, Write(parameter)).Some?
  {
  }

  /** Volume `v` (validated) frames as `[0x00, 0x0a, 0x04, 0x02, v]`. */
  lemma VolumeWriteExample(volume: Byte)
    requires volume <= 60
    ensures NewVolumeSetting(volume).Success?
    ensures RequestPayload(VolumeSetting, Write(VolumeSettingParam(NewVolumeSetting(volume).value)))
            == Some([0x00, 0x0a, 0x04, 0x02, volume])
  {
    VolumeSetExample(NewVolumeSetting(volume).value);
  }

  /** Enabling AAC and LDAC in receive mode frames as
      `[0x00, 0x0a, 0x04, 0x07, 0x01, 0x06]`. */
  lemma EnabledCodecsWriteExample()
    ensures RequestPayload(EnabledCodecs, ModeWrite(Rx, EnabledCodecsParam(Union([Aac, Ldac]))))
            == Some([0x00, 0x0a, 0x04, 0x07, 0x01, 0x06])
  {
    AacLdacExample();
    var parameter := EnabledCodecsParam(Union([Aac, Ldac]));
    assert parameter.Value() == [0x06];
    var p := ModeSetPayload(0x07, Rx, parameter);
    assert p == p[..4] + [p[4]] + p[5..];
    assert p == [0x00, 0x0a, 0x04, 0x07, 0x01, 0x06];
    assert RequestPayload(EnabledCodecs, ModeWrite(Rx, parameter)) == Some(p);
  }

  /** Validation can be skipped: a bare byte passed to the volume command is
      framed unchecked, so every byte, 0xFF included, reaches the wire. */
  lemma VolumeWriteOfRawByte(volume: Byte)
    ensures RequestPayload(VolumeSetting, Write(RawByteParam(volume)))
            == Some([0x00, 0x0a, 0x04, 0x02, volume])
  {
    var p := SetPayload(0x02, RawByteParam(volume));
    assert p == p[..4] + p[4..];
    assert p == [0x00, 0x0a, 0x04, 0x02, volume];
    assert RequestPayload(VolumeSetting, Write(RawByteParam(volume))) == Some(p);
  }

  /** Likewise a bare byte passed to the enabled-codecs command may carry bits
      outside the named constants, such as 0xC1. */
  lemma EnabledCodecsWriteOfUnnamedBits()
    ensures RequestPayload(EnabledCodecs, ModeWrite(Rx, RawByteParam(0xC1)))
            == Some([0x00, 0x0a, 0x04, 0x07, 0x01, 0xC1])
  {
    var p := ModeSetPayload(0x07, Rx, RawByteParam(0xC1));
    assert p == p[..4] + [p[4]] + p[5..];
    assert p == [0x00, 0x0a, 0x04, 0x07, 0x01, 0xC1];
    assert RequestPayload(EnabledCodecs, ModeWrite(Rx, RawByteParam(0xC1))) == Some(p);
  }
}

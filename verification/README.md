# bta30ctl request encoder, modelled in Dafny

This project models the request encoder of `bta30ctl`, a controller for the FiiO BTA30 Pro
Bluetooth receiver. The receiver speaks a GAIA-style protocol. Every request is the 3-byte magic
`00 0a 04`, then a one-byte opcode, then optional body bytes. There is no length field and no
checksum. The model covers:

- the `payload` framing helper and the two magic prefixes (`Framing`);
- the operational mode byte (Rx = 0x01, Tx = 0x02) (`Framing`);
- the default `request_payload` of the five capability traits `Get`, `ModeGet`, `Set`, `ModeSet`
  and `ParameterlessSet`, as builders that take an opcode (`Capabilities`);
- the 18 command identities and the opcodes that the macro invocations attach to them, the
  `Toggle` markers, and the dispatch from a command and a trait call to the bytes it produces
  (`Registry`);
- the parameter values and their `value()` bytes (`Parameters`): the single-byte enumerations, the
  validated volume (at most 60) and balance amount (at most 12), the tagged output balance, and the
  enabled-codecs bit set (`Codecs`);
- the `CommandKind` to `WriteType` conversion (`Transport`).

Bytes are `bv8`. Every operation is a pure function, except the methods `Framing.BuildPayload` and
`Framing.ExtendFromSlice`. `BuildPayload` mirrors the imperative body of `payload` and calls
`ExtendFromSlice` for `Vec::extend_from_slice`; its contract ties it to the functional `Framing.Frame`.
A trait call that Rust would refuse to compile (a command that does not implement the trait) is
modelled as `None` from `Registry.RequestPayload`.

## Where the code differs from what its names suggest

- The `mode_get!` and `parameterless_set!` macros both expand to `impl Get`. So input sources,
  volume mode and enabled codecs (0x48, 0x4E, 0x17) are plain `Get` commands. So are factory reset,
  power off and clear pairing (0x04, 0x25, 0x43). Their registered frames are four bytes with no
  mode byte. No command implements `ModeGet` or `ParameterlessSet`. Those two traits exist only as
  opcode-parameterised builders (`Capabilities.ModeGetPayload`, `Capabilities.ParameterlessSetPayload`).
- `Set::request_payload` and `ModeSet::request_payload` take `&dyn Parameter`. The per-command
  `type Parameter` is therefore not enforced. The model records it (`Registry.DeclaredParameter`)
  and proves that a parameter of any kind still frames (`Registry.SetAcceptsAnyParameterKind`).
- Nothing in the code tags power off, or any other command, as fire-and-forget. `CommandKind` is
  modelled on its own, with its conversion.
- The blanket `impl<P: Copy + Into<u8>> Parameter for P` needs `Into<u8>`. No such conversion is
  declared for the `#[repr(u8)]` enumerations, `VolumeSettingParameter` or the `bitflags` type in
  `src/bta30.rs`. The model gives each of them the single byte the blanket impl is meant to
  produce: the discriminant, the stored volume, or the flag bits.
- The same blanket impl does cover a bare `u8` (through the reflexive `From`) and `bool` (through
  `From<bool> for u8`). These are `Parameters.RawByteParam` and `Parameters.BoolParam`. A bare byte
  passed to a write command is framed unchecked. So the volume bound enforced by
  `VolumeSettingParameter::new` can be skipped (`Registry.VolumeWriteOfRawByte` frames 0xFF). The
  codec command can likewise carry bits outside the named constants
  (`Registry.EnabledCodecsWriteOfUnnamedBits`).

## Model

| member | source | states |
|---|---|---|
| Framing.OperationalMode.ModeByte | src/bta30.rs:3-8 | `mode as u8` is 0x01 or 0x02 |
| Framing.ModeByteInjective | src/bta30.rs:3-8 | Rx and Tx are written as different bytes (0x01 and 0x02) |
| Framing.Frame | src/bta30.rs:27-35 | the frame is magic, then opcode, then the parameters; its length is the sum of the parts; `None` gives magic plus opcode |
| Framing.FrameInjective | src/bta30.rs:27-35 | with a shared magic, two frames are equal exactly when their opcodes and parameter bytes are equal: nothing is dropped or reordered |
| Framing.FrameEmptyTailIsNone | src/bta30.rs:31-33 | an empty parameter slice gives the same frame as no parameters |
| Framing.ExtendFromSlice | src/bta30.rs:29-32 | appending a slice keeps the old bytes and then adds every slice byte in order |
| Framing.BuildPayload | src/bta30.rs:27-35 | the imperative extend/push/extend sequence builds exactly the frame `Frame` describes |
| Codecs.Codec.Bits | src/bta30.rs:312-320 | each named constant sets at least one bit and no bit outside 0x3E |
| Codecs.Union | src/bta30.rs:312-320 | the OR of the chosen constants contains each of them, and it sets a bit exactly when some chosen constant sets it; no bit outside 0x3E is ever set |
| Codecs.UnionDependsOnlyOnMembers | src/bta30.rs:312-320 | the codec set depends only on which constants were chosen, not on their order or repetition |
| Codecs.AptxVariantsContainLdac | src/bta30.rs:315-318 | choosing AptxLl (0x14) or AptxHd (0x24) makes the set contain Ldac (0x04) |
| Codecs.HighBitsImplyLdacBit | src/bta30.rs:314-319 | in every set formed from the named constants, bit 0x10 or 0x20 implies bit 0x04 |
| Codecs.PatternOfLowLatencyBitAloneIsUnreachable | src/bta30.rs:317-317 | the pattern 0x10 lies inside the named mask but no union of constants produces it |
| Codecs.LdacAbsorbedByAptxLl | src/bta30.rs:315-317 | AptxLl together with Ldac gives the same bits as AptxLl alone |
| Codecs.AacLdacExample | src/bta30.rs:314-315 | Aac OR Ldac is 0x06 |
| Parameters.StateParameter.Discriminant | src/bta30.rs:211-216 | constant table: Off is 0x00, On is 0x01; the contract states only that the byte is at most 0x01 |
| Parameters.LedPatternParameter.Discriminant | src/bta30.rs:218-223 | constant table: RedGreen is 0x00, RedBlue is 0x01; the contract states only that the byte is at most 0x01 |
| Parameters.TxLdacQualitySettingParameter.Discriminant | src/bta30.rs:225-232 | constant table: AudioQualityFirst 0x01, Standard 0x02, ConnectionFirst 0x03, Adaptive 0x04; the contract states only the range 0x01 to 0x04 |
| Parameters.DacLowpassSettingParameter.Discriminant | src/bta30.rs:248-255 | constant table: SharpRollOff 0x00, SlowRollOff 0x01, ShortDelaySharpRollOff 0x02, ShortDelaySlowRollOff 0x03; the contract states only the range 0x00 to 0x03 |
| Parameters.OutputBalancePosition.Discriminant | src/bta30.rs:257-262 | constant table: Left is 0x01, Right is 0x02; the contract states only that the byte is one of those two |
| Parameters.InputSourcesParameter.Discriminant | src/bta30.rs:294-300 | constant table: Usb 0x01, Coax 0x02, UsbAndCoax 0x03; the contract states only the range 0x01 to 0x03 |
| Parameters.VolumeModeParameter.Discriminant | src/bta30.rs:302-310 | constant table: Adjustable 0x01, ThirtyPercent 0x02, FiftyPercent 0x03, SeventyPercent 0x04, HundredPercent 0x05; the contract states only the range 0x01 to 0x05 |
| Parameters.DiscriminantsInjective | src/bta30.rs:211-310 | within each enumeration, distinct variants are written as distinct bytes |
| Parameters.NewVolumeSetting | src/bta30.rs:238-245 | succeeds exactly for volumes up to 60 and stores the volume unchanged; otherwise fails with IncorrectVolumeValue (no clamping) |
| Parameters.NewOutputBalanceAmount | src/bta30.rs:269-276 | succeeds exactly for amounts up to 12 and stores the amount unchanged; otherwise fails with IncorrectOutputBalanceAmount |
| Parameters.VolumeRoundTrip | src/bta30.rs:234-245 | a volume that passes validation is written as the single byte equal to it |
| Parameters.OutputBalanceParameter.Value | src/bta30.rs:285-291 | the output balance is always written as two bytes: a position byte 0x01 or 0x02, then an amount of at most 12; an unbalanced setting writes its own position and amount |
| Parameters.Parameter.ByteValue | src/bta30.rs:205-209 | a bare `u8` is written as itself and a `bool` as 0 or 1, the bytes `Into::into(*self)` gives; for the kinds without `Into<u8>`, the byte the model assigns in its place: an enumeration's discriminant, the stored volume (at most 60), the codec flag byte (inside the named mask) |
| Parameters.Parameter.Value | src/bta30.rs:201-209 | every parameter is written as one byte, except the output balance, which is written as its own two-byte value; an enumeration is written as its discriminant, a volume as itself (at most 60), a codec set as its flag byte (no bit outside the named mask), a bare `u8` as itself and a `bool` as 0 or 1 |
| Parameters.BalancedSameAsRightZero | src/bta30.rs:285-291 | Balanced is written `[0x02, 0x00]`, identically to Unbalanced(Right, 0) |
| Parameters.UnbalancedValueInjective | src/bta30.rs:285-291 | two unbalanced settings are written identically exactly when they are equal |
| Parameters.UnbalancedExamples | src/bta30.rs:259-291 | (Left, 5) is written `[0x01, 0x05]` and (Right, 12) is written `[0x02, 0x0C]` |
| Parameters.ValueInjectiveWithinKind | src/bta30.rs:201-209 | within one parameter type, two values are written alike exactly when they are equal or are the pair Balanced / Unbalanced(Right, 0) |
| Parameters.RawByteBypassesValidation | src/bta30.rs:205-209 | a bare `u8` parameter is written as itself, so a byte above 60 matches no validated volume and a byte outside the named mask matches no codec set |
| Capabilities.GetPayload | src/bta30.rs:39-42 | a `Get` frame is exactly `[0x00, 0x0a, 0x04, op]` |
| Capabilities.ModeGetPayload | src/bta30.rs:44-47 | a `ModeGet` frame is exactly `[0x00, 0x0a, 0x04, op, mode]`, and the mode byte is 0x01 or 0x02 |
| Capabilities.ParameterlessSetPayload | src/bta30.rs:77-80 | a `ParameterlessSet` frame is exactly `[0x00, 0x0a, 0x04, op, mode]`, and the mode byte is 0x01 or 0x02 |
| Capabilities.SetPayload | src/bta30.rs:49-58 | a `Set` frame is `[0x00, 0x0a, 0x04, op]` followed by the parameter's bytes, with length 4 plus their count |
| Capabilities.ModeSetPayload | src/bta30.rs:60-74 | a `ModeSet` frame has the mode byte at index 4, straight after the opcode and before every parameter byte; its length is 5 plus the parameter's byte count |
| Capabilities.RequestsNeverCarryReplyMagic | src/bta30.rs:10-11 | the frames of all five builders start with the request magic, which differs from the reply magic |
| Capabilities.ModeGetMatchesParameterlessSet | src/bta30.rs:44-80 | the `ModeGet` and `ParameterlessSet` defaults produce identical bytes |
| Capabilities.WritesExtendReads | src/bta30.rs:39-74 | the `Get` frame is a prefix of every `Set` frame with the same opcode; the `ModeGet` frame is a prefix of every `ModeSet` frame with the same opcode and mode |
| Capabilities.ModeSetInsertsModeAfterOpcode | src/bta30.rs:69-73 | a `ModeSet` frame is the `Set` frame with the mode byte inserted between the opcode and the parameter bytes |
| Capabilities.ModeSetPayloadInjective | src/bta30.rs:69-73 | two `ModeSet` frames with the same opcode are equal exactly when their modes and parameter bytes are equal |
| Capabilities.VolumeSetExample | src/bta30.rs:53-57 | setting volume v with opcode 0x02 writes `[0x00, 0x0a, 0x04, 0x02, v]` |
| Registry.GetOpcode | src/bta30.rs:147-191 | every one of the 18 commands implements `Get`, including the `mode_get!` and `parameterless_set!` entries |
| Registry.SetOpcode | src/bta30.rs:168-179 | a command's `Set` opcode differs from its own `Get` opcode |
| Registry.ModeSetOpcode | src/bta30.rs:181-185 | no command implements both `ModeSet` and `Set`; a command's `ModeSet` opcode differs from its own `Get` opcode |
| Registry.WriteOpcode | src/bta30.rs:168-185 | a command has a write opcode exactly when it is in the `set!` or `mode_set!` table, and it is that table's opcode |
| Registry.DeclaredParameter | src/bta30.rs:168-185 | a parameter type is declared exactly for the commands with a write opcode |
| Registry.IsToggle | src/bta30.rs:193-199 | the `impl_toggle!` list (BootMode, LedMode, LedPattern, SpdifVolumeAdjustmentSetting, UpsamplingSetting); every member has both a `Get` and a `Set` opcode, as `Toggle: Get + Set` requires |
| Registry.Implements | src/bta30.rs:82-117 | which trait each command implements under the macro expansions: every command implements `Get`; a `Toggle` command also implements `Get` and `Set`; no `ModeSet` command implements `Set` |
| Registry.RequestPayload | src/bta30.rs:82-117 | a trait call produces a frame exactly when the command implements that trait; read frames are magic plus the `Get` opcode; write frames carry the registered write opcode at byte 3 and total 4 bytes, plus 1 for a mode byte, plus the parameter's byte count |
| Registry.ReadWriteCommandsThatAreNotToggles | src/bta30.rs:168-199 | the commands with a `Set` opcode that are not toggles are exactly LDAC quality, volume, DAC lowpass and output balance |
| Registry.GetOpcodeInjective | src/bta30.rs:147-191 | no opcode repeats in the `Get` table: two commands share a `Get` opcode exactly when they are the same command |
| Registry.WriteOpcodeInjective | src/bta30.rs:168-185 | no opcode repeats across the `Set` and `ModeSet` tables |
| Registry.ReadAndWriteOpcodesDisjoint | src/bta30.rs:147-191 | no write opcode (from `set!` or `mode_set!`) equals the `Get` opcode of any command |
| Registry.ModeCommandsReadWithoutModeByte | src/bta30.rs:88-92 | input sources, volume mode and enabled codecs read with a 4-byte frame with no mode byte, have no `ModeGet` frame, and frame a `ModeSet` write for every parameter |
| Registry.ParameterlessCommandsOnlyRead | src/bta30.rs:113-117 | factory reset, power off and clear pairing produce only their 4-byte `Get` frame; they have no write of any shape |
| Registry.PowerOffFrames | src/bta30.rs:187-191 | power off as registered is `[0x00, 0x0a, 0x04, 0x25]`; the unused `ParameterlessSet` default with Tx would give `[0x00, 0x0a, 0x04, 0x25, 0x02]` |
| Registry.ReadOnlyCommandsHaveNoWrite | src/bta30.rs:147-179 | device version, current codec and name have no write of any shape |
| Registry.SetAcceptsAnyParameterKind | src/bta30.rs:49-58 | a `Set` command frames a parameter of any kind, not only the kind it declares |
| Registry.VolumeWriteExample | src/bta30.rs:168-175 | a validated volume v sent through the volume command is `[0x00, 0x0a, 0x04, 0x02, v]`; this typed call does not compile in the source, whose real path is the bare byte of `Registry.VolumeWriteOfRawByte` |
| Registry.EnabledCodecsWriteExample | src/bta30.rs:181-185 | enabled codecs with Rx and Aac OR Ldac is `[0x00, 0x0a, 0x04, 0x07, 0x01, 0x06]`; the typed call does not compile in the source, where the byte 0x06 would be passed as a bare `u8` |
| Registry.VolumeWriteOfRawByte | src/bta30.rs:49-58 | a bare byte v sent through the volume command frames as `[0x00, 0x0a, 0x04, 0x02, v]` for every v, without the range check |
| Registry.EnabledCodecsWriteOfUnnamedBits | src/bta30.rs:60-74 | a bare byte 0xC1 sent through the enabled-codecs command frames as `[0x00, 0x0a, 0x04, 0x07, 0x01, 0xC1]` |
| Transport.IntoWriteType | src/lib.rs:32-39 | Request converts to WithResponse and Command converts to WithoutResponse, for both kinds |
| Transport.IntoWriteTypeBijective | src/lib.rs:33-38 | the two kinds map to distinct write types, and both write types are reached |

## Left out

- Parameters.Parameter.ByteValue: the model accepts the enumerations, `VolumeSettingParameter` and `EnabledCodecsParameter` as parameters and gives each a single byte, although in `src/bta30.rs` they implement no `Into<u8>` and so are not `Parameter`s. Typed writes such as `BootMode` with `StateParameter::On` are framed here but do not compile in the source; only `OutputBalanceParameter`, `u8` and `bool` are accepted there.
- `src/main.rs` (argument parsing, BLE scanning, connection and asynchronous writes): it is I/O. The functions it calls (`set_volume_mode_setting`, `set_volume_command`, `send_command`) are not part of this model.
- The lazily initialised service and characteristic UUIDs and the `Characteristic` value (`src/lib.rs:13-24`): these are constant transport configuration.
- `MAGIC_REPLY` is declared (`Framing.MagicReply`) but nothing decodes replies, in the source or here.
- The name write (`Name => 0x46`) is commented out in the source, so `Name` has no write opcode here.
- The `Command` marker trait and the unit structs of `define_command!` are represented by the constructors of `Registry.Command`. `request_payload_parameters` is folded into `Parameters.Parameter.Value`.
- `bitflags` operations other than OR and `contains` (`from_bits`, `remove`, `toggle`, formatting): the source builds no `EnabledCodecsParameter` at all. The model takes any flag byte inside mask 0x3E, and `Codecs.Union` builds the unions of the named constants.
- The device's behaviour for codec bit patterns outside the named constants is not modelled. The model restricts the flag byte to the named mask 0x3E (`Codecs.CodecFlags`); `bitflags` constructors that keep other bits (`from_bits_unchecked`, `from_bits_retain`) are not modelled, and a bare `u8` parameter can still carry other bits.
- Other standard types with `Into<u8>` (`NonZeroU8`) are not separate parameter cases: each is written as one byte, which `Parameters.RawByteParam` already covers.
- Which commands are sent as fire-and-forget: the code attaches `CommandKind` to no command.
- `Debug` and `Copy`/`Clone` derives: they have no effect on the bytes.

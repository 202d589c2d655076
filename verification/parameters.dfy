/** Parameter values: the single-byte enumerations, the two validated
    newtypes, the tagged output balance and the codec set, each with the
    bytes it contributes after the opcode. */
module Parameters {
  import opened Results
  import opened Framing
  import opened Codecs

  /** On/off switch. */
  datatype StateParameter = Off | On {
    /** The `#[repr(u8)]` discriminant (Off 0x00, On 0x01). */
    function Discriminant(): (b: Byte)
      ensures b <= 0x01
    {
      match this
      case Off => 0x00
      case On => 0x01
    }
  }

  /** LED colour pattern. */
  datatype LedPatternParameter = RedGreen | RedBlue {
    /** The `#[repr(u8)]` discriminant (RedGreen 0x00, RedBlue 0x01). */
    function Discriminant(): (b: Byte)
      ensures b <= 0x01
    {
      match this
      case RedGreen => 0x00
      case RedBlue => 0x01
    }
  }

  /** LDAC transmit quality. */
  datatype TxLdacQualitySettingParameter = AudioQualityFirst | Standard | ConnectionFirst | Adaptive {
    /** The `#[repr(u8)]` discriminant, 0x01 to 0x04. */
    function Discriminant(): (b: Byte)
      ensures 0x01 <= b <= 0x04
    {
      match this
      case AudioQualityFirst => 0x01
      case Standard => 0x02
      case ConnectionFirst => 0x03
      case Adaptive => 0x04
    }
  }

  /** DAC low-pass filter (spelled `DacLowpassSettingParametter` in the source). */
  datatype DacLowpassSettingParameter =
    | SharpRollOffFilter
    | SlowRollOffFilter
    | ShortDelaySharpRollOffFilter
    | ShortDelaySlowRollOffFilter
  {
    /** The `#[repr(u8)]` discriminant, 0x00 to 0x03. */
    function Discriminant(): (b: Byte)
      ensures b <= 0x03
    {
      match this
      case SharpRollOffFilter => 0x00
      case SlowRollOffFilter => 0x01
      case ShortDelaySharpRollOffFilter => 0x02
      case ShortDelaySlowRollOffFilter => 0x03
    }
  }

  /** Side an unbalanced output leans to. */
  datatype OutputBalancePosition = Left | Right {
    /** The `#[repr(u8)]` discriminant (Left 0x01, Right 0x02). */
    function Discriminant(): (b: Byte)
      ensures b == 0x01 || b == 0x02
    {
      match this
      case Left => 0x01
      case Right => 0x02
    }
  }

  /** Accepted digital inputs. */
  datatype InputSourcesParameter = Usb | Coax | UsbAndCoax {
    /** The `#[repr(u8)]` discriminant, 0x01 to 0x03. */
    function Discriminant(): (b: Byte)
      ensures 0x01 <= b <= 0x03
    {
      match this
      case Usb => 0x01
      case Coax => 0x02
      case UsbAndCoax => 0x03
    }
  }

  /** Volume mode: adjustable or a fixed percentage. */
  datatype VolumeModeParameter = Adjustable | ThirtyPercent | FiftyPercent | SeventyPercent | HundredPercent {
    /** The `#[repr(u8)]` discriminant, 0x01 to 0x05. */
    function Discriminant(): (b: Byte)
      ensures 0x01 <= b <= 0x05
    {
      match this
      case Adjustable => 0x01
      case ThirtyPercent => 0x02
      case FiftyPercent => 0x03
      case SeventyPercent => 0x04
      case HundredPercent => 0x05
    }
  }

  /** Every enumeration gives each of its variants its own byte. */
  lemma DiscriminantsInjective()
    ensures forall a: StateParameter, b: StateParameter :: a.Discriminant() == b.Discriminant() ==> a == b
    ensures forall a: LedPatternParameter, b: LedPatternParameter :: a.Discriminant() == b.Discriminant() ==> a == b
    ensures forall a: TxLdacQualitySettingParameter, b: TxLdacQualitySettingParameter :: a.Discriminant() == b.Discriminant() ==> a == b
    ensures forall a: DacLowpassSettingParameter, b: DacLowpassSettingParameter :: a.Discriminant() == b.Discriminant() ==> a == b
    ensures forall a: OutputBalancePosition, b: OutputBalancePosition :: a.Discriminant() == b.Discriminant() ==> a == b
    ensures forall a: InputSourcesParameter, b: InputSourcesParameter :: a.Discriminant() == b.Discriminant() ==> a == b
    ensures forall a: VolumeModeParameter, b: VolumeModeParameter :: a.Discriminant() == b.Discriminant() ==> a == b
  {
  }

  /** Errors of the validating constructors (`CommandBuilderError`). */
  datatype CommandBuilderError = IncorrectVolumeValue | IncorrectOutputBalanceAmount

  /** Largest volume the device accepts. */
  const MaxVolume: Byte := 60

  /** Largest output-balance amount the device accepts. */
  const MaxBalanceAmount: Byte := 12

  /** `VolumeSettingParameter(u8)`: its field is private, so every value
      was produced by `NewVolumeSetting` and lies in 0..=60. */
  datatype Volume = Volume(level: Byte) {
    ghost predicate Valid() {
      level <= MaxVolume
    }
  }

  type VolumeSettingParameter = v: Volume | v.Valid() witness Volume(0)

  /** `VolumeSettingParameter::new`: accepts exactly the volumes up to 60 and
      keeps the value unchanged; anything larger is refused, never clamped. */
  function NewVolumeSetting(volume: Byte): (r: Result<VolumeSettingParameter, CommandBuilderError>)
    ensures r.Success? <==> volume <= 60
    ensures r.Success? ==> r.value.level == volume
    ensures r.Failure? ==> r.error == IncorrectVolumeValue
  {
    if volume > MaxVolume then Failure(IncorrectVolumeValue)
    else Success(Volume(volume))
  }

  /** `OutputBalanceAmout(u8)` (spelled so in the source): private field, built only by
      `NewOutputBalanceAmount`, so at most 12. */
  datatype BalanceAmount = BalanceAmount(amount: Byte) {
    ghost predicate Valid() {
      amount <= MaxBalanceAmount
    }
  }

  type OutputBalanceAmount = a: BalanceAmount | a.Valid() witness BalanceAmount(0)

  /** `OutputBalanceAmout::new`: accepts exactly the amounts up to 12 and keeps
      the value unchanged; anything larger is refused. */
  function NewOutputBalanceAmount(amount: Byte): (r: Result<OutputBalanceAmount, CommandBuilderError>)
    ensures r.Success? <==> amount <= 12
    ensures r.Success? ==> r.value.amount == amount
    ensures r.Failure? ==> r.error == IncorrectOutputBalanceAmount
  {
    if amount > MaxBalanceAmount then Failure(IncorrectOutputBalanceAmount)
    else Success(BalanceAmount(amount))
  }

  /** Output balance: centred, or leaning to one side by an amount. */
  datatype OutputBalanceParameter = Balanced | Unbalanced(position: OutputBalancePosition, amount: OutputBalanceAmount) {
    /** Its `Parameter::value`: two bytes, position first, amount second;
        `Balanced` is written as the pair (Right, 0). */
    function Value(): (v: seq<Byte>)
      ensures |v| == 2
      ensures v[0] == 0x01 || v[0] == 0x02
      ensures v[1] <= 12
      ensures Unbalanced? ==> v[0] == position.Discriminant() && v[1] == amount.amount
    {
      match this
      case Balanced => [0x02, 0x00]
      case Unbalanced(position, amount) => [position.Discriminant(), amount.amount]
    }
  }

  /** A zero shift to the right. */
  const RightByZero: OutputBalanceParameter := Unbalanced(Right, BalanceAmount(0))

  /** The balanced setting and a zero shift to the right are written with the
      same bytes, so the device cannot tell them apart. */
  lemma BalancedSameAsRightZero()
    ensures Balanced.Value() == [0x02, 0x00]
    ensures Balanced.Value() == RightByZero.Value()
  {
  }

  /** Distinct unbalanced settings are written with distinct bytes. */
  lemma UnbalancedValueInjective(a: OutputBalanceParameter, b: OutputBalanceParameter)
    requires a.Unbalanced? && b.Unbalanced?
    ensures a.Value() == b.Value() <==> a == b
  {
  }

  /** Sample encodings: (Left, 5) and (Right, 12). */
  lemma UnbalancedExamples()
    ensures Unbalanced(Left, BalanceAmount(5)).Value() == [0x01, 0x05]
    ensures Unbalanced(Right, BalanceAmount(12)).Value() == [0x02, 0x0C]
  {
  }

  /** Which parameter type a value belongs to. */
  datatype ParameterKind =
    | StateKind | LedPatternKind | TxLdacQualityKind | VolumeSettingKind | DacLowpassKind
    | OutputBalanceKind | InputSourcesKind | VolumeModeKind | EnabledCodecsKind
    | RawByteKind | BoolKind

  /** The values the model accepts as `&dyn Parameter`. In `src/bta30.rs`
      only three of these kinds are `Parameter`s: `OutputBalanceParameter`,
      through its own impl, and a bare `u8` and `bool`, through the blanket
      `impl<P: Copy + Into<u8>> Parameter for P` (the reflexive `From`, and
      `From<bool> for u8`). The enumerations, `VolumeSettingParameter` and
      `EnabledCodecsParameter` declare no `Into<u8>`. The model accepts them
      anyway and gives each the single byte such a conversion would produce. */
  datatype Parameter =
    | StateParam(state: StateParameter)
    | LedPatternParam(pattern: LedPatternParameter)
    | TxLdacQualityParam(quality: TxLdacQualitySettingParameter)
    | VolumeSettingParam(volume: VolumeSettingParameter)
    | DacLowpassParam(filter: DacLowpassSettingParameter)
    | OutputBalanceParam(balance: OutputBalanceParameter)
    | InputSourcesParam(sources: InputSourcesParameter)
    | VolumeModeParam(tier: VolumeModeParameter)
    | EnabledCodecsParam(codecs: CodecFlags)
    | RawByteParam(byte: Byte)
    | BoolParam(flag: bool)
  {
    function Kind(): ParameterKind {
      match this
      case StateParam(_) => StateKind
      case LedPatternParam(_) => LedPatternKind
      case TxLdacQualityParam(_) => TxLdacQualityKind
      case VolumeSettingParam(_) => VolumeSettingKind
      case DacLowpassParam(_) => DacLowpassKind
      case OutputBalanceParam(_) => OutputBalanceKind
      case InputSourcesParam(_) => InputSourcesKind
      case VolumeModeParam(_) => VolumeModeKind
      case EnabledCodecsParam(_) => EnabledCodecsKind
      case RawByteParam(_) => RawByteKind
      case BoolParam(_) => BoolKind
    }

    /** The one byte a single-byte parameter is written as: for `u8` and
        `bool` the byte `Into::into` gives; for the other kinds the byte the
        model assigns in place of the missing `Into<u8>`. */
    function ByteValue(): (b: Byte)
      requires !OutputBalanceParam?
      ensures StateParam? ==> b == state.Discriminant()
      ensures LedPatternParam? ==> b == pattern.Discriminant()
      ensures TxLdacQualityParam? ==> b == quality.Discriminant()
      ensures DacLowpassParam? ==> b == filter.Discriminant()
      ensures InputSourcesParam? ==> b == sources.Discriminant()
      ensures VolumeModeParam? ==> b == tier.Discriminant()
      ensures VolumeSettingParam? ==> b == volume.level && b <= 60
      ensures EnabledCodecsParam? ==> b == codecs && b & NotNamed == 0
      ensures RawByteParam? ==> b == byte
      ensures BoolParam? ==> b == (if flag then 0x01 else 0x00)
    {
      match this
      case StateParam(s) => s.Discriminant()
      case LedPatternParam(p) => p.Discriminant()
      case TxLdacQualityParam(q) => q.Discriminant()
      case VolumeSettingParam(v) => v.level
      case DacLowpassParam(f) => f.Discriminant()
      case InputSourcesParam(s) => s.Discriminant()
      case VolumeModeParam(t) => t.Discriminant()
      case EnabledCodecsParam(c) => c
      case RawByteParam(b) => b
      case BoolParam(f) => if f then 0x01 else 0x00
    }

    /** `Parameter::value`: one byte for every single-byte type, two bytes for
        the output balance. An enumeration is written as its discriminant, a
        volume as itself (at most 60), a codec set as its flag byte, a bare
        byte as itself and a `bool` as 0 or 1. */
    function Value(): (v: seq<Byte>)
      ensures |v| == (if OutputBalanceParam? then 2 else 1)
      ensures StateParam? ==> v == [state.Discriminant()]
      ensures LedPatternParam? ==> v == [pattern.Discriminant()]
      ensures TxLdacQualityParam? ==> v == [quality.Discriminant()]
      ensures DacLowpassParam? ==> v == [filter.Discriminant()]
      ensures InputSourcesParam? ==> v == [sources.Discriminant()]
      ensures VolumeModeParam? ==> v == [tier.Discriminant()]
      ensures VolumeSettingParam? ==> v == [volume.level] && v[0] <= 60
      ensures EnabledCodecsParam? ==> v == [codecs] && v[0] & NotNamed == 0
      ensures OutputBalanceParam? ==> v == balance.Value() && v[1] <= 12
      ensures RawByteParam? ==> v == [byte]
      ensures BoolParam? ==> v == [if flag then 0x01 else 0x00]
    {
      if OutputBalanceParam? then balance.Value() else [ByteValue()]
    }
  }

  /** The one pair of distinct output balances written alike. */
  predicate BalanceCollision(a: Parameter, b: Parameter) {
    && a.OutputBalanceParam? && b.OutputBalanceParam?
    && ((a.balance == Balanced && b.balance == RightByZero)
        || (a.balance == RightByZero && b.balance == Balanced))
  }

  /** Within one parameter type, the bytes determine the value, except for
      the one output-balance collision. */
  lemma ValueInjectiveWithinKind(a: Parameter, b: Parameter)
    requires a.Kind() == b.Kind()
    ensures a.Value() == b.Value() <==> a == b || BalanceCollision(a, b)
  {
  }

  /** The blanket impl lets a bare `u8` stand in for any parameter, so every
      byte can be framed where a validated value was meant: the bounds that
      `NewVolumeSetting` and `NewOutputBalanceAmount` enforce, and the named
      codec mask, do not hold for all parameters. */
  lemma RawByteBypassesValidation(byte: Byte)
    ensures RawByteParam(byte).Value() == [byte]
    ensures byte > 60 ==> forall v: VolumeSettingParameter :: VolumeSettingParam(v).Value() != RawByteParam(byte).Value()
    ensures byte & NotNamed != 0 ==> forall c: CodecFlags :: EnabledCodecsParam(c).Value() != RawByteParam(byte).Value()
  {
  }

  /** A volume that passed validation frames as one byte equal to it. */
  lemma VolumeRoundTrip(volume: Byte)
    requires volume <= 60
    ensures NewVolumeSetting(volume).Success?
    ensures VolumeSettingParam(NewVolumeSetting(volume).value).Value() == [volume]
  {
  }
}

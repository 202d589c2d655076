/** Request framing: the fixed magic prefixes, the operational-mode byte and
    the `payload` helper that concatenates magic, opcode and parameters. */
module Framing {
  import opened Results

  /** One byte on the wire (Rust `u8`). */
  type Byte = bv8

  /** A complete request as written to the command characteristic. */
  type Payload = seq<Byte>

  /** Prefix of every request the host sends. */
  const MagicRequest: seq<Byte> := [0x00, 0x0a, 0x04]

  /** Prefix of device replies. Declared only: no reply is ever decoded. */
  const MagicReply: seq<Byte> := [0x00, 0x0a, 0x84]

  /** Direction selector carried by mode-scoped commands (`#[repr(u8)]`). */
  datatype OperationalMode = Rx | Tx {
    /** The discriminant, `mode as u8`. */
    function ModeByte(): (b: Byte)
      ensures b == 0x01 || b == 0x02
    {
      match this
      case Rx => 0x01
      case Tx => 0x02
    }
  }

  /** The two modes are told apart by their byte. */
  lemma ModeByteInjective(m1: OperationalMode, m2: OperationalMode)
    ensures m1.ModeByte() == m2.ModeByte() <==> m1 == m2
  {
  }

  /** `payload(magic, opcode, parameters)`: magic, then the opcode, then the
      parameter bytes if any. There is no length field and no checksum. */
  function Frame(magic: seq<Byte>, opcode: Byte, parameters: Option<seq<Byte>>): (p: Payload)
    ensures |p| == |magic| + 1 + (if parameters.Some? then |parameters.value| else 0)
    ensures p[..|magic|] == magic
    ensures p[|magic|] == opcode
    ensures parameters.Some? ==> p[|magic| + 1..] == parameters.value
    ensures parameters.None? ==> p == magic + [opcode]
  {
    match parameters
    case None => magic + [opcode]
    case Some(tail) => magic + [opcode] + tail
  }

  /** Framing loses nothing: with a common magic prefix, equal frames come
      from equal opcodes and equal parameter bytes, and conversely. */
  lemma FrameInjective(magic: seq<Byte>, op1: Byte, tail1: seq<Byte>, op2: Byte, tail2: seq<Byte>)
    ensures Frame(magic, op1, Some(tail1)) == Frame(magic, op2, Some(tail2))
            <==> op1 == op2 && tail1 == tail2
  {
  }

  /** An empty parameter slice frames exactly like no parameters at all. */
  lemma FrameEmptyTailIsNone(magic: seq<Byte>, opcode: Byte)
    ensures Frame(magic, opcode, Some([])) == Frame(magic, opcode, None)
  {
  }

  /** `Vec::extend_from_slice`: appends the slice byte by byte, in order. */
  method ExtendFromSlice(v: seq<Byte>, slice: seq<Byte>) returns (r: seq<Byte>)
    ensures |r| == |v| + |slice|
    ensures r[..|v|] == v
    ensures forall i :: 0 <= i < |slice| ==> r[|v| + i] == slice[i]
  {
    r := v;
    var i := 0;
    while i < |slice|
      invariant 0 <= i <= |slice|
      invariant r == v + slice[..i]
    {
      r := r + [slice[i]];
      i := i + 1;
    }
  }

  /** The imperative body of `payload`: start empty, extend with the magic,
      push the opcode, extend with the parameters when present. It builds
      exactly the frame described by `Frame`. */
  method BuildPayload(magic: seq<Byte>, opcode: Byte, parameters: Option<seq<Byte>>)
    returns (payload: Payload)
    ensures payload == Frame(magic, opcode, parameters)
  {
    payload := [];
    payload := ExtendFromSlice(payload, magic);
    assert payload == magic;
    payload := payload + [opcode];
    if parameters.Some? {
      var before := payload;
      payload := ExtendFromSlice(payload, parameters.value);
      assert payload == before + parameters.value;
    }
  }
}

/** The enabled-codecs bit set (`EnabledCodecsParameter`, a `bitflags` type
    over `u8`). A value is the bitwise OR of the named constants chosen. */
module Codecs {
  import opened Framing

  /** The five named constants. */
  datatype Codec = Aac | Ldac | Aptx | AptxLl | AptxHd {
    /** The raw bits of the constant. `AptxLl` and `AptxHd` both include the
        `Ldac` bit 0x04. */
    function Bits(): (b: Byte)
      ensures b & NotNamed == 0
      ensures b != 0
    {
      match this
      case Aac => 0x02
      case Ldac => 0x04
      case Aptx => 0x08
      case AptxLl => 0x14
      case AptxHd => 0x24
    }
  }

  /** Bits that belong to no named constant (bit 0 and bits 6 and 7). */
  const NotNamed: Byte := 0xC1

  /** Bit patterns that stay within the named constants. */
  type CodecFlags = b: Byte | b & NotNamed == 0

  /** The single-bit mask for bit position `k`. */
  function Bit(k: nat): Byte
    requires k < 8
  {
    (1 as Byte) << k
  }

  /** True when bit `k` is set in some chosen constant. */
  ghost predicate ChosenBit(codecs: seq<Codec>, k: nat)
    requires k < 8
  {
    exists i :: 0 <= i < |codecs| && codecs[i].Bits() & Bit(k) != 0
  }

  /** `bitflags` `contains`: every bit of the constant is set. */
  predicate Contains(flags: Byte, codec: Codec) {
    flags & codec.Bits() == codec.Bits()
  }

  /** `c1 | c2 | ... | cn`, evaluated left to right starting from the empty set.
      A bit is set in the result exactly when some chosen constant sets it. */
  function Union(codecs: seq<Codec>): (flags: CodecFlags)
    ensures forall i :: 0 <= i < |codecs| ==> Contains(flags, codecs[i])
    ensures forall k :: 0 <= k < 8 ==> (flags & Bit(k) != 0 <==> ChosenBit(codecs, k))
    decreases |codecs|
  {
    if |codecs| == 0 then 0
    else
      var front := codecs[..|codecs| - 1];
      var last := codecs[|codecs| - 1];
      assert forall i :: 0 <= i < |front| ==> front[i] == codecs[i];
      Union(front) | last.Bits()
  }

  /** A byte is determined by which of its eight bits are set. */
  lemma BitsDetermineByte(x: Byte, y: Byte)
    requires forall k :: 0 <= k < 8 ==> (x & Bit(k) != 0 <==> y & Bit(k) != 0)
    ensures x == y
  {
    assert x & Bit(0) != 0 <==> y & Bit(0) != 0;
    assert x & Bit(1) != 0 <==> y & Bit(1) != 0;
    assert x & Bit(2) != 0 <==> y & Bit(2) != 0;
    assert x & Bit(3) != 0 <==> y & Bit(3) != 0;
    assert x & Bit(4) != 0 <==> y & Bit(4) != 0;
    assert x & Bit(5) != 0 <==> y & Bit(5) != 0;
    assert x & Bit(6) != 0 <==> y & Bit(6) != 0;
    assert x & Bit(7) != 0 <==> y & Bit(7) != 0;
  }

  /** The set depends only on which constants were chosen: order and
      repetition do not matter. */
  lemma UnionDependsOnlyOnMembers(a: seq<Codec>, b: seq<Codec>)
    requires forall c :: c in a <==> c in b
    ensures Union(a) == Union(b)
  {
    forall k | 0 <= k < 8
      ensures Union(a) & Bit(k) != 0 <==> Union(b) & Bit(k) != 0
    {
      if ChosenBit(a, k) {
        var i :| 0 <= i < |a| && a[i].Bits() & Bit(k) != 0;
        assert a[i] in b;
        var j :| 0 <= j < |b| && b[j] == a[i];
        assert ChosenBit(b, k);
      }
      if ChosenBit(b, k) {
        var j :| 0 <= j < |b| && b[j].Bits() & Bit(k) != 0;
        assert b[j] in a;
        var i :| 0 <= i < |a| && a[i] == b[j];
        assert ChosenBit(a, k);
      }
    }
    BitsDetermineByte(Union(a), Union(b));
  }

  /** Because of the shared bit, choosing `AptxLl` or `AptxHd` also makes the
      set contain `Ldac`. */
  lemma AptxVariantsContainLdac(codecs: seq<Codec>)
    requires AptxLl in codecs || AptxHd in codecs
    ensures Contains(Union(codecs), Ldac)
  {
  }

  /** Every set that can be formed has bit 0x04 whenever it has 0x10 or 0x20,
      so not every pattern inside the named mask is reachable by union. */
  lemma {:induction false} HighBitsImplyLdacBit(codecs: seq<Codec>)
    ensures Union(codecs) & 0x30 != 0 ==> Union(codecs) & 0x04 != 0
  {
    var flags := Union(codecs);
    if flags & 0x30 != 0 {
      assert flags & Bit(4) != 0 || flags & Bit(5) != 0;
      var k := if flags & Bit(4) != 0 then 4 else 5;
      assert ChosenBit(codecs, k);
      var i :| 0 <= i < |codecs| && codecs[i].Bits() & Bit(k) != 0;
      assert codecs[i] == AptxLl || codecs[i] == AptxHd;
      assert ChosenBit(codecs, 2);
    }
  }

  /** Consequently the in-mask pattern 0x10 is never produced. */
  lemma PatternOfLowLatencyBitAloneIsUnreachable(codecs: seq<Codec>)
    ensures Union(codecs) != 0x10
  {
    HighBitsImplyLdacBit(codecs);
  }

  /** Adding `Ldac` to a set that already holds `AptxLl` changes nothing. */
  lemma LdacAbsorbedByAptxLl()
    ensures Union([AptxLl, Ldac]) == Union([AptxLl])
  {
  }

  /** `Aac | Ldac` is 0x06. */
  lemma AacLdacExample()
    ensures Union([Aac, Ldac]) == 0x06
  {
  }
}

/**
 * The LRCM word of a datagram header:
 *
 *   | M: 1 bit | C: 1 bit | R: 3 bits | Len: 11 bits |
 *
 * M says more datagrams follow, C marks a circulating frame, R is reserved
 * and Len is the payload length. Fields are kept at the widths Go declares
 * (R and Len are uint16), so a caller can store values wider than their
 * slot; nothing masks them on the way out.
 */
module Lrcm {
  import Wire

  datatype Lrcm = Lrcm(M: bool, C: bool, R: bv16, Len: bv16)
  {
    /** Every field fits its slot in the word. */
    predicate Fits()
    {
      R < 8 && Len < 0x800
    }

    /**
     * The encoder as the source writes it: the C branch assigns the M bit's
     * variable, so the C bit's own variable stays 0. C therefore lands on
     * bit 14 and wipes out M; R and Len are ORed in unmasked.
     */
    function Uint16AsWritten(): (w: bv16)
      ensures Fits() ==> (w & 0x8000 != 0 <==> M && !C)
      ensures Fits() ==> (w & 0x4000 != 0 <==> C)
    {
      var mBits: bv16 := if C then 0x4000 else if M then 0x8000 else 0;
      var cBits: bv16 := 0;
      var rBits := R << 11;
      mBits | cBits | rBits | Len
    }

    /**
     * The encoder with the C branch writing its own bit: M on bit 15, C on
     * bit 14, then R and Len, still unmasked. It is the corrected counterpart
     * of Uint16AsWritten; the round-trip lemmas state what it gains.
     */
    function Uint16(): (w: bv16)
      ensures Fits() ==> (w & 0x8000 != 0 <==> M)
      ensures Fits() ==> (w & 0x4000 != 0 <==> C)
      ensures Fits() ==> (w >> 11) & 7 == R && w & 0x7FF == Len
    {
      var mBits: bv16 := if M then 0x8000 else 0;
      var cBits: bv16 := if C then 0x4000 else 0;
      var rBits := R << 11;
      mBits | cBits | rBits | Len
    }
  }

  /** An LRCM with the given flags and length and R = 0; the length is not checked. */
  function NewLrcm(isMore: bool, isCirculating: bool, len: bv16): (l: Lrcm)
    ensures l.M == isMore && l.C == isCirculating && l.R == 0 && l.Len == len
  {
    Lrcm(M := isMore, C := isCirculating, R := 0, Len := len)
  }

  /** The fields of a word: M is bit 15, C bit 14, R bits 13..11 and Len bits 10..0. */
  function NewLrcmFromUint16(v: bv16): (l: Lrcm)
    ensures l.Fits()
    ensures l.M <==> v & 0x8000 != 0
    ensures l.C <==> v & 0x4000 != 0
    ensures (l.R << 11) | l.Len == v & 0x3FFF
  {
    var m := 1 == (v & 0x8000) >> 15;
    var c := 1 == (v & 0x4000) >> 14;
    var r := (v & 0x3800) >> 11;
    var len := v & 0x7FF;
    Lrcm(M := m, C := c, R := r, Len := len)
  }

  /** Every word is the encoding of its fields. */
  lemma EncodeDecode(v: bv16)
    ensures NewLrcmFromUint16(v).Uint16() == v
  {
  }

  /** The as-written encoder gives every word back too, except that it drops bit 15 whenever bit 14 is set. */
  lemma EncodeDecodeAsWritten(v: bv16)
    ensures NewLrcmFromUint16(v).Uint16AsWritten() == if v & 0xC000 == 0xC000 then v & 0x7FFF else v
  {
    var l := NewLrcmFromUint16(v);
    if l.C {
      AsWrittenCirculating(l);
      CirculatingWord(v);
    } else {
      AsWrittenAgreesWithoutCirculating(l);
      EncodeDecode(v);
    }
  }

  /** With C set, the as-written word is bit 14 over R and Len: M is gone. */
  lemma AsWrittenCirculating(l: Lrcm)
    requires l.C
    ensures l.Uint16AsWritten() == 0x4000 | ((l.R << 11) | l.Len)
  {
  }

  /** Bit 14 over the low 14 bits of a word with bit 14 set is that word less bit 15. */
  lemma CirculatingWord(v: bv16)
    requires v & 0x4000 != 0
    ensures 0x4000 | (v & 0x3FFF) == if v & 0xC000 == 0xC000 then v & 0x7FFF else v
  {
  }

  /** Decoding inverts encoding for every LRCM whose fields fit. */
  lemma DecodeEncode(l: Lrcm)
    requires l.Fits()
    ensures NewLrcmFromUint16(l.Uint16()) == l
  {
  }

  /**
   * With the source's encoder, a freshly built LRCM survives encoding and
   * decoding exactly when its length fits 11 bits and M and C are not both
   * set: a longer length comes back altered, and C set wipes out M.
   */
  lemma NewLrcmRoundTrip(isMore: bool, isCirculating: bool, len: bv16)
    ensures NewLrcmFromUint16(NewLrcm(isMore, isCirculating, len).Uint16AsWritten()) == NewLrcm(isMore, isCirculating, len)
            <==> len < 0x800 && !(isMore && isCirculating)
  {
  }

  /**
   * With the corrected encoder, a freshly built LRCM survives encoding and
   * decoding exactly when its length fits 11 bits, whatever its flags.
   */
  lemma NewLrcmRoundTripCorrected(isMore: bool, isCirculating: bool, len: bv16)
    ensures NewLrcmFromUint16(NewLrcm(isMore, isCirculating, len).Uint16()) == NewLrcm(isMore, isCirculating, len)
            <==> len < 0x800
  {
  }

  /** The two encoders differ only when C is set; every caller in the repository passes C = false. */
  lemma AsWrittenAgreesWithoutCirculating(l: Lrcm)
    requires !l.C
    ensures l.Uint16AsWritten() == l.Uint16()
  {
  }

  /**
   * The as-written encoder loses M: an LRCM with M and C both set encodes
   * to 0x4000, which decodes with M clear.
   */
  lemma AsWrittenLosesMore()
    ensures Lrcm(true, true, 0, 0).Uint16AsWritten() == 0x4000
    ensures !NewLrcmFromUint16(Lrcm(true, true, 0, 0).Uint16AsWritten()).M
    ensures Lrcm(true, true, 0, 0).Uint16() == 0xC000
  {
  }

  /**
   * A length of 2048 or more is ORed into the R, C and M positions:
   * length 0x800 with R = 0 reads back as R = 1, length 0.
   */
  lemma LengthBleedsIntoReserved()
    ensures NewLrcm(false, false, 0x800).Uint16AsWritten() == 0x800
    ensures NewLrcmFromUint16(0x800) == Lrcm(false, false, 1, 0)
  {
  }

  /** The datagram test's LRCM from 170: length 170, no flags, rendered as 170, 0. */
  lemma LrcmVector()
    ensures NewLrcmFromUint16(170) == NewLrcm(false, false, 170)
    ensures Wire.LE16(NewLrcmFromUint16(170).Uint16AsWritten()) == [170, 0]
  {
  }
}

/**
 * The EtherCAT frame header: one 16-bit word holding a 4-bit type, a
 * reserved bit and the 11-bit length of the datagrams that follow.
 *
 *   | type: 4 bits | reserved: 1 bit | length: 11 bits |
 *
 * The Go struct keeps its three fields unexported, so outside the package a
 * header is one of DefaultEcatHeader(), a successful NewEcatHeader(n) or the
 * zero value Header(0, 0, 0).
 */
module Header {
  import opened Wrappers

  /** The only type ESCs accept: EtherCAT commands. */
  const EcatCommandType: bv16 := 1

  /** Lengths are 11 bits wide. */
  const LengthLimit: bv16 := 2048

  datatype Error = OutOfRange

  datatype Header = Header(ecatType: bv16, res: bv16, length: bv16)
  {
    /** The header holds the length it was built with; for a constructor-built header it fits 11 bits. */
    function ExtractLength(): (l: bv16)
      ensures Wellformed() ==> l < LengthLimit && l as int < 2048
    {
      length
    }

    /**
     * The packed word. Type and reserved are shifted as uint16 (so high
     * bits fall off), the length is masked to 11 bits. For a header a
     * constructor built, the word is the type nibble 1, a clear reserved
     * bit and the length, which reads back from the low 11 bits.
     */
    function Uint16(): (w: bv16)
      ensures w & 0x7FF == length & 0x7FF
      ensures Wellformed() ==> w == 0x1000 | length
      ensures Wellformed() ==> w >> 12 == EcatCommandType && w & 0x800 == 0 && w & 0x7FF == ExtractLength()
    {
      (ecatType << 12) | (res << 11) | (length & 0x7FF)
    }

    /** What every constructor-built header satisfies. */
    predicate Wellformed()
    {
      ecatType == EcatCommandType && res == 0 && length < LengthLimit
    }
  }

  /** The header of an empty frame: type 1, reserved 0, length 0. */
  function DefaultEcatHeader(): (h: Header)
    ensures h.Wellformed() && h.ExtractLength() == 0
    ensures h.Uint16() == 0x1000
  {
    Header(1, 0, 0)
  }

  /**
   * A header announcing `length` bytes of datagrams; fails exactly when the
   * length does not fit the 11-bit field.
   */
  function NewEcatHeader(length: bv16): (r: Result<Header, Error>)
    ensures r.Err? <==> length >= LengthLimit
    ensures r.Ok? ==> r.value.Wellformed() && r.value.ExtractLength() == length
    ensures r.Ok? ==> r.value.Uint16() & 0x7FF == length
  {
    if length >= 2048 then Err(OutOfRange) else Ok(Header(1, 0, length))
  }

  /** The length the header test builds, 0x14, reads back unchanged. */
  lemma HeaderLengthVector()
    ensures NewEcatHeader(0x14).Ok? && NewEcatHeader(0x14).value.ExtractLength() == 0x14
    ensures NewEcatHeader(0x14).value.Uint16() == 0x1014
  {
  }
}

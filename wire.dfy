/**
 * Fixed-width integers on the wire. Go's `binary.LittleEndian` and
 * `binary.BigEndian` PutUint16/PutUint32 are modelled as functions to byte
 * sequences, each paired with the reader that undoes it.
 */
module Wire {

  type byte = bv8

  /** The two bytes `binary.LittleEndian.PutUint16` writes: low byte first. */
  function LE16(x: bv16): (r: seq<byte>)
    ensures |r| == 2
    ensures FromLE16(r) == x
  {
    [(x & 0xFF) as byte, (x >> 8) as byte]
  }

  function FromLE16(b: seq<byte>): bv16
    requires |b| == 2
  {
    ((b[1] as bv16) << 8) | (b[0] as bv16)
  }

  /** The two bytes `binary.BigEndian.PutUint16` writes: high byte first. */
  function BE16(x: bv16): (r: seq<byte>)
    ensures |r| == 2
    ensures FromBE16(r) == x
    ensures r == [LE16(x)[1], LE16(x)[0]]
  {
    [(x >> 8) as byte, (x & 0xFF) as byte]
  }

  function FromBE16(b: seq<byte>): bv16
    requires |b| == 2
  {
    ((b[0] as bv16) << 8) | (b[1] as bv16)
  }

  /** The four bytes `binary.LittleEndian.PutUint32` writes: least significant first. */
  function LE32(x: bv32): (r: seq<byte>)
    ensures |r| == 4
    ensures FromLE32(r) == x
  {
    [(x & 0xFF) as byte, ((x >> 8) & 0xFF) as byte, ((x >> 16) & 0xFF) as byte, (x >> 24) as byte]
  }

  function FromLE32(b: seq<byte>): bv32
    requires |b| == 4
  {
    ((b[3] as bv32) << 24) | ((b[2] as bv32) << 16) | ((b[1] as bv32) << 8) | (b[0] as bv32)
  }

  /** Every two-byte sequence is the encoding of the value read from it. */
  lemma LE16OfFromLE16(b: seq<byte>)
    requires |b| == 2
    ensures LE16(FromLE16(b)) == b
  {
  }

  lemma BE16OfFromBE16(b: seq<byte>)
    requires |b| == 2
    ensures BE16(FromBE16(b)) == b
  {
  }

  lemma LE32OfFromLE32(b: seq<byte>)
    requires |b| == 4
    ensures LE32(FromLE32(b)) == b
  {
  }

  /** A uint16 conversion of an int that already fits keeps its value. */
  lemma Bv16OfInt(n: int)
    requires 0 <= n < 0x10000
    ensures (n as bv16) as int == n
  {
    assert n % 0x10000 == n;
    assert ((n % 0x10000) as bv16) as int == n % 0x10000;
  }

  /** Comparing a uint16 with 2048 means the same as bits or as an int. */
  lemma Bv16Below2048(b: bv16)
    ensures b < 0x800 <==> b as int < 2048
  {
  }
}

/**
 * One EtherCAT datagram and its wire image:
 *
 *   command(1) index(1) address(4) lrcm(2) irq(2) data(N) wkc(2)
 *
 * Every multi-byte field is little-endian except IRQ, which is big-endian.
 * The 32-bit address goes out as two little-endian halves, upper half first.
 */
module Datagram {
  import opened Wire
  import Lrcm
  import Command
  import Payload

  /** Bytes in front of the data: command, index, address, LRCM and IRQ. */
  const HeaderSize := 10

  /** Bytes after the data: the working counter. */
  const TrailerSize := 2

  /**
   * Command is the byte of a command.Type (a uint8, so any byte can be
   * stored); Data is the byte slice the datagram carries, for instance what
   * a payload record renders.
   */
  datatype Datagram = Datagram(
    Command: byte,
    Index: byte,
    Address: bv32,
    LRCM: Lrcm.Lrcm,
    IRQ: bv16,
    Data: seq<byte>,
    WKC: bv16)
  {
    /** The upper half of the address, the first half on the wire. */
    function AddressHigh(): (h: bv16)
      ensures ((h as bv32) << 16) | (AddressLow() as bv32) == Address
    {
      (Address >> 16) as bv16
    }

    function AddressLow(): bv16
    {
      (Address & 0xFFFF) as bv16
    }

    /** The number of bytes of the wire image: the fixed fields around the data. */
    function Size(): nat
    {
      HeaderSize + |Data| + TrailerSize
    }

    /**
     * The wire image. Rendering never fails and does not compare LRCM.Len
     * with the length of Data. The LRCM word is the one the source's encoder
     * writes, C overwriting M included.
     */
    function Bytes(): (r: seq<byte>)
      ensures |r| == Size()
    {
      [Command, Index] + LE16(AddressHigh()) + LE16(AddressLow()) + LE16(LRCM.Uint16AsWritten()) + BE16(IRQ) + Data + LE16(WKC)
    }
  }

  /** Every field of a datagram can be read back from its slot of the wire image. */
  lemma BytesFields(d: Datagram)
    ensures var r := d.Bytes();
            && r[0] == d.Command && r[1] == d.Index
            && ((FromLE16(r[2..4]) as bv32) << 16) | (FromLE16(r[4..6]) as bv32) == d.Address
            && FromLE16(r[6..8]) == d.LRCM.Uint16AsWritten()
            && FromBE16(r[8..10]) == d.IRQ
            && r[HeaderSize..HeaderSize + |d.Data|] == d.Data
            && FromLE16(r[HeaderSize + |d.Data|..]) == d.WKC
  {
    var r := d.Bytes();
    assert r[2..4] == LE16(d.AddressHigh());
    assert r[4..6] == LE16(d.AddressLow());
    assert r[6..8] == LE16(d.LRCM.Uint16AsWritten());
    assert r[8..10] == BE16(d.IRQ);
    assert r[HeaderSize + |d.Data|..] == LE16(d.WKC);
  }

  /**
   * For a datagram that is not circulating, the LRCM slot holds the word of
   * the corrected encoder too, so M, C, R and Len read back from it when
   * they fit.
   */
  lemma LrcmSlotWithoutCirculating(d: Datagram)
    requires !d.LRCM.C && d.LRCM.Fits()
    ensures FromLE16(d.Bytes()[6..8]) == d.LRCM.Uint16()
    ensures Lrcm.NewLrcmFromUint16(FromLE16(d.Bytes()[6..8])) == d.LRCM
  {
    BytesFields(d);
    Lrcm.AsWrittenAgreesWithoutCirculating(d.LRCM);
    Lrcm.DecodeEncode(d.LRCM);
  }

  /**
   * The first datagram test: NOP, index 5, address 0x00FF00FF, LRCM from 170
   * over three data bytes. The LRCM length (170) and the data length (3)
   * disagree, and the datagram renders all the same.
   */
  lemma NopVector()
    ensures Datagram(Command.Type.NOP.Code(), 5, 0x00FF00FF, Lrcm.NewLrcmFromUint16(170), 0,
                     Payload.BasicPayload([1, 2, 3]).Bytes(), 1).Bytes()
            == [0, 5, 255, 0, 255, 0, 170, 0, 0, 0, 1, 2, 3, 1, 0]
  {
  }

  /** The second datagram test: APWR to 0xFFFF0800 with an 8-byte payload. */
  lemma ApwrVector()
    ensures Datagram(Command.Type.APWR.Code(), 0x5F, 0xFFFF0800, Lrcm.NewLrcm(false, false, 8), 0,
                     Payload.BasicPayload([0x00, 0x18, 0x30, 0x00, 0x26, 0x00, 0x01, 0x00]).Bytes(), 0).Bytes()
            == [0x02, 0x5F, 0xFF, 0xFF, 0x00, 0x08, 0x08, 0x00, 0x00, 0x00,
                0x00, 0x18, 0x30, 0x00, 0x26, 0x00, 0x01, 0x00, 0x00, 0x00]
  {
  }
}

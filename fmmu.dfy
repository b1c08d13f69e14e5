/**
 * The FMMU configuration record: a mapping from a logical address range to
 * a physical one, with read/write capability and an activation flag,
 * rendered as 13 bytes.
 */
module Fmmu {
  import opened Wire

  /** The type byte: bit 0 when the mapping may be read, bit 1 when it may be written, nothing else. */
  function TypeBits(ableUseRead: bool, ableUseWrite: bool): (b: byte)
    ensures b <= 3
    ensures b & 1 == 1 <==> ableUseRead
    ensures b & 2 == 2 <==> ableUseWrite
  {
    var read: byte := if ableUseRead then 1 else 0;
    var write: byte := if ableUseWrite then 2 else 0;
    read | write
  }

  datatype FMMU = FMMU(
    LogStart: bv32,
    LogLength: bv16,
    LogStartBit: byte,
    LogEndBit: byte,
    PhysStart: bv16,
    PhysStartBit: byte,
    AbleUseRead: bool,
    AbleUseWrite: bool,
    IsActivate: bool)
  {
    /**
     * The 13-byte image: LogStart (4 bytes LE), LogLength (2 bytes LE),
     * LogStartBit, LogEndBit, PhysStart (2 bytes LE), PhysStartBit, the
     * type byte (bit 0 read, bit 1 write) and the activation byte.
     */
    function Bytes(): (r: seq<byte>)
      ensures |r| == 13
      ensures FromLE32(r[0..4]) == LogStart && FromLE16(r[4..6]) == LogLength
      ensures r[6] == LogStartBit && r[7] == LogEndBit
      ensures FromLE16(r[8..10]) == PhysStart && r[10] == PhysStartBit
      ensures r[11] == TypeBits(AbleUseRead, AbleUseWrite)
      ensures r[12] == if IsActivate then 1 else 0
    {
      var typeBits := TypeBits(AbleUseRead, AbleUseWrite);
      var activateBits: byte := if IsActivate then 1 else 0;
      var logStart, logLength, physStart := LE32(LogStart), LE16(LogLength), LE16(PhysStart);
      var r := logStart + logLength + [LogStartBit, LogEndBit] + physStart + [PhysStartBit, typeBits, activateBits];
      assert r[0..4] == logStart && r[4..6] == logLength && r[8..10] == physStart;
      r
    }
  }

  /** The record of the FMMU test renders to its 13 expected bytes. */
  lemma FmmuVector()
    ensures FMMU(0, 0x0020, 0, 0x07, 0x1200, 0, true, false, true).Bytes()
            == [0x00, 0x00, 0x00, 0x00, 0x20, 0x00, 0x00, 0x07, 0x00, 0x12, 0x00, 0x01, 0x01]
  {
  }
}

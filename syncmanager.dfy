/**
 * The SyncManager configuration record a master writes to a slave: start
 * address, length, the control/status register and the enable register,
 * rendered as four little-endian 16-bit words (8 bytes).
 *
 * The bit positions are those of the source's masks; the bit numbers in the
 * source's field comments disagree with them and are not modelled.
 */
module SyncManager {
  import opened Wire

  /** Every bit CtrlStatus.ToUint16 can set. */
  const CtrlStatusMask: bv16 := 0x3B7F

  /** Every bit Enable.ToUint16 can set. */
  const EnableMask: bv16 := 0x03C3

  /**
   * Control/status register. Mask positions: InVisibleBuffer 0x3000,
   * VisibleBufferBufferStat 0x0800, CanReadIRQ 0x0200, CanWriteIRQ 0x0100,
   * IsTriggerWatchdog 0x0040, IsPdiIRQ 0x0020, IsEcatIRQ 0x0010,
   * Access 0x000C, OpMode 0x0003.
   */
  datatype CtrlStatus = CtrlStatus(
    InVisibleBuffer: bv16,
    VisibleBufferBufferStat: bv16,
    CanReadIRQ: bool,
    CanWriteIRQ: bool,
    IsTriggerWatchdog: bool,
    IsPdiIRQ: bool,
    IsEcatIRQ: bool,
    Access: bv16,
    OpMode: bv16)
  {
    /** Every multi-bit field fits its slot. */
    predicate Fits()
    {
      InVisibleBuffer <= 3 && VisibleBufferBufferStat <= 1 && Access <= 3 && OpMode <= 3
    }

    /** The packed register; each multi-bit field is masked to its slot, so nothing lands outside the mask. */
    function ToUint16(): (w: bv16)
      ensures w & !CtrlStatusMask == 0
      ensures (w & 0x0200 != 0 <==> CanReadIRQ) && (w & 0x0100 != 0 <==> CanWriteIRQ)
      ensures (w & 0x0040 != 0 <==> IsTriggerWatchdog) && (w & 0x0020 != 0 <==> IsPdiIRQ)
      ensures (w & 0x0010 != 0 <==> IsEcatIRQ)
      ensures (w >> 12) & 3 == InVisibleBuffer & 3 && (w >> 11) & 1 == VisibleBufferBufferStat & 1
      ensures (w >> 2) & 3 == Access & 3 && w & 3 == OpMode & 3
    {
      var inVisibleBufferBits := (InVisibleBuffer << 12) & 0x3000;
      var visibleBufferBits := (VisibleBufferBufferStat << 11) & 0x0800;
      var canReadIRQBits: bv16 := if CanReadIRQ then 0x0200 else 0;
      var canWriteIRQBits: bv16 := if CanWriteIRQ then 0x0100 else 0;
      var isTriggerWatchdogBits: bv16 := if IsTriggerWatchdog then 0x0040 else 0;
      var isPdiIRQBits: bv16 := if IsPdiIRQ then 0x0020 else 0;
      var isEcatIRQBits: bv16 := if IsEcatIRQ then 0x0010 else 0;
      var accessBits := (Access << 2) & 0x000C;
      var opModeBits := OpMode & 0x0003;
      inVisibleBufferBits | visibleBufferBits | canReadIRQBits | canWriteIRQBits
        | isTriggerWatchdogBits | isPdiIRQBits | isEcatIRQBits | accessBits | opModeBits
    }
  }

  /** The fields of a control/status word; the multi-bit fields come out within their widths. */
  function NewCtrlStatusFromUint16(ctrlStatus: bv16): (c: CtrlStatus)
    ensures c.Fits()
    ensures (c.CanReadIRQ <==> ctrlStatus & 0x0200 != 0) && (c.CanWriteIRQ <==> ctrlStatus & 0x0100 != 0)
    ensures (c.IsTriggerWatchdog <==> ctrlStatus & 0x0040 != 0) && (c.IsPdiIRQ <==> ctrlStatus & 0x0020 != 0)
    ensures (c.IsEcatIRQ <==> ctrlStatus & 0x0010 != 0)
    ensures c.InVisibleBuffer == (ctrlStatus >> 12) & 3 && c.VisibleBufferBufferStat == (ctrlStatus >> 11) & 1
    ensures c.Access == (ctrlStatus >> 2) & 3 && c.OpMode == ctrlStatus & 3
  {
    CtrlStatus(
      InVisibleBuffer := (ctrlStatus & 0x3000) >> 12,
      VisibleBufferBufferStat := (ctrlStatus & 0x0800) >> 11,
      CanReadIRQ := ctrlStatus & 0x0200 == 0x0200,
      CanWriteIRQ := ctrlStatus & 0x0100 == 0x0100,
      IsTriggerWatchdog := ctrlStatus & 0x0040 == 0x0040,
      IsPdiIRQ := ctrlStatus & 0x0020 == 0x0020,
      IsEcatIRQ := ctrlStatus & 0x0010 == 0x0010,
      Access := (ctrlStatus & 0x000C) >> 2,
      OpMode := ctrlStatus & 0x0003)
  }

  /** Decoding a packed register gives back every record whose fields fit. */
  lemma CtrlStatusDecodeEncode(c: CtrlStatus)
    requires c.Fits()
    ensures NewCtrlStatusFromUint16(c.ToUint16()) == c
  {
  }

  /** Packing the fields of any word gives that word with the bits outside the mask cleared. */
  lemma CtrlStatusEncodeDecode(v: bv16)
    ensures NewCtrlStatusFromUint16(v).ToUint16() == v & CtrlStatusMask
  {
  }

  /** Enable register: six single-bit flags. */
  datatype Enable = Enable(
    IsRepeatAcknowledge: bool,
    IsDeactivate: bool,
    IsLatchChangePDI: bool,
    IsLatchChangeECAT: bool,
    IsRepeatRequest: bool,
    IsEnable: bool)
  {
    /** The packed register: each flag on its own bit, nothing outside the mask. */
    function ToUint16(): (w: bv16)
      ensures w & !EnableMask == 0
      ensures (w & 0x0200 != 0 <==> IsRepeatAcknowledge) && (w & 0x0100 != 0 <==> IsDeactivate)
      ensures (w & 0x0080 != 0 <==> IsLatchChangePDI) && (w & 0x0040 != 0 <==> IsLatchChangeECAT)
      ensures (w & 0x0002 != 0 <==> IsRepeatRequest) && (w & 0x0001 != 0 <==> IsEnable)
    {
      var isRepeatAcknowledgeBits: bv16 := if IsRepeatAcknowledge then 0x0200 else 0;
      var isDeactivateBits: bv16 := if IsDeactivate then 0x0100 else 0;
      var isLatchChangePDIBits: bv16 := if IsLatchChangePDI then 0x0080 else 0;
      var isLatchChangeECATBits: bv16 := if IsLatchChangeECAT then 0x0040 else 0;
      var isRepeatRequestBits: bv16 := if IsRepeatRequest then 0x0002 else 0;
      var isEnableBits: bv16 := if IsEnable then 1 else 0;
      isRepeatAcknowledgeBits | isDeactivateBits | isLatchChangePDIBits
        | isLatchChangeECATBits | isRepeatRequestBits | isEnableBits
    }
  }

  /** The flags of an enable word: each is true exactly when its bit is set. */
  function NewEnableFromUint16(enable: bv16): (e: Enable)
    ensures (e.IsRepeatAcknowledge <==> enable & 0x0200 != 0) && (e.IsDeactivate <==> enable & 0x0100 != 0)
    ensures (e.IsLatchChangePDI <==> enable & 0x0080 != 0) && (e.IsLatchChangeECAT <==> enable & 0x0040 != 0)
    ensures (e.IsRepeatRequest <==> enable & 0x0002 != 0) && (e.IsEnable <==> enable & 1 != 0)
  {
    Enable(
      IsRepeatAcknowledge := enable & 0x0200 == 0x0200,
      IsDeactivate := enable & 0x0100 == 0x0100,
      IsLatchChangePDI := enable & 0x0080 == 0x0080,
      IsLatchChangeECAT := enable & 0x0040 == 0x0040,
      IsRepeatRequest := enable & 0x0002 == 0x0002,
      IsEnable := enable & 1 == 1)
  }

  /** Every flag combination survives packing and unpacking. */
  lemma EnableDecodeEncode(e: Enable)
    ensures NewEnableFromUint16(e.ToUint16()) == e
  {
  }

  /** Packing the flags of any word gives that word with the bits outside the mask cleared. */
  lemma EnableEncodeDecode(v: bv16)
    ensures NewEnableFromUint16(v).ToUint16() == v & EnableMask
  {
  }

  datatype SyncManager = SyncManager(Start: bv16, Length: bv16, CtrlStatus: CtrlStatus, Enable: Enable)
  {
    /** The 8-byte image: Start, Length, control/status and enable, each a little-endian word. */
    function Bytes(): (r: seq<byte>)
      ensures |r| == 8
      ensures FromLE16(r[0..2]) == Start && FromLE16(r[2..4]) == Length
      ensures FromLE16(r[4..6]) == CtrlStatus.ToUint16() && FromLE16(r[6..8]) == Enable.ToUint16()
    {
      LE16(Start) + LE16(Length) + LE16(CtrlStatus.ToUint16()) + LE16(Enable.ToUint16())
    }
  }

  /** The control/status value of the tests, 0x3A56, decodes to the tested fields and packs back unchanged. */
  lemma CtrlStatusVector()
    ensures NewCtrlStatusFromUint16(0x3A56) == CtrlStatus(3, 1, true, false, true, false, true, 1, 2)
    ensures CtrlStatus(3, 1, true, false, true, false, true, 1, 2).ToUint16() == 0x3A56
  {
  }

  /** The enable value of the tests, 0x0301, decodes to the tested flags and packs back unchanged. */
  lemma EnableVector()
    ensures NewEnableFromUint16(0x0301) == Enable(true, true, false, false, false, true)
    ensures Enable(true, true, false, false, false, true).ToUint16() == 0x0301
  {
  }

  /** The record of the SyncManager test renders to 0, 16, 32, 0, 100, 0, 1, 0. */
  lemma SyncManagerVector()
    ensures SyncManager(0x1000, 0x0020, NewCtrlStatusFromUint16(0x0064), NewEnableFromUint16(0x0001)).Bytes()
            == [0, 16, 32, 0, 100, 0, 1, 0]
  {
  }
}

/**
 * Payloads: anything that renders itself to bytes can be the data of a
 * datagram. The source states this as a one-method interface, Bytes(); its
 * implementations in the repository are the plain BasicPayload, the
 * SyncManager record and the FMMU record, and here they are the three
 * variants of one datatype.
 */
module Payload {
  import opened Wire
  import SyncManager
  import Fmmu

  /** A payload that is just a byte slice. */
  datatype BasicPayload = BasicPayload(Data: seq<byte>)
  {
    /** The bytes handed over unchanged. */
    function Bytes(): (r: seq<byte>)
      ensures |r| == |Data| && forall i :: 0 <= i < |r| ==> r[i] == Data[i]
    {
      Data
    }
  }

  /** The byte-renderable payloads of the repository. */
  datatype MarshalerByte =
    | Basic(basic: BasicPayload)
    | Sync(syncManager: SyncManager.SyncManager)
    | Mapping(fmmu: Fmmu.FMMU)
  {
    /** Each payload renders through its own Bytes(); the records have fixed sizes. */
    function Bytes(): (r: seq<byte>)
      ensures Basic? ==> r == basic.Data
      ensures Sync? ==> |r| == 8
      ensures Mapping? ==> |r| == 13
    {
      match this
      case Basic(p) => p.Bytes()
      case Sync(s) => s.Bytes()
      case Mapping(f) => f.Bytes()
    }
  }
}

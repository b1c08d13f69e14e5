/**
 * The EtherCAT command codes a datagram carries in its first byte.
 * For the read-write commands the read happens before the write.
 */
module Command {
  import opened Wrappers

  datatype Type =
    | NOP   // no operation
    | APRD  // auto increment read
    | APWR  // auto increment write
    | APRW  // auto increment read write
    | FPRD  // configured address read
    | FPWR  // configured address write
    | FPRW  // configured address read write
    | BRD   // broadcast read
    | BWR   // broadcast write
    | BRW   // broadcast read write
    | LRD   // logical memory read
    | LWR   // logical memory write
    | LRW   // logical memory read write
    | ARMW  // auto increment read multiple write
    | FRMW  // configured read multiple write
  {
    /** The one-byte code of the command: NOP is 0, and each next command one more, up to FRMW = 14. */
    function Code(): (b: bv8)
      ensures b < 15
      ensures this == NOP <==> b == 0
      ensures this == APRD <==> b == 1
      ensures this == APWR <==> b == 2
      ensures this == FRMW <==> b == 14
    {
      match this
      case NOP => 0
      case APRD => 1
      case APWR => 2
      case APRW => 3
      case FPRD => 4
      case FPWR => 5
      case FPRW => 6
      case BRD => 7
      case BWR => 8
      case BRW => 9
      case LRD => 10
      case LWR => 11
      case LRW => 12
      case ARMW => 13
      case FRMW => 14
    }
  }

  /** All commands in code order. */
  const All: seq<Type> := [NOP, APRD, APWR, APRW, FPRD, FPWR, FPRW, BRD, BWR, BRW, LRD, LWR, LRW, ARMW, FRMW]

  /** The command a byte names, if any: every byte below 15 names exactly one command. */
  function FromCode(b: bv8): (r: Option<Type>)
    ensures r.Some? <==> b < 15
    ensures r.Some? ==> r.value.Code() == b
  {
    if b < 15 then Some(All[b as int]) else None
  }

  /** The table has exactly fifteen entries, listed by code, and every command is in it. */
  lemma CodesAreTheTableIndices()
    ensures |All| == 15
    ensures forall i :: 0 <= i < |All| ==> All[i].Code() as int == i
    ensures forall t: Type :: t in All
  {
    forall t: Type ensures t in All {
      assert All[t.Code() as int] == t;
    }
  }

  /** Decoding the code of a command gives that command back, so the codes are pairwise distinct. */
  lemma FromCodeOfCode(t: Type)
    ensures FromCode(t.Code()) == Some(t)
    ensures forall u: Type :: u.Code() == t.Code() ==> u == t
  {
  }
}

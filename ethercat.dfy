/**
 * An EtherCAT frame: a header followed by datagrams in insertion order.
 * The header's length field is the number of datagram bytes that follow,
 * kept up to date by AppendDatagram, the one operation that adds to the
 * frame (the Go fields are unexported).
 */
module EtherCAT {
  import opened Wire
  import opened Wrappers
  import Header
  import Datagram
  import Lrcm
  import Command

  /** Sum of the rendered lengths of the datagrams. */
  function TotalLength(ds: seq<Datagram.Datagram>): nat
  {
    if ds == [] then 0 else ds[0].Size() + TotalLength(ds[1..])
  }

  /** The datagrams' wire images, one after the other, in order. */
  function Concat(ds: seq<Datagram.Datagram>): (r: seq<byte>)
    ensures |r| == TotalLength(ds)
  {
    if ds == [] then [] else ds[0].Bytes() + Concat(ds[1..])
  }

  /** The wire image of a frame: the header word, little-endian, then every datagram. */
  function FrameBytes(header: Header.Header, ds: seq<Datagram.Datagram>): (r: seq<byte>)
    ensures |r| == 2 + TotalLength(ds)
    ensures FromLE16(r[..2]) == header.Uint16()
  {
    LE16(header.Uint16()) + Concat(ds)
  }

  /** Appending a datagram appends its image and adds its length. */
  lemma {:induction false} ConcatSnoc(ds: seq<Datagram.Datagram>, d: Datagram.Datagram)
    ensures Concat(ds + [d]) == Concat(ds) + d.Bytes()
    ensures TotalLength(ds + [d]) == TotalLength(ds) + d.Size()
  {
    if ds == [] {
      assert ds + [d] == [d];
    } else {
      assert (ds + [d])[1..] == ds[1..] + [d];
      ConcatSnoc(ds[1..], d);
    }
  }

  /** One more datagram of a prefix adds its image at the end of whatever precedes the prefix. */
  lemma ConcatPrefixStep(prefix: seq<byte>, ds: seq<Datagram.Datagram>, i: nat)
    requires i < |ds|
    ensures prefix + Concat(ds[..i]) + ds[i].Bytes() == prefix + Concat(ds[..i + 1])
  {
    assert ds[..i + 1] == ds[..i] + [ds[i]];
    ConcatSnoc(ds[..i], ds[i]);
  }

  /** A slice of the second part of a concatenation, taken at offsets past the first part. */
  lemma SliceOfSuffix(x: seq<byte>, y: seq<byte>, lo: nat, hi: nat)
    requires lo <= hi <= |y|
    ensures (x + y)[|x| + lo..|x| + hi] == y[lo..hi]
  {
    assert forall k :: 0 <= k < hi - lo ==> (x + y)[|x| + lo..|x| + hi][k] == y[lo..hi][k];
  }

  /**
   * Order is kept: datagram i occupies the bytes from the total length of
   * the datagrams before it, for exactly its own length.
   */
  lemma {:induction false} ConcatAt(ds: seq<Datagram.Datagram>, i: nat)
    requires i < |ds|
    ensures TotalLength(ds[..i]) + ds[i].Size() <= TotalLength(ds)
    ensures Concat(ds)[TotalLength(ds[..i])..TotalLength(ds[..i]) + ds[i].Size()] == ds[i].Bytes()
  {
    if i == 0 {
      assert ds[..0] == [];
    } else {
      var rest := ds[1..];
      var before := rest[..i - 1];
      assert ds[..i][0] == ds[0] && ds[..i][1..] == before;
      assert TotalLength(ds[..i]) == ds[0].Size() + TotalLength(before);
      assert rest[i - 1] == ds[i];
      ConcatAt(rest, i - 1);
      var head := ds[0].Bytes();
      assert Concat(ds) == head + Concat(rest);
      SliceOfSuffix(head, Concat(rest), TotalLength(before), TotalLength(before) + ds[i].Size());
    }
  }

  /**
   * The new header AppendDatagram computes, as the source writes it: the sum
   * of the old length and the datagram's length is truncated to 16 bits
   * before the range check.
   */
  function AppendHeaderAsWritten(header: Header.Header, d: Datagram.Datagram): (r: Result<Header.Header, Header.Error>)
    ensures r.Ok? <==> (header.ExtractLength() as int + d.Size()) % 0x10000 < 2048
    ensures r.Ok? ==> r.value.ExtractLength() as int == (header.ExtractLength() as int + d.Size()) % 0x10000
  {
    var newDatagramLen := d.Size() + header.ExtractLength() as int;
    var truncated := newDatagramLen % 0x10000;
    Bv16OfInt(truncated);
    Bv16Below2048(truncated as bv16);
    Header.NewEcatHeader(truncated as bv16)
  }

  /**
   * A datagram of 65536 bytes, appended to an empty frame, passes the
   * as-written check and leaves the header length at 0.
   */
  lemma AsWrittenAcceptsWrappedLength()
    ensures var d := Datagram.Datagram(0, 0, 0, Lrcm.NewLrcm(false, false, 0), 0, seq(65524, _ => 0), 0);
            && d.Size() == 0x10000
            && AppendHeaderAsWritten(Header.DefaultEcatHeader(), d) == Ok(Header.DefaultEcatHeader())
  {
  }

  /**
   * The new header with the range check on the true sum: it fails exactly
   * when the datagrams would no longer fit the 11-bit length, and otherwise
   * holds the true sum.
   */
  function AppendHeader(header: Header.Header, d: Datagram.Datagram): (r: Result<Header.Header, Header.Error>)
    ensures r.Ok? <==> header.ExtractLength() as int + d.Size() < 2048
    ensures r.Err? ==> r.error == Header.OutOfRange
    ensures r.Ok? ==> r.value.Wellformed()
    ensures r.Ok? ==> r.value.ExtractLength() as int == header.ExtractLength() as int + d.Size()
  {
    var newDatagramLen := d.Size() + header.ExtractLength() as int;
    if newDatagramLen >= 2048 then Err(Header.OutOfRange)
    else
      Bv16OfInt(newDatagramLen);
      Bv16Below2048(newDatagramLen as bv16);
      Header.NewEcatHeader(newDatagramLen as bv16)
  }

  /** The two checks agree whenever the true sum fits 16 bits. */
  lemma AppendHeaderAgreesBelowWrap(header: Header.Header, d: Datagram.Datagram)
    requires header.ExtractLength() as int + d.Size() < 0x10000
    ensures AppendHeaderAsWritten(header, d) == AppendHeader(header, d)
  {
    var n := d.Size() + header.ExtractLength() as int;
    assert n % 0x10000 == n;
    var length := n as bv16;
    Bv16OfInt(n);
    Bv16Below2048(length);
    assert AppendHeaderAsWritten(header, d) == Header.NewEcatHeader(length);
    if n < 2048 {
      assert AppendHeader(header, d) == Header.NewEcatHeader(length);
    }
  }

  class EtherCAT {
    var header: Header.Header
    var datagrams: seq<Datagram.Datagram>

    /** The header is a constructor-built one and announces exactly the bytes of the datagrams. */
    ghost predicate Valid()
      reads this
    {
      header.Wellformed() && header.ExtractLength() as int == TotalLength(datagrams)
    }

    /** NewEtherCAT: the default header and no datagrams. */
    constructor ()
      ensures Valid()
      ensures header == Header.DefaultEcatHeader() && datagrams == []
    {
      header := Header.DefaultEcatHeader();
      datagrams := [];
    }

    /**
     * Adds a datagram at the end and grows the header length by its size,
     * or, when the frame would exceed 2047 datagram bytes, reports
     * OutOfRange and changes nothing.
     */
    method AppendDatagram(data: Datagram.Datagram) returns (err: Option<Header.Error>)
      requires Valid()
      modifies this
      ensures Valid()
      ensures err.None? <==> old(TotalLength(datagrams)) + data.Size() < 2048
      ensures err.Some? ==> err.value == Header.OutOfRange && header == old(header) && datagrams == old(datagrams)
      ensures err.None? ==> datagrams == old(datagrams) + [data]
      ensures err.None? ==> header.ExtractLength() as int == old(header.ExtractLength()) as int + data.Size()
    {
      var newHeader := AppendHeader(header, data);
      if newHeader.Err? {
        return Some(newHeader.error);
      }
      ConcatSnoc(datagrams, data);
      header := newHeader.value;
      datagrams := datagrams + [data];
      return None;
    }

    /** The wire image: the header word, then each datagram's bytes in insertion order. */
    method Bytes() returns (result: seq<byte>)
      ensures result == FrameBytes(header, datagrams)
    {
      var headerWord, ds := LE16(header.Uint16()), datagrams;
      result := headerWord;
      for i := 0 to |ds|
        invariant result == headerWord + Concat(ds[..i])
      {
        ConcatPrefixStep(headerWord, ds, i);
        result := result + ds[i].Bytes();
      }
      assert ds[..|ds|] == ds;
    }
  }

  /**
   * A frame whose header announces its datagrams renders to 2 + length
   * bytes, and its first two bytes read back as type 1 with that length.
   */
  lemma FrameLayout(header: Header.Header, ds: seq<Datagram.Datagram>)
    requires header.Wellformed() && header.ExtractLength() as int == TotalLength(ds)
    ensures |FrameBytes(header, ds)| == 2 + header.ExtractLength() as int
    ensures FromLE16(FrameBytes(header, ds)[..2]) >> 12 == Header.EcatCommandType
    ensures FromLE16(FrameBytes(header, ds)[..2]) & 0x7FF == header.ExtractLength()
  {
    assert FrameBytes(header, ds)[..2] == LE16(header.Uint16());
  }

  /** The datagram of the frame test: APRD, index 0x29, address 0xFFFF0008, eight data bytes. */
  function FrameTestDatagram(): (d: Datagram.Datagram)
    ensures d.Size() == 20
  {
    Datagram.Datagram(Command.Type.APRD.Code(), 0x29, 0xFFFF0008, Lrcm.NewLrcm(false, false, 8), 0,
                      [0x00, 0x18, 0x30, 0x00, 0x26, 0x00, 0x01, 0x00], 0)
  }

  /** It renders to the 20 bytes the frame test expects after the header word. */
  lemma FrameTestDatagramVector()
    ensures Concat([FrameTestDatagram()])
            == [0x01, 0x29, 0xFF, 0xFF, 0x08, 0x00, 0x08, 0x00, 0x00, 0x00,
                0x00, 0x18, 0x30, 0x00, 0x26, 0x00, 0x01, 0x00, 0x00, 0x00]
  {
    assert Concat([FrameTestDatagram()]) == FrameTestDatagram().Bytes();
  }

  /** A constructor-built header announcing those 20 bytes goes out as 0x14, 0x10. */
  lemma FrameTestHeaderVector(h: Header.Header)
    requires h.Wellformed() && h.ExtractLength() as int == 20
    ensures LE16(h.Uint16()) == [0x14, 0x10]
  {
    Bv16OfInt(20);
    assert h.length == 20;
    assert h.Uint16() == 0x1014;
  }

  /** The frame of the test: the header word 0x14, 0x10 and then the datagram's 20 bytes. */
  lemma FrameTestImage(h: Header.Header)
    requires h.Wellformed() && h.ExtractLength() as int == 20
    ensures FrameBytes(h, [FrameTestDatagram()])
            == [0x14, 0x10,
                0x01, 0x29, 0xFF, 0xFF, 0x08, 0x00, 0x08, 0x00, 0x00, 0x00,
                0x00, 0x18, 0x30, 0x00, 0x26, 0x00, 0x01, 0x00, 0x00, 0x00]
  {
    FrameTestHeaderVector(h);
    FrameTestDatagramVector();
  }

  /**
   * The frame test: one APRD datagram with an 8-byte payload appended to a
   * new frame renders as 0x14, 0x10 followed by the datagram's 20 bytes.
   */
  method FrameVector() returns (result: seq<byte>)
    ensures result == [0x14, 0x10,
                       0x01, 0x29, 0xFF, 0xFF, 0x08, 0x00, 0x08, 0x00, 0x00, 0x00,
                       0x00, 0x18, 0x30, 0x00, 0x26, 0x00, 0x01, 0x00, 0x00, 0x00]
  {
    var d := FrameTestDatagram();
    var frame := new EtherCAT();
    var err := frame.AppendDatagram(d);
    assert frame.datagrams == [d];
    FrameTestImage(frame.header);
    result := frame.Bytes();
  }
}

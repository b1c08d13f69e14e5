# EtherCAT frame encoder (goecat `pkg/ethercat`), modelled in Dafny

This project models the master side of goecat's EtherCAT encoder: the code that builds the bytes of an EtherCAT frame. A frame is
a 16-bit frame header (type, reserved bit, 11-bit length) followed by
datagrams. Each datagram has:

- a 10-byte header: command, index, address, LRCM word and IRQ;
- a data field;
- a 2-byte working counter.

The payloads a datagram carries are the SyncManager and FMMU configuration
records, or plain byte slices. Go's fixed-width integers are modelled as
bit-vectors (`uint8` as `bv8`, `uint16` as `bv16`, `uint32` as `bv32`), so
shifts and conversions drop high bits exactly as Go does. Byte slices are
`seq<bv8>`.

Modules, one per Go file:

| module | Go file | what it holds |
|---|---|---|
| `Wire` | (`encoding/binary`) | little- and big-endian 16/32-bit words and their readers |
| `Command` | `pkg/ethercat/command/types.go` | the 15 command codes as a datatype with `Code()` |
| `Header` | `pkg/ethercat/header/header.go` | the frame header, its constructors and its packed word |
| `Lrcm` | `pkg/ethercat/datagram/lrcm.go` | the LRCM word: the encoder as written, the corrected encoder, the decoder |
| `Datagram` | `pkg/ethercat/datagram/datagram.go` | the datagram record and its wire image |
| `EtherCAT` | `pkg/ethercat/ethercat.go` | the frame as a class with a length invariant, and the frame image |
| `SyncManager` | `pkg/ethercat/payload/syncmanager/syncmanager.go` | the control/status and enable registers and the 8-byte record |
| `Fmmu` | `pkg/ethercat/payload/fmmu/fmmu.go` | the 13-byte FMMU record |
| `Payload` | `pkg/ethercat/payload/payload.go` | `BasicPayload` and the byte-renderable payloads |

`EtherCAT.EtherCAT` is a class because `AppendDatagram` updates the frame
in place (a pointer receiver). Its ghost predicate `Valid()` says:

- the header is one a constructor built (type 1, reserved 0, length below 2048);
- its length is the sum of the datagrams' wire-image lengths.

The constructor establishes `Valid()` and `AppendDatagram` preserves it.
`Bytes()` keeps the source's loop and is proved equal to the recursive
definition `FrameBytes`. The lemmas about `FrameBytes` are `FrameLayout`
and `ConcatAt`.

Where the code and its documentation disagree, the model follows the code:

- The FMMU record renders 13 bytes, not 16.
- `NewLrcm`'s doc comment (lrcm.go:17-26) promises an error for out-of-range
  values. The function never returns one and never checks the length.
- The bit positions in the comments of syncmanager.go:42-50 and 120-125
  disagree with the masks the code uses. The masks are modelled.
- `Datagram.Data` is declared `[]byte`, but the tests pass payload values.
  Data is the byte sequence a payload renders, so the tests' vectors are
  stated over `Payload.BasicPayload(...).Bytes()`.
- The SyncManager tests spell two field names differently from the struct
  (`InVisibleBufferState`, `VisibleBufferBufferState`). They are read as the
  struct's fields.

## Model

| member | source | states |
|---|---|---|
| Wire.LE16 | pkg/ethercat/datagram/datagram.go:43-45 | `PutUint16` little-endian: two bytes, and reading them back gives the word |
| Wire.BE16 | pkg/ethercat/datagram/datagram.go:47-49 | `PutUint16` big-endian: two bytes in the reverse order of the little-endian pair, read back to the word |
| Wire.LE32 | pkg/ethercat/payload/fmmu/fmmu.go:20-22 | `PutUint32` little-endian: four bytes that read back to the word |
| Command.Type.Code | pkg/ethercat/command/types.go:8-24 | every command code is below 15; NOP is exactly 0, APRD exactly 1, APWR exactly 2, FRMW exactly 14 |
| Command.FromCode | pkg/ethercat/command/types.go:6-24 | a byte names a command exactly when it is below 15, and then the command's code is that byte |
| Command.CodesAreTheTableIndices | pkg/ethercat/command/types.go:9-23 | there are exactly 15 commands, the i-th in code order has code i, and every command is listed |
| Command.FromCodeOfCode | pkg/ethercat/command/types.go:9-23 | decoding a command's code gives the command back, so the codes are pairwise distinct |
| Header.Header.ExtractLength | pkg/ethercat/header/header.go:50-52 | the stored length, below 2048 for a constructor-built header; `Header.NewEcatHeader` states it is the constructor's argument and `Header.Header.Uint16` that it is the word's low 11 bits |
| Header.Header.Uint16 | pkg/ethercat/header/header.go:58-64 | the low 11 bits are the low 11 bits of the length; for a constructor-built header the word is 0x1000 OR length, the type nibble is 1, bit 11 is clear and the low 11 bits are ExtractLength() |
| Header.DefaultEcatHeader | pkg/ethercat/header/header.go:25-27 | type 1, reserved 0, length 0, word 0x1000 |
| Header.NewEcatHeader | pkg/ethercat/header/header.go:38-44 | fails exactly when the length is 2048 or more; on success the header is type 1, reserved 0, ExtractLength() is the argument, and the word's low 11 bits hold it |
| Header.HeaderLengthVector | pkg/ethercat/header/header_test.go:9-25 | NewEcatHeader(0x14) succeeds, its length is 0x14 and its word is 0x1014 |
| Lrcm.Lrcm.Uint16AsWritten | pkg/ethercat/datagram/lrcm.go:51-65 | the encoder as written: with fields that fit, bit 15 is set exactly when M and not C, and bit 14 exactly when C |
| Lrcm.Lrcm.Uint16 | pkg/ethercat/datagram/lrcm.go:51-65 | the corrected encoder: with fields that fit, bit 15 is M, bit 14 is C, bits 13..11 are R and bits 10..0 are Len |
| Lrcm.NewLrcm | pkg/ethercat/datagram/lrcm.go:27-29 | M, C and Len are stored as given and R is 0; no range check |
| Lrcm.NewLrcmFromUint16 | pkg/ethercat/datagram/lrcm.go:38-45 | M is bit 15, C is bit 14, R and Len fit their slots (R below 8, Len below 2048) and together are the low 14 bits |
| Lrcm.EncodeDecode | pkg/ethercat/datagram/lrcm.go:38-65 | the corrected encoder gives back every word the decoder reads |
| Lrcm.DecodeEncode | pkg/ethercat/datagram/lrcm.go:38-65 | decoding inverts the corrected encoder for every LRCM whose fields fit |
| Lrcm.EncodeDecodeAsWritten | pkg/ethercat/datagram/lrcm.go:38-65 | the as-written encoder gives back every decoded word, except that bit 15 is cleared when bits 15 and 14 are both set |
| Lrcm.AsWrittenCirculating | pkg/ethercat/datagram/lrcm.go:57-64 | with C set, the as-written word is bit 14 over R and Len: M leaves no trace |
| Lrcm.AsWrittenAgreesWithoutCirculating | pkg/ethercat/datagram/lrcm.go:51-65 | with C clear, the two encoders give the same word |
| Lrcm.NewLrcmRoundTrip | pkg/ethercat/datagram/lrcm.go:27-65 | with the source's encoder, a freshly built LRCM survives encoding and decoding exactly when its length is below 2048 and M and C are not both set |
| Lrcm.NewLrcmRoundTripCorrected | pkg/ethercat/datagram/lrcm.go:27-65 | with the corrected encoder, a freshly built LRCM survives encoding and decoding exactly when its length is below 2048 |
| Lrcm.AsWrittenLosesMore | pkg/ethercat/datagram/lrcm.go:57-60 | M and C both set: the as-written word is 0x4000 and decodes with M clear; the corrected word is 0xC000 |
| Lrcm.LengthBleedsIntoReserved | pkg/ethercat/datagram/lrcm.go:62-64 | Len is not masked: with the source's encoder, length 0x800 encodes to 0x800, which decodes as R = 1, Len = 0 |
| Lrcm.LrcmVector | pkg/ethercat/datagram/datagram_test.go:18-24 | the LRCM decoded from 170 has no flags and length 170, and the source's encoder renders it as 170, 0 |
| Datagram.Datagram.AddressHigh | pkg/ethercat/datagram/datagram.go:36-41 | the upper and lower address halves together make the 32-bit address again |
| Datagram.Datagram.Bytes | pkg/ethercat/datagram/datagram.go:29-58 | the image is 10 header bytes, the data and 2 trailer bytes long; rendering is total; the LRCM word is written by the encoder as the source has it |
| Datagram.BytesFields | pkg/ethercat/datagram/datagram.go:32-55 | byte 0 is Command, byte 1 Index, bytes 2..5 the address (upper half first, each half little-endian), bytes 6..7 the LRCM word of the as-written encoder, bytes 8..9 IRQ big-endian, then Data verbatim, then WKC little-endian |
| Datagram.LrcmSlotWithoutCirculating | pkg/ethercat/datagram/datagram.go:43-45 | when C is clear and the fields fit, the LRCM slot holds the corrected word as well and decodes back to the datagram's LRCM |
| Datagram.NopVector | pkg/ethercat/datagram/datagram_test.go:12-31 | the NOP datagram renders to the 15 expected bytes although its LRCM length (170) is not its data length (3) |
| Datagram.ApwrVector | pkg/ethercat/datagram/datagram_test.go:33-52 | the APWR datagram renders to the 20 expected bytes |
| EtherCAT.FrameBytes | pkg/ethercat/ethercat.go:52-63 | the frame image is 2 bytes longer than the datagrams together and its first two bytes read back as the header word; `EtherCAT.EtherCAT.Bytes` is proved equal to it and `EtherCAT.FrameLayout` and `EtherCAT.ConcatAt` state its layout |
| EtherCAT.Concat | pkg/ethercat/ethercat.go:59-61 | the datagrams' images one after another; the length is the sum of the datagram sizes |
| EtherCAT.ConcatSnoc | pkg/ethercat/ethercat.go:44 | appending a datagram appends its image and adds its size to the total |
| EtherCAT.ConcatAt | pkg/ethercat/ethercat.go:59-61 | datagram i's image sits in the frame body at the sum of the earlier sizes, in insertion order |
| EtherCAT.AppendHeaderAsWritten | pkg/ethercat/ethercat.go:36-41 | the header update as written: it fails exactly when (old length + datagram size) mod 65536 is 2048 or more, and otherwise stores that truncated sum |
| EtherCAT.AsWrittenAcceptsWrappedLength | pkg/ethercat/ethercat.go:36-38 | a 65536-byte datagram appended to an empty frame passes the as-written check and leaves the length at 0 |
| EtherCAT.AppendHeader | pkg/ethercat/ethercat.go:36-41 | the corrected update: it fails with OutOfRange exactly when the true sum is 2048 or more, and otherwise gives a constructor-built header holding the true sum |
| EtherCAT.AppendHeaderAgreesBelowWrap | pkg/ethercat/ethercat.go:36-41 | the as-written and corrected updates agree whenever the true sum is below 65536 |
| EtherCAT.EtherCAT.constructor | pkg/ethercat/ethercat.go:20-25 | a new frame has the default header and no datagrams, and satisfies the invariant |
| EtherCAT.EtherCAT.AppendDatagram | pkg/ethercat/ethercat.go:35-46 | keeps the invariant; fails exactly when the frame would exceed 2047 datagram bytes, and then changes nothing; otherwise the datagram is appended at the end and the length grows by its size |
| EtherCAT.EtherCAT.Bytes | pkg/ethercat/ethercat.go:52-63 | the loop yields the header word little-endian followed by every datagram's image in insertion order |
| EtherCAT.FrameLayout | pkg/ethercat/ethercat.go:52-63 | a frame satisfying the invariant renders 2 + length bytes, and its first two bytes read back as type 1 with that length |
| EtherCAT.FrameVector | pkg/ethercat/ethercat_test.go:13-45 | one APRD datagram appended to a new frame renders as 0x14, 0x10 and then the datagram's 20 bytes |
| SyncManager.CtrlStatus.ToUint16 | pkg/ethercat/payload/syncmanager/syncmanager.go:87-116 | no bit outside the mask 0x3B7F is set; each flag is set exactly when its bit is; bits 13..12 hold the low two bits of InVisibleBuffer, bit 11 the low bit of VisibleBufferBufferStat, bits 3..2 the low two bits of Access and bits 1..0 those of OpMode |
| SyncManager.NewCtrlStatusFromUint16 | pkg/ethercat/payload/syncmanager/syncmanager.go:58-80 | InVisibleBuffer is bits 13..12, VisibleBufferBufferStat bit 11, Access bits 3..2 and OpMode bits 1..0, so each fits its width; each flag is its bit |
| SyncManager.CtrlStatusDecodeEncode | pkg/ethercat/payload/syncmanager/syncmanager.go:58-116 | decoding a packed register gives back every record whose fields fit |
| SyncManager.CtrlStatusEncodeDecode | pkg/ethercat/payload/syncmanager/syncmanager.go:58-116 | packing a decoded word gives the word with the bits outside 0x3B7F cleared |
| SyncManager.Enable.ToUint16 | pkg/ethercat/payload/syncmanager/syncmanager.go:156-184 | no bit outside the mask 0x03C3 is set, and each flag is set exactly when its bit is |
| SyncManager.NewEnableFromUint16 | pkg/ethercat/payload/syncmanager/syncmanager.go:133-149 | each flag is true exactly when its bit is set |
| SyncManager.EnableDecodeEncode | pkg/ethercat/payload/syncmanager/syncmanager.go:133-184 | every flag combination survives packing and unpacking |
| SyncManager.EnableEncodeDecode | pkg/ethercat/payload/syncmanager/syncmanager.go:133-184 | packing a decoded word gives the word with the bits outside 0x03C3 cleared |
| SyncManager.SyncManager.Bytes | pkg/ethercat/payload/syncmanager/syncmanager.go:18-38 | 8 bytes: Start, Length, the control/status word and the enable word, each read back little-endian from its slot |
| SyncManager.CtrlStatusVector | pkg/ethercat/payload/syncmanager/syncmanager_test.go:26-66 | 0x3A56 decodes to the tested fields and those fields pack back to 0x3A56 |
| SyncManager.EnableVector | pkg/ethercat/payload/syncmanager/syncmanager_test.go:68-102 | 0x0301 decodes to the tested flags and those flags pack back to 0x0301 |
| SyncManager.SyncManagerVector | pkg/ethercat/payload/syncmanager/syncmanager_test.go:10-24 | the tested record renders to 0, 16, 32, 0, 100, 0, 1, 0 |
| Fmmu.TypeBits | pkg/ethercat/payload/fmmu/fmmu.go:38-45 | the type byte is at most 3, bit 0 is set exactly when reading is allowed and bit 1 exactly when writing is |
| Fmmu.FMMU.Bytes | pkg/ethercat/payload/fmmu/fmmu.go:17-54 | 13 bytes: LogStart (4, LE), LogLength (2, LE), LogStartBit, LogEndBit, PhysStart (2, LE), PhysStartBit, the type byte and the activation byte (1 exactly when active, else 0) |
| Fmmu.FmmuVector | pkg/ethercat/payload/fmmu/fmmu_test.go:10-41 | the tested record renders to its 13 expected bytes |
| Payload.BasicPayload.Bytes | pkg/ethercat/payload/payload.go:18-20 | the data is handed over unchanged: same length, same bytes (so empty data renders empty) |
| Payload.MarshalerByte.Bytes | pkg/ethercat/payload/payload.go:5-8 | a basic payload renders its data, a SyncManager record 8 bytes and an FMMU record 13 bytes |

## Left out

- Network output is not part of this model: `tools/packet` wraps the frame in Ethernet/IPv4/UDP and hands it to pcap, and `tools/network` queries the OS for interfaces. Both are foreign calls and I/O; only the frame's `Bytes()` touches the core.
- The repository's example programs (easycat sync/led/idle, send-ecat-packet, send-multiple-ecat-packet) are not part of this model: they are scripts with global state, sleeps and live transmission that only call the constructors and `AppendDatagram`.
- Payload.MarshalerByte: the Go interface is open. The model is a closed datatype over the three implementations in the repository (`BasicPayload`, `SyncManager`, `FMMU`), so payload types defined elsewhere are not covered.
- SyncManager.NewCtrlStatusFromUint16 and SyncManager.NewEnableFromUint16 return the record itself where Go returns a pointer to a fresh one; there is no aliasing to model.
- Header.NewEcatHeader: Go returns the zero `Header{}` beside its error; the model's `Err(OutOfRange)` carries no header, and the error text is not modelled.
- EtherCAT.EtherCAT.AppendDatagram uses the corrected length check (see Findings), so it rejects a datagram whose true sum with the old length reaches 65536. The code as written would accept it when the sum truncated to 16 bits is below 2048. `EtherCAT.AppendHeaderAsWritten` models that behaviour.
- Frames, datagrams and payloads are values in the model, so sharing between copies is not modelled. In Go, a copied `EtherCAT` value shares the backing array of `datagrams`, and appends through two copies can overwrite each other (ethercat.go:44). `BasicPayload.Bytes` also returns the caller's own slice (payload.go:19). No caller in the repository copies a frame.
- Calling `Bytes()` on a value receiver changes nothing, and two calls give the same result. In the model this holds by construction, because the renderers are functions and `EtherCAT.EtherCAT.Bytes` has no `modifies` clause.

## Findings

| source | as written | input that shows it | evidently intended | confidence | as-written member | corrected member |
|---|---|---|---|---|---|---|
| pkg/ethercat/datagram/lrcm.go:57-60 | the C branch assigns `mBits = 0x4000`, so `cBits` stays 0 and M is overwritten whenever C is set | `Lrcm{M: true, C: true}` encodes to 0x4000, which decodes with M = false | `cBits = 0x4000`, giving 0xC000 for that input | high, not executed | Lrcm.AsWrittenLosesMore | Lrcm.Lrcm.Uint16 |
| pkg/ethercat/ethercat.go:36-41 | the new length is truncated with `uint16(...)` before the range check | a datagram with 65524 data bytes (image of 65536 bytes) appended to a new frame is accepted and leaves the header length at 0 | reject any datagram whose true sum with the old length reaches 2048 | medium, not executed | EtherCAT.AsWrittenAcceptsWrappedLength | EtherCAT.AppendHeader |

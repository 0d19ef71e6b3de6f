/** ATA commands tunnelled through SCSI ATA PASS-THROUGH (16) over the SG_IO
    interface: the 16-byte command block, the request header, how the
    reply is classified, and the IDENTIFY DEVICE strings. The disk is an
    oracle that answers each request from the requests issued before it. */
module Ata {
  import opened Base

  const SG_DXFER_NONE: int := -1
  const SG_DXFER_TO_DEV: int := -2
  const SG_DXFER_FROM_DEV: int := -3
  const ATA_PT16_OPCODE: bv8 := 0x85
  const ATA_PT16_CDB_LEN: bv8 := 16
  const SENSE_BUF_LEN: nat := 32
  const TIMEOUT_MS: uint32 := 10000

  const PROTO_NON_DATA: bv8 := 3
  const PROTO_PIO_DATA_IN: bv8 := 4
  const PROTO_PIO_DATA_OUT: bv8 := 5
  const PROTO_DMA: bv8 := 6

  /** Byte 2 of the command block: CK_COND set, transfer direction, length in blocks from the count field. */
  const CDB2_READ: bv8 := 0x2E
  const CDB2_WRITE: bv8 := 0x26
  const CDB2_NON_DATA: bv8 := 0x20

  /** The taskfile registers of a command, in the argument order of `ata_read` and its siblings. */
  datatype Regs = Regs(command: bv8, features: bv8, count: bv8, lbaLow: bv8, lbaMid: bv8, lbaHigh: bv8, device: bv8)

  /** The "previous" (high-order) registers of a 48-bit command. */
  datatype PrevRegs = PrevRegs(features: bv8, count: bv8, lbaLow: bv8, lbaMid: bv8, lbaHigh: bv8)

  const NO_PREV := PrevRegs(0, 0, 0, 0, 0)

  /* ------------------------------------------------------------ command block */

  /** The 28-bit ATA PASS-THROUGH (16) command block. */
  function BuildCdb(protocol: bv8, cdb2: bv8, r: Regs): (cdb: seq<bv8>)
    ensures |cdb| == 16
  {
    [ATA_PT16_OPCODE, protocol << 1, cdb2, 0, r.features, 0, r.count, 0,
     r.lbaLow, 0, r.lbaMid, 0, r.lbaHigh, r.device, r.command, 0]
  }

  /** The 48-bit form: the EXTEND bit is set and the previous registers fill
      the odd bytes 3 to 11. */
  function BuildCdbExt(protocol: bv8, cdb2: bv8, r: Regs, p: PrevRegs): (cdb: seq<bv8>)
    ensures |cdb| == 16
  {
    [ATA_PT16_OPCODE, (protocol << 1) | 1, cdb2, p.features, r.features, p.count, r.count, p.lbaLow,
     r.lbaLow, p.lbaMid, r.lbaMid, p.lbaHigh, r.lbaHigh, r.device, r.command, 0]
  }

  /** What a command block says, read back field by field. */
  datatype Decoded = Decoded(opcode: bv8, protocol: bv8, extend: bool, cdb2: bv8, regs: Regs, prev: PrevRegs)

  function DecodeCdb(cdb: seq<bv8>): Decoded
    requires |cdb| == 16
  {
    Decoded(cdb[0], cdb[1] >> 1, cdb[1] & 1 == 1, cdb[2],
            Regs(cdb[14], cdb[4], cdb[6], cdb[8], cdb[10], cdb[12], cdb[13]),
            PrevRegs(cdb[3], cdb[5], cdb[7], cdb[9], cdb[11]))
  }

  /** The 28-bit block carries the protocol (a 7-bit field), byte 2 and every
      register the caller passed, clears EXTEND and zeroes the previous registers. */
  lemma BuildCdbDecodes(protocol: bv8, cdb2: bv8, r: Regs)
    requires protocol < 0x80
    ensures DecodeCdb(BuildCdb(protocol, cdb2, r)) == Decoded(ATA_PT16_OPCODE, protocol, false, cdb2, r, NO_PREV)
    ensures BuildCdb(protocol, cdb2, r)[15] == 0
  {
  }

  /** The 48-bit block carries the same and the previous registers, with EXTEND set. */
  lemma BuildCdbExtDecodes(protocol: bv8, cdb2: bv8, r: Regs, p: PrevRegs)
    requires protocol < 0x80
    ensures DecodeCdb(BuildCdbExt(protocol, cdb2, r, p)) == Decoded(ATA_PT16_OPCODE, protocol, true, cdb2, r, p)
    ensures BuildCdbExt(protocol, cdb2, r, p)[15] == 0
  {
  }

  /** Read back, the two forms say the same except that the 48-bit one sets
      EXTEND and carries the previous registers. */
  lemma ExtDiffersOnlyThere(protocol: bv8, cdb2: bv8, r: Regs, p: PrevRegs)
    requires protocol < 0x80
    ensures DecodeCdb(BuildCdbExt(protocol, cdb2, r, p)) == DecodeCdb(BuildCdb(protocol, cdb2, r)).(extend := true, prev := p)
  {
    BuildCdbDecodes(protocol, cdb2, r);
    BuildCdbExtDecodes(protocol, cdb2, r, p);
  }

  /* ------------------------------------------------------------- requests */

  /** The scalar fields of the SG_IO header the request sets; pointers are not modelled. */
  datatype SgIoHdr = SgIoHdr(interfaceId: int, dxferDirection: int, cmdLen: bv8, mxSbLen: bv8,
                             dxferLen: uint32, timeout: uint32)

  /** One SG_IO request: header, command block and, for a write, the bytes sent. */
  datatype AtaRequest = AtaRequest(hdr: SgIoHdr, cdb: seq<bv8>, payload: seq<bv8>)

  /** What the SG_IO ioctl hands back: its return value and errno, the status
      words of the header, the sense bytes written and the data transferred. */
  datatype SgIoReply = SgIoReply(ret: int, errno: int, hostStatus: bv16, driverStatus: bv16,
                                 sbLenWr: bv8, sense: seq<bv8>, data: seq<bv8>)

  function Header(direction: int, len: nat): SgIoHdr
  {
    SgIoHdr('S' as int, direction, ATA_PT16_CDB_LEN, SENSE_BUF_LEN as bv8, U32(len), TIMEOUT_MS)
  }

  function ReadRequest(r: Regs, len: nat): AtaRequest
  {
    AtaRequest(Header(SG_DXFER_FROM_DEV, len), BuildCdb(PROTO_PIO_DATA_IN, CDB2_READ, r), [])
  }

  function DmaReadRequest(r: Regs, len: nat): AtaRequest
  {
    AtaRequest(Header(SG_DXFER_FROM_DEV, len), BuildCdb(PROTO_DMA, CDB2_READ, r), [])
  }

  function WriteRequest(r: Regs, payload: seq<bv8>): AtaRequest
  {
    AtaRequest(Header(SG_DXFER_TO_DEV, |payload|), BuildCdb(PROTO_PIO_DATA_OUT, CDB2_WRITE, r), payload)
  }

  function NoDataRequest(r: Regs): AtaRequest
  {
    AtaRequest(Header(SG_DXFER_NONE, 0), BuildCdb(PROTO_NON_DATA, CDB2_NON_DATA, r), [])
  }

  function ReadExtRequest(r: Regs, p: PrevRegs, len: nat): AtaRequest
  {
    AtaRequest(Header(SG_DXFER_FROM_DEV, len), BuildCdbExt(PROTO_PIO_DATA_IN, CDB2_READ, r, p), [])
  }

  function NoDataExtRequest(r: Regs, p: PrevRegs): AtaRequest
  {
    AtaRequest(Header(SG_DXFER_NONE, 0), BuildCdbExt(PROTO_NON_DATA, CDB2_NON_DATA, r, p), [])
  }

  /** The (protocol, byte 2, direction, transfer length) a request carries. */
  function Signature(q: AtaRequest): (bv8, bv8, int, uint32)
    requires |q.cdb| == 16
  {
    (DecodeCdb(q.cdb).protocol, q.cdb[2], q.hdr.dxferDirection, q.hdr.dxferLen)
  }

  /** Each operation has a fixed protocol, byte 2, direction and length, and
      passes the caller's registers through unchanged. */
  lemma OperationSignatures(r: Regs, p: PrevRegs, len: nat, payload: seq<bv8>)
    ensures Signature(ReadRequest(r, len)) == (PROTO_PIO_DATA_IN, CDB2_READ, SG_DXFER_FROM_DEV, U32(len))
    ensures Signature(DmaReadRequest(r, len)) == (PROTO_DMA, CDB2_READ, SG_DXFER_FROM_DEV, U32(len))
    ensures Signature(WriteRequest(r, payload)) == (PROTO_PIO_DATA_OUT, CDB2_WRITE, SG_DXFER_TO_DEV, U32(|payload|))
    ensures Signature(NoDataRequest(r)) == (PROTO_NON_DATA, CDB2_NON_DATA, SG_DXFER_NONE, 0)
    ensures Signature(ReadExtRequest(r, p, len)) == (PROTO_PIO_DATA_IN, CDB2_READ, SG_DXFER_FROM_DEV, U32(len))
    ensures Signature(NoDataExtRequest(r, p)) == (PROTO_NON_DATA, CDB2_NON_DATA, SG_DXFER_NONE, 0)
    ensures DecodeCdb(ReadRequest(r, len).cdb).regs == r && DecodeCdb(WriteRequest(r, payload).cdb).regs == r
    ensures DecodeCdb(ReadExtRequest(r, p, len).cdb).prev == p && DecodeCdb(NoDataExtRequest(r, p).cdb).prev == p
  {
    BuildCdbDecodes(PROTO_PIO_DATA_IN, CDB2_READ, r);
    BuildCdbDecodes(PROTO_DMA, CDB2_READ, r);
    BuildCdbDecodes(PROTO_PIO_DATA_OUT, CDB2_WRITE, r);
    BuildCdbDecodes(PROTO_NON_DATA, CDB2_NON_DATA, r);
    BuildCdbExtDecodes(PROTO_PIO_DATA_IN, CDB2_READ, r, p);
    BuildCdbExtDecodes(PROTO_NON_DATA, CDB2_NON_DATA, r, p);
  }

  /** IDENTIFY DEVICE: PIO data-in, command 0xEC, count 1, device 0xE0, 512 bytes. */
  const IDENTIFY_REGS := Regs(0xEC, 0, 1, 0, 0, 0, 0xE0)
  const IDENTIFY_LEN: nat := 512

  lemma IdentifyBlock()
    ensures ReadRequest(IDENTIFY_REGS, IDENTIFY_LEN).cdb ==
      [0x85, 0x08, 0x2E, 0, 0, 0, 1, 0, 0, 0, 0, 0, 0, 0xE0, 0xEC, 0]
    ensures ReadRequest(IDENTIFY_REGS, IDENTIFY_LEN).hdr.dxferLen == 512
  {
  }

  /* ------------------------------------------------------- classification */

  /** The ATA Status Return sense descriptor (type 09h, length 0Ch) at byte 8
      of descriptor-format sense data (response code 72h), with the ERR bit
      of its status byte set. Shorter, fixed-format or missing sense data
      never reports an ATA error. */
  predicate AtaErrorReported(sbLenWr: bv8, sense: seq<bv8>)
    requires |sense| == SENSE_BUF_LEN
  {
    sbLenWr >= 22 && sense[0] == 0x72 && sense[8] == 0x09 && sense[9] == 0x0C && sense[21] & 0x01 != 0
  }

  /** The verdict on an SG_IO reply, in the order the checks are made: the
      ioctl failing, then a host or driver status other than DRIVER_SENSE
      (0x08, expected because CK_COND is set), then an ATA error in the sense data. */
  function Classify(rep: SgIoReply): (r: Result<()>)
    ensures r.Ok? <==>
      rep.ret >= 0 && rep.hostStatus == 0 && rep.driverStatus & !0x08 == 0 &&
      !AtaErrorReported(rep.sbLenWr, Fit(rep.sense, SENSE_BUF_LEN))
    ensures rep.ret < 0 ==> r == Err(IoctlFailed(rep.errno))
    ensures rep.ret >= 0 && (rep.hostStatus != 0 || rep.driverStatus & !0x08 != 0) ==>
      r == Err(TransportError(rep.hostStatus, rep.driverStatus))
    ensures r.Err? && r.error.AtaRejected? ==>
      var sense := Fit(rep.sense, SENSE_BUF_LEN);
      r.error == AtaRejected(sense[21], sense[11]) && sense[21] & 0x01 != 0
  {
    var sense := Fit(rep.sense, SENSE_BUF_LEN);
    if rep.ret < 0 then Err(IoctlFailed(rep.errno))
    else if rep.hostStatus != 0 || rep.driverStatus & !0x08 != 0 then Err(TransportError(rep.hostStatus, rep.driverStatus))
    else if AtaErrorReported(rep.sbLenWr, sense) then Err(AtaRejected(sense[21], sense[11]))
    else Ok(())
  }

  /** DRIVER_SENSE on its own is not an error, and neither is sense data too
      short to hold the status descriptor or in fixed format. */
  lemma DriverSenseAlone(rep: SgIoReply)
    requires rep.ret >= 0 && rep.hostStatus == 0 && rep.driverStatus == 0x08
    requires rep.sbLenWr < 22 || Fit(rep.sense, SENSE_BUF_LEN)[0] != 0x72
    ensures Classify(rep) == Ok(())
  {
  }

  /** Any driver status bit other than DRIVER_SENSE is a transport error. */
  lemma OtherDriverBits(rep: SgIoReply)
    requires rep.ret >= 0 && rep.driverStatus & !0x08 != 0
    ensures Classify(rep) == Err(TransportError(rep.hostStatus, rep.driverStatus))
  {
  }

  /** A request's outcome: for a data-in request, the buffer as the device filled it. */
  function Outcome(q: AtaRequest, rep: SgIoReply, len: nat): (r: Result<seq<bv8>>)
    ensures r.Ok? ==> |r.value| == (if q.hdr.dxferDirection == SG_DXFER_FROM_DEV then len else 0)
  {
    match Classify(rep)
    case Err(e) => Err(e)
    case Ok(_) => Ok(if q.hdr.dxferDirection == SG_DXFER_FROM_DEV then Fit(rep.data, len) else [])
  }

  /** The checks `sg_io` makes on a reply, in order, and the buffer it hands back. */
  method Verdict(q: AtaRequest, rep: SgIoReply, len: nat) returns (r: Result<seq<bv8>>)
    ensures r == Outcome(q, rep, len)
  {
    if rep.ret < 0 {
      return Err(IoctlFailed(rep.errno));
    }
    if rep.hostStatus != 0 || rep.driverStatus & !0x08 != 0 {
      return Err(TransportError(rep.hostStatus, rep.driverStatus));
    }
    var sense := Fit(rep.sense, SENSE_BUF_LEN);
    if rep.sbLenWr >= 22 && sense[0] == 0x72 && sense[8] == 0x09 && sense[9] == 0x0C {
      var status := sense[21];
      var error := sense[11];
      if status & 0x01 != 0 {
        return Err(AtaRejected(status, error));
      }
    }
    r := Ok(if q.hdr.dxferDirection == SG_DXFER_FROM_DEV then Fit(rep.data, len) else []);
  }

  /* --------------------------------------------------------------- device */

  /** An open SG device. `respond` stands for the drive: its answer may depend
      on every request issued before (a vendor write selects what a later
      read returns). `requests` is the history of issued requests. */
  class AtaDevice {
    const respond: (seq<AtaRequest>, AtaRequest) -> SgIoReply
    var requests: seq<AtaRequest>

    constructor (respond: (seq<AtaRequest>, AtaRequest) -> SgIoReply)
      ensures this.respond == respond && requests == []
    {
      this.respond := respond;
      requests := [];
    }

    /** The outcome of issuing `q` (with a buffer of `len` bytes) after history `h`. */
    function Answer(h: seq<AtaRequest>, q: AtaRequest, len: nat): Result<seq<bv8>>
    {
      Outcome(q, respond(h, q), len)
    }

    /** `sg_io`: fill a zeroed header, issue it, classify the reply. */
    method SgIo(cdb: seq<bv8>, direction: int, len: nat, payload: seq<bv8>) returns (r: Result<seq<bv8>>)
      modifies this
      ensures requests == old(requests) + [AtaRequest(Header(direction, len), cdb, payload)]
      ensures r == Answer(old(requests), AtaRequest(Header(direction, len), cdb, payload), len)
    {
      var hdr := SgIoHdr(0, 0, 0, 0, 0, 0);
      hdr := hdr.(interfaceId := 'S' as int);
      hdr := hdr.(dxferDirection := direction);
      hdr := hdr.(cmdLen := ATA_PT16_CDB_LEN);
      hdr := hdr.(mxSbLen := SENSE_BUF_LEN as bv8);
      hdr := hdr.(dxferLen := U32(len));
      hdr := hdr.(timeout := TIMEOUT_MS);
      var q := AtaRequest(hdr, cdb, payload);
      assert q == AtaRequest(Header(direction, len), cdb, payload);
      var rep := respond(requests, q);
      requests := requests + [q];
      r := Verdict(q, rep, len);
    }

    method AtaRead(r: Regs, len: nat) returns (res: Result<seq<bv8>>)
      modifies this
      ensures requests == old(requests) + [ReadRequest(r, len)]
      ensures res == Answer(old(requests), ReadRequest(r, len), len)
    {
      var cdb := BuildCdb(PROTO_PIO_DATA_IN, CDB2_READ, r);
      res := SgIo(cdb, SG_DXFER_FROM_DEV, len, []);
    }

    method AtaDmaRead(r: Regs, len: nat) returns (res: Result<seq<bv8>>)
      modifies this
      ensures requests == old(requests) + [DmaReadRequest(r, len)]
      ensures res == Answer(old(requests), DmaReadRequest(r, len), len)
    {
      var cdb := BuildCdb(PROTO_DMA, CDB2_READ, r);
      res := SgIo(cdb, SG_DXFER_FROM_DEV, len, []);
    }

    method AtaWrite(r: Regs, payload: seq<bv8>) returns (res: Result<seq<bv8>>)
      modifies this
      ensures requests == old(requests) + [WriteRequest(r, payload)]
      ensures res == Answer(old(requests), WriteRequest(r, payload), |payload|)
    {
      var cdb := BuildCdb(PROTO_PIO_DATA_OUT, CDB2_WRITE, r);
      res := SgIo(cdb, SG_DXFER_TO_DEV, |payload|, payload);
    }

    method AtaNoData(r: Regs) returns (res: Result<seq<bv8>>)
      modifies this
      ensures requests == old(requests) + [NoDataRequest(r)]
      ensures res == Answer(old(requests), NoDataRequest(r), 0)
    {
      var cdb := BuildCdb(PROTO_NON_DATA, CDB2_NON_DATA, r);
      res := SgIo(cdb, SG_DXFER_NONE, 0, []);
    }

    method AtaReadExt(r: Regs, p: PrevRegs, len: nat) returns (res: Result<seq<bv8>>)
      modifies this
      ensures requests == old(requests) + [ReadExtRequest(r, p, len)]
      ensures res == Answer(old(requests), ReadExtRequest(r, p, len), len)
    {
      var cdb := BuildCdbExt(PROTO_PIO_DATA_IN, CDB2_READ, r, p);
      res := SgIo(cdb, SG_DXFER_FROM_DEV, len, []);
    }

    method AtaNoDataExt(r: Regs, p: PrevRegs) returns (res: Result<seq<bv8>>)
      modifies this
      ensures requests == old(requests) + [NoDataExtRequest(r, p)]
      ensures res == Answer(old(requests), NoDataExtRequest(r, p), 0)
    {
      var cdb := BuildCdbExt(PROTO_NON_DATA, CDB2_NON_DATA, r, p);
      res := SgIo(cdb, SG_DXFER_NONE, 0, []);
    }

    /** IDENTIFY DEVICE into a 512-byte buffer. */
    method AtaIdentify() returns (res: Result<seq<bv8>>)
      modifies this
      ensures requests == old(requests) + [ReadRequest(IDENTIFY_REGS, IDENTIFY_LEN)]
      ensures res == Answer(old(requests), ReadRequest(IDENTIFY_REGS, IDENTIFY_LEN), IDENTIFY_LEN)
      ensures res.Ok? ==> |res.value| == 512
    {
      res := AtaRead(IDENTIFY_REGS, IDENTIFY_LEN);
    }
  }

  /* ------------------------------------------------------- IDENTIFY strings */

  /** The other byte of the 16-bit word holding byte `i`. */
  function Mate(i: nat): nat
  {
    if i % 2 == 0 then i + 1 else i - 1
  }

  /** `n` rounded down to whole 16-bit words. */
  function Even(n: nat): nat { n - n % 2 }

  lemma MateBound(i: nat, n: nat)
    requires i < Even(n)
    ensures Mate(i) < n && Mate(i) < Even(n) && Mate(Mate(i)) == i
  {
  }

  /** Each 16-bit word of an ATA string holds its first character in the high
      byte: swap every pair, dropping an odd trailing byte. */
  function SwapPairs(raw: seq<bv8>): (out: seq<bv8>)
    ensures |out| == Even(|raw|)
    ensures forall i :: 0 <= i < |out| ==> Mate(i) < |raw| && out[i] == raw[Mate(i)]
  {
    seq(Even(|raw|), i requires 0 <= i < Even(|raw|) => MateBound(i, |raw|); raw[Mate(i)])
  }

  /** Swapping twice restores every complete pair. */
  lemma SwapPairsTwice(raw: seq<bv8>)
    ensures SwapPairs(SwapPairs(raw)) == raw[..Even(|raw|)]
  {
    var once := SwapPairs(raw);
    var twice := SwapPairs(once);
    assert Even(|once|) == |once|;
    forall i | 0 <= i < |twice| ensures twice[i] == raw[i] {
      MateBound(i, |raw|);
    }
  }

  /** The decoded text of an ATA string field. */
  function AtaString(raw: seq<bv8>): (s: string)
    ensures |s| <= |raw|
  {
    var swapped := SwapPairs(raw);
    assert |swapped| <= |raw|;
    AsciiTrim(swapped)
  }

  /** Swapping moves a pad space to the front, where trimming drops it; a
      space between characters stays: "A", " ", "B", " " stored as two words
      reads as "A B". */
  lemma InnerSpaceKept()
    ensures AtaString([0x41, 0x20, 0x42, 0x20]) == "A B"
  {
    var swapped := SwapPairs([0x41, 0x20, 0x42, 0x20]);
    assert swapped == [0x20, 0x41, 0x20, 0x42];
    var text := Text(Printable(swapped));
    assert text == " A B";
    TrimUnique(text, 1, 4);
    assert text[1..4] == "A B";
  }

  /** `ata_string_trim`: build the pair-swapped bytes in a loop, then clean and trim them. */
  method AtaStringTrim(raw: seq<bv8>) returns (s: string)
    ensures s == AtaString(raw)
    ensures |s| <= |raw|
    ensures forall k :: 0 <= k < |s| ==> ' ' <= s[k] <= '~'
    ensures s == [] || (s[0] != ' ' && s[|s| - 1] != ' ')
  {
    var out: seq<bv8> := [];
    ghost var swapped := SwapPairs(raw);
    assert Even(|raw|) == 2 * (|raw| / 2);
    var k := 0;
    while k < |raw| / 2
      invariant k <= |raw| / 2
      invariant out == swapped[..2 * k]
    {
      assert Mate(2 * k) == 2 * k + 1 && Mate(2 * k + 1) == 2 * k;
      assert swapped[..2 * k + 2] == swapped[..2 * k] + [swapped[2 * k], swapped[2 * k + 1]];
      out := out + [raw[2 * k + 1], raw[2 * k]];
      k := k + 1;
    }
    assert out == swapped;
    s := AsciiTrim(out);
  }

  /** The way a drive stores a string in a `width`-byte field: padded with
      spaces, each pair of characters stored high byte first. */
  function AtaField(text: seq<bv8>, width: nat): (raw: seq<bv8>)
    requires |text| <= width
  {
    SwapPairs(PadField(text, width))
  }

  /** A printable string without spaces at its ends stored in an even-width
      field decodes back to itself. */
  lemma AtaFieldRoundTrip(text: seq<bv8>, width: nat)
    requires |text| <= width && width % 2 == 0
    requires IsCleanText(text)
    ensures AtaString(AtaField(text, width)) == Text(text)
  {
    UnswapField(text, width);
    PadFieldRoundTrip(text, width);
  }

  lemma UnswapField(text: seq<bv8>, width: nat)
    requires |text| <= width && width % 2 == 0
    ensures SwapPairs(AtaField(text, width)) == PadField(text, width)
  {
    var padded := PadField(text, width);
    assert Even(|padded|) == |padded|;
    SwapPairsTwice(padded);
  }

  /** The strings of an IDENTIFY DEVICE response. */
  datatype AtaIdentifyInfo = AtaIdentifyInfo(model: string, serial: string, firmware: string)

  /** Serial number in words 10-19, firmware revision in words 23-26, model in words 27-46. */
  function ParseAtaIdentify(data: seq<bv8>): (info: AtaIdentifyInfo)
    requires |data| == 512
    ensures |info.serial| <= 20 && |info.firmware| <= 8 && |info.model| <= 40
  {
    var model, serial, firmware := data[54..94], data[20..40], data[46..54];
    assert |model| == 40 && |serial| == 20 && |firmware| == 8;
    AtaIdentifyInfo(AtaString(model), AtaString(serial), AtaString(firmware))
  }

  /** A response whose three fields hold well-formed strings yields exactly those strings. */
  lemma ParseAtaIdentifyReadsFields(data: seq<bv8>, serial: seq<bv8>, firmware: seq<bv8>, model: seq<bv8>)
    requires |data| == 512
    requires |serial| <= 20 && |firmware| <= 8 && |model| <= 40
    requires IsCleanText(serial) && IsCleanText(firmware) && IsCleanText(model)
    requires data[20..40] == AtaField(serial, 20)
    requires data[46..54] == AtaField(firmware, 8)
    requires data[54..94] == AtaField(model, 40)
    ensures ParseAtaIdentify(data) == AtaIdentifyInfo(Text(model), Text(serial), Text(firmware))
  {
    AtaFieldRoundTrip(serial, 20);
    AtaFieldRoundTrip(firmware, 8);
    AtaFieldRoundTrip(model, 40);
  }
}

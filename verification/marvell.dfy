/** The Marvell 88NV1160/1140 extractor: a firmware-information read whose
    first six bytes must name the chip, a request write, and a read whose
    8-byte slots from offset 0 hold the flash ids of up to 64 banks. */
module Marvell {
  import opened Base
  import opened Banks
  import opened Nvme

  /** "DM1160" and "DM1140". */
  const DM1160_SIG: seq<bv8> := [0x44, 0x4D, 0x31, 0x31, 0x36, 0x30]
  const DM1140_SIG: seq<bv8> := [0x44, 0x4D, 0x31, 0x31, 0x34, 0x30]

  const FW_LEN: nat := 512
  const FID_LEN: nat := 1024
  const MAX_BANKS: nat := 64
  const NAME_MAX: nat := 64
  const DEFAULT_NAME := "Marvell 88NV1160"

  lemma DefaultNameIsName()
    ensures IsName(DEFAULT_NAME)
  {
  }

  /** The request page: 512 bytes, byte 0 set to 1. */
  const REQUEST: seq<bv8> := Zeros(512)[0 := 0x01]

  /** Vendor read 0xFE of the firmware information: cdw10 0x80, cdw15 0xA1, into 512 bytes. */
  const FW_READ := ReadSubmission(0xFE, 0, 0x80, 0, 0, 0, 0, 0xA1, FW_LEN)
  /** Vendor write 0xFD of the request page: cdw10 0x80, cdw14 0x6299, cdw15 0x50. */
  const REQUEST_WRITE := WriteSubmission(0xFD, 0, 0x80, 0, 0, 0, 0x6299, 0x50, REQUEST)
  /** Vendor read 0xFE of the flash ids: cdw10 0x100, cdw14 0x6299, cdw15 0x50, into 1024 bytes. */
  const FID_READ := ReadSubmission(0xFE, 0, 0x100, 0, 0, 0, 0x6299, 0x50, FID_LEN)

  /** The firmware information starts with one of the two chip signatures. */
  predicate Signed(fw: seq<bv8>)
    requires |fw| == FW_LEN
  {
    fw[..6] == DM1160_SIG || fw[..6] == DM1140_SIG
  }

  /** Where the firmware name ends: at a 0x00 or at a byte that is neither
      graphic, a space nor '-'. */
  predicate NameStop(b: bv8) { b == 0 || (!IsGraphic(b) && b != 0x20 && b != 0x2D) }

  /** Where `extract_fw_name` cuts the page: the first stop byte, or 64,
      whichever comes first. */
  function NameEnd(fw: seq<bv8>): (end: nat)
    ensures end <= NAME_MAX
  {
    match FirstIndex(fw, NameStop) case Some(i) => if i < NAME_MAX then i else NAME_MAX case None => NAME_MAX
  }

  /** `extract_fw_name`: the bytes before the cut, trimmed; the default
      name when nothing is left. */
  function FwName(fw: seq<bv8>): (name: string)
    requires |fw| >= NAME_MAX
    ensures IsName(name) && |name| <= NAME_MAX
  {
    DefaultNameIsName();
    TextOr(fw[..NameEnd(fw)], DEFAULT_NAME)
  }

  /** A signed firmware page always gives a name, and the name starts with
      the signature: the default is never used for it. */
  lemma FwNameKeepsSignature(fw: seq<bv8>)
    requires |fw| == FW_LEN && Signed(fw)
    ensures |FwName(fw)| >= 6 && forall j :: 0 <= j < 6 ==> FwName(fw)[j] == fw[j] as char
  {
    SignatureIsGraphic(fw);
    FwNameKeepsGraphic(fw, 6);
  }

  /** The six signature bytes are graphic and none of them stops the name. */
  lemma SignatureIsGraphic(fw: seq<bv8>)
    requires |fw| == FW_LEN && Signed(fw)
    ensures forall j :: 0 <= j < 6 ==> IsGraphic(fw[j]) && !NameStop(fw[j])
  {
  }

  /** A page that starts with `n` graphic bytes, `n` at most 64, gives a name
      that starts with them. */
  lemma FwNameKeepsGraphic(fw: seq<bv8>, n: nat)
    requires |fw| == FW_LEN && 0 < n <= NAME_MAX
    requires forall j :: 0 <= j < n ==> IsGraphic(fw[j]) && !NameStop(fw[j])
    ensures |FwName(fw)| >= n && forall j :: 0 <= j < n ==> FwName(fw)[j] == fw[j] as char
  {
    assert NameEnd(fw) >= n by {
      var i := FirstIndex(fw, NameStop);
      assert i.Some? ==> i.value >= n;
    }
    DefaultNameIsName();
    TextOrKeepsPrefix(fw, NameEnd(fw), n, DEFAULT_NAME);
  }

  /** A clean name of at most 64 bytes ended by a 0x00 is read back exactly. */
  lemma FwNameReads(text: seq<bv8>, rest: seq<bv8>)
    requires text != [] && |text| <= NAME_MAX && IsCleanText(text)
    requires |text| + 1 + |rest| == FW_LEN
    ensures FwName(text + [0] + rest) == Text(text)
  {
    var fw := text + [0] + rest;
    assert fw[|text|] == 0;
    assert FirstIndex(fw, NameStop) == Some(|text|) by {
      assert forall j :: 0 <= j < |text| ==> fw[j] == text[j] && !NameStop(fw[j]);
    }
    assert fw[..NameEnd(fw)] == text;
    DefaultNameIsName();
    TextOrClean(text, DEFAULT_NAME);
  }

  type Run = Session<Result<FlashIdResult>, Submission>

  function FwResponse(dev: NvmeDevice, h: seq<Submission>): (r: Result<seq<bv8>>)
    ensures r.Ok? ==> |r.value| == FW_LEN
  {
    match dev.Answer(h, FW_READ, Zeros(FW_LEN))
    case Err(e) => Err(e)
    case Ok(d) => Ok(d.buf)
  }

  function FidResponse(dev: NvmeDevice, h: seq<Submission>): (r: Result<seq<bv8>>)
    ensures r.Ok? ==> |r.value| == FID_LEN
  {
    match dev.Answer(h, FID_READ, Zeros(FID_LEN))
    case Err(e) => Err(e)
    case Ok(d) => Ok(d.buf)
  }

  /** The banks of the flash-id page: the non-empty slots among the first 64. */
  function FidBanks(buf: seq<bv8>): seq<FlashBank>
  {
    SkipScan(buf, 0, ID_LEN, MAX_BANKS, NON_EMPTY)
  }

  /** The two pages the exchange reads. */
  datatype Pages = Pages(fw: seq<bv8>, fid: seq<bv8>)

  /** The commands of `read_flash_id`: a failed firmware read, a page
      without a signature, a failed request or a failed flash-id read each
      end the exchange there with an error. */
  function Exchange(dev: NvmeDevice, h: seq<Submission>): (run: Session<Result<Pages>, Submission>)
    ensures 1 <= |run.issued| && run.issued <= [FW_READ, REQUEST_WRITE, FID_READ]
    ensures |run.issued| > 1 <==> FwResponse(dev, h).Ok? && Signed(FwResponse(dev, h).value)
    ensures FwResponse(dev, h).Ok? && !Signed(FwResponse(dev, h).value) ==> run.result == Err(Mismatch)
    ensures run.result.Ok? <==> (|run.issued| == 3 && dev.Answer(h + [FW_READ], REQUEST_WRITE, []).Ok?
                                 && FidResponse(dev, h + [FW_READ, REQUEST_WRITE]).Ok?)
    ensures run.result.Ok? ==> run.result.value == Pages(FwResponse(dev, h).value, FidResponse(dev, h + [FW_READ, REQUEST_WRITE]).value)
    ensures run.result.Ok? ==> |run.result.value.fw| == FW_LEN && |run.result.value.fid| == FID_LEN
  {
    match FwResponse(dev, h)
    case Err(e) => Session(Err(e), [FW_READ])
    case Ok(fw) =>
      if !Signed(fw) then Session(Err(Mismatch), [FW_READ])
      else
        match dev.Answer(h + [FW_READ], REQUEST_WRITE, [])
        case Err(e) => Session(Err(e), [FW_READ, REQUEST_WRITE])
        case Ok(_) =>
          match FidResponse(dev, h + [FW_READ, REQUEST_WRITE])
          case Err(e) => Session(Err(e), [FW_READ, REQUEST_WRITE, FID_READ])
          case Ok(fid) => Session(Ok(Pages(fw, fid)), [FW_READ, REQUEST_WRITE, FID_READ])
  }

  /** The result read from the two pages: the firmware name and the banks. */
  function Decode(p: Pages): FlashIdResult
    requires |p.fw| == FW_LEN
  {
    FlashIdResult(FwName(p.fw), FidBanks(p.fid))
  }

  /** `read_flash_id`: the exchange's error, or the result decoded from its pages. */
  function Protocol(dev: NvmeDevice, h: seq<Submission>): Run
  {
    var x := Exchange(dev, h);
    Session(if x.result.Ok? then Ok(Decode(x.result.value)) else Err(x.result.error), x.issued)
  }

  method Transfer(dev: NvmeDevice) returns (r: Result<Pages>)
    modifies dev
    ensures r == Exchange(dev, old(dev.submitted)).result
    ensures dev.submitted == old(dev.submitted) + Exchange(dev, old(dev.submitted)).issued
  {
    ghost var h := dev.submitted;
    var a := dev.AdminRead(0xFE, 0, 0x80, 0, 0, 0, 0, 0xA1, Zeros(FW_LEN));
    if a.Err? {
      return Err(a.error);
    }
    assert dev.submitted == h + [FW_READ];
    var fw := a.value.buf;
    assert FwResponse(dev, h) == Ok(fw);
    if fw[..6] != DM1160_SIG && fw[..6] != DM1140_SIG {
      return Err(Mismatch);
    }
    var w := dev.AdminWrite(0xFD, 0, 0x80, 0, 0, 0, 0x6299, 0x50, REQUEST);
    assert w == dev.Answer(h + [FW_READ], REQUEST_WRITE, []);
    ghost var h2 := dev.submitted;
    assert h2 == h + [FW_READ, REQUEST_WRITE];
    if w.Err? {
      return Err(w.error);
    }
    var f := dev.AdminRead(0xFE, 0, 0x100, 0, 0, 0, 0x6299, 0x50, Zeros(FID_LEN));
    assert f == dev.Answer(h2, FID_READ, Zeros(FID_LEN));
    assert dev.submitted == h + [FW_READ, REQUEST_WRITE, FID_READ];
    if f.Err? {
      return Err(f.error);
    }
    assert FidResponse(dev, h2) == Ok(f.value.buf);
    return Ok(Pages(fw, f.value.buf));
  }

  method ReadFlashId(dev: NvmeDevice) returns (r: Result<FlashIdResult>)
    modifies dev
    ensures r == Protocol(dev, old(dev.submitted)).result
    ensures dev.submitted == old(dev.submitted) + Protocol(dev, old(dev.submitted)).issued
  {
    var p := Transfer(dev);
    if p.Err? {
      return Err(p.error);
    }
    var name := FwName(p.value.fw);
    var banks := CollectSlots(p.value.fid, 0, ID_LEN, MAX_BANKS, NON_EMPTY);
    return Ok(FlashIdResult(name, banks));
  }

  /** Every bank is a non-empty slot among the first 64 of the page, copied
      byte for byte and numbered by its slot; every such slot is reported. */
  lemma FidBanksMeaning(buf: seq<bv8>)
    requires |buf| == FID_LEN
    ensures ValidBanks(FidBanks(buf))
    ensures forall k :: 0 <= k < |FidBanks(buf)| ==>
      FidBanks(buf)[k].bankNum < MAX_BANKS && !IsBankEmpty(FidBanks(buf)[k].flashId) &&
      FidBanks(buf)[k].flashId == buf[8 * FidBanks(buf)[k].bankNum..][..8]
    ensures forall i :: 0 <= i < MAX_BANKS && !IsBankEmpty(buf[8 * i..][..8]) ==>
      exists k :: 0 <= k < |FidBanks(buf)| && FidBanks(buf)[k].bankNum == i
  {
    var banks := FidBanks(buf);
    SkipScanMeaning(buf, 0, MAX_BANKS, NON_EMPTY);
    forall k | 0 <= k < |banks|
      ensures banks[k].flashId == buf[8 * banks[k].bankNum..][..8]
    {
      var n := banks[k].bankNum;
      assert SlotAt(buf, 0, ID_LEN, n) == Some(banks[k].flashId);
      assert n * ID_LEN == 8 * n;
    }
    forall i | 0 <= i < MAX_BANKS && !IsBankEmpty(buf[8 * i..][..8])
      ensures exists k :: 0 <= k < |banks| && banks[k].bankNum == i
    {
      assert i * ID_LEN + ID_LEN <= |buf|;
      assert SlotAt(buf, 0, ID_LEN, i).value == buf[8 * i..][..8];
    }
  }
}

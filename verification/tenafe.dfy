/** The Tenafe TC2200/TC2201 extractor: a configuration write selects the
    flash-id page, a vendor read returns it, and 8-byte slots from 0x50 hold
    the flash ids of up to 32 banks. */
module Tenafe {
  import opened Base
  import opened Banks
  import opened Nvme

  const BANK_START: nat := 0x50
  const BANK_SIZE: nat := 8
  const MAX_BANKS: nat := 32
  const PAGE_LEN: nat := 4096
  const NAME := "Tenafe TC2200/TC2201"

  /** The configuration page: a zeroed 4 KiB buffer with six fields set. */
  const CONFIG: seq<bv8> := Zeros(PAGE_LEN)[0x00 := 0x03][0x02 := 0x0C][0x04 := 0x01][0x08 := 0x08][0x0D := 0x04][0x11 := 0x04]

  /** Vendor write 0xC1 of the configuration page: namespace 1, cdw10 0x400, cdw12 8. */
  const CONFIG_WRITE := WriteSubmission(0xC1, 1, 0x400, 0, 0x08, 0, 0, 0, CONFIG)

  /** Vendor read 0xC2 of the flash-id page, same dwords, into 4096 bytes. */
  const FLASH_ID_READ := ReadSubmission(0xC2, 1, 0x400, 0, 0x08, 0, 0, 0, PAGE_LEN)

  /** The configuration page is 4 KiB and zero except at the six fields. */
  lemma ConfigLayout()
    ensures |CONFIG| == PAGE_LEN
    ensures CONFIG[0x00] == 0x03 && CONFIG[0x02] == 0x0C && CONFIG[0x04] == 0x01
    ensures CONFIG[0x08] == 0x08 && CONFIG[0x0D] == 0x04 && CONFIG[0x11] == 0x04
    ensures forall i :: 0 <= i < PAGE_LEN && i != 0x00 && i != 0x02 && i != 0x04 && i != 0x08 && i != 0x0D && i != 0x11 ==>
      CONFIG[i] == 0
  {
  }

  type Run = Session<Result<FlashIdResult>, Submission>

  /** The page the read leaves after history `h`, or its failure. */
  function Response(dev: NvmeDevice, h: seq<Submission>): (r: Result<seq<bv8>>)
    ensures r.Ok? ==> |r.value| == PAGE_LEN
  {
    match dev.Answer(h, FLASH_ID_READ, Zeros(PAGE_LEN))
    case Err(e) => Err(e)
    case Ok(d) => Ok(d.buf)
  }

  /** The banks of the page: non-empty slots, numbered by slot index. */
  function PageBanks(buf: seq<bv8>): seq<FlashBank>
  {
    SkipScan(buf, BANK_START, BANK_SIZE, MAX_BANKS, NON_EMPTY)
  }

  /** `read_flash_id`: a failed write stops before the read; either failure
      is the error; otherwise the fixed name and the banks of the page. */
  function Protocol(dev: NvmeDevice, h: seq<Submission>): (run: Run)
    ensures run.issued == if dev.Answer(h, CONFIG_WRITE, []).Err? then [CONFIG_WRITE] else [CONFIG_WRITE, FLASH_ID_READ]
    ensures run.result.Err? <==> dev.Answer(h, CONFIG_WRITE, []).Err? || Response(dev, h + [CONFIG_WRITE]).Err?
    ensures run.result.Ok? ==> run.result.value.controllerName == NAME
    ensures run.result.Ok? ==> run.result.value.banks == PageBanks(Response(dev, h + [CONFIG_WRITE]).value)
  {
    match dev.Answer(h, CONFIG_WRITE, [])
    case Err(e) => Session(Err(e), [CONFIG_WRITE])
    case Ok(_) =>
      match Response(dev, h + [CONFIG_WRITE])
      case Err(e) => Session(Err(e), [CONFIG_WRITE, FLASH_ID_READ])
      case Ok(buf) => Session(Ok(FlashIdResult(NAME, PageBanks(buf))), [CONFIG_WRITE, FLASH_ID_READ])
  }

  method ReadFlashId(dev: NvmeDevice) returns (r: Result<FlashIdResult>)
    modifies dev
    ensures r == Protocol(dev, old(dev.submitted)).result
    ensures dev.submitted == old(dev.submitted) + Protocol(dev, old(dev.submitted)).issued
  {
    var w := dev.AdminWrite(0xC1, 1, 0x400, 0, 0x08, 0, 0, 0, CONFIG);
    if w.Err? {
      return Err(w.error);
    }
    var a := dev.AdminRead(0xC2, 1, 0x400, 0, 0x08, 0, 0, 0, Zeros(PAGE_LEN));
    if a.Err? {
      return Err(a.error);
    }
    var banks := CollectSlots(a.value.buf, BANK_START, BANK_SIZE, MAX_BANKS, NON_EMPTY);
    return Ok(FlashIdResult(NAME, banks));
  }

  /** Every bank is a non-empty slot of the page, copied byte for byte and
      numbered by its slot; every non-empty slot is reported; all 32 slots
      lie inside the page. */
  lemma PageBanksMeaning(buf: seq<bv8>)
    requires |buf| == PAGE_LEN
    ensures ValidBanks(PageBanks(buf))
    ensures forall k :: 0 <= k < |PageBanks(buf)| ==>
      PageBanks(buf)[k].bankNum < MAX_BANKS && !IsBankEmpty(PageBanks(buf)[k].flashId) &&
      PageBanks(buf)[k].flashId == buf[BANK_START + BANK_SIZE * PageBanks(buf)[k].bankNum..][..BANK_SIZE]
    ensures forall i :: 0 <= i < MAX_BANKS && !IsBankEmpty(buf[BANK_START + BANK_SIZE * i..][..BANK_SIZE]) ==>
      exists k :: 0 <= k < |PageBanks(buf)| && PageBanks(buf)[k].bankNum == i
  {
    var banks := PageBanks(buf);
    SkipScanMeaning(buf, BANK_START, MAX_BANKS, NON_EMPTY);
    forall k | 0 <= k < |banks|
      ensures banks[k].flashId == buf[BANK_START + BANK_SIZE * banks[k].bankNum..][..BANK_SIZE]
    {
      var n := banks[k].bankNum;
      assert SlotAt(buf, BANK_START, ID_LEN, n) == Some(banks[k].flashId);
      assert BANK_START + n * ID_LEN == BANK_START + BANK_SIZE * n;
    }
    forall i | 0 <= i < MAX_BANKS && !IsBankEmpty(buf[BANK_START + BANK_SIZE * i..][..BANK_SIZE])
      ensures exists k :: 0 <= k < |banks| && banks[k].bankNum == i
    {
      assert BANK_START + i * ID_LEN + ID_LEN <= |buf|;
      assert SlotAt(buf, BANK_START, ID_LEN, i).value == buf[BANK_START + BANK_SIZE * i..][..BANK_SIZE];
    }
  }
}

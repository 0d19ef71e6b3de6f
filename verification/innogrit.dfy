/** The Innogrit extractor: one vendor read returns a 4 KiB page whose device
    id at 0x62E names the controller and picks where the 6-byte flash-id
    entries of the banks lie. */
module Innogrit {
  import opened Base
  import opened Banks
  import opened Nvme

  /** "GRIT" and "INNO", read as little-endian dwords. */
  const GRIT_MAGIC: uint32 := 0x54495247
  const INNO_MAGIC: uint32 := 0x4F4E4E49

  const PAGE_LEN: nat := 4096
  const DID_OFFSET: nat := 0x62E
  const ENTRY_SIZE: nat := 6

  /** Vendor read 0xF2: cdw10 0x400, the two magic words in cdw14 and cdw15, into 4096 bytes. */
  const FLASH_ID_READ := ReadSubmission(0xF2, 0, 0x400, 0, 0, 0, GRIT_MAGIC, INNO_MAGIC, PAGE_LEN)

  /** Where the entries lie and how many there are. */
  datatype Layout = Layout(offset: nat, count: nat)

  /** The IG5208 and IG5216 keep 32 entries at 0x548; every other device id 64 at 0x24E. */
  function LayoutOf(did: uint16): (l: Layout)
    ensures l.count <= 64
    ensures did == 0x5208 || did == 0x5216 <==> l == Layout(0x548, 32)
    ensures did != 0x5208 && did != 0x5216 <==> l == Layout(0x24E, 64)
  {
    if did == 0x5208 || did == 0x5216 then Layout(0x548, 32) else Layout(0x24E, 64)
  }

  /** The device id: the little-endian word at 0x62E. */
  function Did(buf: seq<bv8>): uint16
    requires |buf| == PAGE_LEN
  {
    Le16(buf[DID_OFFSET], buf[DID_OFFSET + 1])
  }

  /** "IG" followed by the device id in decimal. */
  function ControllerName(did: uint16): (name: string)
    ensures |name| >= 3 && name[0] == 'I' && name[1] == 'G'
  {
    "IG" + Decimal(did as nat)
  }

  /** The name shows the device id: its digits read back as the id. */
  lemma ControllerNameShowsDid(did: uint16)
    ensures DecimalValue(ControllerName(did)[2..]) == did as nat
  {
    assert ControllerName(did)[2..] == Decimal(did as nat);
    DecimalRoundTrip(did as nat);
  }

  /** Entry `i` of a layout: six bytes. */
  function Entry(buf: seq<bv8>, l: Layout, i: nat): seq<bv8>
    requires l.offset + i * ENTRY_SIZE + ENTRY_SIZE <= |buf|
  {
    buf[l.offset + i * ENTRY_SIZE..l.offset + i * ENTRY_SIZE + ENTRY_SIZE]
  }

  /** Both layouts lie inside the page, so the bound check of `extract_banks` never ends the scan early. */
  lemma LayoutsFit(did: uint16, i: nat)
    requires i < LayoutOf(did).count
    ensures LayoutOf(did).offset + i * ENTRY_SIZE + ENTRY_SIZE <= PAGE_LEN
  {
  }

  /** The banks of the page: the non-empty entries, numbered by entry index,
      each padded to eight bytes. */
  function EntryBanks(buf: seq<bv8>): seq<FlashBank>
    requires |buf| == PAGE_LEN
  {
    var l := LayoutOf(Did(buf));
    SkipScan(buf, l.offset, ENTRY_SIZE, l.count, NON_EMPTY)
  }

  function Decode(buf: seq<bv8>): FlashIdResult
    requires |buf| == PAGE_LEN
  {
    FlashIdResult(ControllerName(Did(buf)), EntryBanks(buf))
  }

  type Run = Session<Result<FlashIdResult>, Submission>

  /** The page the read leaves after history `h`, or its failure. */
  function Response(dev: NvmeDevice, h: seq<Submission>): (r: Result<seq<bv8>>)
    ensures r.Ok? ==> |r.value| == PAGE_LEN
  {
    match dev.Answer(h, FLASH_ID_READ, Zeros(PAGE_LEN))
    case Err(e) => Err(e)
    case Ok(d) => Ok(d.buf)
  }

  /** `read_flash_id`: the read's failure is the only error; a page without
      banks is still a result, named after its device id. */
  function Protocol(dev: NvmeDevice, h: seq<Submission>): (run: Run)
    ensures run.issued == [FLASH_ID_READ]
    ensures run.result.Err? <==> Response(dev, h).Err?
    ensures run.result.Ok? ==> run.result.value == Decode(Response(dev, h).value)
  {
    match Response(dev, h)
    case Err(e) => Session(Err(e), [FLASH_ID_READ])
    case Ok(buf) => Session(Ok(Decode(buf)), [FLASH_ID_READ])
  }

  method ReadFlashId(dev: NvmeDevice) returns (r: Result<FlashIdResult>)
    modifies dev
    ensures r == Protocol(dev, old(dev.submitted)).result
    ensures dev.submitted == old(dev.submitted) + Protocol(dev, old(dev.submitted)).issued
  {
    var a := dev.AdminRead(0xF2, 0, 0x400, 0, 0, 0, GRIT_MAGIC, INNO_MAGIC, Zeros(PAGE_LEN));
    if a.Err? {
      return Err(a.error);
    }
    var buf := a.value.buf;
    var did := Le16(buf[DID_OFFSET], buf[DID_OFFSET + 1]);
    var name := "IG" + Decimal(did as nat);
    var l := LayoutOf(did);
    var banks := CollectSlots(buf, l.offset, ENTRY_SIZE, l.count, NON_EMPTY);
    return Ok(FlashIdResult(name, banks));
  }

  /** Every bank is a non-empty entry of the layout the device id picks,
      numbered by its index and followed by two zero bytes; every non-empty
      entry is reported; the numbers increase. */
  lemma EntryBanksMeaning(buf: seq<bv8>)
    requires |buf| == PAGE_LEN
    ensures ValidBanks(EntryBanks(buf))
    ensures forall k :: 0 <= k < |EntryBanks(buf)| ==>
      EntryBanks(buf)[k].bankNum < LayoutOf(Did(buf)).count &&
      EntryBanks(buf)[k].flashId == Entry(buf, LayoutOf(Did(buf)), EntryBanks(buf)[k].bankNum) + [0, 0] &&
      !IsBankEmpty(Entry(buf, LayoutOf(Did(buf)), EntryBanks(buf)[k].bankNum))
    ensures forall i :: 0 <= i < LayoutOf(Did(buf)).count && !IsBankEmpty(Entry(buf, LayoutOf(Did(buf)), i)) ==>
      exists k :: 0 <= k < |EntryBanks(buf)| && EntryBanks(buf)[k].bankNum == i
  {
    var l := LayoutOf(Did(buf));
    var banks := EntryBanks(buf);
    SkipScanValid(buf, l.offset, ENTRY_SIZE, l.count, NON_EMPTY);
    SkipScanSound(buf, l.offset, ENTRY_SIZE, l.count, NON_EMPTY);
    forall k | 0 <= k < |banks|
      ensures banks[k].flashId == Entry(buf, l, banks[k].bankNum) + [0, 0]
      ensures !IsBankEmpty(Entry(buf, l, banks[k].bankNum))
    {
      var n := banks[k].bankNum;
      LayoutsFit(Did(buf), n);
      assert KeptSlot(buf, l.offset, ENTRY_SIZE, NON_EMPTY, banks[k]);
      assert SlotAt(buf, l.offset, ENTRY_SIZE, n).value == Entry(buf, l, n);
      assert Zeros(2) == [0, 0];
    }
    forall i | 0 <= i < l.count && !IsBankEmpty(Entry(buf, l, i))
      ensures exists k :: 0 <= k < |banks| && banks[k].bankNum == i
    {
      LayoutsFit(Did(buf), i);
      assert SlotAt(buf, l.offset, ENTRY_SIZE, i).value == Entry(buf, l, i);
      SkipScanComplete(buf, l.offset, ENTRY_SIZE, l.count, NON_EMPTY, i);
    }
  }
}

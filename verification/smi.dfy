/** The Silicon Motion NVMe extractor: one vendor read returns a 2 KiB table
    whose 8-byte slots at 0x30 .. 0x1F0 hold the flash ids of the populated
    banks and whose tail at 0x1F0 names the controller. */
module Smi {
  import opened Base
  import opened Banks
  import opened Nvme

  /** The JEDEC manufacturer ids a slot's first byte must carry. */
  const VALID_MANUFACTURER_IDS: seq<bv8> :=
    [0x01, 0x04, 0x07, 0x20, 0x2C, 0x45, 0x4A, 0x51, 0x89, 0x92, 0x98, 0x9B, 0xAD, 0xB5, 0xC2, 0xC8, 0xEC, 0xEF]

  const BANK_START: nat := 0x30
  const BANK_END: nat := 0x1F0
  const BANK_SIZE: nat := 8
  const CTRL_NAME_OFFSET: nat := 0x1F0
  const RESPONSE_LEN: nat := 2048

  /** The number of slots in [BANK_START, BANK_END). */
  const SLOT_COUNT: nat := 56

  /** Vendor read 0xC2: cdw10 0x200, cdw12 0x40, cdw13 1, into 2048 bytes. */
  const FLASH_ID_READ := ReadSubmission(0xC2, 0, 0x200, 0, 0x40, 0x01, 0, 0, RESPONSE_LEN)

  /** A slot is kept when it is not empty and starts with a listed manufacturer id. */
  predicate Keep(ids: seq<bv8>, slot: seq<bv8>)
  {
    |slot| > 0 && !IsBankEmpty(slot) && slot[0] in ids
  }

  function KeepIn(ids: seq<bv8>): seq<bv8> -> bool
  {
    slot => Keep(ids, slot)
  }

  const DEFAULT_NAME := "SMI"

  lemma DefaultNameIsName()
    ensures IsName(DEFAULT_NAME)
  {
  }

  predicate IsNul(b: bv8) { b == 0 }

  /** Where the name area is cut: at its first 0x00, or at its end. */
  function NameEnd(data: seq<bv8>): (end: nat)
    ensures end <= |data|
  {
    match FirstIndex(data, IsNul) case Some(i) => i case None => |data|
  }

  /** The text up to the first 0x00, unprintable bytes shown as spaces,
      trimmed; "SMI" when nothing is left. */
  function ControllerName(data: seq<bv8>): (name: string)
    ensures IsName(name)
  {
    DefaultNameIsName();
    TextOr(data[..NameEnd(data)], DEFAULT_NAME)
  }

  /** A clean name ended by a 0x00 is read back exactly. */
  lemma ControllerNameReads(text: seq<bv8>, rest: seq<bv8>)
    requires text != [] && IsCleanText(text)
    ensures ControllerName(text + [0] + rest) == Text(text)
  {
    var data := text + [0] + rest;
    assert NameEnd(data) == |text| by {
      assert data[|text|] == 0;
      assert forall j :: 0 <= j < |text| ==> data[j] == text[j] && !IsNul(data[j]);
    }
    assert data[..|text|] == text;
    DefaultNameIsName();
    TextOrClean(text, DEFAULT_NAME);
  }

  /** A name area that starts with 0x00 gives the default name. */
  lemma ControllerNameDefault(rest: seq<bv8>)
    ensures ControllerName([0] + rest) == DEFAULT_NAME
  {
    var data := [0] + rest;
    assert NameEnd(data) == 0 by {
      assert IsNul(data[0]);
    }
    DefaultNameIsName();
    TextOrEmpty(data[..0], DEFAULT_NAME);
  }

  type Run = Session<Result<FlashIdResult>, Submission>

  /** The buffer the vendor read leaves, or its failure. */
  function Response(dev: NvmeDevice, h: seq<Submission>): (r: Result<seq<bv8>>)
    ensures r.Ok? ==> |r.value| == RESPONSE_LEN
  {
    match dev.Answer(h, FLASH_ID_READ, Zeros(RESPONSE_LEN))
    case Err(e) => Err(e)
    case Ok(d) => Ok(d.buf)
  }

  /** `read_flash_id`: the read's failure is the only error; a zero-bank
      table is still a result. */
  function Protocol(dev: NvmeDevice, h: seq<Submission>): (run: Run)
    ensures run.issued == [FLASH_ID_READ]
    ensures run.result.Err? <==> Response(dev, h).Err?
    ensures run.result.Ok? ==> run.result.value.banks == TableBanks(Response(dev, h).value, VALID_MANUFACTURER_IDS)
    ensures run.result.Ok? ==> run.result.value.controllerName == ControllerName(Response(dev, h).value[CTRL_NAME_OFFSET..])
  {
    match Response(dev, h)
    case Err(e) => Session(Err(e), [FLASH_ID_READ])
    case Ok(buf) => Session(Ok(FlashIdResult(ControllerName(buf[CTRL_NAME_OFFSET..]), TableBanks(buf, VALID_MANUFACTURER_IDS))), [FLASH_ID_READ])
  }

  /** The slots of the table kept under the allow-list `ids`, numbered by slot index. */
  function TableBanks(buf: seq<bv8>, ids: seq<bv8>): seq<FlashBank>
    requires |buf| == RESPONSE_LEN
  {
    SkipScan(buf, BANK_START, BANK_SIZE, SLOT_COUNT, KeepIn(ids))
  }

  method ReadFlashId(dev: NvmeDevice) returns (r: Result<FlashIdResult>)
    modifies dev
    ensures r == Protocol(dev, old(dev.submitted)).result
    ensures dev.submitted == old(dev.submitted) + Protocol(dev, old(dev.submitted)).issued
  {
    var a := dev.AdminRead(0xC2, 0, 0x200, 0, 0x40, 0x01, 0, 0, Zeros(RESPONSE_LEN));
    if a.Err? {
      return Err(a.error);
    }
    var buf := a.value.buf;
    var name := ControllerName(buf[CTRL_NAME_OFFSET..]);
    var banks := ScanTable(buf, VALID_MANUFACTURER_IDS);
    return Ok(FlashIdResult(name, banks));
  }

  /** The slot loop of `read_flash_id`: the offset and the bank number advance together. */
  method ScanTable(buf: seq<bv8>, ids: seq<bv8>) returns (banks: seq<FlashBank>)
    requires |buf| == RESPONSE_LEN
    ensures banks == TableBanks(buf, ids)
  {
    banks := [];
    var offset := BANK_START;
    var bankNum := 0;
    while offset + BANK_SIZE <= BANK_END
      invariant bankNum <= SLOT_COUNT && offset == BANK_START + bankNum * BANK_SIZE
      invariant banks == SkipScan(buf, BANK_START, BANK_SIZE, bankNum, KeepIn(ids))
    {
      var slot := buf[offset..offset + BANK_SIZE];
      SkipScanNext(buf, BANK_START, BANK_SIZE, bankNum, KeepIn(ids), offset, slot);
      PadFull(slot);
      if !IsBankEmpty(slot) && slot[0] in ids {
        banks := banks + [FlashBank(bankNum, slot)];
      }
      offset := offset + BANK_SIZE;
      bankNum := bankNum + 1;
    }
  }

  /** The 8 bytes of slot `n` of the table. */
  function SlotBytes(buf: seq<bv8>, n: nat): seq<bv8>
    requires n < SLOT_COUNT && |buf| == RESPONSE_LEN
  {
    buf[BANK_START + n * BANK_SIZE..BANK_START + n * BANK_SIZE + BANK_SIZE]
  }

  /** Every bank is a slot of the table, not empty and from a listed
      manufacturer, copied byte for byte and numbered by its slot; every such
      slot is reported; the numbers increase. */
  lemma TableBanksMeaning(buf: seq<bv8>, ids: seq<bv8>)
    requires |buf| == RESPONSE_LEN
    ensures ValidBanks(TableBanks(buf, ids))
    ensures forall k :: 0 <= k < |TableBanks(buf, ids)| ==>
      TableBanks(buf, ids)[k].bankNum < SLOT_COUNT &&
      TableBanks(buf, ids)[k].flashId == SlotBytes(buf, TableBanks(buf, ids)[k].bankNum) &&
      !IsBankEmpty(TableBanks(buf, ids)[k].flashId) && TableBanks(buf, ids)[k].flashId[0] in ids
    ensures forall n :: 0 <= n < SLOT_COUNT && Keep(ids, SlotBytes(buf, n)) ==>
      exists k :: 0 <= k < |TableBanks(buf, ids)| && TableBanks(buf, ids)[k].bankNum == n
  {
    var banks := TableBanks(buf, ids);
    SkipScanValid(buf, BANK_START, BANK_SIZE, SLOT_COUNT, KeepIn(ids));
    SkipScanSound(buf, BANK_START, BANK_SIZE, SLOT_COUNT, KeepIn(ids));
    forall k | 0 <= k < |banks|
      ensures banks[k].flashId == SlotBytes(buf, banks[k].bankNum)
    {
      assert KeptSlot(buf, BANK_START, BANK_SIZE, KeepIn(ids), banks[k]);
      PadFull(SlotAt(buf, BANK_START, BANK_SIZE, banks[k].bankNum).value);
    }
    forall n | 0 <= n < SLOT_COUNT && Keep(ids, SlotBytes(buf, n))
      ensures exists k :: 0 <= k < |banks| && banks[k].bankNum == n
    {
      SkipScanComplete(buf, BANK_START, BANK_SIZE, SLOT_COUNT, KeepIn(ids), n);
    }
  }
}

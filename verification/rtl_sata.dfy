/** The Realtek SATA extractor: a 48-bit setup command, then the primary
    flash-id read and, when that gives nothing, the extended one; each read
    returns up to 8 flash ids as a run of 8-byte slots from offset 0. */
module RtlSata {
  import opened Base
  import opened Banks
  import opened Ata

  const BUF_LEN: nat := 512
  const MAX_BANKS: nat := 8

  /** Firmware prefixes and the chips they name, in the order they are tried. */
  const FW_PREFIXES: seq<Entry<string>> := [
    Entry("REALTEK_RL6468", "RTS5732"),
    Entry("REALTEK_RL6531", "RTS5733"),
    Entry("REALTEK_RL6643", "RTS5735")
  ]

  /** `detect_from_firmware`: the chip of the first prefix the firmware
      revision starts with. */
  function DetectFromFirmware(fw: string): (r: Option<string>)
    ensures r.None? <==> forall j :: 0 <= j < |FW_PREFIXES| ==> !StartsWith(fw, FW_PREFIXES[j].prefix)
    ensures r.Some? ==> exists k :: (0 <= k < |FW_PREFIXES| && StartsWith(fw, FW_PREFIXES[k].prefix) &&
      FW_PREFIXES[k].value == r.value && forall j :: 0 <= j < k ==> !StartsWith(fw, FW_PREFIXES[j].prefix))
  {
    FirstPrefix(FW_PREFIXES, fw)
  }

  /** The three prefixes have the same length and differ, so at most one matches. */
  lemma PrefixesExclusive(fw: string)
    ensures forall j, k :: 0 <= j < k < |FW_PREFIXES| ==>
      !(StartsWith(fw, FW_PREFIXES[j].prefix) && StartsWith(fw, FW_PREFIXES[k].prefix))
  {
    forall j, k | 0 <= j < k < |FW_PREFIXES| && StartsWith(fw, FW_PREFIXES[j].prefix)
      ensures !StartsWith(fw, FW_PREFIXES[k].prefix)
    {
      assert FW_PREFIXES[j].prefix[13] != FW_PREFIXES[k].prefix[13];
    }
  }

  /** The setup: 48-bit non-data 0xFC, features 0x50, count 0xFF, device
      0xE0, previous count 0xFF. */
  const FID_PREFIX := NoDataExtRequest(Regs(0xFC, 0x50, 0xFF, 0x00, 0x00, 0x00, 0xE0), PrevRegs(0x00, 0xFF, 0x00, 0x00, 0x00))

  /** The primary read: 0xFA, features 0x01, count 1, LBA 0xF00420, previous LBA low 0xAF. */
  const READ_FID := ReadExtRequest(Regs(0xFA, 0x01, 0x01, 0x20, 0x04, 0xF0, 0xE0), PrevRegs(0x00, 0x00, 0xAF, 0x00, 0x00), BUF_LEN)

  /** The extended read: 0xFA, features 0x41, count 1, every LBA byte 0. */
  const READ_FID2 := ReadExtRequest(Regs(0xFA, 0x41, 0x01, 0x00, 0x00, 0x00, 0xE0), NO_PREV, BUF_LEN)

  /** The three commands on the wire, all in the 48-bit form. */
  lemma Commands()
    ensures FID_PREFIX.cdb == [0x85, 0x07, 0x20, 0x00, 0x50, 0xFF, 0xFF, 0, 0, 0, 0, 0, 0, 0xE0, 0xFC, 0]
    ensures READ_FID.cdb == [0x85, 0x09, 0x2E, 0x00, 0x01, 0x00, 0x01, 0xAF, 0x20, 0, 0x04, 0, 0xF0, 0xE0, 0xFA, 0]
    ensures READ_FID2.cdb == [0x85, 0x09, 0x2E, 0x00, 0x41, 0x00, 0x01, 0, 0, 0, 0, 0, 0, 0xE0, 0xFA, 0]
  {
  }

  /** `extract_banks`: the leading run of non-empty slots, at most 8. */
  function SlotBanks(buf: seq<bv8>): seq<FlashBank>
  {
    StopScan(buf, MAX_BANKS)
  }

  type Run = Session<Result<FlashIdResult>, AtaRequest>

  /** What a flash-id read after history `h` yields: the banks it found, or
      nothing when it failed or found none. */
  function FidBanks(dev: AtaDevice, h: seq<AtaRequest>, q: AtaRequest): seq<FlashBank>
  {
    match dev.Answer(h, q, BUF_LEN)
    case Err(_) => []
    case Ok(buf) => SlotBanks(buf)
  }

  /** `read_flash_id`: a failed setup is the error and no read follows;
      otherwise the primary read's banks, else the extended read's, else no
      flash data. */
  function Protocol(dev: AtaDevice, h: seq<AtaRequest>): Run
  {
    match dev.Answer(h, FID_PREFIX, 0)
    case Err(e) => Session(Err(e), [FID_PREFIX])
    case Ok(_) =>
      var one := FidBanks(dev, h + [FID_PREFIX], READ_FID);
      if one != [] then Session(Ok(FlashIdResult("Realtek SATA", one)), [FID_PREFIX, READ_FID])
      else
        var two := FidBanks(dev, h + [FID_PREFIX, READ_FID], READ_FID2);
        if two != [] then Session(Ok(FlashIdResult("Realtek SATA (ext)", two)), [FID_PREFIX, READ_FID, READ_FID2])
        else Session(Err(NoFlashData), [FID_PREFIX, READ_FID, READ_FID2])
  }

  method ExtractBanks(data: seq<bv8>) returns (banks: seq<FlashBank>)
    ensures banks == SlotBanks(data)
  {
    banks := CollectUntilEmpty(data, MAX_BANKS);
  }

  method ReadFlashId(dev: AtaDevice) returns (r: Result<FlashIdResult>)
    modifies dev
    ensures r == Protocol(dev, old(dev.requests)).result
    ensures dev.requests == old(dev.requests) + Protocol(dev, old(dev.requests)).issued
  {
    ghost var h := dev.requests;
    var p := dev.AtaNoDataExt(Regs(0xFC, 0x50, 0xFF, 0x00, 0x00, 0x00, 0xE0), PrevRegs(0x00, 0xFF, 0x00, 0x00, 0x00));
    if p.Err? {
      return Err(p.error);
    }
    var fid := dev.AtaReadExt(Regs(0xFA, 0x01, 0x01, 0x20, 0x04, 0xF0, 0xE0), PrevRegs(0x00, 0x00, 0xAF, 0x00, 0x00), BUF_LEN);
    assert dev.requests == h + [FID_PREFIX, READ_FID];
    if fid.Ok? {
      var banks := ExtractBanks(fid.value);
      if banks != [] {
        return Ok(FlashIdResult("Realtek SATA", banks));
      }
    }
    var fid2 := dev.AtaReadExt(Regs(0xFA, 0x41, 0x01, 0x00, 0x00, 0x00, 0xE0), NO_PREV, BUF_LEN);
    assert dev.requests == h + [FID_PREFIX, READ_FID, READ_FID2];
    if fid2.Ok? {
      var banks := ExtractBanks(fid2.value);
      if banks != [] {
        return Ok(FlashIdResult("Realtek SATA (ext)", banks));
      }
    }
    return Err(NoFlashData);
  }

  /** The setup comes first and its failure stops everything; the extended
      read is sent exactly when the primary read failed or found nothing;
      the result is an error exactly when the setup failed or both reads
      found nothing. */
  lemma ProtocolOrder(dev: AtaDevice, h: seq<AtaRequest>)
    ensures var run := Protocol(dev, h);
      var one := FidBanks(dev, h + [FID_PREFIX], READ_FID);
      var two := FidBanks(dev, h + [FID_PREFIX, READ_FID], READ_FID2);
      run.issued[0] == FID_PREFIX &&
      (dev.Answer(h, FID_PREFIX, 0).Err? <==> run.issued == [FID_PREFIX]) &&
      (dev.Answer(h, FID_PREFIX, 0).Ok? ==> (READ_FID2 in run.issued <==> one == [])) &&
      (run.result.Err? <==> dev.Answer(h, FID_PREFIX, 0).Err? || (one == [] && two == []))
  {
    assert READ_FID2 != FID_PREFIX && READ_FID2 != READ_FID;
  }

  /** A result holds 1 to 8 valid banks: the primary read's when it found
      any, named "Realtek SATA", and otherwise the extended read's, named
      "Realtek SATA (ext)". */
  lemma ProtocolBanks(dev: AtaDevice, h: seq<AtaRequest>)
    ensures var run := Protocol(dev, h);
      var one := FidBanks(dev, h + [FID_PREFIX], READ_FID);
      var two := FidBanks(dev, h + [FID_PREFIX, READ_FID], READ_FID2);
      run.result.Ok? ==> (
        1 <= |run.result.value.banks| <= MAX_BANKS && ValidBanks(run.result.value.banks) &&
        (one != [] ==> run.result.value == FlashIdResult("Realtek SATA", one)) &&
        (one == [] ==> run.result.value == FlashIdResult("Realtek SATA (ext)", two)))
  {
    var one := FidBanks(dev, h + [FID_PREFIX], READ_FID);
    var two := FidBanks(dev, h + [FID_PREFIX, READ_FID], READ_FID2);
    FidBanksValid(dev, h + [FID_PREFIX], READ_FID);
    FidBanksValid(dev, h + [FID_PREFIX, READ_FID], READ_FID2);
  }

  /** A read's banks are valid and at most 8; each is the slot of its
      number, copied byte for byte and not empty. */
  lemma FidBanksValid(dev: AtaDevice, h: seq<AtaRequest>, q: AtaRequest)
    ensures |FidBanks(dev, h, q)| <= MAX_BANKS && ValidBanks(FidBanks(dev, h, q))
    ensures dev.Answer(h, q, BUF_LEN).Ok? ==> var buf := dev.Answer(h, q, BUF_LEN).value;
      forall k :: 0 <= k < |FidBanks(dev, h, q)| ==>
        ID_LEN * k + ID_LEN <= |buf| && !IsBankEmpty(buf[ID_LEN * k..ID_LEN * k + ID_LEN]) &&
        FidBanks(dev, h, q)[k] == FlashBank(k, buf[ID_LEN * k..ID_LEN * k + ID_LEN])
  {
    if dev.Answer(h, q, BUF_LEN).Ok? {
      var buf := dev.Answer(h, q, BUF_LEN).value;
      StopScanValid(buf, MAX_BANKS);
      StopScanSlots(buf, MAX_BANKS);
    }
  }
}

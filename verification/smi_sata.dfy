/** The SMI SATA extractor: a SMART read that may carry the flash id
    directly, and otherwise two reads of magic LBAs (R1 at 0xAA, R5 at
    0x55AA) whose pages hold flash ids as a run of 8-byte slots. */
module SmiSata {
  import opened Base
  import opened Banks
  import opened Ata

  const BUF_LEN: nat := 512
  const MAX_BANKS: nat := 16

  /** Firmware prefixes and the chips they name, in the order they are tried. */
  const FW_PREFIXES: seq<Entry<string>> := [
    Entry("SM2246AA-", "SM2246EN/XT"),
    Entry("SM2256AB-", "SM2256/S"),
    Entry("SM2258AB-", "SM2258/XT"),
    Entry("SM2259AB-", "SM2259/XT"),
    Entry("SM2259AC-", "SM2259XT2")
  ]

  /** `detect_from_firmware`: the chip of the first prefix the firmware
      revision starts with. */
  function DetectFromFirmware(fw: string): (r: Option<string>)
    ensures r.None? <==> forall j :: 0 <= j < |FW_PREFIXES| ==> !StartsWith(fw, FW_PREFIXES[j].prefix)
    ensures r.Some? ==> exists k :: (0 <= k < |FW_PREFIXES| && StartsWith(fw, FW_PREFIXES[k].prefix) &&
      FW_PREFIXES[k].value == r.value && forall j :: 0 <= j < k ==> !StartsWith(fw, FW_PREFIXES[j].prefix))
  {
    FirstPrefix(FW_PREFIXES, fw)
  }

  /** SMART (0xB0) with features 0, count 1, the SMART signature and device 0x40. */
  const SMART_READ := ReadRequest(Regs(0xB0, 0x00, 0x01, 0x00, 0x4F, 0xC2, 0x40), BUF_LEN)

  /** READ SECTORS (0x20), one sector, device 0xE0, at the LBA `high:mid:low`. */
  function MagicRead(high: bv8, mid: bv8, low: bv8): AtaRequest
  {
    ReadRequest(Regs(0x20, 0x00, 0x01, low, mid, high, 0xE0), BUF_LEN)
  }

  const READ_R1 := MagicRead(0x00, 0x00, 0xAA)
  const READ_R5 := MagicRead(0x00, 0x55, 0xAA)

  /** The three reads on the wire. */
  lemma Commands()
    ensures SMART_READ.cdb == [0x85, 0x08, 0x2E, 0, 0x00, 0, 0x01, 0, 0x00, 0, 0x4F, 0, 0xC2, 0x40, 0xB0, 0]
    ensures READ_R1.cdb == [0x85, 0x08, 0x2E, 0, 0, 0, 0x01, 0, 0xAA, 0, 0x00, 0, 0x00, 0xE0, 0x20, 0]
    ensures READ_R5.cdb == [0x85, 0x08, 0x2E, 0, 0, 0, 0x01, 0, 0xAA, 0, 0x55, 0, 0x00, 0xE0, 0x20, 0]
  {
  }

  /** Some byte of the page is neither 0x00 nor 0xFF. */
  predicate HasData(buf: seq<bv8>)
  {
    exists i :: 0 <= i < |buf| && buf[i] != 0x00 && buf[i] != 0xFF
  }

  /** The SMART page's answer: its first 8 bytes as bank 0, when the page
      holds data and those bytes are not empty. */
  function SmartFid(buf: seq<bv8>): (r: Option<FlashIdResult>)
    requires |buf| == BUF_LEN
    ensures r.Some? <==> HasData(buf) && !IsBankEmpty(buf[..ID_LEN])
    ensures r.Some? ==> r.value == FlashIdResult("SM2259/XT (SMART FID)", [FlashBank(0, buf[..ID_LEN])])
  {
    if HasData(buf) && !IsBankEmpty(buf[..ID_LEN]) then Some(FlashIdResult("SM2259/XT (SMART FID)", [FlashBank(0, buf[..ID_LEN])]))
    else None
  }

  /** The leading run of non-empty slots of a page, at most 16. */
  function PageBanks(buf: seq<bv8>): seq<FlashBank>
  {
    StopScan(buf, MAX_BANKS)
  }

  /** Both magic pages read: R1's banks if it has any, else R5's, else no flash data. */
  function Pick(r1: seq<bv8>, r5: seq<bv8>): (r: Result<FlashIdResult>)
    ensures r.Err? <==> PageBanks(r1) == [] && PageBanks(r5) == []
  {
    if PageBanks(r1) != [] then Ok(FlashIdResult("SM2259/XT (R1)", PageBanks(r1)))
    else if PageBanks(r5) != [] then Ok(FlashIdResult("SM2259/XT (R5)", PageBanks(r5)))
    else Err(NoFlashData)
  }

  type Run = Session<Result<FlashIdResult>, AtaRequest>

  /** `read_flash_id`: the SMART read, and when it gives no flash id, R1 and
      then R5; a failure of either magic read is the error. */
  function Protocol(dev: AtaDevice, h: seq<AtaRequest>): Run
  {
    var s := dev.Answer(h, SMART_READ, BUF_LEN);
    if s.Ok? && SmartFid(s.value).Some? then Session(Ok(SmartFid(s.value).value), [SMART_READ])
    else match dev.Answer(h + [SMART_READ], READ_R1, BUF_LEN)
      case Err(e) => Session(Err(e), [SMART_READ, READ_R1])
      case Ok(r1) =>
        match dev.Answer(h + [SMART_READ, READ_R1], READ_R5, BUF_LEN)
        case Err(e) => Session(Err(e), [SMART_READ, READ_R1, READ_R5])
        case Ok(r5) => Session(Pick(r1, r5), [SMART_READ, READ_R1, READ_R5])
  }

  method ReadFlashId(dev: AtaDevice) returns (r: Result<FlashIdResult>)
    modifies dev
    ensures r == Protocol(dev, old(dev.requests)).result
    ensures dev.requests == old(dev.requests) + Protocol(dev, old(dev.requests)).issued
  {
    ghost var h := dev.requests;
    var s := dev.AtaRead(Regs(0xB0, 0x00, 0x01, 0x00, 0x4F, 0xC2, 0x40), BUF_LEN);
    if s.Ok? && exists i | 0 <= i < |s.value| :: s.value[i] != 0x00 && s.value[i] != 0xFF {
      var fid := s.value[..ID_LEN];
      if !IsBankEmpty(fid) {
        return Ok(FlashIdResult("SM2259/XT (SMART FID)", [FlashBank(0, fid)]));
      }
    }
    assert s.Ok? ==> SmartFid(s.value).None?;
    var r1 := dev.AtaRead(Regs(0x20, 0x00, 0x01, 0xAA, 0x00, 0x00, 0xE0), BUF_LEN);
    assert dev.requests == h + [SMART_READ, READ_R1];
    if r1.Err? {
      return Err(r1.error);
    }
    var r5 := dev.AtaRead(Regs(0x20, 0x00, 0x01, 0xAA, 0x55, 0x00, 0xE0), BUF_LEN);
    assert dev.requests == h + [SMART_READ, READ_R1, READ_R5];
    if r5.Err? {
      return Err(r5.error);
    }
    var banks := CollectUntilEmpty(r1.value, MAX_BANKS);
    if banks != [] {
      return Ok(FlashIdResult("SM2259/XT (R1)", banks));
    }
    banks := CollectUntilEmpty(r5.value, MAX_BANKS);
    if banks != [] {
      return Ok(FlashIdResult("SM2259/XT (R5)", banks));
    }
    return Err(NoFlashData);
  }

  /** The SMART page needs both tests: a page of 0x00 and 0xFF bytes whose
      first slot mixes them is refused though the slot is not empty, and a
      page with data but a blank first slot is refused too. */
  lemma SmartNeedsBoth()
    ensures var mixed := [0x00, 0xFF] + Zeros(BUF_LEN - 2);
      !IsBankEmpty(mixed[..ID_LEN]) && SmartFid(mixed).None?
    ensures var late := Zeros(ID_LEN) + [0x2C] + Zeros(BUF_LEN - ID_LEN - 1);
      HasData(late) && SmartFid(late).None?
  {
    var mixed: seq<bv8> := [0x00, 0xFF] + Zeros(BUF_LEN - 2);
    MixedIsNotEmpty(mixed[..ID_LEN], 0, 1);
    var late: seq<bv8> := Zeros(ID_LEN) + [0x2C] + Zeros(BUF_LEN - ID_LEN - 1);
    assert late[ID_LEN] == 0x2C;
    assert late[..ID_LEN] == Zeros(ID_LEN);
    IsBankEmptyIff(late[..ID_LEN]);
  }

  /** A SMART flash id ends the protocol at once; otherwise R1 and R5 are
      both read before any page is decoded, so a failed R5 read is the error
      even when R1 held flash ids; R1 is preferred to R5. */
  lemma ProtocolOrder(dev: AtaDevice, h: seq<AtaRequest>)
    ensures var run := Protocol(dev, h);
      var s := dev.Answer(h, SMART_READ, BUF_LEN);
      var a1 := dev.Answer(h + [SMART_READ], READ_R1, BUF_LEN);
      var a5 := dev.Answer(h + [SMART_READ, READ_R1], READ_R5, BUF_LEN);
      (run.issued == [SMART_READ] <==> s.Ok? && SmartFid(s.value).Some?) &&
      (run.issued != [SMART_READ] ==> (
        (a1.Err? ==> run == Session(Err(a1.error), [SMART_READ, READ_R1])) &&
        (a1.Ok? ==> run.issued == [SMART_READ, READ_R1, READ_R5]) &&
        (a1.Ok? && a5.Err? ==> run.result == Err(a5.error)) &&
        (a1.Ok? && a5.Ok? ==> run.result == Pick(a1.value, a5.value))))
  {
  }

  /** A result names the page it came from; its banks come from that page alone:
      the leading run of R1's page, or, when R1 has none, of R5's, numbered
      0, 1, 2, .... */
  lemma PickMeaning(r1: seq<bv8>, r5: seq<bv8>)
    ensures var r := Pick(r1, r5);
      r.Ok? ==> (
        1 <= |r.value.banks| <= MAX_BANKS && ValidBanks(r.value.banks) &&
        (PageBanks(r1) != [] ==> r.value.controllerName == "SM2259/XT (R1)" && r.value.banks == PageBanks(r1)) &&
        (PageBanks(r1) == [] ==> r.value.controllerName == "SM2259/XT (R5)" && r.value.banks == PageBanks(r5)))
    ensures Pick(r1, r5).Err? ==> Pick(r1, r5).error == NoFlashData
  {
    StopScanValid(r1, MAX_BANKS);
    StopScanValid(r5, MAX_BANKS);
  }
}

/** The SandForce SATA extractor: a SMART WRITE LOG to vendor log 0xE0 asks
    for the flash ids, a SMART READ LOG of log 0xE1 returns them as a run of
    8-byte slots from offset 0. */
module SandForce {
  import opened Base
  import opened Banks
  import opened Ata

  const LOG_LEN: nat := 512
  const MAX_BANKS: nat := 16
  const NAME := "SandForce"

  /** SMART (0xB0) with the SMART signature in LBA mid/high, one sector,
      device 0; `feature` selects WRITE LOG (0xD6) or READ LOG (0xD5). */
  function SmartRegs(feature: bv8, log: bv8): Regs
  {
    Regs(0xB0, feature, 0x01, log, 0x4F, 0xC2, 0x00)
  }

  /** The request written to log 0xE0: 01 34 C0, then zeros, 512 bytes. */
  const REQUEST: seq<bv8> := Zeros(LOG_LEN)[0 := 0x01][1 := 0x34][2 := 0xC0]

  const LOG_WRITE := WriteRequest(SmartRegs(0xD6, 0xE0), REQUEST)
  const LOG_READ := ReadRequest(SmartRegs(0xD5, 0xE1), LOG_LEN)

  /** The two commands on the wire: SMART WRITE LOG of log 0xE0 with the
      request, SMART READ LOG of log 0xE1, both PIO with the SMART signature. */
  lemma Commands()
    ensures LOG_WRITE.cdb == [0x85, 0x0A, 0x26, 0, 0xD6, 0, 0x01, 0, 0xE0, 0, 0x4F, 0, 0xC2, 0x00, 0xB0, 0]
    ensures LOG_READ.cdb == [0x85, 0x08, 0x2E, 0, 0xD5, 0, 0x01, 0, 0xE1, 0, 0x4F, 0, 0xC2, 0x00, 0xB0, 0]
    ensures |LOG_WRITE.payload| == LOG_LEN && LOG_WRITE.payload[..3] == [0x01, 0x34, 0xC0]
    ensures forall i :: 3 <= i < LOG_LEN ==> LOG_WRITE.payload[i] == 0
  {
  }

  /** Every byte, taken alone, is 0x00 or 0xFF. */
  predicate AllBlank(buf: seq<bv8>)
  {
    forall i :: 0 <= i < |buf| ==> buf[i] == 0x00 || buf[i] == 0xFF
  }

  type Run = Session<Result<FlashIdResult>, AtaRequest>

  /** The log page a successful read returned: its banks, or the reason there are none. */
  function Decode(buf: seq<bv8>): (r: Result<FlashIdResult>)
    ensures r.Ok? <==> !AllBlank(buf) && StopScan(buf, MAX_BANKS) != []
    ensures r.Err? ==> r.error == NoFlashData
    ensures r.Ok? ==> r.value == FlashIdResult(NAME, StopScan(buf, MAX_BANKS))
  {
    if AllBlank(buf) then Err(NoFlashData)
    else if StopScan(buf, MAX_BANKS) == [] then Err(NoFlashData)
    else Ok(FlashIdResult(NAME, StopScan(buf, MAX_BANKS)))
  }

  /** `read_flash_id`: the write, then the read only if the write succeeded;
      either failure is the error; otherwise the page decoded. */
  function Protocol(dev: AtaDevice, h: seq<AtaRequest>): (run: Run)
    ensures run.issued == if dev.Answer(h, LOG_WRITE, LOG_LEN).Err? then [LOG_WRITE] else [LOG_WRITE, LOG_READ]
    ensures dev.Answer(h, LOG_WRITE, LOG_LEN).Err? ==> run.result == Err(dev.Answer(h, LOG_WRITE, LOG_LEN).error)
    ensures dev.Answer(h, LOG_WRITE, LOG_LEN).Ok? ==>
      run.result == match dev.Answer(h + [LOG_WRITE], LOG_READ, LOG_LEN)
        case Err(e) => Err(e)
        case Ok(buf) => Decode(buf)
  {
    match dev.Answer(h, LOG_WRITE, LOG_LEN)
    case Err(e) => Session(Err(e), [LOG_WRITE])
    case Ok(_) =>
      match dev.Answer(h + [LOG_WRITE], LOG_READ, LOG_LEN)
      case Err(e) => Session(Err(e), [LOG_WRITE, LOG_READ])
      case Ok(buf) => Session(Decode(buf), [LOG_WRITE, LOG_READ])
  }

  method ReadFlashId(dev: AtaDevice) returns (r: Result<FlashIdResult>)
    modifies dev
    ensures r == Protocol(dev, old(dev.requests)).result
    ensures dev.requests == old(dev.requests) + Protocol(dev, old(dev.requests)).issued
  {
    ghost var h := dev.requests;
    var w := dev.AtaWrite(SmartRegs(0xD6, 0xE0), REQUEST);
    if w.Err? {
      return Err(w.error);
    }
    var rd := dev.AtaRead(SmartRegs(0xD5, 0xE1), LOG_LEN);
    assert dev.requests == h + [LOG_WRITE, LOG_READ];
    if rd.Err? {
      return Err(rd.error);
    }
    var response := rd.value;
    if forall i | 0 <= i < |response| :: response[i] == 0x00 || response[i] == 0xFF {
      return Err(NoFlashData);
    }
    var banks := CollectUntilEmpty(response, MAX_BANKS);
    if banks == [] {
      return Err(NoFlashData);
    }
    return Ok(FlashIdResult(NAME, banks));
  }

  /** A result's banks are the leading run of non-empty slots of the page,
      copied byte for byte and numbered 0, 1, 2, ..., at most 16 of them and
      at least one; a page whose first slot is live but which is all 0x00 and
      0xFF bytes is still refused. */
  lemma DecodeMeaning(buf: seq<bv8>)
    ensures var r := Decode(buf);
      r.Ok? ==> (1 <= |r.value.banks| <= MAX_BANKS && ValidBanks(r.value.banks) &&
        forall k :: 0 <= k < |r.value.banks| ==>
          ID_LEN * k + ID_LEN <= |buf| && r.value.banks[k] == FlashBank(k, buf[ID_LEN * k..ID_LEN * k + ID_LEN]))
    ensures !AllBlank(buf) && LiveSlot(buf, 0) ==> Decode(buf).Ok?
  {
    StopScanValid(buf, MAX_BANKS);
    StopScanSlots(buf, MAX_BANKS);
    StopScanStarts(buf, MAX_BANKS);
  }

  /** The blank test is stricter than the slot test: a page of 0x00 and 0xFF
      bytes whose first slot mixes the two has a live first slot and is still
      refused. */
  lemma MixedPageRefused()
    ensures var buf := [0x00, 0xFF] + Zeros(LOG_LEN - 2);
      AllBlank(buf) && LiveSlot(buf, 0) && Decode(buf) == Err(NoFlashData)
  {
    var buf: seq<bv8> := [0x00, 0xFF] + Zeros(LOG_LEN - 2);
    assert buf[0] == 0x00 && buf[1] == 0xFF;
    MixedIsNotEmpty(buf[..ID_LEN], 0, 1);
    assert Slot8(buf, 0) == Some(buf[..ID_LEN]);
  }
}

/** The Realtek NVMe extractor: each attempt unlocks the vendor commands and
    reads a 512-byte table of 8-byte flash ids. The V1 read is always tried
    first; the V2 read only for a V2 controller whose V1 read gave nothing. */
module Rtl {
  import opened Base
  import opened Banks
  import opened Nvme
  import NandDb
  import Detect

  const BUF_LEN: nat := 512
  const MAX_BANKS: nat := 64

  /** The unlock: vendor command 0xFC without data, cdw13 0x0050FFFF. */
  const UNLOCK := NoDataSubmission(0xFC, 0, 0, 0, 0, 0x0050FFFF, 0, 0)

  /** The flash-id read of each variant: 0xFA with cdw10 0x80 into 512 bytes,
      cdw13 0x00410000 for V1; cdw12 0xAFF03860 and cdw13 0x00010001 for V2. */
  function ReadFor(v: Detect.RtlVariant): Submission
  {
    match v
    case V1 => ReadSubmission(0xFA, 0, 0x80, 0, 0, 0x00410000, 0, 0, BUF_LEN)
    case V2 => ReadSubmission(0xFA, 0, 0x80, 0, 0xAFF03860, 0x00010001, 0, 0, BUF_LEN)
  }

  /** The two reads differ, and neither is the unlock. */
  lemma ReadsDistinct()
    ensures ReadFor(Detect.V1) != ReadFor(Detect.V2)
    ensures ReadFor(Detect.V1) != UNLOCK && ReadFor(Detect.V2) != UNLOCK
  {
  }

  /** One attempt: the variant whose read is sent and the name reported if it finds banks. */
  datatype Attempt = Attempt(variant: Detect.RtlVariant, name: string)

  const V1_ATTEMPT := Attempt(Detect.V1, "RTS5762/63")
  const V2_ATTEMPT := Attempt(Detect.V2, "RTS5765/66/72")

  /** The attempts for a requested variant: V1 alone, or V1 and then V2. */
  function Attempts(v: Detect.RtlVariant): (atts: seq<Attempt>)
    ensures 1 <= |atts| <= 2 && atts[0] == V1_ATTEMPT
    ensures v == Detect.V2 <==> |atts| == 2
  {
    match v
    case V1 => [V1_ATTEMPT]
    case V2 => [V1_ATTEMPT, V2_ATTEMPT]
  }

  /** A slot is kept when it is not empty and its first byte is one of the
      manufacturer ids the name table knows. */
  predicate KnownSlot(slot: seq<bv8>)
  {
    |slot| > 0 && !IsBankEmpty(slot) && slot[0] in NandDb.KNOWN_IDS
  }

  /** That is the slot test of `read_flash_id`: not empty, and the manufacturer's name is not "Unknown". */
  lemma KnownSlotIsNamed(slot: seq<bv8>)
    ensures KnownSlot(slot) <==> |slot| > 0 && !IsBankEmpty(slot) && NandDb.ManufacturerName(slot[0]) != "Unknown"
  {
    if |slot| > 0 {
      NandDb.ManufacturerKnownIff(slot[0]);
    }
  }

  const KEEP: seq<bv8> -> bool := slot => KnownSlot(slot)

  /** `extract_banks`: the kept slots among the first 64, numbered by slot index. */
  function SlotBanks(buf: seq<bv8>): seq<FlashBank>
  {
    SkipScan(buf, 0, ID_LEN, MAX_BANKS, KEEP)
  }

  type Run = Session<Result<FlashIdResult>, Submission>

  /** What one attempt yields: the result if it found banks, and the commands it sent. */
  type Try = Session<Option<FlashIdResult>, Submission>

  /** One attempt after history `h`: the unlock, then, if it succeeded, the
      variant's read; it finds something when the read succeeds and its
      table has a kept slot. */
  function AttemptRun(dev: NvmeDevice, h: seq<Submission>, a: Attempt): (t: Try)
    ensures 1 <= |t.issued| <= 2 && t.issued[0] == UNLOCK
    ensures |t.issued| == 2 <==> dev.Answer(h, UNLOCK, []).Ok?
    ensures |t.issued| == 2 ==> t.issued[1] == ReadFor(a.variant)
    ensures t.result.Some? ==> |t.issued| == 2 && t.result.value.controllerName == a.name && t.result.value.banks != []
  {
    if dev.Answer(h, UNLOCK, []).Err? then Session(None, [UNLOCK])
    else
      var q := ReadFor(a.variant);
      var rd := dev.Answer(h + [UNLOCK], q, Zeros(BUF_LEN));
      if rd.Ok? && SlotBanks(rd.value.buf) != [] then Session(Some(FlashIdResult(a.name, SlotBanks(rd.value.buf))), [UNLOCK, q])
      else Session(None, [UNLOCK, q])
  }

  /** The attempts `atts` in order after history `h`: the first that finds
      banks is the result; when none does, the error is that no flash data
      was found. */
  function TryFrom(dev: NvmeDevice, h: seq<Submission>, atts: seq<Attempt>): (run: Run)
    ensures run.result.Err? ==> run.result.error == NoFlashData
    ensures run.result.Ok? ==> run.result.value.banks != []
    decreases |atts|
  {
    if atts == [] then Session(Err(NoFlashData), [])
    else
      var t := AttemptRun(dev, h, atts[0]);
      if t.result.Some? then Session(Ok(t.result.value), t.issued)
      else After(t.issued, TryFrom(dev, h + t.issued, atts[1..]))
  }

  /** `read_flash_id` for the requested variant. */
  function Protocol(dev: NvmeDevice, h: seq<Submission>, v: Detect.RtlVariant): Run
  {
    TryFrom(dev, h, Attempts(v))
  }

  /** A V1 controller gets one attempt: its result is the V1 attempt's, and
      an attempt that finds nothing is an error. */
  lemma V1Once(dev: NvmeDevice, h: seq<Submission>)
    ensures var t := AttemptRun(dev, h, V1_ATTEMPT);
      Protocol(dev, h, Detect.V1) == Session(if t.result.Some? then Ok(t.result.value) else Err(NoFlashData), t.issued)
  {
    assert Attempts(Detect.V1)[1..] == [];
  }

  /** A V2 controller runs the V1 attempt first, exactly as a V1 controller
      does; only when that finds nothing does the V2 attempt follow. */
  lemma V2AfterV1(dev: NvmeDevice, h: seq<Submission>)
    ensures var one := Protocol(dev, h, Detect.V1);
      Protocol(dev, h, Detect.V2) ==
        if one.result.Ok? then one else After(one.issued, TryFrom(dev, h + one.issued, [V2_ATTEMPT]))
  {
    V1Once(dev, h);
    assert Attempts(Detect.V2)[1..] == [V2_ATTEMPT];
  }

  /** The unlock comes right before every read, and a V1 controller is never
      sent the V2 read. */
  lemma V1Commands(dev: NvmeDevice, h: seq<Submission>)
    ensures var run := Protocol(dev, h, Detect.V1);
      1 <= |run.issued| <= 2 && run.issued[0] == UNLOCK && (|run.issued| == 2 ==> run.issued[1] == ReadFor(Detect.V1))
    ensures forall k :: 0 <= k < |Protocol(dev, h, Detect.V1).issued| ==>
      Protocol(dev, h, Detect.V1).issued[k] != ReadFor(Detect.V2)
  {
    V1Once(dev, h);
    ReadsDistinct();
  }

  method ReadFlashId(dev: NvmeDevice, variant: Detect.RtlVariant) returns (r: Result<FlashIdResult>)
    modifies dev
    ensures r == Protocol(dev, old(dev.submitted), variant).result
    ensures dev.submitted == old(dev.submitted) + Protocol(dev, old(dev.submitted), variant).issued
  {
    var variants := Attempts(variant);
    ghost var sent: seq<Submission> := [];
    for i := 0 to |variants|
      invariant dev.submitted == old(dev.submitted) + sent
      invariant Protocol(dev, old(dev.submitted), variant) == After(sent, TryFrom(dev, dev.submitted, variants[i..]))
    {
      ghost var h := dev.submitted;
      ghost var t := AttemptRun(dev, h, variants[i]);
      TryStep(dev, h, variants, i);
      var found := TryAttempt(dev, variants[i]);
      Concat(old(dev.submitted), sent, t.issued);
      if found.Some? {
        return Ok(found.value);
      }
      AfterAfter(sent, t.issued, TryFrom(dev, h + t.issued, variants[i + 1..]));
      sent := sent + t.issued;
    }
    assert variants[|variants|..] == [];
    return Err(NoFlashData);
  }

  /** The body of the attempt loop: unlock, skip on failure, read with the
      variant's dwords, and look for kept slots. */
  method TryAttempt(dev: NvmeDevice, a: Attempt) returns (found: Option<FlashIdResult>)
    modifies dev
    ensures found == AttemptRun(dev, old(dev.submitted), a).result
    ensures dev.submitted == old(dev.submitted) + AttemptRun(dev, old(dev.submitted), a).issued
  {
    ghost var h := dev.submitted;
    var u := dev.AdminNoData(0xFC, 0, 0, 0, 0, 0x0050FFFF, 0, 0);
    if u.Err? {
      return None;
    }
    var rd;
    match a.variant {
      case V1 => rd := dev.AdminRead(0xFA, 0, 0x80, 0, 0, 0x00410000, 0, 0, Zeros(BUF_LEN));
      case V2 => rd := dev.AdminRead(0xFA, 0, 0x80, 0, 0xAFF03860, 0x00010001, 0, 0, Zeros(BUF_LEN));
    }
    assert rd == dev.Answer(h + [UNLOCK], ReadFor(a.variant), Zeros(BUF_LEN));
    assert dev.submitted == h + [UNLOCK, ReadFor(a.variant)];
    if rd.Err? {
      return None;
    }
    var banks := CollectSlots(rd.value.buf, 0, ID_LEN, MAX_BANKS, KEEP);
    if banks == [] {
      return None;
    }
    return Some(FlashIdResult(a.name, banks));
  }

  /** `TryFrom` on the attempts from `i` on, one attempt unfolded. */
  lemma TryStep(dev: NvmeDevice, h: seq<Submission>, atts: seq<Attempt>, i: nat)
    requires i < |atts|
    ensures var t := AttemptRun(dev, h, atts[i]);
      TryFrom(dev, h, atts[i..]) ==
        if t.result.Some? then Session(Ok(t.result.value), t.issued)
        else After(t.issued, TryFrom(dev, h + t.issued, atts[i + 1..]))
  {
    assert atts[i..][0] == atts[i] && atts[i..][1..] == atts[i + 1..];
  }

  /** The 8 bytes of slot `i`. */
  function SlotBytes(buf: seq<bv8>, i: nat): seq<bv8>
    requires i < MAX_BANKS && |buf| == BUF_LEN
  {
    buf[ID_LEN * i..ID_LEN * i + ID_LEN]
  }

  /** Every bank is a slot among the first 64 of the table, not empty and
      starting with one of the 18 known manufacturer ids, copied byte for byte
      and numbered by its slot; every such slot is reported. */
  lemma SlotBanksMeaning(buf: seq<bv8>)
    requires |buf| == BUF_LEN
    ensures ValidBanks(SlotBanks(buf))
    ensures forall k :: 0 <= k < |SlotBanks(buf)| ==>
      SlotBanks(buf)[k].bankNum < MAX_BANKS && KnownSlot(SlotBanks(buf)[k].flashId) &&
      SlotBanks(buf)[k].flashId == SlotBytes(buf, SlotBanks(buf)[k].bankNum)
    ensures forall i :: 0 <= i < MAX_BANKS && KnownSlot(SlotBytes(buf, i)) ==>
      exists k :: 0 <= k < |SlotBanks(buf)| && SlotBanks(buf)[k].bankNum == i
  {
    var banks := SlotBanks(buf);
    SkipScanMeaning(buf, 0, MAX_BANKS, KEEP);
    forall k | 0 <= k < |banks|
      ensures banks[k].flashId == SlotBytes(buf, banks[k].bankNum)
    {
      var n := banks[k].bankNum;
      assert SlotAt(buf, 0, ID_LEN, n) == Some(banks[k].flashId);
    }
    forall i | 0 <= i < MAX_BANKS && KnownSlot(SlotBytes(buf, i))
      ensures exists k :: 0 <= k < |banks| && banks[k].bankNum == i
    {
      assert SlotAt(buf, 0, ID_LEN, i).value == SlotBytes(buf, i);
    }
  }
}

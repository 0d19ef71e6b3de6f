/** The Maxio extractor: a prepare write and a bulk read give the page that
    names the controller; then, channel by channel and chip enable by chip
    enable, a prepare write selects one die and a read returns its flash id. */
module Maxio {
  import opened Base
  import opened Banks
  import opened Nvme

  const CHANNELS: nat := 8
  const CES: nat := 8
  const SLOTS: nat := 64
  const BULK_LEN: nat := 4096
  const FID_LEN: nat := 512

  /** The 512-byte payload of a 0xC1 write: 0xFF 0xE5, the sub-command, the
      channel and the chip enable, then zeros. */
  function C1Payload(subcmd: bv8, channel: bv8, ce: bv8): (p: seq<bv8>)
    ensures |p| == 512
    ensures p[0] == 0xFF && p[1] == 0xE5 && p[2] == subcmd && p[3] == channel && p[4] == ce
    ensures forall i :: 5 <= i < 512 ==> p[i] == 0
  {
    Zeros(512)[0 := 0xFF][1 := 0xE5][2 := subcmd][3 := channel][4 := ce]
  }

  /** `send_c1`: vendor write 0xC1 of the payload, cdw10 0x80, cdw12 0x001234FF, cdw13 1. */
  function Prepare(subcmd: bv8, channel: bv8, ce: bv8): Submission
  {
    WriteSubmission(0xC1, 0, 0x80, 0, 0x001234FF, 0x01, 0, 0, C1Payload(subcmd, channel, ce))
  }

  /** The prepare before the bulk read: sub-command 0x86. */
  const BULK_PREPARE := Prepare(0x86, 0, 0)

  /** The bulk read: 0xC2, cdw10 0x400, cdw12 0x123486, cdw13 8, into 4096 bytes. */
  const BULK_READ := ReadSubmission(0xC2, 0, 0x400, 0, 0x123486, 0x08, 0, 0, BULK_LEN)

  /** The per-die read: 0xC2, cdw10 0x80, cdw12 0x123436, cdw13 1, into 512 bytes. */
  const SLOT_READ := ReadSubmission(0xC2, 0, 0x80, 0, 0x123436, 0x01, 0, 0, FID_LEN)

  /** The channel and chip-enable numbers as bytes. */
  const BYTE_OF: seq<bv8> := [0, 1, 2, 3, 4, 5, 6, 7]

  /** The prepare that selects a die: sub-command 0x36, the channel and the chip enable. */
  function DiePrepare(ch: nat, ce: nat): Submission
    requires ch < CHANNELS && ce < CES
  {
    Prepare(0x36, BYTE_OF[ch], BYTE_OF[ce])
  }

  /* ---------------------------------------------------------------- name */

  const MODELS: seq<string> := [",MAP1602", ",MAP1601", ",MAP1202", ",MAP1201", ",MAP1003", ",MAP1002", ",MAP1001"]
  const DEFAULT_NAME := "Maxio MAP"

  /** The page as text: graphic characters and spaces kept, every other byte a NUL. */
  function NameText(buf: seq<bv8>): (t: string)
    ensures |t| == |buf|
    ensures forall i :: 0 <= i < |buf| ==> t[i] == if IsPrintable(buf[i]) then buf[i] as char else '\0'
  {
    seq(|buf|, i requires 0 <= i < |buf| => if IsPrintable(buf[i]) then buf[i] as char else '\0')
  }

  /** `extract_controller_name`: the first model, in list order, found in the
      page's text, without its leading comma; "Maxio MAP" when none is. */
  function ControllerName(buf: seq<bv8>): string
  {
    var k := FirstOccurring(MODELS, NameText(buf));
    if k.None? then DEFAULT_NAME else MODELS[k.value][1..]
  }

  lemma ModelNames(k: nat)
    requires k < |MODELS|
    ensures |MODELS[k]| == 8 && MODELS[k][1..] != DEFAULT_NAME
  {
  }

  /** The name is the default exactly when no model occurs in the page. */
  lemma ControllerNameDefault(buf: seq<bv8>)
    ensures ControllerName(buf) == DEFAULT_NAME <==> forall k :: 0 <= k < |MODELS| ==> !Contains(NameText(buf), MODELS[k])
  {
    var r := FirstOccurring(MODELS, NameText(buf));
    if r.Some? {
      ModelNames(r.value);
    }
  }

  /** When model `k` is the first in the list to occur, the name is that
      model without its comma, and it is the text `extract_controller_name` slices out:
      the characters of the first match after its comma. */
  lemma ControllerNameIsSlice(buf: seq<bv8>, k: nat)
    requires k < |MODELS| && Contains(NameText(buf), MODELS[k])
    requires forall j :: 0 <= j < k ==> !Contains(NameText(buf), MODELS[j])
    ensures ControllerName(buf) == MODELS[k][1..]
    ensures var pos := Find(NameText(buf), MODELS[k]).value;
      ControllerName(buf) == NameText(buf)[pos + 1..pos + |MODELS[k]|]
  {
    var r := FirstOccurring(MODELS, NameText(buf));
    if r.None? {
      assert false;
    } else if r.value < k {
      assert false;
    } else if r.value > k {
      assert false;
    }
    ModelNames(k);
    SliceAfterFirst(NameText(buf), MODELS[k], Find(NameText(buf), MODELS[k]).value);
  }

  /** Dropping the first character of a match is slicing one further on. */
  lemma SliceAfterFirst(text: string, m: string, pos: nat)
    requires |m| >= 1 && OccursAt(text, m, pos)
    ensures text[pos + 1..pos + |m|] == m[1..]
  {
    assert text[pos..pos + |m|] == m;
    assert forall i :: pos + 1 <= i < pos + |m| ==> text[i] == text[pos..pos + |m|][i - pos];
  }

  /* ---------------------------------------------------------------- banks */

  /** What one die's turn yields: whether its read succeeded (the bank
      number advances exactly then) and the bank it reports. */
  datatype Step = Step(read: bool, bank: Option<FlashBank>)

  /** Die (`ch`, `ce`) after history `h`, with `bankNum` the next bank number:
      a failed prepare or read skips the die; a successful read reports its
      first 8 bytes unless they are empty. */
  function DieRun(dev: NvmeDevice, h: seq<Submission>, ch: nat, ce: nat, bankNum: nat): (t: Session<Step, Submission>)
    requires ch < CHANNELS && ce < CES
    ensures t.result.bank.Some? ==> t.result.read && t.result.bank.value.bankNum == bankNum
    ensures t.result.bank.Some? ==> Reported(t.result.bank.value)
  {
    var p := DiePrepare(ch, ce);
    if dev.Answer(h, p, []).Err? then Session(Step(false, None), [p])
    else
      var rd := dev.Answer(h + [p], SLOT_READ, Zeros(FID_LEN));
      if rd.Err? then Session(Step(false, None), [p, SLOT_READ])
      else
        var id := rd.value.buf[..ID_LEN];
        Session(Step(true, if IsBankEmpty(id) then None else Some(FlashBank(bankNum, id))), [p, SLOT_READ])
  }

  /** Every die gets its prepare; the read follows only a prepare that
      succeeded, and the bank number advances exactly when the read succeeds. */
  lemma DieRunIssues(dev: NvmeDevice, h: seq<Submission>, ch: nat, ce: nat, bankNum: nat)
    requires ch < CHANNELS && ce < CES
    ensures var t := DieRun(dev, h, ch, ce, bankNum);
      t.issued == if dev.Answer(h, DiePrepare(ch, ce), []).Err? then [DiePrepare(ch, ce)] else [DiePrepare(ch, ce), SLOT_READ]
    ensures var t := DieRun(dev, h, ch, ce, bankNum);
      t.result.read <==> |t.issued| == 2 && dev.Answer(h + [DiePrepare(ch, ce)], SLOT_READ, Zeros(FID_LEN)).Ok?
  {
  }

  /** The dies from (`ch`, `ce`) on, channel-major, with `bankNum` the next bank number. */
  function Scan(dev: NvmeDevice, h: seq<Submission>, ch: nat, ce: nat, bankNum: nat): Session<seq<FlashBank>, Submission>
    requires ce <= CES
    decreases CHANNELS - ch, CES - ce
  {
    if ch >= CHANNELS then Session([], [])
    else if ce == CES then Scan(dev, h, ch + 1, 0, bankNum)
    else
      var t := DieRun(dev, h, ch, ce, bankNum);
      var rest := Scan(dev, h + t.issued, ch, ce + 1, if t.result.read then bankNum + 1 else bankNum);
      Session(Opt(t.result.bank) + rest.result, t.issued + rest.issued)
  }

  /** The number of dies from (`ch`, `ce`) to the end of the scan. */
  function DiesLeft(ch: nat, ce: nat): nat
    requires ce <= CES
  {
    if ch >= CHANNELS then 0 else (7 - ch) * 8 + (8 - ce)
  }

  /** The banks of the scan are non-empty 8-byte ids, at most one per die
      left, numbered from `bankNum` on, strictly increasing and below
      `bankNum` plus the number of dies left. */
  lemma {:induction false} ScanNumbered(dev: NvmeDevice, h: seq<Submission>, ch: nat, ce: nat, bankNum: nat)
    requires ce <= CES
    ensures Numbered(Scan(dev, h, ch, ce, bankNum).result, bankNum, DiesLeft(ch, ce))
    decreases CHANNELS - ch, CES - ce
  {
    if ch >= CHANNELS {
      assert Scan(dev, h, ch, ce, bankNum).result == [];
    } else if ce == CES {
      ScanNext(dev, h, ch, bankNum);
      ScanNumbered(dev, h, ch + 1, 0, bankNum);
    } else {
      var t := DieRun(dev, h, ch, ce, bankNum);
      var next := if t.result.read then bankNum + 1 else bankNum;
      var rest := Scan(dev, h + t.issued, ch, ce + 1, next);
      ScanDie(dev, h, ch, ce, bankNum);
      ScanNumbered(dev, h + t.issued, ch, ce + 1, next);
      Prepend(t.result.bank, rest.result, bankNum, next, DiesLeft(ch, ce));
    }
  }

  /** So the scan from the first die yields valid banks, at most 64. */
  lemma ScanBanksValid(dev: NvmeDevice, h: seq<Submission>)
    ensures |Scan(dev, h, 0, 0, 0).result| <= SLOTS
    ensures ValidBanks(Scan(dev, h, 0, 0, 0).result)
  {
    ScanNumbered(dev, h, 0, 0, 0);
    NumberedValid(Scan(dev, h, 0, 0, 0).result, 0, DiesLeft(0, 0));
  }

  /* ------------------------------------------------------------- protocol */

  type Run = Session<Result<FlashIdResult>, Submission>

  /** `read_flash_id`: a failed bulk prepare or bulk read is the error and
      ends the exchange; otherwise the name of the bulk page and the banks
      of the die scan, which sends its own commands after the bulk read. */
  function Protocol(dev: NvmeDevice, h: seq<Submission>): (run: Run)
    ensures run.result.Err? <==> dev.Answer(h, BULK_PREPARE, []).Err? || dev.Answer(h + [BULK_PREPARE], BULK_READ, Zeros(BULK_LEN)).Err?
    ensures 1 <= |run.issued| && run.issued[0] == BULK_PREPARE
    ensures run.result.Ok? ==> |run.issued| >= 2 && run.issued[1] == BULK_READ
  {
    if dev.Answer(h, BULK_PREPARE, []).Err? then Session(Err(dev.Answer(h, BULK_PREPARE, []).error), [BULK_PREPARE])
    else
      var bulk := dev.Answer(h + [BULK_PREPARE], BULK_READ, Zeros(BULK_LEN));
      if bulk.Err? then Session(Err(bulk.error), [BULK_PREPARE, BULK_READ])
      else
        var s := Scan(dev, h + [BULK_PREPARE, BULK_READ], 0, 0, 0);
        Session(Ok(FlashIdResult(ControllerName(bulk.value.buf), s.result)), [BULK_PREPARE, BULK_READ] + s.issued)
  }

  method SendC1(dev: NvmeDevice, subcmd: bv8, channel: bv8, ce: bv8) returns (r: Result<Done>)
    modifies dev
    ensures dev.submitted == old(dev.submitted) + [Prepare(subcmd, channel, ce)]
    ensures r == dev.Answer(old(dev.submitted), Prepare(subcmd, channel, ce), [])
  {
    var buf := Zeros(512);
    buf := buf[0 := 0xFF];
    buf := buf[1 := 0xE5];
    buf := buf[2 := subcmd];
    buf := buf[3 := channel];
    buf := buf[4 := ce];
    r := dev.AdminWrite(0xC1, 0, 0x80, 0, 0x001234FF, 0x01, 0, 0, buf);
  }

  /** One die's turn of the scan loop: prepare, then read. */
  method ReadDie(dev: NvmeDevice, ch: nat, ce: nat, bankNum: nat) returns (step: Step)
    requires ch < CHANNELS && ce < CES
    modifies dev
    ensures step == DieRun(dev, old(dev.submitted), ch, ce, bankNum).result
    ensures dev.submitted == old(dev.submitted) + DieRun(dev, old(dev.submitted), ch, ce, bankNum).issued
  {
    var p := SendC1(dev, 0x36, BYTE_OF[ch], BYTE_OF[ce]);
    if p.Err? {
      return Step(false, None);
    }
    var rd := dev.AdminRead(0xC2, 0, 0x80, 0, 0x123436, 0x01, 0, 0, Zeros(FID_LEN));
    if rd.Err? {
      return Step(false, None);
    }
    var id := rd.value.buf[..ID_LEN];
    if IsBankEmpty(id) {
      return Step(true, None);
    }
    return Step(true, Some(FlashBank(bankNum, id)));
  }

  method ReadFlashId(dev: NvmeDevice) returns (r: Result<FlashIdResult>)
    modifies dev
    ensures r == Protocol(dev, old(dev.submitted)).result
    ensures dev.submitted == old(dev.submitted) + Protocol(dev, old(dev.submitted)).issued
  {
    var p := SendC1(dev, 0x86, 0, 0);
    if p.Err? {
      return Err(p.error);
    }
    var bulk := dev.AdminRead(0xC2, 0, 0x400, 0, 0x123486, 0x08, 0, 0, Zeros(BULK_LEN));
    if bulk.Err? {
      return Err(bulk.error);
    }
    var name := ControllerName(bulk.value.buf);
    ghost var h0 := dev.submitted;
    TwoMore(old(dev.submitted), BULK_PREPARE, BULK_READ);
    var banks := ScanDies(dev);
    Concat(old(dev.submitted), [BULK_PREPARE, BULK_READ], Scan(dev, h0, 0, 0, 0).issued);
    return Ok(FlashIdResult(name, banks));
  }

  /** One die, then the rest of the channel. */
  lemma ScanDie(dev: NvmeDevice, h: seq<Submission>, ch: nat, ce: nat, bankNum: nat)
    requires ch < CHANNELS && ce < CES
    ensures var t := DieRun(dev, h, ch, ce, bankNum);
      Scan(dev, h, ch, ce, bankNum) ==
        Joined(Opt(t.result.bank), t.issued, Scan(dev, h + t.issued, ch, ce + 1, if t.result.read then bankNum + 1 else bankNum))
  {
  }

  /** One turn of the chip-enable loop: read die (`ch`, `ce`), push its bank
      if it has one, and advance the bank number if its read succeeded. */
  method ChannelTurn(dev: NvmeDevice, ghost h0: seq<Submission>, ch: nat, ghost bankNum: nat,
                     found: seq<FlashBank>, ghost sent: seq<Submission>, ce: nat, next: nat)
    returns (found': seq<FlashBank>, next': nat, ghost sent': seq<Submission>)
    requires ch < CHANNELS && ce < CES
    requires dev.submitted == h0 + sent
    requires Scan(dev, h0, ch, 0, bankNum) == Joined(found, sent, Scan(dev, h0 + sent, ch, ce, next))
    modifies dev
    ensures dev.submitted == h0 + sent'
    ensures Scan(dev, h0, ch, 0, bankNum) == Joined(found', sent', Scan(dev, h0 + sent', ch, ce + 1, next'))
  {
    ghost var t := DieRun(dev, h0 + sent, ch, ce, next);
    ChannelStep(dev, h0, ch, bankNum, found, sent, ce, next);
    var step := ReadDie(dev, ch, ce, next);
    Concat(h0, sent, t.issued);
    found' := found + Opt(step.bank);
    next' := if step.read then next + 1 else next;
    sent' := sent + t.issued;
  }

  /** The chip-enable loop's invariant survives one die. */
  lemma ChannelStep(dev: NvmeDevice, h0: seq<Submission>, ch: nat, bankNum: nat,
                    found: seq<FlashBank>, sent: seq<Submission>, ce: nat, next: nat)
    requires ch < CHANNELS && ce < CES
    requires Scan(dev, h0, ch, 0, bankNum) == Joined(found, sent, Scan(dev, h0 + sent, ch, ce, next))
    ensures var t := DieRun(dev, h0 + sent, ch, ce, next);
      Scan(dev, h0, ch, 0, bankNum) ==
        Joined(found + Opt(t.result.bank), sent + t.issued,
               Scan(dev, h0 + (sent + t.issued), ch, ce + 1, if t.result.read then next + 1 else next))
  {
    var t := DieRun(dev, h0 + sent, ch, ce, next);
    var rest := Scan(dev, h0 + sent + t.issued, ch, ce + 1, if t.result.read then next + 1 else next);
    ScanDie(dev, h0 + sent, ch, ce, next);
    JoinJoin(found, sent, Opt(t.result.bank), t.issued, rest);
    Concat(h0, sent, t.issued);
  }

  /** Past the last chip enable the scan goes on with the next channel, and past the last channel it is over. */
  lemma ScanNext(dev: NvmeDevice, h: seq<Submission>, ch: nat, bankNum: nat)
    ensures Scan(dev, h, ch, CES, bankNum) == Scan(dev, h, ch + 1, 0, bankNum)
    ensures Scan(dev, h, CHANNELS, 0, bankNum) == Session([], [])
  {
  }

  /** The channel loop: `bank_num` starts at 0 and the dies are read channel by channel. */
  method ScanDies(dev: NvmeDevice) returns (banks: seq<FlashBank>)
    modifies dev
    ensures banks == Scan(dev, old(dev.submitted), 0, 0, 0).result
    ensures dev.submitted == old(dev.submitted) + Scan(dev, old(dev.submitted), 0, 0, 0).issued
  {
    ghost var h0 := dev.submitted;
    ghost var sent: seq<Submission> := [];
    banks := [];
    var bankNum := 0;
    JoinNone(Scan(dev, h0, 0, 0, 0));
    NothingSent(h0);
    for ch := 0 to CHANNELS
      invariant dev.submitted == h0 + sent
      invariant Scan(dev, h0, 0, 0, 0) == Joined(banks, sent, Scan(dev, h0 + sent, ch, 0, bankNum))
    {
      var found, next;
      ghost var more;
      found, next, more := ScanChannel(dev, ch, bankNum);
      JoinAfter(Scan(dev, h0, 0, 0, 0), banks, sent, Scan(dev, h0 + sent, ch, 0, bankNum), found, more,
                Scan(dev, h0 + sent + more, ch + 1, 0, next));
      Concat(h0, sent, more);
      banks := banks + found;
      bankNum := next;
      sent := sent + more;
    }
    ScanNext(dev, dev.submitted, CHANNELS, bankNum);
    JoinEnd(banks, sent);
  }

  /** The chip-enable loop of channel `ch`: `bank_num` advances on every
      successful read, and a non-empty id is pushed under the current number. */
  method ScanChannel(dev: NvmeDevice, ch: nat, bankNum: nat) returns (found: seq<FlashBank>, next: nat, ghost sent: seq<Submission>)
    requires ch < CHANNELS
    modifies dev
    ensures dev.submitted == old(dev.submitted) + sent
    ensures Scan(dev, old(dev.submitted), ch, 0, bankNum) == Joined(found, sent, Scan(dev, dev.submitted, ch + 1, 0, next))
  {
    ghost var h0 := dev.submitted;
    sent := [];
    found := [];
    next := bankNum;
    JoinNone(Scan(dev, h0, ch, 0, bankNum));
    NothingSent(h0);
    for ce := 0 to CES
      invariant dev.submitted == h0 + sent
      invariant Scan(dev, h0, ch, 0, bankNum) == Joined(found, sent, Scan(dev, h0 + sent, ch, ce, next))
    {
      found, next, sent := ChannelTurn(dev, h0, ch, bankNum, found, sent, ce, next);
    }
    ScanNext(dev, dev.submitted, ch, next);
  }

  /** The payload of the die prepare carries the channel and chip enable the loop is at. */
  lemma DiePrepareSelects(ch: nat, ce: nat)
    requires ch < CHANNELS && ce < CES
    ensures var p := DiePrepare(ch, ce).transfer.payload;
      p[2] == 0x36 && p[3] as int == ch && p[4] as int == ce
  {
    assert forall i :: 0 <= i < 8 ==> BYTE_OF[i] as int == i;
  }
}

/** The Phison extractor: every vendor command carries, in cdw15, a CRC of a
    64-byte template of its own fields. One read returns the system-info
    page, which must hold the "PhIsOnNo" signature; it names the controller
    and may carry the flash ids, and when it carries none eight per-bank reads
    follow. */
module Phison {
  import opened Base
  import opened Banks
  import opened Nvme
  import Detect

  /* ------------------------------------------------------------------ CRC */

  const TEMPLATE_LEN: nat := 64
  /** Only the first 60 bytes of the template enter the CRC. */
  const CRC_LEN: nat := 60

  /** One step of the MSB-first CRC-16 register with polynomial 0x1021. */
  function Shift(crc: bv16): bv16
  {
    if crc & 0x8000 != 0 then (crc << 1) ^ 0x1021 else crc << 1
  }

  function Shifts(crc: bv16, n: nat): bv16
    decreases n
  {
    if n == 0 then crc else Shifts(Shift(crc), n - 1)
  }

  /** One byte into the register: XOR it into the high byte, then eight steps. */
  function CrcByte(crc: bv16, b: bv8): bv16
  {
    Shifts(crc ^ ((b as bv16) << 8), 8)
  }

  /** The register after feeding `data` to it, front to back, from `crc`. */
  function CrcFrom(crc: bv16, data: seq<bv8>): bv16
    decreases |data|
  {
    if data == [] then crc else CrcFrom(CrcByte(crc, data[0]), data[1..])
  }

  /** CRC-16 with polynomial 0x1021, initial value 0 and no final XOR (the
      XMODEM parameters). */
  function Crc16(data: seq<bv8>): bv16
  {
    CrcFrom(0, data)
  }

  /** The last five bytes of the check string, from the register the first four leave. */
  lemma Crc16CheckTail()
    ensures CrcFrom(0xD789, [0x35, 0x36, 0x37, 0x38, 0x39]) == 0x31C3
  {
    assert CrcFrom(0x9015, [0x39]) == 0x31C3;
    assert CrcFrom(0x86D6, [0x38, 0x39]) == 0x31C3;
    assert CrcFrom(0x20E4, [0x37, 0x38, 0x39]) == 0x31C3;
    assert CrcFrom(0x546C, [0x36, 0x37, 0x38, 0x39]) == 0x31C3;
    assert CrcFrom(0xD789, [0x35, 0x36, 0x37, 0x38, 0x39]) == 0x31C3;
  }

  /** The catalogue check value of CRC-16/XMODEM: "123456789" gives 0x31C3. */
  lemma Crc16Check()
    ensures Crc16([0x31, 0x32, 0x33, 0x34, 0x35, 0x36, 0x37, 0x38, 0x39]) == 0x31C3
  {
    Crc16CheckTail();
    assert CrcFrom(0x9752, [0x34, 0x35, 0x36, 0x37, 0x38, 0x39]) == 0x31C3;
    assert CrcFrom(0x20B5, [0x33, 0x34, 0x35, 0x36, 0x37, 0x38, 0x39]) == 0x31C3;
    assert CrcFrom(0x2672, [0x32, 0x33, 0x34, 0x35, 0x36, 0x37, 0x38, 0x39]) == 0x31C3;
    assert CrcFrom(0x0000, [0x31, 0x32, 0x33, 0x34, 0x35, 0x36, 0x37, 0x38, 0x39]) == 0x31C3;
  }

  /** The two bytes of the CRC exchanged. */
  function Swap(crc: bv16): bv16
  {
    (crc >> 8) | ((crc & 0xFF) << 8)
  }

  /** Swapping twice gives the register back, so the CRC is recoverable from cdw15. */
  lemma SwapTwice(crc: bv16)
    ensures Swap(Swap(crc)) == crc
  {
  }

  /** `phison_crc`: the CRC of the first 60 bytes of the template, byte-swapped,
      in the upper half of a dword whose lower half is zero. */
  function PhisonCrc(template: seq<bv8>): uint32
    requires |template| == TEMPLATE_LEN
  {
    UpperHalf(Swap(Crc16(template[..CRC_LEN])))
  }

  /** `(x as u32) << 16`: the lower half of the result is zero and the upper half is `x`. */
  function UpperHalf(x: bv16): (r: uint32)
    ensures r as int % 0x1_0000 == 0 && r as int / 0x1_0000 == x as int
  {
    (x as int * 0x1_0000) as uint32
  }

  /** Bytes 60 to 63 of the template do not change the CRC. */
  lemma CrcIgnoresTail(a: seq<bv8>, b: seq<bv8>)
    requires |a| == TEMPLATE_LEN && |b| == TEMPLATE_LEN
    requires forall i :: 0 <= i < CRC_LEN ==> a[i] == b[i]
    ensures PhisonCrc(a) == PhisonCrc(b)
  {
    assert a[..CRC_LEN] == b[..CRC_LEN];
  }

  /** The body of `phison_crc`'s outer loop: one byte into the register, then
      its eight steps. */
  method FeedByte(crc0: bv16, b: bv8) returns (crc: bv16)
    ensures crc == CrcByte(crc0, b)
  {
    crc := crc0 ^ ((b as bv16) << 8);
    ghost var fed := crc;
    for k := 0 to 8
      invariant Shifts(fed, 8) == Shifts(crc, 8 - k)
    {
      if crc & 0x8000 != 0 {
        crc := (crc << 1) ^ 0x1021;
      } else {
        crc := crc << 1;
      }
    }
  }

  /** The outer loop of `phison_crc`: the register after the first 60 bytes. */
  method RegisterOver(buf: array<bv8>) returns (crc: bv16)
    requires buf.Length == TEMPLATE_LEN
    ensures crc == Crc16(buf[..CRC_LEN])
  {
    crc := 0;
    for i := 0 to CRC_LEN
      invariant CrcFrom(crc, buf[i..CRC_LEN]) == Crc16(buf[..CRC_LEN])
    {
      assert buf[i..CRC_LEN][1..] == buf[i + 1..CRC_LEN];
      crc := FeedByte(crc, buf[i]);
    }
  }

  /** `phison_crc`: the register over the first 60 bytes, its bytes swapped,
      shifted into the upper half of the dword. */
  method ComputeCrc(buf: array<bv8>) returns (r: uint32)
    requires buf.Length == TEMPLATE_LEN
    ensures r == PhisonCrc(buf[..])
  {
    var crc := RegisterOver(buf);
    assert buf[..][..CRC_LEN] == buf[..CRC_LEN];
    var swapped := (crc >> 8) | ((crc & 0xFF) << 8);
    r := UpperHalf(swapped);
  }

  /* ------------------------------------------------------------- template */

  /** `build_cmd`'s template: the opcode at byte 0, cdw10 at 0x28, cdw12 at
      0x30 and cdw13 at 0x34, each little-endian, and zeros elsewhere. */
  function Template(opcode: bv8, cdw10: uint32, cdw12: uint32, cdw13: uint32): seq<bv8>
  {
    Layout(opcode, Le32Bytes(cdw10), Le32Bytes(cdw12), Le32Bytes(cdw13))
  }

  /** 64 bytes: `opcode` first, `a` at 0x28, `b` at 0x30, `c` at 0x34, zero elsewhere. */
  function Layout(opcode: bv8, a: seq<bv8>, b: seq<bv8>, c: seq<bv8>): seq<bv8>
    requires |a| == 4 && |b| == 4 && |c| == 4
  {
    seq(TEMPLATE_LEN, i requires 0 <= i < TEMPLATE_LEN =>
      if i == 0 then opcode
      else if 0x28 <= i < 0x2C then a[i - 0x28]
      else if 0x30 <= i < 0x34 then b[i - 0x30]
      else if 0x34 <= i < 0x38 then c[i - 0x34]
      else 0)
  }

  /** The cdw15 a command carries: the CRC of the template of its own fields. */
  function Cdw15(opcode: bv8, cdw10: uint32, cdw12: uint32, cdw13: uint32): uint32
  {
    PhisonCrc(Template(opcode, cdw10, cdw12, cdw13))
  }

  /** `s` with the bytes from `at` on replaced by `d`. */
  function Splice(s: seq<bv8>, at: nat, d: seq<bv8>): (r: seq<bv8>)
    requires at + |d| <= |s|
    ensures |r| == |s|
    ensures forall i :: 0 <= i < |s| ==> r[i] == if at <= i < at + |d| then d[i - at] else s[i]
  {
    s[..at] + d + s[at + |d|..]
  }

  /** Splicing the three fields into a zeroed buffer that starts with the
      opcode gives the template's layout. */
  lemma SplicedTemplate(opcode: bv8, a: seq<bv8>, b: seq<bv8>, c: seq<bv8>)
    requires |a| == 4 && |b| == 4 && |c| == 4
    ensures Splice(Splice(Splice([opcode] + Zeros(63), 0x28, a), 0x30, b), 0x34, c) == Layout(opcode, a, b, c)
  {
    var s := Splice(Splice(Splice([opcode] + Zeros(63), 0x28, a), 0x30, b), 0x34, c);
    forall i | 0 <= i < TEMPLATE_LEN
      ensures s[i] == Layout(opcode, a, b, c)[i]
    {
    }
  }

  /** Writes the little-endian bytes of `x` at `at`, as `copy_from_slice` does. */
  method PutLe32(buf: array<bv8>, at: nat, x: uint32)
    requires at + 4 <= buf.Length
    modifies buf
    ensures buf[..] == Splice(old(buf[..]), at, Le32Bytes(x))
  {
    var bytes := Le32Bytes(x);
    for k := 0 to 4
      invariant forall i :: 0 <= i < buf.Length ==> buf[i] == if at <= i < at + k then bytes[i - at] else old(buf[i])
    {
      buf[at + k] := bytes[k];
    }
    assert buf[..] == Splice(old(buf[..]), at, bytes);
  }

  /** `build_cmd`: a zeroed 64-byte buffer filled field by field, then its CRC. */
  method BuildCmd(opcode: bv8, cdw10: uint32, cdw12: uint32, cdw13: uint32) returns (r: uint32)
    ensures r == Cdw15(opcode, cdw10, cdw12, cdw13)
  {
    var buf := new bv8[TEMPLATE_LEN](_ => 0);
    buf[0] := opcode;
    assert buf[..] == [opcode] + Zeros(63);
    PutLe32(buf, 0x28, cdw10);
    PutLe32(buf, 0x30, cdw12);
    PutLe32(buf, 0x34, cdw13);
    SplicedTemplate(opcode, Le32Bytes(cdw10), Le32Bytes(cdw12), Le32Bytes(cdw13));
    r := ComputeCrc(buf);
  }

  /* ------------------------------------------------------------- commands */

  const SYSINFO_LEN: nat := 4096
  const BANK_LEN: nat := 512
  const MAX_BANKS: nat := 8

  /** A vendor read 0xD2 whose cdw15 is the CRC of its own opcode, cdw10,
      cdw12 and cdw13 (zero); the other dwords are zero. */
  function Signed(cdw10: uint32, cdw12: uint32, len: nat): Submission
  {
    ReadSubmission(0xD2, 0, cdw10, 0, cdw12, 0, 0, Cdw15(0xD2, cdw10, cdw12, 0), len)
  }

  /** A command signed the way the firmware checks it. */
  predicate IsSigned(s: Submission)
  {
    s.cmd.cdw15 == Cdw15(s.cmd.opcode, s.cmd.cdw10, s.cmd.cdw12, s.cmd.cdw13)
  }

  /** The system-info read: cdw10 0x400, cdw12 0x80, into 4096 bytes. */
  const SYSINFO_READ := Signed(0x400, 0x80, SYSINFO_LEN)

  /** `(bank << 8) | 0x90`: the bank in the second byte, 0x90 in the first. */
  function BankCdw12(bank: nat): (c: uint32)
    requires bank < MAX_BANKS
    ensures c as int % 0x100 == 0x90 && c as int / 0x100 == bank
  {
    (bank * 0x100 + 0x90) as uint32
  }

  /** The per-bank read: cdw10 0x80, the bank in cdw12, into 512 bytes. */
  function BankRead(bank: nat): Submission
    requires bank < MAX_BANKS
  {
    Signed(0x80, BankCdw12(bank), BANK_LEN)
  }

  /** A signed vendor read 0xD2 into the caller's buffer. */
  predicate SignedRead(s: Submission)
  {
    s.cmd.opcode == 0xD2 && IsSigned(s) && s.transfer == FromDevice
  }

  /** Both kinds of read carry their own CRC and read into the caller's buffer. */
  lemma SignedReads(cdw10: uint32, cdw12: uint32, len: nat)
    ensures SignedRead(Signed(cdw10, cdw12, len))
  {
  }

  /* ------------------------------------------------------- sysinfo flash ids */

  /** Where E12 and later controllers keep 8-byte flash-id entries in the page. */
  const SYSINFO_OFFSETS: seq<nat> := [0x70, 0x78, 0x80, 0x88, 0x90, 0x98, 0xA0]

  /** The JEDEC manufacturer bytes `is_known_manufacturer` accepts. */
  const KNOWN_MAKERS: set<bv8> := {0x01, 0x04, 0x07, 0x20, 0x2C, 0x45, 0x4A, 0x51, 0x89, 0x92, 0x98, 0x9B,
                                  0xAD, 0xB5, 0xC2, 0xC8, 0xEC, 0xEF}

  /** An entry worth reporting: not blank and from a known manufacturer. */
  predicate Qualifies(c: seq<bv8>)
  {
    |c| == ID_LEN && !IsBankEmpty(c) && c[0] in KNOWN_MAKERS
  }

  /** `banks.iter().any(|b| b.flash_id == id)`. */
  predicate Holds(banks: seq<FlashBank>, id: seq<bv8>)
  {
    exists k :: 0 <= k < |banks| && banks[k].flashId == id
  }

  /** The entry at the `i`-th offset, unless it would run past the page. */
  function Candidate(buf: seq<bv8>, i: nat): (c: Option<seq<bv8>>)
    requires i < |SYSINFO_OFFSETS|
    ensures c.Some? ==> |c.value| == ID_LEN
  {
    var at := SYSINFO_OFFSETS[i];
    if at + ID_LEN > |buf| then None else Some(buf[at..at + ID_LEN])
  }

  /** The offsets from the `i`-th on, with `banks` collected so far. */
  function SysinfoScan(buf: seq<bv8>, i: nat, banks: seq<FlashBank>): seq<FlashBank>
    requires i <= |SYSINFO_OFFSETS|
    decreases |SYSINFO_OFFSETS| - i
  {
    if i == |SYSINFO_OFFSETS| then banks else SysinfoScan(buf, i + 1, SysinfoNext(buf, i, banks))
  }

  /** One offset: a qualifying entry not yet held is pushed, numbered by its position. */
  function SysinfoNext(buf: seq<bv8>, i: nat, banks: seq<FlashBank>): seq<FlashBank>
    requires i < |SYSINFO_OFFSETS|
  {
    var c := Candidate(buf, i);
    if c.Some? && Qualifies(c.value) && !Holds(banks, c.value) then banks + [FlashBank(|banks|, c.value)] else banks
  }

  /** `extract_sysinfo_flash_ids`: the banks, or nothing when none was found. */
  function SysinfoIds(buf: seq<bv8>): Option<seq<FlashBank>>
  {
    var banks := SysinfoScan(buf, 0, []);
    if banks == [] then None else Some(banks)
  }

  /** What the scan has established after the first `i` offsets. */
  predicate SysinfoSoFar(buf: seq<bv8>, i: nat, banks: seq<FlashBank>)
    requires i <= |SYSINFO_OFFSETS|
  {
    |banks| <= i &&
    (forall k :: 0 <= k < |banks| ==> banks[k].bankNum == k && Qualifies(banks[k].flashId)) &&
    (forall k :: 0 <= k < |banks| ==> exists t :: 0 <= t < i && Candidate(buf, t) == Some(banks[k].flashId)) &&
    (forall j, k :: 0 <= j < k < |banks| ==> banks[j].flashId != banks[k].flashId) &&
    (forall t :: 0 <= t < i && Candidate(buf, t).Some? && Qualifies(Candidate(buf, t).value) ==>
       Holds(banks, Candidate(buf, t).value))
  }

  /** One offset more keeps what the scan has established. */
  lemma SysinfoStep(buf: seq<bv8>, i: nat, banks: seq<FlashBank>)
    requires i < |SYSINFO_OFFSETS| && SysinfoSoFar(buf, i, banks)
    ensures SysinfoSoFar(buf, i + 1, SysinfoNext(buf, i, banks))
  {
    var c := Candidate(buf, i);
    if c.Some? && Qualifies(c.value) && !Holds(banks, c.value) {
      SysinfoPush(buf, i, banks, c.value);
    } else {
      assert SysinfoNext(buf, i, banks) == banks;
      SysinfoSkip(buf, i, banks);
    }
  }

  /** An entry that does not qualify or is already held changes nothing. */
  lemma SysinfoSkip(buf: seq<bv8>, i: nat, banks: seq<FlashBank>)
    requires i < |SYSINFO_OFFSETS| && SysinfoSoFar(buf, i, banks)
    requires Candidate(buf, i).None? || !Qualifies(Candidate(buf, i).value) || Holds(banks, Candidate(buf, i).value)
    ensures SysinfoSoFar(buf, i + 1, banks)
  {
    forall k | 0 <= k < |banks|
      ensures exists t :: 0 <= t < i + 1 && Candidate(buf, t) == Some(banks[k].flashId)
    {
      var t :| 0 <= t < i && Candidate(buf, t) == Some(banks[k].flashId);
    }
  }

  /** A new qualifying entry, pushed with the next number. */
  lemma SysinfoPush(buf: seq<bv8>, i: nat, banks: seq<FlashBank>, c: seq<bv8>)
    requires i < |SYSINFO_OFFSETS| && SysinfoSoFar(buf, i, banks)
    requires Candidate(buf, i) == Some(c) && Qualifies(c) && !Holds(banks, c)
    ensures SysinfoSoFar(buf, i + 1, banks + [FlashBank(|banks|, c)])
  {
    var more := banks + [FlashBank(|banks|, c)];
    assert more[|banks|].flashId == c;
    forall k | 0 <= k < |more|
      ensures more[k].bankNum == k && Qualifies(more[k].flashId)
      ensures exists t :: 0 <= t < i + 1 && Candidate(buf, t) == Some(more[k].flashId)
    {
      if k < |banks| {
        assert more[k] == banks[k];
        var t :| 0 <= t < i && Candidate(buf, t) == Some(banks[k].flashId);
      } else {
        assert Candidate(buf, i) == Some(more[k].flashId);
      }
    }
    forall j, k | 0 <= j < k < |more|
      ensures more[j].flashId != more[k].flashId
    {
      assert more[j] == banks[j];
      if k < |banks| {
        assert more[k] == banks[k];
      }
    }
    forall t | 0 <= t < i + 1 && Candidate(buf, t).Some? && Qualifies(Candidate(buf, t).value)
      ensures Holds(more, Candidate(buf, t).value)
    {
      if t < i {
        var k :| 0 <= k < |banks| && banks[k].flashId == Candidate(buf, t).value;
        assert more[k] == banks[k];
      }
    }
  }

  lemma {:induction false} SysinfoScanKeeps(buf: seq<bv8>, i: nat, banks: seq<FlashBank>)
    requires i <= |SYSINFO_OFFSETS| && SysinfoSoFar(buf, i, banks)
    ensures SysinfoSoFar(buf, |SYSINFO_OFFSETS|, SysinfoScan(buf, i, banks))
    decreases |SYSINFO_OFFSETS| - i
  {
    if i < |SYSINFO_OFFSETS| {
      SysinfoStep(buf, i, banks);
      SysinfoScanKeeps(buf, i + 1, SysinfoNext(buf, i, banks));
    }
  }

  /** The ids found in the page: numbered 0, 1, … in offset order, pairwise
      distinct, each a qualifying entry at one of the offsets, and every
      qualifying entry among them; nothing is found exactly when no entry
      qualifies. */
  lemma SysinfoIdsMeaning(buf: seq<bv8>)
    ensures SysinfoIds(buf).None? <==>
      forall t :: 0 <= t < |SYSINFO_OFFSETS| ==> Candidate(buf, t).None? || !Qualifies(Candidate(buf, t).value)
    ensures SysinfoIds(buf).Some? ==> SysinfoSoFar(buf, |SYSINFO_OFFSETS|, SysinfoIds(buf).value)
    ensures SysinfoIds(buf).Some? ==> ValidBanks(SysinfoIds(buf).value)
  {
    SysinfoScanKeeps(buf, 0, []);
    var banks := SysinfoScan(buf, 0, []);
    if banks != [] {
      assert exists t :: 0 <= t < |SYSINFO_OFFSETS| && Candidate(buf, t) == Some(banks[0].flashId);
    }
  }

  /** The loop of `extract_sysinfo_flash_ids`. */
  method ExtractSysinfoIds(buf: seq<bv8>) returns (r: Option<seq<FlashBank>>)
    ensures r == SysinfoIds(buf)
  {
    var banks: seq<FlashBank> := [];
    for i := 0 to |SYSINFO_OFFSETS|
      invariant SysinfoScan(buf, i, banks) == SysinfoScan(buf, 0, [])
    {
      var at := SYSINFO_OFFSETS[i];
      if at + ID_LEN > |buf| {
        continue;
      }
      var candidate := buf[at..at + ID_LEN];
      if !IsBankEmpty(candidate) && candidate[0] in KNOWN_MAKERS {
        if !Holds(banks, candidate) {
          banks := banks + [FlashBank(|banks|, candidate)];
        }
      }
    }
    if banks == [] {
      return None;
    }
    return Some(banks);
  }

  /* ------------------------------------------------------------- fallback */

  /** Every submission of `cmds` reads from the device. */
  predicate AllRead(cmds: seq<Submission>)
  {
    forall k :: 0 <= k < |cmds| ==> cmds[k].transfer == FromDevice
  }

  /** The bank the read `s` of bank `bank` reports after history `h`: the
      first eight bytes of the 512-byte buffer, when the read succeeds and
      they are not blank. */
  function BankTurn(dev: NvmeDevice, h: seq<Submission>, s: Submission, bank: nat): (b: Option<FlashBank>)
    requires s.transfer == FromDevice
    ensures b.Some? ==> b.value.bankNum == bank && Reported(b.value)
  {
    var a := dev.Answer(h, s, Zeros(BANK_LEN));
    if a.Err? || IsBankEmpty(a.value.buf[..ID_LEN]) then None
    else Some(FlashBank(bank, a.value.buf[..ID_LEN]))
  }

  /** The per-bank reads `cmds`, the first for bank `bank`: each is sent
      whatever the previous one gave, and a failed read only skips its bank. */
  function Fallback(dev: NvmeDevice, h: seq<Submission>, cmds: seq<Submission>, bank: nat): Session<seq<FlashBank>, Submission>
    requires AllRead(cmds)
    decreases |cmds|
  {
    if cmds == [] then Session([], [])
    else Joined(Opt(BankTurn(dev, h, cmds[0], bank)), [cmds[0]], Fallback(dev, h + [cmds[0]], cmds[1..], bank + 1))
  }

  /** The reads of banks 0 to 7, in bank order. */
  function BankReads(): (rs: seq<Submission>)
    ensures |rs| == MAX_BANKS && AllRead(rs)
  {
    seq(MAX_BANKS, k requires 0 <= k < MAX_BANKS => BankRead(k))
  }

  /** Every command of `cmds` is a signed vendor read. */
  predicate AllSigned(cmds: seq<Submission>)
  {
    forall k :: 0 <= k < |cmds| ==> SignedRead(cmds[k])
  }

  /** Every read the fallback sends is signed. */
  lemma BankReadsSigned()
    ensures AllSigned(BankReads())
  {
    forall k | 0 <= k < MAX_BANKS
      ensures SignedRead(BankReads()[k])
    {
      SignedReads(0x80, BankCdw12(k), BANK_LEN);
    }
  }

  /** The fallback sends exactly the cmds it is given, in order. */
  lemma {:induction false} FallbackIssued(dev: NvmeDevice, h: seq<Submission>, cmds: seq<Submission>, bank: nat)
    requires AllRead(cmds)
    ensures Fallback(dev, h, cmds, bank).issued == cmds
    decreases |cmds|
  {
    if cmds != [] {
      FallbackIssued(dev, h + [cmds[0]], cmds[1..], bank + 1);
      assert [cmds[0]] + cmds[1..] == cmds;
    }
  }

  /** The fallback reports non-empty 8-byte ids numbered by their bank, in bank order. */
  lemma {:induction false} FallbackNumbered(dev: NvmeDevice, h: seq<Submission>, cmds: seq<Submission>, bank: nat)
    requires AllRead(cmds)
    ensures Numbered(Fallback(dev, h, cmds, bank).result, bank, |cmds|)
    decreases |cmds|
  {
    if cmds != [] {
      var b := BankTurn(dev, h, cmds[0], bank);
      var rest := Fallback(dev, h + [cmds[0]], cmds[1..], bank + 1);
      FallbackNumbered(dev, h + [cmds[0]], cmds[1..], bank + 1);
      Prepend(b, rest.result, bank, bank + 1, |cmds|);
    }
  }

  /* ------------------------------------------------------- controller name */

  /** "PS50" and "PS31", the model tags the page may carry. */
  const PS50: seq<bv8> := [0x50, 0x53, 0x35, 0x30]
  const PS31: seq<bv8> := [0x50, 0x53, 0x33, 0x31]
  const NAME_MAX: nat := 16
  const DEFAULT_NAME: string := "Phison"

  /** Where a model name stops: NUL, a space, or any byte that is not graphic ASCII. */
  predicate Terminates(b: bv8) { b == 0 || b == 0x20 || !IsGraphic(b) }

  /** `min(n, 16)`. */
  function Capped(n: nat): (c: nat)
    ensures c <= NAME_MAX && c <= n && (c == n || c == NAME_MAX)
  {
    if n < NAME_MAX then n else NAME_MAX
  }

  /** A tag of graphic bytes at `w` holds off the first terminator from `w`
      until after the tag. */
  lemma TagRun(buf: seq<bv8>, w: nat, tag: seq<bv8>)
    requires OccursAt(buf, tag, w)
    requires forall i :: 0 <= i < |tag| ==> IsGraphic(tag[i])
    ensures forall e :: FirstIndexFrom(buf, Terminates, w) == Some(e) ==> e >= w + |tag|
  {
    forall e | FirstIndexFrom(buf, Terminates, w) == Some(e)
      ensures e >= w + |tag|
    {
    }
  }

  /** The bytes from `w` to `w + n` are graphic when no terminator lies among them. */
  predicate GraphicRun(buf: seq<bv8>, w: nat, n: nat)
    requires w + n <= |buf|
  {
    forall j :: w <= j < w + n ==> IsGraphic(buf[j])
  }

  /** The "PS50" window at `w` (a six-byte window, so the tag must end two
      bytes before the page does): the bytes from the tag to the first
      terminator after it, at most 16; no name when no terminator follows. */
  function Ps50At(buf: seq<bv8>, w: nat): (r: Option<seq<bv8>>)
    requires w + 6 <= |buf|
    ensures r.Some? <==> OccursAt(buf, PS50, w) && FirstIndexFrom(buf, Terminates, w).Some?
    ensures r.Some? ==> 4 <= |r.value| <= NAME_MAX && w + |r.value| <= |buf| && r.value == buf[w..w + |r.value|] && GraphicRun(buf, w, |r.value|)
    ensures r.Some? ==> |r.value| == Capped(FirstIndexFrom(buf, Terminates, w).value - w)
  {
    if buf[w..w + 4] != PS50 then None
    else match FirstIndexFrom(buf, Terminates, w)
      case None => None
      case Some(e) =>
        TagRun(buf, w, PS50);
        var name := buf[w..w + Capped(e - w)];
        if name == [] then None else Some(name)
  }

  /** The first "PS50" name from window `w` on. */
  function Ps50From(buf: seq<bv8>, w: nat): (r: Option<seq<bv8>>)
    decreases |buf| - w
    ensures r.Some? ==> exists v :: w <= v && v + 6 <= |buf| && Ps50At(buf, v) == r
    ensures r.None? <==> forall v :: w <= v && v + 6 <= |buf| ==> Ps50At(buf, v).None?
  {
    if w + 6 > |buf| then None
    else if Ps50At(buf, w).Some? then Ps50At(buf, w)
    else Ps50From(buf, w + 1)
  }

  /** What the "PS31" pass of `extract_controller_name` yields at one window:
      a name, no name, or a slice past the end of the page, where it panics. */
  datatype Pick = Picked(name: seq<bv8>) | NoPick | Overrun

  /** The "PS31" window at `w` as `extract_controller_name` writes it: without a terminator the
      length falls back to 16, and the slice is taken without checking that
      16 bytes remain. */
  function Ps31AtAsWritten(buf: seq<bv8>, w: nat): (p: Pick)
    requires w + 4 <= |buf|
    ensures p.Overrun? <==> OccursAt(buf, PS31, w) && FirstIndexFrom(buf, Terminates, w).None? && w + NAME_MAX > |buf|
    ensures !OccursAt(buf, PS31, w) ==> p.NoPick?
  {
    if buf[w..w + 4] != PS31 then NoPick
    else
      var end := match FirstIndexFrom(buf, Terminates, w) case Some(e) => Capped(e - w) case None => Capped(NAME_MAX);
      if w + end > |buf| then Overrun
      else if buf[w..w + end] == [] then NoPick
      else Picked(buf[w..w + end])
  }

  /** The first "PS31" outcome from window `w` on, as `extract_controller_name` writes it. */
  function Ps31FromAsWritten(buf: seq<bv8>, w: nat): (p: Pick)
    decreases |buf| - w
    ensures !p.NoPick? ==> exists v :: w <= v && v + 4 <= |buf| && Ps31AtAsWritten(buf, v) == p
    ensures p.NoPick? <==> forall v :: w <= v && v + 4 <= |buf| ==> Ps31AtAsWritten(buf, v).NoPick?
  {
    if w + 4 > |buf| then NoPick
    else if !Ps31AtAsWritten(buf, w).NoPick? then Ps31AtAsWritten(buf, w)
    else Ps31FromAsWritten(buf, w + 1)
  }

  /** The "PS31" window at `w` with the length clamped to the page: the bytes
      from the tag to the first terminator, to the end of the page, or 16,
      whichever comes first. */
  function Ps31At(buf: seq<bv8>, w: nat): (r: Option<seq<bv8>>)
    requires w + 4 <= |buf|
    ensures r.Some? <==> OccursAt(buf, PS31, w)
    ensures r.Some? ==> 4 <= |r.value| <= NAME_MAX && w + |r.value| <= |buf| && r.value == buf[w..w + |r.value|] && GraphicRun(buf, w, |r.value|)
    ensures r.Some? && |r.value| < NAME_MAX ==> w + |r.value| == |buf| || Terminates(buf[w + |r.value|])
  {
    if buf[w..w + 4] != PS31 then None
    else
      TagRun(buf, w, PS31);
      var end := match FirstIndexFrom(buf, Terminates, w) case Some(e) => Capped(e - w) case None => Capped(|buf| - w);
      if buf[w..w + end] == [] then None
      else Some(buf[w..w + end])
  }

  /** The first "PS31" name from window `w` on. */
  function Ps31From(buf: seq<bv8>, w: nat): (r: Option<seq<bv8>>)
    decreases |buf| - w
    ensures r.Some? ==> exists v :: w <= v && v + 4 <= |buf| && Ps31At(buf, v) == r
    ensures r.None? <==> forall v :: w <= v && v + 4 <= |buf| ==> Ps31At(buf, v).None?
  {
    if w + 4 > |buf| then None
    else if Ps31At(buf, w).Some? then Ps31At(buf, w)
    else Ps31From(buf, w + 1)
  }

  /** `extract_controller_name` with the "PS31" slice clamped: a "PS50" name
      first, then a "PS31" name, else "Phison". */
  function ControllerName(buf: seq<bv8>): (name: string)
    ensures name == DEFAULT_NAME || 4 <= |name| <= NAME_MAX
  {
    match Ps50From(buf, 0)
    case Some(n) => Text(n)
    case None =>
      match Ps31From(buf, 0)
      case Some(n) => Text(n)
      case None => DEFAULT_NAME
  }

  /** `extract_controller_name` as ssd-flash-id writes it, with the panic as `Overrun`. */
  function ControllerNameAsWritten(buf: seq<bv8>): Pick
  {
    match Ps50From(buf, 0)
    case Some(n) => Picked(n)
    case None =>
      match Ps31FromAsWritten(buf, 0)
      case NoPick => Picked(DEFAULT_NAME_BYTES)
      case p => p
  }

  const DEFAULT_NAME_BYTES: seq<bv8> := [0x50, 0x68, 0x69, 0x73, 0x6F, 0x6E]

  /** Where the as-written window yields a name or none, the clamped window
      agrees; where it overruns, the clamped window yields the rest of the page. */
  lemma Ps31AtAgrees(buf: seq<bv8>, w: nat)
    requires w + 4 <= |buf|
    ensures Ps31AtAsWritten(buf, w).NoPick? <==> Ps31At(buf, w).None?
    ensures Ps31AtAsWritten(buf, w).Picked? ==> Ps31At(buf, w) == Some(Ps31AtAsWritten(buf, w).name)
    ensures Ps31AtAsWritten(buf, w).Overrun? ==> Ps31At(buf, w) == Some(buf[w..])
  {
    if OccursAt(buf, PS31, w) {
      TagRun(buf, w, PS31);
      if Ps31AtAsWritten(buf, w).Overrun? {
        assert Capped(|buf| - w) == |buf| - w;
        assert buf[w..w + (|buf| - w)] == buf[w..];
      }
    }
  }

  /** The same for the whole pass: the clamped pass differs from the
      as-written one only where that overruns, and then names a tail shorter than 16. */
  lemma {:induction false} Ps31FromAgrees(buf: seq<bv8>, w: nat)
    decreases |buf| - w
    ensures Ps31FromAsWritten(buf, w).NoPick? <==> Ps31From(buf, w).None?
    ensures Ps31FromAsWritten(buf, w).Picked? ==> Ps31From(buf, w) == Some(Ps31FromAsWritten(buf, w).name)
    ensures Ps31FromAsWritten(buf, w).Overrun? ==> Ps31From(buf, w).Some? && |Ps31From(buf, w).value| < NAME_MAX
  {
    if w + 4 <= |buf| {
      Ps31AtAgrees(buf, w);
      if Ps31AtAsWritten(buf, w).NoPick? {
        Ps31FromAgrees(buf, w + 1);
      }
    }
  }

  /** A name found in the page: its tag followed by graphic bytes. */
  lemma FoundName(buf: seq<bv8>, v: nat, tag: seq<bv8>, n: seq<bv8>)
    requires |tag| == 4 && tag[1] == 0x53
    requires OccursAt(buf, tag, v) && 4 <= |n| && v + |n| <= |buf| && n == buf[v..v + |n|] && GraphicRun(buf, v, |n|)
    ensures Text(n)[..4] == Text(tag) && Text(n) != DEFAULT_NAME
    ensures forall i :: 0 <= i < |n| ==> '!' <= Text(n)[i] <= '~'
  {
    assert n[..4] == tag;
    assert Text(n)[1] == 'S';
    forall i | 0 <= i < |n|
      ensures '!' <= Text(n)[i] <= '~'
    {
      assert IsGraphic(buf[v + i]);
    }
  }

  /** A "PS50" name starts with "PS50" and is graphic ASCII. */
  lemma Ps50Name(buf: seq<bv8>, v: nat)
    requires v + 6 <= |buf| && Ps50At(buf, v).Some?
    ensures Text(Ps50At(buf, v).value)[..4] == "PS50" && Text(Ps50At(buf, v).value) != DEFAULT_NAME
    ensures forall i :: 0 <= i < |Ps50At(buf, v).value| ==> '!' <= Text(Ps50At(buf, v).value)[i] <= '~'
  {
    TagTexts();
    FoundName(buf, v, PS50, Ps50At(buf, v).value);
  }

  /** A "PS31" name starts with "PS31" and is graphic ASCII. */
  lemma Ps31Name(buf: seq<bv8>, v: nat)
    requires v + 4 <= |buf| && Ps31At(buf, v).Some?
    ensures Text(Ps31At(buf, v).value)[..4] == "PS31" && Text(Ps31At(buf, v).value) != DEFAULT_NAME
    ensures forall i :: 0 <= i < |Ps31At(buf, v).value| ==> '!' <= Text(Ps31At(buf, v).value)[i] <= '~'
  {
    TagTexts();
    FoundName(buf, v, PS31, Ps31At(buf, v).value);
  }

  lemma TagTexts()
    ensures Text(PS50) == "PS50" && Text(PS31) == "PS31" && Text(DEFAULT_NAME_BYTES) == DEFAULT_NAME
  {
  }

  /** The name is a "PS50" name when the page has one, else a "PS31" name,
      else "Phison". */
  lemma ControllerNameChoice(buf: seq<bv8>)
    ensures ControllerName(buf) == DEFAULT_NAME <==> Ps50From(buf, 0).None? && Ps31From(buf, 0).None?
    ensures Ps50From(buf, 0).Some? ==> ControllerName(buf) == Text(Ps50From(buf, 0).value)
    ensures Ps50From(buf, 0).None? && Ps31From(buf, 0).Some? ==> ControllerName(buf) == Text(Ps31From(buf, 0).value)
  {
    if Ps50From(buf, 0).Some? {
      var v :| 0 <= v && v + 6 <= |buf| && Ps50At(buf, v) == Ps50From(buf, 0);
      Ps50Name(buf, v);
    } else if Ps31From(buf, 0).Some? {
      var v :| 0 <= v && v + 4 <= |buf| && Ps31At(buf, v) == Ps31From(buf, 0);
      Ps31Name(buf, v);
    }
  }

  /** A found name starts with its tag and is graphic ASCII. */
  lemma ControllerNameShape(buf: seq<bv8>)
    ensures ControllerName(buf) != DEFAULT_NAME ==>
      (ControllerName(buf)[..4] == "PS50" || ControllerName(buf)[..4] == "PS31") &&
      forall i :: 0 <= i < |ControllerName(buf)| ==> '!' <= ControllerName(buf)[i] <= '~'
  {
    if Ps50From(buf, 0).Some? {
      var v :| 0 <= v && v + 6 <= |buf| && Ps50At(buf, v) == Ps50From(buf, 0);
      Ps50Name(buf, v);
    } else if Ps31From(buf, 0).Some? {
      var v :| 0 <= v && v + 4 <= |buf| && Ps31At(buf, v) == Ps31From(buf, 0);
      Ps31Name(buf, v);
    }
  }

  /** The as-written `extract_controller_name` names every page the clamped one names alike, except
      where its "PS31" slice overruns; the clamped name there is a "PS31"
      name shorter than 16 bytes. */
  lemma ControllerNameAgrees(buf: seq<bv8>)
    ensures !ControllerNameAsWritten(buf).NoPick?
    ensures ControllerNameAsWritten(buf).Picked? ==> Text(ControllerNameAsWritten(buf).name) == ControllerName(buf)
    ensures ControllerNameAsWritten(buf).Overrun? ==>
      Ps50From(buf, 0).None? && ControllerName(buf)[..4] == "PS31" && |ControllerName(buf)| < NAME_MAX
  {
    TagTexts();
    Ps31FromAgrees(buf, 0);
    if Ps50From(buf, 0).None? && Ps31From(buf, 0).Some? {
      var v :| 0 <= v && v + 4 <= |buf| && Ps31At(buf, v) == Ps31From(buf, 0);
      Ps31Name(buf, v);
    }
  }

  /** No "PS50" window where no byte before the last is '5'. */
  lemma NoPs50(buf: seq<bv8>)
    requires forall j :: 0 <= j < |buf| - 1 ==> buf[j] != 0x35
    ensures Ps50From(buf, 0).None?
  {
    forall v: nat | v + 6 <= |buf|
      ensures Ps50At(buf, v).None?
    {
      assert buf[v..v + 4][2] != PS50[2];
      assert !OccursAt(buf, PS50, v);
    }
  }

  /** "PS31" in the last four bytes, and no '1' before it: the only "PS31"
      window is the last, and no terminator follows its tag. */
  lemma OnlyLastPs31(buf: seq<bv8>)
    requires |buf| >= 4 && buf[|buf| - 4..] == PS31
    requires forall j :: 0 <= j < |buf| - 1 ==> buf[j] != 0x31
    ensures forall v: nat :: v + 4 <= |buf| ==> (OccursAt(buf, PS31, v) <==> v == |buf| - 4)
    ensures FirstIndexFrom(buf, Terminates, |buf| - 4).None?
  {
    var last := |buf| - 4;
    forall v: nat | v + 4 <= |buf| && v != last
      ensures !OccursAt(buf, PS31, v)
    {
      assert buf[v..v + 4][3] != PS31[3];
    }
    assert OccursAt(buf, PS31, last);
  }

  /** Then the as-written "PS31" pass overruns the page. */
  lemma LastPs31AsWritten(buf: seq<bv8>)
    requires |buf| >= 4 && buf[|buf| - 4..] == PS31
    requires forall j :: 0 <= j < |buf| - 1 ==> buf[j] != 0x31
    ensures Ps31FromAsWritten(buf, 0) == Overrun
  {
    var last := |buf| - 4;
    OnlyLastPs31(buf);
    assert Ps31AtAsWritten(buf, last) == Overrun;
    var p := Ps31FromAsWritten(buf, 0);
    assert !p.NoPick?;
    var u :| 0 <= u && u + 4 <= |buf| && Ps31AtAsWritten(buf, u) == p;
    assert OccursAt(buf, PS31, u);
  }

  /** And the clamped pass names the page "PS31". */
  lemma LastPs31Clamped(buf: seq<bv8>)
    requires |buf| >= 4 && buf[|buf| - 4..] == PS31
    requires forall j :: 0 <= j < |buf| - 1 ==> buf[j] != 0x31
    ensures Ps31From(buf, 0) == Some(PS31)
  {
    var last := |buf| - 4;
    OnlyLastPs31(buf);
    assert Capped(|buf| - last) == 4;
    assert buf[last..last + 4] == PS31;
    assert Ps31At(buf, last) == Some(PS31);
    assert Ps31From(buf, 0).Some?;
    var u :| 0 <= u && u + 4 <= |buf| && Ps31At(buf, u) == Ps31From(buf, 0);
    assert Ps31At(buf, u).Some?;
    assert u == last;
  }

  /** A page `extract_controller_name` cannot name: the Phison signature, zeros, and "PS31"
      in its last four bytes. No "PS50" occurs, the "PS31" tag has no
      terminator after it, and the as-written pass slices 16 bytes from 4092 in a
      page of 4096; the clamped pass names it "PS31". */
  lemma Ps31Overrun()
    ensures var buf := Detect.PHISON_MAGIC + Zeros(SYSINFO_LEN - 12) + PS31;
      |buf| == SYSINFO_LEN && Contains(buf, Detect.PHISON_MAGIC) &&
      ControllerNameAsWritten(buf) == Overrun && ControllerName(buf) == "PS31"
  {
    var buf := Detect.PHISON_MAGIC + Zeros(SYSINFO_LEN - 12) + PS31;
    var last := SYSINFO_LEN - 4;
    assert buf[..8] == Detect.PHISON_MAGIC;
    assert OccursAt(buf, Detect.PHISON_MAGIC, 0);
    assert buf[last..] == PS31;
    forall j | 0 <= j < last + 3
      ensures buf[j] != 0x31 && buf[j] != 0x35
    {
      if j < 8 {
        assert buf[j] == Detect.PHISON_MAGIC[j];
      } else if j < last {
        assert buf[j] == Zeros(SYSINFO_LEN - 12)[j - 8];
      } else {
        assert buf[j] == PS31[j - last];
      }
    }
    NoPs50(buf);
    LastPs31AsWritten(buf);
    LastPs31Clamped(buf);
    TagTexts();
  }

  /* -------------------------------------------------------------- protocol */

  type Run = Session<Result<FlashIdResult>, Submission>

  /** The banks the system-info page names, or none. */
  function PageBanks(buf: seq<bv8>): (banks: seq<FlashBank>)
    ensures banks == [] <==> SysinfoIds(buf).None?
  {
    match SysinfoIds(buf) case Some(b) => b case None => []
  }

  /** What `read_flash_id` does once the system-info read has answered `a`,
      given the session `fb` the per-bank fallback would run after it: the
      read's failure, or a page without the Phison signature, is the error;
      otherwise the name comes from the page and the banks from the page's
      flash-id table, and only when that names none from the fallback, whose
      reads are then sent. */
  function Conclude(a: Result<Done>, fb: Session<seq<FlashBank>, Submission>): Run
  {
    if a.Err? then Session(Err(a.error), [SYSINFO_READ])
    else if !Contains(a.value.buf, Detect.PHISON_MAGIC) then Session(Err(Mismatch), [SYSINFO_READ])
    else if PageBanks(a.value.buf) != [] then
      Session(Ok(FlashIdResult(ControllerName(a.value.buf), PageBanks(a.value.buf))), [SYSINFO_READ])
    else Session(Ok(FlashIdResult(ControllerName(a.value.buf), fb.result)), [SYSINFO_READ] + fb.issued)
  }

  /** `read_flash_id`: the signed system-info read, then the per-bank reads
      of banks 0 to 7 when the page names no bank. */
  function Protocol(dev: NvmeDevice, h: seq<Submission>): Run
  {
    Conclude(dev.Answer(h, SYSINFO_READ, Zeros(SYSINFO_LEN)), Fallback(dev, h + [SYSINFO_READ], BankReads(), 0))
  }

  /** One turn of the fallback loop: build the bank's signature, read 512
      bytes, and keep the first eight when the read succeeds and they are not blank. */
  method ReadBank(dev: NvmeDevice, bank: nat) returns (b: Option<FlashBank>)
    requires bank < MAX_BANKS
    modifies dev
    ensures b == BankTurn(dev, old(dev.submitted), BankRead(bank), bank)
    ensures dev.submitted == old(dev.submitted) + [BankRead(bank)]
  {
    var cdw12 := BankCdw12(bank);
    var cdw15 := BuildCmd(0xD2, 0x80, cdw12, 0);
    var a := dev.AdminRead(0xD2, 0, 0x80, 0, cdw12, 0, 0, cdw15, Zeros(BANK_LEN));
    if a.Ok? {
      var id := a.value.buf[..ID_LEN];
      if !IsBankEmpty(id) {
        return Some(FlashBank(bank, id));
      }
    }
    return None;
  }

  /** The fallback from bank `bank` is that bank's turn, then the rest. */
  lemma FallbackStep(dev: NvmeDevice, h: seq<Submission>, bank: nat)
    requires bank < MAX_BANKS
    ensures Fallback(dev, h, BankReads()[bank..], bank) ==
      Joined(Opt(BankTurn(dev, h, BankRead(bank), bank)), [BankRead(bank)],
             Fallback(dev, h + [BankRead(bank)], BankReads()[bank + 1..], bank + 1))
  {
    var rs := BankReads()[bank..];
    assert rs[0] == BankRead(bank);
    assert rs[1..] == BankReads()[bank + 1..];
  }

  /** The fallback loop's invariant before bank `bank`: the banks found and
      the reads sent so far, followed by the fallback from `bank` on, make
      up the whole fallback. */
  predicate FallbackSoFar(dev: NvmeDevice, h0: seq<Submission>, banks: seq<FlashBank>, sent: seq<Submission>, bank: nat)
    requires bank <= MAX_BANKS
  {
    Fallback(dev, h0, BankReads(), 0) == Joined(banks, sent, Fallback(dev, h0 + sent, BankReads()[bank..], bank))
  }

  /** One bank's turn keeps the invariant. */
  lemma FallbackAdvance(dev: NvmeDevice, h0: seq<Submission>, banks: seq<FlashBank>, sent: seq<Submission>, bank: nat)
    requires bank < MAX_BANKS && FallbackSoFar(dev, h0, banks, sent, bank)
    ensures FallbackSoFar(dev, h0, banks + Opt(BankTurn(dev, h0 + sent, BankRead(bank), bank)), sent + [BankRead(bank)], bank + 1)
  {
    FallbackStep(dev, h0 + sent, bank);
    JoinAfter(Fallback(dev, h0, BankReads(), 0), banks, sent, Fallback(dev, h0 + sent, BankReads()[bank..], bank),
              Opt(BankTurn(dev, h0 + sent, BankRead(bank), bank)), [BankRead(bank)],
              Fallback(dev, h0 + sent + [BankRead(bank)], BankReads()[bank + 1..], bank + 1));
    Concat(h0, sent, [BankRead(bank)]);
  }

  /** The loop of the fallback over banks 0 to 7. */
  method FallbackReads(dev: NvmeDevice) returns (banks: seq<FlashBank>)
    modifies dev
    ensures banks == Fallback(dev, old(dev.submitted), BankReads(), 0).result
    ensures dev.submitted == old(dev.submitted) + Fallback(dev, old(dev.submitted), BankReads(), 0).issued
  {
    ghost var h0 := dev.submitted;
    ghost var sent: seq<Submission> := [];
    banks := [];
    assert BankReads()[0..] == BankReads();
    JoinNone(Fallback(dev, h0, BankReads(), 0));
    NothingSent(h0);
    for bank := 0 to MAX_BANKS
      invariant dev.submitted == h0 + sent
      invariant FallbackSoFar(dev, h0, banks, sent, bank)
    {
      banks, sent := FallbackTurn(dev, h0, banks, sent, bank);
    }
    assert BankReads()[MAX_BANKS..] == [];
    JoinEnd(banks, sent);
  }

  /** One bank of the fallback loop. */
  method FallbackTurn(dev: NvmeDevice, ghost h0: seq<Submission>, banks: seq<FlashBank>, ghost sent: seq<Submission>, bank: nat)
    returns (banks': seq<FlashBank>, ghost sent': seq<Submission>)
    requires bank < MAX_BANKS && dev.submitted == h0 + sent && FallbackSoFar(dev, h0, banks, sent, bank)
    modifies dev
    ensures dev.submitted == h0 + sent' && FallbackSoFar(dev, h0, banks', sent', bank + 1)
  {
    FallbackAdvance(dev, h0, banks, sent, bank);
    var b := ReadBank(dev, bank);
    banks' := banks + Opt(b);
    sent' := sent + [BankRead(bank)];
  }

  method ReadFlashId(dev: NvmeDevice) returns (r: Result<FlashIdResult>)
    modifies dev
    ensures r == Protocol(dev, old(dev.submitted)).result
    ensures dev.submitted == old(dev.submitted) + Protocol(dev, old(dev.submitted)).issued
  {
    var cdw15 := BuildCmd(0xD2, 0x400, 0x80, 0);
    var a := dev.AdminRead(0xD2, 0, 0x400, 0, 0x80, 0, 0, cdw15, Zeros(SYSINFO_LEN));
    if a.Err? {
      return Err(a.error);
    }
    var sysinfo := a.value.buf;
    if !Contains(sysinfo, Detect.PHISON_MAGIC) {
      return Err(Mismatch);
    }
    var name := ControllerName(sysinfo);
    var banks: seq<FlashBank> := [];
    var extracted := ExtractSysinfoIds(sysinfo);
    if extracted.Some? {
      banks := extracted.value;
    }
    if banks == [] {
      ghost var h1 := dev.submitted;
      banks := FallbackReads(dev);
      Concat(old(dev.submitted), [SYSINFO_READ], Fallback(dev, h1, BankReads(), 0).issued);
    }
    return Ok(FlashIdResult(name, banks));
  }

  /** The system-info read is sent first; its failure or a page without the
      signature is the error, and nothing else is. */
  lemma ConcludeErrors(a: Result<Done>, fb: Session<seq<FlashBank>, Submission>)
    ensures |Conclude(a, fb).issued| >= 1 && Conclude(a, fb).issued[0] == SYSINFO_READ
    ensures Conclude(a, fb).result.Err? <==> a.Err? || !Contains(a.value.buf, Detect.PHISON_MAGIC)
    ensures a.Err? ==> Conclude(a, fb).result == Err(a.error)
    ensures a.Ok? && !Contains(a.value.buf, Detect.PHISON_MAGIC) ==> Conclude(a, fb).result == Err(Mismatch)
  {
  }

  /** The fallback's reads are sent exactly when the page is Phison's and its
      table names no bank. */
  lemma ConcludeIssued(a: Result<Done>, fb: Session<seq<FlashBank>, Submission>)
    ensures Conclude(a, fb).issued ==
      if a.Ok? && Contains(a.value.buf, Detect.PHISON_MAGIC) && PageBanks(a.value.buf) == []
      then [SYSINFO_READ] + fb.issued else [SYSINFO_READ]
  {
  }

  /** A result names the controller from the page and reports the page's
      banks, or when there are none the fallback's. */
  lemma ConcludeResult(a: Result<Done>, fb: Session<seq<FlashBank>, Submission>)
    ensures Conclude(a, fb).result.Ok? ==>
      a.Ok? && Conclude(a, fb).result.value.controllerName == ControllerName(a.value.buf) &&
      Conclude(a, fb).result.value.banks == if PageBanks(a.value.buf) != [] then PageBanks(a.value.buf) else fb.result
  {
  }

  /** The reads the protocol sends: the system-info read, then the reads of
      banks 0 to 7 in order exactly when the fallback runs. */
  lemma ProtocolIssued(dev: NvmeDevice, h: seq<Submission>)
    ensures var a := dev.Answer(h, SYSINFO_READ, Zeros(SYSINFO_LEN));
      Protocol(dev, h).issued ==
        if a.Ok? && Contains(a.value.buf, Detect.PHISON_MAGIC) && PageBanks(a.value.buf) == []
        then [SYSINFO_READ] + BankReads() else [SYSINFO_READ]
  {
    var a := dev.Answer(h, SYSINFO_READ, Zeros(SYSINFO_LEN));
    var fb := Fallback(dev, h + [SYSINFO_READ], BankReads(), 0);
    FallbackIssued(dev, h + [SYSINFO_READ], BankReads(), 0);
    ConcludeIssued(a, fb);
  }

  /** The system-info read is signed, so whatever follows it stays signed. */
  lemma ConcludeSigned(a: Result<Done>, fb: Session<seq<FlashBank>, Submission>)
    requires AllSigned(fb.issued)
    ensures AllSigned(Conclude(a, fb).issued)
  {
    SignedReads(0x400, 0x80, SYSINFO_LEN);
    SignedCons(SYSINFO_READ, fb.issued);
    SignedCons(SYSINFO_READ, []);
  }

  /** Every command sent carries, as cdw15, the CRC of the template of its own fields. */
  lemma ProtocolSigned(dev: NvmeDevice, h: seq<Submission>)
    ensures AllSigned(Protocol(dev, h).issued)
  {
    var a := dev.Answer(h, SYSINFO_READ, Zeros(SYSINFO_LEN));
    var fb := Fallback(dev, h + [SYSINFO_READ], BankReads(), 0);
    FallbackIssued(dev, h + [SYSINFO_READ], BankReads(), 0);
    BankReadsSigned();
    ConcludeSigned(a, fb);
  }

  /** The banks of a result are valid; those of the fallback are non-blank
      ids of banks 0 to 7, in bank order. */
  lemma ProtocolBanks(dev: NvmeDevice, h: seq<Submission>)
    ensures var a := dev.Answer(h, SYSINFO_READ, Zeros(SYSINFO_LEN));
      var r := Protocol(dev, h).result;
      r.Ok? ==> ValidBanks(r.value.banks) && (PageBanks(a.value.buf) == [] ==> Numbered(r.value.banks, 0, MAX_BANKS))
  {
    var a := dev.Answer(h, SYSINFO_READ, Zeros(SYSINFO_LEN));
    var fb := Fallback(dev, h + [SYSINFO_READ], BankReads(), 0);
    ConcludeResult(a, fb);
    if a.Ok? {
      SysinfoIdsMeaning(a.value.buf);
      FallbackNumbered(dev, h + [SYSINFO_READ], BankReads(), 0);
      NumberedValid(fb.result, 0, MAX_BANKS);
    }
  }

  lemma SignedCons(s: Submission, rest: seq<Submission>)
    requires SignedRead(s) && AllSigned(rest)
    ensures AllSigned([s] + rest)
  {
    var cmds := [s] + rest;
    forall k | 0 <= k < |cmds|
      ensures SignedRead(cmds[k])
    {
      if k > 0 {
        assert cmds[k] == rest[k - 1];
      }
    }
  }
}

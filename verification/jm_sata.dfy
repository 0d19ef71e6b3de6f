/** The JMicron / Maxio SATA extractor. After two unlock attempts a vendor
    write and read return a 4 KiB firmware-id page; a pattern in it names
    the controller, and for the MAS1102 and MAS0902 a lookup table in the
    same page lists the chip-enable entries whose flash ids are then read
    one per-channel vendor command at a time. */
module JmSata {
  import opened Base
  import opened Banks
  import opened Ata

  const FW_RESPONSE_LEN: nat := 4096
  const SECTOR_LEN: nat := 512
  const MAX_LOOKUP_ENTRIES: nat := 32
  const FLASH_ID_LEN: nat := 7

  const SUBCMD_FW_ID: bv8 := 0x86
  const SUBCMD_PER_CHANNEL_FID: bv8 := 0x36

  /* -------------------------------------------------------------- commands */

  /** SET FEATURES (0xEF) with (0xDA, 0x41) and with (0xDC, 0x4A), device 0xE0. */
  const UNLOCK_A := NoDataRequest(Regs(0xEF, 0xDA, 0x41, 0x00, 0x00, 0x00, 0xE0))
  const UNLOCK_B := NoDataRequest(Regs(0xEF, 0xDC, 0x4A, 0x00, 0x00, 0x00, 0xE0))

  /** A vendor payload: one sector, zero except FF E5 and the sub-command at 0..3. */
  function VendorPayload(subcmd: bv8): seq<bv8>
  {
    Zeros(SECTOR_LEN)[0 := 0xFF][1 := 0xE5][2 := subcmd]
  }

  /** The firmware-id request: the sub-command and its parameter at byte 3. */
  function FwPayload(subcmd: bv8, param: bv8): seq<bv8>
  {
    VendorPayload(subcmd)[3 := param]
  }

  /** The per-channel request: the channel at byte 7 and the raw table entry at 0x1C. */
  function ChannelPayload(channel: bv8, entry: bv8): seq<bv8>
  {
    VendorPayload(SUBCMD_PER_CHANNEL_FID)[7 := channel][0x1C := entry]
  }

  /** The payloads are one sector, zero except where the request is written. */
  lemma Payloads(subcmd: bv8, param: bv8, channel: bv8, entry: bv8)
    ensures var p := FwPayload(subcmd, param);
      |p| == SECTOR_LEN && p[..4] == [0xFF, 0xE5, subcmd, param] && forall i :: 4 <= i < SECTOR_LEN ==> p[i] == 0
    ensures var p := ChannelPayload(channel, entry);
      |p| == SECTOR_LEN && p[..3] == [0xFF, 0xE5, SUBCMD_PER_CHANNEL_FID] && p[7] == channel && p[0x1C] == entry &&
      forall i :: 3 <= i < SECTOR_LEN && i != 7 && i != 0x1C ==> p[i] == 0
  {
  }

  /** Vendor write 0x88: features 0x12, LBA low 0xFF, device 0xE0, `count` sectors. */
  function VendorWrite(count: bv8, payload: seq<bv8>): AtaRequest
  {
    WriteRequest(Regs(0x88, 0x12, count, 0xFF, 0x00, 0x00, 0xE0), payload)
  }

  /** Vendor read 0x86: the sub-command as features, LBA low 0x12, device 0xE0. */
  function VendorRead(subcmd: bv8, count: bv8, len: nat): AtaRequest
  {
    ReadRequest(Regs(0x86, subcmd, count, 0x12, 0x00, 0x00, 0xE0), len)
  }

  function FwWrite(subcmd: bv8, param: bv8): AtaRequest { VendorWrite(0x01, FwPayload(subcmd, param)) }
  function FwRead(subcmd: bv8): AtaRequest { VendorRead(subcmd, 0x08, FW_RESPONSE_LEN) }
  function ChannelWrite(channel: bv8, entry: bv8): AtaRequest { VendorWrite(0x34, ChannelPayload(channel, entry)) }
  const CHANNEL_READ := VendorRead(SUBCMD_PER_CHANNEL_FID, 0x34, SECTOR_LEN)

  /* ----------------------------------------------------------- firmware id */

  type Fw = Session<Result<seq<bv8>>, AtaRequest>

  /** `try_read_firmware_id` after history `h`: the request write, and the
      4 KiB read only if the write succeeded. */
  function TryFirmwareId(dev: AtaDevice, h: seq<AtaRequest>, subcmd: bv8, param: bv8): (f: Fw)
    ensures f.issued == if dev.Answer(h, FwWrite(subcmd, param), SECTOR_LEN).Err? then [FwWrite(subcmd, param)]
                        else [FwWrite(subcmd, param), FwRead(subcmd)]
    ensures f.result.Ok? ==> |f.result.value| == FW_RESPONSE_LEN
  {
    match dev.Answer(h, FwWrite(subcmd, param), SECTOR_LEN)
    case Err(e) => Session(Err(e), [FwWrite(subcmd, param)])
    case Ok(_) => Session(dev.Answer(h + [FwWrite(subcmd, param)], FwRead(subcmd), FW_RESPONSE_LEN), [FwWrite(subcmd, param), FwRead(subcmd)])
  }

  /** `read_firmware_id`: both unlocks, whatever they answer; then the
      sub-command 0x86 read and, when it fails or is all zeros, the
      sub-command 0x04 read; the first page with a non-zero byte is the
      answer, and when neither gives one the firmware id is missing. */
  function FirmwareId(dev: AtaDevice, h: seq<AtaRequest>): (f: Fw)
    ensures |f.issued| >= 2 && f.issued[..2] == [UNLOCK_A, UNLOCK_B]
    ensures f.result.Ok? ==> |f.result.value| == FW_RESPONSE_LEN && AnyNonZero(f.result.value)
  {
    var u := [UNLOCK_A, UNLOCK_B];
    var t1 := TryFirmwareId(dev, h + u, SUBCMD_FW_ID, 0x03);
    if t1.result.Ok? && AnyNonZero(t1.result.value) then Session(t1.result, u + t1.issued)
    else
      var t2 := TryFirmwareId(dev, h + u + t1.issued, 0x04, 0xFF);
      if t2.result.Ok? && AnyNonZero(t2.result.value) then Session(t2.result, u + t1.issued + t2.issued)
      else Session(Err(NoFlashData), u + t1.issued + t2.issued)
  }

  method TryReadFirmwareId(dev: AtaDevice, subcmd: bv8, param: bv8) returns (r: Result<seq<bv8>>)
    modifies dev
    ensures r == TryFirmwareId(dev, old(dev.requests), subcmd, param).result
    ensures dev.requests == old(dev.requests) + TryFirmwareId(dev, old(dev.requests), subcmd, param).issued
  {
    ghost var h := dev.requests;
    var payload := Zeros(SECTOR_LEN);
    payload := payload[0 := 0xFF];
    payload := payload[1 := 0xE5];
    payload := payload[2 := subcmd];
    payload := payload[3 := param];
    var w := dev.AtaWrite(Regs(0x88, 0x12, 0x01, 0xFF, 0x00, 0x00, 0xE0), payload);
    if w.Err? {
      return Err(w.error);
    }
    r := dev.AtaRead(Regs(0x86, subcmd, 0x08, 0x12, 0x00, 0x00, 0xE0), FW_RESPONSE_LEN);
    assert dev.requests == h + [FwWrite(subcmd, param), FwRead(subcmd)];
  }

  method ReadFirmwareId(dev: AtaDevice) returns (r: Result<seq<bv8>>)
    modifies dev
    ensures r == FirmwareId(dev, old(dev.requests)).result
    ensures dev.requests == old(dev.requests) + FirmwareId(dev, old(dev.requests)).issued
  {
    ghost var h := dev.requests;
    var _ := dev.AtaNoData(Regs(0xEF, 0xDA, 0x41, 0x00, 0x00, 0x00, 0xE0));
    var _ := dev.AtaNoData(Regs(0xEF, 0xDC, 0x4A, 0x00, 0x00, 0x00, 0xE0));
    TwoMore(h, UNLOCK_A, UNLOCK_B);
    ghost var h1 := dev.requests;
    var r1 := TryReadFirmwareId(dev, SUBCMD_FW_ID, 0x03);
    Concat(h, [UNLOCK_A, UNLOCK_B], TryFirmwareId(dev, h1, SUBCMD_FW_ID, 0x03).issued);
    if r1.Ok? && exists i | 0 <= i < |r1.value| :: r1.value[i] != 0 {
      return r1;
    }
    ghost var h2 := dev.requests;
    var r2 := TryReadFirmwareId(dev, 0x04, 0xFF);
    Concat(h, [UNLOCK_A, UNLOCK_B] + TryFirmwareId(dev, h1, SUBCMD_FW_ID, 0x03).issued, TryFirmwareId(dev, h2, 0x04, 0xFF).issued);
    if r2.Ok? && exists i | 0 <= i < |r2.value| :: r2.value[i] != 0 {
      return r2;
    }
    return Err(NoFlashData);
  }

  /** The 0x04 read is sent only when the 0x86 read gave nothing usable. */
  lemma SecondReadOnlyAfterFirst(dev: AtaDevice, h: seq<AtaRequest>)
    ensures var t1 := TryFirmwareId(dev, h + [UNLOCK_A, UNLOCK_B], SUBCMD_FW_ID, 0x03);
      (t1.result.Ok? && AnyNonZero(t1.result.value)) <==> FirmwareId(dev, h).issued == [UNLOCK_A, UNLOCK_B] + t1.issued
  {
    var t1 := TryFirmwareId(dev, h + [UNLOCK_A, UNLOCK_B], SUBCMD_FW_ID, 0x03);
    if !(t1.result.Ok? && AnyNonZero(t1.result.value)) {
      var f := FirmwareId(dev, h);
      assert |f.issued| > |[UNLOCK_A, UNLOCK_B] + t1.issued|;
    }
  }

  /* ------------------------------------------------------------- detection */

  /** The controller a firmware-id page names. */
  datatype JmController = Mas1102 | Mas0902 | Jmf(name: string)

  function DisplayName(c: JmController): string
  {
    match c
    case Mas1102 => "MAS1102"
    case Mas0902 => "MAS0902"
    case Jmf(name) => name
  }

  /** The patterns, in the order they are looked for, and what each names. */
  const PATTERNS: seq<(string, JmController)> := [
    (",MA1102", Mas1102), (",DM1102", Mas1102), (",MK8215", Mas0902), (",DM9343", Mas0902),
    (",805", Jmf("MK8115")), (",670", Jmf("JMF670")), (",667", Jmf("JMF667")), (",662", Jmf("JMF662")),
    (",661", Jmf("JMF661")), (",61X", Jmf("JMF612")), (",608", Jmf("JMF608")), (",607", Jmf("JMF607")),
    (",606", Jmf("JMF606")), (",605", Jmf("JMF605"))
  ]

  function PatternTexts(): (ps: seq<string>)
    ensures |ps| == |PATTERNS| && forall i :: 0 <= i < |PATTERNS| ==> ps[i] == PATTERNS[i].0
  {
    seq(|PATTERNS|, i requires 0 <= i < |PATTERNS| => PATTERNS[i].0)
  }

  /** A byte kept as text: graphic, the comma or the space. */
  predicate Kept(b: bv8) { IsGraphic(b) || b == 0x2C || b == 0x20 }

  /** The page as text: kept bytes as their characters, all others as NUL. */
  function Filtered(fw: seq<bv8>): (s: string)
    ensures |s| == |fw| && forall i :: 0 <= i < |fw| ==> s[i] == if Kept(fw[i]) then fw[i] as char else '\0'
  {
    seq(|fw|, i requires 0 <= i < |fw| => if Kept(fw[i]) then fw[i] as char else '\0')
  }

  /** `detect`: what the first pattern, in table order, found in the text names. */
  function Detect(fw: seq<bv8>): (r: Option<JmController>)
    ensures r.None? <==> forall j :: 0 <= j < |PATTERNS| ==> !Contains(Filtered(fw), PATTERNS[j].0)
    ensures r.Some? ==> exists k :: (0 <= k < |PATTERNS| && Contains(Filtered(fw), PATTERNS[k].0) && PATTERNS[k].1 == r.value &&
      forall j :: 0 <= j < k ==> !Contains(Filtered(fw), PATTERNS[j].0))
  {
    match FirstOccurring(PatternTexts(), Filtered(fw))
    case None => None
    case Some(k) => Some(PATTERNS[k].1)
  }

  /* ------------------------------------------------------------------ name */

  /** Where each controller's NAND description lies and how long it may be. */
  function NandRegion(c: JmController): (nat, nat)
  {
    match c
    case Mas1102 => (0x894, 80)
    case Mas0902 => (0x568, 32)
    case Jmf(_) => (0x4A8, 16)
  }

  /** A byte the NAND description may hold: from the space to 'z'. */
  predicate InNandRange(b: bv8) { 0x20 <= b <= 0x7A }

  /** The length of the leading run of bytes in range. */
  function RunLength(s: seq<bv8>): (n: nat)
    ensures n <= |s| && forall j :: 0 <= j < n ==> InNandRange(s[j])
    ensures n < |s| ==> !InNandRange(s[n])
  {
    match FirstIndex(s, b => !InNandRange(b))
    case Some(i) => i
    case None => |s|
  }

  function Min(a: nat, b: nat): nat { if a <= b then a else b }

  /** The leading run of bytes from the space to 'z' of the `maxLen` bytes
      from `offset`, cut at the page's end; nothing when `offset` is past
      the page. */
  function RunText(fw: seq<bv8>, offset: nat, maxLen: nat): (t: string)
    ensures |t| <= maxLen
    ensures offset >= |fw| ==> t == []
    ensures offset < |fw| ==> offset + |t| <= |fw| && t == Text(fw[offset..offset + |t|])
    ensures forall k :: 0 <= k < |t| ==> ' ' <= t[k] <= 'z'
    ensures (|t| < maxLen && offset + |t| < |fw|) ==> !InNandRange(fw[offset + |t|])
  {
    if offset >= |fw| then []
    else
      var region := fw[offset..Min(offset + maxLen, |fw|)];
      var n := RunLength(region);
      assert region[..n] == fw[offset..offset + n];
      Text(region[..n])
  }

  /** A run of `n` in-range bytes at `offset` starts the text. */
  lemma RunTextKeeps(fw: seq<bv8>, offset: nat, maxLen: nat, n: nat)
    requires offset + n <= |fw| && 0 < n <= maxLen
    requires forall j :: offset <= j < offset + n ==> InNandRange(fw[j])
    ensures n <= |RunText(fw, offset, maxLen)|
    ensures RunText(fw, offset, maxLen)[..n] == Text(fw[offset..offset + n])
  {
    var t := RunText(fw, offset, maxLen);
    if |t| < n {
      assert false;
    }
    assert t[..n] == Text(fw[offset..offset + n]);
  }

  /** The description before trimming: the run in the controller's region. */
  function NandText(c: JmController, fw: seq<bv8>): (t: string)
    ensures |t| <= NandRegion(c).1
    ensures forall k :: 0 <= k < |t| ==> ' ' <= t[k] <= 'z'
  {
    RunText(fw, NandRegion(c).0, NandRegion(c).1)
  }

  /** `extract_nand_string`: the description, trimmed of spaces. */
  function ExtractNandString(c: JmController, fw: seq<bv8>): (s: string)
    ensures |s| <= NandRegion(c).1
    ensures forall k :: 0 <= k < |s| ==> ' ' <= s[k] <= 'z'
    ensures s == [] || (s[0] != ' ' && s[|s| - 1] != ' ')
  {
    var t := NandText(c, fw);
    TrimChars(t);
    Trim(t)
  }

  /** Every character trimming leaves was a character of the text. */
  lemma TrimChars(s: string)
    ensures forall k :: 0 <= k < |Trim(s)| ==> Trim(s)[k] == s[SkipSpaces(s, 0) + k]
  {
  }

  /** `build_controller_name`: the display name alone, or followed by the
      NAND description in parentheses. */
  function BuildControllerName(c: JmController, fw: seq<bv8>): (name: string)
    ensures |name| >= |DisplayName(c)| && name[..|DisplayName(c)|] == DisplayName(c)
  {
    var nand := ExtractNandString(c, fw);
    var base := DisplayName(c);
    if nand == [] then base
    else
      var name := base + " (" + nand + ")";
      assert name[..|base|] == base;
      name
  }

  /** A base followed by a text in parentheses gives the text back. */
  lemma Parenthesized(base: string, text: string)
    ensures var name := base + " (" + text + ")";
      |name| == |base| + |text| + 3 && name[|base|..|base| + 2] == " (" && name[|name| - 1] == ')' &&
      name[|base| + 2..|name| - 1] == text
  {
    var name := base + " (" + text + ")";
    assert name[|base| + 2..|name| - 1] == text;
  }

  /** The name gives the NAND description back: it is what follows the
      display name and " (", up to the closing parenthesis; a name that is
      just the display name means there was none. */
  lemma NameShowsNand(c: JmController, fw: seq<bv8>)
    ensures var name := BuildControllerName(c, fw);
      var base := DisplayName(c);
      (name == base <==> ExtractNandString(c, fw) == []) &&
      (name != base ==> (
        |name| >= |base| + 3 && name[|base|..|base| + 2] == " (" && name[|name| - 1] == ')' &&
        name[|base| + 2..|name| - 1] == ExtractNandString(c, fw)))
  {
    Parenthesized(DisplayName(c), ExtractNandString(c, fw));
  }

  /** Trimming a text keeps a prefix of it that has no space at either end. */
  lemma TrimPrefix(t: string, p: string)
    requires 0 < |p| <= |t| && t[..|p|] == p && p[0] != ' ' && p[|p| - 1] != ' '
    ensures |p| <= |Trim(t)| && Trim(t)[..|p|] == p
  {
    assert t[0] == p[0] && t[|p| - 1] == p[|p| - 1];
    TrimKeeps(t, |p| - 1);
  }

  /** A region that starts with `n` bytes from '!' to 'z' gives a
      description that starts with them. */
  lemma NandStringKeeps(c: JmController, fw: seq<bv8>, n: nat)
    requires NandRegion(c).0 + n <= |fw| && 0 < n <= NandRegion(c).1
    requires forall j :: NandRegion(c).0 <= j < NandRegion(c).0 + n ==> 0x21 <= fw[j] <= 0x7A
    ensures n <= |ExtractNandString(c, fw)|
    ensures ExtractNandString(c, fw)[..n] == Text(fw[NandRegion(c).0..NandRegion(c).0 + n])
  {
    var (offset, maxLen) := NandRegion(c);
    RunTextKeeps(fw, offset, maxLen, n);
    TrimPrefix(NandText(c, fw), Text(fw[offset..offset + n]));
  }

  /* --------------------------------------------------------- the table scan */

  /** Where a controller's lookup table lies and how its entries give the channel. */
  datatype TableLayout = TableLayout(offset: nat, ceShift: nat)

  /** The MAS1102 and the MAS0902 have a table; the other JMicron chips are not supported. */
  function LayoutOf(c: JmController): (l: Option<TableLayout>)
    ensures l.Some? ==> l.value.ceShift <= 8
    ensures l.None? <==> c.Jmf?
  {
    match c
    case Mas1102 => Some(TableLayout(0x474, 3))
    case Mas0902 => Some(TableLayout(0x450, 4))
    case Jmf(_) => None
  }

  /** The table entries the scan visits: up to 32 from the table's offset,
      stopping at the page's end. */
  function Entries(fw: seq<bv8>, offset: nat): (es: seq<bv8>)
    ensures |es| == if offset >= |fw| then 0 else Min(MAX_LOOKUP_ENTRIES, |fw| - offset)
    ensures es == [] || es == fw[offset..offset + |es|]
  {
    if offset >= |fw| then [] else fw[offset..Min(offset + MAX_LOOKUP_ENTRIES, |fw|)]
  }

  function Channel(entry: bv8, shift: nat): bv8
    requires shift <= 8
  {
    entry >> shift
  }

  type Chan = Session<Option<seq<bv8>>, AtaRequest>

  /** `read_channel_fid` after history `h`: the per-channel write, then the
      one-sector read if the write succeeded; the flash id is the read's
      first 7 bytes in a zeroed 8-byte id. */
  function ChannelFid(dev: AtaDevice, h: seq<AtaRequest>, channel: bv8, entry: bv8): (c: Chan)
    ensures |c.issued| >= 1 && c.issued[0] == ChannelWrite(channel, entry)
    ensures c.issued == [ChannelWrite(channel, entry)] || c.issued == [ChannelWrite(channel, entry), CHANNEL_READ]
    ensures c.result.Some? ==> |c.result.value| == ID_LEN && c.result.value[FLASH_ID_LEN] == 0
  {
    var w := ChannelWrite(channel, entry);
    match dev.Answer(h, w, SECTOR_LEN)
    case Err(_) => Session(None, [w])
    case Ok(_) =>
      match dev.Answer(h + [w], CHANNEL_READ, SECTOR_LEN)
      case Err(_) => Session(None, [w, CHANNEL_READ])
      case Ok(buf) => Session(Some(PadId(buf[..FLASH_ID_LEN])), [w, CHANNEL_READ])
  }

  /** One used entry: its channel's flash id as bank `bank` when it was read and is not empty. */
  function Turn(dev: AtaDevice, h: seq<AtaRequest>, entry: bv8, shift: nat, bank: nat): (t: Session<Option<FlashBank>, AtaRequest>)
    requires shift <= 8
    ensures t.issued == ChannelFid(dev, h, Channel(entry, shift), entry).issued
    ensures t.result.Some? ==> t.result.value.bankNum == bank && Reported(t.result.value) && t.result.value.flashId[FLASH_ID_LEN] == 0
  {
    var c := ChannelFid(dev, h, Channel(entry, shift), entry);
    if c.result.Some? && !IsBankEmpty(c.result.value) then Session(Some(FlashBank(bank, c.result.value)), c.issued)
    else Session(None, c.issued)
  }

  /** The scan of `entries` after history `h`, numbering from `bank`: an
      entry 0xFF is skipped without a number; every other entry takes the
      next number, whether or not its flash id is read and reported. */
  function TableScan(dev: AtaDevice, h: seq<AtaRequest>, entries: seq<bv8>, shift: nat, bank: nat): Session<seq<FlashBank>, AtaRequest>
    requires shift <= 8
    decreases |entries|
  {
    if entries == [] then Session([], [])
    else if entries[0] == 0xFF then TableScan(dev, h, entries[1..], shift, bank)
    else
      var t := Turn(dev, h, entries[0], shift, bank);
      Joined(Opt(t.result), t.issued, TableScan(dev, h + t.issued, entries[1..], shift, bank + 1))
  }

  /** The number of entries that are not 0xFF. */
  function Used(entries: seq<bv8>): (n: nat)
    ensures n <= |entries|
  {
    if entries == [] then 0 else (if entries[0] == 0xFF then 0 else 1) + Used(entries[1..])
  }

  /** Every reported flash id has a zero last byte. */
  predicate SevenByteIds(banks: seq<FlashBank>)
  {
    forall k :: 0 <= k < |banks| ==> |banks[k].flashId| == ID_LEN && banks[k].flashId[FLASH_ID_LEN] == 0
  }

  /** The banks are numbered upwards from `bank`, below `bank` plus the
      number of used entries, non-empty, with a zero last byte. */
  lemma {:induction false} TableScanNumbered(dev: AtaDevice, h: seq<AtaRequest>, entries: seq<bv8>, shift: nat, bank: nat)
    requires shift <= 8
    ensures Numbered(TableScan(dev, h, entries, shift, bank).result, bank, Used(entries))
    ensures SevenByteIds(TableScan(dev, h, entries, shift, bank).result)
    decreases |entries|
  {
    if entries != [] {
      if entries[0] == 0xFF {
        TableScanNumbered(dev, h, entries[1..], shift, bank);
      } else {
        var t := Turn(dev, h, entries[0], shift, bank);
        var rest := TableScan(dev, h + t.issued, entries[1..], shift, bank + 1);
        TableScanNumbered(dev, h + t.issued, entries[1..], shift, bank + 1);
        Prepend(t.result, rest.result, bank, bank + 1, Used(entries));
        var banks := Opt(t.result) + rest.result;
        forall k | 0 <= k < |banks|
          ensures |banks[k].flashId| == ID_LEN && banks[k].flashId[FLASH_ID_LEN] == 0
        {
          if t.result.Some? && k > 0 {
            assert banks[k] == rest.result[k - 1];
          }
        }
      }
    }
  }

  /** A command the scan may send for `entries`: the per-channel read, or
      the per-channel write of a used entry, for the channel its bits give. */
  predicate ScanCommand(q: AtaRequest, entries: seq<bv8>, shift: nat)
    requires shift <= 8
  {
    q == CHANNEL_READ || exists e :: e in entries && e != 0xFF && q == ChannelWrite(Channel(e, shift), e)
  }

  lemma ScanCommandWidens(q: AtaRequest, entries: seq<bv8>, shift: nat)
    requires shift <= 8 && entries != [] && ScanCommand(q, entries[1..], shift)
    ensures ScanCommand(q, entries, shift)
  {
    if q != CHANNEL_READ {
      var e :| e in entries[1..] && e != 0xFF && q == ChannelWrite(Channel(e, shift), e);
      assert e in entries;
    }
  }

  /** Only used entries send commands, at most two each: the write for the
      channel the entry's bits give, then possibly the read. */
  lemma {:induction false} TableScanIssued(dev: AtaDevice, h: seq<AtaRequest>, entries: seq<bv8>, shift: nat, bank: nat)
    requires shift <= 8
    ensures |TableScan(dev, h, entries, shift, bank).issued| <= 2 * Used(entries)
    ensures forall q :: q in TableScan(dev, h, entries, shift, bank).issued ==> ScanCommand(q, entries, shift)
    decreases |entries|
  {
    if entries != [] {
      if entries[0] == 0xFF {
        TableScanIssued(dev, h, entries[1..], shift, bank);
        forall q | q in TableScan(dev, h, entries[1..], shift, bank).issued
          ensures ScanCommand(q, entries, shift)
        {
          ScanCommandWidens(q, entries, shift);
        }
      } else {
        var t := Turn(dev, h, entries[0], shift, bank);
        var rest := TableScan(dev, h + t.issued, entries[1..], shift, bank + 1);
        TableScanIssued(dev, h + t.issued, entries[1..], shift, bank + 1);
        assert TableScan(dev, h, entries, shift, bank).issued == t.issued + rest.issued;
        forall q | q in t.issued + rest.issued
          ensures ScanCommand(q, entries, shift)
        {
          if q in rest.issued {
            ScanCommandWidens(q, entries, shift);
          } else {
            assert entries[0] in entries;
          }
        }
      }
    }
  }

  type Run = Session<Result<FlashIdResult>, AtaRequest>

  /** `read_flash_id` on a firmware-id page: an undetected controller or a
      chip other than the MAS1102 and MAS0902 is an error before any
      command; otherwise the name built from the page and the banks of the
      table scan. */
  function Protocol(dev: AtaDevice, h: seq<AtaRequest>, fw: seq<bv8>): Run
  {
    match Detect(fw)
    case None => Session(Err(UnknownController), [])
    case Some(c) =>
      match LayoutOf(c)
      case None => Session(Err(Unsupported), [])
      case Some(l) =>
        var scan := TableScan(dev, h, Entries(fw, l.offset), l.ceShift, 0);
        Session(Ok(FlashIdResult(BuildControllerName(c, fw), scan.result)), scan.issued)
  }

  /** The error cases send nothing; a result names the detected controller
      and holds at most 32 valid banks, numbered upwards, each with a zero
      last byte. */
  lemma ProtocolMeaning(dev: AtaDevice, h: seq<AtaRequest>, fw: seq<bv8>)
    ensures var run := Protocol(dev, h, fw);
      (run.result.Err? <==> Detect(fw).None? || Detect(fw).value.Jmf?) &&
      (run.result.Err? ==> run.issued == []) &&
      (run.result.Ok? ==> (
        run.result.value.controllerName == BuildControllerName(Detect(fw).value, fw) &&
        Numbered(run.result.value.banks, 0, MAX_LOOKUP_ENTRIES) && ValidBanks(run.result.value.banks) &&
        SevenByteIds(run.result.value.banks)))
  {
    var d := Detect(fw);
    if d.Some? && LayoutOf(d.value).Some? {
      var l := LayoutOf(d.value).value;
      var es := Entries(fw, l.offset);
      TableScanNumbered(dev, h, es, l.ceShift, 0);
      var banks := TableScan(dev, h, es, l.ceShift, 0).result;
      assert Numbered(banks, 0, MAX_LOOKUP_ENTRIES);
      NumberedValid(banks, 0, MAX_LOOKUP_ENTRIES);
    }
  }

  /* ----------------------------------------------------------- the methods */

  method ReadChannelFid(dev: AtaDevice, channel: bv8, entry: bv8) returns (r: Option<seq<bv8>>)
    modifies dev
    ensures r == ChannelFid(dev, old(dev.requests), channel, entry).result
    ensures dev.requests == old(dev.requests) + ChannelFid(dev, old(dev.requests), channel, entry).issued
  {
    ghost var h := dev.requests;
    var payload := Zeros(SECTOR_LEN);
    payload := payload[0 := 0xFF];
    payload := payload[1 := 0xE5];
    payload := payload[2 := SUBCMD_PER_CHANNEL_FID];
    payload := payload[7 := channel];
    payload := payload[0x1C := entry];
    var w := dev.AtaWrite(Regs(0x88, 0x12, 0x34, 0xFF, 0x00, 0x00, 0xE0), payload);
    if w.Err? {
      return None;
    }
    var buf := dev.AtaRead(Regs(0x86, SUBCMD_PER_CHANNEL_FID, 0x34, 0x12, 0x00, 0x00, 0xE0), SECTOR_LEN);
    assert dev.requests == h + [ChannelWrite(channel, entry), CHANNEL_READ];
    if buf.Err? {
      return None;
    }
    var flashId := buf.value[..FLASH_ID_LEN] + [0];
    assert flashId == PadId(buf.value[..FLASH_ID_LEN]);
    return Some(flashId);
  }

  /** The scan of `entries[i..]` is entry `i`'s turn, if it is used, then the rest. */
  lemma TableScanStep(dev: AtaDevice, h: seq<AtaRequest>, entries: seq<bv8>, i: nat, shift: nat, bank: nat)
    requires shift <= 8 && i < |entries|
    ensures entries[i] == 0xFF ==> TableScan(dev, h, entries[i..], shift, bank) == TableScan(dev, h, entries[i + 1..], shift, bank)
    ensures entries[i] != 0xFF ==> (
      var t := Turn(dev, h, entries[i], shift, bank);
      TableScan(dev, h, entries[i..], shift, bank) == Joined(Opt(t.result), t.issued, TableScan(dev, h + t.issued, entries[i + 1..], shift, bank + 1)))
  {
    assert entries[i..][0] == entries[i];
    assert entries[i..][1..] == entries[i + 1..];
  }

  /** The scan loop's invariant before entry `i`, numbering from `bank`: the
      banks found and the commands sent so far, followed by the scan of the
      remaining entries, make up the whole scan. */
  predicate ScanSoFar(dev: AtaDevice, h0: seq<AtaRequest>, entries: seq<bv8>, shift: nat,
                      banks: seq<FlashBank>, sent: seq<AtaRequest>, i: nat, bank: nat)
    requires shift <= 8 && i <= |entries|
  {
    TableScan(dev, h0, entries, shift, 0) == Joined(banks, sent, TableScan(dev, h0 + sent, entries[i..], shift, bank))
  }

  /** One used entry keeps the invariant. */
  lemma ScanAdvance(dev: AtaDevice, h0: seq<AtaRequest>, entries: seq<bv8>, shift: nat,
                    banks: seq<FlashBank>, sent: seq<AtaRequest>, i: nat, bank: nat,
                    banks': seq<FlashBank>, sent': seq<AtaRequest>)
    requires shift <= 8 && i < |entries| && entries[i] != 0xFF
    requires ScanSoFar(dev, h0, entries, shift, banks, sent, i, bank)
    requires var t := Turn(dev, h0 + sent, entries[i], shift, bank);
      banks' == banks + Opt(t.result) && sent' == sent + t.issued
    ensures ScanSoFar(dev, h0, entries, shift, banks', sent', i + 1, bank + 1)
  {
    var t := Turn(dev, h0 + sent, entries[i], shift, bank);
    TableScanStep(dev, h0 + sent, entries, i, shift, bank);
    JoinAfter(TableScan(dev, h0, entries, shift, 0), banks, sent, TableScan(dev, h0 + sent, entries[i..], shift, bank),
              Opt(t.result), t.issued, TableScan(dev, h0 + sent + t.issued, entries[i + 1..], shift, bank + 1));
    Concat(h0, sent, t.issued);
  }

  /** An entry 0xFF keeps the invariant without a command or a number. */
  lemma ScanSkip(dev: AtaDevice, h0: seq<AtaRequest>, entries: seq<bv8>, shift: nat,
                 banks: seq<FlashBank>, sent: seq<AtaRequest>, i: nat, bank: nat)
    requires shift <= 8 && i < |entries| && entries[i] == 0xFF
    requires ScanSoFar(dev, h0, entries, shift, banks, sent, i, bank)
    ensures ScanSoFar(dev, h0, entries, shift, banks, sent, i + 1, bank)
  {
    TableScanStep(dev, h0 + sent, entries, i, shift, bank);
  }

  /** A used entry: its channel's flash id, as bank `bank` when it was read and is not empty. */
  method ReadEntry(dev: AtaDevice, entry: bv8, shift: nat, bank: nat) returns (found: Option<FlashBank>)
    requires shift <= 8
    modifies dev
    ensures found == Turn(dev, old(dev.requests), entry, shift, bank).result
    ensures dev.requests == old(dev.requests) + Turn(dev, old(dev.requests), entry, shift, bank).issued
  {
    var fid := ReadChannelFid(dev, entry >> shift, entry);
    found := None;
    if fid.Some? && !IsBankEmpty(fid.value) {
      found := Some(FlashBank(bank, fid.value));
    }
  }

  /** The loop over the lookup table. */
  method ScanTable(dev: AtaDevice, fw: seq<bv8>, l: TableLayout) returns (banks: seq<FlashBank>)
    requires l.ceShift <= 8
    modifies dev
    ensures banks == TableScan(dev, old(dev.requests), Entries(fw, l.offset), l.ceShift, 0).result
    ensures dev.requests == old(dev.requests) + TableScan(dev, old(dev.requests), Entries(fw, l.offset), l.ceShift, 0).issued
  {
    ghost var h0 := dev.requests;
    ghost var entries := Entries(fw, l.offset);
    ghost var sent: seq<AtaRequest> := [];
    var bank: nat := 0;
    banks := [];
    assert entries[0..] == entries;
    JoinNone(TableScan(dev, h0, entries, l.ceShift, 0));
    NothingSent(h0);
    var i := 0;
    while i < MAX_LOOKUP_ENTRIES && l.offset + i < |fw|
      invariant i <= |entries|
      invariant dev.requests == h0 + sent
      invariant ScanSoFar(dev, h0, entries, l.ceShift, banks, sent, i, bank)
      decreases MAX_LOOKUP_ENTRIES - i
    {
      var entry := fw[l.offset + i];
      assert entry == entries[i];
      if entry == 0xFF {
        ScanSkip(dev, h0, entries, l.ceShift, banks, sent, i, bank);
      } else {
        ghost var t := Turn(dev, h0 + sent, entry, l.ceShift, bank);
        var found := ReadEntry(dev, entry, l.ceShift, bank);
        ScanAdvance(dev, h0, entries, l.ceShift, banks, sent, i, bank, banks + Opt(found), sent + t.issued);
        banks := banks + Opt(found);
        sent := sent + t.issued;
        bank := bank + 1;
      }
      i := i + 1;
    }
    assert entries[i..] == [];
    JoinEnd(banks, sent);
  }

  /** `read_flash_id` on the firmware-id page `fw`. */
  method ReadFlashId(dev: AtaDevice, fw: seq<bv8>) returns (r: Result<FlashIdResult>)
    modifies dev
    ensures r == Protocol(dev, old(dev.requests), fw).result
    ensures dev.requests == old(dev.requests) + Protocol(dev, old(dev.requests), fw).issued
  {
    var c := Detect(fw);
    if c.None? {
      NothingSent(dev.requests);
      return Err(UnknownController);
    }
    var l := LayoutOf(c.value);
    if l.None? {
      NothingSent(dev.requests);
      return Err(Unsupported);
    }
    var name := BuildControllerName(c.value, fw);
    var banks := ScanTable(dev, fw, l.value);
    return Ok(FlashIdResult(name, banks));
  }
}

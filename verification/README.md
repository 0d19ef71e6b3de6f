# ssd-flash-id in Dafny

ssd-flash-id reads the raw NAND flash identifiers out of an SSD controller.

**NVMe drives**
- It sends IDENTIFY CONTROLLER.
- It recognises the controller family, passively from the firmware revision, the model string and the vendor ids, or else with harmless vendor probes.
- It then runs that family's vendor command sequence. The families are Silicon Motion, Realtek, Phison, Maxio, Marvell, Innogrit and Tenafe.

**SATA drives**
- It sends IDENTIFY DEVICE through ATA PASS-THROUGH (16) on SG_IO.
- It runs one extractor: the forced one, or one chosen by firmware prefix, or else the first in a fixed probing order that succeeds (Yeestor, Silicon Motion SATA, SandForce, JMicron/Maxio, Realtek SATA).
- As a last resort it uses a flash id embedded in the IDENTIFY data.

**Result**
Every extractor yields a controller name and a list of flash banks. A bank is a bank number and an 8-byte flash id. A NAND database turns an id into a human-readable description.

## How the model is built

**Devices are classes.**
- `Ata.AtaDevice` and `Nvme.NvmeDevice` each hold the list of commands sent so far (`requests`, `submitted`).
- Each also holds a `respond` function that gives the device's answer to a command, given the history before it. The answer depends on history because several vendor protocols select what a later read returns with an earlier write.
- Every transfer lands in a zero-filled buffer of the caller's size (`Base.Fit`, `Base.Overlay`).

**Each extractor has two halves.**
- A function `Protocol(dev, h)` gives the result and the exact list of commands the extractor issues after history `h`.
- A method `ReadFlashId(dev)` works the way the extractor's `read_flash_id` does, with its loops and early returns. It is proved to return `Protocol(...).result` and to append exactly `Protocol(...).issued` to the device's history.
- The properties each extractor promises are proved as lemmas about `Protocol`: which commands are sent in which order, which failures end the run, and what the banks are.

**Two shared scans.**
- `Banks.SkipScan` skips a rejected slot.
- `Banks.StopScan` stops at the first empty slot.
- Their loops (`Banks.CollectSlots`, `Banks.CollectUntilEmpty`) are proved against them. The extractors' bank lemmas are stated in terms of each extractor's own slot layout.

**Errors and integers.**
- Errors are a small `Failure` datatype (ioctl failure, transport error, ATA error, mismatch, no flash data, unknown controller) in place of message strings.
- Fixed-width integers are `newtype`s with explicit truncation (`U32`) where ssd-flash-id casts.

## Model

| member | source | states |
|---|---|---|
| Base.Fit | src/ata.rs:274-327 | a zeroed buffer of `n` bytes after a transfer of `data`: `n` bytes, the data's prefix, then zeros |
| Base.Overlay | src/nvme.rs:74-100 | a transfer overwrites the caller's buffer from its start, cut at its end; bytes past a short transfer keep their old value |
| Base.Trim | src/nvme.rs:208-214 | `str::trim` on space-only whitespace: the result is the slice `s[a..e]` with only spaces before `a` and after `e`, and no space at either end of the result |
| Base.TrimUnique | src/nvme.rs:208-214 | any slice bordered by spaces with no space at either end is the trimmed text, so inner spaces stay |
| Base.TrimExample | src/nvme.rs:208-214 | " a b " trims to "a b" |
| Base.TrimEmpty | src/nvme.rs:208-214 | trimming leaves nothing exactly when the text is all spaces |
| Base.TrimPadded | src/nvme.rs:208-214 | text with no edge spaces, right-padded with spaces, trims back to itself |
| Base.AsciiTrim | src/nvme.rs:208-214 | `ascii_trim`: printable ASCII, no edge spaces, no longer than the input |
| Base.PadFieldRoundTrip | src/nvme.rs:193-206 | clean text stored in a space-padded identify field is read back exactly |
| Base.AsciiTrimPadded | src/nvme.rs:208-214 | clean text followed by spaces is read back exactly by `ascii_trim` |
| Base.TextOr | src/controllers/smi.rs:44-56 | the trimmed text, or the default name when nothing is left |
| Base.Find | src/controllers/maxio.rs:64-87 | `str::find`: the first position at which the pattern occurs, none iff it occurs nowhere |
| Base.FirstIndex | src/controllers/phison.rs:82-115 | `iter().position`: the first index satisfying the predicate, none iff no index does |
| Base.FirstOccurring | src/controllers/jm_sata.rs:130-153 | the first pattern in list order that occurs in the text; none iff no pattern occurs |
| Base.FirstPrefix | src/detect.rs:84-97 | the first table entry whose prefix starts the string; none iff no entry's prefix does |
| Base.DecimalRoundTrip | src/controllers/innogrit.rs:14-51 | `{}` formatting of an unsigned number reads back as that number |
| Base.Hex | src/detect.rs:149-170 | `width` digits, upper-case for `{:X}` and lowercase for `{:x}` |
| Base.HexRoundTrip | src/detect.rs:149-170 | fixed-width `{:0wX}`/`{:0wx}` formatting of a number that fits reads back as that number |
| Banks.IsBankEmptyIff | src/controllers/mod.rs:27-29 | `is_bank_empty` holds iff every byte is 0x00 or every byte is 0xFF |
| Banks.NoBytesIsEmpty | src/controllers/mod.rs:27-29 | the empty slice counts as empty |
| Banks.MixedIsNotEmpty | src/controllers/mod.rs:27-29 | a slot holding both 0x00 and 0xFF is not empty |
| Banks.FirstByteDecides | src/controllers/mod.rs:27-29 | a slot whose first byte is neither 0x00 nor 0xFF is not empty |
| Banks.PadId | src/controllers/mod.rs:16-19 | a flash id of up to 8 bytes copied into a zeroed `[u8; 8]`: 8 bytes, the id then zeros |
| Banks.SkipScanSound | src/controllers/innogrit.rs:30-45 | every bank of a skipping scan is an accepted slot inside the buffer, copied and numbered by its slot index |
| Banks.SkipScanComplete | src/controllers/innogrit.rs:30-45 | every accepted slot inside the buffer appears in the skipping scan |
| Banks.SkipScanPastEnd | src/controllers/innogrit.rs:30-45 | once a slot lies past the buffer every later one does, so the `break` ends nothing early |
| Banks.SkipScanValid | src/controllers/smi.rs:24-36 | the skipping scan yields valid banks with strictly increasing numbers |
| Banks.SkipScanMeaning | src/controllers/smi.rs:24-36 | a skipping scan of 8-byte slots reports exactly the accepted slots, byte for byte, in slot order |
| Banks.CollectSlots | src/controllers/innogrit.rs:30-45 | the slot loop with its `break` and `continue` returns exactly `SkipScan` |
| Banks.StopScanSound | src/controllers/sandforce.rs:39-56 | bank `k` of the stopping scan is slot `k`, not empty; the run ends at an empty or missing slot |
| Banks.StopScanValid | src/controllers/sandforce.rs:39-56 | the stopping scan yields valid banks numbered 0, 1, 2, ... |
| Banks.StopScanSlots | src/controllers/rtl_sata.rs:54-74 | bank `k` of the stopping scan is the `k`-th 8 bytes of the buffer, not empty |
| Banks.StopScanStarts | src/controllers/rtl_sata.rs:54-74 | the stopping scan finds something iff it may look at a slot and the first slot is not empty |
| Banks.CollectUntilEmpty | src/controllers/rtl_sata.rs:54-74 | the stop-at-first-empty loop returns exactly `StopScan` |
| Banks.NumberedValid | src/controllers/mod.rs:16-25 | banks numbered upwards that fit in 32 bits are valid `FlashBank`s |
| Ata.BuildCdbDecodes | src/ata.rs:339-368 | the 28-bit CDB decodes to opcode 0x85, the protocol, byte 2 and the caller's registers, EXTEND clear, previous registers zero |
| Ata.BuildCdbExtDecodes | src/ata.rs:371-405 | the 48-bit CDB decodes to the same with EXTEND set and the previous registers in the odd bytes |
| Ata.ExtDiffersOnlyThere | src/ata.rs:339-405 | the two CDB forms agree except for EXTEND and the previous registers |
| Ata.OperationSignatures | src/ata.rs:106-272 | each operation's fixed protocol, byte 2, direction and length; registers passed through unchanged |
| Ata.IdentifyBlock | src/ata.rs:100-104 | IDENTIFY DEVICE is the CDB 85 08 2E ... E0 EC into 512 bytes |
| Ata.Classify | src/ata.rs:274-327 | `sg_io`'s verdict: ioctl failure, then host/driver status other than DRIVER_SENSE, then an ATA error bit in the descriptor sense; success iff none applies |
| Ata.DriverSenseAlone | src/ata.rs:305-326 | DRIVER_SENSE alone, or sense data too short or not in descriptor format, is not an error |
| Ata.OtherDriverBits | src/ata.rs:305-311 | any other driver status bit is a transport error carrying both statuses |
| Ata.Outcome | src/ata.rs:274-327 | a successful data-in request returns a buffer of the requested length; others return nothing |
| Ata.AtaDevice.SgIo | src/ata.rs:274-327 | appends exactly the request built from the header and CDB and returns the device's answer to it |
| Ata.AtaDevice.AtaRead | src/ata.rs:106-129 | appends one PIO data-in request with the caller's registers and returns its answer |
| Ata.AtaDevice.AtaDmaRead | src/ata.rs:131-154 | appends one DMA data-in request and returns its answer |
| Ata.AtaDevice.AtaWrite | src/ata.rs:156-179 | appends one PIO data-out request carrying the payload and returns its answer |
| Ata.AtaDevice.AtaNoData | src/ata.rs:181-203 | appends one non-data request and returns its answer |
| Ata.AtaDevice.AtaReadExt | src/ata.rs:205-238 | appends one 48-bit PIO data-in request and returns its answer |
| Ata.AtaDevice.AtaNoDataExt | src/ata.rs:240-272 | appends one 48-bit non-data request and returns its answer |
| Ata.AtaDevice.AtaIdentify | src/ata.rs:100-104 | appends IDENTIFY DEVICE; success gives 512 bytes |
| Ata.SwapPairs | src/ata.rs:426-437 | byte `i` of the result is byte `i` xor 1 of the input; an odd trailing byte is dropped |
| Ata.SwapPairsTwice | src/ata.rs:426-437 | swapping twice restores every complete pair |
| Ata.InnerSpaceKept | src/ata.rs:426-437 | the words "A ", "B " decode to "A B": a pad space moves to the front and is trimmed, an inner one stays |
| Ata.AtaStringTrim | src/ata.rs:426-437 | the swap loop yields `AtaString`: printable, no edge spaces, no longer than the field |
| Ata.AtaFieldRoundTrip | src/ata.rs:426-437 | clean text stored as a drive stores it (padded, pair-swapped) decodes back to itself |
| Ata.ParseAtaIdentify | src/ata.rs:413-422 | serial at most 20, firmware at most 8, model at most 40 characters |
| Ata.ParseAtaIdentifyReadsFields | src/ata.rs:413-422 | words 10-19, 23-26 and 27-46 holding stored strings give exactly those strings |
| Nvme.HelpersCarryFields | src/nvme.rs:74-153 | the three admin helpers copy every caller field; data length is the buffer's, or 0 without data |
| Nvme.Outcome | src/nvme.rs:162-174 | only a negative ioctl return fails; success yields the completion dword and, for a read, the filled buffer |
| Nvme.NvmeDevice.SubmitAdminCmd | src/nvme.rs:162-174 | appends exactly the submission and returns the device's answer to it |
| Nvme.NvmeDevice.AdminRead | src/nvme.rs:74-100 | appends one read submission with the caller's fields and buffer length, returns its answer |
| Nvme.NvmeDevice.AdminWrite | src/nvme.rs:102-128 | appends one write submission carrying the payload, returns its answer |
| Nvme.NvmeDevice.AdminNoData | src/nvme.rs:130-153 | appends one submission without data, returns its answer |
| Nvme.NvmeDevice.IdentifyController | src/nvme.rs:156-160 | appends Identify Controller (opcode 0x06, CNS 1); success gives 4096 bytes |
| Nvme.IdentifyCommand | src/nvme.rs:156-160 | Identify Controller carries opcode 0x06, cdw10 1 and a 4096-byte data-in transfer |
| Nvme.ParseIdentify | src/nvme.rs:193-206 | serial at most 20, model at most 40, firmware at most 8 characters |
| Nvme.ParseIdentifyReadsFields | src/nvme.rs:193-206 | bytes 4-23, 24-63 and 64-71 holding padded clean text give exactly that text |
| Detect.Family | src/detect.rs:33-43 | every controller's family key is one of the seven command-line keys |
| Detect.FamilyDistinguishesKinds | src/detect.rs:33-43 | two controllers share a family key iff they are of the same kind |
| Detect.DetectRealtek | src/detect.rs:75-82 | the Realtek entry of the first prefix that starts the firmware revision; none iff no prefix does |
| Detect.RealtekVariants | src/detect.rs:67-82 | RL6447 firmware is the first variant, RL6577 and RL6817 the second |
| Detect.DetectSmi | src/detect.rs:84-97 | firmware prefix table, then model, then vendor ids, each later rule only when the earlier fail |
| Detect.SmiNamesAreChips | src/detect.rs:46-66 | every SMI table name is a chip name, never a fallback name |
| Detect.DetectTenafe | src/detect.rs:99-104 | Tenafe iff the model is exactly "Merak Nvme Ssd Controller" |
| Detect.Passive | src/detect.rs:172-195 | Realtek, then SMI, then Tenafe; none iff all three fail |
| Detect.RealtekBeforeSmi | src/detect.rs:172-195 | a Realtek firmware prefix wins even when the model names an SMI part |
| Detect.PhisonProbe | src/detect.rs:106-116 | one vendor read; positive iff it succeeds and "PhIsOnNo" occurs in the buffer |
| Detect.ProbePhison | src/detect.rs:106-116 | sends exactly the probe and returns `PhisonProbe`'s answer |
| Detect.MaxioFrom | src/detect.rs:118-131 | the opcode loop sends one read per opcode in order, stops at the first hit, and reads every opcode when none hits |
| Detect.ProbeMaxio | src/detect.rs:118-131 | the loop sends exactly `MaxioProbe`'s reads and returns its answer |
| Detect.MaxioAdvance | src/detect.rs:118-131 | one read keeps the loop invariant, or ends the probe with a hit |
| Detect.MarvellProbe | src/detect.rs:133-147 | one vendor read; positive iff the buffer starts with "DM1160" or "DM1140", named after it |
| Detect.ProbeMarvell | src/detect.rs:133-147 | sends exactly the probe and returns `MarvellProbe`'s answer |
| Detect.InnogritName | src/detect.rs:149-170 | the device id at 0x62E in upper-case hex when nonzero, else "Innogrit" |
| Detect.InnogritNameShowsDid | src/detect.rs:149-170 | the four hex digits of the name read back as the stored device id |
| Detect.InnogritProbe | src/detect.rs:149-170 | one vendor read; positive iff it succeeds and some byte is nonzero |
| Detect.ProbeInnogrit | src/detect.rs:149-170 | sends exactly the probe and returns `InnogritProbe`'s answer |
| Detect.DetectController | src/detect.rs:172-195 | `detect` returns the specified result and sends exactly its commands |
| Detect.RunProbes | src/detect.rs:172-195 | the probe chain returns the specified result and sends exactly its commands |
| Detect.PassiveSendsNothing | src/detect.rs:172-195 | a passive match sends no probe |
| Detect.ProbesInOrder | src/detect.rs:172-195 | without a passive match Phison is probed first; nothing is detected iff every probe in turn is negative, after five reads |
| NandDb.LookupTable | src/nand_db.rs:255-262 | the name of the first entry with the key; none iff no entry has it |
| NandDb.ManufacturerName | src/nand_db.rs:246-253 | the JEDEC name of the first byte, "Unknown" iff unlisted |
| NandDb.ManufacturerKnownIff | src/nand_db.rs:1-22 | a manufacturer is named iff its id is one of the 18 listed |
| NandDb.KnownIdsIncrease | src/nand_db.rs:1-22 | the listed ids strictly increase, so no two entries share one |
| NandDb.ManufacturerAt | src/nand_db.rs:246-253 | every table entry is reachable: its id yields its name |
| NandDb.CellType | src/nand_db.rs:264-290 | bits per cell from bits 3..2 of byte 2, shifted on high-density Micron parts, 4 on YMTC QLC ids; empty iff 0 |
| NandDb.PageSize | src/nand_db.rs:292-308 | 2 KiB times a power of two for Toshiba/SanDisk/Samsung/Hynix, 8 KiB times one for YMTC, empty otherwise |
| NandDb.FirstMatch | src/nand_db.rs:310-319 | the first table entry that matches the id; none iff none matches |
| NandDb.IdentifyMicronIntelSpectek | src/nand_db.rs:310-319 | the description of the first matching entry; none iff none matches |
| NandDb.IdentifyYmtc | src/nand_db.rs:321-351 | generation then the first matching description; the generation alone without a match; none iff neither |
| NandDb.YmtcMatchHasGeneration | src/nand_db.rs:321-351 | a table match always comes with a generation |
| NandDb.IdentifyToshibaSandisk | src/nand_db.rs:353-358 | keyed by bits 5 and 2..0 of byte 5; none for ids shorter than 6 |
| NandDb.ToshibaIgnoresOtherBits | src/nand_db.rs:353-358 | the other bits of byte 5 do not change the answer |
| NandDb.IdentifyHynix | src/nand_db.rs:360-365 | keyed by the whole byte 5; none for ids shorter than 6 |
| NandDb.IdentifySamsung | src/nand_db.rs:367-376 | the extra table on the raw byte 5 first, then the main table on its low seven bits |
| NandDb.SamsungTopBit | src/nand_db.rs:367-376 | bit 7 of byte 5 matters only through the extra table |
| NandDb.Words | src/nand_db.rs:397-407 | one word for the manufacturer and one for each known part, no more: the manufacturer first, the technology second when present, the cell type next when non-empty, the page size last when non-empty |
| NandDb.DescribeFlash | src/nand_db.rs:378-408 | "Unknown" below 6 bytes; otherwise starts with the manufacturer |
| NandDb.JoinSpaceLayout | src/nand_db.rs:407 | `join(" ")`: word k starts where the earlier words and one space after each end, a space follows every word but the last, and the text ends with the last word |
| NandDb.DescribeFlashLayout | src/nand_db.rs:378-408 | the description of a 6-byte id is its words in order, each starting one space after the previous one ends, with nothing after the last |
| NandDb.DescribeFlashContains | src/nand_db.rs:378-408 | the description contains each of manufacturer, technology, cell type and page size when known |
| NandDb.FormatFlashIdHex | src/nand_db.rs:410-416 | entry i is the byte's "0x" and two lowercase digits at 5·i, a comma between neighbours, nothing else: 5 characters per byte less one |
| NandDb.HexByte | src/nand_db.rs:413 | "0x" followed by two lowercase hex digits |
| NandDb.FormatFlashIdHexRoundTrip | src/nand_db.rs:410-416 | parsing the formatted text gives the id back |
| Phison.Crc16Check | src/controllers/phison.rs:7-22 | the register update is CRC-16/XMODEM: "123456789" gives 0x31C3 |
| Phison.SwapTwice | src/controllers/phison.rs:20 | swapping the register's bytes twice gives it back |
| Phison.UpperHalf | src/controllers/phison.rs:21 | the shift leaves the lower half zero and the swapped CRC in the upper half |
| Phison.CrcIgnoresTail | src/controllers/phison.rs:9 | bytes 60-63 of the template do not change the CRC |
| Phison.RegisterOver | src/controllers/phison.rs:8-19 | the nested loop over the first 60 bytes computes the CRC-16 register |
| Phison.ComputeCrc | src/controllers/phison.rs:7-22 | `phison_crc` equals the specified signature of the buffer |
| Phison.SplicedTemplate | src/controllers/phison.rs:24-29 | splicing the three fields into a zeroed buffer gives the template layout |
| Phison.BuildCmd | src/controllers/phison.rs:24-31 | `build_cmd` returns the signature of the template of its own fields |
| Phison.BankCdw12 | src/controllers/phison.rs:56 | the bank number lands in the second byte and 0x90 in the first |
| Phison.SignedReads | src/controllers/phison.rs:34-60 | every read the extractor builds carries the CRC of its own fields |
| Phison.SysinfoIdsMeaning | src/controllers/phison.rs:117-146 | ids numbered in offset order, pairwise distinct, each a qualifying entry; none iff no offset qualifies |
| Phison.ExtractSysinfoIds | src/controllers/phison.rs:117-146 | the offset loop with its duplicate check returns exactly `SysinfoIds` |
| Phison.FallbackIssued | src/controllers/phison.rs:54-74 | the fallback sends exactly the eight bank reads in bank order |
| Phison.FallbackNumbered | src/controllers/phison.rs:54-74 | the fallback reports non-empty 8-byte ids numbered by their bank, in bank order |
| Phison.FallbackReads | src/controllers/phison.rs:55-73 | the bank loop returns exactly the fallback's banks and sends its reads |
| Phison.Ps50At | src/controllers/phison.rs:83-95 | a "PS50" window with a terminator after it names the graphic run from the tag, at most 16 bytes |
| Phison.Ps31At | src/controllers/phison.rs:98-111 | a "PS31" window names the graphic run from the tag, cut at 16 or the page end |
| Phison.Ps31AtAsWritten | src/controllers/phison.rs:98-111 | the window as written overruns iff there is no terminator and fewer than 16 bytes remain |
| Phison.ControllerNameChoice | src/controllers/phison.rs:82-115 | a "PS50" name first, else a "PS31" name, else "Phison" |
| Phison.ControllerNameShape | src/controllers/phison.rs:82-115 | a found name starts with its tag and is graphic ASCII |
| Phison.ControllerNameAgrees | src/controllers/phison.rs:82-115 | the clamped name equals `extract_controller_name`'s name except where `extract_controller_name` overruns |
| Phison.Ps31Overrun | src/controllers/phison.rs:98-111 | a Phison page ending in "PS31" overruns as written and is named "PS31" when clamped |
| Phison.ConcludeErrors | src/controllers/phison.rs:36-44 | the read's failure or a missing signature is the error, and nothing else is |
| Phison.ProtocolIssued | src/controllers/phison.rs:33-80 | the system-info read, then the eight bank reads exactly when the page is Phison's and names no bank |
| Phison.ProtocolSigned | src/controllers/phison.rs:33-80 | every command sent carries the CRC of its own template |
| Phison.ConcludeResult | src/controllers/phison.rs:46-79 | a result is named from the page and reports the page's banks, or the fallback's when there are none |
| Phison.ProtocolBanks | src/controllers/phison.rs:33-80 | a result's banks are valid; fallback banks are non-blank and numbered within 0..7 |
| Phison.ReadFlashId | src/controllers/phison.rs:33-80 | `read_flash_id` returns the specified result and sends exactly its commands, the name taken by the clamped reading (see Left out) |
| Smi.ControllerName | src/controllers/smi.rs:44-56 | the name is printable with no edge spaces, or "SMI" |
| Smi.ControllerNameReads | src/controllers/smi.rs:44-56 | a clean name ended by 0x00 is read back exactly |
| Smi.ControllerNameDefault | src/controllers/smi.rs:44-56 | a name area starting with 0x00 gives "SMI" |
| Smi.Protocol | src/controllers/smi.rs:14-42 | one read; its failure is the only error; a result carries the table banks and the name at 0x1F0 |
| Smi.ScanTable | src/controllers/smi.rs:21-36 | the offset/bank-number loop returns exactly the table's banks |
| Smi.TableBanksMeaning | src/controllers/smi.rs:24-36 | banks are exactly the non-empty slots from listed manufacturers, copied and numbered by slot |
| Smi.ReadFlashId | src/controllers/smi.rs:14-42 | `read_flash_id` returns the specified result and sends exactly its command |
| Rtl.ReadsDistinct | src/controllers/rtl.rs:9-37 | the two variant reads differ and neither is the unlock |
| Rtl.Attempts | src/controllers/rtl.rs:18-21 | V1 alone, or V1 then V2 |
| Rtl.KnownSlotIsNamed | src/controllers/rtl.rs:54-77 | a kept slot is non-empty and its manufacturer is named |
| Rtl.AttemptRun | src/controllers/rtl.rs:24-48 | unlock, then the read only if the unlock succeeded; a find has the variant's name and banks |
| Rtl.TryFrom | src/controllers/rtl.rs:23-51 | the first attempt that finds banks wins; otherwise the error is no flash data |
| Rtl.V1Once | src/controllers/rtl.rs:15-52 | a V1 controller gets one attempt |
| Rtl.V2AfterV1 | src/controllers/rtl.rs:15-52 | V2 runs the V1 attempt first and the V2 attempt only when it found nothing |
| Rtl.V1Commands | src/controllers/rtl.rs:15-52 | the unlock precedes every read; a V1 controller never gets the V2 read |
| Rtl.SlotBanksMeaning | src/controllers/rtl.rs:54-77 | banks are exactly the kept slots among the first 64, copied and numbered by slot |
| Rtl.ReadFlashId | src/controllers/rtl.rs:15-52 | `read_flash_id` returns the specified result and sends exactly its commands |
| Maxio.C1Payload | src/controllers/maxio.rs:7-17 | the 512-byte payload: FF E5, sub-command, channel, chip enable, then zeros |
| Maxio.NameText | src/controllers/maxio.rs:64-87 | the page as text: printable bytes kept, others NUL |
| Maxio.ControllerNameDefault | src/controllers/maxio.rs:64-87 | the default name iff no model occurs in the page |
| Maxio.ControllerNameIsSlice | src/controllers/maxio.rs:64-87 | the first listed model found gives the name, equal to the slice `extract_controller_name` takes |
| Maxio.DieRunIssues | src/controllers/maxio.rs:31-55 | every die gets its prepare; the read follows only a successful prepare; the number advances iff the read succeeds |
| Maxio.DieRun | src/controllers/maxio.rs:31-55 | a die's bank carries the current number and a non-empty id |
| Maxio.ScanNumbered | src/controllers/maxio.rs:28-56 | the scan's banks are non-empty, numbered upwards, at most one per remaining die |
| Maxio.ScanBanksValid | src/controllers/maxio.rs:28-56 | at most 64 valid banks |
| Maxio.DiePrepareSelects | src/controllers/maxio.rs:33 | the die prepare carries sub-command 0x36, the channel and the chip enable |
| Maxio.Protocol | src/controllers/maxio.rs:19-62 | the bulk prepare and bulk read come first and their failure is the only error |
| Maxio.SendC1 | src/controllers/maxio.rs:7-17 | appends exactly the prepare write and returns its answer |
| Maxio.ScanDies | src/controllers/maxio.rs:28-56 | the channel loop returns exactly the scan's banks and sends its commands |
| Maxio.ReadFlashId | src/controllers/maxio.rs:19-62 | `read_flash_id` returns the specified result and sends exactly its commands |
| Marvell.FwName | src/controllers/marvell.rs:53-69 | `extract_fw_name`: printable, at most 64 characters, or the default name |
| Marvell.FwNameKeepsSignature | src/controllers/marvell.rs:7-69 | a signed firmware page gives a name starting with its six signature bytes |
| Marvell.FwNameReads | src/controllers/marvell.rs:53-69 | a clean name of at most 64 bytes ended by 0x00 is read back exactly |
| Marvell.Exchange | src/controllers/marvell.rs:7-29 | firmware read, request write, flash-id read; any failure or a missing signature ends the exchange |
| Marvell.Transfer | src/controllers/marvell.rs:7-29 | the three transfers return the specified pages and send exactly their commands |
| Marvell.FidBanksMeaning | src/controllers/marvell.rs:30-45 | banks are exactly the non-empty slots among the first 64, copied and numbered by slot |
| Marvell.ReadFlashId | src/controllers/marvell.rs:7-51 | `read_flash_id` returns the specified result and sends exactly its commands |
| Innogrit.LayoutOf | src/controllers/innogrit.rs:24-27 | IG5208/IG5216 keep 32 entries at 0x548, every other device id 64 at 0x24E |
| Innogrit.ControllerNameShowsDid | src/controllers/innogrit.rs:21-22 | the digits after "IG" read back as the device id |
| Innogrit.LayoutsFit | src/controllers/innogrit.rs:30-34 | both layouts lie inside the page, so the bound check never stops the scan |
| Innogrit.Protocol | src/controllers/innogrit.rs:14-51 | one read; its failure is the only error; the page decodes to name and banks |
| Innogrit.EntryBanksMeaning | src/controllers/innogrit.rs:30-45 | banks are exactly the non-empty 6-byte entries, numbered by entry and padded with two zeros |
| Innogrit.ReadFlashId | src/controllers/innogrit.rs:14-51 | `read_flash_id` returns the specified result and sends exactly its command |
| Tenafe.ConfigLayout | src/controllers/tenafe.rs:9-17 | the configuration page is 4 KiB, zero except at its six fields |
| Tenafe.Protocol | src/controllers/tenafe.rs:8-45 | a failed write stops before the read; either failure is the error; a result carries the fixed name "Tenafe TC2200/TC2201" and the page's banks |
| Tenafe.PageBanksMeaning | src/controllers/tenafe.rs:24-39 | banks are exactly the non-empty slots from 0x50, copied and numbered by slot |
| Tenafe.ReadFlashId | src/controllers/tenafe.rs:8-45 | `read_flash_id` returns the specified result and sends exactly its commands |
| SandForce.Commands | src/controllers/sandforce.rs:7-19 | SMART WRITE LOG 0xE0 with the request and SMART READ LOG 0xE1, byte for byte |
| SandForce.Decode | src/controllers/sandforce.rs:35-65 | a page yields banks iff it is not all blank and its first slot is live; otherwise no flash data |
| SandForce.Protocol | src/controllers/sandforce.rs:21-66 | the read only after a successful write; either failure is the error |
| SandForce.DecodeMeaning | src/controllers/sandforce.rs:39-60 | banks are the leading run of non-empty slots, 1 to 16, numbered 0, 1, 2, ... |
| SandForce.MixedPageRefused | src/controllers/sandforce.rs:35-46 | a page of 0x00/0xFF bytes with a mixed first slot is refused though the slot is live |
| SandForce.ReadFlashId | src/controllers/sandforce.rs:21-66 | `read_flash_id` returns the specified result and sends exactly its commands |
| IdentifyFid.EmbeddedId | src/controllers/ata_identify_fid.rs:26-34 | the embedded id is bytes 0x127 to 0x12E |
| IdentifyFid.ExtractFromIdentify | src/controllers/ata_identify_fid.rs:29-55 | one bank numbered 0 iff the id starts with an accepted manufacturer |
| IdentifyFid.AcceptedIsNotEmpty | src/controllers/ata_identify_fid.rs:29-55 | an accepted first byte rules out an empty id |
| IdentifyFid.AcceptedIdsAreNamed | src/controllers/ata_identify_fid.rs:4-22 | the accepted ids are the named manufacturers without 0x51 |
| RtlSata.DetectFromFirmware | src/controllers/rtl_sata.rs:13-20 | the chip of the first prefix that starts the revision; none iff none does |
| RtlSata.PrefixesExclusive | src/controllers/rtl_sata.rs:7-11 | at most one prefix matches |
| RtlSata.Commands | src/controllers/rtl_sata.rs:22-52 | the three 48-bit commands, byte for byte |
| RtlSata.ExtractBanks | src/controllers/rtl_sata.rs:54-74 | the loop returns exactly the page's leading run of banks |
| RtlSata.ProtocolOrder | src/controllers/rtl_sata.rs:76-103 | setup first, its failure stops all; the extended read is sent iff the primary found nothing |
| RtlSata.ProtocolBanks | src/controllers/rtl_sata.rs:76-103 | 1 to 8 valid banks: the primary's named "Realtek SATA", else the extended read's |
| RtlSata.FidBanksValid | src/controllers/rtl_sata.rs:54-74 | a read's banks are at most 8 non-empty slots, copied and numbered by slot |
| RtlSata.ReadFlashId | src/controllers/rtl_sata.rs:76-103 | `read_flash_id` returns the specified result and sends exactly its commands |
| SmiSata.DetectFromFirmware | src/controllers/smi_sata.rs:18-25 | the chip of the first prefix that starts the revision; none iff none does |
| SmiSata.Commands | src/controllers/smi_sata.rs:27-37 | the SMART read and the two magic-LBA reads, byte for byte |
| SmiSata.SmartFid | src/controllers/smi_sata.rs:41-55 | bank 0 from the SMART page iff the page holds data and its first slot is not empty |
| SmiSata.SmartNeedsBoth | src/controllers/smi_sata.rs:41-55 | neither test alone decides the SMART page |
| SmiSata.Pick | src/controllers/smi_sata.rs:65-119 | R1's banks, else R5's, else no flash data |
| SmiSata.PickMeaning | src/controllers/smi_sata.rs:65-119 | a result names the page it came from and holds 1 to 16 banks from it alone |
| SmiSata.ProtocolOrder | src/controllers/smi_sata.rs:39-120 | a SMART flash id ends the run; otherwise R1 and R5 are both read before decoding |
| SmiSata.ReadFlashId | src/controllers/smi_sata.rs:39-120 | `read_flash_id` returns the specified result and sends exactly its commands |
| Yeestor.DmaReadBlock | src/controllers/yeestor.rs:17-21 | the DMA read of a magic LBA, byte for byte, into 512 bytes |
| Yeestor.NameShowsLba | src/controllers/yeestor.rs:57-61 | the name's hex digits read back as the LBA's mid and low bytes |
| Yeestor.AcceptedPageHasBanks | src/controllers/yeestor.rs:24-54 | an accepted first byte guarantees at least one bank |
| Yeestor.Attempt | src/controllers/yeestor.rs:26-64 | one read per LBA; a result iff it succeeds and the first byte is an accepted id |
| Yeestor.TryFromIssued | src/controllers/yeestor.rs:26-67 | LBAs read in order, one read each; failure reads all and is no flash data |
| Yeestor.TryFromFirst | src/controllers/yeestor.rs:26-67 | the result is the first LBA's that yields banks; all earlier ones found nothing |
| Yeestor.ReadFlashId | src/controllers/yeestor.rs:23-68 | `read_flash_id` returns the specified result and sends exactly its commands |
| JmSata.Payloads | src/controllers/jm_sata.rs:94-128 | one-sector payloads, zero except where the request is written |
| JmSata.TryFirmwareId | src/controllers/jm_sata.rs:94-128 | the request write, then the 4 KiB read only if the write succeeded |
| JmSata.FirmwareId | src/controllers/jm_sata.rs:74-92 | both unlocks first; a result is 4 KiB and not all zero |
| JmSata.SecondReadOnlyAfterFirst | src/controllers/jm_sata.rs:74-92 | the sub-command 0x04 read is sent iff the 0x86 read gave nothing usable |
| JmSata.ReadFirmwareId | src/controllers/jm_sata.rs:74-92 | `read_firmware_id` returns the specified page and sends exactly its commands |
| JmSata.Filtered | src/controllers/jm_sata.rs:130-141 | the page as text: kept bytes as characters, others NUL |
| JmSata.Detect | src/controllers/jm_sata.rs:130-153 | the controller of the first pattern that occurs; none iff none occurs |
| JmSata.LayoutOf | src/controllers/jm_sata.rs:159-165 | MAS1102 and MAS0902 have a table with its chip-enable shift; every other detected chip has none |
| JmSata.Entries | src/controllers/jm_sata.rs:172-176 | up to 32 entries from the table offset, stopping at the page end |
| JmSata.RunText | src/controllers/jm_sata.rs:250-271 | the leading run of bytes from space to 'z', within the region and the page |
| JmSata.ExtractNandString | src/controllers/jm_sata.rs:250-271 | the description is within the region's bound, in range, with no edge spaces |
| JmSata.NandStringKeeps | src/controllers/jm_sata.rs:250-271 | a region starting with `n` non-space in-range bytes gives a description starting with them |
| JmSata.NameShowsNand | src/controllers/jm_sata.rs:240-248 | the name is the display name, or it followed by the description in parentheses; iff the description is empty |
| JmSata.ChannelFid | src/controllers/jm_sata.rs:202-238 | the per-channel write, then the read if it succeeded; an id is 8 bytes with byte 7 zero |
| JmSata.ReadChannelFid | src/controllers/jm_sata.rs:202-238 | `read_channel_fid` returns the specified id and sends exactly its commands |
| JmSata.TableScanNumbered | src/controllers/jm_sata.rs:172-194 | banks numbered upwards below the count of used entries, non-empty, byte 7 zero |
| JmSata.TableScanIssued | src/controllers/jm_sata.rs:172-194 | only used entries send commands, at most two each, for the channel the entry selects |
| JmSata.ScanTable | src/controllers/jm_sata.rs:172-194 | the entry loop returns exactly the scan's banks and sends its commands |
| JmSata.ProtocolMeaning | src/controllers/jm_sata.rs:155-200 | errors send nothing; a result names the controller and holds at most 32 valid banks |
| JmSata.ReadFlashId | src/controllers/jm_sata.rs:155-200 | `read_flash_id` returns the specified result and sends exactly its commands |
| Dispatch.ResolveAcceptsFamilies | src/main.rs:230-244 | exactly the seven family keys resolve |
| Dispatch.ResolveMeaning | src/main.rs:230-244 | a key resolves to its own family, named " (forced)"; a forced Realtek is V1 |
| Dispatch.FamilyDisplayDistinct | src/main.rs:246-256 | two controllers share a display name iff they share a family |
| Dispatch.NvmeReadIgnoresName | src/main.rs:258-268 | what is read depends on the family and Realtek variant, never the name |
| Dispatch.ReadNvme | src/main.rs:258-268 | dispatch returns the family's result and sends exactly its commands |
| Dispatch.OverrideVariant | src/main.rs:334-341 | a requested variant replaces a Realtek controller's; other controllers unchanged |
| Dispatch.SelectNvme | src/main.rs:305-341 | fails iff an unknown key is forced or nothing is detected |
| Dispatch.SelectKeepsFamily | src/main.rs:305-341 | the override never changes the family or the name |
| Dispatch.SataKindOf | src/main.rs:377-387 | a forced SATA name selects an extractor iff it is one of the five |
| Dispatch.SataNameRoundTrip | src/main.rs:377 | every extractor is selected by its own name |
| Dispatch.FamilyLabelsDistinct | src/main.rs:465-489 | each extractor's family label is its own, none is "SATA" |
| Dispatch.LabelResult | src/main.rs:465-489 | labelling keeps the failure or the result and adds the family |
| Dispatch.TrySata | src/main.rs:465-489 | a result carries its extractor's family label |
| Dispatch.JmStopsWithoutFirmwareId | src/main.rs:465-469 | a failed firmware-id read ends the JMicron attempt with its error |
| Dispatch.ChainMeaning | src/main.rs:427-439 | fails only without an IDENTIFY flash id; a result comes from an extractor tried or from IDENTIFY |
| Dispatch.ChainIdentifyLast | src/main.rs:427-439 | the IDENTIFY id is used only after every extractor failed |
| Dispatch.RunSataForced | src/main.rs:375-441 | a refused name sends nothing; otherwise IDENTIFY first; a forced name runs exactly its extractor |
| Dispatch.FirmwarePrefixDecides | src/main.rs:421-425 | an SMI prefix runs only the SMI extractor, a Realtek prefix only the Realtek one |
| Dispatch.ProbingStartsWithYeestor | src/main.rs:426-432 | otherwise probing starts with Yeestor's commands |
| Dispatch.TryInTurn | src/main.rs:427-439 | the `or_else` chain returns the specified result and sends exactly its commands |
| Dispatch.ReadSata | src/main.rs:375-441 | `run_sata` up to its result returns the specified result and sends exactly its commands |
| Dispatch.IsSataPath | src/main.rs:169-186 | "sd" is SATA, "nvme" is not, any other name is SATA iff it is a block device |
| Dispatch.NameRulesAgree | src/main.rs:109-186 | a listed NVMe controller is never SATA; a listed SATA disk always is |
| Dispatch.NvmeSuffixDigitsOnly | src/main.rs:118-129 | the 'n' test is implied by the digits test |
| Dispatch.NameExamples | src/main.rs:118-156 | "nvme0" and "sda" are listed; "nvme0n1" and "sda1" are not |

## Left out

- Opening and closing device files, the SG_IO and NVMe admin ioctls and errno translation are not modelled. Each device is a class whose answers are a function of the command history.
- Error message texts are not modelled. Each error is reduced to its `Failure` kind.
- The command-line parsing, all printing (`print_banks`, `list_devices`, the report lines) and the root check are not modelled.
- Listing `/dev` and sorting the device names are not modelled. Only the name tests are.
- File metadata is not read. `Dispatch.IsSataPath` takes the file name and a flag saying whether the path is a block device. A path whose metadata cannot be read is the flag `false`.
- The top-level choice between `run_nvme` and `run_sata` is not modelled as one member. Each side is modelled, and so is `Dispatch.IsSataPath`.
- Detect.ProbeMaxio: the UTF-8 validity test on the probe buffer is a parameter `validUtf8`, because Rust's UTF-8 decoding is not modelled.
- Dispatch.SelectNvme: the result of `detect` is a parameter. It is proved separately by `Detect.DetectController`.
- Phison.ReadFlashId: the result is named with the clamped `Phison.ControllerName`, which stands in for the panic of `extract_controller_name` (see Findings). On a page whose only "PS31" tag has no terminator and lies within 16 bytes of the end, the program aborts right after the system-info read. The model instead returns a result named by the clamped name and, when the page names no bank, goes on to the eight fallback bank reads. `Phison.Protocol`, `Phison.Conclude` and the lemmas about them (`ConcludeResult`, `ProtocolIssued`, `ProtocolBanks`) share this; `Phison.ControllerNameAgrees` proves that every other page is named exactly as the program names it.
- The trimming in `Base.Trim` strips only the space character. Every caller first maps the other whitespace bytes to spaces, or stops before them.

## Findings

| source | as written | input that shows it | evidently intended | confidence | as-written member | corrected member |
|---|---|---|---|---|---|---|
| src/controllers/phison.rs:101-106 | without a terminator after a "PS31" tag the length falls back to 16 and `sysinfo[start..start + 16]` is taken unchecked | a 4096-byte page with "PhIsOnNo", zeros, and "PS31" in its last four bytes: the slice runs 12 bytes past the end and panics | the name cut at the end of the page ("PS31") | not executed | Phison.Ps31Overrun | Phison.ControllerNameChoice |

/** Choosing the NVMe controller family: passive rules on the Identify
    Controller fields first (Realtek firmware prefixes, then SMI, then Tenafe),
    then active probes (Phison, Maxio, Marvell, Innogrit), each a vendor read
    whose answer is tested for the family's signature. */
module Detect {
  import opened Base
  import opened Nvme

  datatype RtlVariant = V1 | V2

  /** A detected controller: its family and the name reported for it. */
  datatype ControllerType =
    | Smi(name: string)
    | Realtek(name: string, variant: RtlVariant)
    | Phison(name: string)
    | Maxio(name: string)
    | Marvell(name: string)
    | Innogrit(name: string)
    | Tenafe(name: string)

  /** The family key used on the command line. */
  function Family(ct: ControllerType): (f: string)
    ensures f in FAMILIES
  {
    match ct
    case Smi(_) => "smi"
    case Realtek(_, _) => "rtl"
    case Phison(_) => "phison"
    case Maxio(_) => "maxio"
    case Marvell(_) => "marvell"
    case Innogrit(_) => "innogrit"
    case Tenafe(_) => "tenafe"
  }

  const FAMILIES: set<string> := {"smi", "rtl", "phison", "maxio", "marvell", "innogrit", "tenafe"}

  /** Two controllers have the same family key exactly when they are of the same kind. */
  lemma FamilyDistinguishesKinds(a: ControllerType, b: ControllerType)
    ensures Family(a) == Family(b) <==>
      (a.Smi? && b.Smi?) || (a.Realtek? && b.Realtek?) || (a.Phison? && b.Phison?) || (a.Maxio? && b.Maxio?) ||
      (a.Marvell? && b.Marvell?) || (a.Innogrit? && b.Innogrit?) || (a.Tenafe? && b.Tenafe?)
  {
  }

  /* ------------------------------------------------------- passive rules */

  const SMI_FW_PREFIXES: seq<Entry<string>> := [
    Entry("2260ROM:", "SM2260"),
    Entry("2262ROM:", "SM2262"),
    Entry("2262B0ROM:", "SM2262EN"),
    Entry("2262B1ROM:", "SM2262EN"),
    Entry("2262BCROM:", "SM2262EN"),
    Entry("2263ROM:", "SM2263EN"),
    Entry("2264ROM:", "SM2264"),
    Entry("2264ABROM:", "SM2264"),
    Entry("2265ABROM:", "SM2265"),
    Entry("2265", "SM2265"),
    Entry("2267ABROM:", "SM2267"),
    Entry("2267", "SM2267"),
    Entry("2268", "SM2268"),
    Entry("2269", "SM2269"),
    Entry("2270ROM:", "SM2270"),
    Entry("2270", "SM2270"),
    Entry("2508", "SM2508"),
    Entry("8366", "SM8366")
  ]

  const RTL_FW_PREFIXES: seq<Entry<(string, RtlVariant)>> := [
    Entry("REALTEK_RL6447", ("RTS5762/63", V1)),
    Entry("REALTEK_RL6577", ("RTS5765/66", V2)),
    Entry("REALTEK_RL6817", ("RTS5772", V2))
  ]

  const SMI_VID: uint16 := 0x2646

  /** `detect_realtek`: the first Realtek entry whose prefix starts the firmware revision. */
  function DetectRealtek(fw: string): (r: Option<ControllerType>)
    ensures r.None? <==> forall j :: 0 <= j < |RTL_FW_PREFIXES| ==> !StartsWith(fw, RTL_FW_PREFIXES[j].prefix)
    ensures r.Some? ==> exists k :: 0 <= k < |RTL_FW_PREFIXES| && StartsWith(fw, RTL_FW_PREFIXES[k].prefix) &&
                                    r.value == Realtek(RTL_FW_PREFIXES[k].value.0, RTL_FW_PREFIXES[k].value.1)
  {
    var e := FirstPrefix(RTL_FW_PREFIXES, fw);
    if e.Some? then Some(Realtek(e.value.0, e.value.1)) else None
  }

  /** Prefixes of the same length that both start a string are equal. */
  lemma SameLengthPrefixes(s: string, p: string, q: string)
    requires StartsWith(s, p) && StartsWith(s, q) && |p| == |q|
    ensures p == q
  {
  }

  /** RL6447 firmware is read as the first variant, RL6577 and RL6817 as the second. */
  lemma RealtekVariants(fw: string)
    requires DetectRealtek(fw).Some?
    ensures DetectRealtek(fw).value.variant == V1 <==> StartsWith(fw, "REALTEK_RL6447")
  {
    var k :| 0 <= k < |RTL_FW_PREFIXES| && StartsWith(fw, RTL_FW_PREFIXES[k].prefix) &&
             DetectRealtek(fw).value == Realtek(RTL_FW_PREFIXES[k].value.0, RTL_FW_PREFIXES[k].value.1);
    if StartsWith(fw, "REALTEK_RL6447") {
      SameLengthPrefixes(fw, RTL_FW_PREFIXES[k].prefix, "REALTEK_RL6447");
    }
  }

  /** A model number naming an SM22xx, SM25xx or SM83xx part. */
  predicate ModelSaysSmi(model: string)
  {
    Contains(model, "SM22") || Contains(model, "SM25") || Contains(model, "SM83")
  }

  /** `detect_smi`: the firmware prefix table, then the model number, then
      the vendor ids; each later rule only when the earlier ones fail. */
  function DetectSmi(fw: string, model: string, vid: uint16, ssvid: uint16): (r: Option<ControllerType>)
    ensures r.Some? ==> r.value.Smi?
    ensures r.Some? <==> FirstPrefix(SMI_FW_PREFIXES, fw).Some? || ModelSaysSmi(model) || vid == SMI_VID || ssvid == SMI_VID
    ensures FirstPrefix(SMI_FW_PREFIXES, fw).Some? ==> r == Some(Smi(FirstPrefix(SMI_FW_PREFIXES, fw).value))
    ensures r == Some(Smi("SMI (by model)")) <==> FirstPrefix(SMI_FW_PREFIXES, fw).None? && ModelSaysSmi(model)
    ensures r == Some(Smi("SMI (by VID)")) <==>
      FirstPrefix(SMI_FW_PREFIXES, fw).None? && !ModelSaysSmi(model) && (vid == SMI_VID || ssvid == SMI_VID)
  {
    SmiNamesAreChips();
    var e := FirstPrefix(SMI_FW_PREFIXES, fw);
    if e.Some? then Some(Smi(e.value))
    else if ModelSaysSmi(model) then Some(Smi("SMI (by model)"))
    else if vid == SMI_VID || ssvid == SMI_VID then Some(Smi("SMI (by VID)"))
    else None
  }

  /** Every name in the SMI table is a chip name, never one of the fallback names. */
  lemma SmiNamesAreChips()
    ensures forall k :: 0 <= k < |SMI_FW_PREFIXES| ==> StartsWith(SMI_FW_PREFIXES[k].value, "SM2") || StartsWith(SMI_FW_PREFIXES[k].value, "SM8")
    ensures forall k :: 0 <= k < |SMI_FW_PREFIXES| ==> SMI_FW_PREFIXES[k].value != "SMI (by model)" && SMI_FW_PREFIXES[k].value != "SMI (by VID)"
  {
  }

  /** `detect_tenafe`: only the exact model string. */
  function DetectTenafe(model: string): (r: Option<ControllerType>)
    ensures r.Some? <==> model == "Merak Nvme Ssd Controller"
    ensures r.Some? ==> r.value == Tenafe("Merak")
  {
    if model == "Merak Nvme Ssd Controller" then Some(Tenafe("Merak")) else None
  }

  /** The passive rules in order: Realtek, SMI, Tenafe. */
  function Passive(info: ControllerInfo): (r: Option<ControllerType>)
    ensures DetectRealtek(info.firmware).Some? ==> r == DetectRealtek(info.firmware)
    ensures DetectRealtek(info.firmware).None? && DetectSmi(info.firmware, info.model, info.vid, info.ssvid).Some? ==>
      r == DetectSmi(info.firmware, info.model, info.vid, info.ssvid)
    ensures r.None? <==> (DetectRealtek(info.firmware).None? &&
                          DetectSmi(info.firmware, info.model, info.vid, info.ssvid).None? && DetectTenafe(info.model).None?)
  {
    var rtl := DetectRealtek(info.firmware);
    if rtl.Some? then rtl
    else
      var smi := DetectSmi(info.firmware, info.model, info.vid, info.ssvid);
      if smi.Some? then smi else DetectTenafe(info.model)
  }

  /** A Realtek firmware prefix wins even when the model number also names an SMI part. */
  lemma RealtekBeforeSmi(info: ControllerInfo)
    requires DetectRealtek(info.firmware).Some? && ModelSaysSmi(info.model)
    ensures Passive(info).Some? && Passive(info).value.Realtek?
  {
  }

  /* -------------------------------------------------------- active probes */

  const PROBE_LEN: nat := 4096

  /** "PhIsOnNo" */
  const PHISON_MAGIC: seq<bv8> := [0x50, 0x68, 0x49, 0x73, 0x4F, 0x6E, 0x4E, 0x6F]
  /** ",MAP1" */
  const MAXIO_TAG: seq<bv8> := [0x2C, 0x4D, 0x41, 0x50, 0x31]
  /** "DM1160" */
  const DM1160: seq<bv8> := [0x44, 0x4D, 0x31, 0x31, 0x36, 0x30]
  /** "DM1140" */
  const DM1140: seq<bv8> := [0x44, 0x4D, 0x31, 0x31, 0x34, 0x30]
  const INNOGRIT_DID_OFFSET: nat := 0x62E

  const PHISON_PROBE := ReadSubmission(0xD2, 0, 0, 0, 0, 0, 0, 0, PROBE_LEN)
  const MAXIO_OPCODES: seq<bv8> := [0xC1, 0xC2]
  function MaxioProbeRead(opcode: bv8): Submission { ReadSubmission(opcode, 0, 0, 0, 0, 0, 0, 0, PROBE_LEN) }
  const MARVELL_PROBE := ReadSubmission(0xFE, 0, 0, 0, 0, 0, 0, 0xA1, PROBE_LEN)
  const INNOGRIT_PROBE := ReadSubmission(0xF2, 0, 0, 0, 0, 0, 0x54495247, 0x4F4E4E49, PROBE_LEN)

  type Probe = Session<Option<ControllerType>, Submission>

  /** `probe_phison`: one vendor read; positive when it succeeds and the
      8 bytes "PhIsOnNo" occur anywhere in the buffer. */
  function PhisonProbe(dev: NvmeDevice, h: seq<Submission>): (p: Probe)
    ensures p.issued == [PHISON_PROBE]
    ensures p.result.Some? <==> var a := dev.Answer(h, PHISON_PROBE, Zeros(PROBE_LEN));
      a.Ok? && exists i: nat :: OccursAt(a.value.buf, PHISON_MAGIC, i)
    ensures p.result.Some? ==> p.result.value == Phison("Phison")
  {
    var a := dev.Answer(h, PHISON_PROBE, Zeros(PROBE_LEN));
    Session(if a.Ok? && Contains(a.value.buf, PHISON_MAGIC) then Some(Phison("Phison")) else None, [PHISON_PROBE])
  }

  method ProbePhison(dev: NvmeDevice) returns (ct: Option<ControllerType>)
    modifies dev
    ensures ct == PhisonProbe(dev, old(dev.submitted)).result
    ensures dev.submitted == old(dev.submitted) + PhisonProbe(dev, old(dev.submitted)).issued
  {
    var r := dev.AdminRead(0xD2, 0, 0, 0, 0, 0, 0, 0, Zeros(PROBE_LEN));
    if r.Ok? && Contains(r.value.buf, PHISON_MAGIC) {
      return Some(Phison("Phison"));
    }
    return None;
  }

  /** The buffer is valid UTF-8 text containing ",MAP1". */
  predicate MaxioHit(buf: seq<bv8>, validUtf8: seq<bv8> -> bool)
  {
    validUtf8(buf) && Contains(buf, MAXIO_TAG)
  }

  /** `probe_maxio` from opcode `ops[0]` on, with the buffer as the earlier
      reads left it: a read that succeeds overwrites the shared buffer, and
      the probe is positive as soon as the buffer is valid UTF-8 containing ",MAP1". */
  function MaxioFrom(dev: NvmeDevice, h: seq<Submission>, ops: seq<bv8>, buf: seq<bv8>, validUtf8: seq<bv8> -> bool): (p: Probe)
    ensures |p.issued| <= |ops|
    ensures forall k :: 0 <= k < |p.issued| ==> p.issued[k] == MaxioProbeRead(ops[k])
    ensures p.result.Some? ==> p.result.value == Maxio("Maxio")
    ensures p.result.None? ==> |p.issued| == |ops|
    decreases |ops|
  {
    if ops == [] then Session(None, [])
    else
      var q := MaxioProbeRead(ops[0]);
      var a := dev.Answer(h, q, buf);
      var now := if a.Ok? then a.value.buf else buf;
      if a.Ok? && MaxioHit(now, validUtf8) then Session(Some(Maxio("Maxio")), [q])
      else
        var rest := MaxioFrom(dev, h + [q], ops[1..], now, validUtf8);
        Session(rest.result, [q] + rest.issued)
  }

  function MaxioProbe(dev: NvmeDevice, h: seq<Submission>, validUtf8: seq<bv8> -> bool): Probe
  {
    MaxioFrom(dev, h, MAXIO_OPCODES, Zeros(PROBE_LEN), validUtf8)
  }

  /** `p` preceded by the commands `sent`. */
  method ProbeMaxio(dev: NvmeDevice, validUtf8: seq<bv8> -> bool) returns (ct: Option<ControllerType>)
    modifies dev
    ensures ct == MaxioProbe(dev, old(dev.submitted), validUtf8).result
    ensures dev.submitted == old(dev.submitted) + MaxioProbe(dev, old(dev.submitted), validUtf8).issued
  {
    var buf := Zeros(PROBE_LEN);
    ghost var sent: seq<Submission> := [];
    for i := 0 to |MAXIO_OPCODES|
      invariant |buf| == PROBE_LEN
      invariant dev.submitted == old(dev.submitted) + sent
      invariant MaxioProbe(dev, old(dev.submitted), validUtf8) ==
                After(sent, MaxioFrom(dev, dev.submitted, MAXIO_OPCODES[i..], buf, validUtf8))
    {
      ghost var h := dev.submitted;
      ghost var before := buf;
      var opcode := MAXIO_OPCODES[i];
      var r := dev.AdminRead(opcode, 0, 0, 0, 0, 0, 0, 0, buf);
      if r.Ok? {
        buf := r.value.buf;
      }
      MaxioAdvance(dev, old(dev.submitted), sent, i, before, validUtf8, r);
      Concat(old(dev.submitted), sent, [MaxioProbeRead(opcode)]);
      sent := sent + [MaxioProbeRead(opcode)];
      if r.Ok? && MaxioHit(buf, validUtf8) {
        return Some(Maxio("Maxio"));
      }
    }
    return None;
  }

  /** One read of the probe loop, as `MaxioFrom` describes it. */
  lemma MaxioStep(dev: NvmeDevice, h: seq<Submission>, ops: seq<bv8>, i: nat, buf: seq<bv8>,
                  validUtf8: seq<bv8> -> bool, r: Result<Done>)
    requires i < |ops|
    requires r == dev.Answer(h, MaxioProbeRead(ops[i]), buf)
    ensures var q := MaxioProbeRead(ops[i]);
            var now := if r.Ok? then r.value.buf else buf;
            MaxioFrom(dev, h, ops[i..], buf, validUtf8) ==
              if r.Ok? && MaxioHit(now, validUtf8) then Session(Some(Maxio("Maxio")), [q])
              else After([q], MaxioFrom(dev, h + [q], ops[i + 1..], now, validUtf8))
  {
    assert ops[i..][0] == ops[i] && ops[i..][1..] == ops[i + 1..];
  }

  /** The loop invariant carried over one read: `h0` is where the probe
      began and `sent` what it has issued before read `i`. */
  lemma MaxioAdvance(dev: NvmeDevice, h0: seq<Submission>, sent: seq<Submission>, i: nat, buf: seq<bv8>,
                     validUtf8: seq<bv8> -> bool, r: Result<Done>)
    requires i < |MAXIO_OPCODES|
    requires MaxioProbe(dev, h0, validUtf8) == After(sent, MaxioFrom(dev, h0 + sent, MAXIO_OPCODES[i..], buf, validUtf8))
    requires r == dev.Answer(h0 + sent, MaxioProbeRead(MAXIO_OPCODES[i]), buf)
    ensures var q := MaxioProbeRead(MAXIO_OPCODES[i]);
            var now := if r.Ok? then r.value.buf else buf;
            if r.Ok? && MaxioHit(now, validUtf8) then MaxioProbe(dev, h0, validUtf8) == Session(Some(Maxio("Maxio")), sent + [q])
            else MaxioProbe(dev, h0, validUtf8) == After(sent + [q], MaxioFrom(dev, h0 + sent + [q], MAXIO_OPCODES[i + 1..], now, validUtf8))
  {
    var q := MaxioProbeRead(MAXIO_OPCODES[i]);
    var now := if r.Ok? then r.value.buf else buf;
    MaxioStep(dev, h0 + sent, MAXIO_OPCODES, i, buf, validUtf8, r);
    if !(r.Ok? && MaxioHit(now, validUtf8)) {
      AfterAfter(sent, [q], MaxioFrom(dev, h0 + sent + [q], MAXIO_OPCODES[i + 1..], now, validUtf8));
    }
  }

  /** `probe_marvell`: one vendor read; the firmware name at its start decides. */
  function MarvellProbe(dev: NvmeDevice, h: seq<Submission>): (p: Probe)
    ensures p.issued == [MARVELL_PROBE]
    ensures p.result.Some? <==> var a := dev.Answer(h, MARVELL_PROBE, Zeros(PROBE_LEN));
      a.Ok? && (StartsWith(a.value.buf, DM1160) || StartsWith(a.value.buf, DM1140))
    ensures p.result.Some? ==> var buf := dev.Answer(h, MARVELL_PROBE, Zeros(PROBE_LEN)).value.buf;
      p.result.value == Marvell(if StartsWith(buf, DM1160) then "DM1160" else "DM1140")
  {
    var a := dev.Answer(h, MARVELL_PROBE, Zeros(PROBE_LEN));
    var r := if a.Err? then None
             else if StartsWith(a.value.buf, DM1160) then Some(Marvell("DM1160"))
             else if StartsWith(a.value.buf, DM1140) then Some(Marvell("DM1140"))
             else None;
    Session(r, [MARVELL_PROBE])
  }

  method ProbeMarvell(dev: NvmeDevice) returns (ct: Option<ControllerType>)
    modifies dev
    ensures ct == MarvellProbe(dev, old(dev.submitted)).result
    ensures dev.submitted == old(dev.submitted) + MarvellProbe(dev, old(dev.submitted)).issued
  {
    var r := dev.AdminRead(0xFE, 0, 0, 0, 0, 0, 0, 0xA1, Zeros(PROBE_LEN));
    if r.Ok? {
      if StartsWith(r.value.buf, DM1160) {
        return Some(Marvell("DM1160"));
      }
      if StartsWith(r.value.buf, DM1140) {
        return Some(Marvell("DM1140"));
      }
    }
    return None;
  }

  /** The Innogrit name: the device id at 0x62E, in upper-case hex, when it is not zero. */
  function InnogritName(buf: seq<bv8>): (name: string)
    ensures |buf| >= INNOGRIT_DID_OFFSET + 2 && Le16(buf[INNOGRIT_DID_OFFSET], buf[INNOGRIT_DID_OFFSET + 1]) != 0 ==>
      name == "Innogrit (DID 0x" + Hex(Le16(buf[INNOGRIT_DID_OFFSET], buf[INNOGRIT_DID_OFFSET + 1]) as nat, 4, true) + ")"
    ensures |buf| < INNOGRIT_DID_OFFSET + 2 || Le16(buf[INNOGRIT_DID_OFFSET], buf[INNOGRIT_DID_OFFSET + 1]) == 0 ==>
      name == "Innogrit"
  {
    if INNOGRIT_DID_OFFSET + 2 <= |buf| then
      var did := Le16(buf[INNOGRIT_DID_OFFSET], buf[INNOGRIT_DID_OFFSET + 1]);
      if did != 0 then "Innogrit (DID 0x" + Hex(did as nat, 4, true) + ")" else "Innogrit"
    else "Innogrit"
  }

  /** The device id shown in the name is the one stored: reading its four hex digits back gives it. */
  lemma InnogritNameShowsDid(buf: seq<bv8>)
    requires |buf| == PROBE_LEN
    requires Le16(buf[INNOGRIT_DID_OFFSET], buf[INNOGRIT_DID_OFFSET + 1]) != 0
    ensures var name := InnogritName(buf);
      |name| == 21 && HexValue(name[16..20]) == Le16(buf[INNOGRIT_DID_OFFSET], buf[INNOGRIT_DID_OFFSET + 1]) as nat
  {
    var did := Le16(buf[INNOGRIT_DID_OFFSET], buf[INNOGRIT_DID_OFFSET + 1]);
    var name := InnogritName(buf);
    assert name[16..20] == Hex(did as nat, 4, true);
    assert Pow16(4) == 0x1_0000;
    HexRoundTrip(did as nat, 4, true);
  }

  /** `probe_innogrit`: one vendor read; positive when it succeeds and some byte is not zero. */
  function InnogritProbe(dev: NvmeDevice, h: seq<Submission>): (p: Probe)
    ensures p.issued == [INNOGRIT_PROBE]
    ensures p.result.Some? <==> var a := dev.Answer(h, INNOGRIT_PROBE, Zeros(PROBE_LEN)); a.Ok? && AnyNonZero(a.value.buf)
    ensures p.result.Some? ==> p.result.value == Innogrit(InnogritName(dev.Answer(h, INNOGRIT_PROBE, Zeros(PROBE_LEN)).value.buf))
  {
    var a := dev.Answer(h, INNOGRIT_PROBE, Zeros(PROBE_LEN));
    Session(if a.Ok? && AnyNonZero(a.value.buf) then Some(Innogrit(InnogritName(a.value.buf))) else None, [INNOGRIT_PROBE])
  }

  method ProbeInnogrit(dev: NvmeDevice) returns (ct: Option<ControllerType>)
    modifies dev
    ensures ct == InnogritProbe(dev, old(dev.submitted)).result
    ensures dev.submitted == old(dev.submitted) + InnogritProbe(dev, old(dev.submitted)).issued
  {
    var r := dev.AdminRead(0xF2, 0, 0, 0, 0, 0, 0x54495247, 0x4F4E4E49, Zeros(PROBE_LEN));
    if r.Ok? && AnyNonZero(r.value.buf) {
      var buf := r.value.buf;
      var name := "Innogrit";
      if INNOGRIT_DID_OFFSET + 2 <= |buf| {
        var did := Le16(buf[INNOGRIT_DID_OFFSET], buf[INNOGRIT_DID_OFFSET + 1]);
        if did != 0 {
          name := "Innogrit (DID 0x" + Hex(did as nat, 4, true) + ")";
        }
      }
      return Some(Innogrit(name));
    }
    return None;
  }

  /* -------------------------------------------------------------- detect */

  /** The active probes in order, each sent only when every earlier one was negative. */
  function Probes(dev: NvmeDevice, h: seq<Submission>, validUtf8: seq<bv8> -> bool): Probe
  {
    var ph := PhisonProbe(dev, h);
    if ph.result.Some? then ph
    else
      var h1 := h + ph.issued;
      var mx := MaxioProbe(dev, h1, validUtf8);
      if mx.result.Some? then Session(mx.result, ph.issued + mx.issued)
      else
        var h2 := h1 + mx.issued;
        var mv := MarvellProbe(dev, h2);
        if mv.result.Some? then Session(mv.result, ph.issued + mx.issued + mv.issued)
        else
          var h3 := h2 + mv.issued;
          var ig := InnogritProbe(dev, h3);
          Session(ig.result, ph.issued + mx.issued + mv.issued + ig.issued)
  }

  /** `detect`: the passive rules, then the probes. */
  function DetectSpec(dev: NvmeDevice, h: seq<Submission>, info: ControllerInfo, validUtf8: seq<bv8> -> bool): Probe
  {
    var passive := Passive(info);
    if passive.Some? then Session(passive, []) else Probes(dev, h, validUtf8)
  }

  method DetectController(dev: NvmeDevice, info: ControllerInfo, validUtf8: seq<bv8> -> bool) returns (ct: Option<ControllerType>)
    modifies dev
    ensures ct == DetectSpec(dev, old(dev.submitted), info, validUtf8).result
    ensures dev.submitted == old(dev.submitted) + DetectSpec(dev, old(dev.submitted), info, validUtf8).issued
  {
    ct := DetectRealtek(info.firmware);
    if ct.Some? {
      return;
    }
    ct := DetectSmi(info.firmware, info.model, info.vid, info.ssvid);
    if ct.Some? {
      return;
    }
    ct := DetectTenafe(info.model);
    if ct.Some? {
      return;
    }
    ct := RunProbes(dev, validUtf8);
  }

  method RunProbes(dev: NvmeDevice, validUtf8: seq<bv8> -> bool) returns (ct: Option<ControllerType>)
    modifies dev
    ensures ct == Probes(dev, old(dev.submitted), validUtf8).result
    ensures dev.submitted == old(dev.submitted) + Probes(dev, old(dev.submitted), validUtf8).issued
  {
    ghost var h := dev.submitted;
    ct := ProbePhison(dev);
    if ct.Some? {
      return;
    }
    ghost var ph := PhisonProbe(dev, h);
    ghost var h1 := dev.submitted;
    ct := ProbeMaxio(dev, validUtf8);
    ghost var mx := MaxioProbe(dev, h1, validUtf8);
    assert dev.submitted == h + (ph.issued + mx.issued);
    if ct.Some? {
      return;
    }
    ghost var h2 := dev.submitted;
    ct := ProbeMarvell(dev);
    ghost var mv := MarvellProbe(dev, h2);
    assert dev.submitted == h + (ph.issued + mx.issued + mv.issued);
    if ct.Some? {
      return;
    }
    ghost var h3 := dev.submitted;
    ct := ProbeInnogrit(dev);
    ghost var ig := InnogritProbe(dev, h3);
    assert dev.submitted == h + (ph.issued + mx.issued + mv.issued + ig.issued);
  }

  /** A passive match sends no probe command. */
  lemma PassiveSendsNothing(dev: NvmeDevice, h: seq<Submission>, info: ControllerInfo, validUtf8: seq<bv8> -> bool)
    requires Passive(info).Some?
    ensures DetectSpec(dev, h, info, validUtf8) == Session(Passive(info), [])
  {
  }

  /** Without a passive match the Phison probe goes first, and nothing is
      detected only when every probe, in its turn, was negative. */
  lemma ProbesInOrder(dev: NvmeDevice, h: seq<Submission>, info: ControllerInfo, validUtf8: seq<bv8> -> bool)
    requires Passive(info).None?
    ensures var d := DetectSpec(dev, h, info, validUtf8); |d.issued| >= 1 && d.issued[0] == PHISON_PROBE
    ensures DetectSpec(dev, h, info, validUtf8).result.None? <==>
      var ph := PhisonProbe(dev, h);
      var mx := MaxioProbe(dev, h + ph.issued, validUtf8);
      var mv := MarvellProbe(dev, h + ph.issued + mx.issued);
      var ig := InnogritProbe(dev, h + ph.issued + mx.issued + mv.issued);
      ph.result.None? && mx.result.None? && mv.result.None? && ig.result.None?
    ensures DetectSpec(dev, h, info, validUtf8).result.None? ==> |DetectSpec(dev, h, info, validUtf8).issued| == 5
  {
  }
}

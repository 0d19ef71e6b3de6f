/** Choosing the extractor for a device: the NVMe path (a forced family
    name or detection, the Realtek variant override, one extractor per
    family), the SATA path (a forced name, firmware prefixes, then the
    vendor probes in a fixed order with the IDENTIFY data as last resort)
    and the device-name rules that tell the two buses apart. */
module Dispatch {
  import opened Base
  import opened Banks
  import opened Ata
  import Nvme
  import opened Detect
  import Smi
  import Rtl
  import Phison
  import Maxio
  import Marvell
  import Innogrit
  import Tenafe
  import JmSata
  import SmiSata
  import Yeestor
  import SandForce
  import RtlSata
  import IdentifyFid

  /* ------------------------------------------------------------------ NVMe */

  /** `resolve_nvme_controller_type`: a family key names its controller,
      labelled as forced; a forced Realtek is read as the first variant. */
  function ResolveNvmeControllerType(name: string): Option<ControllerType>
  {
    match name
    case "smi" => Some(Smi("SMI (forced)"))
    case "rtl" => Some(Realtek("Realtek (forced)", V1))
    case "phison" => Some(Phison("Phison (forced)"))
    case "maxio" => Some(Maxio("Maxio (forced)"))
    case "marvell" => Some(Marvell("Marvell (forced)"))
    case "innogrit" => Some(Innogrit("Innogrit (forced)"))
    case "tenafe" => Some(Tenafe("Tenafe (forced)"))
    case _ => None
  }

  /** Exactly the family keys resolve. */
  lemma ResolveAcceptsFamilies(name: string)
    ensures ResolveNvmeControllerType(name).Some? <==> name in FAMILIES
  {
    if name !in FAMILIES {
      assert name != "smi" && name != "rtl" && name != "phison" && name != "maxio";
      assert name != "marvell" && name != "innogrit" && name != "tenafe";
    }
  }

  /** A key resolves to a controller of its own family whose name ends in
      " (forced)"; a forced Realtek is the first variant. */
  lemma ResolveMeaning(name: string)
    ensures var r := ResolveNvmeControllerType(name);
      (r.Some? ==> Family(r.value) == name && EndsForced(r.value.name)) &&
      (r.Some? && r.value.Realtek? ==> r.value.variant == V1)
  {
  }

  const FORCED_SUFFIX := " (forced)"

  predicate EndsForced(name: string)
  {
    |name| > |FORCED_SUFFIX| && name[|name| - |FORCED_SUFFIX|..] == FORCED_SUFFIX
  }

  /** `controller_family_display`: the family as shown to the user. */
  function FamilyDisplay(ct: ControllerType): string
  {
    match ct
    case Smi(_) => "Silicon Motion"
    case Realtek(_, _) => "Realtek"
    case Phison(_) => "Phison"
    case Maxio(_) => "Maxio"
    case Marvell(_) => "Marvell"
    case Innogrit(_) => "Innogrit"
    case Tenafe(_) => "Tenafe"
  }

  /** Each family has its own display name: two controllers show the same
      one exactly when their family keys agree. */
  lemma FamilyDisplayDistinct(a: ControllerType, b: ControllerType)
    ensures FamilyDisplay(a) == FamilyDisplay(b) <==> Family(a) == Family(b)
  {
  }

  type NvmeRun = Session<Result<FlashIdResult>, Nvme.Submission>

  /** `nvme_read_flash_id`: each family's extractor; the Realtek one is given its variant. */
  function NvmeReadFlashId(dev: Nvme.NvmeDevice, h: seq<Nvme.Submission>, ct: ControllerType): NvmeRun
  {
    match ct
    case Smi(_) => Smi.Protocol(dev, h)
    case Realtek(_, variant) => Rtl.Protocol(dev, h, variant)
    case Phison(_) => Phison.Protocol(dev, h)
    case Maxio(_) => Maxio.Protocol(dev, h)
    case Marvell(_) => Marvell.Protocol(dev, h)
    case Innogrit(_) => Innogrit.Protocol(dev, h)
    case Tenafe(_) => Tenafe.Protocol(dev, h)
  }

  /** What is read depends on the family, and for Realtek on the variant,
      never on the name the controller was detected or forced under. */
  lemma NvmeReadIgnoresName(dev: Nvme.NvmeDevice, h: seq<Nvme.Submission>, a: ControllerType, b: ControllerType)
    requires Family(a) == Family(b) && (a.Realtek? ==> a.variant == b.variant)
    ensures NvmeReadFlashId(dev, h, a) == NvmeReadFlashId(dev, h, b)
  {
    FamilyDistinguishesKinds(a, b);
  }

  method ReadNvme(dev: Nvme.NvmeDevice, ct: ControllerType) returns (r: Result<FlashIdResult>)
    modifies dev
    ensures r == NvmeReadFlashId(dev, old(dev.submitted), ct).result
    ensures dev.submitted == old(dev.submitted) + NvmeReadFlashId(dev, old(dev.submitted), ct).issued
  {
    match ct
    case Smi(_) => r := Smi.ReadFlashId(dev);
    case Realtek(_, variant) => r := Rtl.ReadFlashId(dev, variant);
    case Phison(_) => r := Phison.ReadFlashId(dev);
    case Maxio(_) => r := Maxio.ReadFlashId(dev);
    case Marvell(_) => r := Marvell.ReadFlashId(dev);
    case Innogrit(_) => r := Innogrit.ReadFlashId(dev);
    case Tenafe(_) => r := Tenafe.ReadFlashId(dev);
  }

  /** The Realtek variant override: a requested variant replaces the
      variant of a Realtek controller and keeps its name; for any other
      controller it applies only when "rtl" was forced. */
  function OverrideVariant(ct: ControllerType, requested: Option<RtlVariant>, forced: Option<string>): (r: ControllerType)
    ensures requested.None? ==> r == ct
    ensures ct.Realtek? && requested.Some? ==> r == Realtek(ct.name, requested.value)
    ensures !ct.Realtek? && forced != Some("rtl") ==> r == ct
  {
    match requested
    case None => ct
    case Some(v) =>
      if ct.Realtek? then Realtek(ct.name, v)
      else if forced == Some("rtl") then Realtek("Realtek (forced)", v)
      else ct
  }

  /** The controller `run_nvme` reads as: the forced family, or else the
      detected one (an unknown forced name or a failed detection stops the
      run), with the requested Realtek variant applied. */
  function SelectNvme(forced: Option<string>, detected: Option<ControllerType>, requested: Option<RtlVariant>): (r: Result<ControllerType>)
    ensures r.Err? <==> (forced.Some? && forced.value !in FAMILIES) || (forced.None? && detected.None?)
    ensures r.Err? ==> r.error == UnknownController
  {
    var chosen := if forced.Some? then ResolveNvmeControllerType(forced.value) else detected;
    match chosen
    case None => Err(UnknownController)
    case Some(ct) => Ok(OverrideVariant(ct, requested, forced))
  }

  /** The override never changes the family: a forced "rtl" already
      resolves to a Realtek controller, so the branch for other
      controllers never fires; a forced family is kept, and so is a
      detected one, with its name. */
  lemma SelectKeepsFamily(forced: Option<string>, detected: Option<ControllerType>, requested: Option<RtlVariant>)
    ensures var r := SelectNvme(forced, detected, requested);
      r.Ok? ==> (
        var ct := if forced.Some? then ResolveNvmeControllerType(forced.value).value else detected.value;
        Family(r.value) == Family(ct) && r.value.name == ct.name &&
        (r.value.Realtek? ==> r.value.variant == if requested.Some? then requested.value else ct.variant))
  {
    var r := SelectNvme(forced, detected, requested);
    if r.Ok? {
      var ct := if forced.Some? then ResolveNvmeControllerType(forced.value).value else detected.value;
      if !ct.Realtek? && forced == Some("rtl") {
        assert false;
      }
    }
  }

  /* ------------------------------------------------------------------ SATA */

  /** The SATA extractors, and the family each reports. */
  datatype SataKind = JmKind | SmiKind | YeestorKind | SandForceKind | RtlKind

  const SATA_TYPES: seq<string> := ["jm", "smi-sata", "yeestor", "sandforce", "rtl-sata"]

  function SataName(k: SataKind): (name: string)
    ensures name in SATA_TYPES
  {
    match k
    case JmKind => "jm"
    case SmiKind => "smi-sata"
    case YeestorKind => "yeestor"
    case SandForceKind => "sandforce"
    case RtlKind => "rtl-sata"
  }

  /** The extractor a forced SATA name selects. */
  function SataKindOf(name: string): (k: Option<SataKind>)
    ensures k.Some? <==> name in SATA_TYPES
    ensures k.Some? ==> SataName(k.value) == name
  {
    match name
    case "jm" => Some(JmKind)
    case "smi-sata" => Some(SmiKind)
    case "yeestor" => Some(YeestorKind)
    case "sandforce" => Some(SandForceKind)
    case "rtl-sata" => Some(RtlKind)
    case _ => None
  }

  /** Every extractor is selected by its own name. */
  lemma SataNameRoundTrip(k: SataKind)
    ensures SataKindOf(SataName(k)) == Some(k)
  {
  }

  function FamilyLabel(k: SataKind): string
  {
    match k
    case JmKind => "JMicron/Maxio"
    case SmiKind => "Silicon Motion"
    case YeestorKind => "Yeestor/SiliconGo"
    case SandForceKind => "SandForce"
    case RtlKind => "Realtek"
  }

  /** The family reported when the flash id came from the IDENTIFY data. */
  const IDENTIFY_LABEL := "SATA"

  /** Each extractor's family label is its own, and none is the IDENTIFY one. */
  lemma FamilyLabelsDistinct(a: SataKind, b: SataKind)
    ensures FamilyLabel(a) == FamilyLabel(b) <==> a == b
    ensures FamilyLabel(a) != IDENTIFY_LABEL
  {
  }

  /** A result with the family it is reported under. */
  datatype Labelled = Labelled(result: FlashIdResult, family: string)

  type SataRun = Session<Result<Labelled>, AtaRequest>

  /** An extractor's result labelled with `family`; a failure stays the same failure. */
  function LabelResult(r: Result<FlashIdResult>, family: string): (l: Result<Labelled>)
    ensures l.Err? <==> r.Err?
    ensures l.Err? ==> l.error == r.error
    ensures l.Ok? ==> l.value.result == r.value && l.value.family == family
  {
    match r
    case Err(e) => Err(e)
    case Ok(v) => Ok(Labelled(v, family))
  }

  /** An extractor's run, its result labelled with `family`. */
  function Tag(run: Session<Result<FlashIdResult>, AtaRequest>, family: string): SataRun
  {
    Session(LabelResult(run.result, family), run.issued)
  }

  /** `try_jm_sata`: the firmware-id read, and the flash-id read on its page
      only when it succeeded. */
  function TryJm(dev: AtaDevice, h: seq<AtaRequest>): SataRun
  {
    var fw := JmSata.FirmwareId(dev, h);
    match fw.result
    case Err(e) => Session(Err(e), fw.issued)
    case Ok(page) => After(fw.issued, Tag(JmSata.Protocol(dev, h + fw.issued, page), "JMicron/Maxio"))
  }

  /** The `try_*` wrappers: the extractor's run after history `h`, labelled with its family. */
  function TrySata(dev: AtaDevice, h: seq<AtaRequest>, k: SataKind): (s: SataRun)
    ensures s.result.Ok? ==> s.result.value.family == FamilyLabel(k)
  {
    match k
    case JmKind => TryJm(dev, h)
    case SmiKind => Tag(SmiSata.Protocol(dev, h), FamilyLabel(k))
    case YeestorKind => Tag(Yeestor.Protocol(dev, h), FamilyLabel(k))
    case SandForceKind => Tag(SandForce.Protocol(dev, h), FamilyLabel(k))
    case RtlKind => Tag(RtlSata.Protocol(dev, h), FamilyLabel(k))
  }

  /** A failed firmware-id read ends the JMicron attempt: its error is the
      attempt's, and no flash-id command follows the firmware-id commands. */
  lemma JmStopsWithoutFirmwareId(dev: AtaDevice, h: seq<AtaRequest>)
    ensures var fw := JmSata.FirmwareId(dev, h);
      fw.result.Err? ==> TrySata(dev, h, JmKind) == Session(Err(fw.result.error), fw.issued)
    ensures var fw := JmSata.FirmwareId(dev, h);
      fw.result.Ok? ==> TrySata(dev, h, JmKind).issued == fw.issued + JmSata.Protocol(dev, h + fw.issued, fw.result.value).issued
  {
  }

  /** The probing order, least invasive first. */
  const AUTO_ORDER: seq<SataKind> := [YeestorKind, SmiKind, SandForceKind, JmKind, RtlKind]

  /** The `or_else` chain: each extractor in turn after the commands of the
      ones before, until one succeeds; when none does, the flash id found in
      the IDENTIFY data, if any. */
  function Chain(dev: AtaDevice, h: seq<AtaRequest>, kinds: seq<SataKind>, identified: Option<FlashIdResult>): SataRun
    decreases |kinds|
  {
    if kinds == [] then
      Session(if identified.Some? then Ok(Labelled(identified.value, IDENTIFY_LABEL)) else Err(NoFlashData), [])
    else
      var t := TrySata(dev, h, kinds[0]);
      if t.result.Ok? then t else After(t.issued, Chain(dev, h + t.issued, kinds[1..], identified))
  }

  /** The chain fails only when the IDENTIFY data holds no flash id, with the
      last resort's error; a result comes from one of the extractors tried,
      under its family, or from the IDENTIFY data. */
  lemma {:induction false} ChainMeaning(dev: AtaDevice, h: seq<AtaRequest>, kinds: seq<SataKind>, identified: Option<FlashIdResult>)
    ensures var r := Chain(dev, h, kinds, identified).result;
      (r.Err? ==> identified.None? && r.error == NoFlashData) &&
      (r.Ok? ==> (
        (identified.Some? && r.value == Labelled(identified.value, IDENTIFY_LABEL)) ||
        exists j :: 0 <= j < |kinds| && r.value.family == FamilyLabel(kinds[j])))
    decreases |kinds|
  {
    if kinds != [] {
      var t := TrySata(dev, h, kinds[0]);
      if t.result.Err? {
        var rest := Chain(dev, h + t.issued, kinds[1..], identified);
        ChainMeaning(dev, h + t.issued, kinds[1..], identified);
        if rest.result.Ok? && rest.result.value.family != IDENTIFY_LABEL {
          var j :| 0 <= j < |kinds[1..]| && rest.result.value.family == FamilyLabel(kinds[1..][j]);
          assert kinds[1..][j] == kinds[j + 1];
        }
      }
    }
  }

  /** The IDENTIFY data is used only after every extractor has failed: the
      first extractor's success is the chain's result, and an IDENTIFY result
      means the first extractor failed and so did the rest of the chain. */
  lemma {:induction false} ChainIdentifyLast(dev: AtaDevice, h: seq<AtaRequest>, kinds: seq<SataKind>, identified: Option<FlashIdResult>)
    requires kinds != []
    ensures TrySata(dev, h, kinds[0]).result.Ok? ==> Chain(dev, h, kinds, identified) == TrySata(dev, h, kinds[0])
    ensures var r := Chain(dev, h, kinds, identified).result;
      r.Ok? && r.value.family == IDENTIFY_LABEL ==> (
        TrySata(dev, h, kinds[0]).result.Err? &&
        Chain(dev, h + TrySata(dev, h, kinds[0]).issued, kinds[1..], identified).result == r)
  {
    var t := TrySata(dev, h, kinds[0]);
    if t.result.Ok? {
      FamilyLabelsDistinct(kinds[0], kinds[0]);
    }
  }

  const IDENTIFY_REQUEST := ReadRequest(IDENTIFY_REGS, IDENTIFY_LEN)

  /** The selection after IDENTIFY DEVICE returned `data`: a forced
      extractor; else the SMI firmware prefixes choose SMI alone, then the
      Realtek ones Realtek alone; else the probing chain. */
  function Select(dev: AtaDevice, h: seq<AtaRequest>, forced: Option<SataKind>, firmware: string, identified: Option<FlashIdResult>): SataRun
  {
    if forced.Some? then TrySata(dev, h, forced.value)
    else if SmiSata.DetectFromFirmware(firmware).Some? then TrySata(dev, h, SmiKind)
    else if RtlSata.DetectFromFirmware(firmware).Some? then TrySata(dev, h, RtlKind)
    else Chain(dev, h, AUTO_ORDER, identified)
  }

  /** `run_sata` after history `h`: a forced name outside the SATA types is
      refused before any command; then IDENTIFY DEVICE, whose failure ends
      the run; then the selection. */
  function RunSata(dev: AtaDevice, h: seq<AtaRequest>, forced: Option<string>): SataRun
  {
    if forced.Some? && forced.value !in SATA_TYPES then Session(Err(UnknownController), [])
    else
      match dev.Answer(h, IDENTIFY_REQUEST, IDENTIFY_LEN)
      case Err(e) => Session(Err(e), [IDENTIFY_REQUEST])
      case Ok(data) =>
        After([IDENTIFY_REQUEST], Select(dev, h + [IDENTIFY_REQUEST], if forced.Some? then SataKindOf(forced.value) else None,
                                         ParseAtaIdentify(data).firmware, IdentifyFid.ExtractFromIdentify(data)))
  }

  /** A refused name sends nothing; any other run starts with IDENTIFY
      DEVICE; a forced name runs exactly its own extractor after it. */
  lemma RunSataForced(dev: AtaDevice, h: seq<AtaRequest>, forced: Option<string>)
    ensures forced.Some? && forced.value !in SATA_TYPES ==> RunSata(dev, h, forced) == Session(Err(UnknownController), [])
    ensures !(forced.Some? && forced.value !in SATA_TYPES) ==> (
      var run := RunSata(dev, h, forced);
      |run.issued| >= 1 && run.issued[0] == IDENTIFY_REQUEST)
    ensures forced.Some? && forced.value in SATA_TYPES && dev.Answer(h, IDENTIFY_REQUEST, IDENTIFY_LEN).Ok? ==>
      RunSata(dev, h, forced) == After([IDENTIFY_REQUEST], TrySata(dev, h + [IDENTIFY_REQUEST], SataKindOf(forced.value).value))
  {
  }

  /** Without a forced name, a firmware revision with an SMI prefix runs only
      the SMI extractor, and one with a Realtek prefix (and no SMI one) only
      the Realtek extractor. */
  lemma FirmwarePrefixDecides(dev: AtaDevice, h: seq<AtaRequest>, firmware: string, identified: Option<FlashIdResult>)
    ensures SmiSata.DetectFromFirmware(firmware).Some? ==>
      Select(dev, h, None, firmware, identified) == Tag(SmiSata.Protocol(dev, h), "Silicon Motion")
    ensures SmiSata.DetectFromFirmware(firmware).None? && RtlSata.DetectFromFirmware(firmware).Some? ==>
      Select(dev, h, None, firmware, identified) == Tag(RtlSata.Protocol(dev, h), "Realtek")
  {
  }

  /** Otherwise the probing starts with the Yeestor extractor, the least invasive. */
  lemma ProbingStartsWithYeestor(dev: AtaDevice, h: seq<AtaRequest>, firmware: string, identified: Option<FlashIdResult>)
    requires SmiSata.DetectFromFirmware(firmware).None? && RtlSata.DetectFromFirmware(firmware).None?
    ensures var run := Select(dev, h, None, firmware, identified);
      var first := Yeestor.Protocol(dev, h).issued;
      |first| <= |run.issued| && run.issued[..|first|] == first
  {
    var t := TrySata(dev, h, YeestorKind);
    assert AUTO_ORDER[0] == YeestorKind;
    var run := Select(dev, h, None, firmware, identified);
    assert run.issued[..|t.issued|] == t.issued;
  }

  /* -------------------------------------------------------------- methods */

  method TryJmSata(dev: AtaDevice) returns (r: Result<Labelled>)
    modifies dev
    ensures r == TryJm(dev, old(dev.requests)).result
    ensures dev.requests == old(dev.requests) + TryJm(dev, old(dev.requests)).issued
  {
    ghost var h := dev.requests;
    var fw := JmSata.ReadFirmwareId(dev);
    if fw.Err? {
      return Err(fw.error);
    }
    ghost var h1 := dev.requests;
    var result := JmSata.ReadFlashId(dev, fw.value);
    Concat(h, JmSata.FirmwareId(dev, h).issued, JmSata.Protocol(dev, h1, fw.value).issued);
    r := LabelResult(result, "JMicron/Maxio");
  }

  method Try(dev: AtaDevice, k: SataKind) returns (r: Result<Labelled>)
    modifies dev
    ensures r == TrySata(dev, old(dev.requests), k).result
    ensures dev.requests == old(dev.requests) + TrySata(dev, old(dev.requests), k).issued
  {
    match k
    case JmKind =>
      r := TryJmSata(dev);
    case SmiKind =>
      var found := SmiSata.ReadFlashId(dev);
      r := LabelResult(found, "Silicon Motion");
    case YeestorKind =>
      var found := Yeestor.ReadFlashId(dev);
      r := LabelResult(found, "Yeestor/SiliconGo");
    case SandForceKind =>
      var found := SandForce.ReadFlashId(dev);
      r := LabelResult(found, "SandForce");
    case RtlKind =>
      var found := RtlSata.ReadFlashId(dev);
      r := LabelResult(found, "Realtek");
  }

  /** The `or_else` chain over `kinds`. */
  method TryInTurn(dev: AtaDevice, kinds: seq<SataKind>, identified: Option<FlashIdResult>) returns (r: Result<Labelled>)
    modifies dev
    decreases |kinds|
    ensures r == Chain(dev, old(dev.requests), kinds, identified).result
    ensures dev.requests == old(dev.requests) + Chain(dev, old(dev.requests), kinds, identified).issued
  {
    if kinds == [] {
      NothingSent(dev.requests);
      if identified.Some? {
        return Ok(Labelled(identified.value, IDENTIFY_LABEL));
      }
      return Err(NoFlashData);
    }
    ghost var h := dev.requests;
    r := Try(dev, kinds[0]);
    if r.Ok? {
      return;
    }
    ghost var h1 := dev.requests;
    r := TryInTurn(dev, kinds[1..], identified);
    Concat(h, TrySata(dev, h, kinds[0]).issued, Chain(dev, h1, kinds[1..], identified).issued);
  }

  /** `run_sata` up to the result it prints. */
  method ReadSata(dev: AtaDevice, forced: Option<string>) returns (r: Result<Labelled>)
    modifies dev
    ensures r == RunSata(dev, old(dev.requests), forced).result
    ensures dev.requests == old(dev.requests) + RunSata(dev, old(dev.requests), forced).issued
  {
    if forced.Some? && forced.value !in SATA_TYPES {
      NothingSent(dev.requests);
      return Err(UnknownController);
    }
    ghost var h := dev.requests;
    var id := dev.AtaIdentify();
    if id.Err? {
      return Err(id.error);
    }
    var data := id.value;
    var info := ParseAtaIdentify(data);
    var identified := IdentifyFid.ExtractFromIdentify(data);
    ghost var h1 := dev.requests;
    ghost var kind := if forced.Some? then SataKindOf(forced.value) else None;
    ghost var sel := Select(dev, h1, kind, info.firmware, identified);
    if forced.Some? {
      r := Try(dev, SataKindOf(forced.value).value);
    } else if SmiSata.DetectFromFirmware(info.firmware).Some? {
      r := Try(dev, SmiKind);
    } else if RtlSata.DetectFromFirmware(info.firmware).Some? {
      r := Try(dev, RtlKind);
    } else {
      r := TryInTurn(dev, AUTO_ORDER, identified);
    }
    Concat(h, [IDENTIFY_REQUEST], sel.issued);
  }

  /* ---------------------------------------------------------- device names */

  predicate IsDigit(c: char) { '0' <= c <= '9' }
  predicate IsLower(c: char) { 'a' <= c <= 'z' }

  /** A `/dev` entry listed as an NVMe controller: "nvme" and a non-empty
      suffix with no 'n' (which would name a namespace or a partition) and
      only digits. */
  predicate IsNvmeControllerName(name: string)
  {
    StartsWith(name, "nvme") && 'n' !in name[4..] && name[4..] != [] &&
    forall i :: 4 <= i < |name| ==> IsDigit(name[i])
  }

  /** A `/dev` entry listed as a SATA disk: "sd" and a non-empty suffix of
      lower-case letters only (a partition has digits). */
  predicate IsSataDiskName(name: string)
  {
    StartsWith(name, "sd") && name[2..] != [] && forall i :: 2 <= i < |name| ==> IsLower(name[i])
  }

  /** `is_sata_path` on the file name of the path: "sd" means SATA, "nvme"
      means NVMe, and any other name is SATA exactly when the path is a
      block device, which the caller supplies. */
  function IsSataPath(name: string, isBlockDevice: bool): (sata: bool)
    ensures StartsWith(name, "sd") ==> sata
    ensures StartsWith(name, "nvme") ==> !sata
    ensures !StartsWith(name, "sd") && !StartsWith(name, "nvme") ==> sata == isBlockDevice
  {
    PrefixesDiffer(name);
    if StartsWith(name, "sd") then true
    else if StartsWith(name, "nvme") then false
    else isBlockDevice
  }

  /** No name starts with both "sd" and "nvme". */
  lemma PrefixesDiffer(name: string)
    ensures !(StartsWith(name, "sd") && StartsWith(name, "nvme"))
  {
    if StartsWith(name, "sd") {
      assert name[0] == name[..2][0] == 's';
    }
  }

  /** The listing rules and the bus rule agree: a listed NVMe controller is
      never taken for SATA, a listed SATA disk always is, and no name is
      listed as both. */
  lemma NameRulesAgree(name: string, isBlockDevice: bool)
    ensures IsNvmeControllerName(name) ==> !IsSataPath(name, isBlockDevice) && !IsSataDiskName(name)
    ensures IsSataDiskName(name) ==> IsSataPath(name, isBlockDevice)
  {
    PrefixesDiffer(name);
  }

  /** The 'n' test is implied by the digit test: only digits follow "nvme". */
  lemma NvmeSuffixDigitsOnly(name: string)
    ensures IsNvmeControllerName(name) <==>
      StartsWith(name, "nvme") && |name| > 4 && forall i :: 4 <= i < |name| ==> IsDigit(name[i])
  {
    if StartsWith(name, "nvme") && |name| > 4 && forall i :: 4 <= i < |name| ==> IsDigit(name[i]) {
      if 'n' in name[4..] {
        assert false;
      }
    }
  }

  /** Controllers and disks are listed; namespaces and partitions are not. */
  lemma NameExamples()
    ensures IsNvmeControllerName("nvme0") && IsNvmeControllerName("nvme12")
    ensures !IsNvmeControllerName("nvme0n1") && !IsNvmeControllerName("nvme")
    ensures IsSataDiskName("sda") && IsSataDiskName("sdab")
    ensures !IsSataDiskName("sda1") && !IsSataDiskName("sd")
  {
    assert "nvme0n1"[5] == 'n';
    assert "sda1"[3] == '1';
  }
}

/** The Yeestor/SiliconGo SATA extractor: READ DMA of up to five magic LBAs
    in a fixed order; the first page that reads back and starts with an
    accepted manufacturer id holds the flash ids as a run of 8-byte slots. */
module Yeestor {
  import opened Base
  import opened Banks
  import opened Ata

  const BUF_LEN: nat := 512
  const MAX_BANKS: nat := 16
  const NAME_PREFIX := "Yeestor/SiliconGo (DMA 0x"

  /** A magic LBA: its mid and low bytes (the high byte is 0). */
  datatype Lba = Lba(mid: bv8, low: bv8)

  /** R1 to R5, in the order they are tried. */
  const MAGIC_LBAS: seq<Lba> := [Lba(0x55, 0x00), Lba(0x00, 0x55), Lba(0xAA, 0x00), Lba(0x00, 0xAA), Lba(0x55, 0xAA)]

  /** The manufacturer ids a page may start with. */
  const JEDEC_IDS: seq<bv8> := [0x2C, 0x89, 0xAD, 0x45, 0xEC, 0x98, 0xC8, 0x9B, 0x01]

  /** READ DMA (0xC8), one sector, device 0x40, at the magic LBA. */
  function DmaRead(p: Lba): AtaRequest
  {
    DmaReadRequest(Regs(0xC8, 0x00, 0x01, p.low, p.mid, 0x00, 0x40), BUF_LEN)
  }

  lemma DmaReadBlock(p: Lba)
    ensures DmaRead(p).cdb == [0x85, 0x0C, 0x2E, 0, 0x00, 0, 0x01, 0, p.low, 0, p.mid, 0, 0x00, 0x40, 0xC8, 0]
    ensures DmaRead(p).hdr.dxferLen == 512
  {
  }

  /** The name records the LBA read: mid and low byte as two upper-case hex digits each. */
  function Name(p: Lba): (name: string)
    ensures |name| == |NAME_PREFIX| + 5 && name[..|NAME_PREFIX|] == NAME_PREFIX
  {
    NAME_PREFIX + Hex(p.mid as nat, 2, true) + Hex(p.low as nat, 2, true) + ")"
  }

  /** The digits of the name read back as the LBA's mid and low bytes. */
  lemma NameShowsLba(p: Lba)
    ensures HexValue(Name(p)[|NAME_PREFIX|..|NAME_PREFIX| + 2]) == p.mid as nat
    ensures HexValue(Name(p)[|NAME_PREFIX| + 2..|NAME_PREFIX| + 4]) == p.low as nat
  {
    ByteOfInt(p.mid);
    ByteOfInt(p.low);
    HexRoundTrip(p.mid as nat, 2, true);
    HexRoundTrip(p.low as nat, 2, true);
    Pieces(NAME_PREFIX, Hex(p.mid as nat, 2, true), Hex(p.low as nat, 2, true), ")");
  }

  /** The middle pieces of a four-piece string are where their lengths put them. */
  lemma Pieces(a: string, b: string, c: string, d: string)
    ensures (a + b + c + d)[|a|..|a| + |b|] == b
    ensures (a + b + c + d)[|a| + |b|..|a| + |b| + |c|] == c
  {
    var s := a + b + c + d;
    assert s[|a|..|a| + |b|] == b by {
      assert forall i :: 0 <= i < |b| ==> s[|a| + i] == b[i];
    }
    assert s[|a| + |b|..|a| + |b| + |c|] == c by {
      assert forall i :: 0 <= i < |c| ==> s[|a| + |b| + i] == c[i];
    }
  }

  /** The leading run of non-empty slots of a page, at most 16. */
  function PageBanks(buf: seq<bv8>): seq<FlashBank>
  {
    StopScan(buf, MAX_BANKS)
  }

  /** No accepted id is 0x00 or 0xFF, so a page starting with one has a
      non-empty first slot and yields at least one bank. */
  lemma AcceptedPageHasBanks(buf: seq<bv8>)
    requires |buf| == BUF_LEN && buf[0] in JEDEC_IDS
    ensures PageBanks(buf) != []
  {
    assert Slot8(buf, 0).value == buf[..ID_LEN];
    FirstByteDecides(buf[..ID_LEN]);
    StopScanStarts(buf, MAX_BANKS);
  }

  /** What one pattern yields and the read it sends. */
  type Try = Session<Option<FlashIdResult>, AtaRequest>

  /** One pattern after history `h`: its read; a failed read, or a page
      whose first byte is not an accepted id, moves on; otherwise the page's
      banks under the pattern's name. */
  function Attempt(dev: AtaDevice, h: seq<AtaRequest>, p: Lba): (t: Try)
    ensures t.issued == [DmaRead(p)]
    ensures t.result.Some? <==> dev.Answer(h, DmaRead(p), BUF_LEN).Ok? && dev.Answer(h, DmaRead(p), BUF_LEN).value[0] in JEDEC_IDS
    ensures t.result.Some? ==> t.result.value == FlashIdResult(Name(p), PageBanks(dev.Answer(h, DmaRead(p), BUF_LEN).value))
  {
    match dev.Answer(h, DmaRead(p), BUF_LEN)
    case Err(_) => Session(None, [DmaRead(p)])
    case Ok(buf) =>
      if buf[0] !in JEDEC_IDS then Session(None, [DmaRead(p)])
      else
        var banks := PageBanks(buf);
        AcceptedPageHasBanks(buf);
        if banks == [] then Session(None, [DmaRead(p)])
        else Session(Some(FlashIdResult(Name(p), banks)), [DmaRead(p)])
  }

  type Run = Session<Result<FlashIdResult>, AtaRequest>

  /** The patterns `pats` in order after history `h`: the first that finds
      banks is the result; when none does, no flash data. */
  function TryFrom(dev: AtaDevice, h: seq<AtaRequest>, pats: seq<Lba>): Run
    decreases |pats|
  {
    if pats == [] then Session(Err(NoFlashData), [])
    else
      var t := Attempt(dev, h, pats[0]);
      if t.result.Some? then Session(Ok(t.result.value), t.issued)
      else After(t.issued, TryFrom(dev, h + t.issued, pats[1..]))
  }

  /** `read_flash_id`. */
  function Protocol(dev: AtaDevice, h: seq<AtaRequest>): Run
  {
    TryFrom(dev, h, MAGIC_LBAS)
  }

  /** The reads of the patterns, in order. */
  function Reads(pats: seq<Lba>): (rs: seq<AtaRequest>)
    ensures |rs| == |pats| && forall i :: 0 <= i < |pats| ==> rs[i] == DmaRead(pats[i])
  {
    seq(|pats|, i requires 0 <= i < |pats| => DmaRead(pats[i]))
  }

  /** The history before pattern `k`: `h` and the reads of the patterns before it. */
  function Before(h: seq<AtaRequest>, pats: seq<Lba>, k: nat): seq<AtaRequest>
    requires k <= |pats|
  {
    h + Reads(pats)[..k]
  }

  /** Pattern `k + 1` of `pats` comes after the first read what pattern `k` of the rest does. */
  lemma BeforeShift(h: seq<AtaRequest>, pats: seq<Lba>, k: nat)
    requires k < |pats|
    ensures Before(h, pats, k + 1) == Before(h + [DmaRead(pats[0])], pats[1..], k)
  {
    assert Reads(pats)[..k + 1] == [DmaRead(pats[0])] + Reads(pats[1..])[..k];
  }

  /** The patterns are read in order, one read each, and nothing else is
      sent; when none yields banks all five are read and the error is that
      no flash data was found. */
  lemma {:induction false} TryFromIssued(dev: AtaDevice, h: seq<AtaRequest>, pats: seq<Lba>)
    ensures var run := TryFrom(dev, h, pats);
      |run.issued| <= |pats| && run.issued == Reads(pats)[..|run.issued|] &&
      (pats != [] ==> |run.issued| >= 1) &&
      (run.result.Err? ==> |run.issued| == |pats| && run.result.error == NoFlashData)
    decreases |pats|
  {
    if pats != [] {
      var t := Attempt(dev, h, pats[0]);
      if t.result.Some? {
        assert Reads(pats)[..1] == [DmaRead(pats[0])];
      } else {
        var h1 := h + [DmaRead(pats[0])];
        TryFromIssued(dev, h1, pats[1..]);
        var m := |TryFrom(dev, h1, pats[1..]).issued|;
        assert Reads(pats)[..m + 1] == [DmaRead(pats[0])] + Reads(pats[1..])[..m];
      }
    }
  }

  /** The result is the first pattern's that yields banks: every pattern
      read before it found nothing, and its own attempt gives the result. */
  lemma {:induction false} TryFromFirst(dev: AtaDevice, h: seq<AtaRequest>, pats: seq<Lba>)
    ensures var run := TryFrom(dev, h, pats);
      var n := |run.issued|;
      n <= |pats| &&
      (forall k :: 0 <= k < n && (run.result.Err? || k < n - 1) ==> Attempt(dev, Before(h, pats, k), pats[k]).result.None?) &&
      (run.result.Ok? ==> n >= 1 && Attempt(dev, Before(h, pats, n - 1), pats[n - 1]).result == Some(run.result.value))
    decreases |pats|
  {
    if pats != [] {
      var t := Attempt(dev, h, pats[0]);
      assert Before(h, pats, 0) == h;
      if t.result.None? {
        var h1 := h + [DmaRead(pats[0])];
        var rest := TryFrom(dev, h1, pats[1..]);
        TryFromFirst(dev, h1, pats[1..]);
        forall k | 1 <= k <= |rest.issued|
          ensures Before(h, pats, k) == Before(h1, pats[1..], k - 1)
        {
          BeforeShift(h, pats, k - 1);
        }
      }
    }
  }

  method ReadFlashId(dev: AtaDevice) returns (r: Result<FlashIdResult>)
    modifies dev
    ensures r == Protocol(dev, old(dev.requests)).result
    ensures dev.requests == old(dev.requests) + Protocol(dev, old(dev.requests)).issued
  {
    ghost var sent: seq<AtaRequest> := [];
    for i := 0 to |MAGIC_LBAS|
      invariant dev.requests == old(dev.requests) + sent
      invariant Protocol(dev, old(dev.requests)) == After(sent, TryFrom(dev, dev.requests, MAGIC_LBAS[i..]))
    {
      ghost var h := dev.requests;
      TryStep(dev, h, MAGIC_LBAS, i);
      var found := TryPattern(dev, MAGIC_LBAS[i]);
      Concat(old(dev.requests), sent, [DmaRead(MAGIC_LBAS[i])]);
      if found.Some? {
        return Ok(found.value);
      }
      AfterAfter(sent, [DmaRead(MAGIC_LBAS[i])], TryFrom(dev, h + [DmaRead(MAGIC_LBAS[i])], MAGIC_LBAS[i + 1..]));
      sent := sent + [DmaRead(MAGIC_LBAS[i])];
    }
    assert MAGIC_LBAS[|MAGIC_LBAS|..] == [];
    return Err(NoFlashData);
  }

  /** The body of the pattern loop: `read_magic_dma`, the manufacturer
      test, the stopping scan. */
  method TryPattern(dev: AtaDevice, p: Lba) returns (found: Option<FlashIdResult>)
    modifies dev
    ensures found == Attempt(dev, old(dev.requests), p).result
    ensures dev.requests == old(dev.requests) + [DmaRead(p)]
  {
    var rd := dev.AtaDmaRead(Regs(0xC8, 0x00, 0x01, p.low, p.mid, 0x00, 0x40), BUF_LEN);
    if rd.Err? {
      return None;
    }
    var buf := rd.value;
    if buf[0] !in JEDEC_IDS {
      return None;
    }
    var banks := CollectUntilEmpty(buf, MAX_BANKS);
    if banks == [] {
      return None;
    }
    var name := NAME_PREFIX + Hex(p.mid as nat, 2, true) + Hex(p.low as nat, 2, true) + ")";
    return Some(FlashIdResult(name, banks));
  }

  /** `TryFrom` on the patterns from `i` on, one pattern unfolded. */
  lemma TryStep(dev: AtaDevice, h: seq<AtaRequest>, pats: seq<Lba>, i: nat)
    requires i < |pats|
    ensures var t := Attempt(dev, h, pats[i]);
      TryFrom(dev, h, pats[i..]) ==
        if t.result.Some? then Session(Ok(t.result.value), t.issued)
        else After(t.issued, TryFrom(dev, h + t.issued, pats[i + 1..]))
  {
    assert pats[i..][0] == pats[i] && pats[i..][1..] == pats[i + 1..];
  }
}

/** Flash banks, the empty-slot rule shared by every extractor, and the two
    ways the extractors walk a response buffer slot by slot: skipping
    rejected slots (numbered by slot index) or stopping at the first empty one. */
module Banks {
  import opened Base

  /** One flash bank: its number and the 8-byte READ ID answer of its die. */
  datatype FlashBank = FlashBank(bankNum: nat, flashId: seq<bv8>)

  /** What an extractor reports: the controller's name and the banks in the order found. */
  datatype FlashIdResult = FlashIdResult(controllerName: string, banks: seq<FlashBank>)

  const ID_LEN: nat := 8

  /** `bank_num` is a `u32`. */
  const BANK_NUM_LIMIT: nat := 0x1_0000_0000

  /** A bank as ssd-flash-id's `FlashBank` can hold it: exactly 8 id bytes and a `u32` number. */
  predicate ValidBank(b: FlashBank) { |b.flashId| == ID_LEN && b.bankNum < BANK_NUM_LIMIT }

  /** Every bank is valid and the bank numbers strictly increase in push order. */
  predicate ValidBanks(banks: seq<FlashBank>)
  {
    (forall k :: 0 <= k < |banks| ==> ValidBank(banks[k])) &&
    (forall j, k :: 0 <= j < k < |banks| ==> banks[j].bankNum < banks[k].bankNum)
  }

  /* --------------------------------------------------------- the empty slot */

  /** `iter().all(|&x| x == b)`. */
  function AllEqual(s: seq<bv8>, b: bv8): bool
  {
    |s| == 0 || (s[0] == b && AllEqual(s[1..], b))
  }

  lemma {:induction false} AllEqualMeans(s: seq<bv8>, b: bv8)
    ensures AllEqual(s, b) <==> forall i :: 0 <= i < |s| ==> s[i] == b
  {
    if |s| > 0 {
      AllEqualMeans(s[1..], b);
      assert forall i :: 1 <= i < |s| ==> s[i] == s[1..][i - 1];
    }
  }

  /** A slot that reads as erased (all 0xFF) or unpopulated (all 0x00). */
  predicate IsBankEmpty(data: seq<bv8>)
  {
    AllEqual(data, 0x00) || AllEqual(data, 0xFF)
  }

  lemma IsBankEmptyIff(data: seq<bv8>)
    ensures IsBankEmpty(data) <==>
      (forall i :: 0 <= i < |data| ==> data[i] == 0x00) || (forall i :: 0 <= i < |data| ==> data[i] == 0xFF)
  {
    AllEqualMeans(data, 0x00);
    AllEqualMeans(data, 0xFF);
  }

  /** The empty slice counts as an empty bank. */
  lemma NoBytesIsEmpty()
    ensures IsBankEmpty([])
  {
  }

  /** A slot holding both a 0x00 and a 0xFF byte is not empty. */
  lemma MixedIsNotEmpty(data: seq<bv8>, i: nat, j: nat)
    requires i < |data| && j < |data| && data[i] == 0x00 && data[j] == 0xFF
    ensures !IsBankEmpty(data)
  {
    IsBankEmptyIff(data);
  }

  /** A slot whose first byte is neither 0x00 nor 0xFF is not empty: a first
      byte from a manufacturer allow-list without those two values settles it. */
  lemma FirstByteDecides(data: seq<bv8>)
    requires |data| > 0 && data[0] != 0x00 && data[0] != 0xFF
    ensures !IsBankEmpty(data)
  {
    IsBankEmptyIff(data);
  }

  /* ---------------------------------------------------------------- ids */

  /** A flash id of up to 8 bytes copied into a zeroed `[u8; 8]`. */
  function PadId(entry: seq<bv8>): (id: seq<bv8>)
    requires |entry| <= ID_LEN
    ensures |id| == ID_LEN
    ensures forall k :: 0 <= k < ID_LEN ==> id[k] == if k < |entry| then entry[k] else 0
  {
    entry + Zeros(ID_LEN - |entry|)
  }

  /** A full 8-byte slot is copied as it is. */
  lemma PadFull(entry: seq<bv8>)
    requires |entry| == ID_LEN
    ensures PadId(entry) == entry
  {
    assert PadId(entry) == entry + [];
  }

  /* ------------------------------------------------------- skipping scans */

  /** Slot `i` of `width` bytes at `base + i * width`, if it lies inside `buf`. */
  function SlotAt(buf: seq<bv8>, base: nat, width: nat, i: nat): (s: Option<seq<bv8>>)
    ensures s.Some? <==> base + i * width + width <= |buf|
    ensures s.Some? ==> |s.value| == width
    ensures s.Some? ==> forall k :: 0 <= k < width ==> s.value[k] == buf[base + i * width + k]
  {
    var off := base + i * width;
    if off + width <= |buf| then Some(buf[off..off + width]) else None
  }

  /** The banks of slots `0 .. n-1` that lie inside `buf` and that `keep`
      accepts, each numbered by its slot index; a rejected slot is skipped
      and does not stop the scan. */
  function SkipScan(buf: seq<bv8>, base: nat, width: nat, n: nat, keep: seq<bv8> -> bool): (banks: seq<FlashBank>)
    requires width <= ID_LEN
    ensures |banks| <= n
  {
    if n == 0 then []
    else
      var banks := SkipScan(buf, base, width, n - 1, keep);
      var s := SlotAt(buf, base, width, n - 1);
      if s.Some? && keep(s.value) then banks + [FlashBank(n - 1, PadId(s.value))] else banks
  }

  /** Every bank of the skipping scan is an accepted slot inside the buffer,
      copied and numbered by its slot index, and the numbers increase. */
  lemma {:induction false} SkipScanSound(buf: seq<bv8>, base: nat, width: nat, n: nat, keep: seq<bv8> -> bool)
    requires width <= ID_LEN
    ensures forall k :: 0 <= k < |SkipScan(buf, base, width, n, keep)| ==> SkipScan(buf, base, width, n, keep)[k].bankNum < n
    ensures forall k :: 0 <= k < |SkipScan(buf, base, width, n, keep)| ==> KeptSlot(buf, base, width, keep, SkipScan(buf, base, width, n, keep)[k])
    ensures forall j, k :: 0 <= j < k < |SkipScan(buf, base, width, n, keep)| ==>
      SkipScan(buf, base, width, n, keep)[j].bankNum < SkipScan(buf, base, width, n, keep)[k].bankNum
  {
    if n > 0 {
      SkipScanSound(buf, base, width, n - 1, keep);
      var prev := SkipScan(buf, base, width, n - 1, keep);
      var s := SlotAt(buf, base, width, n - 1);
      if s.Some? && keep(s.value) {
        var b := FlashBank(n - 1, PadId(s.value));
        var banks := prev + [b];
        assert banks == SkipScan(buf, base, width, n, keep);
        assert KeptSlot(buf, base, width, keep, b);
        assert forall k :: 0 <= k < |prev| ==> banks[k] == prev[k];
      } else {
        assert SkipScan(buf, base, width, n, keep) == prev;
      }
    }
  }

  /** `b` is slot `b.bankNum`, inside the buffer, accepted and copied. */
  predicate KeptSlot(buf: seq<bv8>, base: nat, width: nat, keep: seq<bv8> -> bool, b: FlashBank)
    requires width <= ID_LEN
  {
    var s := SlotAt(buf, base, width, b.bankNum);
    s.Some? && keep(s.value) && b.flashId == PadId(s.value)
  }

  /** Every slot inside the buffer that `keep` accepts does appear. */
  lemma {:induction false} SkipScanComplete(buf: seq<bv8>, base: nat, width: nat, n: nat, keep: seq<bv8> -> bool, i: nat)
    requires width <= ID_LEN
    requires i < n
    requires SlotAt(buf, base, width, i).Some? && keep(SlotAt(buf, base, width, i).value)
    ensures exists k :: 0 <= k < |SkipScan(buf, base, width, n, keep)| && SkipScan(buf, base, width, n, keep)[k].bankNum == i
  {
    var banks := SkipScan(buf, base, width, n, keep);
    if i == n - 1 {
      assert banks[|banks| - 1].bankNum == i;
    } else {
      SkipScanComplete(buf, base, width, n - 1, keep, i);
      var k :| 0 <= k < |SkipScan(buf, base, width, n - 1, keep)| && SkipScan(buf, base, width, n - 1, keep)[k].bankNum == i;
      assert banks[k] == SkipScan(buf, base, width, n - 1, keep)[k];
    }
  }

  /** Once a slot lies past the buffer's end every later one does, so the
      scan ends there: the `break` of the slot loops at the first slot that does not fit. */
  lemma {:induction false} SkipScanPastEnd(buf: seq<bv8>, base: nat, width: nat, i: nat, n: nat, keep: seq<bv8> -> bool)
    requires width <= ID_LEN && i <= n
    requires base + i * width + width > |buf|
    ensures SkipScan(buf, base, width, n, keep) == SkipScan(buf, base, width, i, keep)
  {
    if n > i {
      SkipScanPastEnd(buf, base, width, i, n - 1, keep);
      MulMonotone(i, n - 1, width);
      assert SlotAt(buf, base, width, n - 1).None?;
    }
  }

  /** One more slot of a skipping scan: slot `n`, at `offset`, inside the buffer. */
  lemma SkipScanNext(buf: seq<bv8>, base: nat, width: nat, n: nat, keep: seq<bv8> -> bool, offset: nat, slot: seq<bv8>)
    requires width <= ID_LEN && offset == base + n * width && offset + width <= |buf|
    requires slot == buf[offset..offset + width]
    ensures SkipScan(buf, base, width, n + 1, keep) ==
      if keep(slot) then SkipScan(buf, base, width, n, keep) + [FlashBank(n, PadId(slot))] else SkipScan(buf, base, width, n, keep)
  {
  }

  lemma MulMonotone(i: nat, j: nat, w: nat)
    requires i <= j
    ensures i * w <= j * w
  {
    var d := j - i;
    assert j * w == i * w + d * w;
  }

  /** The skipping scan only yields valid banks with increasing numbers. */
  lemma SkipScanValid(buf: seq<bv8>, base: nat, width: nat, n: nat, keep: seq<bv8> -> bool)
    requires width <= ID_LEN && n <= BANK_NUM_LIMIT
    ensures ValidBanks(SkipScan(buf, base, width, n, keep))
  {
    SkipScanSound(buf, base, width, n, keep);
  }

  /** Slots kept when they are not empty: the filter of the extractors that
      accept any populated slot. */
  const NON_EMPTY: seq<bv8> -> bool := slot => !IsBankEmpty(slot)

  /** A skipping scan of full 8-byte slots reports exactly the slots inside
      the buffer that `keep` accepts, each copied byte for byte and numbered
      by its slot index, in increasing order. */
  lemma SkipScanMeaning(buf: seq<bv8>, base: nat, n: nat, keep: seq<bv8> -> bool)
    requires n <= BANK_NUM_LIMIT
    ensures ValidBanks(SkipScan(buf, base, ID_LEN, n, keep))
    ensures forall k :: 0 <= k < |SkipScan(buf, base, ID_LEN, n, keep)| ==>
      SkipScan(buf, base, ID_LEN, n, keep)[k].bankNum < n &&
      SlotAt(buf, base, ID_LEN, SkipScan(buf, base, ID_LEN, n, keep)[k].bankNum) == Some(SkipScan(buf, base, ID_LEN, n, keep)[k].flashId) &&
      keep(SkipScan(buf, base, ID_LEN, n, keep)[k].flashId)
    ensures forall i :: 0 <= i < n && SlotAt(buf, base, ID_LEN, i).Some? && keep(SlotAt(buf, base, ID_LEN, i).value) ==>
      exists k :: 0 <= k < |SkipScan(buf, base, ID_LEN, n, keep)| && SkipScan(buf, base, ID_LEN, n, keep)[k].bankNum == i
  {
    var banks := SkipScan(buf, base, ID_LEN, n, keep);
    SkipScanValid(buf, base, ID_LEN, n, keep);
    SkipScanSound(buf, base, ID_LEN, n, keep);
    forall k | 0 <= k < |banks|
      ensures SlotAt(buf, base, ID_LEN, banks[k].bankNum) == Some(banks[k].flashId)
    {
      assert KeptSlot(buf, base, ID_LEN, keep, banks[k]);
      PadFull(SlotAt(buf, base, ID_LEN, banks[k].bankNum).value);
    }
    forall i | 0 <= i < n && SlotAt(buf, base, ID_LEN, i).Some? && keep(SlotAt(buf, base, ID_LEN, i).value)
      ensures exists k :: 0 <= k < |banks| && banks[k].bankNum == i
    {
      SkipScanComplete(buf, base, ID_LEN, n, keep, i);
    }
  }

  /** The loop of the slot-indexed extractors: walk `n` slots, stop at the
      first one that does not fit, skip the ones `keep` rejects. */
  method CollectSlots(buf: seq<bv8>, base: nat, width: nat, n: nat, keep: seq<bv8> -> bool) returns (banks: seq<FlashBank>)
    requires width <= ID_LEN
    ensures banks == SkipScan(buf, base, width, n, keep)
  {
    banks := [];
    var i := 0;
    while i < n
      invariant i <= n
      invariant banks == SkipScan(buf, base, width, i, keep)
    {
      var offset := base + i * width;
      if offset + width > |buf| {
        SkipScanPastEnd(buf, base, width, i, n, keep);
        break;
      }
      var slot := buf[offset..offset + width];
      if keep(slot) {
        banks := banks + [FlashBank(i, PadId(slot))];
      }
      i := i + 1;
    }
  }

  /* -------------------------------------------------------- stopping scans */

  /** The 8-byte slot `i` at offset `8 * i`, if it lies inside `buf`. */
  function Slot8(buf: seq<bv8>, i: nat): Option<seq<bv8>>
  {
    SlotAt(buf, 0, ID_LEN, i)
  }

  /** The banks of the leading run of non-empty 8-byte slots among the first
      `n`, numbered 0, 1, 2, ...: the scan stops at the first empty slot or at
      the first slot past the buffer's end. */
  function StopScan(buf: seq<bv8>, n: nat): (banks: seq<FlashBank>)
    ensures |banks| <= n
  {
    if n == 0 then []
    else
      var banks := StopScan(buf, n - 1);
      var s := Slot8(buf, n - 1);
      if |banks| == n - 1 && LiveSlot(buf, n - 1) then banks + [FlashBank(n - 1, s.value)] else banks
  }

  /** Bank `k` of the stopping scan is slot `k`, inside the buffer, not
      empty, copied as it is; the run ends at an empty or missing slot. */
  lemma {:induction false} StopScanSound(buf: seq<bv8>, n: nat)
    ensures forall k :: 0 <= k < |StopScan(buf, n)| ==> LiveSlot(buf, k) && StopScan(buf, n)[k] == FlashBank(k, Slot8(buf, k).value)
    ensures |StopScan(buf, n)| < n ==> !LiveSlot(buf, |StopScan(buf, n)|)
  {
    if n > 0 {
      StopScanSound(buf, n - 1);
      var prev := StopScan(buf, n - 1);
      if |prev| == n - 1 && LiveSlot(buf, n - 1) {
        var banks := prev + [FlashBank(n - 1, Slot8(buf, n - 1).value)];
        assert banks == StopScan(buf, n);
        assert forall k :: 0 <= k < |prev| ==> banks[k] == prev[k];
      } else {
        assert StopScan(buf, n) == prev;
      }
    }
  }

  /** Slot `k` lies inside the buffer and is not empty. */
  predicate LiveSlot(buf: seq<bv8>, k: nat)
  {
    Slot8(buf, k).Some? && !IsBankEmpty(Slot8(buf, k).value)
  }

  /** The stopping scan only yields valid banks, numbered contiguously from 0. */
  lemma StopScanValid(buf: seq<bv8>, n: nat)
    requires n <= BANK_NUM_LIMIT
    ensures ValidBanks(StopScan(buf, n))
    ensures forall k :: 0 <= k < |StopScan(buf, n)| ==> StopScan(buf, n)[k].bankNum == k
  {
    StopScanSound(buf, n);
  }

  /** The loop of the stop-at-first-empty extractors. */
  method CollectUntilEmpty(buf: seq<bv8>, n: nat) returns (banks: seq<FlashBank>)
    ensures banks == StopScan(buf, n)
  {
    banks := [];
    for i := 0 to n
      invariant banks == StopScan(buf, i)
      invariant |banks| == i
    {
      var offset := i * ID_LEN;
      if offset + ID_LEN > |buf| {
        StopScanStays(buf, i, n);
        return;
      }
      var slot := buf[offset..offset + ID_LEN];
      if IsBankEmpty(slot) {
        StopScanStays(buf, i, n);
        return;
      }
      banks := banks + [FlashBank(i, slot)];
    }
  }

  /** Bank `k` of the stopping scan is the `k`-th 8 bytes of the buffer,
      copied as they are and not empty. */
  lemma StopScanSlots(buf: seq<bv8>, n: nat)
    ensures forall k :: 0 <= k < |StopScan(buf, n)| ==>
      ID_LEN * k + ID_LEN <= |buf| && !IsBankEmpty(buf[ID_LEN * k..ID_LEN * k + ID_LEN]) &&
      StopScan(buf, n)[k] == FlashBank(k, buf[ID_LEN * k..ID_LEN * k + ID_LEN])
  {
    StopScanSound(buf, n);
    forall k | 0 <= k < |StopScan(buf, n)|
      ensures ID_LEN * k + ID_LEN <= |buf| && Slot8(buf, k).value == buf[ID_LEN * k..ID_LEN * k + ID_LEN]
    {
      assert LiveSlot(buf, k);
    }
  }

  /** The stopping scan finds something exactly when it may look at a slot
      and the first slot is live. */
  lemma StopScanStarts(buf: seq<bv8>, n: nat)
    ensures StopScan(buf, n) != [] <==> n > 0 && LiveSlot(buf, 0)
  {
    StopScanSound(buf, n);
  }

  /** Once the run has ended it stays ended. */
  lemma {:induction false} StopScanStays(buf: seq<bv8>, i: nat, n: nat)
    requires i <= n && |StopScan(buf, i)| == i
    requires !LiveSlot(buf, i)
    ensures StopScan(buf, n) == StopScan(buf, i)
  {
    if n > i {
      StopScanStays(buf, i, n - 1);
    }
  }

  /* ------------------------------------------------ numbered scan results */

  /** The bank a scan step reports, if any, as a sequence. */
  function Opt(b: Option<FlashBank>): seq<FlashBank>
  {
    if b.Some? then [b.value] else []
  }

  /** A bank a scan may report: a non-empty 8-byte id. */
  predicate Reported(b: FlashBank)
  {
    |b.flashId| == ID_LEN && !IsBankEmpty(b.flashId)
  }

  /** At most `n` banks, non-empty 8-byte ids, numbered upwards from `lo` and below `lo + n`. */
  predicate Numbered(banks: seq<FlashBank>, lo: nat, n: nat)
  {
    |banks| <= n &&
    (forall k :: 0 <= k < |banks| ==> lo <= banks[k].bankNum < lo + n && Reported(banks[k])) &&
    (forall j, k :: 0 <= j < k < |banks| ==> banks[j].bankNum < banks[k].bankNum)
  }

  /** A scan step that reports at most the bank numbered `lo`, then a rest
      numbered from the next number, is numbered from `lo`. */
  lemma Prepend(b: Option<FlashBank>, rest: seq<FlashBank>, lo: nat, next: nat, n: nat)
    requires n > 0 && lo <= next <= lo + 1
    requires b.Some? ==> next == lo + 1 && b.value.bankNum == lo && Reported(b.value)
    requires Numbered(rest, next, n - 1)
    ensures Numbered(Opt(b) + rest, lo, n)
  {
    var banks := Opt(b) + rest;
    if b.Some? {
      assert banks[0] == b.value;
      assert forall k :: 1 <= k < |banks| ==> banks[k] == rest[k - 1];
      forall k | 0 <= k < |banks|
        ensures lo <= banks[k].bankNum < lo + n && Reported(banks[k])
      {
        if k > 0 {
          assert banks[k] == rest[k - 1];
        }
      }
      forall j, k | 0 <= j < k < |banks|
        ensures banks[j].bankNum < banks[k].bankNum
      {
        assert banks[k] == rest[k - 1];
        if j > 0 {
          assert banks[j] == rest[j - 1];
        }
      }
    } else {
      assert banks == rest;
    }
  }

  /** Numbered banks whose numbers fit in 32 bits are valid. */
  lemma NumberedValid(banks: seq<FlashBank>, lo: nat, n: nat)
    requires Numbered(banks, lo, n) && lo + n <= BANK_NUM_LIMIT
    ensures ValidBanks(banks)
  {
  }
}

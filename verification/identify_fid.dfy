/** Flash ids some SATA controllers embed in the vendor-specific words of
    the 512-byte IDENTIFY DEVICE data: 8 bytes at 0x127, stored as they are
    (not byte-swapped like the ATA strings). */
module IdentifyFid {
  import opened Base
  import opened Banks
  import NandDb

  const FID_OFFSET: nat := 0x127
  const FID_LEN: nat := 8
  const IDENTIFY_LEN: nat := 512
  const NAME := "SATA (from ATA IDENTIFY)"

  /** The 17 JEDEC manufacturer ids the extractor accepts. */
  const JEDEC_IDS: seq<bv8> := [0x01, 0x04, 0x07, 0x20, 0x2C, 0x45, 0x4A, 0x89, 0x92, 0x98, 0x9B, 0xAD, 0xB5, 0xC2, 0xC8, 0xEC, 0xEF]

  /** The embedded id: bytes 0x127 to 0x12E of the IDENTIFY data. */
  function EmbeddedId(id: seq<bv8>): (fid: seq<bv8>)
    requires |id| == IDENTIFY_LEN
    ensures |fid| == FID_LEN && forall k :: 0 <= k < FID_LEN ==> fid[k] == id[FID_OFFSET + k]
  {
    id[FID_OFFSET..FID_OFFSET + FID_LEN]
  }

  /** `extract_from_identify`: one bank, numbered 0, when the embedded id is
      not empty and starts with an accepted manufacturer. Since the list
      holds neither 0x00 nor 0xFF, the manufacturer test alone decides. */
  function ExtractFromIdentify(id: seq<bv8>): (r: Option<FlashIdResult>)
    requires |id| == IDENTIFY_LEN
    ensures r.Some? <==> id[FID_OFFSET] in JEDEC_IDS
    ensures r.Some? ==> (r.value.controllerName == NAME && |r.value.banks| == 1 &&
      r.value.banks[0].bankNum == 0 && ValidBanks(r.value.banks) && Reported(r.value.banks[0]) &&
      forall k :: 0 <= k < FID_LEN ==> r.value.banks[0].flashId[k] == id[FID_OFFSET + k])
  {
    if FID_OFFSET + FID_LEN > |id| then None
    else
      var fid := EmbeddedId(id);
      if IsBankEmpty(fid) then None
      else if fid[0] !in JEDEC_IDS then None
      else Some(FlashIdResult(NAME, [FlashBank(0, fid)]))
  }

  /** The manufacturer test settles emptiness: no accepted id is 0x00 or
      0xFF, so an id starting with one is never empty. */
  lemma AcceptedIsNotEmpty(fid: seq<bv8>)
    requires |fid| > 0 && fid[0] in JEDEC_IDS
    ensures !IsBankEmpty(fid)
  {
    FirstByteDecides(fid);
  }

  /** The list is the name table's ids without 0x51: a flash id of that
      manufacturer is named elsewhere but not taken from IDENTIFY data. */
  lemma AcceptedIdsAreNamed()
    ensures forall b :: b in JEDEC_IDS ==> b in NandDb.KNOWN_IDS
    ensures 0x51 in NandDb.KNOWN_IDS && 0x51 !in JEDEC_IDS
    ensures forall b :: b in NandDb.KNOWN_IDS && b != 0x51 ==> b in JEDEC_IDS
  {
  }
}

/** NAND flash id decoding: the manufacturer table, technology lookups per
    manufacturer, cell type and page size, and the two text renderings of a
    flash id. Every lookup is a first match over a constant table. */
module NandDb {
  import opened Base

  /** An entry of a byte-keyed table. */
  datatype KeyName = KeyName(key: bv8, name: string)

  /** An entry of a pattern table: `desc` applies when `bytes` equals the
      `len` id bytes starting at `offset`. */
  datatype Pattern = Pattern(desc: string, offset: nat, len: nat, bytes: seq<bv8>)

  const MANUFACTURERS: seq<KeyName> := [
    KeyName(0x01, "Spansion"),
    KeyName(0x04, "Fujitsu"),
    KeyName(0x07, "Renesas"),
    KeyName(0x20, "STMicro"),
    KeyName(0x2C, "Micron"),
    KeyName(0x45, "SanDisk"),
    KeyName(0x4A, "SMIC"),
    KeyName(0x51, "Qimonda"),
    KeyName(0x89, "Intel"),
    KeyName(0x92, "ESMT(PowerChip)"),
    KeyName(0x98, "Toshiba/Kioxia"),
    KeyName(0x9B, "YMTC"),
    KeyName(0xAD, "SK Hynix"),
    KeyName(0xB5, "Spectek"),
    KeyName(0xC2, "Macronix"),
    KeyName(0xC8, "ESMT(MIRA-PSC)"),
    KeyName(0xEC, "Samsung"),
    KeyName(0xEF, "Winbond")
  ]

  const TOSHIBA_SANDISK_TECH: seq<KeyName> := [
    KeyName(0x00, "A19nm"),
    KeyName(0x01, "15nm"),
    KeyName(0x02, "70nm"),
    KeyName(0x03, "56nm"),
    KeyName(0x04, "43nm"),
    KeyName(0x05, "32nm"),
    KeyName(0x06, "24nm"),
    KeyName(0x07, "19nm"),
    KeyName(0x20, "48L BiCS2"),
    KeyName(0x21, "64L BiCS3"),
    KeyName(0x22, "96L BiCS4"),
    KeyName(0x23, "112L BiCS5"),
    KeyName(0x24, "162L BiCS6"),
    KeyName(0x25, "218L BiCS8")
  ]

  const HYNIX_TECH: seq<KeyName> := [
    KeyName(0x25, "41nm"),
    KeyName(0x26, "32nm"),
    KeyName(0x27, "26nm"),
    KeyName(0x28, "26nm"),
    KeyName(0x29, "20nm"),
    KeyName(0x2A, "20nm"),
    KeyName(0x36, "16nm"),
    KeyName(0x37, "16nm"),
    KeyName(0x3A, "16nm"),
    KeyName(0x3B, "16nm"),
    KeyName(0x3C, "16nm"),
    KeyName(0x3D, "16nm"),
    KeyName(0x40, "16nm"),
    KeyName(0x44, "16nm"),
    KeyName(0x48, "14nm"),
    KeyName(0x49, "3dv1"),
    KeyName(0x4A, "14nm"),
    KeyName(0x4B, "3dv2-36L"),
    KeyName(0x50, "3dv3-48L"),
    KeyName(0x55, "3dv4-72L"),
    KeyName(0x5A, "3dv5-96L"),
    KeyName(0x5B, "3dv5-96L"),
    KeyName(0x60, "3dv6-128L"),
    KeyName(0x61, "3dv6-128L"),
    KeyName(0x65, "3dv7-176L"),
    KeyName(0x66, "3dv7-176L"),
    KeyName(0x76, "3dv8-238L"),
    KeyName(0x56, "16nm"),
    KeyName(0x57, "16nm"),
    KeyName(0x58, "14nm"),
    KeyName(0x64, "16nm"),
    KeyName(0x67, "16nm"),
    KeyName(0x68, "16nm"),
    KeyName(0x69, "3dv1"),
    KeyName(0x6A, "16nm"),
    KeyName(0x6B, "3dv2-36L"),
    KeyName(0x6C, "3dv3-48L"),
    KeyName(0x6D, "3dv4-72L"),
    KeyName(0x6E, "3dv5-96L"),
    KeyName(0x6F, "3dv5-96L"),
    KeyName(0x70, "3dv6-128L"),
    KeyName(0x71, "3dv6-128L"),
    KeyName(0x72, "3dv7-176L"),
    KeyName(0x73, "3dv7-176L"),
    KeyName(0x7A, "3dv8-238L"),
    KeyName(0x7B, "14nm"),
    KeyName(0x7C, "26nm"),
    KeyName(0x7D, "20nm")
  ]

  const SAMSUNG_TECH_RTL: seq<KeyName> := [
    KeyName(0x40, "51nm"),
    KeyName(0x41, "42nm"),
    KeyName(0x42, "32nm"),
    KeyName(0x43, "27nm"),
    KeyName(0x44, "21nm"),
    KeyName(0x45, "19nm"),
    KeyName(0x46, "16nm"),
    KeyName(0x47, "3dv1-24L"),
    KeyName(0x48, "3dv2-32L"),
    KeyName(0x49, "3dv3-48L"),
    KeyName(0x4A, "14nm"),
    KeyName(0x4B, "3dv4-64L"),
    KeyName(0x4C, "3dv5-92L"),
    KeyName(0x4D, "3dv6-136L"),
    KeyName(0x4E, "3dv7-176L"),
    KeyName(0x4F, "3dv8-236L")
  ]

  const SAMSUNG_TECH_SMI_EXTRA: seq<KeyName> := [
    KeyName(0x86, "3dv6e-136L"),
    KeyName(0x87, "3dv7-176L")
  ]

  const MICRON_INTEL_SPECTEK_TABLE: seq<Pattern> := [
    Pattern("176L(B47R)", 1, 5, [0xC3, 0x08, 0x32, 0xEA, 0x30]),
    Pattern("176L(B47R)", 1, 5, [0xD3, 0x89, 0x32, 0xEA, 0x30]),
    Pattern("176L(B47R)", 1, 5, [0xE3, 0x8A, 0x32, 0xEA, 0x30]),
    Pattern("176L(B47T)", 1, 5, [0xC3, 0x08, 0x32, 0xEA, 0x34]),
    Pattern("176L(B47T)", 1, 5, [0xD3, 0x89, 0x32, 0xEA, 0x34]),
    Pattern("176L(B47T)", 1, 5, [0xE3, 0x8A, 0x32, 0xEA, 0x34]),
    Pattern("176L(N48R)", 1, 5, [0xD3, 0x0C, 0x32, 0xEA, 0x30]),
    Pattern("176L(N48R)", 1, 5, [0xE3, 0x8D, 0x32, 0xEA, 0x30]),
    Pattern("176L(N48R)", 1, 5, [0xF3, 0x8E, 0x32, 0xEA, 0x30]),
    Pattern("232L(B57T)", 1, 5, [0xC3, 0x08, 0x32, 0xE6, 0x30]),
    Pattern("232L(B57T)", 1, 5, [0xD3, 0x89, 0x32, 0xE6, 0x30]),
    Pattern("232L(B57T)", 1, 5, [0xE3, 0x8A, 0x32, 0xE6, 0x30]),
    Pattern("232L(B58R)", 1, 5, [0xD3, 0x08, 0x32, 0xE8, 0x30]),
    Pattern("232L(B58R)", 1, 5, [0xE3, 0x89, 0x32, 0xE8, 0x30]),
    Pattern("232L(B58R)", 1, 5, [0xF3, 0x8A, 0x32, 0xE8, 0x30]),
    Pattern("232L(B58R)", 1, 5, [0xD3, 0x08, 0x32, 0xE8, 0x31]),
    Pattern("232L(B58R)", 1, 5, [0xE3, 0x89, 0x32, 0xE8, 0x31]),
    Pattern("232L(B58R)", 1, 5, [0xF3, 0x8A, 0x32, 0xE8, 0x31]),
    Pattern("232L(N58R)", 1, 5, [0xD3, 0x0C, 0x42, 0xEE, 0x30]),
    Pattern("232L(N58R)", 1, 5, [0xE3, 0x8D, 0x42, 0xEE, 0x30]),
    Pattern("232L(N58R)", 1, 5, [0xF3, 0x8E, 0x42, 0xEE, 0x30]),
    Pattern("232L(N58R)", 1, 5, [0xD3, 0x0C, 0x42, 0xEE, 0x31]),
    Pattern("232L(N58R)", 1, 5, [0xE3, 0x8D, 0x42, 0xEE, 0x31]),
    Pattern("232L(N58R)", 1, 5, [0xF3, 0x8E, 0x42, 0xEE, 0x31]),
    Pattern("276L(B68S)", 1, 5, [0xD3, 0x08, 0x32, 0xE8, 0x34]),
    Pattern("276L(B68S)", 1, 5, [0xE3, 0x89, 0x32, 0xE8, 0x34]),
    Pattern("276L(B68S)", 1, 5, [0xF3, 0x8A, 0x32, 0xE8, 0x34]),
    Pattern("276L(B68S)", 1, 5, [0xD3, 0x08, 0x32, 0xE8, 0x35]),
    Pattern("276L(B68S)", 1, 5, [0xE3, 0x89, 0x32, 0xE8, 0x35]),
    Pattern("276L(B68S)", 1, 5, [0xF3, 0x8A, 0x32, 0xE8, 0x35]),
    Pattern("50nm(L52A)", 1, 4, [0xD5, 0x94, 0x3E, 0x74]),
    Pattern("50nm(L52A)", 1, 4, [0xD7, 0xD5, 0x3E, 0x78]),
    Pattern("34nm(M62A)", 1, 4, [0x48, 0x00, 0x26, 0x89]),
    Pattern("34nm(M62A)", 1, 4, [0x68, 0x01, 0xA6, 0x89]),
    Pattern("34nm(L63B)", 1, 4, [0x68, 0x04, 0x46, 0x89]),
    Pattern("34nm(L63B)", 1, 4, [0x88, 0x05, 0xC6, 0x89]),
    Pattern("34nm(L63B)", 1, 4, [0x68, 0x04, 0x46, 0xA9]),
    Pattern("25nm(M73A)", 1, 4, [0x68, 0x00, 0x27, 0xA9]),
    Pattern("25nm(M73A)", 1, 4, [0x88, 0x01, 0xA7, 0xA9]),
    Pattern("25nm(M73A)", 1, 4, [0x68, 0x20, 0x27, 0xA9]),
    Pattern("25nm(L73A)", 1, 4, [0x68, 0x04, 0x4A, 0xA9]),
    Pattern("25nm(L73A)", 1, 4, [0x88, 0x05, 0xCA, 0xA9]),
    Pattern("25nm(L74A)", 1, 5, [0x88, 0x04, 0x4B, 0xA9, 0x00]),
    Pattern("25nm(L74A)", 1, 5, [0xA8, 0x05, 0xCB, 0xA9, 0x00]),
    Pattern("25nm(L74A)", 1, 5, [0x88, 0x24, 0x4B, 0xA9, 0x00]),
    Pattern("20nm(L84A)", 1, 5, [0x88, 0x24, 0x4B, 0xA9, 0x84]),
    Pattern("20nm(L84A)", 1, 4, [0x64, 0x44, 0x4B, 0xA9]),
    Pattern("20nm(L84A)", 1, 4, [0x84, 0xC5, 0x4B, 0xA9]),
    Pattern("20nm(L84C)", 1, 4, [0x64, 0x64, 0x3C, 0xA1]),
    Pattern("20nm(L84C)", 1, 4, [0x64, 0x64, 0x3C, 0xA5]),
    Pattern("20nm(L84C)", 1, 4, [0x84, 0xE5, 0x3C, 0xA5]),
    Pattern("20nm(L85A)", 1, 4, [0x84, 0x64, 0x3C, 0xA5]),
    Pattern("20nm(L85A)", 1, 4, [0xA4, 0xE5, 0x3C, 0xA5]),
    Pattern("20nm(L85C)", 1, 4, [0x84, 0x64, 0x3C, 0xA9]),
    Pattern("20nm(L85C)", 1, 4, [0xA4, 0xE5, 0x3C, 0xA9]),
    Pattern("16nm(L95B)", 1, 4, [0x84, 0x64, 0x54, 0xA9]),
    Pattern("16nm(L95B)", 1, 4, [0xA4, 0xE5, 0x54, 0xA9]),
    Pattern("34nm(B63A)", 1, 4, [0x68, 0x08, 0x56, 0x8A]),
    Pattern("25nm(B74A)", 1, 4, [0x88, 0x08, 0x5F, 0xA9]),
    Pattern("25nm(B74A)", 1, 4, [0x88, 0x08, 0x5F, 0x89]),
    Pattern("25nm(B74A)", 1, 4, [0x88, 0x28, 0x5F, 0xA9]),
    Pattern("25nm(B74A)", 1, 4, [0xA8, 0x09, 0xDF, 0x89]),
    Pattern("25nm(B74A)", 1, 4, [0xA8, 0x09, 0xDF, 0xA9]),
    Pattern("20nm(B85T)", 1, 4, [0x84, 0x78, 0x63, 0xA9]),
    Pattern("20nm(B85T)", 1, 4, [0x84, 0x78, 0x7B, 0xA9]),
    Pattern("20nm(B85T)", 1, 4, [0xA4, 0xF9, 0x63, 0xA9]),
    Pattern("20nm(B85T)", 1, 4, [0xA4, 0xF9, 0x7B, 0xA9]),
    Pattern("16nm(B95A)", 1, 4, [0x84, 0x48, 0x63, 0xA9]),
    Pattern("32L(L04A)", 1, 4, [0x64, 0x44, 0x32, 0xA5]),
    Pattern("32L(L05B)", 1, 4, [0x84, 0x44, 0x34, 0xAA]),
    Pattern("32L(B05A)", 1, 4, [0x84, 0x58, 0x32, 0xA1]),
    Pattern("32L(L05A)", 1, 4, [0xA4, 0x64, 0x34, 0xAA]),
    Pattern("32L(L06A)", 1, 4, [0xA4, 0xE4, 0x34, 0x8A]),
    Pattern("32L(L06B)", 1, 4, [0xA4, 0x64, 0x32, 0xAA]),
    Pattern("32L(L06B)", 1, 4, [0xC4, 0xE5, 0x32, 0xAA]),
    Pattern("32L(B0KB)", 1, 4, [0xB4, 0x78, 0x32, 0xAA]),
    Pattern("32L(B0KB)", 1, 4, [0xCC, 0xF9, 0x32, 0xAA]),
    Pattern("64L(B16A)", 1, 4, [0xA4, 0x08, 0x32, 0xA1]),
    Pattern("64L(B16A)", 1, 4, [0xA4, 0x88, 0x32, 0xA1]),
    Pattern("64L(B16A)", 1, 4, [0xC4, 0x89, 0x32, 0xA1]),
    Pattern("64L(B17A)", 1, 4, [0xC4, 0x08, 0x32, 0xA6]),
    Pattern("64L(B17A)", 1, 4, [0xD4, 0x89, 0x32, 0xA6]),
    Pattern("64L(B17A)", 1, 4, [0xE4, 0x8A, 0x32, 0xA6]),
    Pattern("64L(N18A)", 1, 4, [0xD4, 0x0C, 0x32, 0xAA]),
    Pattern("96L(B27A)", 1, 4, [0xC4, 0x18, 0x32, 0xA2]),
    Pattern("96L(B27A)", 1, 4, [0xD4, 0x99, 0x32, 0xA2]),
    Pattern("96L(B27A)", 1, 4, [0xE4, 0x9A, 0x32, 0xA2]),
    Pattern("96L(B27B)", 1, 5, [0xC3, 0x08, 0x32, 0xE6, 0x00]),
    Pattern("96L(B27B)", 1, 4, [0xD3, 0x89, 0x32, 0xE6]),
    Pattern("96L(B27B)", 1, 4, [0xE3, 0x8A, 0x32, 0xE6]),
    Pattern("96L(N28A)", 1, 4, [0xD3, 0x1C, 0x32, 0xC6]),
    Pattern("96L(N28A)", 1, 4, [0xD3, 0x9C, 0x32, 0xC6]),
    Pattern("96L(N28A)", 1, 4, [0xE3, 0x9D, 0x32, 0xC6]),
    Pattern("96L(N28A)", 1, 4, [0xF3, 0x9E, 0x32, 0xC6]),
    Pattern("96L(M26A)", 1, 4, [0xA3, 0x60, 0x32, 0xC6]),
    Pattern("128L(B36R)", 1, 4, [0xA3, 0x78, 0x32, 0xE5]),
    Pattern("128L(B37R)", 1, 4, [0xC3, 0x78, 0x32, 0xEA]),
    Pattern("144L(N38A)", 0, 5, [0x89, 0xD3, 0xAC, 0x32, 0xC6]),
    Pattern("144L(N38A)", 0, 5, [0x89, 0xE3, 0xAD, 0x32, 0xC6]),
    Pattern("144L(N38B)", 0, 5, [0x89, 0xD3, 0xAC, 0x32, 0xC2]),
    Pattern("144L(N38B)", 0, 5, [0x89, 0xE3, 0xAD, 0x32, 0xC2]),
    Pattern("192L(Q5171A)", 0, 5, [0x89, 0x09, 0x28, 0x32, 0xC2]),
    Pattern("192L(Q5171A)", 0, 5, [0x89, 0x09, 0x29, 0x32, 0xC2]),
    Pattern("192L(Q5171A)", 0, 5, [0x89, 0x09, 0x2A, 0x32, 0xC2]),
    Pattern("192L(Q5171A)", 0, 5, [0x89, 0x09, 0x2B, 0x32, 0xC2]),
    Pattern("192L(N4PA)", 0, 5, [0x89, 0x05, 0x04, 0x32, 0xC2]),
    Pattern("192L(N4PA)", 0, 5, [0x89, 0x05, 0x05, 0x32, 0xC2]),
    Pattern("192L(N4PA)", 0, 5, [0x89, 0x05, 0x06, 0x32, 0xC2]),
    Pattern("192L(N4PA)", 0, 5, [0x89, 0x05, 0x07, 0x32, 0xC2])
  ]

  const YMTC_TABLE: seq<Pattern> := [
    Pattern("(x1-9050)", 1, 4, [0xC3, 0x48, 0x25, 0x10]),
    Pattern("(x2-6070)", 1, 4, [0xD5, 0x58, 0x8D, 0x20]),
    Pattern("(x2-9060)", 1, 4, [0xC4, 0x28, 0x49, 0x20]),
    Pattern("(x2-9060)", 1, 4, [0xC5, 0x29, 0x49, 0x20]),
    Pattern("-128L(x3-9060)", 1, 4, [0xC4, 0x28, 0x49, 0x30]),
    Pattern("-128L(x3-9060)", 1, 4, [0xC5, 0x29, 0x49, 0x30]),
    Pattern("-232L(x3-9070)", 1, 4, [0xC5, 0x58, 0x71, 0x30]),
    Pattern("-232L(x3-9070)", 1, 4, [0xC6, 0x59, 0x71, 0x30]),
    Pattern("-232L(x3-6070)", 1, 4, [0xC5, 0x5C, 0x55, 0x30])
  ]

  /* --------------------------------------------------------- keyed tables */

  function KeyIndexFrom(table: seq<KeyName>, key: bv8, i: nat): (r: Option<nat>)
    decreases |table| - i
    ensures r.Some? ==> i <= r.value < |table| && table[r.value].key == key
    ensures r.Some? ==> forall j :: i <= j < r.value ==> table[j].key != key
    ensures r.None? ==> forall j :: i <= j < |table| ==> table[j].key != key
  {
    if i >= |table| then None
    else if table[i].key == key then Some(i)
    else KeyIndexFrom(table, key, i + 1)
  }

  /** `lookup_table`: the name of the first entry carrying `key`. */
  function LookupTable(table: seq<KeyName>, key: bv8): (r: Option<string>)
    ensures r.None? <==> forall k :: 0 <= k < |table| ==> table[k].key != key
    ensures r.Some? ==> exists k :: 0 <= k < |table| && table[k].key == key && table[k].name == r.value &&
                                   forall j :: 0 <= j < k ==> table[j].key != key
  {
    var i := KeyIndexFrom(table, key, 0);
    if i.Some? then Some(table[i.value].name) else None
  }

  /** `manufacturer_name`: the JEDEC name of a first id byte, "Unknown" when unlisted. */
  function ManufacturerName(id: bv8): (name: string)
    ensures name == "Unknown" <==> forall k :: 0 <= k < |MANUFACTURERS| ==> MANUFACTURERS[k].key != id
    ensures name != "Unknown" ==> exists k :: 0 <= k < |MANUFACTURERS| && MANUFACTURERS[k] == KeyName(id, name)
  {
    NoUnknownManufacturer();
    var r := LookupTable(MANUFACTURERS, id);
    if r.Some? then r.value else "Unknown"
  }

  lemma NoUnknownManufacturer()
    ensures forall k :: 0 <= k < |MANUFACTURERS| ==> MANUFACTURERS[k].name != "Unknown"
  {
  }

  /** The 18 manufacturer ids the table knows, in table order. */
  const KNOWN_IDS: seq<bv8> := [0x01, 0x04, 0x07, 0x20, 0x2C, 0x45, 0x4A, 0x51, 0x89, 0x92, 0x98, 0x9B, 0xAD, 0xB5, 0xC2, 0xC8, 0xEC, 0xEF]

  lemma ManufacturerKeys()
    ensures |MANUFACTURERS| == |KNOWN_IDS|
    ensures forall k :: 0 <= k < |MANUFACTURERS| ==> MANUFACTURERS[k].key == KNOWN_IDS[k]
  {
  }

  /** A manufacturer is named exactly when its id is one of the 18 listed. */
  lemma ManufacturerKnownIff(id: bv8)
    ensures ManufacturerName(id) != "Unknown" <==> id in KNOWN_IDS
  {
    ManufacturerKeys();
    if id in KNOWN_IDS {
      var k :| 0 <= k < |KNOWN_IDS| && KNOWN_IDS[k] == id;
      assert MANUFACTURERS[k].key == id;
    }
  }

  /** Each id is below the next one. */
  lemma KnownIdsAdjacent()
    ensures forall k :: 0 <= k < |KNOWN_IDS| - 1 ==> KNOWN_IDS[k] < KNOWN_IDS[k + 1]
  {
    var s := KNOWN_IDS;
    assert s[0] < s[1] < s[2] < s[3] < s[4] < s[5] < s[6] < s[7] < s[8] < s[9];
    assert s[9] < s[10] < s[11] < s[12] < s[13] < s[14] < s[15] < s[16] < s[17];
  }

  /** So the ids increase and no two entries share one. */
  lemma {:induction false} KnownIdsIncrease(i: nat, j: nat)
    requires i < j < |KNOWN_IDS|
    ensures KNOWN_IDS[i] < KNOWN_IDS[j]
  {
    KnownIdsAdjacent();
    if j > i + 1 {
      KnownIdsIncrease(i, j - 1);
    }
  }

  /** Every entry of the table is reachable: its id yields its name. */
  lemma ManufacturerAt(k: nat)
    requires k < |MANUFACTURERS|
    ensures ManufacturerName(MANUFACTURERS[k].key) == MANUFACTURERS[k].name
  {
    ManufacturerKeys();
    var id := MANUFACTURERS[k].key;
    ManufacturerKnownIff(id);
    var name := ManufacturerName(id);
    var m :| 0 <= m < |MANUFACTURERS| && MANUFACTURERS[m] == KeyName(id, name);
    if m < k {
      KnownIdsIncrease(m, k);
    } else if k < m {
      KnownIdsIncrease(k, m);
    }
  }

  /* ------------------------------------------------- cell type, page size */

  /** Bits 3..2 of the third id byte. */
  function CellBits(fid: seq<bv8>): (bits: nat)
    requires |fid| >= 3
    ensures bits < 4
  {
    ((fid[2] >> 2) & 3) as nat
  }

  /** Micron, Intel and Spectek share a decoding. */
  predicate MicronFamily(id: bv8) { id == 0x2C || id == 0x89 || id == 0xB5 }

  /** Micron-family parts whose second byte is 0x05 or 0x09 count cells from TLC up. */
  predicate MicronHighDensity(fid: seq<bv8>)
    requires |fid| >= 2
  {
    MicronFamily(fid[0]) && (fid[1] == 0x05 || fid[1] == 0x09)
  }

  /** The one YMTC id that is QLC whatever its cell bits say. */
  predicate YmtcQlcId(fid: seq<bv8>)
  {
    |fid| >= 5 && fid[0] == 0x9B && fid[1] == 0xD5 && fid[2] == 0x58 && fid[3] == 0x8D && fid[4] == 0x20
  }

  /** Bits stored per cell by a cell-type name; 0 for no name. */
  function BitsPerCell(cell: string): nat
  {
    if cell == "SLC" then 1 else if cell == "MLC" then 2 else if cell == "TLC" then 3
    else if cell == "QLC" then 4 else if cell == "PLC" then 5 else 0
  }

  /** `cell_type`: the cell bits give bits-per-cell minus one, or minus two on
      the high-density Micron-family parts, where 0 has no name. */
  function CellType(fid: seq<bv8>): (cell: string)
    requires |fid| >= 3
    ensures MicronHighDensity(fid) ==> BitsPerCell(cell) == if CellBits(fid) == 0 then 0 else CellBits(fid) + 2
    ensures !MicronHighDensity(fid) && YmtcQlcId(fid) ==> BitsPerCell(cell) == 4
    ensures !MicronHighDensity(fid) && !YmtcQlcId(fid) ==> BitsPerCell(cell) == CellBits(fid) + 1
    ensures cell == "" <==> BitsPerCell(cell) == 0
  {
    var bits := CellBits(fid);
    if MicronHighDensity(fid) then
      (if bits == 1 then "TLC" else if bits == 2 then "QLC" else if bits == 3 then "PLC" else "")
    else if YmtcQlcId(fid) then "QLC"
    else if bits == 0 then "SLC" else if bits == 1 then "MLC" else if bits == 2 then "TLC" else "QLC"
  }

  /** Page size in KiB named by a page-size string; 0 for no name. */
  function PageKiB(page: string): nat
  {
    if page == "2k" then 2 else if page == "4k" then 4 else if page == "8k" then 8
    else if page == "16k" then 16 else 0
  }

  function Pow2(k: nat): nat
  {
    if k == 0 then 1 else 2 * Pow2(k - 1)
  }

  /** `page_size`: Toshiba, SanDisk, Samsung and SK Hynix give 2 KiB times a
      power of two from the two low bits of the fourth byte, YMTC 8 KiB times
      one from its lowest bit; other manufacturers give no page size. */
  function PageSize(fid: seq<bv8>): (page: string)
    requires |fid| >= 4
    ensures fid[0] in {0x98, 0x45, 0xEC, 0xAD} ==> PageKiB(page) == 2 * Pow2((fid[3] & 3) as nat)
    ensures fid[0] == 0x9B ==> PageKiB(page) == 8 * Pow2((fid[3] & 1) as nat)
    ensures fid[0] !in {0x98, 0x45, 0xEC, 0xAD, 0x9B} ==> page == ""
  {
    if fid[0] in {0x98, 0x45, 0xEC, 0xAD} then
      var b := fid[3] & 3;
      if b == 0 then "2k" else if b == 1 then "4k" else if b == 2 then "8k" else "16k"
    else if fid[0] == 0x9B then
      if fid[3] & 1 == 0 then "8k" else "16k"
    else ""
  }

  /* ------------------------------------------------------- pattern tables */

  /** The id bytes at the entry's offset equal its pattern. */
  predicate Matches(p: Pattern, fid: seq<bv8>)
  {
    p.offset + p.len <= |fid| && fid[p.offset..p.offset + p.len] == p.bytes
  }

  function FirstMatchFrom(table: seq<Pattern>, fid: seq<bv8>, i: nat): (r: Option<nat>)
    decreases |table| - i
    ensures r.Some? ==> i <= r.value < |table| && Matches(table[r.value], fid)
    ensures r.Some? ==> forall j :: i <= j < r.value ==> !Matches(table[j], fid)
    ensures r.None? ==> forall j :: i <= j < |table| ==> !Matches(table[j], fid)
  {
    if i >= |table| then None
    else if Matches(table[i], fid) then Some(i)
    else FirstMatchFrom(table, fid, i + 1)
  }

  /** The index of the first entry, in table order, that matches `fid`. */
  function FirstMatch(table: seq<Pattern>, fid: seq<bv8>): (r: Option<nat>)
    ensures r.Some? ==> r.value < |table| && Matches(table[r.value], fid)
    ensures r.Some? ==> forall j :: 0 <= j < r.value ==> !Matches(table[j], fid)
    ensures r.None? <==> forall j :: 0 <= j < |table| ==> !Matches(table[j], fid)
  {
    FirstMatchFrom(table, fid, 0)
  }

  /** `identify_micron_intel_spectek`: the description of the first matching entry. */
  function IdentifyMicronIntelSpectek(fid: seq<bv8>): (r: Option<string>)
    ensures r.None? <==> forall j :: 0 <= j < |MICRON_INTEL_SPECTEK_TABLE| ==> !Matches(MICRON_INTEL_SPECTEK_TABLE[j], fid)
    ensures r.Some? ==> exists k :: 0 <= k < |MICRON_INTEL_SPECTEK_TABLE| && Matches(MICRON_INTEL_SPECTEK_TABLE[k], fid) &&
                                    MICRON_INTEL_SPECTEK_TABLE[k].desc == r.value &&
                                    forall j :: 0 <= j < k ==> !Matches(MICRON_INTEL_SPECTEK_TABLE[j], fid)
  {
    var i := FirstMatch(MICRON_INTEL_SPECTEK_TABLE, fid);
    if i.Some? then Some(MICRON_INTEL_SPECTEK_TABLE[i.value].desc) else None
  }

  /** The YMTC generation named by bits 6..4 of the fifth id byte. */
  function YmtcGeneration(fid: seq<bv8>): (gen: string)
    ensures gen != "" ==> |fid| > 4 && 1 <= ((fid[4] >> 4) & 7) <= 4
  {
    var bits := if |fid| > 4 then (fid[4] >> 4) & 7 else 0;
    if bits == 1 then "3dv2-64L" else if bits == 2 then "3dv3-128L"
    else if bits == 3 then "3dv4" else if bits == 4 then "3dv5" else ""
  }

  /** `identify_ymtc`: the generation (possibly empty) followed by the first
      matching table description; the generation alone without a match; none
      when neither is known. */
  function IdentifyYmtc(fid: seq<bv8>): (r: Option<string>)
    ensures r.None? <==> FirstMatch(YMTC_TABLE, fid).None? && YmtcGeneration(fid) == ""
    ensures FirstMatch(YMTC_TABLE, fid).Some? ==>
      r == Some(YmtcGeneration(fid) + YMTC_TABLE[FirstMatch(YMTC_TABLE, fid).value].desc)
    ensures FirstMatch(YMTC_TABLE, fid).None? && r.Some? ==> r.value == YmtcGeneration(fid)
  {
    var i := FirstMatch(YMTC_TABLE, fid);
    var gen := YmtcGeneration(fid);
    if i.Some? then Some(gen + YMTC_TABLE[i.value].desc)
    else if gen != "" then Some(gen)
    else None
  }

  /** Every YMTC table pattern fixes the fifth byte to one whose bits 6..4 name
      a generation, so a table match always comes with one: the match arm
      that returns the table description alone is never taken. */
  lemma YmtcMatchHasGeneration(fid: seq<bv8>)
    requires FirstMatch(YMTC_TABLE, fid).Some?
    ensures YmtcGeneration(fid) != ""
  {
    var k := FirstMatch(YMTC_TABLE, fid).value;
    YmtcTableShape();
    assert fid[4] == fid[1..5][3] == YMTC_TABLE[k].bytes[3];
    GenerationBits(fid[4]);
  }

  /** Every YMTC pattern covers bytes 1..5 and fixes the fifth byte to 0x10, 0x20 or 0x30. */
  lemma YmtcTableShape()
    ensures forall k :: 0 <= k < |YMTC_TABLE| ==>
      YMTC_TABLE[k].offset == 1 && YMTC_TABLE[k].len == 4 && |YMTC_TABLE[k].bytes| == 4 &&
      (YMTC_TABLE[k].bytes[3] == 0x10 || YMTC_TABLE[k].bytes[3] == 0x20 || YMTC_TABLE[k].bytes[3] == 0x30)
  {
  }

  lemma GenerationBits(b: bv8)
    requires b == 0x10 || b == 0x20 || b == 0x30
    ensures 1 <= (b >> 4) & 7 <= 3
  {
  }

  /* ---------------------------------------------------- keyed technologies */

  /** `identify_toshiba_sandisk`: keyed by bits 5 and 2..0 of the sixth byte. */
  function IdentifyToshibaSandisk(fid: seq<bv8>): (r: Option<string>)
    ensures |fid| < 6 ==> r.None?
    ensures |fid| >= 6 ==> r == LookupTable(TOSHIBA_SANDISK_TECH, fid[5] & 0x27)
  {
    if |fid| < 6 then None else LookupTable(TOSHIBA_SANDISK_TECH, fid[5] & 0x27)
  }

  /** Bits of the sixth byte outside 0x27 do not change the Toshiba/SanDisk answer. */
  lemma ToshibaIgnoresOtherBits(a: seq<bv8>, b: seq<bv8>)
    requires |a| >= 6 && |b| >= 6 && a[5] & 0x27 == b[5] & 0x27
    ensures IdentifyToshibaSandisk(a) == IdentifyToshibaSandisk(b)
  {
  }

  /** `identify_hynix`: keyed by the whole sixth byte. */
  function IdentifyHynix(fid: seq<bv8>): (r: Option<string>)
    ensures |fid| < 6 ==> r.None?
    ensures |fid| >= 6 ==> r == LookupTable(HYNIX_TECH, fid[5])
  {
    if |fid| < 6 then None else LookupTable(HYNIX_TECH, fid[5])
  }

  /** `identify_samsung`: the raw sixth byte in the extra table first, then
      its low seven bits in the main table. */
  function IdentifySamsung(fid: seq<bv8>): (r: Option<string>)
    ensures |fid| < 6 ==> r.None?
    ensures |fid| >= 6 && LookupTable(SAMSUNG_TECH_SMI_EXTRA, fid[5]).Some? ==>
      r == LookupTable(SAMSUNG_TECH_SMI_EXTRA, fid[5])
    ensures |fid| >= 6 && LookupTable(SAMSUNG_TECH_SMI_EXTRA, fid[5]).None? ==>
      r == LookupTable(SAMSUNG_TECH_RTL, fid[5] & 0x7F)
  {
    if |fid| < 6 then None
    else
      var extra := LookupTable(SAMSUNG_TECH_SMI_EXTRA, fid[5]);
      if extra.Some? then extra else LookupTable(SAMSUNG_TECH_RTL, fid[5] & 0x7F)
  }

  /** Bit 7 of the sixth byte matters to Samsung only through the extra table. */
  lemma SamsungTopBit(a: seq<bv8>, b: seq<bv8>)
    requires |a| >= 6 && |b| >= 6 && a[5] & 0x7F == b[5] & 0x7F
    requires a[5] != 0x86 && a[5] != 0x87 && b[5] != 0x86 && b[5] != 0x87
    ensures IdentifySamsung(a) == IdentifySamsung(b)
  {
    ExtraKeys();
  }

  lemma ExtraKeys()
    ensures forall k :: 0 <= k < |SAMSUNG_TECH_SMI_EXTRA| ==> SAMSUNG_TECH_SMI_EXTRA[k].key in {0x86, 0x87}
  {
  }

  /* ------------------------------------------------------------ describing */

  /** The technology string chosen by the manufacturer byte. */
  function Tech(fid: seq<bv8>): Option<string>
    requires |fid| >= 6
  {
    if MicronFamily(fid[0]) then IdentifyMicronIntelSpectek(fid)
    else if fid[0] == 0x9B then IdentifyYmtc(fid)
    else if fid[0] == 0x98 || fid[0] == 0x45 then IdentifyToshibaSandisk(fid)
    else if fid[0] == 0xAD then IdentifyHynix(fid)
    else if fid[0] == 0xEC then IdentifySamsung(fid)
    else None
  }

  /** The words of a description: manufacturer, then technology, cell type
      and page size, each only when known. */
  function Parts(fid: seq<bv8>): (parts: seq<string>)
    requires |fid| >= 6
  {
    Words(ManufacturerName(fid[0]), Tech(fid), CellType(fid), PageSize(fid))
  }

  /** The manufacturer, the technology when there is one, and the cell type
      and page size when they are not empty, in that order. */
  function Words(maker: string, tech: Option<string>, cell: string, page: string): (parts: seq<string>)
    ensures |parts| == 1 + (if tech.Some? then 1 else 0) + (if cell != "" then 1 else 0) + (if page != "" then 1 else 0)
    ensures parts[0] == maker
    ensures tech.Some? ==> parts[1] == tech.value
    ensures cell != "" ==> parts[if tech.Some? then 2 else 1] == cell
    ensures page != "" ==> parts[|parts| - 1] == page
  {
    var head := [maker] + (if tech.Some? then [tech.value] else []);
    var tail := (if cell != "" then [cell] else []) + (if page != "" then [page] else []);
    assert cell != "" ==> tail[0] == cell;
    head + tail
  }

  /** `join(" ")`. */
  function JoinSpace(parts: seq<string>): string
  {
    if |parts| == 0 then "" else if |parts| == 1 then parts[0] else parts[0] + " " + JoinSpace(parts[1..])
  }

  /** Each word sits in the joined text, at the sum of the earlier words' lengths plus one space each. */
  lemma {:induction false} JoinSpaceHolds(parts: seq<string>, k: nat)
    requires k < |parts|
    ensures exists at: nat :: OccursAt(JoinSpace(parts), parts[k], at)
  {
    if |parts| > 1 {
      var rest := JoinSpace(parts[1..]);
      var whole := JoinSpace(parts);
      if k == 0 {
        assert OccursAt(whole, parts[0], 0);
      } else {
        JoinSpaceHolds(parts[1..], k - 1);
        var at: nat :| OccursAt(rest, parts[1..][k - 1], at);
        var shift := |parts[0]| + 1;
        assert whole[shift + at..shift + at + |parts[k]|] == rest[at..at + |parts[k]|];
        assert OccursAt(whole, parts[k], shift + at);
      }
    } else {
      assert OccursAt(JoinSpace(parts), parts[k], 0);
    }
  }

  /** Where word `k` starts in the joined text: after each earlier word and
      the space that follows it. */
  function WordStart(parts: seq<string>, k: nat): nat
    requires k <= |parts|
  {
    if k == 0 then 0 else |parts[0]| + 1 + WordStart(parts[1..], k - 1)
  }

  /** Each word starts one space after the end of the word before it. */
  lemma {:induction false} WordStartNext(parts: seq<string>, k: nat)
    requires k + 1 < |parts|
    ensures WordStart(parts, k + 1) == WordStart(parts, k) + |parts[k]| + 1
  {
    if k > 0 {
      WordStartNext(parts[1..], k - 1);
    }
  }

  /** The joined text ends with the last word. */
  lemma {:induction false} JoinSpaceLength(parts: seq<string>)
    requires |parts| >= 1
    ensures |JoinSpace(parts)| == WordStart(parts, |parts| - 1) + |parts[|parts| - 1]|
  {
    if |parts| > 1 {
      var rest := parts[1..];
      JoinSpaceLength(rest);
      assert |JoinSpace(parts)| == |parts[0]| + 1 + |JoinSpace(rest)|;
      assert rest[|rest| - 1] == parts[|parts| - 1];
      assert WordStart(parts, |parts| - 1) == |parts[0]| + 1 + WordStart(rest, |rest| - 1);
    }
  }

  /** Word `k` sits at `WordStart(parts, k)`, followed by a single space
      unless it is the last. */
  lemma {:induction false} JoinSpaceWord(parts: seq<string>, k: nat)
    requires k < |parts|
    ensures OccursAt(JoinSpace(parts), parts[k] + (if k + 1 < |parts| then " " else ""), WordStart(parts, k))
  {
    var whole := JoinSpace(parts);
    if |parts| == 1 {
      assert parts[k] + "" == whole;
    } else {
      var rest := JoinSpace(parts[1..]);
      assert whole == parts[0] + " " + rest;
      if k == 0 {
        assert whole[..|parts[0]| + 1] == parts[0] + " ";
      } else {
        JoinSpaceWord(parts[1..], k - 1);
        var at := WordStart(parts[1..], k - 1);
        var w := parts[k] + (if k + 1 < |parts| then " " else "");
        assert w == parts[1..][k - 1] + (if k - 1 + 1 < |parts[1..]| then " " else "");
        assert whole[|parts[0]| + 1 + at..|parts[0]| + 1 + at + |w|] == rest[at..at + |w|];
      }
    }
  }

  /** The joined text is the words one after another with a single space
      between neighbours: word `k` sits at `WordStart(parts, k)`, a space
      follows it unless it is the last, and the text ends with the last. */
  lemma JoinSpaceLayout(parts: seq<string>, k: nat)
    requires k < |parts|
    ensures OccursAt(JoinSpace(parts), parts[k], WordStart(parts, k))
    ensures k + 1 < |parts| ==> OccursAt(JoinSpace(parts), parts[k] + " ", WordStart(parts, k))
    ensures k + 1 < |parts| ==> WordStart(parts, k + 1) == WordStart(parts, k) + |parts[k]| + 1
    ensures k + 1 == |parts| ==> |JoinSpace(parts)| == WordStart(parts, k) + |parts[k]|
  {
    JoinSpaceWord(parts, k);
    var at := WordStart(parts, k);
    var w := parts[k] + (if k + 1 < |parts| then " " else "");
    assert JoinSpace(parts)[at..at + |parts[k]|] == w[..|parts[k]|];
    if k + 1 < |parts| {
      WordStartNext(parts, k);
    } else {
      JoinSpaceLength(parts);
    }
  }

  /** `describe_flash`: "Unknown" for an id shorter than 6 bytes, else the
      words joined by single spaces. */
  function DescribeFlash(fid: seq<bv8>): (d: string)
    ensures |fid| < 6 ==> d == "Unknown"
    ensures |fid| >= 6 ==> StartsWith(d, ManufacturerName(fid[0]))
  {
    if |fid| < 6 then "Unknown"
    else
      var parts := Parts(fid);
      JoinSpaceStarts(parts);
      JoinSpace(parts)
  }

  /** The joined text starts with the first word. */
  lemma JoinSpaceStarts(parts: seq<string>)
    requires |parts| >= 1
    ensures StartsWith(JoinSpace(parts), parts[0])
  {
    if |parts| > 1 {
      var w := JoinSpace(parts);
      assert w[..|parts[0]|] == parts[0];
    }
  }

  /** The description contains the manufacturer, the technology, the cell
      type and the page size whenever each is known. */
  lemma DescribeFlashContains(fid: seq<bv8>)
    requires |fid| >= 6
    ensures Contains(DescribeFlash(fid), ManufacturerName(fid[0]))
    ensures Tech(fid).Some? ==> Contains(DescribeFlash(fid), Tech(fid).value)
    ensures CellType(fid) != "" ==> Contains(DescribeFlash(fid), CellType(fid))
    ensures PageSize(fid) != "" ==> Contains(DescribeFlash(fid), PageSize(fid))
  {
    var parts := Parts(fid);
    forall k | 0 <= k < |parts|
      ensures Contains(DescribeFlash(fid), parts[k])
    {
      JoinSpaceHolds(parts, k);
    }
  }

  /** The description of a 6-byte id spells out its words in order, one space
      apart: word `k` of `Parts` (manufacturer, then technology, cell type and
      page size when each is known) starts at `WordStart`, a single space
      follows each word but the last, and nothing follows the last. */
  lemma DescribeFlashLayout(fid: seq<bv8>, k: nat)
    requires |fid| >= 6 && k < |Parts(fid)|
    ensures var parts := Parts(fid); OccursAt(DescribeFlash(fid), parts[k], WordStart(parts, k))
    ensures var parts := Parts(fid); k + 1 < |parts| ==> OccursAt(DescribeFlash(fid), parts[k] + " ", WordStart(parts, k))
    ensures var parts := Parts(fid); k + 1 < |parts| ==> WordStart(parts, k + 1) == WordStart(parts, k) + |parts[k]| + 1
    ensures var parts := Parts(fid); k + 1 == |parts| ==> |DescribeFlash(fid)| == WordStart(parts, k) + |parts[k]|
  {
    var parts := Parts(fid);
    JoinSpaceLayout(parts, k);
    assert DescribeFlash(fid) == JoinSpace(parts);
  }

  /* ------------------------------------------------------------ hex format */

  /** `format!("0x{b:02x}")`. */
  function HexByte(b: bv8): (s: string)
    ensures |s| == 4 && s[..2] == "0x"
    ensures forall k :: 2 <= k < 4 ==> HexDigitChar(s[k], false)
  {
    "0x" + Hex(b as nat, 2, false)
  }

  /** `format_flash_id_hex`: the bytes as "0x.." joined by commas. */
  function FormatFlashIdHex(fid: seq<bv8>): (s: string)
    ensures |fid| == 0 ==> s == ""
    ensures |fid| >= 1 ==> |s| == 5 * |fid| - 1
    ensures forall i :: 0 <= i < |fid| ==> s[5 * i..5 * i + 4] == HexByte(fid[i])
    ensures forall i :: 0 <= i < |fid| - 1 ==> s[5 * i + 4] == ','
  {
    if |fid| == 0 then ""
    else if |fid| == 1 then HexByte(fid[0])
    else
      var rest := FormatFlashIdHex(fid[1..]);
      var s := HexByte(fid[0]) + "," + rest;
      assert s[4] == ',';
      forall i | 1 <= i < |fid|
        ensures s[5 * i..5 * i + 4] == HexByte(fid[i])
      {
        var j := i - 1;
        assert s[5 * i..5 * i + 4] == rest[5 * j..5 * j + 4];
        assert fid[1..][j] == fid[i];
      }
      forall i | 1 <= i < |fid| - 1
        ensures s[5 * i + 4] == ','
      {
        var j := i - 1;
        assert s[5 * i + 4] == rest[5 * j + 4];
      }
      s
  }

  /** Reads the bytes back from the text: two hex digits after each "0x", one
      entry every five characters. */
  function ParseFlashIdHex(s: string): seq<bv8>
  {
    if |s| < 4 then [] else [(HexValue(s[2..4]) % 256) as bv8] + (if |s| > 5 then ParseFlashIdHex(s[5..]) else [])
  }

  /** The text loses nothing: parsing it gives back the id. */
  lemma {:induction false} FormatFlashIdHexRoundTrip(fid: seq<bv8>)
    ensures ParseFlashIdHex(FormatFlashIdHex(fid)) == fid
  {
    if |fid| == 1 {
      ParseSingle(fid[0]);
    } else if |fid| > 1 {
      FormatFlashIdHexRoundTrip(fid[1..]);
      ParseEntry(fid[0], FormatFlashIdHex(fid[1..]));
      assert fid == [fid[0]] + fid[1..];
    }
  }

  /** One entry followed by a comma and the rest reads as that byte, then the rest. */
  lemma ParseEntry(b: bv8, t: string)
    ensures ParseFlashIdHex(HexByte(b) + "," + t) == [b] + ParseFlashIdHex(t)
  {
    HexByteValue(b);
    ByteOfInt(b);
    ParseCons(HexByte(b), t);
  }

  /** A lone entry reads as its byte. */
  lemma ParseSingle(b: bv8)
    ensures ParseFlashIdHex(HexByte(b)) == [b]
  {
    HexByteValue(b);
    ByteOfInt(b);
    ParseLone(HexByte(b));
  }

  /** Four characters alone read as the value of the third and fourth. */
  lemma ParseLone(e: string)
    requires |e| == 4
    ensures ParseFlashIdHex(e) == [(HexValue(e[2..4]) % 256) as bv8]
  {
  }

  /** Any four characters, a comma and a rest read as the value of the
      third and fourth characters, then the rest. */
  lemma ParseCons(e: string, t: string)
    requires |e| == 4
    ensures ParseFlashIdHex(e + "," + t) == [(HexValue(e[2..4]) % 256) as bv8] + ParseFlashIdHex(t)
  {
    var s := e + "," + t;
    assert s[2..4] == e[2..4];
    if |s| > 5 {
      assert s[5..] == t;
    } else {
      assert t == [];
    }
  }

  /** The two digits of a byte read back as the byte. */
  lemma HexByteValue(b: bv8)
    ensures HexValue(HexByte(b)[2..4]) == b as int
  {
    assert HexByte(b)[2..4] == Hex(b as nat, 2, false);
    assert Pow16(2) == 256;
    HexRoundTrip(b as nat, 2, false);
  }
}

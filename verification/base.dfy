/** Shared vocabulary of the model: results and failure kinds, byte buffers,
    ASCII text, first-match searches, little-endian words and number formatting. */
module Base {

  datatype Option<T> = None | Some(value: T)

  /** The kinds of failure the core reports. The message texts are not modelled. */
  datatype Failure =
    | IoctlFailed(errno: int)                          // the control call itself returned < 0
    | TransportError(hostStatus: bv16, driverStatus: bv16)
    | AtaRejected(status: bv8, error: bv8)             // ATA status bit 0 set in the sense descriptor
    | Mismatch                                         // the response lacks the family's signature
    | NoFlashData                                      // no usable flash bank was found
    | Unsupported                                      // a controller variant the extractor cannot read
    | UnknownController                                // a forced name that is not accepted, or nothing detected

  datatype Result<T> = Ok(value: T) | Err(error: Failure)

  /** What a protocol step yields and the commands it sends, in order. */
  datatype Session<T, C> = Session(result: T, issued: seq<C>)

  /** Session `s` run after the commands `sent`. */
  function After<T, C>(sent: seq<C>, s: Session<T, C>): Session<T, C>
  {
    Session(s.result, sent + s.issued)
  }

  /** Running after `b` and then after `a` is running after `a + b`. */
  lemma AfterAfter<T, C>(a: seq<C>, b: seq<C>, s: Session<T, C>)
    ensures After(a, After(b, s)) == After(a + b, s)
  {
  }

  /** The history after `sent` and then `more` is the history after both. */
  lemma Concat<C>(h: seq<C>, sent: seq<C>, more: seq<C>)
    ensures h + sent + more == h + (sent + more)
  {
  }

  lemma TwoMore<C>(h: seq<C>, a: C, b: C)
    ensures h + [a] + [b] == h + [a, b]
  {
  }

  /** The scan result `s` with the items `banks` already found and the commands `sent` already issued. */
  function Joined<A, C>(banks: seq<A>, sent: seq<C>, s: Session<seq<A>, C>): Session<seq<A>, C>
  {
    Session(banks + s.result, sent + s.issued)
  }

  /** One step's banks and commands move from the rest of the scan to what is done. */
  lemma JoinJoin<A, C>(banks: seq<A>, sent: seq<C>, first: seq<A>, t: seq<C>, rest: Session<seq<A>, C>)
    ensures Joined(banks, sent, Joined(first, t, rest)) == Joined(banks + first, sent + t, rest)
  {
    assert banks + (first + rest.result) == banks + first + rest.result;
    assert sent + (t + rest.issued) == sent + t + rest.issued;
  }

  /** The loop invariant `all == Joined(banks, sent, cur)` survives a step that splits `cur`. */
  lemma JoinAfter<A, C>(all: Session<seq<A>, C>, banks: seq<A>, sent: seq<C>, cur: Session<seq<A>, C>,
                        first: seq<A>, t: seq<C>, rest: Session<seq<A>, C>)
    requires all == Joined(banks, sent, cur) && cur == Joined(first, t, rest)
    ensures all == Joined(banks + first, sent + t, rest)
  {
    JoinJoin(banks, sent, first, t, rest);
  }

  lemma NothingSent<C>(h: seq<C>)
    ensures h + [] == h
  {
  }

  /** Nothing done yet: the whole scan is still ahead. */
  lemma JoinNone<A, C>(s: Session<seq<A>, C>)
    ensures Joined([], [], s) == s
  {
    assert [] + s.result == s.result;
    assert [] + s.issued == s.issued;
  }

  /** Nothing left: what is done is the whole scan. */
  lemma JoinEnd<A, C>(banks: seq<A>, sent: seq<C>)
    ensures Joined(banks, sent, Session([], [])) == Session(banks, sent)
  {
    assert banks + [] == banks;
    assert sent + [] == sent;
  }

  /* ---------------------------------------------------------------- buffers */

  function Zeros(n: nat): (z: seq<bv8>)
    ensures |z| == n && forall i :: 0 <= i < n ==> z[i] == 0
  {
    seq(n, _ => 0)
  }

  /** The contents of a zero-initialised buffer of `n` bytes after the device
      transferred `data` into it: a short transfer leaves the tail zero, a
      long one is cut at the buffer's end. */
  function Fit(data: seq<bv8>, n: nat): (buf: seq<bv8>)
    ensures |buf| == n
    ensures forall i :: 0 <= i < n ==> buf[i] == if i < |data| then data[i] else 0
  {
    if |data| >= n then data[..n] else data + Zeros(n - |data|)
  }

  /** `buf` after the device transferred `data` into it: the transfer
      overwrites the buffer from its start and is cut at its end; bytes past
      a short transfer keep what the buffer held. */
  function Overlay(buf: seq<bv8>, data: seq<bv8>): (r: seq<bv8>)
    ensures |r| == |buf|
    ensures forall i :: 0 <= i < |buf| ==> r[i] == if i < |data| then data[i] else buf[i]
  {
    if |data| >= |buf| then data[..|buf|] else data + buf[|data|..]
  }

  /** A fresh zeroed buffer is the case `Fit` describes. */
  lemma OverlayZeros(data: seq<bv8>, n: nat)
    ensures Overlay(Zeros(n), data) == Fit(data, n)
  {
  }

  /* ------------------------------------------------------------------- text */

  /** Rust's `u8::is_ascii_graphic`. */
  predicate IsGraphic(b: bv8) { 0x21 <= b <= 0x7E }

  /** A graphic byte or the space. */
  predicate IsPrintable(b: bv8) { IsGraphic(b) || b == 0x20 }

  /** Every byte that is neither graphic nor a space replaced by a space. */
  function Printable(bs: seq<bv8>): (r: seq<bv8>)
    ensures |r| == |bs|
    ensures forall i :: 0 <= i < |bs| ==> r[i] == if IsPrintable(bs[i]) then bs[i] else 0x20
  {
    seq(|bs|, i requires 0 <= i < |bs| => if IsPrintable(bs[i]) then bs[i] else 0x20)
  }

  /** Bytes read as characters (`b as char`). */
  function Text(bs: seq<bv8>): (s: string)
    ensures |s| == |bs|
    ensures forall i :: 0 <= i < |bs| ==> s[i] == bs[i] as char
  {
    seq(|bs|, i requires 0 <= i < |bs| => bs[i] as char)
  }

  /** The index of the first non-space at or after `i`, or `|s|`. */
  function SkipSpaces(s: string, i: nat): (j: nat)
    requires i <= |s|
    decreases |s| - i
    ensures i <= j <= |s|
    ensures forall k :: i <= k < j ==> s[k] == ' '
    ensures j < |s| ==> s[j] != ' '
  {
    if i < |s| && s[i] == ' ' then SkipSpaces(s, i + 1) else i
  }

  /** Where `s[..j]` ends once its trailing spaces are dropped, never below `lo`. */
  function DropSpaces(s: string, lo: nat, j: nat): (e: nat)
    requires lo <= j <= |s|
    decreases j
    ensures lo <= e <= j
    ensures forall k :: e <= k < j ==> s[k] == ' '
    ensures e > lo ==> s[e - 1] != ' '
  {
    if j > lo && s[j - 1] == ' ' then DropSpaces(s, lo, j - 1) else j
  }

  /** `str::trim` on text whose only whitespace character can be the space:
      every caller first maps control bytes to spaces or stops before them.
      Leading spaces go first, then trailing ones. */
  function Trim(s: string): (t: string)
    ensures |t| <= |s|
    ensures t == [] || (t[0] != ' ' && t[|t| - 1] != ' ')
    ensures exists a: nat, e: nat ::
              a <= e <= |s| && t == s[a..e] &&
              (forall k :: 0 <= k < a ==> s[k] == ' ') && (forall k :: e <= k < |s| ==> s[k] == ' ')
  {
    var a := SkipSpaces(s, 0);
    s[a..DropSpaces(s, a, |s|)]
  }

  /** Only one slice of a text is bordered by spaces and has no space at
      either end, so `Trim` is determined by its contract: it keeps the
      text between the leading and the trailing spaces, inner spaces and all. */
  lemma TrimUnique(s: string, a: nat, e: nat)
    requires a <= e <= |s|
    requires forall k :: 0 <= k < a ==> s[k] == ' '
    requires forall k :: e <= k < |s| ==> s[k] == ' '
    requires a == e || (s[a] != ' ' && s[e - 1] != ' ')
    ensures Trim(s) == s[a..e]
  {
    var a0 := SkipSpaces(s, 0);
    var e0 := DropSpaces(s, a0, |s|);
    if a < e {
      assert a0 == a;
      assert e0 == e;
    } else {
      TrimEmpty(s);
    }
  }

  /** Leading and trailing spaces go, the inner one stays. */
  lemma TrimExample()
    ensures Trim(" a b ") == "a b"
  {
    TrimUnique(" a b ", 1, 4);
  }

  /** Trimming leaves nothing exactly when the text is all spaces. */
  lemma TrimEmpty(s: string)
    ensures Trim(s) == [] <==> forall k :: 0 <= k < |s| ==> s[k] == ' '
  {
    var a := SkipSpaces(s, 0);
    var e := DropSpaces(s, a, |s|);
    if a < |s| {
      assert e > a;
      assert Trim(s)[0] == s[a];
    }
  }

  /** Trimming text that starts with a non-space keeps it at least up to
      any later non-space. */
  lemma TrimKeeps(s: string, j: nat)
    requires j < |s| && s[0] != ' ' && s[j] != ' '
    ensures j < |Trim(s)| && forall i :: 0 <= i <= j ==> Trim(s)[i] == s[i]
  {
    assert SkipSpaces(s, 0) == 0;
    assert DropSpaces(s, 0, |s|) > j;
  }

  function Spaces(n: nat): (sp: string)
    ensures |sp| == n && forall k :: 0 <= k < n ==> sp[k] == ' '
  {
    seq(n, _ => ' ')
  }

  function SpaceBytes(n: nat): (sp: seq<bv8>)
    ensures |sp| == n && forall k :: 0 <= k < n ==> sp[k] == 0x20
  {
    seq(n, _ => 0x20)
  }

  /** Text with no space at either end, padded on the right with spaces (the
      way fixed-width identify fields are filled), trims back to itself. */
  lemma TrimPadded(t: string, n: nat)
    requires t == [] || (t[0] != ' ' && t[|t| - 1] != ' ')
    ensures Trim(t + Spaces(n)) == t
  {
    var u := t + Spaces(n);
    if t == [] {
      SkipAllSpaces(u, 0);
    } else {
      assert SkipSpaces(u, 0) == 0;
      DropPadding(u, |t|, |u|);
      assert u[0..|t|] == t;
    }
  }

  lemma {:induction false} SkipAllSpaces(s: string, i: nat)
    requires i <= |s| && forall k :: i <= k < |s| ==> s[k] == ' '
    ensures SkipSpaces(s, i) == |s|
    decreases |s| - i
  {
    if i < |s| {
      SkipAllSpaces(s, i + 1);
    }
  }

  /** Dropping the spaces after a non-space at `m - 1` stops at `m`. */
  lemma {:induction false} DropPadding(s: string, m: nat, j: nat)
    requires 0 < m <= j <= |s| && s[m - 1] != ' '
    requires forall k :: m <= k < j ==> s[k] == ' '
    ensures DropSpaces(s, 0, j) == m
    decreases j
  {
    if j > m {
      DropPadding(s, m, j - 1);
    }
  }

  /** Printable ASCII text: every character from the space to '~'. */
  predicate IsAsciiText(s: string)
  {
    forall k :: 0 <= k < |s| ==> ' ' <= s[k] <= '~'
  }

  /** A controller name: non-empty printable ASCII with no space at either end. */
  predicate IsName(s: string)
  {
    s != [] && IsAsciiText(s) && s[0] != ' ' && s[|s| - 1] != ' '
  }

  /** `ascii_trim`: bytes read as text, every byte that is neither graphic nor
      a space shown as a space, then trimmed. The result is printable ASCII
      with no space at either end and no longer than the input. */
  function AsciiTrim(bytes: seq<bv8>): (t: string)
    ensures |t| <= |bytes|
    ensures forall k :: 0 <= k < |t| ==> ' ' <= t[k] <= '~'
    ensures t == [] || (t[0] != ' ' && t[|t| - 1] != ' ')
  {
    var s := Text(Printable(bytes));
    TextPrintableRange(bytes);
    TrimRange(s);
    Trim(s)
  }

  /** The trimmed text of `bytes`, or `default` when nothing is left. */
  function TextOr(bytes: seq<bv8>, default: string): (name: string)
    requires IsName(default)
    ensures IsName(name)
    ensures |name| <= |bytes| || name == default
  {
    var t := AsciiTrim(bytes);
    if t == [] then default else t
  }

  /** Bytes that start with `n` graphic bytes keep them through `AsciiTrim`. */
  lemma AsciiTrimKeepsPrefix(bytes: seq<bv8>, n: nat)
    requires 0 < n <= |bytes|
    requires forall j :: 0 <= j < n ==> IsGraphic(bytes[j])
    ensures n <= |AsciiTrim(bytes)| && forall j :: 0 <= j < n ==> AsciiTrim(bytes)[j] == bytes[j] as char
  {
    var s := Text(Printable(bytes));
    assert forall j :: 0 <= j < n ==> s[j] == bytes[j] as char;
    TrimKeeps(s, n - 1);
  }

  /** Bytes that start with `n` graphic bytes, cut anywhere after them, give
      a name that starts with them. */
  lemma TextOrKeepsPrefix(bytes: seq<bv8>, end: nat, n: nat, default: string)
    requires 0 < n <= end <= |bytes| && IsName(default)
    requires forall j :: 0 <= j < n ==> IsGraphic(bytes[j])
    ensures n <= |TextOr(bytes[..end], default)|
    ensures forall j :: 0 <= j < n ==> TextOr(bytes[..end], default)[j] == bytes[j] as char
  {
    var cut := bytes[..end];
    assert forall j :: 0 <= j < n ==> cut[j] == bytes[j] && IsGraphic(cut[j]);
    AsciiTrimKeepsPrefix(cut, n);
  }

  /** Nothing left gives the default. */
  lemma TextOrEmpty(bytes: seq<bv8>, default: string)
    requires |bytes| == 0 && IsName(default)
    ensures TextOr(bytes, default) == default
  {
  }

  /** Clean non-empty text is its own name. */
  lemma TextOrClean(text: seq<bv8>, default: string)
    requires text != [] && IsCleanText(text) && IsName(default)
    ensures TextOr(text, default) == Text(text)
  {
    AsciiTrimPadded(text, 0);
    assert text + SpaceBytes(0) == text;
  }

  lemma TextPrintableRange(bytes: seq<bv8>)
    ensures forall j :: 0 <= j < |bytes| ==> ' ' <= Text(Printable(bytes))[j] <= '~'
  {
    forall j | 0 <= j < |bytes| ensures ' ' <= Text(Printable(bytes))[j] <= '~' {
      PrintableChar(Printable(bytes)[j]);
    }
  }

  lemma TrimRange(s: string)
    requires forall j :: 0 <= j < |s| ==> ' ' <= s[j] <= '~'
    ensures forall k :: 0 <= k < |Trim(s)| ==> ' ' <= Trim(s)[k] <= '~'
  {
    var a := SkipSpaces(s, 0);
    forall k | 0 <= k < |Trim(s)| ensures ' ' <= Trim(s)[k] <= '~' {
      assert Trim(s)[k] == s[a + k];
    }
  }

  lemma PrintableChar(b: bv8)
    requires IsPrintable(b)
    ensures ' ' <= b as char <= '~'
  {
    assert 0x20 <= b as int <= 0x7E;
  }

  /** Printable ASCII with no space at either end: what a well-formed text field holds. */
  predicate IsCleanText(s: seq<bv8>)
  {
    (forall k :: 0 <= k < |s| ==> IsPrintable(s[k])) && (s == [] || (s[0] != 0x20 && s[|s| - 1] != 0x20))
  }

  /** Some byte of the buffer is not zero. */
  predicate AnyNonZero(buf: seq<bv8>) { exists i :: 0 <= i < |buf| && buf[i] != 0 }

  /** Text stored in a fixed-width field of `width` bytes, padded on the right with spaces. */
  function PadField(text: seq<bv8>, width: nat): (field: seq<bv8>)
    requires |text| <= width
    ensures |field| == width
  {
    text + SpaceBytes(width - |text|)
  }

  /** A clean text stored in a padded field is read back exactly by `AsciiTrim`. */
  lemma PadFieldRoundTrip(text: seq<bv8>, width: nat)
    requires |text| <= width && IsCleanText(text)
    ensures AsciiTrim(PadField(text, width)) == Text(text)
  {
    AsciiTrimPadded(text, width - |text|);
  }

  /** Clean text padded with spaces is read back exactly by `AsciiTrim`. */
  lemma AsciiTrimPadded(s: seq<bv8>, n: nat)
    requires IsCleanText(s)
    ensures AsciiTrim(s + SpaceBytes(n)) == Text(s)
  {
    var u := s + SpaceBytes(n);
    assert Printable(u) == u;
    assert Text(u) == Text(s) + Spaces(n);
    TrimPadded(Text(s), n);
  }

  /* -------------------------------------------------------------- searching */

  predicate StartsWith<T(==)>(s: seq<T>, p: seq<T>) { |p| <= |s| && s[..|p|] == p }

  predicate OccursAt<T(==)>(s: seq<T>, p: seq<T>, i: nat) { i + |p| <= |s| && s[i..i + |p|] == p }

  function FindFrom<T(==)>(s: seq<T>, p: seq<T>, i: nat): (r: Option<nat>)
    decreases |s| - i
    ensures r.Some? ==> i <= r.value && OccursAt(s, p, r.value)
    ensures r.Some? ==> forall j :: i <= j < r.value ==> !OccursAt(s, p, j)
    ensures r.None? ==> forall j :: i <= j ==> !OccursAt(s, p, j)
  {
    if i + |p| > |s| then None
    else if OccursAt(s, p, i) then Some(i)
    else FindFrom(s, p, i + 1)
  }

  /** The first position at which `p` occurs in `s` (`str::find`, or the
      first window of `slice::windows` equal to `p`). */
  function Find<T(==)>(s: seq<T>, p: seq<T>): (r: Option<nat>)
    ensures r.Some? ==> OccursAt(s, p, r.value) && forall j :: 0 <= j < r.value ==> !OccursAt(s, p, j)
    ensures r.None? <==> forall j :: 0 <= j ==> !OccursAt(s, p, j)
  {
    FindFrom(s, p, 0)
  }

  predicate Contains<T(==)>(s: seq<T>, p: seq<T>) { Find(s, p).Some? }

  function FirstIndexFrom(s: seq<bv8>, stop: bv8 -> bool, i: nat): (r: Option<nat>)
    decreases |s| - i
    ensures r.Some? ==> i <= r.value < |s| && stop(s[r.value])
    ensures r.Some? ==> forall j :: i <= j < r.value ==> !stop(s[j])
    ensures r.None? ==> forall j :: i <= j < |s| ==> !stop(s[j])
  {
    if i >= |s| then None
    else if stop(s[i]) then Some(i)
    else FirstIndexFrom(s, stop, i + 1)
  }

  /** `iter().position(stop)`: the index of the first byte satisfying `stop`. */
  function FirstIndex(s: seq<bv8>, stop: bv8 -> bool): (r: Option<nat>)
    ensures r.Some? ==> r.value < |s| && stop(s[r.value]) && forall j :: 0 <= j < r.value ==> !stop(s[j])
    ensures r.None? <==> forall j :: 0 <= j < |s| ==> !stop(s[j])
  {
    FirstIndexFrom(s, stop, 0)
  }

  function OccurringFrom<T(==)>(pats: seq<seq<T>>, s: seq<T>, i: nat): (r: Option<nat>)
    decreases |pats| - i
    ensures r.Some? ==> i <= r.value < |pats| && Contains(s, pats[r.value])
    ensures r.Some? ==> forall j :: i <= j < r.value ==> !Contains(s, pats[j])
    ensures r.None? ==> forall j :: i <= j < |pats| ==> !Contains(s, pats[j])
  {
    if i >= |pats| then None
    else if Contains(s, pats[i]) then Some(i)
    else OccurringFrom(pats, s, i + 1)
  }

  /** The index of the first pattern, in list order, that occurs somewhere in `s`. */
  function FirstOccurring<T(==)>(pats: seq<seq<T>>, s: seq<T>): (r: Option<nat>)
    ensures r.Some? ==> r.value < |pats| && Contains(s, pats[r.value]) && forall j :: 0 <= j < r.value ==> !Contains(s, pats[j])
    ensures r.None? <==> forall j :: 0 <= j < |pats| ==> !Contains(s, pats[j])
  {
    OccurringFrom(pats, s, 0)
  }

  /** An entry of a prefix table: strings starting with `prefix` map to `value`. */
  datatype Entry<T> = Entry(prefix: string, value: T)

  function PrefixIndexFrom<T>(table: seq<Entry<T>>, s: string, i: nat): (r: Option<nat>)
    decreases |table| - i
    ensures r.Some? ==> i <= r.value < |table| && StartsWith(s, table[r.value].prefix)
    ensures r.Some? ==> forall j :: i <= j < r.value ==> !StartsWith(s, table[j].prefix)
    ensures r.None? ==> forall j :: i <= j < |table| ==> !StartsWith(s, table[j].prefix)
  {
    if i >= |table| then None
    else if StartsWith(s, table[i].prefix) then Some(i)
    else PrefixIndexFrom(table, s, i + 1)
  }

  /** The first entry, in table order, whose prefix starts `s`. */
  function FirstPrefix<T>(table: seq<Entry<T>>, s: string): (r: Option<T>)
    ensures r.None? <==> forall j :: 0 <= j < |table| ==> !StartsWith(s, table[j].prefix)
    ensures r.Some? ==> exists k :: 0 <= k < |table| && StartsWith(s, table[k].prefix) && table[k].value == r.value &&
                                    forall j :: 0 <= j < k ==> !StartsWith(s, table[j].prefix)
  {
    var i := PrefixIndexFrom(table, s, 0);
    if i.Some? then Some(table[i.value].value) else None
  }

  /* ------------------------------------------------------ little-endian words */

  newtype uint16 = x: int | 0 <= x < 0x1_0000
  newtype uint32 = x: int | 0 <= x < 0x1_0000_0000
  newtype uint64 = x: int | 0 <= x < 0x1_0000_0000_0000_0000

  /** `usize as u32`: keep the low 32 bits. */
  function U32(n: nat): uint32
  {
    (n % 0x1_0000_0000) as uint32
  }

  /** `u16::from_le_bytes([lo, hi])`. */
  function Le16(lo: bv8, hi: bv8): uint16
  {
    (lo as int + 256 * hi as int) as uint16
  }

  /** The `count` low bytes of `n`, least significant first. */
  function LeBytes(n: nat, count: nat): (b: seq<bv8>)
    ensures |b| == count
  {
    if count == 0 then [] else [(n % 0x100) as bv8] + LeBytes(n / 0x100, count - 1)
  }

  /** `u32::to_le_bytes`. */
  function Le32Bytes(x: uint32): (b: seq<bv8>)
    ensures |b| == 4
  {
    LeBytes(x as nat, 4)
  }

  lemma ByteOfInt(b: bv8)
    ensures ((b as int) % 256) as bv8 == b
  {
    assert (b as int) % 256 == b as int;
  }

  /* ------------------------------------------------------- number formatting */

  function DigitChar(d: nat): (c: char)
    requires d < 16
  {
    if d < 10 then ('0' as int + d) as char else ('a' as int + d - 10) as char
  }

  function UpperDigitChar(d: nat): (c: char)
    requires d < 16
  {
    if d < 10 then ('0' as int + d) as char else ('A' as int + d - 10) as char
  }

  function DigitValue(c: char): nat
  {
    if '0' <= c <= '9' then c as int - '0' as int
    else if 'a' <= c <= 'f' then c as int - 'a' as int + 10
    else if 'A' <= c <= 'F' then c as int - 'A' as int + 10
    else 0
  }

  /** Rust's `{}` formatting of an unsigned integer. */
  function Decimal(n: nat): (s: string)
    ensures |s| >= 1
    ensures forall k :: 0 <= k < |s| ==> '0' <= s[k] <= '9'
  {
    if n < 10 then [DigitChar(n)] else Decimal(n / 10) + [DigitChar(n % 10)]
  }

  function DecimalValue(s: string): nat
  {
    if s == [] then 0 else 10 * DecimalValue(s[..|s| - 1]) + DigitValue(s[|s| - 1])
  }

  /** Decimal formatting loses nothing: reading the digits back gives the number. */
  lemma {:induction false} DecimalRoundTrip(n: nat)
    ensures DecimalValue(Decimal(n)) == n
  {
    if n >= 10 {
      DecimalRoundTrip(n / 10);
      var s := Decimal(n);
      assert s[..|s| - 1] == Decimal(n / 10);
    }
  }

  /** Rust's `{:0wx}` (lower case) or `{:0wX}` (upper case) of a number below `16^width`. */
  function Hex(n: nat, width: nat, upper: bool): (s: string)
    ensures |s| == width
    ensures forall k :: 0 <= k < |s| ==> HexDigitChar(s[k], upper)
  {
    if width == 0 then []
    else Hex(n / 16, width - 1, upper) + [if upper then UpperDigitChar(n % 16) else DigitChar(n % 16)]
  }

  /** A digit `{:x}` writes (`upper` false) or `{:X}` writes (`upper` true). */
  predicate HexDigitChar(c: char, upper: bool)
  {
    '0' <= c <= '9' || (if upper then 'A' <= c <= 'F' else 'a' <= c <= 'f')
  }

  function HexValue(s: string): nat
  {
    if s == [] then 0 else 16 * HexValue(s[..|s| - 1]) + DigitValue(s[|s| - 1])
  }

  function Pow16(k: nat): (p: nat)
    ensures p >= 1
  {
    if k == 0 then 1 else 16 * Pow16(k - 1)
  }

  /** Fixed-width hex formatting of a number that fits the width loses nothing. */
  lemma {:induction false} HexRoundTrip(n: nat, width: nat, upper: bool)
    requires n < Pow16(width)
    ensures HexValue(Hex(n, width, upper)) == n
  {
    if width > 0 {
      var q, d := n / 16, n % 16;
      var p := Pow16(width - 1);
      assert n == 16 * q + d && Pow16(width) == 16 * p;
      assert q < p;
      HexRoundTrip(q, width - 1, upper);
      var s := Hex(n, width, upper);
      assert s[..|s| - 1] == Hex(q, width - 1, upper);
      assert DigitValue(s[|s| - 1]) == d by {
        DigitRoundTrip(d, upper);
      }
      assert HexValue(s) == 16 * HexValue(Hex(q, width - 1, upper)) + d;
    }
  }

  /** A digit character reads back as its value. */
  lemma DigitRoundTrip(d: nat, upper: bool)
    requires d < 16
    ensures DigitValue(if upper then UpperDigitChar(d) else DigitChar(d)) == d
  {
  }
}

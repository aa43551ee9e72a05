/** The header block byte by byte, as the format prescribes it. */
module UstarLayout {
  import opened Options
  import opened UstarFormat

  // ---- where each field stands ----

  lemma {:induction false} TotalTo(widths: seq<nat>, i: nat)
    requires i < |widths|
    ensures Total(widths[..i + 1]) == Total(widths[..i]) + widths[i]
  {
    if i == 0 {
      assert widths[..1] == [widths[0]] && widths[..0] == [] && widths[..1][1..] == [];
    } else {
      TotalTo(widths[1..], i - 1);
      assert widths[..i + 1][1..] == widths[1..][..i] && widths[..i][1..] == widths[1..][..i - 1];
    }
  }

  lemma {:induction false} FieldAt(fields: seq<seq<Byte>>, widths: seq<nat>, i: nat)
    requires Widths(fields, widths) && i < |fields|
    ensures var o := Total(widths[..i]);
      o + widths[i] <= |Join(fields)| && Join(fields)[o..o + widths[i]] == fields[i]
  {
    if i == 0 {
      assert widths[..0] == [];
    } else {
      FieldAt(fields[1..], widths[1..], i - 1);
      var o := Total(widths[1..][..i - 1]);
      assert widths[..i][1..] == widths[1..][..i - 1];
      var rest := Join(fields[1..]);
      assert Join(fields) == fields[0] + rest;
      assert Join(fields)[widths[0] + o..widths[0] + o + widths[i]] == rest[o..o + widths[i]];
    }
  }

  lemma {:induction false} HeaderOffsets(w: seq<nat>)
    requires w == HEADER_WIDTHS
    ensures |w| == 17
    ensures Total(w[..0]) == 0 && Total(w[..1]) == 100 && Total(w[..2]) == 108 && Total(w[..3]) == 116 && Total(w[..4]) == 124
    ensures Total(w[..5]) == 136 && Total(w[..6]) == 148 && Total(w[..7]) == 156 && Total(w[..8]) == 157
  {
    TotalTo(w, 0);
    TotalTo(w, 1);
    TotalTo(w, 2);
    TotalTo(w, 3);
    TotalTo(w, 4);
    TotalTo(w, 5);
    TotalTo(w, 6);
    TotalTo(w, 7);
  }

  lemma {:induction false} TrailerOffsets(w: seq<nat>)
    requires w == HEADER_WIDTHS
    ensures |w| == 17
    ensures Total(w[..9]) == 257 && Total(w[..10]) == 263 && Total(w[..11]) == 265 && Total(w[..12]) == 297
    ensures Total(w[..13]) == 329 && Total(w[..14]) == 337 && Total(w[..15]) == 345 && Total(w[..16]) == 500
  {
    HeaderOffsets(w);
    TotalTo(w, 8);
    TotalTo(w, 9);
    TotalTo(w, 10);
    TotalTo(w, 11);
    TotalTo(w, 12);
    TotalTo(w, 13);
    TotalTo(w, 14);
    TotalTo(w, 15);
  }

  // ---- numbers and the checksum ----

  predicate Digits(s: seq<Byte>) {
    forall i | 0 <= i < |s| :: 48 <= s[i] <= 55
  }

  lemma {:induction false} SumConcat(a: seq<Byte>, b: seq<Byte>)
    ensures Sum(a + b) == Sum(a) + Sum(b)
  {
    if a == [] {
      assert a + b == b;
    } else {
      assert (a + b)[1..] == a[1..] + b;
      SumConcat(a[1..], b);
    }
  }

  lemma {:induction false} EightBlanks(s: seq<Byte>)
    requires |s| == 8 && forall i | 0 <= i < 8 :: s[i] == 32
    ensures Sum(s) == 256
  {
    SumOfFour(s[..4]);
    SumOfFour(s[4..]);
    assert s == s[..4] + s[4..];
    SumConcat(s[..4], s[4..]);
  }

  lemma {:induction false} SumOfFour(s: seq<Byte>)
    requires |s| == 4
    ensures Sum(s) == s[0] as int + s[1] as int + s[2] as int + s[3] as int
  {
    SumFrom(s, 0);
    SumFrom(s, 1);
    SumFrom(s, 2);
    SumFrom(s, 3);
    assert s[0..] == s && s[4..] == [];
  }

  lemma {:induction false} SumFrom(s: seq<Byte>, i: nat)
    requires i < |s|
    ensures Sum(s[i..]) == s[i] as int + Sum(s[i + 1..])
  {
    assert s[i..][1..] == s[i + 1..];
  }

  /** A block split around one of its fields. */
  lemma {:induction false} JoinAround(fields: seq<seq<Byte>>, i: nat)
    requires i < |fields|
    ensures Join(fields) == Join(fields[..i]) + fields[i] + Join(fields[i + 1..])
  {
    if i == 0 {
      assert fields[..0] == [] && Join([]) == [];
    } else {
      JoinAround(fields[1..], i - 1);
      assert fields[1..][i - 1] == fields[i] && fields[1..][i..] == fields[i + 1..];
      JoinFirst(fields, i);
      Regroup(fields[0], Join(fields[1..][..i - 1]), fields[i], Join(fields[i + 1..]));
    }
  }

  lemma {:induction false} Regroup(a: seq<Byte>, b: seq<Byte>, c: seq<Byte>, d: seq<Byte>)
    ensures a + (b + c + d) == (a + b) + c + d
  {
  }

  lemma {:induction false} JoinFirst(fields: seq<seq<Byte>>, i: nat)
    requires 0 < i <= |fields|
    ensures Join(fields[..i]) == fields[0] + Join(fields[1..][..i - 1])
  {
    assert fields[..i][1..] == fields[1..][..i - 1];
  }

  function Digit(b: Byte): int { b as int - 48 }

  /** The value of six octal digits. */
  function SixDigits(s: seq<Byte>): int
    requires |s| == 6
  {
    32768 * Digit(s[0]) + 4096 * Digit(s[1]) + 512 * Digit(s[2]) + 64 * Digit(s[3]) + 8 * Digit(s[4]) + Digit(s[5])
  }

  /** The value of eleven octal digits. */
  function ElevenDigits(s: seq<Byte>): int
    requires |s| == 11
  {
    1073741824 * Digit(s[0]) + 134217728 * Digit(s[1]) + 16777216 * Digit(s[2]) + 2097152 * Digit(s[3])
    + 262144 * Digit(s[4]) + 32768 * Digit(s[5]) + 4096 * Digit(s[6]) + 512 * Digit(s[7]) + 64 * Digit(s[8])
    + 8 * Digit(s[9]) + Digit(s[10])
  }

  lemma {:induction false} OneDigit(s: seq<Byte>, k: nat)
    requires k < |s| && Digits(s)
    ensures OctalValue(s[..k]).Some? && OctalValue(s[..k + 1]) == Some(8 * OctalValue(s[..k]).value + s[k] - 48)
  {
    if k > 0 { OneDigit(s, k - 1); }
    assert s[..k + 1][..k] == s[..k];
  }

  lemma {:induction false} ThreeMore(s: seq<Byte>, k: nat)
    requires k + 3 <= |s| && Digits(s)
    ensures OctalValue(s[..k]).Some? && OctalValue(s[..k + 3]).Some?
    ensures OctalValue(s[..k + 3]).value
         == 512 * OctalValue(s[..k]).value + 64 * Digit(s[k]) + 8 * Digit(s[k + 1]) + Digit(s[k + 2])
  {
    OneDigit(s, k);
    OneDigit(s, k + 1);
    OneDigit(s, k + 2);
  }

  lemma {:induction false} SixDigitsValue(s: seq<Byte>)
    requires |s| == 6 && Digits(s)
    ensures OctalValue(s) == Some(SixDigits(s))
  {
    ThreeMore(s, 0);
    ThreeMore(s, 3);
    assert s[..6] == s && OctalValue(s[..0]) == Some(0);
  }

  lemma {:induction false} FiveDigitsValue(s: seq<Byte>)
    requires |s| >= 5 && Digits(s)
    ensures OctalValue(s[..5])
         == Some(4096 * Digit(s[0]) + 512 * Digit(s[1]) + 64 * Digit(s[2]) + 8 * Digit(s[3]) + Digit(s[4]))
  {
    OneDigit(s, 0);
    OneDigit(s, 1);
    ThreeMore(s, 2);
    assert OctalValue(s[..0]) == Some(0);
  }

  lemma {:induction false} EightDigitsValue(s: seq<Byte>)
    requires |s| >= 8 && Digits(s)
    ensures OctalValue(s[..8])
         == Some(2097152 * Digit(s[0]) + 262144 * Digit(s[1]) + 32768 * Digit(s[2]) + 4096 * Digit(s[3]) + 512 * Digit(s[4])
                 + 64 * Digit(s[5]) + 8 * Digit(s[6]) + Digit(s[7]))
  {
    FiveDigitsValue(s);
    ThreeMore(s, 5);
  }

  lemma {:induction false} ElevenDigitsValue(s: seq<Byte>)
    requires |s| == 11 && Digits(s)
    ensures OctalValue(s) == Some(ElevenDigits(s))
  {
    EightDigitsValue(s);
    ThreeMore(s, 8);
    assert s[..11] == s;
  }

  lemma {:induction false} ZeroDigits(d: nat)
    ensures forall i | 0 <= i < d :: Octal(0, d)[i] == 48
  {
    if d > 0 { ZeroDigits(d - 1); }
  }

  lemma {:induction false} ModeDigits()
    ensures Octal(384, 7) == [48, 48, 48, 48, 54, 48, 48]
  {
    ZeroDigits(4);
    LastDigit(6, 5);
    LastDigit(48, 6);
    LastDigit(384, 7);
  }

  lemma {:induction false} LastDigit(n: nat, d: nat)
    requires d > 0
    ensures Octal(n, d) == Octal(n / 8, d - 1) + [(48 + n % 8) as Byte]
  {
  }

  // ---- the header ----

  predicate AllByte(s: seq<Byte>, b: Byte) {
    forall i | 0 <= i < |s| :: s[i] == b
  }

  /** Name, mode 0600 and the owner, in the first 124 bytes. */
  predicate NamedRegularFile(b: seq<Byte>, name: seq<Byte>)
    requires |b| == 512 && |name| <= 100
  {
    && b[..|name|] == name && AllByte(b[|name|..100], 0)
    && b[100..108] == [48, 48, 48, 48, 54, 48, 48, 0]
    && AllByte(b[108..115], 48) && b[115] == 0 && AllByte(b[116..123], 48) && b[123] == 0
  }

  /** Size and time of modification. */
  predicate SizedTimeless(b: seq<Byte>, size: nat)
    requires |b| == 512
  {
    && Digits(b[124..135]) && ElevenDigits(b[124..135]) == size && b[135] == 0
    && AllByte(b[136..147], 48) && b[147] == 0
  }

  /** The checksum counts its own field as eight blanks. */
  predicate Checksummed(b: seq<Byte>)
    requires |b| == 512
  {
    Digits(b[148..154]) && SixDigits(b[148..154]) == Sum(b[..148]) + 256 + Sum(b[156..]) && b[154] == 0 && b[155] == 32
  }

  /** A regular file without link, in the ustar format of version 00, of nobody and no device. */
  predicate Ustar(b: seq<Byte>)
    requires |b| == 512
  {
    && b[156] == 48 && AllByte(b[157..257], 0)
    && b[257..265] == [117, 115, 116, 97, 114, 0, 48, 48]
    && AllByte(b[265..329], 0)
    && AllByte(b[329..336], 48) && b[336] == 0 && AllByte(b[337..344], 48) && b[344] == 0
    && AllByte(b[345..512], 0)
  }

  lemma {:induction false} FieldOfHeader(name: seq<Byte>, size: nat, i: nat, w: seq<nat>)
    requires Fits(name, size) && i < 17 && w == HEADER_WIDTHS
    ensures |w| == 17
    ensures var o, f := Total(w[..i]), Fields(name, size, ChecksumField(name, size))[i];
      o + |f| <= 512 && HeaderBlock(name, size)[o..o + |f|] == f
  {
    var fields := Fields(name, size, ChecksumField(name, size));
    FieldWidths(name, size, ChecksumField(name, size));
    FieldAt(fields, w, i);
    assert |fields[i]| == w[i] && HeaderBlock(name, size) == Join(fields);
  }

  lemma {:induction false} NamePadded(f: seq<Byte>, name: seq<Byte>)
    requires |name| <= 100 && f == name + Zeros(100 - |name|)
    ensures f[..|name|] == name && AllByte(f[|name|..], 0)
  {
  }

  lemma {:induction false} HeaderNamed(name: seq<Byte>, size: nat, w: seq<nat>)
    requires Fits(name, size) && w == HEADER_WIDTHS
    ensures var b := HeaderBlock(name, size); b[..|name|] == name && AllByte(b[|name|..100], 0)
  {
    var b := HeaderBlock(name, size);
    HeaderOffsets(w);
    FieldOfHeader(name, size, 0, w);
    NamePadded(b[0..100], name);
    assert b[..|name|] == b[0..100][..|name|] && b[|name|..100] == b[0..100][|name|..];
  }

  /** Seven digits and a NUL. */
  lemma {:induction false} NumberAt(b: seq<Byte>, o: nat, n: nat, d: nat)
    requires o + d + 1 <= |b| && b[o..o + d + 1] == Octal(n, d) + [0]
    ensures b[o..o + d] == Octal(n, d) && b[o + d] == 0
  {
    assert b[o..o + d] == b[o..o + d + 1][..d] && b[o + d] == b[o..o + d + 1][d];
  }

  lemma {:induction false} ZeroAt(b: seq<Byte>, o: nat, d: nat)
    requires o + d + 1 <= |b| && b[o..o + d + 1] == Octal(0, d) + [0]
    ensures AllByte(b[o..o + d], 48) && b[o + d] == 0
  {
    NumberAt(b, o, 0, d);
    ZeroDigits(d);
  }

  lemma {:induction false} HeaderOwned(name: seq<Byte>, size: nat, w: seq<nat>)
    requires Fits(name, size) && w == HEADER_WIDTHS
    ensures NamedRegularFile(HeaderBlock(name, size), name)
  {
    var b := HeaderBlock(name, size);
    HeaderOffsets(w);
    HeaderNamed(name, size, w);
    ModeDigits();
    FieldOfHeader(name, size, 1, w);
    FieldOfHeader(name, size, 2, w);
    FieldOfHeader(name, size, 3, w);
    ZeroAt(b, 108, 7);
    ZeroAt(b, 116, 7);
  }

  lemma {:induction false} HeaderSized(name: seq<Byte>, size: nat, w: seq<nat>)
    requires Fits(name, size) && w == HEADER_WIDTHS
    ensures SizedTimeless(HeaderBlock(name, size), size)
  {
    var b := HeaderBlock(name, size);
    HeaderOffsets(w);
    FieldOfHeader(name, size, 4, w);
    FieldOfHeader(name, size, 5, w);
    NumberAt(b, 124, size, 11);
    ZeroAt(b, 136, 11);
    SizeDigits(name, size);
  }

  lemma {:induction false} SizeDigits(name: seq<Byte>, size: nat)
    requires Fits(name, size)
    ensures Digits(Octal(size, 11)) && ElevenDigits(Octal(size, 11)) == size
  {
    OctalRoundTrip(size, 11);
    ElevenDigitsValue(Octal(size, 11));
  }

  lemma {:induction false} HeaderChecksummed(name: seq<Byte>, size: nat, w: seq<nat>)
    requires Fits(name, size) && w == HEADER_WIDTHS
    ensures Checksummed(HeaderBlock(name, size))
  {
    var b, sum := HeaderBlock(name, size), Sum(Join(Fields(name, size, SPACES)));
    HeaderOffsets(w);
    FieldOfHeader(name, size, 6, w);
    ChecksumFits(name, size);
    SixDigitsAt(b, 148, sum);
    BlankedSum(name, size, w);
  }

  lemma {:induction false} SixDigitsAt(b: seq<Byte>, o: nat, n: nat)
    requires o + 8 <= |b| && b[o..o + 8] == Octal(n, 6) + [0, 32] && n < Pow8(6)
    ensures Digits(b[o..o + 6]) && SixDigits(b[o..o + 6]) == n && b[o + 6] == 0 && b[o + 7] == 32
  {
    assert b[o..o + 6] == b[o..o + 8][..6] && b[o + 6] == b[o..o + 8][6] && b[o + 7] == b[o..o + 8][7];
    OctalRoundTrip(n, 6);
    SixDigitsValue(b[o..o + 6]);
  }

  /** The sum with the checksum field blanked, as a sum over the block. */
  lemma {:induction false} BlankedSum(name: seq<Byte>, size: nat, w: seq<nat>)
    requires Fits(name, size) && w == HEADER_WIDTHS
    ensures var b := HeaderBlock(name, size);
      Sum(Join(Fields(name, size, SPACES))) == Sum(b[..148]) + 256 + Sum(b[156..])
  {
    var before, behind := AroundChecksum(name, size, w);
    BlankedAround(before, ChecksumField(name, size), behind, SPACES);
  }

  lemma {:induction false} AroundChecksum(name: seq<Byte>, size: nat, w: seq<nat>)
    returns (before: seq<Byte>, behind: seq<Byte>)
    requires Fits(name, size) && w == HEADER_WIDTHS
    ensures |before| == 148 && |ChecksumField(name, size)| == 8
    ensures HeaderBlock(name, size) == before + ChecksumField(name, size) + behind
    ensures Join(Fields(name, size, SPACES)) == before + SPACES + behind
  {
    var f, g := Fields(name, size, SPACES), Fields(name, size, ChecksumField(name, size));
    before, behind := Join(g[..6]), Join(g[7..]);
    JoinAround(f, 6);
    JoinAround(g, 6);
    OnlyChecksumDiffers(name, size, SPACES, ChecksumField(name, size));
    FieldWidths(name, size, ChecksumField(name, size));
    PrefixLength(g, w, 6);
    HeaderOffsets(w);
  }

  lemma {:induction false} OnlyChecksumDiffers(name: seq<Byte>, size: nat, a: seq<Byte>, b: seq<Byte>)
    requires Fits(name, size)
    ensures var f, g := Fields(name, size, a), Fields(name, size, b); f[..6] == g[..6] && f[7..] == g[7..]
  {
  }

  lemma {:induction false} PrefixLength(fields: seq<seq<Byte>>, widths: seq<nat>, i: nat)
    requires Widths(fields, widths) && i <= |fields|
    ensures |Join(fields[..i])| == Total(widths[..i])
  {
    JoinLength(fields[..i], widths[..i]);
  }

  lemma {:induction false} BlankedAround(before: seq<Byte>, field: seq<Byte>, behind: seq<Byte>, blanks: seq<Byte>)
    requires |before| == 148 && |field| == 8 && |blanks| == 8 && forall i | 0 <= i < 8 :: blanks[i] == 32
    ensures var b := before + field + behind; b[..148] == before && b[156..] == behind
    ensures Sum(before + blanks + behind) == Sum(before) + 256 + Sum(behind)
  {
    EightBlanks(blanks);
    SumConcat(before + blanks, behind);
    SumConcat(before, blanks);
  }

  lemma {:induction false} HeaderUstar(name: seq<Byte>, size: nat, w: seq<nat>)
    requires Fits(name, size) && w == HEADER_WIDTHS
    ensures Ustar(HeaderBlock(name, size))
  {
    var b := HeaderBlock(name, size);
    HeaderOffsets(w);
    TrailerOffsets(w);
    HeaderMagic(name, size, w);
    HeaderOwners(name, size, w);
    FieldOfHeader(name, size, 13, w);
    FieldOfHeader(name, size, 14, w);
    ZeroAt(b, 329, 7);
    ZeroAt(b, 337, 7);
  }

  lemma {:induction false} HeaderOwners(name: seq<Byte>, size: nat, w: seq<nat>)
    requires Fits(name, size) && w == HEADER_WIDTHS
    ensures var b := HeaderBlock(name, size); AllByte(b[265..329], 0) && AllByte(b[345..512], 0)
  {
    var b := HeaderBlock(name, size);
    HeaderOffsets(w);
    TrailerOffsets(w);
    FieldOfHeader(name, size, 11, w);
    FieldOfHeader(name, size, 12, w);
    FieldOfHeader(name, size, 15, w);
    FieldOfHeader(name, size, 16, w);
    assert b[265..329] == b[265..297] + b[297..329];
    assert b[345..512] == b[345..500] + b[500..512];
  }

  lemma {:induction false} HeaderMagic(name: seq<Byte>, size: nat, w: seq<nat>)
    requires Fits(name, size) && w == HEADER_WIDTHS
    ensures var b := HeaderBlock(name, size);
      b[156] == 48 && AllByte(b[157..257], 0) && b[257..265] == [117, 115, 116, 97, 114, 0, 48, 48]
  {
    var b := HeaderBlock(name, size);
    HeaderOffsets(w);
    TrailerOffsets(w);
    FieldOfHeader(name, size, 7, w);
    FieldOfHeader(name, size, 8, w);
    assert b[156] == b[156..157][0];
    HeaderVersion(name, size, w);
  }

  lemma {:induction false} HeaderVersion(name: seq<Byte>, size: nat, w: seq<nat>)
    requires Fits(name, size) && w == HEADER_WIDTHS
    ensures HeaderBlock(name, size)[257..265] == [117, 115, 116, 97, 114, 0, 48, 48]
  {
    var b := HeaderBlock(name, size);
    TrailerOffsets(w);
    FieldOfHeader(name, size, 9, w);
    FieldOfHeader(name, size, 10, w);
    MagicThenVersion(b, MAGIC, VERSION);
  }

  lemma {:induction false} MagicThenVersion(b: seq<Byte>, magic: seq<Byte>, version: seq<Byte>)
    requires |b| == 512 && b[257..263] == magic && b[263..265] == version
    requires magic == [117, 115, 116, 97, 114, 0] && version == [48, 48]
    ensures b[257..265] == [117, 115, 116, 97, 114, 0, 48, 48]
  {
    assert b[257..265] == magic + version;
  }

  /** Every header this program writes, at its literal byte positions. */
  lemma {:induction false} HeaderLayout(name: seq<Byte>, size: nat)
    requires Fits(name, size)
    ensures var b := HeaderBlock(name, size);
      |b| == 512 && NamedRegularFile(b, name) && SizedTimeless(b, size) && Checksummed(b) && Ustar(b)
  {
    HeaderOwned(name, size, HEADER_WIDTHS);
    HeaderSized(name, size, HEADER_WIDTHS);
    HeaderChecksummed(name, size, HEADER_WIDTHS);
    HeaderUstar(name, size, HEADER_WIDTHS);
  }
}

/** The ustar container (IEEE Std 1003.1, pax utility): the one header this program writes, and a reader. */
module UstarFormat {
  import opened Options

  type Byte = x: int | 0 <= x < 256

  const BLOCK: nat := 512

  function Zeros(n: nat): (s: seq<Byte>)
    ensures |s| == n
  {
    seq(n, i => 0)
  }

  function Ascii(s: string): (b: seq<Byte>)
    ensures |b| == |s|
  {
    seq(|s|, i requires 0 <= i < |s| => s[i] as int % 256)
  }

  function Sum(s: seq<Byte>): nat {
    if s == [] then 0 else s[0] + Sum(s[1..])
  }

  lemma {:induction false} SumBound(s: seq<Byte>)
    ensures Sum(s) <= 255 * |s|
  {
    if s != [] { SumBound(s[1..]); }
  }

  // ---- numbers ----

  function Pow8(d: nat): nat {
    if d == 0 then 1 else 8 * Pow8(d - 1)
  }

  /** `d` octal digits with leading zeros. */
  function Octal(n: nat, d: nat): (s: seq<Byte>)
    ensures |s| == d && forall i | 0 <= i < d :: 48 <= s[i] < 56
  {
    if d == 0 then [] else Octal(n / 8, d - 1) + [48 + n % 8]
  }

  function OctalValue(s: seq<Byte>): Option<nat> {
    if s == [] then Some(0)
    else
      var front, last := OctalValue(s[..|s| - 1]), s[|s| - 1];
      if front.Some? && 48 <= last < 56 then Some(8 * front.value + last - 48) else None
  }

  lemma {:induction false} OctalRoundTrip(n: nat, d: nat)
    requires n < Pow8(d)
    ensures OctalValue(Octal(n, d)) == Some(n)
  {
    if d > 0 {
      OctalRoundTrip(n / 8, d - 1);
      assert Octal(n, d)[..d - 1] == Octal(n / 8, d - 1);
    }
  }

  predicate Blank(b: Byte) { b == 0 || b == 32 }

  function TrimRight(s: seq<Byte>): seq<Byte> {
    if s != [] && Blank(s[|s| - 1]) then TrimRight(s[..|s| - 1]) else s
  }

  function TrimLeft(s: seq<Byte>): seq<Byte> {
    if s != [] && Blank(s[0]) then TrimLeft(s[1..]) else s
  }

  /** A string field ends at its first NUL. */
  function CString(s: seq<Byte>): seq<Byte> {
    if s == [] || s[0] == 0 then [] else [s[0]] + CString(s[1..])
  }

  function ParseOctal(field: seq<Byte>): Option<nat> {
    OctalValue(CString(TrimLeft(TrimRight(field))))
  }

  lemma {:induction false} CStringOf(text: seq<Byte>, n: nat)
    requires 0 !in text
    ensures CString(text + Zeros(n)) == text
  {
    if text != [] {
      CStringOf(text[1..], n);
      assert (text + Zeros(n))[1..] == text[1..] + Zeros(n);
    } else {
      assert text + Zeros(n) == Zeros(n);
    }
  }

  /** A number is read back from its digits whatever blanks end the field. */
  lemma {:induction false} OctalFieldRoundTrip(n: nat, d: nat, ending: seq<Byte>)
    requires d > 0 && n < Pow8(d) && (ending == [0] || ending == [0, 32])
    ensures ParseOctal(Octal(n, d) + ending) == Some(n)
  {
    var digits := Octal(n, d);
    TrimEnding(digits, ending);
    CStringOf(digits, 0);
    assert digits + Zeros(0) == digits;
    OctalRoundTrip(n, d);
  }

  lemma {:induction false} TrimEnding(digits: seq<Byte>, ending: seq<Byte>)
    requires digits != [] && !Blank(digits[0]) && !Blank(digits[|digits| - 1]) && (ending == [0] || ending == [0, 32])
    ensures TrimLeft(TrimRight(digits + ending)) == digits
  {
    assert (digits + [0])[..|digits|] == digits;
    assert TrimRight(digits + [0]) == digits;
    if ending == [0, 32] {
      assert (digits + ending)[..|digits| + 1] == digits + [0];
    }
  }

  // ---- fields ----

  function Join(fields: seq<seq<Byte>>): seq<Byte> {
    if fields == [] then [] else fields[0] + Join(fields[1..])
  }

  function Total(widths: seq<nat>): nat {
    if widths == [] then 0 else widths[0] + Total(widths[1..])
  }

  function Cut(s: seq<Byte>, widths: seq<nat>): (fields: seq<seq<Byte>>)
    requires |s| == Total(widths)
    ensures |fields| == |widths|
  {
    if widths == [] then [] else [s[..widths[0]]] + Cut(s[widths[0]..], widths[1..])
  }

  ghost predicate Widths(fields: seq<seq<Byte>>, widths: seq<nat>) {
    |fields| == |widths| && forall i | 0 <= i < |fields| :: |fields[i]| == widths[i]
  }

  lemma {:induction false} JoinLength(fields: seq<seq<Byte>>, widths: seq<nat>)
    requires Widths(fields, widths)
    ensures |Join(fields)| == Total(widths)
  {
    if fields != [] { JoinLength(fields[1..], widths[1..]); }
  }

  lemma {:induction false} CutJoin(fields: seq<seq<Byte>>, widths: seq<nat>)
    requires Widths(fields, widths) && |Join(fields)| == Total(widths)
    ensures Cut(Join(fields), widths) == fields
  {
    if fields != [] {
      JoinLength(fields[1..], widths[1..]);
      CutJoin(fields[1..], widths[1..]);
      assert Join(fields)[..widths[0]] == fields[0] && Join(fields)[widths[0]..] == Join(fields[1..]);
    }
  }

  // name, mode, uid, gid, size, mtime, checksum, typeflag, linkname, magic, version, uname, gname, devmajor,
  // devminor, prefix, padding
  const HEADER_WIDTHS: seq<nat> := [100, 8, 8, 8, 12, 12, 8, 1, 100, 6, 2, 32, 32, 8, 8, 155, 12]

  const MAGIC: seq<Byte> := [117, 115, 116, 97, 114, 0]
  const VERSION: seq<Byte> := [48, 48]
  const SPACES: seq<Byte> := [32, 32, 32, 32, 32, 32, 32, 32]

  lemma {:induction false} TotalFrom(widths: seq<nat>, i: nat)
    requires i < |widths|
    ensures Total(widths[i..]) == widths[i] + Total(widths[i + 1..])
  {
    assert widths[i..][1..] == widths[i + 1..];
  }

  lemma {:induction false} TotalOfFour(widths: seq<nat>, i: nat)
    requires i + 4 <= |widths|
    ensures Total(widths[i..]) == widths[i] + widths[i + 1] + widths[i + 2] + widths[i + 3] + Total(widths[i + 4..])
  {
    TotalFrom(widths, i);
    TotalFrom(widths, i + 1);
    TotalFrom(widths, i + 2);
    TotalFrom(widths, i + 3);
  }

  lemma {:induction false} TotalOfSeventeen(w: seq<nat>)
    requires |w| == 17
    ensures Total(w) == w[0] + w[1] + w[2] + w[3] + w[4] + w[5] + w[6] + w[7] + w[8] + w[9] + w[10] + w[11]
                        + w[12] + w[13] + w[14] + w[15] + w[16]
  {
    TotalOfFour(w, 0);
    TotalOfFour(w, 4);
    TotalOfFour(w, 8);
    TotalOfFour(w, 12);
    TotalFrom(w, 16);
    assert w[0..] == w && w[17..] == [];
  }

  lemma {:induction false} WidthsSum(w: seq<nat>)
    requires w == HEADER_WIDTHS
    ensures |w| == 17 && w[0] + w[1] + w[2] + w[3] == 124 && w[4] + w[5] + w[6] + w[7] == 33
    ensures w[8] + w[9] + w[10] + w[11] == 140 && w[12] + w[13] + w[14] + w[15] == 203 && w[16] == 12
  {
  }

  lemma {:induction false} OneBlock(w: seq<nat>)
    requires w == HEADER_WIDTHS
    ensures Total(w) == BLOCK
  {
    WidthsSum(w);
    TotalOfSeventeen(w);
  }

  lemma {:induction false} HeaderIsOneBlock()
    ensures Total(HEADER_WIDTHS) == BLOCK
  {
    OneBlock(HEADER_WIDTHS);
  }

  predicate Fits(name: seq<Byte>, size: nat) {
    0 < |name| <= 100 && 0 !in name && size < Pow8(11)
  }

  /** The header fields of a member, with the checksum field given. */
  function Fields(name: seq<Byte>, size: nat, checksum: seq<Byte>): seq<seq<Byte>>
    requires Fits(name, size)
  {
    [name + Zeros(100 - |name|), Octal(384, 7) + [0], Octal(0, 7) + [0], Octal(0, 7) + [0], Octal(size, 11) + [0],
     Octal(0, 11) + [0], checksum, [48], Zeros(100), MAGIC, VERSION, Zeros(32), Zeros(32),
     Octal(0, 7) + [0], Octal(0, 7) + [0], Zeros(155), Zeros(12)]
  }

  lemma {:induction false} FieldWidths(name: seq<Byte>, size: nat, checksum: seq<Byte>)
    requires Fits(name, size) && |checksum| == 8
    ensures Widths(Fields(name, size, checksum), HEADER_WIDTHS)
  {
  }

  lemma {:induction false} HeaderLength(name: seq<Byte>, size: nat, checksum: seq<Byte>)
    requires Fits(name, size) && |checksum| == 8
    ensures |Join(Fields(name, size, checksum))| == BLOCK
  {
    FieldWidths(name, size, checksum);
    HeaderIsOneBlock();
    JoinLength(Fields(name, size, checksum), HEADER_WIDTHS);
  }

  function ChecksumField(name: seq<Byte>, size: nat): (c: seq<Byte>)
    requires Fits(name, size)
    ensures |c| == 8
  {
    Octal(Sum(Join(Fields(name, size, SPACES))), 6) + [0, 32]
  }

  /** A regular file, mode 0600, owner, group and times zero. */
  function HeaderBlock(name: seq<Byte>, size: nat): (b: seq<Byte>)
    requires Fits(name, size)
    ensures |b| == BLOCK
  {
    HeaderLength(name, size, ChecksumField(name, size));
    Join(Fields(name, size, ChecksumField(name, size)))
  }

  // ---- reading a header ----

  datatype Header = Header(name: seq<Byte>, mode: nat, uid: nat, gid: nat, size: nat, mtime: nat, typeflag: Byte,
                           linkname: seq<Byte>, uname: seq<Byte>, gname: seq<Byte>, ustar: bool)

  function CanonicalHeader(name: seq<Byte>, size: nat): Header {
    Header(name, 384, 0, 0, size, 0, 48, [], [], [], true)
  }

  function ChecksumOk(f: seq<seq<Byte>>): bool
    requires |f| == 17
  {
    ParseOctal(f[6]) == Some(Sum(Join(f[6 := SPACES])))
  }

  /** The numeric fields, all of which must be readable. */
  predicate NumbersOk(f: seq<seq<Byte>>)
    requires |f| == 17
  {
    && ParseOctal(f[1]).Some? && ParseOctal(f[2]).Some? && ParseOctal(f[3]).Some? && ParseOctal(f[4]).Some?
    && ParseOctal(f[5]).Some? && ParseOctal(f[13]).Some? && ParseOctal(f[14]).Some?
  }

  /** A prefix is put before the name. */
  function FullName(f: seq<seq<Byte>>): seq<Byte>
    requires |f| == 17
  {
    var prefix := CString(f[15]);
    if prefix == [] then CString(f[0]) else prefix + [47] + CString(f[0])
  }

  /** The last four bytes of a block say that it is an older variant of the format. */
  predicate IsStarTrailer(padding: seq<Byte>) {
    |padding| >= 4 && padding[|padding| - 4..] == [116, 97, 114, 0]
  }

  function HeaderOf(f: seq<seq<Byte>>): Header
    requires |f| == 17 && NumbersOk(f)
  {
    Header(FullName(f), ParseOctal(f[1]).value, ParseOctal(f[2]).value, ParseOctal(f[3]).value, ParseOctal(f[4]).value,
           ParseOctal(f[5]).value, if f[7] == [48] || f[7] == [0] then 48 else 1,
           CString(f[8]), CString(f[11]), CString(f[12]),
           f[9] == MAGIC && !IsStarTrailer(f[16]))
  }

  function ParseHeader(block: seq<Byte>): Option<Header>
    requires |block| == BLOCK
  {
    HeaderIsOneBlock();
    var f := Cut(block, HEADER_WIDTHS);
    if ChecksumOk(f) && NumbersOk(f) then Some(HeaderOf(f)) else None
  }

  lemma {:induction false} ChecksumFits(name: seq<Byte>, size: nat)
    requires Fits(name, size)
    ensures Sum(Join(Fields(name, size, SPACES))) < Pow8(6)
  {
    HeaderLength(name, size, SPACES);
    SumBound(Join(Fields(name, size, SPACES)));
    SmallPowers();
  }

  lemma {:induction false} SmallPowers()
    ensures Pow8(6) == 262144 && Pow8(7) == 2097152 && Pow8(11) == 8589934592
  {
    assert Pow8(3) == 512;
    assert Pow8(6) == 262144;
    assert Pow8(9) == 134217728;
  }

  predicate CanonicalNumbersAt(f: seq<seq<Byte>>, size: nat) {
    && |f| == 17
    && ParseOctal(f[1]) == Some(384) && ParseOctal(f[2]) == Some(0) && ParseOctal(f[3]) == Some(0) && ParseOctal(f[4]) == Some(size)
    && ParseOctal(f[5]) == Some(0) && ParseOctal(f[13]) == Some(0) && ParseOctal(f[14]) == Some(0)
  }

  lemma {:induction false} CanonicalNumbers(f: seq<seq<Byte>>, size: nat)
    requires |f| == 17 && size < Pow8(11)
    requires f[1] == Octal(384, 7) + [0] && f[4] == Octal(size, 11) + [0] && f[5] == Octal(0, 11) + [0]
    requires f[2] == f[3] == f[13] == f[14] == Octal(0, 7) + [0]
    ensures CanonicalNumbersAt(f, size)
  {
    SmallPowers();
    OctalFieldRoundTrip(384, 7, [0]);
    OctalFieldRoundTrip(0, 7, [0]);
    OctalFieldRoundTrip(size, 11, [0]);
    OctalFieldRoundTrip(0, 11, [0]);
  }

  lemma {:induction false} CanonicalStrings(f: seq<seq<Byte>>, name: seq<Byte>)
    requires |f| == 17 && 0 < |name| <= 100 && 0 !in name
    requires f[0] == name + Zeros(100 - |name|) && f[8] == Zeros(100) && f[11] == f[12] == Zeros(32) && f[15] == Zeros(155)
    ensures CString(f[0]) == name && CString(f[8]) == [] && CString(f[11]) == [] && CString(f[12]) == [] && CString(f[15]) == []
  {
    CStringOf(name, 100 - |name|);
  }

  lemma {:induction false} CanonicalFields(f: seq<seq<Byte>>, name: seq<Byte>, size: nat)
    requires |f| == 17 && CanonicalNumbersAt(f, size)
    requires CString(f[0]) == name && CString(f[8]) == [] && CString(f[11]) == [] && CString(f[12]) == [] && CString(f[15]) == []
    requires f[7] == [48] && f[9] == MAGIC && f[16] == Zeros(12)
    ensures NumbersOk(f) && HeaderOf(f) == CanonicalHeader(name, size)
  {
    assert [116, 97, 114, 0][0] == 116 && f[16][8..][0] == 0;
  }

  lemma {:induction false} ChecksumIsRight(name: seq<Byte>, size: nat)
    requires Fits(name, size)
    ensures ChecksumOk(Fields(name, size, ChecksumField(name, size)))
  {
    var f := Fields(name, size, ChecksumField(name, size));
    ChecksumFits(name, size);
    OctalFieldRoundTrip(Sum(Join(Fields(name, size, SPACES))), 6, [0, 32]);
    assert f[6 := SPACES] == Fields(name, size, SPACES);
  }

  lemma {:induction false} FieldsReadBack(name: seq<Byte>, size: nat, checksum: seq<Byte>)
    requires Fits(name, size)
    ensures var f := Fields(name, size, checksum); NumbersOk(f) && HeaderOf(f) == CanonicalHeader(name, size)
  {
    var f := Fields(name, size, checksum);
    CanonicalNumbers(f, size);
    CanonicalStrings(f, name);
    CanonicalFields(f, name, size);
  }

  lemma {:induction false} HeaderCut(name: seq<Byte>, size: nat)
    requires Fits(name, size)
    ensures Total(HEADER_WIDTHS) == BLOCK
    ensures Cut(HeaderBlock(name, size), HEADER_WIDTHS) == Fields(name, size, ChecksumField(name, size))
  {
    var checksum := ChecksumField(name, size);
    HeaderIsOneBlock();
    HeaderLength(name, size, checksum);
    FieldWidths(name, size, checksum);
    CutJoin(Fields(name, size, checksum), HEADER_WIDTHS);
  }

  /** The header this program writes is read back as exactly what was written. */
  lemma {:induction false} HeaderRoundTrip(name: seq<Byte>, size: nat)
    requires Fits(name, size)
    ensures ParseHeader(HeaderBlock(name, size)) == Some(CanonicalHeader(name, size))
  {
    HeaderCut(name, size);
    ChecksumIsRight(name, size);
    FieldsReadBack(name, size, ChecksumField(name, size));
  }
}

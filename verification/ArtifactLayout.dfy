/** Where everything stands in a packed archive, in bytes. */
module ArtifactLayout {
  import opened Options
  import opened UstarFormat
  import opened UstarLayout
  import opened ArtifactManifest
  import opened ArtifactArchive

  predicate HeaderIs(h: Bytes, name: Bytes, size: nat) {
    && |h| == 512 && |name| <= 100
    && NamedRegularFile(h, name) && SizedTimeless(h, size) && Checksummed(h) && Ustar(h)
  }

  /** A ustar header, the member's bytes behind it, and zeros up to the next multiple of 512. */
  predicate MemberIs(part: Bytes, name: Bytes, data: Bytes) {
    && |part| == 512 + (|data| + 511) / 512 * 512
    && HeaderIs(part[..512], name, |data|) && part[512..512 + |data|] == data && AllByte(part[512 + |data|..], 0)
  }

  lemma {:induction false} Laid(h: Bytes, data: Bytes, padding: Bytes, name: Bytes)
    requires HeaderIs(h, name, |data|) && AllByte(padding, 0) && |data| + |padding| == (|data| + 511) / 512 * 512
    ensures MemberIs(h + data + padding, name, data)
  {
    var e := h + data + padding;
    assert e[..512] == h && e[512..512 + |data|] == data && e[512 + |data|..] == padding;
  }

  lemma {:induction false} EntryLaid(name: Bytes, data: Bytes)
    requires Fits(name, |data|)
    ensures MemberIs(EncodedEntry(name, data), name, data)
  {
    HeaderLayout(name, |data|);
    Laid(HeaderBlock(name, |data|), data, Padding(|data|), name);
  }

  // ---- the members as a list of parts ----

  function NameBytes(id: string): Bytes { [102, 105, 108, 101, 115, 47] + Ascii(id) }

  const MANIFEST_BYTES: Bytes := [109, 97, 110, 105, 102, 101, 115, 116, 46, 106, 115, 111, 110]

  lemma {:induction false} MemberNames(id: string)
    ensures MemberName(id) == NameBytes(id)
  {
    assert Ascii("files/") == [102, 105, 108, 101, 115, 47];
  }

  lemma {:induction false} ManifestName()
    ensures MANIFEST_NAME == MANIFEST_BYTES
  {
    var name := "manifest.json";
    assert |name| == 13 && Ascii(name) == MANIFEST_BYTES;
  }

  predicate PartsOf(members: seq<Entry>, datas: seq<Bytes>, parts: seq<Bytes>) {
    && |parts| == |members| == |datas|
    && forall i | 0 <= i < |parts| :: MemberIs(parts[i], NameBytes(members[i].id), datas[i])
  }

  lemma {:induction false} EncodedInParts(members: seq<Entry>, datas: seq<Bytes>) returns (parts: seq<Bytes>)
    requires MembersFitData(members, datas)
    ensures PartsOf(members, datas, parts) && EncodedMembers(members, datas) == Join(parts)
  {
    if members == [] {
      parts := [];
    } else {
      EncodedFirst(members, datas);
      var rest := EncodedInParts(members[1..], datas[1..]);
      MemberNames(members[0].id);
      EntryLaid(MemberName(members[0].id), datas[0]);
      var first := EncodedEntry(MemberName(members[0].id), datas[0]);
      parts := [first] + rest;
      PartsCons(members, datas, first, rest, parts);
    }
  }

  lemma {:induction false} PartsCons(members: seq<Entry>, datas: seq<Bytes>, first: Bytes, rest: seq<Bytes>,
                                     parts: seq<Bytes>)
    requires members != [] && datas != [] && PartsOf(members[1..], datas[1..], rest) && parts == [first] + rest
    requires MemberIs(first, NameBytes(members[0].id), datas[0])
    ensures PartsOf(members, datas, parts) && Join(parts) == first + Join(rest)
  {
    assert parts[1..] == rest;
    forall i | 0 < i < |parts| ensures MemberIs(parts[i], NameBytes(members[i].id), datas[i]) {
      assert parts[i] == rest[i - 1] && members[i] == members[1..][i - 1] && datas[i] == datas[1..][i - 1];
    }
  }

  /** Where each member of the archive begins, the manifest being the first. */
  function Start(members: seq<Entry>, raw: nat, i: nat): int
    requires i <= |members|
  {
    if i == 0 then 512 + (raw + 511) / 512 * 512
    else Start(members, raw, i - 1) + 512 + (members[i - 1].size + 511) / 512 * 512
  }

  lemma {:induction false} PartsLength(members: seq<Entry>, datas: seq<Bytes>, parts: seq<Bytes>, raw: nat, i: nat)
    requires PartsOf(members, datas, parts) && i <= |parts| && Sized(members, datas)
    ensures 512 + (raw + 511) / 512 * 512 + |Join(parts[..i])| == Start(members, raw, i)
  {
    if i == 0 {
      assert parts[..0] == [];
    } else {
      PartsLength(members, datas, parts, raw, i - 1);
      JoinLonger(parts, i);
      PartLength(members, datas, parts, i - 1);
    }
  }

  lemma {:induction false} JoinLonger(parts: seq<Bytes>, i: nat)
    requires 0 < i <= |parts|
    ensures |Join(parts[..i])| == |Join(parts[..i - 1])| + |parts[i - 1]|
  {
    JoinAround(parts[..i], i - 1);
    assert parts[..i][..i - 1] == parts[..i - 1] && parts[..i][i..] == [];
  }

  // ---- the archive ----

  /** `b` is laid out as an archive: the manifest's bytes under "manifest.json" first, every member's under "files/" and
      its ID where the one before it ends, and 1024 zeros at the end. */
  ghost predicate LaidOut(b: Bytes, raw: Bytes, members: seq<Entry>, datas: seq<Bytes>) {
    && |members| == |datas| && 1024 <= |b| == Start(members, |raw|, |members|) + 1024 && AllByte(b[|b| - 1024..], 0)
    && 0 <= Start(members, |raw|, 0) <= |b| && MemberIs(b[..Start(members, |raw|, 0)], MANIFEST_BYTES, raw)
    && forall i | 0 <= i < |members| :: MemberStands(b, |raw|, members, datas, i)
  }

  predicate MemberStands(b: Bytes, raw: nat, members: seq<Entry>, datas: seq<Bytes>, i: nat)
    requires i < |members| == |datas|
  {
    var o, next := Start(members, raw, i), Start(members, raw, i + 1);
    0 <= o <= next <= |b| && MemberIs(b[o..next], NameBytes(members[i].id), datas[i])
  }

  lemma {:induction false} SliceOf(b: Bytes, before: Bytes, part: Bytes, behind: Bytes)
    requires b == before + part + behind
    ensures b[|before|..|before| + |part|] == part
  {
  }

  predicate Sized(members: seq<Entry>, datas: seq<Bytes>) {
    |members| == |datas| && forall k | 0 <= k < |members| :: |datas[k]| == members[k].size
  }

  lemma {:induction false} PartStands(b: Bytes, first: Bytes, raw: nat, members: seq<Entry>, datas: seq<Bytes>,
                                      parts: seq<Bytes>,
                                      i: nat)
    requires |first| == 512 + (raw + 511) / 512 * 512 && PartsOf(members, datas, parts) && i < |parts| && Sized(members, datas)
    requires b == first + (Join(parts) + Zeros(1024))
    ensures MemberStands(b, raw, members, datas, i)
  {
    PartsLength(members, datas, parts, raw, i);
    PartsLength(members, datas, parts, raw, i + 1);
    var before, behind := Join(parts[..i]), Join(parts[i + 1..]);
    JoinAround(parts, i);
    Rearranged(first, before, parts[i], behind, Zeros(1024));
    SliceOf(b, first + before, parts[i], behind + Zeros(1024));
    PartLength(members, datas, parts, i);
    assert MemberIs(parts[i], NameBytes(members[i].id), datas[i]);
  }

  lemma {:induction false} PartLength(members: seq<Entry>, datas: seq<Bytes>, parts: seq<Bytes>, i: nat)
    requires PartsOf(members, datas, parts) && i < |parts| && Sized(members, datas)
    ensures |parts[i]| == 512 + (members[i].size + 511) / 512 * 512
  {
    assert MemberIs(parts[i], NameBytes(members[i].id), datas[i]);
  }

  lemma {:induction false} PartsLaidOut(b: Bytes, first: Bytes, raw: Bytes, members: seq<Entry>, datas: seq<Bytes>,
                                        parts: seq<Bytes>)
    requires MemberIs(first, MANIFEST_BYTES, raw) && PartsOf(members, datas, parts) && Sized(members, datas)
    requires b == first + (Join(parts) + Zeros(1024))
    ensures LaidOut(b, raw, members, datas)
  {
    forall i | 0 <= i < |members| ensures MemberStands(b, |raw|, members, datas, i) {
      PartStands(b, first, |raw|, members, datas, parts, i);
    }
    AllPartsLength(members, datas, parts, |raw|);
    ArchiveEnds(b, first, Join(parts));
  }

  lemma {:induction false} AllPartsLength(members: seq<Entry>, datas: seq<Bytes>, parts: seq<Bytes>, raw: nat)
    requires PartsOf(members, datas, parts) && Sized(members, datas)
    ensures Start(members, raw, 0) == 512 + (raw + 511) / 512 * 512
    ensures Start(members, raw, 0) + |Join(parts)| == Start(members, raw, |members|)
  {
    PartsLength(members, datas, parts, raw, |parts|);
    assert parts[..|parts|] == parts;
  }

  lemma {:induction false} ArchiveEnds(b: Bytes, first: Bytes, body: Bytes)
    requires b == first + (body + Zeros(1024))
    ensures |b| == |first| + |body| + 1024 && AllByte(b[|b| - 1024..], 0) && b[..|first|] == first
  {
    assert b[|b| - 1024..] == Zeros(1024);
  }

  lemma {:induction false} Rearranged(a: Bytes, b: Bytes, e: Bytes, c: Bytes, z: Bytes)
    ensures a + ((b + e + c) + z) == (a + b) + e + (c + z)
  {
  }

  /** Every canonical archive is laid out so. */
  lemma {:induction false} ArchiveIsLaidOut(p: Primitives, m: Manifest, datas: seq<Bytes>)
    requires Genuine(p, m, datas)
    ensures Encodable(p, m, datas) && LaidOut(Archive(p, m, datas), p.marshal(m), m.members, datas)
  {
    GenuineIsEncodable(p, m, datas);
    forall k | 0 <= k < |m.members| ensures |datas[k]| == m.members[k].size { assert Matches(p, m.members[k], datas[k]); }
    var parts := EncodedInParts(m.members, datas);
    ManifestName();
    EntryLaid(MANIFEST_NAME, p.marshal(m));
    PartsLaidOut(Archive(p, m, datas), EncodedEntry(MANIFEST_NAME, p.marshal(m)), p.marshal(m), m.members, datas, parts);
  }

  // ---- only one sequence of bytes is laid out so ----

  lemma {:induction false} SameDigits(s: seq<Byte>, t: seq<Byte>)
    requires |s| == |t| && Digits(s) && Digits(t) && OctalValue(s) == OctalValue(t)
    ensures s == t
  {
    if s != [] {
      var k := |s| - 1;
      LastOctal(s);
      LastOctal(t);
      SameDigits(s[..k], t[..k]);
      assert s == s[..k] + [s[k]] && t == t[..k] + [t[k]];
    }
  }

  /** The last digit is the remainder by eight, and the digits before it the quotient. */
  lemma {:induction false} LastOctal(s: seq<Byte>)
    requires s != [] && Digits(s)
    ensures OctalValue(s).Some? && OctalValue(s[..|s| - 1]) == Some(OctalValue(s).value / 8)
    ensures s[|s| - 1] as int == 48 + OctalValue(s).value % 8
  {
    OneDigit(s, |s| - 1);
    assert s[..|s|] == s;
  }

  /** Parts that agree everywhere. */
  lemma {:induction false} SameParts(g: Bytes, h: Bytes, i: nat, j: nat, k: nat)
    requires i <= j <= k <= |g| == |h| && g[i..j] == h[i..j] && g[j..k] == h[j..k]
    ensures g[i..k] == h[i..k]
  {
    assert g[i..k] == g[i..j] + g[j..k] && h[i..k] == h[i..j] + h[j..k];
  }

  lemma {:induction false} SameFill(g: Bytes, h: Bytes, i: nat, j: nat, c: Byte)
    requires i <= j <= |g| == |h| && AllByte(g[i..j], c) && AllByte(h[i..j], c)
    ensures g[i..j] == h[i..j]
  {
  }

  lemma {:induction false} SameByte(g: Bytes, h: Bytes, i: nat)
    requires i < |g| == |h| && g[i] == h[i]
    ensures g[i..i + 1] == h[i..i + 1]
  {
  }

  lemma {:induction false} SameNamed(g: Bytes, h: Bytes, name: Bytes)
    requires |g| == |h| == 512 && |name| <= 100 && NamedRegularFile(g, name) && NamedRegularFile(h, name)
    ensures g[0..124] == h[0..124]
  {
    assert g[0..|name|] == h[0..|name|];
    SameFill(g, h, |name|, 100, 0);
    SameParts(g, h, 0, |name|, 100);
    SameParts(g, h, 0, 100, 108);
    SameFill(g, h, 108, 115, 48);
    SameParts(g, h, 0, 108, 115);
    SameByte(g, h, 115);
    SameParts(g, h, 0, 115, 116);
    SameFill(g, h, 116, 123, 48);
    SameParts(g, h, 0, 116, 123);
    SameByte(g, h, 123);
    SameParts(g, h, 0, 123, 124);
  }

  lemma {:induction false} SameSized(g: Bytes, h: Bytes, size: nat)
    requires |g| == |h| == 512 && SizedTimeless(g, size) && SizedTimeless(h, size)
    ensures g[124..148] == h[124..148]
  {
    ElevenDigitsValue(g[124..135]);
    ElevenDigitsValue(h[124..135]);
    SameDigits(g[124..135], h[124..135]);
    SameByte(g, h, 135);
    SameParts(g, h, 124, 135, 136);
    SameFill(g, h, 136, 147, 48);
    SameParts(g, h, 124, 136, 147);
    SameByte(g, h, 147);
    SameParts(g, h, 124, 147, 148);
  }

  lemma {:induction false} SameUstar(g: Bytes, h: Bytes)
    requires |g| == |h| == 512 && Ustar(g) && Ustar(h)
    ensures g[156..512] == h[156..512]
  {
    SameByte(g, h, 156);
    SameFill(g, h, 157, 257, 0);
    SameParts(g, h, 156, 157, 257);
    SameParts(g, h, 156, 257, 265);
    SameFill(g, h, 265, 329, 0);
    SameParts(g, h, 156, 265, 329);
    SameFill(g, h, 329, 336, 48);
    SameParts(g, h, 156, 329, 336);
    SameByte(g, h, 336);
    SameParts(g, h, 156, 336, 337);
    SameFill(g, h, 337, 344, 48);
    SameParts(g, h, 156, 337, 344);
    SameByte(g, h, 344);
    SameParts(g, h, 156, 344, 345);
    SameFill(g, h, 345, 512, 0);
    SameParts(g, h, 156, 345, 512);
  }

  lemma {:induction false} SameChecksum(g: Bytes, h: Bytes)
    requires |g| == |h| == 512 && Checksummed(g) && Checksummed(h) && g[0..148] == h[0..148] && g[156..512] == h[156..512]
    ensures g[148..156] == h[148..156]
  {
    assert g[..148] == g[0..148] && h[..148] == h[0..148] && g[156..] == g[156..512] && h[156..] == h[156..512];
    SixDigitsValue(g[148..154]);
    SixDigitsValue(h[148..154]);
    SameDigits(g[148..154], h[148..154]);
    SameByte(g, h, 154);
    SameByte(g, h, 155);
    SameParts(g, h, 148, 154, 155);
    SameParts(g, h, 148, 155, 156);
  }

  lemma {:induction false} HeaderUnique(g: Bytes, h: Bytes, name: Bytes, size: nat)
    requires HeaderIs(g, name, size) && HeaderIs(h, name, size)
    ensures g == h
  {
    SameNamed(g, h, name);
    SameSized(g, h, size);
    SameParts(g, h, 0, 124, 148);
    SameUstar(g, h);
    SameChecksum(g, h);
    SameParts(g, h, 0, 148, 156);
    SameParts(g, h, 0, 156, 512);
    assert g == g[0..512] && h == h[0..512];
  }

  lemma {:induction false} MemberUnique(a: Bytes, b: Bytes, name: Bytes, data: Bytes)
    requires MemberIs(a, name, data) && MemberIs(b, name, data)
    ensures a == b
  {
    HeaderUnique(a[..512], b[..512], name, |data|);
    assert a[0..512] == a[..512] && b[0..512] == b[..512];
    SameParts(a, b, 0, 512, 512 + |data|);
    SameFill(a, b, 512 + |data|, |a|, 0);
    assert a[512 + |data|..|a|] == a[512 + |data|..] && b[512 + |data|..|b|] == b[512 + |data|..];
    SameParts(a, b, 0, 512 + |data|, |a|);
    assert a == a[0..|a|] && b == b[0..|b|];
  }

  lemma {:induction false} SameUpTo(a: Bytes, b: Bytes, raw: Bytes, members: seq<Entry>, datas: seq<Bytes>, i: nat)
    requires LaidOut(a, raw, members, datas) && LaidOut(b, raw, members, datas) && i <= |members|
    ensures 0 <= Start(members, |raw|, i) <= |a| && a[0..Start(members, |raw|, i)] == b[0..Start(members, |raw|, i)]
  {
    var o := Start(members, |raw|, i);
    if i == 0 {
      MemberUnique(a[..o], b[..o], MANIFEST_BYTES, raw);
      assert a[0..o] == a[..o] && b[0..o] == b[..o];
    } else {
      SameUpTo(a, b, raw, members, datas, i - 1);
      var was := Start(members, |raw|, i - 1);
      SameMember(a, b, raw, members, datas, i - 1);
      SameParts(a, b, 0, was, o);
    }
  }

  lemma {:induction false} SameMember(a: Bytes, b: Bytes, raw: Bytes, members: seq<Entry>, datas: seq<Bytes>, i: nat)
    requires LaidOut(a, raw, members, datas) && LaidOut(b, raw, members, datas) && i < |members|
    ensures 0 <= Start(members, |raw|, i) <= Start(members, |raw|, i + 1) <= |a| && |a| == |b|
    ensures a[Start(members, |raw|, i)..Start(members, |raw|, i + 1)] == b[Start(members, |raw|, i)..Start(members, |raw|, i + 1)]
  {
    var was, o := Start(members, |raw|, i), Start(members, |raw|, i + 1);
    assert MemberStands(a, |raw|, members, datas, i) && MemberStands(b, |raw|, members, datas, i);
    MemberUnique(a[was..o], b[was..o], NameBytes(members[i].id), datas[i]);
  }

  lemma {:induction false} LayoutUnique(a: Bytes, b: Bytes, raw: Bytes, members: seq<Entry>, datas: seq<Bytes>)
    requires LaidOut(a, raw, members, datas) && LaidOut(b, raw, members, datas)
    ensures a == b
  {
    SameUpTo(a, b, raw, members, datas, |members|);
    var o := |a| - 1024;
    SameFill(a, b, o, |a|, 0);
    SameParts(a, b, 0, o, |a|);
    assert a == a[0..|a|] && b == b[0..|b|];
  }

  /** The walk accepts exactly the bytes laid out as the archive of a valid manifest and the data it declares. */
  lemma {:induction false} AcceptedExactlyLaidOut(p: Primitives, bytes: Bytes, expected: string, run: string,
                                                  c: Contents)
    requires p.Sound()
    ensures Walked(p, bytes, expected, run) == Some(c) <==>
      (&& Genuine(p, c.manifest, c.datas) && c.manifest.subject.runId == run && expected == p.digest(bytes)
       && LaidOut(bytes, p.marshal(c.manifest), c.manifest.members, c.datas))
  {
    AcceptedExactlyCanonical(p, bytes, expected, run, c);
    if Genuine(p, c.manifest, c.datas) {
      ArchiveIsLaidOut(p, c.manifest, c.datas);
      if LaidOut(bytes, p.marshal(c.manifest), c.manifest.members, c.datas) {
        LayoutUnique(bytes, Archive(p, c.manifest, c.datas), p.marshal(c.manifest), c.manifest.members, c.datas);
      }
    }
  }
}

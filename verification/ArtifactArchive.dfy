/** The canonical artifact archive: packing, the verifying walk and restoring undo each other, and the walk
    accepts nothing but the canonical encoding. */
module ArtifactArchive {
  import opened Options
  import opened UstarFormat
  import opened ArtifactManifest

  type Bytes = seq<Byte>

  // ---- the canonical encoding ----

  function Padding(n: nat): Bytes { Zeros(Blocks(n) - n) }

  function EncodedEntry(name: Bytes, data: Bytes): (e: Bytes)
    requires Fits(name, |data|)
    ensures |e| == BLOCK + Blocks(|data|)
  {
    HeaderBlock(name, |data|) + data + Padding(|data|)
  }

  predicate MemberFits(e: Entry, data: Bytes) {
    Fits(MemberName(e.id), |data|)
  }

  predicate MembersFitData(members: seq<Entry>, datas: seq<Bytes>) {
    |members| == |datas| && forall i | 0 <= i < |members| :: MemberFits(members[i], datas[i])
  }

  function EncodedMembers(members: seq<Entry>, datas: seq<Bytes>): Bytes
    requires MembersFitData(members, datas)
  {
    if members == [] then []
    else
      assert MemberFits(members[0], datas[0]) && MembersFitData(members[1..], datas[1..]);
      EncodedEntry(MemberName(members[0].id), datas[0]) + EncodedMembers(members[1..], datas[1..])
  }

  lemma {:induction false} EncodedFirst(members: seq<Entry>, datas: seq<Bytes>)
    requires members != [] && MembersFitData(members, datas)
    ensures MemberFits(members[0], datas[0]) && MembersFitData(members[1..], datas[1..])
    ensures EncodedMembers(members, datas)
         == EncodedEntry(MemberName(members[0].id), datas[0]) + EncodedMembers(members[1..], datas[1..])
  {
    assert MemberFits(members[0], datas[0]);
  }

  predicate Matches(p: Primitives, e: Entry, data: Bytes) {
    |data| == e.size && p.digest(data) == e.digest
  }

  predicate AllMatch(p: Primitives, members: seq<Entry>, datas: seq<Bytes>) {
    |datas| == |members| && forall i | 0 <= i < |members| :: Matches(p, members[i], datas[i])
  }

  /** A valid manifest with the data it declares. */
  predicate Genuine(p: Primitives, m: Manifest, datas: seq<Bytes>) {
    Valid(p, m) && |p.marshal(m)| <= MAX_METADATA && AllMatch(p, m.members, datas)
  }

  predicate Encodable(p: Primitives, m: Manifest, datas: seq<Bytes>) {
    Fits(MANIFEST_NAME, |p.marshal(m)|) && MembersFitData(m.members, datas)
  }

  lemma {:induction false} GenuineIsEncodable(p: Primitives, m: Manifest, datas: seq<Bytes>)
    requires Genuine(p, m, datas)
    ensures Encodable(p, m, datas)
  {
    ManifestFits(|p.marshal(m)|);
    forall i | 0 <= i < |m.members| ensures MemberFits(m.members[i], datas[i]) {
      assert Matches(p, m.members[i], datas[i]);
      MembersFit(p, m, i);
    }
  }

  function Archive(p: Primitives, m: Manifest, datas: seq<Bytes>): Bytes
    requires Encodable(p, m, datas)
  {
    EncodedEntry(MANIFEST_NAME, p.marshal(m)) + (EncodedMembers(m.members, datas) + Zeros(1024))
  }

  lemma {:induction false} EncodedMembersSize(p: Primitives, members: seq<Entry>, datas: seq<Bytes>)
    requires MembersFitData(members, datas) && AllMatch(p, members, datas)
    ensures forall i | 0 <= i < |members| :: members[i].size >= 0
    ensures |EncodedMembers(members, datas)| == MembersSize(members)
  {
    forall i | 0 <= i < |members| ensures members[i].size >= 0 { assert Matches(p, members[i], datas[i]); }
    if members != [] {
      assert MembersFitData(members[1..], datas[1..]) && AllMatch(p, members[1..], datas[1..]);
      EncodedMembersSize(p, members[1..], datas[1..]);
      MembersSizeFirst(members);
      assert Matches(p, members[0], datas[0]);
    }
  }

  lemma {:induction false} MembersSizeFirst(members: seq<Entry>)
    requires members != [] && forall i | 0 <= i < |members| :: members[i].size >= 0
    ensures MembersSize(members) == BLOCK + Blocks(members[0].size) + MembersSize(members[1..])
  {
    if |members| > 1 {
      var front := members[..|members| - 1];
      MembersSizeFirst(front);
      assert front[1..] == members[1..][..|members| - 2] && members[1..][|members| - 2] == members[|members| - 1];
    } else {
      assert members[..0] == [] && members[1..] == [];
    }
  }

  /** The size formula is the length of the encoding, and within the limit for every genuine archive. */
  lemma {:induction false} ArchiveSize(p: Primitives, m: Manifest, datas: seq<Bytes>)
    requires Genuine(p, m, datas)
    ensures Encodable(p, m, datas)
    ensures forall i | 0 <= i < |m.members| :: m.members[i].size >= 0
    ensures |Archive(p, m, datas)| == TarSizeOf(m.members, |p.marshal(m)|) <= MAX_ARCHIVE
  {
    GenuineIsEncodable(p, m, datas);
    EncodedMembersSize(p, m.members, datas);
    ValidFitsArchive(p, m, |p.marshal(m)|);
  }

  // ---- the reader ----

  datatype Next = Found(header: Header) | EndOfArchive | Broken

  predicate AllZero(s: Bytes) {
    forall i | 0 <= i < |s| :: s[i] == 0
  }

  /** The next header of a stream; two zero blocks, or the end of the bytes, end the archive. */
  function NextHeader(rest: Bytes): Next {
    if rest == [] then EndOfArchive
    else if |rest| < BLOCK then Broken
    else if AllZero(rest[..BLOCK]) then
      if |rest| == BLOCK then EndOfArchive
      else if |rest| < 2 * BLOCK || !AllZero(rest[BLOCK..2 * BLOCK]) then Broken
      else EndOfArchive
    else
      match ParseHeader(rest[..BLOCK])
      case Some(h) => Found(h)
      case None => Broken
  }

  /** What is left behind a member of `size` bytes, its padding read past. */
  function Skip(rest: Bytes, size: nat): Bytes {
    if BLOCK + Blocks(size) <= |rest| then rest[BLOCK + Blocks(size)..] else []
  }

  predicate HeaderOk(h: Header, name: Bytes, size: int) {
    && h.name == name && h.size == size && h.typeflag == 48 && h.mode == 384 && h.uid == 0 && h.gid == 0
    && h.uname == [] && h.gname == [] && h.linkname == [] && h.mtime == 0 && h.ustar
  }

  function WalkMembers(p: Primitives, rest: Bytes, members: seq<Entry>): Option<seq<Bytes>>
    decreases |members|
  {
    if members == [] then if NextHeader(rest) == EndOfArchive then Some([]) else None
    else
      match NextHeader(rest)
      case EndOfArchive => None
      case Broken => None
      case Found(h) =>
        if !HeaderOk(h, MemberName(members[0].id), members[0].size) || |rest| < BLOCK + h.size then None
        else if p.digest(rest[BLOCK..BLOCK + h.size]) != members[0].digest then None
        else Prefixed(rest[BLOCK..BLOCK + h.size], WalkMembers(p, Skip(rest, h.size), members[1..]))
  }

  function Prefixed(data: Bytes, others: Option<seq<Bytes>>): Option<seq<Bytes>> {
    if others.None? then None else Some([data] + others.value)
  }

  function DecodeManifest(p: Primitives, raw: Bytes): Option<Manifest> {
    if |raw| > MAX_METADATA || p.unmarshal(raw).None? then None
    else
      var m := p.unmarshal(raw).value;
      if Valid(p, m) && p.marshal(m) == raw then Some(m) else None
  }

  /** The first member's bytes, if it is a bounded one of this name. */
  function ReadFirst(bytes: Bytes, name: Bytes): Option<Bytes> {
    match NextHeader(bytes)
    case EndOfArchive => None
    case Broken => None
    case Found(h) =>
      if h.size < 1 || h.size > MAX_METADATA || !HeaderOk(h, name, h.size) || |bytes| < BLOCK + h.size then None
      else Some(bytes[BLOCK..BLOCK + h.size])
  }

  datatype Contents = Contents(manifest: Manifest, datas: seq<Bytes>)

  /** The manifest, when digest, run and size are as the caller and the manifest say; None where the walk refuses. */
  function Admitted(p: Primitives, bytes: Bytes, expected: string, run: string): (r: Option<Manifest>)
    ensures r.Some? ==> Valid(p, r.value) && |p.marshal(r.value)| <= MAX_METADATA
  {
    if !p.isDigest(expected) || run == "" || |bytes| > MAX_ARCHIVE || p.digest(bytes) != expected then None
    else
      var raw := ReadFirst(bytes, MANIFEST_NAME);
      if raw.None? || DecodeManifest(p, raw.value).None? then None
      else
        var m := DecodeManifest(p, raw.value).value;
        assert forall i | 0 <= i < |m.members| :: ValidEntry(p, m.members[i]);
        if m.subject.runId != run || |bytes| != TarSizeOf(m.members, |raw.value|) then None else Some(m)
  }

  /** What the walk finds in bytes handed to it with an external digest and run. */
  function Walked(p: Primitives, bytes: Bytes, expected: string, run: string): Option<Contents> {
    var m := Admitted(p, bytes, expected, run);
    if m.None? then None
    else
      var datas := WalkMembers(p, Skip(bytes, |p.marshal(m.value)|), m.value.members);
      if datas.None? || !Recoded(p, m.value, datas.value, expected) then None else Some(Contents(m.value, datas.value))
  }

  /** What was read, written again, has the digest that was expected. */
  predicate Recoded(p: Primitives, m: Manifest, datas: seq<Bytes>, expected: string) {
    Encodable(p, m, datas) && p.digest(Archive(p, m, datas)) == expected
  }

  // ---- the walk reads back what was encoded ----

  lemma {:induction false} EntryReadsBack(name: Bytes, data: Bytes, more: Bytes)
    requires Fits(name, |data|)
    ensures var rest := EncodedEntry(name, data) + more;
      && NextHeader(rest) == Found(CanonicalHeader(name, |data|)) && |rest| >= BLOCK + |data|
      && rest[BLOCK..BLOCK + |data|] == data && Skip(rest, |data|) == more
  {
    var rest := EncodedEntry(name, data) + more;
    assert rest[..BLOCK] == HeaderBlock(name, |data|);
    HeaderReadsBack(name, |data|, rest);
  }

  lemma {:induction false} HeaderReadsBack(name: Bytes, size: nat, rest: Bytes)
    requires Fits(name, size) && |rest| >= BLOCK && rest[..BLOCK] == HeaderBlock(name, size)
    ensures NextHeader(rest) == Found(CanonicalHeader(name, size))
  {
    HeaderRoundTrip(name, size);
    FirstByte(name, size);
    assert rest[..BLOCK][0] == name[0] && name[0] in name;
  }

  lemma {:induction false} FirstByte(name: Bytes, size: nat)
    requires Fits(name, size)
    ensures HeaderBlock(name, size)[0] == name[0]
  {
    var f := Fields(name, size, ChecksumField(name, size));
    assert Join(f) == f[0] + Join(f[1..]);
  }

  lemma {:induction false} TrailerEnds()
    ensures NextHeader(Zeros(1024)) == EndOfArchive
  {
    assert AllZero(Zeros(1024)[..BLOCK]) && AllZero(Zeros(1024)[BLOCK..2 * BLOCK]);
  }

  lemma {:induction false} MembersReadBack(p: Primitives, members: seq<Entry>, datas: seq<Bytes>)
    requires MembersFitData(members, datas) && AllMatch(p, members, datas)
    ensures WalkMembers(p, EncodedMembers(members, datas) + Zeros(1024), members) == Some(datas)
  {
    if members == [] {
      assert EncodedMembers(members, datas) + Zeros(1024) == Zeros(1024);
      TrailerEnds();
    } else {
      assert MemberFits(members[0], datas[0]) && MembersFitData(members[1..], datas[1..]);
      assert Matches(p, members[0], datas[0]) && AllMatch(p, members[1..], datas[1..]);
      MembersReadBack(p, members[1..], datas[1..]);
      var entry, more := EncodedEntry(MemberName(members[0].id), datas[0]), EncodedMembers(members[1..], datas[1..]) + Zeros(1024);
      assert EncodedMembers(members, datas) + Zeros(1024) == entry + more;
      FirstMemberReadBack(p, members, datas, more);
    }
  }

  lemma {:induction false} FirstMemberReadBack(p: Primitives, members: seq<Entry>, datas: seq<Bytes>, more: Bytes)
    requires members != [] && datas != [] && MemberFits(members[0], datas[0]) && Matches(p, members[0], datas[0])
    requires WalkMembers(p, more, members[1..]) == Some(datas[1..])
    ensures WalkMembers(p, EncodedEntry(MemberName(members[0].id), datas[0]) + more, members) == Some(datas)
  {
    EntryReadsBack(MemberName(members[0].id), datas[0], more);
    OneMemberWalked(p, EncodedEntry(MemberName(members[0].id), datas[0]) + more, members, datas, more);
  }

  lemma {:induction false} OneMemberWalked(p: Primitives, rest: Bytes, members: seq<Entry>, datas: seq<Bytes>,
                                           more: Bytes)
    requires members != [] && datas != [] && Matches(p, members[0], datas[0])
    requires NextHeader(rest) == Found(CanonicalHeader(MemberName(members[0].id), |datas[0]|))
    requires |rest| >= BLOCK + |datas[0]| && rest[BLOCK..BLOCK + |datas[0]|] == datas[0] && Skip(rest, |datas[0]|) == more
    requires WalkMembers(p, more, members[1..]) == Some(datas[1..])
    ensures WalkMembers(p, rest, members) == Some(datas)
  {
    assert datas == [datas[0]] + datas[1..];
  }

  /** The walk gets past the manifest of a genuine archive. */
  lemma {:induction false} GenuineIsAdmitted(p: Primitives, m: Manifest, datas: seq<Bytes>)
    requires p.Sound() && Genuine(p, m, datas)
    ensures Encodable(p, m, datas)
    ensures Admitted(p, Archive(p, m, datas), p.digest(Archive(p, m, datas)), m.subject.runId) == Some(m)
    ensures Skip(Archive(p, m, datas), |p.marshal(m)|) == EncodedMembers(m.members, datas) + Zeros(1024)
  {
    ArchiveSize(p, m, datas);
    GenuineDecodes(p, m, datas);
    FirstReadBack(MANIFEST_NAME, p.marshal(m), EncodedMembers(m.members, datas) + Zeros(1024));
    AdmittedAs(p, Archive(p, m, datas), m);
  }

  lemma {:induction false} GenuineDecodes(p: Primitives, m: Manifest, datas: seq<Bytes>)
    requires p.Sound() && Genuine(p, m, datas)
    ensures 1 <= |p.marshal(m)| <= MAX_METADATA && DecodeManifest(p, p.marshal(m)) == Some(m) && m.subject.runId != ""
    ensures forall bytes :: p.isDigest(p.digest(bytes))
  {
  }

  lemma {:induction false} FirstReadBack(name: Bytes, raw: Bytes, more: Bytes)
    requires Fits(name, |raw|) && 1 <= |raw| <= MAX_METADATA
    ensures ReadFirst(EncodedEntry(name, raw) + more, name) == Some(raw) && Skip(EncodedEntry(name, raw) + more, |raw|) == more
  {
    EntryReadsBack(name, raw, more);
    FirstRead(name, raw, EncodedEntry(name, raw) + more);
  }

  lemma {:induction false} FirstRead(name: Bytes, raw: Bytes, bytes: Bytes)
    requires 1 <= |raw| <= MAX_METADATA && NextHeader(bytes) == Found(CanonicalHeader(name, |raw|))
    requires |bytes| >= BLOCK + |raw| && bytes[BLOCK..BLOCK + |raw|] == raw
    ensures ReadFirst(bytes, name) == Some(raw)
  {
  }

  lemma {:induction false} AdmittedAs(p: Primitives, bytes: Bytes, m: Manifest)
    requires p.isDigest(p.digest(bytes)) && |bytes| <= MAX_ARCHIVE && m.subject.runId != ""
    requires ReadFirst(bytes, MANIFEST_NAME) == Some(p.marshal(m)) && DecodeManifest(p, p.marshal(m)) == Some(m)
    requires forall i | 0 <= i < |m.members| :: m.members[i].size >= 0
    requires |bytes| == TarSizeOf(m.members, |p.marshal(m)|)
    ensures Admitted(p, bytes, p.digest(bytes), m.subject.runId) == Some(m)
  {
  }

  /** Every genuine archive is accepted, and read back as what was encoded. */
  lemma {:induction false} GenuineIsAccepted(p: Primitives, m: Manifest, datas: seq<Bytes>)
    requires p.Sound() && Genuine(p, m, datas)
    ensures Encodable(p, m, datas)
    ensures Walked(p, Archive(p, m, datas), p.digest(Archive(p, m, datas)), m.subject.runId) == Some(Contents(m, datas))
  {
    GenuineIsAdmitted(p, m, datas);
    MembersReadBack(p, m.members, datas);
  }

  // ---- the walk accepts nothing else ----

  lemma {:induction false} WalkedMembersMatch(p: Primitives, rest: Bytes, members: seq<Entry>)
    requires WalkMembers(p, rest, members).Some?
    ensures AllMatch(p, members, WalkMembers(p, rest, members).value)
    decreases |members|
  {
    if members != [] {
      var size := NextHeader(rest).header.size;
      WalkedMembersMatch(p, Skip(rest, size), members[1..]);
      var datas := WalkMembers(p, rest, members).value;
      assert datas[1..] == WalkMembers(p, Skip(rest, size), members[1..]).value;
      forall i | 0 <= i < |members| ensures Matches(p, members[i], datas[i]) {
        if i > 0 { assert Matches(p, members[1..][i - 1], datas[1..][i - 1]); }
      }
    }
  }

  /** The walk accepts exactly the canonical encodings of genuine contents, byte for byte. */
  lemma {:induction false} AcceptedExactlyCanonical(p: Primitives, bytes: Bytes, expected: string, run: string,
                                                    c: Contents)
    requires p.Sound()
    ensures Walked(p, bytes, expected, run) == Some(c) <==>
      (&& Genuine(p, c.manifest, c.datas) && c.manifest.subject.runId == run && expected == p.digest(bytes)
       && Encodable(p, c.manifest, c.datas) && bytes == Archive(p, c.manifest, c.datas))
  {
    if Walked(p, bytes, expected, run) == Some(c) {
      WalkedMembersMatch(p, Skip(bytes, |p.marshal(c.manifest)|), c.manifest.members);
    } else if Genuine(p, c.manifest, c.datas) && c.manifest.subject.runId == run && expected == p.digest(bytes) {
      GenuineIsEncodable(p, c.manifest, c.datas);
      if bytes == Archive(p, c.manifest, c.datas) { GenuineIsAccepted(p, c.manifest, c.datas); }
    }
  }

  /** An archive determines its contents, and a manifest alone determines data and archive. */
  lemma {:induction false} ArchivesAreUnique(p: Primitives, a: Contents, b: Contents)
    requires p.Sound() && Genuine(p, a.manifest, a.datas) && Genuine(p, b.manifest, b.datas)
    ensures Encodable(p, a.manifest, a.datas) && Encodable(p, b.manifest, b.datas)
    ensures Archive(p, a.manifest, a.datas) == Archive(p, b.manifest, b.datas) <==> a.manifest == b.manifest
    ensures a.manifest == b.manifest ==> a.datas == b.datas
  {
    GenuineIsEncodable(p, a.manifest, a.datas);
    GenuineIsEncodable(p, b.manifest, b.datas);
    if a.manifest == b.manifest {
      SameData(p, a.manifest.members, a.datas, b.datas);
    } else if Archive(p, a.manifest, a.datas) == Archive(p, b.manifest, b.datas) {
      SameManifest(p, a, b);
    }
  }

  lemma {:induction false} SameData(p: Primitives, members: seq<Entry>, a: seq<Bytes>, b: seq<Bytes>)
    requires p.Sound() && AllMatch(p, members, a) && AllMatch(p, members, b)
    ensures a == b
  {
    forall i | 0 <= i < |a| ensures a[i] == b[i] {
      assert Matches(p, members[i], a[i]) && Matches(p, members[i], b[i]);
    }
  }

  lemma {:induction false} SameManifest(p: Primitives, a: Contents, b: Contents)
    requires p.Sound() && Genuine(p, a.manifest, a.datas) && Genuine(p, b.manifest, b.datas)
    requires Encodable(p, a.manifest, a.datas) && Encodable(p, b.manifest, b.datas)
    requires Archive(p, a.manifest, a.datas) == Archive(p, b.manifest, b.datas)
    ensures a.manifest == b.manifest
  {
    var ra, rb := p.marshal(a.manifest), p.marshal(b.manifest);
    EntryReadsBack(MANIFEST_NAME, ra, EncodedMembers(a.manifest.members, a.datas) + Zeros(1024));
    EntryReadsBack(MANIFEST_NAME, rb, EncodedMembers(b.manifest.members, b.datas) + Zeros(1024));
    assert p.unmarshal(ra) == Some(a.manifest) && p.unmarshal(rb) == Some(b.manifest);
  }
}

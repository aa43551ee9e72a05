/** Packing, walking and restoring as they run: one pass over the stream with a second, canonical writer beside it. */
module ArtifactTransfer {
  import opened Options
  import opened UstarFormat
  import opened ArtifactManifest
  import opened ArtifactArchive
  import opened ArtifactLayout

  // ---- what a restore leaves ----

  function FileOf(id: string): string { "files/" + id }

  function MemberFiles(members: seq<Entry>, datas: seq<Bytes>): map<string, Bytes>
    requires |members| == |datas|
  {
    if members == [] then map[]
    else MemberFiles(members[..|members| - 1], datas[..|datas| - 1])[FileOf(members[|members| - 1].id) := datas[|datas| - 1]]
  }

  function RestoredFiles(p: Primitives, c: Contents): map<string, Bytes>
    requires |c.manifest.members| == |c.datas|
  {
    MemberFiles(c.manifest.members, c.datas)["manifest.json" := p.marshal(c.manifest)]
  }

  lemma {:induction false} MemberFileNames(members: seq<Entry>, datas: seq<Bytes>, name: string)
    requires |members| == |datas|
    ensures name in MemberFiles(members, datas) <==> exists i :: 0 <= i < |members| && name == FileOf(members[i].id)
  {
    if members != [] {
      var front := members[..|members| - 1];
      MemberFileNames(front, datas[..|datas| - 1], name);
      if name in MemberFiles(front, datas[..|datas| - 1]) {
        var i :| 0 <= i < |front| && name == FileOf(front[i].id);
        assert members[i] == front[i];
      }
      forall i | 0 <= i < |members| && name == FileOf(members[i].id) ensures name in MemberFiles(members, datas) {
        if i < |front| { assert front[i] == members[i]; }
      }
    }
  }

  lemma {:induction false} DifferentFiles(a: string, b: string)
    requires FileOf(a) == FileOf(b)
    ensures a == b
  {
    assert FileOf(a)[6..] == a && FileOf(b)[6..] == b;
  }

  /** With members in order no file is written twice, so each holds its own member's data. */
  lemma {:induction false} MemberFileContents(members: seq<Entry>, datas: seq<Bytes>, i: nat)
    requires |members| == |datas| && Ascending(members) && i < |members|
    ensures FileOf(members[i].id) in MemberFiles(members, datas) && MemberFiles(members, datas)[FileOf(members[i].id)] == datas[i]
    ensures |MemberFiles(members, datas)| == |members|
    decreases |members|
  {
    var n := |members| - 1;
    var front, datas' := members[..n], datas[..n];
    assert Ascending(front) by {
      assert forall k | 0 <= k < |front| :: front[k] == members[k];
    }
    NewFile(members, n, datas');
    if n > 0 { MemberFileContents(front, datas', if i < n then i else 0); }
    if i < n {
      AscendingIsStrict(members, i, n);
      if FileOf(members[i].id) == FileOf(members[n].id) { DifferentFiles(members[i].id, members[n].id); }
    }
  }

  lemma {:induction false} NewFile(members: seq<Entry>, n: nat, datas: seq<Bytes>)
    requires n < |members| && |datas| == n && Ascending(members)
    ensures FileOf(members[n].id) !in MemberFiles(members[..n], datas)
  {
    MemberFileNames(members[..n], datas, FileOf(members[n].id));
    forall i | 0 <= i < n ensures FileOf(members[..n][i].id) != FileOf(members[n].id) {
      AscendingIsStrict(members, i, n);
      if FileOf(members[i].id) == FileOf(members[n].id) { DifferentFiles(members[i].id, members[n].id); }
    }
  }

  /** A new private directory: nothing in it is ever overwritten. */
  class Destination {
    var files: map<string, Bytes>

    constructor ()
      ensures files == map[]
    {
      files := map[];
    }

    method Create(name: string, data: Bytes) returns (ok: bool)
      modifies this
      ensures ok <==> name !in old(files)
      ensures files == if ok then old(files)[name := data] else old(files)
    {
      ok := name !in files;
      if ok { files := files[name := data]; }
    }
  }

  // ---- the walk ----

  function Combined(done: seq<Bytes>, others: Option<seq<Bytes>>): Option<seq<Bytes>> {
    if others.None? then None else Some(done + others.value)
  }

  lemma {:induction false} CombineOne(done: seq<Bytes>, data: Bytes, others: Option<seq<Bytes>>)
    ensures Combined(done, Prefixed(data, others)) == Combined(done + [data], others)
  {
    if others.Some? { assert done + ([data] + others.value) == done + [data] + others.value; }
  }

  lemma {:induction false} EncodedSnoc(members: seq<Entry>, datas: seq<Bytes>, e: Entry, data: Bytes)
    requires MembersFitData(members, datas) && MemberFits(e, data)
    ensures MembersFitData(members + [e], datas + [data])
    ensures EncodedMembers(members + [e], datas + [data]) == EncodedMembers(members, datas) + EncodedEntry(MemberName(e.id), data)
  {
    var ms, ds := members + [e], datas + [data];
    FitsSnoc(members, datas, e, data);
    EncodedFirst(ms, ds);
    if members == [] {
      assert ms[1..] == [] && ds[1..] == [];
    } else {
      EncodedFirst(members, datas);
      assert ms[1..] == members[1..] + [e] && ds[1..] == datas[1..] + [data];
      EncodedSnoc(members[1..], datas[1..], e, data);
      Associate(EncodedEntry(MemberName(members[0].id), datas[0]), EncodedMembers(members[1..], datas[1..]),
                EncodedEntry(MemberName(e.id), data));
    }
  }

  lemma {:induction false} FitsSnoc(members: seq<Entry>, datas: seq<Bytes>, e: Entry, data: Bytes)
    requires MembersFitData(members, datas) && MemberFits(e, data)
    ensures MembersFitData(members + [e], datas + [data])
  {
    var ms, ds := members + [e], datas + [data];
    forall i | 0 <= i < |ms| ensures MemberFits(ms[i], ds[i]) {
      if i < |members| { assert MemberFits(members[i], datas[i]); }
    }
  }

  lemma {:induction false} EncodedLonger(members: seq<Entry>, datas: seq<Bytes>, e: Entry, data: Bytes,
                                         longer: seq<Entry>, more: seq<Bytes>)
    requires MembersFitData(members, datas) && MemberFits(e, data) && longer == members + [e] && more == datas + [data]
    ensures MembersFitData(longer, more)
    ensures EncodedMembers(longer, more) == EncodedMembers(members, datas) + EncodedEntry(MemberName(e.id), data)
  {
    EncodedSnoc(members, datas, e, data);
  }

  /** One member of the walk: header, bytes, digest. */
  method ReadMember(p: Primitives, rest: Bytes, e: Entry, ghost others: seq<Entry>) returns (data: Option<Bytes>)
    requires ValidEntry(p, e)
    ensures data.None? ==> WalkMembers(p, rest, [e] + others) == None
    ensures data.Some? ==>
      WalkMembers(p, rest, [e] + others) == Prefixed(data.value, WalkMembers(p, Skip(rest, |data.value|), others))
    ensures data.Some? ==> MemberFits(e, data.value)
  {
    ghost var all := [e] + others;
    assert all[0] == e && all[1..] == others;
    var next := NextHeader(rest);
    if !next.Found? { return None; }
    var h := next.header;
    if !HeaderOk(h, MemberName(e.id), e.size) || |rest| < BLOCK + h.size { return None; }
    var read := rest[BLOCK..BLOCK + h.size];
    if p.digest(read) != e.digest { return None; }
    EntryFits(p, e);
    data := Some(read);
  }

  lemma {:induction false} EntryFits(p: Primitives, e: Entry)
    requires ValidEntry(p, e)
    ensures Fits(MemberName(e.id), e.size)
  {
    SmallPowers();
  }

  /** Before member `i`: what was found and written so far, and what the rest of the walk would add. */
  ghost predicate WalkLoop(p: Primitives, start: Bytes, members: seq<Entry>, i: nat, rest: Bytes, found: seq<Bytes>,
                           head: Bytes, canonical: Bytes) {
    && i <= |members| && |found| == i
    && Combined(found, WalkMembers(p, rest, members[i..])) == WalkMembers(p, start, members)
    && MembersFitData(members[..i], found) && canonical == head + EncodedMembers(members[..i], found)
  }

  lemma {:induction false} WalkTurn(p: Primitives, start: Bytes, members: seq<Entry>, i: nat, rest: Bytes,
                                    found: seq<Bytes>,
                 head: Bytes, canonical: Bytes, data: Bytes)
    requires i < |members| && WalkLoop(p, start, members, i, rest, found, head, canonical) && MemberFits(members[i], data)
    requires WalkMembers(p, rest, members[i..]) == Prefixed(data, WalkMembers(p, Skip(rest, |data|), members[i + 1..]))
    ensures WalkLoop(p, start, members, i + 1, Skip(rest, |data|), found + [data], head,
                     canonical + EncodedEntry(MemberName(members[i].id), data))
  {
    CombineOne(found, data, WalkMembers(p, Skip(rest, |data|), members[i + 1..]));
    WriteTurn(members, i, found, head, canonical, data);
  }

  lemma {:induction false} WriteTurn(members: seq<Entry>, i: nat, found: seq<Bytes>, head: Bytes, canonical: Bytes,
                                     data: Bytes)
    requires i < |members| && MembersFitData(members[..i], found) && MemberFits(members[i], data)
    requires canonical == head + EncodedMembers(members[..i], found)
    ensures MembersFitData(members[..i + 1], found + [data])
    ensures canonical + EncodedEntry(MemberName(members[i].id), data) == head + EncodedMembers(members[..i + 1], found + [data])
  {
    assert members[..i + 1] == members[..i] + [members[i]];
    EncodedLonger(members[..i], found, members[i], data, members[..i + 1], found + [data]);
    Associate(head, EncodedMembers(members[..i], found), EncodedEntry(MemberName(members[i].id), data));
  }

  lemma {:induction false} Associate(a: Bytes, b: Bytes, c: Bytes)
    ensures (a + b) + c == a + (b + c)
  {
  }

  lemma {:induction false} FilesTurn(members: seq<Entry>, i: nat, found: seq<Bytes>, data: Bytes)
    requires i < |members| && |found| == i
    ensures MemberFiles(members[..i + 1], found + [data]) == MemberFiles(members[..i], found)[FileOf(members[i].id) := data]
  {
    assert members[..i + 1][..i] == members[..i] && (found + [data])[..i] == found;
  }

  /** Read a member, and account for it. */
  method ReadTurn(p: Primitives, ghost start: Bytes, members: seq<Entry>, i: nat, rest: Bytes, ghost found: seq<Bytes>,
                  ghost head: Bytes, ghost canonical: Bytes) returns (data: Option<Bytes>)
    requires i < |members| && ValidEntry(p, members[i]) && WalkLoop(p, start, members, i, rest, found, head, canonical)
    ensures |found| == i && (data.None? ==> WalkMembers(p, start, members) == None)
    ensures data.Some? ==> MemberFits(members[i], data.value)
    ensures data.Some? ==> WalkLoop(p, start, members, i + 1, Skip(rest, |data.value|), found + [data.value], head,
                                    canonical + EncodedEntry(MemberName(members[i].id), data.value))
  {
    assert members[i..] == [members[i]] + members[i + 1..];
    data := ReadMember(p, rest, members[i], members[i + 1..]);
    if data.Some? { WalkTurn(p, start, members, i, rest, found, head, canonical, data.value); }
  }

  /** One turn of the walk: read a member, copy it to the destination, and account for it. */
  method WalkOne(p: Primitives, ghost start: Bytes, members: seq<Entry>, i: nat, rest: Bytes, ghost found: seq<Bytes>,
                 ghost head: Bytes, ghost canonical: Bytes, dest: Destination?) returns (data: Option<Bytes>)
    requires i < |members| && ValidEntry(p, members[i]) && Ascending(members)
    requires WalkLoop(p, start, members, i, rest, found, head, canonical)
    requires dest != null ==> dest.files == MemberFiles(members[..i], found)
    modifies if dest == null then {} else {dest}
    ensures data.None? ==> WalkMembers(p, start, members) == None
    ensures data.Some? ==> MemberFits(members[i], data.value)
    ensures data.Some? ==> WalkLoop(p, start, members, i + 1, Skip(rest, |data.value|), found + [data.value], head,
                                    canonical + EncodedEntry(MemberName(members[i].id), data.value))
    ensures data.Some? && dest != null ==> dest.files == MemberFiles(members[..i + 1], found + [data.value])
  {
    data := ReadTurn(p, start, members, i, rest, found, head, canonical);
    if data.Some? && dest != null { CopyTo(dest, members, i, found, data.value); }
  }

  /** A member's bytes reach a file that was not there before. */
  method CopyTo(dest: Destination, members: seq<Entry>, i: nat, ghost found: seq<Bytes>, data: Bytes)
    requires i < |members| && Ascending(members) && |found| == i && dest.files == MemberFiles(members[..i], found)
    modifies dest
    ensures dest.files == MemberFiles(members[..i + 1], found + [data])
  {
    NewFile(members, i, found);
    FilesTurn(members, i, found, data);
    var created := dest.Create(FileOf(members[i].id), data);
  }

  method WalkEntries(p: Primitives, start: Bytes, members: seq<Entry>, head: Bytes, dest: Destination?)
    returns (datas: Option<seq<Bytes>>, canonical: Bytes)
    requires ValidMembers(p, members) && (dest != null ==> dest.files == map[])
    modifies if dest == null then {} else {dest}
    ensures datas == WalkMembers(p, start, members)
    ensures datas.Some? ==> MembersFitData(members, datas.value) && canonical == head + EncodedMembers(members, datas.value)
    ensures datas.Some? && dest != null ==> dest.files == MemberFiles(members, datas.value)
  {
    var rest, found: seq<Bytes> := start, [];
    canonical := head;
    WalkBegins(p, start, members, head);
    for i := 0 to |members|
      invariant WalkLoop(p, start, members, i, rest, found, head, canonical)
      invariant dest != null ==> dest.files == MemberFiles(members[..i], found)
    {
      assert ValidEntry(p, members[i]);
      var data := WalkOne(p, start, members, i, rest, found, head, canonical, dest);
      if data.None? { return None, canonical; }
      canonical := canonical + EncodedEntry(MemberName(members[i].id), data.value);
      rest := Skip(rest, |data.value|);
      found := found + [data.value];
    }
    WalkEnds(p, start, members, rest, found, head, canonical);
    if NextHeader(rest) != EndOfArchive { return None, canonical; }
    assert members[..|members|] == members;
    datas := Some(found);
  }

  lemma {:induction false} WalkBegins(p: Primitives, start: Bytes, members: seq<Entry>, head: Bytes)
    ensures WalkLoop(p, start, members, 0, start, [], head, head)
  {
    var others := WalkMembers(p, start, members);
    assert members[0..] == members && members[..0] == [] && head + [] == head;
    if others.Some? { assert [] + others.value == others.value; }
  }

  lemma {:induction false} WalkEnds(p: Primitives, start: Bytes, members: seq<Entry>, rest: Bytes, found: seq<Bytes>,
                                    head: Bytes, canonical: Bytes)
    requires WalkLoop(p, start, members, |members|, rest, found, head, canonical)
    ensures WalkMembers(p, start, members) == if NextHeader(rest) == EndOfArchive then Some(found) else None
    ensures MembersFitData(members, found) && canonical == head + EncodedMembers(members, found)
  {
    assert members[..|members|] == members && members[|members|..] == [] && found + [] == found;
  }

  method ReadManifest(bytes: Bytes, name: Bytes) returns (raw: Option<Bytes>)
    ensures raw == ReadFirst(bytes, name)
  {
    var next := NextHeader(bytes);
    if !next.Found? { return None; }
    var h := next.header;
    if h.size < 1 || h.size > MAX_METADATA { return None; }
    if !HeaderOk(h, name, h.size) || |bytes| < BLOCK + h.size { return None; }
    raw := Some(bytes[BLOCK..BLOCK + h.size]);
  }

  /** Everything the walk decides before the members. */
  method Admit(p: Primitives, bytes: Bytes, expected: string, run: string) returns (m: Option<Manifest>)
    ensures m == Admitted(p, bytes, expected, run)
  {
    if !p.isDigest(expected) || run == "" || |bytes| > MAX_ARCHIVE { return None; }
    if p.digest(bytes) != expected { return None; }
    var first := ReadManifest(bytes, MANIFEST_NAME);
    if first.None? { return None; }
    var raw := first.value;
    m := DecodeManifest(p, raw);
    if m.None? { return None; }
    assert forall i | 0 <= i < |m.value.members| :: ValidEntry(p, m.value.members[i]);
    var size := TarSize(m.value, raw);
    if m.value.subject.runId != run || |bytes| != size { return None; }
  }

  /** The whole walk; with a destination it also writes every member there, the manifest last. */
  method Walk(p: Primitives, bytes: Bytes, expected: string, run: string, dest: Destination?)
    returns (c: Option<Contents>)
    requires dest != null ==> dest.files == map[]
    modifies if dest == null then {} else {dest}
    ensures c == Walked(p, bytes, expected, run)
    ensures c.Some? ==> |c.value.datas| == |c.value.manifest.members|
    ensures c.Some? && dest != null ==> dest.files == RestoredFiles(p, c.value)
  {
    var admitted := Admit(p, bytes, expected, run);
    if admitted.None? { return None; }
    var m, raw := admitted.value, p.marshal(admitted.value);
    ManifestFits(|raw|);
    var head := EncodedEntry(MANIFEST_NAME, raw);
    var datas, canonical := WalkEntries(p, Skip(bytes, |raw|), m.members, head, dest);
    if datas.None? { return None; }
    ArchiveParts(p, m, datas.value, canonical);
    canonical := canonical + Zeros(1024);
    if p.digest(canonical) != expected { return None; }
    if dest != null {
      ManifestIsNew(m.members, datas.value);
      var created := dest.Create("manifest.json", raw);
    }
    c := Some(Contents(m, datas.value));
  }

  lemma {:induction false} ArchiveParts(p: Primitives, m: Manifest, datas: seq<Bytes>, written: Bytes)
    requires Encodable(p, m, datas)
    requires written == EncodedEntry(MANIFEST_NAME, p.marshal(m)) + EncodedMembers(m.members, datas)
    ensures written + Zeros(1024) == Archive(p, m, datas)
  {
  }

  lemma {:induction false} ManifestIsNew(members: seq<Entry>, datas: seq<Bytes>)
    requires |members| == |datas|
    ensures "manifest.json" !in MemberFiles(members, datas)
  {
    MemberFileNames(members, datas, "manifest.json");
    forall i | 0 <= i < |members| ensures FileOf(members[i].id) != "manifest.json" {
      assert FileOf(members[i].id)[0] == 'f';
    }
  }

  /** A tree with as many files as the contents have, holding the manifest and every member, is exactly the
      restored tree. */
  ghost predicate ReadsAs(p: Primitives, seen: map<string, Bytes>, members: seq<Entry>) {
    && |seen| == |members| + 1 && "manifest.json" in seen
    && forall i | 0 <= i < |members| :: FileOf(members[i].id) in seen && Matches(p, members[i], seen[FileOf(members[i].id)])
  }

  lemma {:induction false} RestoredReadsAs(p: Primitives, c: Contents)
    requires Genuine(p, c.manifest, c.datas)
    ensures |c.datas| == |c.manifest.members| && ReadsAs(p, RestoredFiles(p, c), c.manifest.members)
  {
    var members, datas := c.manifest.members, c.datas;
    ManifestIsNew(members, datas);
    MemberFileContents(members, datas, 0);
    forall i | 0 <= i < |members|
      ensures FileOf(members[i].id) in RestoredFiles(p, c) && Matches(p, members[i], RestoredFiles(p, c)[FileOf(members[i].id)])
    {
      MemberFileContents(members, datas, i);
      assert FileOf(members[i].id)[0] == 'f' && Matches(p, members[i], datas[i]);
    }
  }

  /** Equal digests mean equal bytes, so a tree that reads so is the restored one. */
  lemma {:induction false} ReadsAsRestored(p: Primitives, seen: map<string, Bytes>, c: Contents)
    requires p.Sound() && Genuine(p, c.manifest, c.datas) && ReadsAs(p, seen, c.manifest.members)
    requires seen["manifest.json"] == p.marshal(c.manifest)
    ensures |c.datas| == |c.manifest.members| && seen == RestoredFiles(p, c)
  {
    RestoredReadsAs(p, c);
    var restored := RestoredFiles(p, c);
    forall name | name in restored ensures name in seen && seen[name] == restored[name] {
      if name != "manifest.json" { MemberReadsBack(p, seen, c, name); }
    }
    assert restored.Keys <= seen.Keys && |restored.Keys| == |restored| && |seen.Keys| == |seen|;
    SameKeys(restored.Keys, seen.Keys);
  }

  lemma {:induction false} MemberReadsBack(p: Primitives, seen: map<string, Bytes>, c: Contents, name: string)
    requires p.Sound() && Genuine(p, c.manifest, c.datas) && ReadsAs(p, seen, c.manifest.members)
    requires name in MemberFiles(c.manifest.members, c.datas)
    ensures name in seen && seen[name] == MemberFiles(c.manifest.members, c.datas)[name]
  {
    var members, datas := c.manifest.members, c.datas;
    MemberFileNames(members, datas, name);
    var i :| 0 <= i < |members| && name == FileOf(members[i].id);
    MemberFileContents(members, datas, i);
    assert Matches(p, members[i], seen[name]) && Matches(p, members[i], datas[i]);
  }

  lemma {:induction false} SameKeys(a: set<string>, b: set<string>)
    requires a <= b && |a| == |b|
    ensures a == b
  {
    assert b == a + (b - a) && |b| == |a| + |b - a|;
  }

  /** Reading a restored tree again: manifest, number of files, every member's size and digest. It passes exactly for
      the tree the walk wrote. */
  method ReadRestored(p: Primitives, seen: map<string, Bytes>, c: Contents) returns (ok: bool)
    requires p.Sound() && Genuine(p, c.manifest, c.datas)
    ensures |c.datas| == |c.manifest.members| && (ok <==> seen == RestoredFiles(p, c))
  {
    RestoredReadsAs(p, c);
    ok := false;
    if "manifest.json" in seen {
      var m := DecodeManifest(p, seen["manifest.json"]);
      if m.Some? && p.digest(seen["manifest.json"]) == p.digest(p.marshal(c.manifest)) && |seen| == |m.value.members| + 1 {
        assert p.unmarshal(p.marshal(c.manifest)) == Some(c.manifest);
        ok := ReadMembers(p, seen, m.value.members);
      }
    }
    if ok { ReadsAsRestored(p, seen, c); }
    RestoredDecodes(p, c);
  }

  lemma {:induction false} RestoredDecodes(p: Primitives, c: Contents)
    requires p.Sound() && Genuine(p, c.manifest, c.datas)
    ensures |c.datas| == |c.manifest.members|
    ensures DecodeManifest(p, RestoredFiles(p, c)["manifest.json"]) == Some(c.manifest)
  {
  }

  method ReadMembers(p: Primitives, seen: map<string, Bytes>, members: seq<Entry>) returns (ok: bool)
    requires |seen| == |members| + 1 && "manifest.json" in seen
    ensures ok <==> ReadsAs(p, seen, members)
  {
    for i := 0 to |members|
      invariant forall k | 0 <= k < i :: FileOf(members[k].id) in seen && Matches(p, members[k], seen[FileOf(members[k].id)])
    {
      if FileOf(members[i].id) !in seen || !Matches(p, members[i], seen[FileOf(members[i].id)]) { return false; }
    }
    ok := true;
  }

  /** Only one sequence of bytes has the expected digest. */
  lemma {:induction false} SameDigestSameBytes(p: Primitives, a: Bytes, b: Bytes, expected: string, run: string)
    requires p.Sound() && Walked(p, a, expected, run).Some? && Walked(p, b, expected, run).Some?
    ensures a == b
  {
    assert p.digest(a) == expected == p.digest(b);
  }

  /** Restoring: walk, make the destination, walk again into it, and read the restored tree again. `again` is the
      archive at the second walk and `change` what happens to the tree before it is read; `makes` and `settles` are
      the answers of the directory calls. It succeeds exactly where the walk does, with nothing changed meanwhile,
      and leaves exactly the manifest and the declared members. */
  method Restore(p: Primitives, bytes: Bytes, again: Bytes, expected: string, run: string, makes: bool, settles: bool,
                 change: map<string, Bytes> -> map<string, Bytes>) returns (files: Option<map<string, Bytes>>)
    requires p.Sound()
    ensures var w := Walked(p, bytes, expected, run);
      w.Some? ==>
        && |w.value.manifest.members| == |w.value.datas|
        && var restored := RestoredFiles(p, w.value);
           files == if again == bytes && makes && settles && change(restored) == restored then Some(restored) else None
    ensures Walked(p, bytes, expected, run).None? ==> files.None?
  {
    files := None;
    var before := Walk(p, bytes, expected, run, null);
    if before.None? { return; }
    AcceptedExactlyCanonical(p, bytes, expected, run, before.value);
    if !makes { return; }
    var target := new Destination();
    var c := Walk(p, again, expected, run, target);
    if c.Some? { SameDigestSameBytes(p, bytes, again, expected, run); }
    if c.None? || c != before { return; }
    var seen := change(target.files);
    var ok := ReadRestored(p, seen, before.value);
    if ok && settles { files := Some(target.files); }
  }

  // ---- packing ----

  datatype Input = Input(entry: Entry, path: string)
  datatype Plan = Plan(version: int, subject: Subject, members: seq<Input>)

  function EntriesOf(members: seq<Input>): seq<Entry> {
    seq(|members|, i requires 0 <= i < |members| => members[i].entry)
  }

  function ManifestOf(plan: Plan, planDigest: string): Manifest {
    Manifest(plan.version, COVERAGE, plan.subject, planDigest, EntriesOf(plan.members))
  }

  /** No input is named twice, nor is the plan or the output an input. */
  predicate PathsOk(plan: Plan, planPath: string, out: string) {
    && planPath != out
    && (forall i | 0 <= i < |plan.members| :: plan.members[i].path != planPath && plan.members[i].path != out)
    && (forall i, j | 0 <= i < j < |plan.members| :: plan.members[i].path != plan.members[j].path)
  }

  predicate Declared(p: Primitives, input: Input, files: map<string, Bytes>) {
    input.path in files && ArtifactArchive.Matches(p, input.entry, files[input.path])
  }

  /** Every input has the size and digest it was declared with. */
  predicate AllDeclared(p: Primitives, members: seq<Input>, files: map<string, Bytes>) {
    forall i | 0 <= i < |members| :: Declared(p, members[i], files)
  }

  function DataOf(members: seq<Input>, files: map<string, Bytes>): seq<Bytes> {
    seq(|members|, i requires 0 <= i < |members| => if members[i].path in files then files[members[i].path] else [])
  }

  /** The plan is the pinned one, describes a valid set, and its inputs are as declared before and after capture. */
  predicate Packable(p: Primitives, plan: Plan, planPath: string, planDigest: string, out: string,
                     before: map<string, Bytes>, after: map<string, Bytes>) {
    && PathsOk(plan, planPath, out) && out !in before
    && Valid(p, ManifestOf(plan, planDigest)) && |p.marshal(ManifestOf(plan, planDigest))| <= MAX_METADATA
    && AllDeclared(p, plan.members, before) && AllDeclared(p, plan.members, after)
    && PlanPinned(p, planPath, planDigest, before) && planPath in after && after[planPath] == before[planPath]
  }

  predicate PlanPinned(p: Primitives, planPath: string, planDigest: string, files: map<string, Bytes>) {
    planPath in files && |files[planPath]| <= MAX_METADATA && p.digest(files[planPath]) == planDigest
  }

  lemma {:induction false} PackableIsGenuine(p: Primitives, plan: Plan, planPath: string, planDigest: string,
                                             out: string,
                          before: map<string, Bytes>, after: map<string, Bytes>)
    requires Packable(p, plan, planPath, planDigest, out, before, after)
    ensures Genuine(p, ManifestOf(plan, planDigest), DataOf(plan.members, before))
  {
    var m, datas := ManifestOf(plan, planDigest), DataOf(plan.members, before);
    forall i | 0 <= i < |m.members| ensures ArtifactArchive.Matches(p, m.members[i], datas[i]) {
      assert Declared(p, plan.members[i], before);
    }
  }

  method CheckPaths(plan: Plan, planPath: string, out: string) returns (ok: bool)
    ensures ok <==> PathsOk(plan, planPath, out)
  {
    var seen := {planPath};
    for i := 0 to |plan.members|
      invariant seen == {planPath} + set k | 0 <= k < i :: plan.members[k].path
      invariant forall k | 0 <= k < i :: plan.members[k].path != planPath && plan.members[k].path != out
      invariant forall j, k | 0 <= j < k < i :: plan.members[j].path != plan.members[k].path
    {
      var path := plan.members[i].path;
      if path in seen || path == out { return false; }
      seen := seen + {path};
    }
    ok := out !in seen;
  }

  /** The encodings of the first `i` members have been written. */
  ghost predicate CapturedUpTo(entries: seq<Entry>, datas: seq<Bytes>, i: nat, written: Bytes) {
    i <= |entries| == |datas| && MembersFitData(entries[..i], datas[..i]) && written == EncodedMembers(entries[..i], datas[..i])
  }

  lemma {:induction false} CaptureTurn(entries: seq<Entry>, datas: seq<Bytes>, i: nat, written: Bytes)
    requires i < |entries| && CapturedUpTo(entries, datas, i, written) && MemberFits(entries[i], datas[i])
    ensures CapturedUpTo(entries, datas, i + 1, written + EncodedEntry(MemberName(entries[i].id), datas[i]))
  {
    var longer, more := entries[..i + 1], datas[..i + 1];
    assert longer == entries[..i] + [entries[i]] && more == datas[..i] + [datas[i]];
    EncodedLonger(entries[..i], datas[..i], entries[i], datas[i], longer, more);
  }

  lemma {:induction false} CaptureEnds(entries: seq<Entry>, datas: seq<Bytes>, written: Bytes)
    requires CapturedUpTo(entries, datas, |entries|, written)
    ensures MembersFitData(entries, datas) && written == EncodedMembers(entries, datas)
  {
    assert entries[..|entries|] == entries && datas[..|entries|] == datas;
  }

  ghost predicate AllValid(p: Primitives, members: seq<Input>) {
    forall i {:trigger ValidEntry(p, members[i].entry)} | 0 <= i < |members| :: ValidEntry(p, members[i].entry)
  }

  /** The first `i` inputs are as declared and captured. */
  ghost predicate CaptureLoop(p: Primitives, members: seq<Input>, files: map<string, Bytes>, i: nat, written: Bytes) {
    && i <= |members| && (forall k | 0 <= k < i :: Declared(p, members[k], files))
    && CapturedUpTo(EntriesOf(members), DataOf(members, files), i, written)
  }

  lemma {:induction false} CaptureStarts(p: Primitives, members: seq<Input>, files: map<string, Bytes>)
    ensures CaptureLoop(p, members, files, 0, [])
  {
  }

  lemma {:induction false} CaptureStops(p: Primitives, members: seq<Input>, files: map<string, Bytes>, written: Bytes)
    requires CaptureLoop(p, members, files, |members|, written)
    ensures AllDeclared(p, members, files)
    ensures CapturedUpTo(EntriesOf(members), DataOf(members, files), |members|, written)
  {
  }

  lemma {:induction false} CapturedTurn(p: Primitives, members: seq<Input>, files: map<string, Bytes>, i: nat,
                                        written: Bytes)
    requires i < |members| && ValidEntry(p, members[i].entry) && Declared(p, members[i], files)
    requires CapturedUpTo(EntriesOf(members), DataOf(members, files), i, written)
    ensures Fits(MemberName(members[i].entry.id), |files[members[i].path]|)
    ensures CapturedUpTo(EntriesOf(members), DataOf(members, files), i + 1,
                        written + EncodedEntry(MemberName(members[i].entry.id), files[members[i].path]))
  {
    EntryFits(p, members[i].entry);
    assert EntriesOf(members)[i] == members[i].entry && DataOf(members, files)[i] == files[members[i].path];
    CaptureTurn(EntriesOf(members), DataOf(members, files), i, written);
  }

  /** One input: size and digest as declared, then header, bytes and padding. */
  method CaptureOne(p: Primitives, members: seq<Input>, files: map<string, Bytes>, i: nat, written: Bytes)
    returns (longer: Option<Bytes>)
    requires i < |members| && AllValid(p, members) && CaptureLoop(p, members, files, i, written)
    ensures longer.None? ==> !AllDeclared(p, members, files)
    ensures longer.Some? ==> CaptureLoop(p, members, files, i + 1, longer.value)
  {
    if !Declared(p, members[i], files) { return None; }
    assert ValidEntry(p, members[i].entry);
    CapturedTurn(p, members, files, i, written);
    longer := Some(written + EncodedEntry(MemberName(members[i].entry.id), files[members[i].path]));
  }

  /** Capture every input in order, checking size and digest. */
  method Capture(p: Primitives, members: seq<Input>, files: map<string, Bytes>) returns (captured: Option<Bytes>)
    requires AllValid(p, members)
    ensures captured.Some? <==> AllDeclared(p, members, files)
    ensures captured.Some? ==> CapturedUpTo(EntriesOf(members), DataOf(members, files), |members|, captured.value)
  {
    var written: Bytes := [];
    CaptureStarts(p, members, files);
    for i := 0 to |members|
      invariant CaptureLoop(p, members, files, i, written)
    {
      captured := CaptureOne(p, members, files, i, written);
      if captured.None? { return; }
      written := captured.value;
    }
    CaptureStops(p, members, files, written);
    captured := Some(written);
  }

  method Recheck(p: Primitives, members: seq<Input>, files: map<string, Bytes>) returns (ok: bool)
    ensures ok <==> AllDeclared(p, members, files)
  {
    for i := 0 to |members|
      invariant forall k | 0 <= k < i :: Declared(p, members[k], files)
    {
      if !Declared(p, members[i], files) { return false; }
    }
    ok := true;
  }

  /** The plan in the pinned file, for any way of parsing it. */
  function PlanIn(parse: Bytes -> Option<Plan>, planPath: string, files: map<string, Bytes>): Option<Plan> {
    if planPath in files then parse(files[planPath]) else None
  }

  /** Write the archive of a pinned, parsed plan, and read the plan and every source again. */
  method Assemble(p: Primitives, plan: Plan, planPath: string, planDigest: string, out: string,
                  before: map<string, Bytes>, after: map<string, Bytes>) returns (bytes: Option<Bytes>)
    requires p.Sound() && PlanPinned(p, planPath, planDigest, before)
    ensures bytes.Some? <==> Packable(p, plan, planPath, planDigest, out, before, after)
    ensures bytes.Some? ==>
      var m, datas := ManifestOf(plan, planDigest), DataOf(plan.members, before);
      Encodable(p, m, datas) && bytes.value == Archive(p, m, datas)
  {
    var m := ManifestOf(plan, planDigest);
    var pathsOk := CheckPaths(plan, planPath, out);
    if !pathsOk { return None; }
    var valid := Validate(p, m);
    if !valid { return None; }
    var raw := p.marshal(m);
    if |raw| > MAX_METADATA || out in before { return None; }
    ManifestFits(|raw|);
    forall i | 0 <= i < |plan.members| ensures ValidEntry(p, plan.members[i].entry) { assert ValidEntry(p, m.members[i]); }
    var body := Capture(p, plan.members, before);
    if body.None? { return None; }
    CaptureEnds(m.members, DataOf(plan.members, before), body.value);
    if planPath !in after || after[planPath] != before[planPath] { return None; }
    var same := Recheck(p, plan.members, after);
    if !same { return None; }
    var written := EncodedEntry(MANIFEST_NAME, raw) + body.value;
    ArchiveParts(p, m, DataOf(plan.members, before), written);
    bytes := Some(written + Zeros(1024));
  }

  /** Read the finished archive back, link it to its final name and read it there. */
  method Publish(p: Primitives, bytes: Bytes, run: string, links: bool, settles: bool, change: Bytes -> Bytes)
    returns (linked: bool, archive: Option<Bytes>)
    requires p.Sound() && Walked(p, bytes, p.digest(bytes), run).Some?
    ensures linked == links
    ensures archive == if links && settles && change(bytes) == bytes then Some(bytes) else None
  {
    linked, archive := false, None;
    var sum := p.digest(bytes);
    var staged := Walk(p, bytes, sum, run, null);
    if staged.None? || !links { return; }
    linked := true;
    if !settles { return; }
    var published := Walk(p, change(bytes), sum, run, null);
    if published.None? { return; }
    SameDigestSameBytes(p, bytes, change(bytes), sum, run);
    archive := Some(bytes);
  }

  /** Packing links the archive exactly when the pinned plan parses and its inputs are as declared before and after
      capture; what it links is the canonical archive of its manifest and inputs, which the walk accepts. It reports
      success exactly when the directory settles and the published bytes are read back unchanged. `before` and `after`
      are the files at capture and at the second reading. */
  method Pack(p: Primitives, parse: Bytes -> Option<Plan>, planPath: string, planDigest: string, out: string,
              before: map<string, Bytes>, after: map<string, Bytes>, links: bool, settles: bool, change: Bytes -> Bytes)
    returns (linked: bool, archive: Option<Bytes>)
    requires p.Sound()
    ensures linked <==>
      && links && PlanIn(parse, planPath, before).Some?
      && Packable(p, PlanIn(parse, planPath, before).value, planPath, planDigest, out, before, after)
    ensures !linked ==> archive.None?
    ensures linked ==>
      var plan := PlanIn(parse, planPath, before).value;
      var m, datas := ManifestOf(plan, planDigest), DataOf(plan.members, before);
      && Encodable(p, m, datas)
      && var bytes := Archive(p, m, datas);
         && archive == (if settles && change(bytes) == bytes then Some(bytes) else None)
         && Walked(p, bytes, p.digest(bytes), plan.subject.runId) == Some(Contents(m, datas))
         && LaidOut(bytes, p.marshal(m), m.members, datas)
  {
    linked, archive := false, None;
    if !PlanPinned(p, planPath, planDigest, before) { return; }
    var parsed := parse(before[planPath]);
    if parsed.None? { return; }
    var plan := parsed.value;
    var bytes := Assemble(p, plan, planPath, planDigest, out, before, after);
    if bytes.None? { return; }
    PackedIsAccepted(p, plan, planPath, planDigest, out, before, after);
    linked, archive := Publish(p, bytes.value, plan.subject.runId, links, settles, change);
  }

  /** The independent readback of a packed archive never fails. */
  lemma {:induction false} PackedIsAccepted(p: Primitives, plan: Plan, planPath: string, planDigest: string,
                                            out: string,
                         before: map<string, Bytes>, after: map<string, Bytes>)
    requires p.Sound() && Packable(p, plan, planPath, planDigest, out, before, after)
    ensures var m, datas := ManifestOf(plan, planDigest), DataOf(plan.members, before);
      && Encodable(p, m, datas) && |m.members| == |datas|
      && Walked(p, Archive(p, m, datas), p.digest(Archive(p, m, datas)), plan.subject.runId) == Some(Contents(m, datas))
      && LaidOut(Archive(p, m, datas), p.marshal(m), m.members, datas)
  {
    PackableIsGenuine(p, plan, planPath, planDigest, out, before, after);
    GenuineIsAccepted(p, ManifestOf(plan, planDigest), DataOf(plan.members, before));
    ArchiveIsLaidOut(p, ManifestOf(plan, planDigest), DataOf(plan.members, before));
  }

  /** Every input's file holds what the input held. */
  predicate InputsBack(inputs: seq<Input>, before: map<string, Bytes>, files: map<string, Bytes>) {
    forall i | 0 <= i < |inputs| ::
      && inputs[i].path in before && FileOf(inputs[i].entry.id) in files
      && files[FileOf(inputs[i].entry.id)] == before[inputs[i].path]
  }

  /** What was packed is restored: every declared member's file holds exactly that input's bytes, and nothing else
      is there but the manifest. */
  lemma {:induction false} PackedIsRestored(p: Primitives, plan: Plan, planPath: string, planDigest: string,
                                            out: string,
                         before: map<string, Bytes>, after: map<string, Bytes>)
    requires p.Sound() && Packable(p, plan, planPath, planDigest, out, before, after)
    ensures var m, datas := ManifestOf(plan, planDigest), DataOf(plan.members, before);
      var files := RestoredFiles(p, Contents(m, datas));
      && Encodable(p, m, datas)
      && Walked(p, Archive(p, m, datas), p.digest(Archive(p, m, datas)), plan.subject.runId) == Some(Contents(m, datas))
      && InputsBack(plan.members, before, files)
      && "manifest.json" in files && files["manifest.json"] == p.marshal(m) && |files| == |plan.members| + 1
  {
    var m, datas := ManifestOf(plan, planDigest), DataOf(plan.members, before);
    PackedIsAccepted(p, plan, planPath, planDigest, out, before, after);
    RestoredInputs(p, plan.members, m, datas, before);
  }

  lemma {:induction false} RestoredInputs(p: Primitives, inputs: seq<Input>, m: Manifest, datas: seq<Bytes>,
                                          before: map<string, Bytes>)
    requires m.members == EntriesOf(inputs) && Ascending(m.members) && |inputs| >= 1
    requires AllDeclared(p, inputs, before) && datas == DataOf(inputs, before)
    ensures var files := RestoredFiles(p, Contents(m, datas));
      && InputsBack(inputs, before, files)
      && "manifest.json" in files && files["manifest.json"] == p.marshal(m) && |files| == |inputs| + 1
  {
    DeclaredFiles(inputs, m.members, datas);
    ManifestIsNew(m.members, datas);
    forall i | 0 <= i < |inputs|
      ensures datas[i] == before[inputs[i].path] && FileOf(inputs[i].entry.id) != "manifest.json"
    {
      assert Declared(p, inputs[i], before) && FileOf(inputs[i].entry.id)[0] == 'f';
    }
  }

  lemma {:induction false} DeclaredFiles(inputs: seq<Input>, members: seq<Entry>, datas: seq<Bytes>)
    requires members == EntriesOf(inputs) && |members| == |datas| >= 1 && Ascending(members)
    ensures |MemberFiles(members, datas)| == |members|
    ensures forall i | 0 <= i < |inputs| ::
      FileOf(inputs[i].entry.id) in MemberFiles(members, datas) && MemberFiles(members, datas)[FileOf(inputs[i].entry.id)] == datas[i]
  {
    forall i | 0 <= i < |inputs|
      ensures FileOf(inputs[i].entry.id) in MemberFiles(members, datas)
      ensures MemberFiles(members, datas)[FileOf(inputs[i].entry.id)] == datas[i]
    {
      MemberFileContents(members, datas, i);
    }
    MemberFileContents(members, datas, 0);
  }
}

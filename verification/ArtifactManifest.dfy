/** The manifest of an artifact archive: its rules, its size formula and the bounds they imply. */
module ArtifactManifest {
  import opened Options
  import opened UstarFormat
  import DeliverySubject

  const MAX_MEMBERS: nat := 128
  const MAX_FILE: nat := 1073741824
  const MAX_TOTAL: nat := 4294967296
  const MAX_METADATA: nat := 262144
  const MAX_ARCHIVE: nat := MAX_TOTAL + MAX_METADATA + (MAX_MEMBERS + 4) * 1024
  const COVERAGE := "EXPLICIT_DECLARED_MEMBERS_ONLY"

  datatype Subject = Subject(runId: string, executionId: string, taskDigest: string, inputDigest: string, baseCommit: string)
  datatype Entry = Entry(id: string, kind: string, size: int, digest: string)
  datatype Manifest = Manifest(version: int, coverage: string, subject: Subject, planDigest: string, members: seq<Entry>)

  /** The digest of bytes, the shape of a digest, and the JSON printer and strict parser of manifests. */
  datatype Primitives = Primitives(digest: seq<Byte> -> string, isDigest: string -> bool,
                                   marshal: Manifest -> seq<Byte>, unmarshal: seq<Byte> -> Option<Manifest>)
  {
    ghost predicate Sound() {
      && (forall a, b :: digest(a) == digest(b) ==> a == b)
      && (forall a :: isDigest(digest(a)))
      && (forall m :: marshal(m) != [] && unmarshal(marshal(m)) == Some(m))
    }
  }

  const KINDS: set<string> := {"source", "git-bundle", "runtime-record", "runtime-binary", "build-output", "database-backup",
                               "distribution", "qualification", "test-evidence", "context"}

  predicate IdStart(c: char) { 'a' <= c <= 'z' || '0' <= c <= '9' }

  predicate ValidId(id: string) {
    && 1 <= |id| <= 90 && IdStart(id[0])
    && forall i | 0 <= i < |id| :: IdStart(id[i]) || id[i] == '.' || id[i] == '_' || id[i] == '-'
  }

  predicate Hex(s: string, n: nat) {
    |s| == n && forall c | c in s :: '0' <= c <= '9' || 'a' <= c <= 'f'
  }

  predicate ValidSubject(p: Primitives, s: Subject) {
    && 1 <= |s.runId| <= 256 && (forall c | c in s.runId :: '!' <= c <= '~')
    && Hex(s.executionId, 64) && p.isDigest(s.taskDigest) && p.isDigest(s.inputDigest) && Hex(s.baseCommit, 40)
  }

  predicate ValidEntry(p: Primitives, e: Entry) {
    ValidId(e.id) && 0 <= e.size <= 1_073_741_824 && p.isDigest(e.digest) && e.kind in KINDS
  }

  predicate Ascending(members: seq<Entry>) {
    forall i | 0 < i < |members| :: DeliverySubject.StringLess(members[i - 1].id, members[i].id)
  }

  function PayloadBytes(members: seq<Entry>): int {
    if members == [] then 0 else PayloadBytes(members[..|members| - 1]) + members[|members| - 1].size
  }

  predicate Valid(p: Primitives, m: Manifest) {
    && m.version == 1 && m.coverage == "EXPLICIT_DECLARED_MEMBERS_ONLY" && p.isDigest(m.planDigest) && ValidSubject(p, m.subject)
    && 1 <= |m.members| <= 128 && ValidMembers(p, m.members)
  }

  predicate ValidMembers(p: Primitives, members: seq<Entry>) {
    && (forall i | 0 <= i < |members| :: ValidEntry(p, members[i]))
    && Ascending(members) && PayloadBytes(members) <= 4_294_967_296
  }

  lemma {:induction false} PayloadGrows(members: seq<Entry>, k: nat)
    requires k <= |members| && forall i | 0 <= i < |members| :: members[i].size >= 0
    ensures 0 <= PayloadBytes(members[..k]) <= PayloadBytes(members)
  {
    if k < |members| {
      var front := members[..|members| - 1];
      PayloadGrows(front, k);
      assert front[..k] == members[..k];
    } else {
      assert members[..k] == members;
      PayloadNonNegative(members);
    }
  }

  lemma {:induction false} PayloadNonNegative(members: seq<Entry>)
    requires forall i | 0 <= i < |members| :: members[i].size >= 0
    ensures PayloadBytes(members) >= 0
  {
    if members != [] { PayloadNonNegative(members[..|members| - 1]); }
  }

  lemma {:induction false} PayloadAdds(a: seq<Entry>, b: seq<Entry>)
    ensures PayloadBytes(a + b) == PayloadBytes(a) + PayloadBytes(b)
  {
    if b == [] {
      assert a + b == a;
    } else {
      assert (a + b)[..|a + b| - 1] == a + b[..|b| - 1];
      PayloadAdds(a, b[..|b| - 1]);
    }
  }

  method Validate(p: Primitives, m: Manifest) returns (ok: bool)
    ensures ok <==> Valid(p, m)
  {
    if m.version != 1 || m.coverage != COVERAGE || !p.isDigest(m.planDigest) || !ValidSubject(p, m.subject)
       || |m.members| == 0 || |m.members| > MAX_MEMBERS { return false; }
    ok := ValidateMembers(p, m.members);
  }

  /** The first `i` members are fine, `last` is the name of the last of them and `total` their payload. */
  ghost predicate PassedUpTo(p: Primitives, members: seq<Entry>, i: nat, last: string, total: int) {
    && i <= |members| && (forall k | 0 <= k < i :: ValidEntry(p, members[k]))
    && (forall k | 0 < k < i :: DeliverySubject.StringLess(members[k - 1].id, members[k].id))
    && last == (if i == 0 then "" else members[i - 1].id)
    && total == PayloadBytes(members[..i]) <= MAX_TOTAL
  }

  lemma {:induction false} OneMorePassed(p: Primitives, members: seq<Entry>, i: nat, last: string, total: int)
    requires PassedUpTo(p, members, i, last, total) && i < |members|
    requires ValidEntry(p, members[i]) && DeliverySubject.StringLess(last, members[i].id)
    ensures total + members[i].size == PayloadBytes(members[..i + 1])
    ensures total + members[i].size <= MAX_TOTAL ==> PassedUpTo(p, members, i + 1, members[i].id, total + members[i].size)
  {
    assert members[..i + 1][..i] == members[..i] && members[..i + 1][i] == members[i];
  }

  lemma {:induction false} OutOfOrder(p: Primitives, members: seq<Entry>, i: nat, last: string, total: int)
    requires PassedUpTo(p, members, i, last, total) && i < |members|
    requires ValidEntry(p, members[i]) && !DeliverySubject.StringLess(last, members[i].id)
    ensures !ValidMembers(p, members)
  {
  }

  lemma {:induction false} AllPassed(p: Primitives, members: seq<Entry>, last: string, total: int)
    requires PassedUpTo(p, members, |members|, last, total)
    ensures ValidMembers(p, members)
  {
    assert members[..|members|] == members;
  }

  /** One pass, with the last name and the running total, decides the members. */
  method ValidateMembers(p: Primitives, members: seq<Entry>) returns (ok: bool)
    ensures ok <==> ValidMembers(p, members)
  {
    var last: string, total := "", 0;
    for i := 0 to |members|
      invariant PassedUpTo(p, members, i, last, total)
    {
      var e := members[i];
      if !ValidEntry(p, e) { return false; }
      if !DeliverySubject.StringLess(last, e.id) {
        OutOfOrder(p, members, i, last, total);
        return false;
      }
      OneMorePassed(p, members, i, last, total);
      total := total + e.size;
      if total > MAX_TOTAL {
        TotalTooLarge(p, members, i + 1);
        return false;
      }
      last := e.id;
    }
    AllPassed(p, members, last, total);
    ok := true;
  }

  lemma {:induction false} TotalTooLarge(p: Primitives, members: seq<Entry>, k: nat)
    requires k <= |members| && PayloadBytes(members[..k]) > MAX_TOTAL
    ensures !ValidMembers(p, members)
  {
    if ValidMembers(p, members) { PayloadGrows(members, k); }
  }

  /** Members are in strict order, so no two share a name. */
  lemma {:induction false} AscendingIsStrict(members: seq<Entry>, i: nat, j: nat)
    requires Ascending(members) && i < j < |members|
    ensures DeliverySubject.StringLess(members[i].id, members[j].id) && members[i].id != members[j].id
    decreases j - i
  {
    if i + 1 < j {
      AscendingIsStrict(members, i, j - 1);
      DeliverySubject.StringLessTransitive(members[i].id, members[j - 1].id, members[j].id);
    }
    DeliverySubject.StringOrder(members[i].id, members[j].id);
  }

  // ---- sizes ----

  function Blocks(n: nat): nat { (n + 511) / 512 * 512 }

  function MembersSize(members: seq<Entry>): nat
    requires forall i | 0 <= i < |members| :: members[i].size >= 0
  {
    if members == [] then 0
    else MembersSize(members[..|members| - 1]) + BLOCK + Blocks(members[|members| - 1].size)
  }

  function TarSizeOf(members: seq<Entry>, raw: nat): nat
    requires forall i | 0 <= i < |members| :: members[i].size >= 0
  {
    BLOCK + Blocks(raw) + 1024 + MembersSize(members)
  }

  method TarSize(m: Manifest, raw: seq<Byte>) returns (n: nat)
    requires forall i | 0 <= i < |m.members| :: m.members[i].size >= 0
    ensures n == TarSizeOf(m.members, |raw|)
  {
    n := BLOCK + Blocks(|raw|) + 1024;
    for i := 0 to |m.members|
      invariant n == BLOCK + Blocks(|raw|) + 1024 + MembersSize(m.members[..i])
    {
      assert m.members[..i + 1][..i] == m.members[..i];
      n := n + BLOCK + Blocks(m.members[i].size);
    }
    assert m.members[..|m.members|] == m.members;
  }

  lemma {:induction false} MembersSizeBound(members: seq<Entry>)
    requires forall i | 0 <= i < |members| :: members[i].size >= 0
    ensures MembersSize(members) <= PayloadBytes(members) + 1023 * |members|
  {
    if members != [] { MembersSizeBound(members[..|members| - 1]); }
  }

  /** No valid manifest describes an archive over the limit. */
  lemma {:induction false} ValidFitsArchive(p: Primitives, m: Manifest, raw: nat)
    requires Valid(p, m) && raw <= MAX_METADATA
    ensures TarSizeOf(m.members, raw) <= MAX_ARCHIVE
  {
    MembersSizeBound(m.members);
  }

  function MemberName(id: string): seq<Byte> { Ascii("files/") + Ascii(id) }

  const MANIFEST_NAME: seq<Byte> := Ascii("manifest.json")

  /** Every member of a valid manifest, and the manifest itself, fits the name and size fields of a ustar header. */
  lemma {:induction false} MembersFit(p: Primitives, m: Manifest, i: nat)
    requires Valid(p, m) && i < |m.members|
    ensures Fits(MemberName(m.members[i].id), m.members[i].size)
  {
    assert ValidEntry(p, m.members[i]);
    SmallPowers();
  }

  lemma {:induction false} ManifestFits(raw: nat)
    requires raw <= MAX_METADATA
    ensures Fits(MANIFEST_NAME, raw)
  {
    SmallPowers();
  }
}

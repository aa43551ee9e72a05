/** Context bundles: references, the manifest and its printed form, and what makes a directory a complete bundle. */
module BundleModel {
  import opened Options

  /** Bytes as characters; everything the program prints itself is ASCII. */
  type Bytes = seq<char>

  datatype ContextRef = ContextRef(source: string, kind: string, version: string, digest: string, trust: string)

  /** The frozen run input. `profiles` stands for the four profile names, `complete` for their presence. */
  datatype RunInput = RunInput(runId: string, task: string, refs: seq<ContextRef>, profiles: string, complete: bool)

  datatype Entry = Entry(ref: ContextRef, file: string, size: nat)
  datatype Manifest = Manifest(runInputDigest: string, entries: seq<Entry>)

  datatype Limits = Limits(entryBytes: nat, totalBytes: nat)

  const MAX_LIMIT: nat := 1073741824
  const MAX_REFS: nat := 64
  const READ_LIMIT: nat := 131072

  // ---- references ----

  predicate Alphanumeric(c: char) { 'a' <= c <= 'z' || 'A' <= c <= 'Z' || '0' <= c <= '9' }

  predicate Name(s: string, extra: string, limit: nat) {
    1 <= |s| <= limit && Alphanumeric(s[0]) && forall i | 0 <= i < |s| :: Alphanumeric(s[i]) || s[i] in extra
  }

  predicate ValidDigest(d: string) {
    |d| == 71 && d[..7] == "sha256:" && forall i | 7 <= i < 71 :: '0' <= d[i] <= '9' || 'a' <= d[i] <= 'f'
  }

  predicate ValidRef(r: ContextRef) {
    && Name(r.source, "._:-", 256) && Name(r.version, "._+-", 128)
    && r.kind in ["DOCUMENT", "SKILL", "LOG", "EVIDENCE"] && ValidDigest(r.digest) && r.trust in ["APPROVED", "UNTRUSTED"]
  }

  function Key(r: ContextRef): (string, string) { (r.kind, r.source) }

  predicate ValidRefs(refs: seq<ContextRef>) {
    && |refs| <= 64 && (forall i | 0 <= i < |refs| :: ValidRef(refs[i]))
    && forall i, j | 0 <= i < j < |refs| :: Key(refs[i]) != Key(refs[j])
  }

  /** `seen` holds the keys of the first references, and no two of those agree. */
  ghost predicate SeenUpTo(refs: seq<ContextRef>, i: nat, seen: set<(string, string)>) {
    && i <= |refs| && (forall k | 0 <= k < i :: Key(refs[k]) in seen)
    && (forall key | key in seen :: exists k :: 0 <= k < i && Key(refs[k]) == key)
    && (forall j, k | 0 <= j < k < i :: Key(refs[j]) != Key(refs[k]))
  }

  lemma {:induction false} OneMoreSeen(refs: seq<ContextRef>, i: nat, seen: set<(string, string)>)
    requires SeenUpTo(refs, i, seen) && i < |refs| && Key(refs[i]) !in seen
    ensures SeenUpTo(refs, i + 1, seen + {Key(refs[i])})
  {
    var more := seen + {Key(refs[i])};
    forall key | key in more ensures exists k :: 0 <= k < i + 1 && Key(refs[k]) == key {
      if key in seen {
        var k :| 0 <= k < i && Key(refs[k]) == key;
        assert 0 <= k < i + 1;
      } else {
        assert Key(refs[i]) == key;
      }
    }
  }

  /** One pass with the set of names seen. */
  method ValidateContextRefs(refs: seq<ContextRef>) returns (ok: bool)
    ensures ok <==> ValidRefs(refs)
  {
    if |refs| > MAX_REFS { return false; }
    var seen: set<(string, string)> := {};
    for i := 0 to |refs|
      invariant SeenUpTo(refs, i, seen) && forall k | 0 <= k < i :: ValidRef(refs[k])
    {
      if !ValidRef(refs[i]) { return false; }
      if Key(refs[i]) in seen { return false; }
      OneMoreSeen(refs, i, seen);
      seen := seen + {Key(refs[i])};
    }
    ok := true;
  }

  // ---- file names ----

  function Digit(n: nat): char requires n < 10 { '0' + n as char }

  function Decimal(n: nat): string {
    if n < 10 then [Digit(n)] else Decimal(n / 10) + [Digit(n % 10)]
  }

  function ThreeDigits(i: nat): string { [Digit(i / 100 % 10), Digit(i / 10 % 10), Digit(i % 10)] }

  /** The entry's place and the hexadecimal part of its digest. */
  function EntryName(i: nat, r: ContextRef): string {
    ThreeDigits(i) + "-" + (if |r.digest| >= 7 && r.digest[..7] == "sha256:" then r.digest[7..] else r.digest) + ".bin"
  }

  const MANIFEST_FILE := "manifest.json"

  lemma {:induction false} EntryNamesDiffer(i: nat, a: ContextRef, j: nat, b: ContextRef)
    requires i < 1000 && j < 1000 && i != j
    ensures EntryName(i, a) != EntryName(j, b)
  {
    PlaceBegins(i, a);
    PlaceBegins(j, b);
    DigitsDiffer(i, j);
  }

  lemma {:induction false} PlaceBegins(i: nat, r: ContextRef)
    ensures var name := EntryName(i, r);
      |name| >= 3 && name[0] == Digit(i / 100 % 10) && name[1] == Digit(i / 10 % 10) && name[2] == Digit(i % 10)
  {
  }

  lemma {:induction false} DigitsDiffer(i: nat, j: nat)
    requires i < 1000 && j < 1000 && i != j
    ensures i / 100 % 10 != j / 100 % 10 || i / 10 % 10 != j / 10 % 10 || i % 10 != j % 10
  {
    ThreePlaces(i);
    ThreePlaces(j);
  }

  lemma {:induction false} ThreePlaces(i: nat)
    requires i < 1000
    ensures i == i / 100 % 10 * 100 + i / 10 % 10 * 10 + i % 10
  {
    assert i / 100 % 10 == i / 100;
    assert i / 10 == i / 100 * 10 + i / 10 % 10;
  }

  /** The three digits are the decimal place, and the rest is the digest's hexadecimal part. */
  lemma {:induction false} EntryNameLayout(i: nat, r: ContextRef)
    requires i < 1000 && ValidDigest(r.digest)
    ensures var name := EntryName(i, r);
      && |name| == 72 && (forall k | 0 <= k < 3 :: '0' <= name[k] <= '9') && "sha256:" + name[4..68] == r.digest
      && 100 * (name[0] as int - 48) + 10 * (name[1] as int - 48) + (name[2] as int - 48) == i
      && name[3] == '-' && name[68..] == ".bin"
  {
    var name := EntryName(i, r);
    ThreePlaces(i);
    assert name == ThreeDigits(i) + "-" + r.digest[7..] + ".bin";
    assert name[4..68] == r.digest[7..] && r.digest == r.digest[..7] + r.digest[7..];
  }

  lemma {:induction false} EntryIsNotManifest(i: nat, r: ContextRef)
    ensures EntryName(i, r) != MANIFEST_FILE
  {
    PlaceBegins(i, r);
  }

  // ---- the printed manifest ----

  function Quoted(s: string): string { "\"" + s + "\"" }

  function PrintRef(r: ContextRef): string {
    "{\"source\":" + Quoted(r.source) + ",\"type\":" + Quoted(r.kind) + ",\"version\":" + Quoted(r.version)
    + ",\"digest\":" + Quoted(r.digest) + ",\"trust\":" + Quoted(r.trust) + "}"
  }

  function PrintEntry(e: Entry): string {
    "{\"ref\":" + PrintRef(e.ref) + ",\"file\":" + Quoted(e.file) + ",\"size\":" + Decimal(e.size) + "}"
  }

  /** The parts with commas between them. */
  function Commas(parts: seq<string>): string {
    if parts == [] then "" else if |parts| == 1 then parts[0] else parts[0] + "," + Commas(parts[1..])
  }

  lemma {:induction false} CommasBetween(a: seq<string>, b: seq<string>)
    requires a != [] && b != []
    ensures Commas(a + b) == Commas(a) + "," + Commas(b)
  {
    assert (a + b)[1..] == a[1..] + b;
    if |a| > 1 { CommasBetween(a[1..], b); }
  }

  function PrintEntries(entries: seq<Entry>): string {
    Commas(seq(|entries|, i requires 0 <= i < |entries| => PrintEntry(entries[i])))
  }

  function PrintManifest(m: Manifest): Bytes {
    "{\"schema_version\":1,\"run_input_digest\":" + Quoted(m.runInputDigest) + ",\"entries\":[" + PrintEntries(m.entries) + "]}"
  }

  lemma {:induction false} DecimalLength(n: nat, d: nat)
    requires d >= 1 && n < Pow10(d)
    ensures |Decimal(n)| <= d
  {
    if n >= 10 { DecimalLength(n / 10, d - 1); }
  }

  /** The value of decimal digits. */
  function DecimalValue(s: string): int {
    if s == "" then 0 else 10 * DecimalValue(s[..|s| - 1]) + (s[|s| - 1] as int - 48)
  }

  /** A size is printed in decimal digits of its value, without leading zeros. */
  lemma {:induction false} DecimalExactly(n: nat)
    ensures var s := Decimal(n);
      s != "" && (forall c | c in s :: '0' <= c <= '9') && DecimalValue(s) == n && (s[0] == '0' ==> n == 0)
  {
    if n >= 10 {
      DecimalExactly(n / 10);
      assert Decimal(n)[..|Decimal(n)| - 1] == Decimal(n / 10);
    } else {
      assert Decimal(n)[..0] == "" && DecimalValue("") == 0;
    }
  }

  function Pow10(d: nat): nat { if d == 0 then 1 else 10 * Pow10(d - 1) }

  /** An entry of a manifest this program writes. */
  predicate EntryFits(e: Entry) {
    ValidRef(e.ref) && |e.file| == 72 && e.size <= MAX_LIMIT
  }

  lemma {:induction false} EntryLength(e: Entry)
    requires EntryFits(e)
    ensures |PrintEntry(e)| <= 640
  {
    assert Pow10(5) == 100000;
    assert Pow10(10) == 10000000000;
    DecimalLength(e.size, 10);
    assert |PrintRef(e.ref)| <= 540;
  }

  lemma {:induction false} CommasLength(parts: seq<string>, n: nat)
    requires forall i | 0 <= i < |parts| :: |parts[i]| <= n
    ensures |Commas(parts)| <= (n + 1) * |parts|
  {
    if parts != [] { CommasLength(parts[1..], n); }
  }

  lemma {:induction false} EntriesLength(entries: seq<Entry>)
    requires forall i | 0 <= i < |entries| :: EntryFits(entries[i])
    ensures |PrintEntries(entries)| <= 641 * |entries|
  {
    var parts := seq(|entries|, i requires 0 <= i < |entries| => PrintEntry(entries[i]));
    forall i | 0 <= i < |parts| ensures |parts[i]| <= 640 { EntryLength(entries[i]); }
    CommasLength(parts, 640);
  }

  /** A manifest for up to 64 valid references always fits what the verifier is willing to read. */
  lemma {:induction false} ManifestFitsReadLimit(m: Manifest)
    requires |m.entries| <= MAX_REFS && ValidDigest(m.runInputDigest)
    requires forall i | 0 <= i < |m.entries| :: EntryFits(m.entries[i])
    ensures |PrintManifest(m)| <= READ_LIMIT
  {
    EntriesLength(m.entries);
  }

  // ---- complete bundles ----

  /** `digest` hashes bytes, `inputDigest` names a run input, `decode` is the strict manifest decoder. */
  datatype Host = Host(limits: Limits, digest: Bytes -> string, inputDigest: RunInput -> string, decode: Bytes -> Option<Manifest>)
  {
    predicate LimitsOk() {
      1 <= limits.entryBytes <= MAX_LIMIT && 1 <= limits.totalBytes <= MAX_LIMIT
    }

    /** Digests have their form, and a manifest over valid references is read back from its print. */
    ghost predicate Sound() {
      && LimitsOk()
      && (forall input :: ValidDigest(inputDigest(input)))
      && (forall m | Printable(m) :: decode(PrintManifest(m)) == Some(m))
    }
  }

  ghost predicate Printable(m: Manifest) {
    ValidDigest(m.runInputDigest) && forall i | 0 <= i < |m.entries| ::
      ValidRef(m.entries[i].ref) && m.entries[i].file == EntryName(i, m.entries[i].ref)
  }

  datatype File = File(content: Bytes, sealed: bool)
  datatype Directory = Directory(files: map<string, File>, sealed: bool)

  function EntryNames(refs: seq<ContextRef>, n: nat): set<string>
    requires n <= |refs|
  {
    if n == 0 then {} else EntryNames(refs, n - 1) + {EntryName(n - 1, refs[n - 1])}
  }

  /** The entries whose files a directory holds for the first references. */
  function EntriesIn(d: Directory, refs: seq<ContextRef>): seq<Entry>
    requires forall k | 0 <= k < |refs| :: EntryName(k, refs[k]) in d.files
  {
    seq(|refs|, k requires 0 <= k < |refs| => Entry(refs[k], EntryName(k, refs[k]), |d.files[EntryName(k, refs[k])].content|))
  }

  function TotalSize(entries: seq<Entry>): nat {
    if entries == [] then 0 else TotalSize(entries[..|entries| - 1]) + entries[|entries| - 1].size
  }

  lemma {:induction false} SizesAdd(a: seq<Entry>, b: seq<Entry>)
    ensures TotalSize(a + b) == TotalSize(a) + TotalSize(b)
  {
    if b == [] {
      assert a + b == a;
    } else {
      assert (a + b)[..|a + b| - 1] == a + b[..|b| - 1];
      SizesAdd(a, b[..|b| - 1]);
    }
  }

  /** One context file: the bytes its reference promises, within the entry limit, read-only. */
  predicate EntryFileOk(host: Host, d: Directory, k: nat, r: ContextRef) {
    && EntryName(k, r) in d.files
    && var f := d.files[EntryName(k, r)];
       f.sealed && host.digest(f.content) == r.digest && |f.content| <= host.limits.entryBytes
  }

  /** Exactly one file per reference and the canonical manifest describing them, all read-only and within limits. */
  predicate Complete(host: Host, input: RunInput, d: Directory) {
    && d.sealed && d.files.Keys == EntryNames(input.refs, |input.refs|) + {MANIFEST_FILE}
    && (forall k | 0 <= k < |input.refs| :: EntryFileOk(host, d, k, input.refs[k]))
    && TotalSize(EntriesIn(d, input.refs)) <= host.limits.totalBytes
    && d.files[MANIFEST_FILE] == File(PrintManifest(Manifest(host.inputDigest(input), EntriesIn(d, input.refs))), true)
  }

  /** What an input must be for any bundle to be made or used. */
  predicate Usable(input: RunInput) {
    && input.runId != "" && ValidDigest(input.task) && input.complete && ValidRefs(input.refs)
    && forall k | 0 <= k < |input.refs| :: input.refs[k].trust == "APPROVED"
  }

  /** The last component of a bundle's path. */
  function BundleName(host: Host, input: RunInput): string {
    var d := host.inputDigest(input);
    if |d| >= 7 && d[..7] == "sha256:" then d[7..] else d
  }

  /** The name is the run input's digest without its prefix, so bundles share a name exactly when their inputs share
      a digest. */
  lemma {:induction false} BundleNames(host: Host, a: RunInput, b: RunInput)
    requires host.Sound()
    ensures "sha256:" + BundleName(host, a) == host.inputDigest(a) && |BundleName(host, a)| == 64
    ensures BundleName(host, a) == BundleName(host, b) <==> host.inputDigest(a) == host.inputDigest(b)
  {
    var d, e := host.inputDigest(a), host.inputDigest(b);
    assert ValidDigest(d) && ValidDigest(e);
    assert d == d[..7] + d[7..] && e == e[..7] + e[7..];
  }
}

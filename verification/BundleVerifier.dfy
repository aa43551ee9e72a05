/** The verifier: it accepts exactly the complete bundles of its input. */
module BundleVerifier {
  import opened Options
  import opened BundleModel

  type Authorizer = ContextRef -> bool

  predicate Authorized(allow: Authorizer, refs: seq<ContextRef>) {
    forall k | 0 <= k < |refs| :: allow(refs[k])
  }

  /** Validate the input and authorize every reference before any byte is read. */
  method Prepare(host: Host, input: RunInput, allow: Authorizer) returns (ok: bool)
    ensures ok <==> Usable(input) && Authorized(allow, input.refs)
  {
    if input.runId == "" || !ValidDigest(input.task) || !input.complete { return false; }
    var valid := ValidateContextRefs(input.refs);
    if !valid { return false; }
    for i := 0 to |input.refs|
      invariant forall k | 0 <= k < i :: input.refs[k].trust == "APPROVED" && allow(input.refs[k])
    {
      if input.refs[i].trust != "APPROVED" { return false; }
      if !allow(input.refs[i]) { return false; }
    }
    ok := true;
  }

  function ManifestIn(host: Host, input: RunInput, d: Directory): Manifest
    requires forall k | 0 <= k < |input.refs| :: EntryName(k, input.refs[k]) in d.files
  {
    Manifest(host.inputDigest(input), EntriesIn(d, input.refs))
  }

  lemma {:induction false} TotalGrows(entries: seq<Entry>, n: nat)
    requires n <= |entries|
    ensures TotalSize(entries[..n]) <= TotalSize(entries)
  {
    if n < |entries| {
      TotalGrows(entries[..|entries| - 1], n);
      assert entries[..|entries| - 1][..n] == entries[..n];
    } else {
      assert entries[..n] == entries;
    }
  }

  lemma {:induction false} EntryNameLength(k: nat, r: ContextRef)
    requires ValidDigest(r.digest)
    ensures |EntryName(k, r)| == 72
  {
    assert |r.digest[7..]| == 64;
  }

  /** The manifest of a complete bundle fits the read limit and decodes to the entries its files hold. */
  lemma {:induction false} CompleteManifest(host: Host, input: RunInput, d: Directory)
    requires host.Sound() && Usable(input) && Complete(host, input, d)
    ensures var m := ManifestIn(host, input, d);
      |PrintManifest(m)| <= READ_LIMIT && host.decode(PrintManifest(m)) == Some(m) && |m.entries| == |input.refs|
  {
    var m := ManifestIn(host, input, d);
    forall k | 0 <= k < |m.entries| ensures EntryFits(m.entries[k]) && ValidRef(m.entries[k].ref) {
      assert EntryFileOk(host, d, k, input.refs[k]);
      EntryNameLength(k, input.refs[k]);
    }
    assert Printable(m);
    ManifestFitsReadLimit(m);
  }

  lemma {:induction false} NameIsAmong(refs: seq<ContextRef>, k: nat, n: nat)
    requires k < n <= |refs|
    ensures EntryName(k, refs[k]) in EntryNames(refs, n)
  {
    if k < n - 1 { NameIsAmong(refs, k, n - 1); }
  }

  lemma {:induction false} NameIsNew(refs: seq<ContextRef>, n: nat, name: string)
    requires n <= |refs| && forall k | 0 <= k < n :: EntryName(k, refs[k]) != name
    ensures name !in EntryNames(refs, n)
  {
    if n > 0 { NameIsNew(refs, n - 1, name); }
  }

  lemma {:induction false} NamesWithin(refs: seq<ContextRef>, n: nat, keys: set<string>)
    requires n <= |refs| && forall k | 0 <= k < n :: EntryName(k, refs[k]) in keys
    ensures EntryNames(refs, n) <= keys
  {
    if n > 0 { NamesWithin(refs, n - 1, keys); }
  }

  lemma {:induction false} NextNameIsNew(refs: seq<ContextRef>, n: nat)
    requires n < |refs| <= MAX_REFS
    ensures EntryName(n, refs[n]) !in EntryNames(refs, n)
  {
    forall k | 0 <= k < n ensures EntryName(k, refs[k]) != EntryName(n, refs[n]) {
      EntryNamesDiffer(k, refs[k], n, refs[n]);
    }
    NameIsNew(refs, n, EntryName(n, refs[n]));
  }

  lemma {:induction false} NamesCount(refs: seq<ContextRef>, n: nat)
    requires n <= |refs| <= MAX_REFS
    ensures |EntryNames(refs, n)| == n && MANIFEST_FILE !in EntryNames(refs, n)
  {
    if n > 0 {
      NamesCount(refs, n - 1);
      NextNameIsNew(refs, n - 1);
      EntryIsNotManifest(n - 1, refs[n - 1]);
    }
  }

  /** With every expected file there, the right number of files means nothing else is. */
  lemma {:induction false} NothingExtra(refs: seq<ContextRef>, keys: set<string>)
    requires |refs| <= MAX_REFS && EntryNames(refs, |refs|) + {MANIFEST_FILE} <= keys
    ensures |keys| == |refs| + 1 <==> keys == EntryNames(refs, |refs|) + {MANIFEST_FILE}
  {
    var expected := EntryNames(refs, |refs|) + {MANIFEST_FILE};
    NamesCount(refs, |refs|);
    assert |expected| == |refs| + 1;
    assert keys == expected + (keys - expected) && |keys| == |expected| + |keys - expected|;
  }

  /** What the loop checks of entry `k`. */
  predicate EntryAccepted(host: Host, d: Directory, k: nat, r: ContextRef, e: Entry) {
    && e.ref == r && e.file == EntryName(k, r) && e.size <= host.limits.entryBytes
    && e.file in d.files && d.files[e.file].sealed
    && |d.files[e.file].content| == e.size && host.digest(d.files[e.file].content) == r.digest
  }

  predicate EntriesAccepted(host: Host, d: Directory, refs: seq<ContextRef>, entries: seq<Entry>) {
    && |entries| == |refs| && (forall k | 0 <= k < |refs| :: EntryAccepted(host, d, k, refs[k], entries[k]))
    && TotalSize(entries) <= host.limits.totalBytes
  }

  lemma {:induction false} AcceptedEntriesAreThere(host: Host, d: Directory, refs: seq<ContextRef>, entries: seq<Entry>)
    requires EntriesAccepted(host, d, refs, entries)
    ensures forall k | 0 <= k < |refs| :: EntryFileOk(host, d, k, refs[k])
    ensures EntryNames(refs, |refs|) <= d.files.Keys && EntriesIn(d, refs) == entries
  {
    forall k | 0 <= k < |refs| ensures EntryFileOk(host, d, k, refs[k]) && EntriesIn(d, refs)[k] == entries[k] {
      assert EntryAccepted(host, d, k, refs[k], entries[k]);
    }
    NamesWithin(refs, |refs|, d.files.Keys);
  }

  /** The bytes of a complete bundle's manifest are those of no other manifest. */
  lemma {:induction false} ManifestIdentified(host: Host, input: RunInput, d: Directory, m: Manifest)
    requires host.Sound() && Usable(input) && Complete(host, input, d)
    requires d.files[MANIFEST_FILE].content == PrintManifest(m) && host.decode(PrintManifest(m)) == Some(m)
    ensures m == Manifest(host.inputDigest(input), EntriesIn(d, input.refs))
  {
    CompleteManifest(host, input, d);
  }

  lemma {:induction false} CompleteIsAccepted(host: Host, input: RunInput, d: Directory)
    requires |input.refs| <= MAX_REFS && Complete(host, input, d)
    ensures |d.files| == |input.refs| + 1 && EntriesAccepted(host, d, input.refs, EntriesIn(d, input.refs))
  {
    NothingExtra(input.refs, d.files.Keys);
    assert |d.files| == |d.files.Keys|;
    forall k | 0 <= k < |input.refs| ensures EntryAccepted(host, d, k, input.refs[k], EntriesIn(d, input.refs)[k]) {
      assert EntryFileOk(host, d, k, input.refs[k]);
    }
  }

  lemma {:induction false} AcceptedIsComplete(host: Host, input: RunInput, d: Directory, m: Manifest)
    requires |input.refs| <= MAX_REFS && d.sealed && MANIFEST_FILE in d.files
    requires d.files[MANIFEST_FILE] == File(PrintManifest(m), true) && m.runInputDigest == host.inputDigest(input)
    requires |d.files| == |input.refs| + 1 && EntriesAccepted(host, d, input.refs, m.entries)
    ensures Complete(host, input, d)
  {
    AcceptedEntriesAreThere(host, d, input.refs, m.entries);
    assert |d.files| == |d.files.Keys|;
    NothingExtra(input.refs, d.files.Keys);
    assert m == Manifest(host.inputDigest(input), EntriesIn(d, input.refs));
  }

  /** A directory is a complete bundle exactly when its manifest is canonical for the input and every entry passes. */
  lemma {:induction false} CompleteExactlyAccepted(host: Host, input: RunInput, d: Directory, m: Manifest)
    requires host.Sound() && Usable(input) && MANIFEST_FILE in d.files
    requires d.sealed && d.files[MANIFEST_FILE].sealed && d.files[MANIFEST_FILE].content == PrintManifest(m)
    requires host.decode(PrintManifest(m)) == Some(m)
    ensures Complete(host, input, d) <==>
      m.runInputDigest == host.inputDigest(input) && |d.files| == |input.refs| + 1 && EntriesAccepted(host, d, input.refs, m.entries)
  {
    if Complete(host, input, d) {
      ManifestIdentified(host, input, d, m);
      CompleteIsAccepted(host, input, d);
    } else if m.runInputDigest == host.inputDigest(input) && |d.files| == |input.refs| + 1 && EntriesAccepted(host, d, input.refs, m.entries) {
      AcceptedIsComplete(host, input, d, m);
    }
  }

  method VerifyEntries(host: Host, d: Directory, refs: seq<ContextRef>, entries: seq<Entry>) returns (ok: bool)
    requires |entries| == |refs|
    ensures ok <==> EntriesAccepted(host, d, refs, entries)
  {
    var total := 0;
    for i := 0 to |refs|
      invariant forall k | 0 <= k < i :: EntryAccepted(host, d, k, refs[k], entries[k])
      invariant total == TotalSize(entries[..i]) <= host.limits.totalBytes
    {
      assert entries[..i + 1][..i] == entries[..i];
      total := total + entries[i].size;
      if total > host.limits.totalBytes { TotalGrows(entries, i + 1); return false; }
      ok := VerifyEntry(host, d, i, refs[i], entries[i]);
      if !ok { return; }
    }
    assert entries[..|refs|] == entries;
    ok := true;
  }

  method VerifyEntry(host: Host, d: Directory, i: nat, ref: ContextRef, entry: Entry) returns (ok: bool)
    ensures ok <==> EntryAccepted(host, d, i, ref, entry)
  {
    if entry.ref != ref || entry.file != EntryName(i, ref) || entry.size > host.limits.entryBytes { return false; }
    if entry.file !in d.files || !d.files[entry.file].sealed { return false; }
    var content := d.files[entry.file].content;
    ok := |content| == entry.size && host.digest(content) == ref.digest;
  }

  /** The verdict on an input: the digest of its bundle's manifest, or refusal. It needs a usable, authorized input
      whose bundle is there and complete. */
  function Verification(host: Host, input: RunInput, allow: Authorizer, bundles: map<string,
                        Directory>): Option<string> {
    var name := BundleName(host, input);
    if Usable(input) && Authorized(allow, input.refs) && name in bundles && Complete(host, input, bundles[name])
    then Some(host.digest(bundles[name].files[MANIFEST_FILE].content))
    else None
  }

  /** Reading the bundle piece by piece decides exactly that. */
  method Verify(host: Host, input: RunInput, allow: Authorizer, bundles: map<string, Directory>)
    returns (digest: Option<string>)
    requires host.Sound()
    ensures digest == Verification(host, input, allow, bundles)
    ensures digest.Some? <==>
      Usable(input) && Authorized(allow, input.refs) && BundleName(host, input) in bundles
      && Complete(host, input, bundles[BundleName(host, input)])
    ensures digest.Some? ==> digest.value == host.digest(bundles[BundleName(host, input)].files[MANIFEST_FILE].content)
  {
    var prepared := Prepare(host, input, allow);
    if !prepared || BundleName(host, input) !in bundles { return None; }
    var d := bundles[BundleName(host, input)];
    if !d.sealed { return None; }
    if MANIFEST_FILE !in d.files || !d.files[MANIFEST_FILE].sealed { return None; }
    var data := d.files[MANIFEST_FILE].content;
    if Complete(host, input, d) { CompleteManifest(host, input, d); }
    if |data| > READ_LIMIT { return None; }
    var decoded := host.decode(data);
    if decoded.None? { return None; }
    var m := decoded.value;
    if m.runInputDigest != host.inputDigest(input) || |m.entries| != |input.refs| { return None; }
    if PrintManifest(m) != data { return None; }
    CompleteExactlyAccepted(host, input, d, m);
    if |d.files| != |input.refs| + 1 { return None; }
    var ok := VerifyEntries(host, d, input.refs, m.entries);
    if !ok { return None; }
    digest := Some(host.digest(data));
  }
}

/** Concurrent materialization: any number of calls over one root, stopping, failing or crashing at any step. */
module BundleProtocol {
  import opened Options
  import opened BundleModel
  import opened BundleVerifier

  /** The managed root: publication locks, published bundles, and each call's private staging directory. */
  datatype Root = Root(locks: set<string>, bundles: map<string, Directory>, stages: map<nat, Directory>)

  datatype Error = Denied | InputOutput | Busy | Exists | Limit | DigestMismatch

  /** A published bundle may come with an error when its lock could not be removed. */
  datatype Outcome = Published(digest: string, unlocked: bool) | Failed(error: Error)

  /** What the surroundings decide at a step: failure or cancellation, authorization, the bytes a resolver gives. */
  datatype Env = Env(fails: bool, allow: Authorizer, content: Bytes)

  datatype Call =
    | Preparing(input: RunInput)
    | Locking(input: RunInput)
    | Checking(input: RunInput)
    | Staging(input: RunInput)
    | Filling(input: RunInput, entries: seq<Entry>, total: nat)
    | WritingManifest(input: RunInput, entries: seq<Entry>)
    | SealingStage(input: RunInput, entries: seq<Entry>)
    | Renaming(input: RunInput, entries: seq<Entry>)
    | Cleaning(input: RunInput, error: Error)
    | Unlocking(input: RunInput, outcome: Outcome)
    | Done(input: RunInput, outcome: Outcome)

  datatype StepResult = StepResult(root: Root, call: Call)

  function EntryLimit(host: Host, total: nat): int {
    var remaining := host.limits.totalBytes - total;
    if remaining < host.limits.entryBytes then remaining else host.limits.entryBytes
  }

  function StageOf(root: Root, i: nat): Directory {
    if i in root.stages then root.stages[i] else Directory(map[], false)
  }

  function PutFile(root: Root, i: nat, name: string, f: File): Root {
    var d := StageOf(root, i);
    root.(stages := root.stages[i := d.(files := d.files[name := f])])
  }

  /** A failed copy leaves the part that was written. */
  function Partial(content: Bytes, limit: int): File {
    File(if limit < 0 then [] else if limit + 1 <= |content| then content[..limit + 1] else content, false)
  }

  function StepFilling(host: Host, root: Root, i: nat, input: RunInput, entries: seq<Entry>, total: nat,
                       env: Env): StepResult {
    if |entries| >= |input.refs| then StepResult(root, WritingManifest(input, entries))
    else
      var ref := input.refs[|entries|];
      var file, limit := EntryName(|entries|, ref), EntryLimit(host, total);
      if env.fails then StepResult(PutFile(root, i, file, Partial(env.content, limit)), Cleaning(input, InputOutput))
      else if |env.content| > limit then StepResult(PutFile(root, i, file, Partial(env.content, limit)), Cleaning(input, Limit))
      else if host.digest(env.content) != ref.digest then
        StepResult(PutFile(root, i, file, Partial(env.content, limit)), Cleaning(input, DigestMismatch))
      else
        StepResult(PutFile(root, i, file, File(env.content, true)),
                   Filling(input, entries + [Entry(ref, file, |env.content|)], total + |env.content|))
  }

  function PrintedFor(host: Host, input: RunInput, entries: seq<Entry>): Bytes {
    PrintManifest(Manifest(host.inputDigest(input), entries))
  }

  /** One step of call `i`. A rename is modelled at its worst: it would replace whatever has the name. */
  function StepCall(host: Host, root: Root, i: nat, call: Call, env: Env): StepResult {
    match call
    case Preparing(input) =>
      if Usable(input) && Authorized(env.allow, input.refs) && !env.fails then StepResult(root, Locking(input))
      else StepResult(root, Done(input, Failed(Denied)))
    case Locking(input) =>
      var name := BundleName(host, input);
      if env.fails then StepResult(root, Done(input, Failed(InputOutput)))
      else if name in root.locks then StepResult(root, Done(input, Failed(Busy)))
      else StepResult(root.(locks := root.locks + {name}), Checking(input))
    case Checking(input) =>
      if env.fails then StepResult(root, Unlocking(input, Failed(InputOutput)))
      else if BundleName(host, input) in root.bundles then StepResult(root, Unlocking(input, Failed(Exists)))
      else StepResult(root, Staging(input))
    case Staging(input) =>
      if env.fails then StepResult(root, Unlocking(input, Failed(InputOutput)))
      else StepResult(root.(stages := root.stages[i := Directory(map[], false)]), Filling(input, [], 0))
    case Filling(input, entries, total) => StepFilling(host, root, i, input, entries, total, env)
    case WritingManifest(input, entries) =>
      if env.fails then StepResult(PutFile(root, i, MANIFEST_FILE, File(env.content, false)), Cleaning(input, InputOutput))
      else StepResult(PutFile(root, i, MANIFEST_FILE, File(PrintedFor(host, input, entries), true)), SealingStage(input, entries))
    case SealingStage(input, entries) =>
      if env.fails then StepResult(root, Cleaning(input, InputOutput))
      else StepResult(root.(stages := root.stages[i := StageOf(root, i).(sealed := true)]), Renaming(input, entries))
    case Renaming(input, entries) =>
      if env.fails then StepResult(root, Cleaning(input, InputOutput))
      else StepResult(root.(bundles := root.bundles[BundleName(host, input) := StageOf(root, i)], stages := root.stages - {i}),
                      Unlocking(input, Published(host.digest(PrintedFor(host, input, entries)), true)))
    case Cleaning(input, error) =>
      StepResult(if env.fails then root else root.(stages := root.stages - {i}), Unlocking(input, Failed(error)))
    case Unlocking(input, outcome) =>
      if env.fails then StepResult(root, Done(input, if outcome.Published? then outcome.(unlocked := false) else outcome))
      else StepResult(root.(locks := root.locks - {BundleName(host, input)}), Done(input, outcome))
    case Done(_, _) => StepResult(root, call)
  }

  datatype System = System(root: Root, calls: seq<Call>)
  datatype Event = Arrive(input: RunInput) | Step(call: nat, env: Env)

  function Next(host: Host, sys: System, e: Event): System {
    match e
    case Arrive(input) => sys.(calls := sys.calls + [Preparing(input)])
    case Step(i, env) =>
      if i >= |sys.calls| then sys
      else
        var r := StepCall(host, sys.root, i, sys.calls[i], env);
        System(r.root, sys.calls[i := r.call])
  }

  function After(host: Host, events: seq<Event>): System {
    if events == [] then System(Root({}, map[], map[]), [])
    else Next(host, After(host, events[..|events| - 1]), events[|events| - 1])
  }

  // ---- what a call in progress has secured ----

  /** Between taking the lock and giving it back. */
  predicate Critical(call: Call) {
    !call.Preparing? && !call.Locking? && !call.Done?
  }

  predicate EntryStaged(host: Host, d: Directory, k: nat, r: ContextRef, e: Entry) {
    EntryFileOk(host, d, k, r) && e == Entry(r, EntryName(k, r), |d.files[EntryName(k, r)].content|)
  }

  /** The staged files are exactly the first entries, each checked, within the limits. */
  ghost predicate Staged(host: Host, input: RunInput, entries: seq<Entry>, d: Directory) {
    && |entries| <= |input.refs|
    && (forall k | 0 <= k < |entries| :: EntryStaged(host, d, k, input.refs[k], entries[k]))
    && TotalSize(entries) <= host.limits.totalBytes
  }

  ghost predicate Filled(host: Host, input: RunInput, entries: seq<Entry>, d: Directory) {
    Staged(host, input, entries, d) && d.files.Keys == EntryNames(input.refs, |entries|)
  }

  ghost predicate Described(host: Host, input: RunInput, entries: seq<Entry>, d: Directory) {
    && Staged(host, input, entries, d) && |entries| == |input.refs|
    && d.files.Keys == EntryNames(input.refs, |entries|) + {MANIFEST_FILE}
    && d.files[MANIFEST_FILE] == File(PrintedFor(host, input, entries), true)
  }

  /** The bundle is there, complete, and the digest is that of its manifest. */
  ghost predicate PublishedOk(host: Host, root: Root, input: RunInput, digest: string) {
    && Usable(input) && BundleName(host, input) in root.bundles
    && Complete(host, input, root.bundles[BundleName(host, input)])
    && digest == host.digest(root.bundles[BundleName(host, input)].files[MANIFEST_FILE].content)
  }

  ghost predicate CallOk(host: Host, root: Root, i: nat, call: Call) {
    && (!call.Preparing? && !call.Done? ==> Usable(call.input))
    && (Critical(call) ==> BundleName(host, call.input) in root.locks)
    && (Critical(call) && !call.Checking? && !call.Unlocking? ==> BundleName(host, call.input) !in root.bundles)
    && (call.Filling? ==> i in root.stages && Filled(host, call.input, call.entries, root.stages[i])
                          && call.total == TotalSize(call.entries))
    && (call.WritingManifest? ==> i in root.stages && |call.entries| == |call.input.refs|
                                  && Filled(host, call.input, call.entries, root.stages[i]))
    && (call.SealingStage? ==> i in root.stages && Described(host, call.input, call.entries, root.stages[i]))
    && (call.Renaming? ==> i in root.stages && Described(host, call.input, call.entries, root.stages[i]) && root.stages[i].sealed)
    && ((call.Unlocking? || call.Done?) && call.outcome.Published? ==> PublishedOk(host, root, call.input, call.outcome.digest))
  }

  /** At most one call per bundle name is between lock and unlock. */
  ghost predicate Exclusive(host: Host, calls: seq<Call>) {
    forall i, j | 0 <= i < j < |calls| && Critical(calls[i]) && Critical(calls[j]) ::
      BundleName(host, calls[i].input) != BundleName(host, calls[j].input)
  }

  ghost predicate CompleteBundle(host: Host, name: string, d: Directory) {
    exists input :: Usable(input) && BundleName(host, input) == name && Complete(host, input, d)
  }

  ghost predicate BundlesOk(host: Host, root: Root) {
    forall name | name in root.bundles :: CompleteBundle(host, name, root.bundles[name])
  }

  ghost predicate Invariant(host: Host, sys: System) {
    && (forall i | 0 <= i < |sys.calls| :: CallOk(host, sys.root, i, sys.calls[i]))
    && Exclusive(host, sys.calls) && BundlesOk(host, sys.root)
  }

  // ---- what one step touches ----

  /** Only the call's own stage, and only the lock and bundle of its own name; and no bundle is ever replaced. */
  ghost predicate Touches(root: Root, root': Root, i: nat, name: string) {
    && (forall j: nat | j != i :: (j in root.stages ==> j in root'.stages && root'.stages[j] == root.stages[j]))
    && (forall other | other != name :: (other in root.locks ==> other in root'.locks))
    && (forall other | other != name :: (other in root'.bundles ==> other in root.bundles))
    && (forall other | other in root.bundles :: other in root'.bundles && root'.bundles[other] == root.bundles[other])
  }

  lemma {:induction false} StepTouches(host: Host, root: Root, i: nat, call: Call, env: Env)
    requires call.Renaming? ==> BundleName(host, call.input) !in root.bundles
    ensures Touches(root, StepCall(host, root, i, call, env).root, i, BundleName(host, call.input))
    ensures StepCall(host, root, i, call, env).call.input == call.input
  {
    match call
    case Preparing(_) =>
    case Locking(_) =>
    case Checking(_) =>
    case Staging(_) =>
    case Filling(_, _, _) =>
    case WritingManifest(_, _) =>
    case SealingStage(_, _) =>
    case Renaming(_, _) =>
    case Cleaning(_, _) =>
    case Unlocking(_, _) =>
    case Done(_, _) =>
  }

  lemma {:induction false} OnlyRenamesPublish(host: Host, root: Root, i: nat, call: Call, env: Env)
    ensures !call.Renaming? ==> StepCall(host, root, i, call, env).root.bundles == root.bundles
  {
  }

  lemma {:induction false} FillKeeps(host: Host, input: RunInput, entries: seq<Entry>, total: nat, d: Directory,
                                     content: Bytes, file: string)
    requires Filled(host, input, entries, d) && total == TotalSize(entries) && |entries| < |input.refs| <= MAX_REFS
    requires |content| <= EntryLimit(host, total) && host.digest(content) == input.refs[|entries|].digest
    requires file == EntryName(|entries|, input.refs[|entries|])
    ensures var more := entries + [Entry(input.refs[|entries|], file, |content|)];
      Filled(host, input, more, d.(files := d.files[file := File(content, true)])) && TotalSize(more) == total + |content|
  {
    var more := entries + [Entry(input.refs[|entries|], file, |content|)];
    var d' := d.(files := d.files[file := File(content, true)]);
    assert Staged(host, input, more, d') && TotalSize(more) == total + |content| by {
      NextNameIsNew(input.refs, |entries|);
      StagedLonger(host, input, entries, d, content, file, more);
    }
    assert d'.files.Keys == EntryNames(input.refs, |more|) by {
      KeysLonger(input.refs, |entries|, d, File(content, true), file);
    }
  }

  lemma {:induction false} KeysLonger(refs: seq<ContextRef>, n: nat, d: Directory, f: File, file: string)
    requires n < |refs| && d.files.Keys == EntryNames(refs, n) && file == EntryName(n, refs[n])
    ensures d.(files := d.files[file := f]).files.Keys == EntryNames(refs, n + 1)
  {
  }

  lemma {:induction false} StagedLonger(host: Host, input: RunInput, entries: seq<Entry>, d: Directory, content: Bytes,
                                        file: string, more: seq<Entry>)
    requires Staged(host, input, entries, d) && |entries| < |input.refs|
    requires |content| <= EntryLimit(host, TotalSize(entries)) && host.digest(content) == input.refs[|entries|].digest
    requires file == EntryName(|entries|, input.refs[|entries|]) && file !in EntryNames(input.refs, |entries|)
    requires more == entries + [Entry(input.refs[|entries|], file, |content|)]
    ensures Staged(host, input, more, d.(files := d.files[file := File(content, true)]))
    ensures TotalSize(more) == TotalSize(entries) + |content|
  {
    TotalSnoc(entries, Entry(input.refs[|entries|], file, |content|));
    FileAdded(host, input.refs, entries, d, content, file);
  }

  lemma {:induction false} TotalSnoc(entries: seq<Entry>, e: Entry)
    ensures TotalSize(entries + [e]) == TotalSize(entries) + e.size
  {
    assert (entries + [e])[..|entries|] == entries;
  }

  lemma {:induction false} FileAdded(host: Host, refs: seq<ContextRef>, entries: seq<Entry>, d: Directory,
                                     content: Bytes, file: string)
    requires |entries| < |refs| && |content| <= host.limits.entryBytes
    requires forall k | 0 <= k < |entries| :: EntryStaged(host, d, k, refs[k], entries[k])
    requires file == EntryName(|entries|, refs[|entries|]) && file !in EntryNames(refs, |entries|)
    requires host.digest(content) == refs[|entries|].digest
    ensures var more := entries + [Entry(refs[|entries|], file, |content|)];
      forall k | 0 <= k < |more| :: EntryStaged(host, d.(files := d.files[file := File(content, true)]), k, refs[k], more[k])
  {
    var n := |entries|;
    var more := entries + [Entry(refs[n], file, |content|)];
    var d' := d.(files := d.files[file := File(content, true)]);
    forall k | 0 <= k < |more| ensures EntryStaged(host, d', k, refs[k], more[k]) {
      if k < n {
        assert EntryStaged(host, d, k, refs[k], entries[k]);
        NameIsAmong(refs, k, n);
      }
    }
  }

  lemma {:induction false} ManifestAdded(host: Host, refs: seq<ContextRef>, entries: seq<Entry>, d: Directory, f: File,
                                         d': Directory)
    requires |entries| <= |refs| && forall k | 0 <= k < |entries| :: EntryStaged(host, d, k, refs[k], entries[k])
    requires d' == d.(files := d.files[MANIFEST_FILE := f])
    ensures forall k | 0 <= k < |entries| :: EntryStaged(host, d', k, refs[k], entries[k])
  {
    forall k | 0 <= k < |entries| ensures EntryStaged(host, d', k, refs[k], entries[k]) {
      assert EntryStaged(host, d, k, refs[k], entries[k]);
      EntryIsNotManifest(k, refs[k]);
    }
  }

  lemma {:induction false} DescribeKeeps(host: Host, input: RunInput, entries: seq<Entry>, d: Directory, f: File,
                                         d': Directory)
    requires Filled(host, input, entries, d) && |entries| == |input.refs|
    requires f == File(PrintedFor(host, input, entries), true) && d' == d.(files := d.files[MANIFEST_FILE := f])
    ensures Described(host, input, entries, d')
  {
    ManifestAdded(host, input.refs, entries, d, f, d');
  }

  lemma {:induction false} DescribedIsComplete(host: Host, input: RunInput, entries: seq<Entry>, d: Directory)
    requires Described(host, input, entries, d) && d.sealed
    ensures Complete(host, input, d) && d.files[MANIFEST_FILE].content == PrintedFor(host, input, entries)
  {
    forall k | 0 <= k < |input.refs| ensures EntryFileOk(host, d, k, input.refs[k]) {
      assert EntryStaged(host, d, k, input.refs[k], entries[k]);
    }
    EntriesFound(host, input, entries, d);
  }

  lemma {:induction false} EntriesFound(host: Host, input: RunInput, entries: seq<Entry>, d: Directory)
    requires Described(host, input, entries, d)
    ensures EntriesIn(d, input.refs) == entries
  {
    forall k | 0 <= k < |entries| ensures EntriesIn(d, input.refs)[k] == entries[k] {
      assert EntryStaged(host, d, k, input.refs[k], entries[k]);
    }
  }

  lemma {:induction false} SealKeeps(host: Host, input: RunInput, entries: seq<Entry>, d: Directory)
    requires Described(host, input, entries, d)
    ensures Described(host, input, entries, d.(sealed := true))
  {
    forall k | 0 <= k < |entries| ensures EntryStaged(host, d.(sealed := true), k, input.refs[k], entries[k]) {
      assert EntryStaged(host, d, k, input.refs[k], entries[k]);
    }
  }

  lemma {:induction false} CopyKeeps(host: Host, root: Root, i: nat, call: Call, env: Env)
    requires call.Filling? && CallOk(host, root, i, call) && |call.entries| < |call.input.refs|
    requires !env.fails && |env.content| <= EntryLimit(host, call.total)
    requires host.digest(env.content) == call.input.refs[|call.entries|].digest
    ensures var r := StepCall(host, root, i, call, env); CallOk(host, r.root, i, r.call)
  {
    FillKeeps(host, call.input, call.entries, call.total, root.stages[i], env.content,
              EntryName(|call.entries|, call.input.refs[|call.entries|]));
  }

  lemma {:induction false} FillingStepKeeps(host: Host, root: Root, i: nat, call: Call, env: Env)
    requires call.Filling? && CallOk(host, root, i, call)
    ensures var r := StepCall(host, root, i, call, env); CallOk(host, r.root, i, r.call)
  {
    if |call.entries| < |call.input.refs| && !env.fails && |env.content| <= EntryLimit(host, call.total)
       && host.digest(env.content) == call.input.refs[|call.entries|].digest {
      CopyKeeps(host, root, i, call, env);
    }
  }

  lemma {:induction false} EmptyIsFilled(host: Host, input: RunInput)
    ensures Filled(host, input, [], Directory(map[], false))
  {
    assert EntryNames(input.refs, 0) == {};
  }

  lemma {:induction false} ManifestStepKeeps(host: Host, root: Root, i: nat, call: Call, env: Env)
    requires call.WritingManifest? && CallOk(host, root, i, call)
    ensures var r := StepCall(host, root, i, call, env); CallOk(host, r.root, i, r.call)
  {
    var d, f := root.stages[i], File(PrintedFor(host, call.input, call.entries), true);
    DescribeKeeps(host, call.input, call.entries, d, f, d.(files := d.files[MANIFEST_FILE := f]));
  }

  /** The stepping call keeps what it has secured. */
  lemma {:induction false} StepKeepsOwn(host: Host, root: Root, i: nat, call: Call, env: Env)
    requires CallOk(host, root, i, call)
    ensures var r := StepCall(host, root, i, call, env); CallOk(host, r.root, i, r.call)
  {
    match call
    case Preparing(_) =>
    case Locking(_) =>
    case Checking(_) =>
    case Staging(input) => EmptyIsFilled(host, input);
    case Filling(_, _, _) => FillingStepKeeps(host, root, i, call, env);
    case WritingManifest(_, _) => ManifestStepKeeps(host, root, i, call, env);
    case SealingStage(input, entries) => SealKeeps(host, input, entries, root.stages[i]);
    case Renaming(input, entries) => DescribedIsComplete(host, input, entries, root.stages[i]);
    case Cleaning(_, _) =>
    case Unlocking(_, _) =>
    case Done(_, _) =>
  }

  /** Every other call keeps what it has secured. */
  lemma {:induction false} StepKeepsOther(host: Host, root: Root, root': Root, i: nat, name: string, j: nat,
                                          other: Call)
    requires Touches(root, root', i, name) && j != i && CallOk(host, root, j, other)
    requires Critical(other) ==> BundleName(host, other.input) != name
    ensures CallOk(host, root', j, other)
  {
  }

  lemma {:induction false} RenameKeepsBundles(host: Host, root: Root, i: nat, input: RunInput, entries: seq<Entry>)
    requires BundlesOk(host, root) && i in root.stages && Usable(input)
    requires Described(host, input, entries, root.stages[i]) && root.stages[i].sealed
    ensures BundlesOk(host, root.(bundles := root.bundles[BundleName(host, input) := root.stages[i]], stages := root.stages - {i}))
  {
    DescribedIsComplete(host, input, entries, root.stages[i]);
    assert CompleteBundle(host, BundleName(host, input), root.stages[i]);
  }

  lemma {:induction false} StepKeepsBundles(host: Host, root: Root, i: nat, call: Call, env: Env)
    requires CallOk(host, root, i, call) && BundlesOk(host, root)
    ensures BundlesOk(host, StepCall(host, root, i, call, env).root)
  {
    OnlyRenamesPublish(host, root, i, call, env);
    if call.Renaming? { RenameKeepsBundles(host, root, i, call.input, call.entries); }
  }

  /** Whoever is inside after a step was inside before, or found the lock free. */
  lemma {:induction false} StepEnters(host: Host, root: Root, i: nat, call: Call, env: Env)
    requires Critical(StepCall(host, root, i, call, env).call)
    ensures Critical(call) || BundleName(host, call.input) !in root.locks
  {
  }

  lemma {:induction false} StepKeepsExclusive(host: Host, sys: System, i: nat, env: Env)
    requires Invariant(host, sys) && i < |sys.calls|
    ensures Exclusive(host, Next(host, sys, Step(i, env)).calls)
  {
    var r := StepCall(host, sys.root, i, sys.calls[i], env);
    StepTouches(host, sys.root, i, sys.calls[i], env);
    var calls' := sys.calls[i := r.call];
    forall a, b | 0 <= a < b < |calls'| && Critical(calls'[a]) && Critical(calls'[b])
      ensures BundleName(host, calls'[a].input) != BundleName(host, calls'[b].input)
    {
      if a == i || b == i { StepEnters(host, sys.root, i, sys.calls[i], env); }
      assert CallOk(host, sys.root, a, sys.calls[a]) && CallOk(host, sys.root, b, sys.calls[b]);
    }
  }

  /** A call that steps inside, or not at all, meets nobody of its name inside. */
  lemma {:induction false} OthersKeepOut(host: Host, sys: System, i: nat, j: nat)
    requires Invariant(host, sys) && i < |sys.calls| && j < |sys.calls| && i != j && Critical(sys.calls[i]) && Critical(sys.calls[j])
    ensures BundleName(host, sys.calls[i].input) != BundleName(host, sys.calls[j].input)
  {
  }

  lemma {:induction false} OutsideStepsTouchLittle(host: Host, root: Root, i: nat, call: Call, env: Env)
    requires !Critical(call)
    ensures var r := StepCall(host, root, i, call, env).root;
      r.bundles == root.bundles && r.stages == root.stages && root.locks <= r.locks
  {
  }

  lemma {:induction false} NextKeeps(host: Host, sys: System, e: Event)
    requires Invariant(host, sys)
    ensures Invariant(host, Next(host, sys, e))
  {
    if e.Step? && e.call < |sys.calls| {
      var i, call := e.call, sys.calls[e.call];
      var r := StepCall(host, sys.root, i, call, e.env);
      StepKeepsOwn(host, sys.root, i, call, e.env);
      StepKeepsBundles(host, sys.root, i, call, e.env);
      StepKeepsExclusive(host, sys, i, e.env);
      StepTouches(host, sys.root, i, call, e.env);
      var sys' := Next(host, sys, e);
      forall j | 0 <= j < |sys'.calls| ensures CallOk(host, sys'.root, j, sys'.calls[j]) {
        if j != i {
          assert CallOk(host, sys.root, j, sys.calls[j]);
          if Critical(call) {
            if Critical(sys.calls[j]) { OthersKeepOut(host, sys, i, j); }
            StepKeepsOther(host, sys.root, r.root, i, BundleName(host, call.input), j, sys.calls[j]);
          } else {
            OutsideStepsTouchLittle(host, sys.root, i, call, e.env);
          }
        }
      }
    }
  }

  lemma {:induction false} EveryRunKeeps(host: Host, events: seq<Event>)
    ensures Invariant(host, After(host, events))
  {
    if events != [] {
      EveryRunKeeps(host, events[..|events| - 1]);
      NextKeeps(host, After(host, events[..|events| - 1]), events[|events| - 1]);
    }
  }

  // ---- the properties ----

  /** In every reachable state, whatever has a bundle's name is a complete, checked bundle. */
  lemma {:induction false} BundlesAreComplete(host: Host, events: seq<Event>, name: string)
    ensures var bundles := After(host, events).root.bundles; name in bundles ==> CompleteBundle(host, name, bundles[name])
  {
    EveryRunKeeps(host, events);
  }

  lemma {:induction false} RenamesFindNothing(host: Host, root: Root, i: nat, call: Call)
    requires CallOk(host, root, i, call)
    ensures call.Renaming? ==> BundleName(host, call.input) !in root.bundles
  {
  }

  lemma {:induction false} NextKeepsBundle(host: Host, sys: System, e: Event, name: string)
    requires Invariant(host, sys) && name in sys.root.bundles
    ensures var sys' := Next(host, sys, e); name in sys'.root.bundles && sys'.root.bundles[name] == sys.root.bundles[name]
  {
    if e.Step? && e.call < |sys.calls| {
      RenamesFindNothing(host, sys.root, e.call, sys.calls[e.call]);
      StepTouches(host, sys.root, e.call, sys.calls[e.call], e.env);
    }
  }

  /** No published bundle is ever overwritten or removed. */
  lemma {:induction false} BundlesAreForever(host: Host, events: seq<Event>, n: nat, name: string)
    requires n <= |events| && name in After(host, events[..n]).root.bundles
    ensures name in After(host, events).root.bundles
    ensures After(host, events).root.bundles[name] == After(host, events[..n]).root.bundles[name]
  {
    if n < |events| {
      var before := events[..|events| - 1];
      assert before[..n] == events[..n];
      BundlesAreForever(host, before, n, name);
      EveryRunKeeps(host, before);
      NextKeepsBundle(host, After(host, before), events[|events| - 1], name);
    } else {
      assert events[..n] == events;
    }
  }

  /** At most one call at a time works on a name. */
  lemma {:induction false} OnePublisherPerName(host: Host, events: seq<Event>, i: nat, j: nat)
    requires i < |After(host, events).calls| && j < |After(host, events).calls| && i != j
    requires Critical(After(host, events).calls[i]) && Critical(After(host, events).calls[j])
    ensures BundleName(host, After(host, events).calls[i].input) != BundleName(host, After(host, events).calls[j].input)
  {
    EveryRunKeeps(host, events);
    OthersKeepOut(host, After(host, events), i, j);
  }

  /** Whatever a call published, verification of its input by anyone still authorized accepts with the same digest,
      then and at any later time, whatever else happens. */
  lemma {:induction false} PublishedVerifies(host: Host, events: seq<Event>, n: nat, i: nat, allow: Authorizer)
    requires n <= |events| && i < |After(host, events[..n]).calls|
    requires After(host, events[..n]).calls[i].Done? && After(host, events[..n]).calls[i].outcome.Published?
    requires Authorized(allow, After(host, events[..n]).calls[i].input.refs)
    ensures var call := After(host, events[..n]).calls[i];
      Verification(host, call.input, allow, After(host, events).root.bundles) == Some(call.outcome.digest)
  {
    EveryRunKeeps(host, events[..n]);
    var early := After(host, events[..n]);
    assert CallOk(host, early.root, i, early.calls[i]);
    BundlesAreForever(host, events, n, BundleName(host, early.calls[i].input));
  }
}

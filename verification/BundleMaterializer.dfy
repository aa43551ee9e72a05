/** Materialization as straight-line code: lock, stage, copy within the shrinking budget, describe, seal, rename,
    clean up, unlock. It is proved to take exactly the steps of the concurrent protocol when nothing else runs,
    whichever of its calls fail. */
module BundleMaterializer {
  import opened Options
  import opened BundleModel
  import opened BundleVerifier
  import opened BundleProtocol

  // ---- one call of the protocol with nothing else running ----

  /** What the surroundings decide at each program point, counted along the source. */
  type Surroundings = nat -> Env

  function Copied(input: RunInput, entries: seq<Entry>): nat {
    if |entries| < |input.refs| then |entries| else |input.refs|
  }

  function Point(call: Call): nat {
    var n := |call.input.refs|;
    match call
    case Preparing(_) => 0
    case Locking(_) => 1
    case Checking(_) => 2
    case Staging(_) => 3
    case Filling(input, entries, _) => 4 + Copied(input, entries)
    case WritingManifest(_, _) => 5 + n
    case SealingStage(_, _) => 6 + n
    case Renaming(_, _) => 7 + n
    case Cleaning(_, _) => 8 + n
    case Unlocking(_, _) => 9 + n
    case Done(_, _) => 10 + n
  }

  lemma {:induction false} StepAdvances(host: Host, root: Root, i: nat, call: Call, env: Env)
    requires !call.Done?
    ensures var r := StepCall(host, root, i, call, env);
      r.call.input == call.input && Point(call) < Point(r.call) <= 10 + |call.input.refs|
  {
  }

  function Alone(host: Host, root: Root, i: nat, call: Call, around: Surroundings): (r: StepResult)
    ensures r.call.Done? && r.call.input == call.input
    decreases 10 + |call.input.refs| - Point(call)
  {
    if call.Done? then StepResult(root, call)
    else
      var r := StepCall(host, root, i, call, around(Point(call)));
      StepAdvances(host, root, i, call, around(Point(call)));
      Alone(host, r.root, i, r.call, around)
  }

  lemma {:induction false} Unfold(host: Host, root: Root, i: nat, call: Call, around: Surroundings)
    requires !call.Done?
    ensures var r := StepCall(host, root, i, call, around(Point(call)));
      Alone(host, root, i, call, around) == Alone(host, r.root, i, r.call, around)
  {
    StepAdvances(host, root, i, call, around(Point(call)));
  }

  /** A function that gives the end of every call from any moment. What it is is looked up only where a moment is
      asked about, which keeps the solver from running the protocol ahead of the proof. */
  type Ending = StepResult -> StepResult

  predicate Asked(s: StepResult) { true }

  ghost predicate Ends(host: Host, i: nat, around: Surroundings, end: Ending) {
    forall s {:trigger Asked(s)} :: Asked(s) ==> end(s) == Alone(host, s.root, i, s.call, around)
  }

  lemma {:induction false} OneStep(host: Host, i: nat, around: Surroundings, end: Ending, root: Root, call: Call)
    requires Ends(host, i, around, end) && !call.Done?
    ensures end(StepResult(root, call)) == end(StepCall(host, root, i, call, around(Point(call))))
  {
    assert Asked(StepResult(root, call)) && Asked(StepCall(host, root, i, call, around(Point(call))));
    Unfold(host, root, i, call, around);
  }

  lemma {:induction false} ManifestStep(host: Host, i: nat, around: Surroundings, end: Ending, root: Root,
                                        input: RunInput, entries: seq<Entry>)
    requires Ends(host, i, around, end)
    ensures var env := around(5 + |input.refs|);
      end(StepResult(root, WritingManifest(input, entries)))
      == end(if env.fails then StepResult(PutFile(root, i, MANIFEST_FILE, File(env.content, false)), Cleaning(input, InputOutput))
             else StepResult(PutFile(root, i, MANIFEST_FILE, File(PrintedFor(host, input, entries), true)), SealingStage(input, entries)))
  {
    OneStep(host, i, around, end, root, WritingManifest(input, entries));
  }

  lemma {:induction false} SealStep(host: Host, i: nat, around: Surroundings, end: Ending, root: Root,
                                    input: RunInput, entries: seq<Entry>)
    requires Ends(host, i, around, end)
    ensures end(StepResult(root, SealingStage(input, entries)))
      == end(if around(6 + |input.refs|).fails then StepResult(root, Cleaning(input, InputOutput))
             else StepResult(root.(stages := root.stages[i := StageOf(root, i).(sealed := true)]), Renaming(input, entries)))
  {
    OneStep(host, i, around, end, root, SealingStage(input, entries));
  }

  lemma {:induction false} RenameStep(host: Host, i: nat, around: Surroundings, end: Ending, root: Root,
                                      input: RunInput, entries: seq<Entry>)
    requires Ends(host, i, around, end)
    ensures end(StepResult(root, Renaming(input, entries)))
      == end(if around(7 + |input.refs|).fails then StepResult(root, Cleaning(input, InputOutput))
             else StepResult(root.(bundles := root.bundles[BundleName(host, input) := StageOf(root, i)], stages := root.stages - {i}),
                             Unlocking(input, Published(host.digest(PrintedFor(host, input, entries)), true))))
  {
    OneStep(host, i, around, end, root, Renaming(input, entries));
  }

  lemma {:induction false} AtEnd(host: Host, i: nat, around: Surroundings, end: Ending, root: Root, call: Call)
    requires Ends(host, i, around, end) && call.Done?
    ensures end(StepResult(root, call)) == StepResult(root, call)
  {
    assert Asked(StepResult(root, call));
  }

  /** One turn of the copying loop. */
  lemma {:induction false} UnfoldCopy(host: Host, root: Root, i: nat, input: RunInput, entries: seq<Entry>, total: nat,
                                      around: Surroundings, end: Ending)
    requires Ends(host, i, around, end)
    ensures var r := StepFilling(host, root, i, input, entries, total, around(4 + Copied(input, entries)));
      end(StepResult(root, Filling(input, entries, total))) == end(StepResult(r.root, r.call))
  {
    OneStep(host, i, around, end, root, Filling(input, entries, total));
  }

  // ---- the sources ----

  /** What the resolver gives for entry `k`; nothing where it fails. */
  function SourceOf(around: Surroundings, k: nat): Option<Bytes> {
    if around(4 + k).fails then None else Some(around(4 + k).content)
  }

  function SourceSize(around: Surroundings, k: nat): nat {
    if SourceOf(around, k).Some? then |SourceOf(around, k).value| else 0
  }

  function SourceEntries(refs: seq<ContextRef>, around: Surroundings, n: nat): seq<Entry>
    requires n <= |refs|
  {
    seq(n, k requires 0 <= k < n => Entry(refs[k], EntryName(k, refs[k]), SourceSize(around, k)))
  }

  predicate SourceOk(host: Host, r: ContextRef, source: Option<Bytes>) {
    source.Some? && |source.value| <= host.limits.entryBytes && host.digest(source.value) == r.digest
  }

  /** Every source is what its reference promises, each within the entry limit and all together within the total. */
  predicate SourcesOk(host: Host, refs: seq<ContextRef>, around: Surroundings) {
    && (forall k | 0 <= k < |refs| :: SourceOk(host, refs[k], SourceOf(around, k)))
    && TotalSize(SourceEntries(refs, around, |refs|)) <= host.limits.totalBytes
  }

  lemma {:induction false} MoreSources(refs: seq<ContextRef>, around: Surroundings, n: nat)
    requires n < |refs|
    ensures SourceEntries(refs, around, n + 1)
         == SourceEntries(refs, around, n) + [Entry(refs[n], EntryName(n, refs[n]), SourceSize(around, n))]
  {
  }

  /** A source that does not fit the budget left by the earlier ones cannot be part of an acceptable set. */
  lemma {:induction false} BudgetExceeded(host: Host, refs: seq<ContextRef>, around: Surroundings, n: nat)
    requires n < |refs| && TotalSize(SourceEntries(refs, around, n + 1)) > host.limits.totalBytes
    ensures !SourcesOk(host, refs, around)
  {
    var all := SourceEntries(refs, around, |refs|);
    assert all[..n + 1] == SourceEntries(refs, around, n + 1);
    TotalGrows(all, n + 1);
  }

  lemma {:induction false} EntryRefused(host: Host, refs: seq<ContextRef>, around: Surroundings, i: nat, limit: int)
    requires i < |refs| && limit == EntryLimit(host, TotalSize(SourceEntries(refs, around, i)))
    requires around(4 + i).fails || |around(4 + i).content| > limit || host.digest(around(4 + i).content) != refs[i].digest
    ensures !SourcesOk(host, refs, around)
  {
    if SourceOk(host, refs[i], SourceOf(around, i)) {
      MoreSources(refs, around, i);
      TotalSnoc(SourceEntries(refs, around, i), Entry(refs[i], EntryName(i, refs[i]), SourceSize(around, i)));
      BudgetExceeded(host, refs, around, i);
    }
  }

  // ---- what a call run alone comes to ----

  /** None of the file system's own calls on the way to publication fails. */
  predicate NothingFails(n: nat, around: Surroundings) {
    && !around(0).fails && !around(1).fails && !around(2).fails && !around(3).fails
    && !around(5 + n).fails && !around(6 + n).fails && !around(7 + n).fails
  }

  /** The root after a call: its bundle if it published one, its stage if cleaning up failed, its lock if unlocking
      failed; nothing else differs. */
  ghost predicate Left(host: Host, before: Root, after: Root, i: nat, input: RunInput, outcome: Outcome,
                       around: Surroundings) {
    var n, name := |input.refs|, BundleName(host, input);
    && (if outcome.Published?
        then && name in after.bundles && after.bundles == before.bundles[name := after.bundles[name]]
             && outcome.unlocked == !around(9 + n).fails
        else after.bundles == before.bundles)
    && (outcome.Published? || !around(8 + n).fails ==> after.stages == before.stages)
    && (forall j | j in before.stages :: j in after.stages && after.stages[j] == before.stages[j])
    && (forall j | j in after.stages :: j in before.stages || j == i)
    && (!around(9 + n).fails ==> after.locks == before.locks)
    && before.locks <= after.locks <= before.locks + {name}
  }

  lemma {:induction false} CleaningLeaves(host: Host, before: Root, root: Root, i: nat, input: RunInput, error: Error,
                                          around: Surroundings, end: Ending)
    requires Ends(host, i, around, end)
    requires i !in before.stages && BundleName(host, input) !in before.locks
    requires root.bundles == before.bundles && root.locks == before.locks + {BundleName(host, input)}
    requires root.stages == before.stages || (i in root.stages && root.stages == before.stages[i := root.stages[i]])
    ensures var r := end(StepResult(root, Cleaning(input, error)));
      r.call.Done? && r.call.outcome == Failed(error) && Left(host, before, r.root, i, input, r.call.outcome, around)
  {
    OneStep(host, i, around, end, root, Cleaning(input, error));
    var cleaned := if around(8 + |input.refs|).fails then root else root.(stages := root.stages - {i});
    OneStep(host, i, around, end, cleaned, Unlocking(input, Failed(error)));
    var unlocked := StepCall(host, cleaned, i, Unlocking(input, Failed(error)), around(9 + |input.refs|));
    AtEnd(host, i, around, end, unlocked.root, unlocked.call);
  }

  lemma {:induction false} UnlockingLeaves(host: Host, before: Root, root: Root, i: nat, input: RunInput,
                                           outcome: Outcome, around: Surroundings, end: Ending)
    requires Ends(host, i, around, end)
    requires BundleName(host, input) !in before.locks && root.locks == before.locks + {BundleName(host, input)}
    requires root.stages == before.stages && (outcome.Published? ==> outcome.unlocked)
    requires outcome.Failed? ==> root.bundles == before.bundles
    requires outcome.Published? ==>
      && BundleName(host, input) in root.bundles
      && root.bundles == before.bundles[BundleName(host, input) := root.bundles[BundleName(host, input)]]
    ensures var r := end(StepResult(root, Unlocking(input, outcome)));
      r.call.Done? && (r.call.outcome.Published? <==> outcome.Published?) && Left(host, before, r.root, i, input, r.call.outcome, around)
  {
    OneStep(host, i, around, end, root, Unlocking(input, outcome));
    var unlocked := StepCall(host, root, i, Unlocking(input, outcome), around(9 + |input.refs|));
    AtEnd(host, i, around, end, unlocked.root, unlocked.call);
  }

  /** The call holds the lock of a free name, and nothing but its own stage differs from `before`. */
  ghost predicate Inside(host: Host, before: Root, root: Root, i: nat, input: RunInput) {
    && i !in before.stages
    && BundleName(host, input) !in before.locks && BundleName(host, input) !in before.bundles
    && root.locks == before.locks + {BundleName(host, input)} && root.bundles == before.bundles
    && i in root.stages && root.stages == before.stages[i := root.stages[i]]
  }

  /** The call may go on: nothing but its own stage has changed. */
  lemma {:induction false} StillInside(host: Host, before: Root, root: Root, i: nat, input: RunInput, d: Directory)
    requires Inside(host, before, root, i, input)
    ensures Inside(host, before, root.(stages := root.stages[i := d]), i, input)
  {
  }

  lemma {:induction false} InsideCleans(host: Host, before: Root, root: Root, i: nat, input: RunInput, error: Error,
                                        around: Surroundings, end: Ending)
    requires Ends(host, i, around, end)
    requires Inside(host, before, root, i, input)
    ensures var r := end(StepResult(root, Cleaning(input, error)));
      r.call.Done? && r.call.outcome == Failed(error) && Left(host, before, r.root, i, input, r.call.outcome, around)
  {
    CleaningLeaves(host, before, root, i, input, error, around, end);
  }

  lemma {:induction false} RenamingLeaves(host: Host, before: Root, root: Root, i: nat, input: RunInput,
                                          entries: seq<Entry>, around: Surroundings, end: Ending)
    requires Ends(host, i, around, end)
    requires Inside(host, before, root, i, input)
    ensures var r := end(StepResult(root, Renaming(input, entries)));
      && r.call.Done? && Left(host, before, r.root, i, input, r.call.outcome, around)
      && (r.call.outcome.Published? <==> !around(7 + |input.refs|).fails)
  {
    OneStep(host, i, around, end, root, Renaming(input, entries));
    if around(7 + |input.refs|).fails {
      InsideCleans(host, before, root, i, input, InputOutput, around, end);
    } else {
      var renamed := StepCall(host, root, i, Renaming(input, entries), around(7 + |input.refs|));
      assert renamed.root.stages == before.stages;
      UnlockingLeaves(host, before, renamed.root, i, input, renamed.call.outcome, around, end);
    }
  }

  lemma {:induction false} SealingLeaves(host: Host, before: Root, root: Root, i: nat, input: RunInput,
                                         entries: seq<Entry>, around: Surroundings, end: Ending)
    requires Ends(host, i, around, end)
    requires Inside(host, before, root, i, input)
    ensures var r := end(StepResult(root, SealingStage(input, entries)));
      var n := |input.refs|;
      && r.call.Done? && Left(host, before, r.root, i, input, r.call.outcome, around)
      && (r.call.outcome.Published? <==> !around(6 + n).fails && !around(7 + n).fails)
  {
    OneStep(host, i, around, end, root, SealingStage(input, entries));
    if around(6 + |input.refs|).fails {
      InsideCleans(host, before, root, i, input, InputOutput, around, end);
    } else {
      var d := root.stages[i].(sealed := true);
      StillInside(host, before, root, i, input, d);
      RenamingLeaves(host, before, root.(stages := root.stages[i := d]), i, input, entries, around, end);
    }
  }

  lemma {:induction false} WritingLeaves(host: Host, before: Root, root: Root, i: nat, input: RunInput,
                                         entries: seq<Entry>, around: Surroundings, end: Ending)
    requires Ends(host, i, around, end)
    requires Inside(host, before, root, i, input)
    ensures var r := end(StepResult(root, WritingManifest(input, entries)));
      var n := |input.refs|;
      && r.call.Done? && Left(host, before, r.root, i, input, r.call.outcome, around)
      && (r.call.outcome.Published? <==> !around(5 + n).fails && !around(6 + n).fails && !around(7 + n).fails)
  {
    OneStep(host, i, around, end, root, WritingManifest(input, entries));
    var failed, d := around(5 + |input.refs|).fails, root.stages[i];
    var f := if failed then File(around(5 + |input.refs|).content, false) else File(PrintedFor(host, input, entries), true);
    var d' := d.(files := d.files[MANIFEST_FILE := f]);
    StillInside(host, before, root, i, input, d');
    var root' := root.(stages := root.stages[i := d']);
    assert root' == PutFile(root, i, MANIFEST_FILE, f);
    if failed {
      InsideCleans(host, before, root', i, input, InputOutput, around, end);
    } else {
      SealingLeaves(host, before, root', i, input, entries, around, end);
    }
  }

  /** The loop has copied the first entries, and they were acceptable. */
  ghost predicate CopiedUpTo(host: Host, input: RunInput, entries: seq<Entry>, around: Surroundings) {
    && |entries| <= |input.refs| && entries == SourceEntries(input.refs, around, |entries|)
    && TotalSize(entries) <= host.limits.totalBytes
    && forall k | 0 <= k < |entries| :: SourceOk(host, input.refs[k], SourceOf(around, k))
  }

  predicate CopyWorks(host: Host, input: RunInput, entries: seq<Entry>, env: Env)
    requires |entries| < |input.refs|
  {
    !env.fails && |env.content| <= EntryLimit(host, TotalSize(entries)) && host.digest(env.content) == input.refs[|entries|].digest
  }

  function OneMore(input: RunInput, entries: seq<Entry>, env: Env): seq<Entry>
    requires |entries| < |input.refs|
  {
    entries + [Entry(input.refs[|entries|], EntryName(|entries|, input.refs[|entries|]), |env.content|)]
  }

  /** A copied entry keeps everything the loop knows. */
  lemma {:induction false} CopyTurn(host: Host, input: RunInput, entries: seq<Entry>, around: Surroundings)
    requires CopiedUpTo(host, input, entries, around) && |entries| < |input.refs|
    requires CopyWorks(host, input, entries, around(4 + |entries|))
    ensures var env := around(4 + |entries|);
      && CopiedUpTo(host, input, OneMore(input, entries, env), around)
      && TotalSize(OneMore(input, entries, env)) == TotalSize(entries) + |env.content|
  {
    var k, env := |entries|, around(4 + |entries|);
    CopiedSize(host, input, entries, env, OneMore(input, entries, env));
    MoreSources(input.refs, around, k);
  }

  lemma {:induction false} CopiedSize(host: Host, input: RunInput, entries: seq<Entry>, env: Env, more: seq<Entry>)
    requires |entries| < |input.refs| && CopyWorks(host, input, entries, env) && more == OneMore(input, entries, env)
    ensures TotalSize(more) == TotalSize(entries) + |env.content| <= host.limits.totalBytes
  {
    TotalSnoc(entries, Entry(input.refs[|entries|], EntryName(|entries|, input.refs[|entries|]), |env.content|));
  }

  lemma {:induction false} FailedCopyLeaves(host: Host, before: Root, root: Root, i: nat, input: RunInput,
                                            entries: seq<Entry>, around: Surroundings, end: Ending)
    requires Ends(host, i, around, end)
    requires Inside(host, before, root, i, input) && |entries| < |input.refs|
    requires entries == SourceEntries(input.refs, around, |entries|) && !CopyWorks(host, input, entries, around(4 + |entries|))
    ensures var r := end(StepResult(root, Filling(input, entries, TotalSize(entries))));
      r.call.Done? && Left(host, before, r.root, i, input, r.call.outcome, around) && r.call.outcome.Failed? && !SourcesOk(host, input.refs, around)
  {
    var k, total, env := |entries|, TotalSize(entries), around(4 + |entries|);
    var limit := EntryLimit(host, total);
    EntryRefused(host, input.refs, around, k, limit);
    UnfoldCopy(host, root, i, input, entries, total, around, end);
    var torn := root.stages[i].(files := root.stages[i].files[EntryName(k, input.refs[k]) := Partial(env.content, limit)]);
    StillInside(host, before, root, i, input, torn);
    var error := if env.fails then InputOutput else if |env.content| > limit then Limit else DigestMismatch;
    InsideCleans(host, before, root.(stages := root.stages[i := torn]), i, input, error, around, end);
  }

  /** One successful turn of the loop, as a step. */
  lemma {:induction false} CopyStep(host: Host, root: Root, i: nat, input: RunInput, entries: seq<Entry>, env: Env,
                                    d: Directory)
    requires i in root.stages && |entries| < |input.refs| && CopyWorks(host, input, entries, env)
    requires d == root.stages[i].(files :=
      root.stages[i].files[EntryName(|entries|, input.refs[|entries|]) := File(env.content, true)])
    ensures StepFilling(host, root, i, input, entries, TotalSize(entries), env)
         == StepResult(root.(stages := root.stages[i := d]),
                       Filling(input, OneMore(input, entries, env), TotalSize(entries) + |env.content|))
  {
  }

  /** What filling from these entries on comes to. */
  ghost predicate FillingOutcome(host: Host, before: Root, input: RunInput, i: nat, around: Surroundings,
                                 r: StepResult) {
    var n := |input.refs|;
    && r.call.Done? && Left(host, before, r.root, i, input, r.call.outcome, around)
    && (r.call.outcome.Published? <==>
          SourcesOk(host, input.refs, around) && !around(5 + n).fails && !around(6 + n).fails && !around(7 + n).fails)
  }

  lemma {:induction false} FillingLeaves(host: Host, before: Root, root: Root, i: nat, input: RunInput,
                                         entries: seq<Entry>, around: Surroundings, end: Ending)
    requires Ends(host, i, around, end)
    requires Inside(host, before, root, i, input) && CopiedUpTo(host, input, entries, around)
    ensures FillingOutcome(host, before, input, i, around, end(StepResult(root, Filling(input, entries, TotalSize(entries)))))
    decreases |input.refs| - |entries|
  {
    if |entries| == |input.refs| {
      AllCopied(host, root, i, input, entries, around, end);
      WritingLeaves(host, before, root, i, input, entries, around, end);
    } else if !CopyWorks(host, input, entries, around(4 + |entries|)) {
      FailedCopyLeaves(host, before, root, i, input, entries, around, end);
    } else {
      var env := around(4 + |entries|);
      var d := root.stages[i].(files :=
        root.stages[i].files[EntryName(|entries|, input.refs[|entries|]) := File(env.content, true)]);
      CopyTurn(host, input, entries, around);
      StillInside(host, before, root, i, input, d);
      FillingLeaves(host, before, root.(stages := root.stages[i := d]), i, input, OneMore(input, entries, env), around, end);
      CopyLeads(host, before, root, i, input, entries, around, d, end);
    }
  }

  lemma {:induction false} CopyLeads(host: Host, before: Root, root: Root, i: nat, input: RunInput, entries: seq<Entry>,
                                     around: Surroundings, d: Directory, end: Ending)
    requires Ends(host, i, around, end)
    requires i in root.stages && |entries| < |input.refs| && CopyWorks(host, input, entries, around(4 + |entries|))
    requires d == root.stages[i].(files :=
      root.stages[i].files[EntryName(|entries|, input.refs[|entries|]) := File(around(4 + |entries|).content, true)])
    requires TotalSize(OneMore(input, entries, around(4 + |entries|))) == TotalSize(entries) + |around(4 + |entries|).content|
    ensures var more := OneMore(input, entries, around(4 + |entries|));
      end(StepResult(root, Filling(input, entries, TotalSize(entries))))
      == end(StepResult(root.(stages := root.stages[i := d]), Filling(input, more, TotalSize(more))))
  {
    CopyStep(host, root, i, input, entries, around(4 + |entries|), d);
    UnfoldCopy(host, root, i, input, entries, TotalSize(entries), around, end);
  }

  lemma {:induction false} AllCopied(host: Host, root: Root, i: nat, input: RunInput, entries: seq<Entry>,
                                     around: Surroundings, end: Ending)
    requires Ends(host, i, around, end)
    requires CopiedUpTo(host, input, entries, around) && |entries| == |input.refs|
    ensures SourcesOk(host, input.refs, around)
    ensures end(StepResult(root, Filling(input, entries, TotalSize(entries))))
         == end(StepResult(root, WritingManifest(input, entries)))
  {
    UnfoldCopy(host, root, i, input, entries, TotalSize(entries), around, end);
  }

  lemma {:induction false} PreparedOutcome(host: Host, root: Root, i: nat, input: RunInput, around: Surroundings,
                                           end: Ending)
    requires Ends(host, i, around, end) && i !in root.stages
    ensures var r := end(StepResult(root, Preparing(input)));
      && r.call.Done? && Left(host, root, r.root, i, input, r.call.outcome, around)
      && (r.call.outcome.Published? <==>
            && Usable(input) && Authorized(around(0).allow, input.refs) && NothingFails(|input.refs|, around)
            && SourcesOk(host, input.refs, around)
            && BundleName(host, input) !in root.locks && BundleName(host, input) !in root.bundles)
  {
    OneStep(host, i, around, end, root, Preparing(input));
    var prepared := StepCall(host, root, i, Preparing(input), around(0));
    if prepared.call.Done? {
      AtEnd(host, i, around, end, prepared.root, prepared.call);
    } else {
      OneStep(host, i, around, end, root, Locking(input));
      var locked := StepCall(host, root, i, Locking(input), around(1));
      if locked.call.Done? {
        AtEnd(host, i, around, end, locked.root, locked.call);
      } else {
        LockedOutcome(host, root, i, input, around, end);
      }
    }
  }

  /** What the protocol secures for any call, it secures for one run alone. */
  lemma {:induction false} AloneKeepsOwn(host: Host, root: Root, i: nat, call: Call, around: Surroundings)
    requires CallOk(host, root, i, call)
    ensures var r := Alone(host, root, i, call, around); CallOk(host, r.root, i, r.call)
    decreases 10 + |call.input.refs| - Point(call)
  {
    if !call.Done? {
      var r := StepCall(host, root, i, call, around(Point(call)));
      StepKeepsOwn(host, root, i, call, around(Point(call)));
      StepAdvances(host, root, i, call, around(Point(call)));
      AloneKeepsOwn(host, r.root, i, r.call, around);
    }
  }

  /** A call alone publishes exactly one new complete bundle, exactly when its input is usable and authorized, the
      name is neither locked nor taken, no call fails and the sources fit; otherwise no bundle changes. */
  lemma {:induction false} AloneOutcome(host: Host, root: Root, i: nat, input: RunInput, around: Surroundings)
    requires i !in root.stages
    ensures var r := Alone(host, root, i, Preparing(input), around);
      && Left(host, root, r.root, i, input, r.call.outcome, around)
      && (r.call.outcome.Published? ==> PublishedOk(host, r.root, input, r.call.outcome.digest))
      && (r.call.outcome.Published? <==>
            && Usable(input) && Authorized(around(0).allow, input.refs) && NothingFails(|input.refs|, around)
            && SourcesOk(host, input.refs, around)
            && BundleName(host, input) !in root.locks && BundleName(host, input) !in root.bundles)
  {
    AloneKeepsOwn(host, root, i, Preparing(input), around);
    var end: Ending := (s: StepResult) => Alone(host, s.root, i, s.call, around);
    PreparedOutcome(host, root, i, input, around, end);
    assert end(StepResult(root, Preparing(input))) == Alone(host, root, i, Preparing(input), around);
  }

  lemma {:induction false} LockedOutcome(host: Host, before: Root, i: nat, input: RunInput, around: Surroundings,
                                         end: Ending)
    requires Ends(host, i, around, end)
    requires i !in before.stages && BundleName(host, input) !in before.locks
    ensures var n, name := |input.refs|, BundleName(host, input);
      var r := end(StepResult(before.(locks := before.locks + {name}), Checking(input)));
      && r.call.Done? && Left(host, before, r.root, i, input, r.call.outcome, around)
      && (r.call.outcome.Published? <==>
            && !around(2).fails && !around(3).fails && !around(5 + n).fails && !around(6 + n).fails && !around(7 + n).fails
            && SourcesOk(host, input.refs, around) && name !in before.bundles)
  {
    var name := BundleName(host, input);
    var root := before.(locks := before.locks + {name});
    OneStep(host, i, around, end, root, Checking(input));
    if around(2).fails {
      UnlockingLeaves(host, before, root, i, input, Failed(InputOutput), around, end);
    } else if name in before.bundles {
      UnlockingLeaves(host, before, root, i, input, Failed(Exists), around, end);
    } else {
      OneStep(host, i, around, end, root, Staging(input));
      if around(3).fails {
        UnlockingLeaves(host, before, root, i, input, Failed(InputOutput), around, end);
      } else {
        var staged := root.(stages := root.stages[i := Directory(map[], false)]);
        assert TotalSize([]) == 0 && CopiedUpTo(host, input, [], around);
        FillingLeaves(host, before, staged, i, input, [], around, end);
      }
    }
  }

  // ---- the running code ----

  class Materializer {
    const host: Host
    var locks: set<string>
    var bundles: map<string, Directory>
    var stages: map<nat, Directory>

    constructor (host: Host)
      ensures this.host == host && Content() == Root({}, map[], map[])
    {
      this.host := host;
      locks, bundles, stages := {}, map[], map[];
    }

    ghost function Content(): Root reads this { Root(locks, bundles, stages) }

    /** `i` is this call's own staging name. */
    method Materialize(input: RunInput, i: nat, around: Surroundings) returns (outcome: Outcome)
      modifies this
      ensures StepResult(Content(), Done(input, outcome)) == Alone(host, old(Content()), i, Preparing(input), around)
      ensures i !in old(stages) ==> Left(host, old(Content()), Content(), i, input, outcome, around)
      ensures i !in old(stages) && outcome.Published? ==> PublishedOk(host, Content(), input, outcome.digest)
      ensures i !in old(stages) ==> (outcome.Published? <==>
        && Usable(input) && Authorized(around(0).allow, input.refs) && NothingFails(|input.refs|, around)
        && SourcesOk(host, input.refs, around)
        && BundleName(host, input) !in old(locks) && BundleName(host, input) !in old(bundles))
    {
      ghost var end: Ending := (s: StepResult) => Alone(host, s.root, i, s.call, around);
      if i !in stages { AloneOutcome(host, Content(), i, input, around); }
      assert end(StepResult(Content(), Preparing(input))) == Alone(host, Content(), i, Preparing(input), around);
      outcome := Attempt(input, i, around, end);
    }

    method Attempt(input: RunInput, i: nat, around: Surroundings, ghost end: Ending) returns (outcome: Outcome)
      requires Ends(host, i, around, end)
      modifies this
      ensures StepResult(Content(), Done(input, outcome)) == end(StepResult(old(Content()), Preparing(input)))
    {
      OneStep(host, i, around, end, Content(), Preparing(input));
      var prepared := Prepare(host, input, around(0).allow);
      if !prepared || around(0).fails {
        AtEnd(host, i, around, end, Content(), Done(input, Failed(Denied)));
        return Failed(Denied);
      }
      OneStep(host, i, around, end, Content(), Locking(input));
      if around(1).fails {
        AtEnd(host, i, around, end, Content(), Done(input, Failed(InputOutput)));
        return Failed(InputOutput);
      }
      if BundleName(host, input) in locks {
        AtEnd(host, i, around, end, Content(), Done(input, Failed(Busy)));
        return Failed(Busy);
      }
      locks := locks + {BundleName(host, input)};
      outcome := Publish(input, i, around, end);
      outcome := Unlock(input, i, outcome, around, end);
    }

    /** The lock goes last; if it cannot be removed, the result carries that error beside the bundle. */
    method Unlock(input: RunInput, i: nat, reached: Outcome, around: Surroundings, ghost end: Ending)
      returns (outcome: Outcome)
      requires Ends(host, i, around, end)
      modifies this`locks
      ensures StepResult(Content(), Done(input, outcome)) == end(StepResult(old(Content()), Unlocking(input, reached)))
    {
      OneStep(host, i, around, end, Content(), Unlocking(input, reached));
      outcome := reached;
      if around(9 + |input.refs|).fails {
        if reached.Published? { outcome := reached.(unlocked := false); }
      } else {
        locks := locks - {BundleName(host, input)};
      }
      AtEnd(host, i, around, end, Content(), Done(input, outcome));
    }

    /** Everything under the lock; whatever is not published is removed again. */
    method Publish(input: RunInput, i: nat, around: Surroundings, ghost end: Ending) returns (outcome: Outcome)
      requires Ends(host, i, around, end)
      modifies this`stages, this`bundles
      ensures end(StepResult(old(Content()), Checking(input))) == end(StepResult(Content(), Unlocking(input, outcome)))
    {
      OneStep(host, i, around, end, Content(), Checking(input));
      if around(2).fails { return Failed(InputOutput); }
      if BundleName(host, input) in bundles { return Failed(Exists); }
      OneStep(host, i, around, end, Content(), Staging(input));
      if around(3).fails { return Failed(InputOutput); }
      stages := stages[i := Directory(map[], false)];
      outcome := StageAndRename(input, i, around, end);
    }

    /** Copy, describe, seal and rename; on any failure remove the stage. */
    method StageAndRename(input: RunInput, i: nat, around: Surroundings, ghost end: Ending) returns (outcome: Outcome)
      requires Ends(host, i, around, end)
      modifies this`stages, this`bundles
      ensures end(StepResult(old(Content()), Filling(input, [], 0))) == end(StepResult(Content(), Unlocking(input, outcome)))
    {
      var entries, error := WriteEntries(input, i, around, end);
      if error == None { error := Finish(input, i, entries, around, end); }
      if error == None { return Published(host.digest(PrintedFor(host, input, entries)), true); }
      OneStep(host, i, around, end, Content(), Cleaning(input, error.value));
      if !around(8 + |input.refs|).fails { stages := stages - {i}; }
      outcome := Failed(error.value);
    }

    method PutFile(i: nat, name: string, f: File)
      modifies this`stages
      ensures Content() == BundleProtocol.PutFile(old(Content()), i, name, f)
    {
      var d := if i in stages then stages[i] else Directory(map[], false);
      stages := stages[i := d.(files := d.files[name := f])];
    }

    /** What a step that may fail leads to. */
    ghost function Then(input: RunInput, error: Option<Error>, next: Call): Call {
      if error == None then next else Cleaning(input, error.value)
    }

    /** One entry: resolve, copy at most one byte over the limit, compare size and digest. */
    method WriteEntry(input: RunInput, i: nat, entries: seq<Entry>, total: nat, source: Env)
      returns (size: nat, error: Option<Error>)
      requires |entries| < |input.refs|
      modifies this`stages
      ensures var r := input.refs[|entries|];
        StepResult(Content(), Then(input, error, Filling(input, entries + [Entry(r, EntryName(|entries|, r), size)], total + size)))
        == StepFilling(host, old(Content()), i, input, entries, total, source)
      ensures error == None <==>
        !source.fails && |source.content| <= EntryLimit(host, total) && host.digest(source.content) == input.refs[|entries|].digest
    {
      var r := input.refs[|entries|];
      var file, limit := EntryName(|entries|, r), host.limits.entryBytes as int;
      if host.limits.totalBytes - total < limit { limit := host.limits.totalBytes - total; }
      size, error := 0, None;
      if source.fails {
        error := Some(InputOutput);
      } else if |source.content| > limit {
        error := Some(Limit);
      } else if host.digest(source.content) != r.digest {
        error := Some(DigestMismatch);
      } else {
        size := |source.content|;
      }
      PutFile(i, file, if error == None then File(source.content, true) else Partial(source.content, limit));
    }

    /** One turn of the loop. */
    method WriteNext(input: RunInput, i: nat, entries: seq<Entry>, total: nat, around: Surroundings, ghost end: Ending)
      returns (size: nat, error: Option<Error>)
      requires Ends(host, i, around, end)
      requires |entries| < |input.refs|
      modifies this`stages
      ensures var r := input.refs[|entries|];
        end(StepResult(old(Content()), Filling(input, entries, total)))
        == end(StepResult(Content(), Then(input, error, Filling(input, entries + [Entry(r, EntryName(|entries|, r), size)], total + size))))
    {
      UnfoldCopy(host, Content(), i, input, entries, total, around, end);
      size, error := WriteEntry(input, i, entries, total, around(4 + |entries|));
    }

    /** All entries, each under what the total limit still leaves. */
    method WriteEntries(input: RunInput, i: nat, around: Surroundings, ghost end: Ending)
      returns (entries: seq<Entry>, error: Option<Error>)
      requires Ends(host, i, around, end)
      modifies this`stages
      ensures end(StepResult(old(Content()), Filling(input, [], 0)))
           == end(StepResult(Content(), Then(input, error, WritingManifest(input, entries))))
    {
      ghost var goal := end(StepResult(Content(), Filling(input, [], 0)));
      var total: nat := 0;
      entries := [];
      while |entries| < |input.refs|
        invariant end(StepResult(Content(), Filling(input, entries, total))) == goal
        decreases |input.refs| - |entries|
      {
        var r, size := input.refs[|entries|], 0;
        size, error := WriteNext(input, i, entries, total, around, end);
        if error.Some? { return; }
        entries, total := entries + [Entry(r, EntryName(|entries|, r), size)], total + size;
      }
      UnfoldCopy(host, Content(), i, input, entries, total, around, end);
      error := None;
    }

    method WriteManifest(input: RunInput, i: nat, entries: seq<Entry>, env: Env) returns (error: Option<Error>)
      modifies this`stages
      ensures error == if env.fails then Some(InputOutput) else None
      ensures Content() == BundleProtocol.PutFile(old(Content()), i, MANIFEST_FILE,
        if env.fails then File(env.content, false) else File(PrintedFor(host, input, entries), true))
    {
      PutFile(i, MANIFEST_FILE, if env.fails then File(env.content, false) else File(PrintedFor(host, input, entries), true));
      error := if env.fails then Some(InputOutput) else None;
    }

    method Seal(input: RunInput, i: nat, entries: seq<Entry>, env: Env) returns (error: Option<Error>)
      modifies this`stages
      ensures error == if env.fails then Some(InputOutput) else None
      ensures Content() == if env.fails then old(Content()) else
        old(Content()).(stages := old(stages)[i := StageOf(old(Content()), i).(sealed := true)])
    {
      if env.fails { return Some(InputOutput); }
      var d := if i in stages then stages[i] else Directory(map[], false);
      stages := stages[i := d.(sealed := true)];
      error := None;
    }

    method Rename(input: RunInput, i: nat, entries: seq<Entry>, env: Env) returns (error: Option<Error>)
      modifies this`stages, this`bundles
      ensures error == if env.fails then Some(InputOutput) else None
      ensures Content() == if env.fails then old(Content()) else
        Root(locks, old(bundles)[BundleName(host, input) := StageOf(old(Content()), i)], old(stages) - {i})
    {
      if env.fails { return Some(InputOutput); }
      var d := if i in stages then stages[i] else Directory(map[], false);
      bundles := bundles[BundleName(host, input) := d];
      stages := stages - {i};
      error := None;
    }

    /** The manifest, the read-only mode of the whole stage, and the final name. */
    method Finish(input: RunInput, i: nat, entries: seq<Entry>, around: Surroundings, ghost end: Ending)
      returns (error: Option<Error>)
      requires Ends(host, i, around, end)
      modifies this`stages, this`bundles
      ensures end(StepResult(old(Content()), WritingManifest(input, entries)))
           == end(StepResult(Content(), Then(input, error, Unlocking(input, Published(host.digest(PrintedFor(host, input, entries)), true)))))
    {
      var n := |input.refs|;
      ghost var goal := end(StepResult(Content(), WritingManifest(input, entries)));
      ManifestStep(host, i, around, end, Content(), input, entries);
      error := WriteManifest(input, i, entries, around(5 + n));
      if error.Some? { return; }
      assert goal == end(StepResult(Content(), SealingStage(input, entries)));
      SealStep(host, i, around, end, Content(), input, entries);
      error := Seal(input, i, entries, around(6 + n));
      if error.Some? { return; }
      assert goal == end(StepResult(Content(), Renaming(input, entries)));
      RenameStep(host, i, around, end, Content(), input, entries);
      error := Rename(input, i, entries, around(7 + n));
    }
  }
}

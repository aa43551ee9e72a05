/** The release cutover: two renames in one parent directory, with syncs, failures, reverts and crashes at any
    moment, as a step system and as straight-line code. */
module ReleaseSwitch {
  datatype Identity = Identity(sourceCommit: string, manifestDigest: string)

  /** An installed release: its identity and whatever bytes lie under it. */
  datatype Tree = Tree(identity: Identity, bytes: string)

  type Directory = map<string, Tree>

  function Moved(d: Directory, from: string, to: string): Directory
    requires from in d
  {
    (d - {from})[to := d[from]]
  }

  /** The three paths of a cutover. */
  datatype Paths = Paths(active: string, candidate: string, previous: string) {
    predicate Distinct() { active != candidate && active != previous && candidate != previous }
    function All(): set<string> { {active, candidate, previous} }
  }

  /** Both releases installed, and nowhere yet to keep the old one. */
  predicate Ready(d: Directory, p: Paths) {
    p.Distinct() && p.active in d && p.candidate in d && p.previous !in d
  }

  /** The old release set aside, nothing active. */
  function Vacant(d: Directory, p: Paths): Directory
    requires Ready(d, p)
  {
    Moved(d, p.active, p.previous)
  }

  function Switched(d: Directory, p: Paths): Directory
    requires Ready(d, p)
  {
    Moved(Vacant(d, p), p.candidate, p.active)
  }

  /** The old release stands at `oldAt`, the new one at `newAt`, the third path is free and nothing else differs. */
  ghost predicate Placed(start: Directory, p: Paths, d: Directory, oldAt: string, newAt: string)
    requires Ready(start, p)
  {
    && oldAt in p.All() && newAt in p.All() && oldAt != newAt
    && (forall path | path in p.All() :: path in d <==> path == oldAt || path == newAt)
    && d[oldAt] == start[p.active] && d[newAt] == start[p.candidate]
    && (forall path | path !in p.All() :: (path in d <==> path in start) && (path in d ==> d[path] == start[path]))
  }

  /** Both trees of `start` exist, each at exactly one of the three paths. */
  ghost predicate BothSurvive(start: Directory, p: Paths, d: Directory)
    requires Ready(start, p)
  {
    exists oldAt, newAt :: Placed(start, p, d, oldAt, newAt)
  }

  /** Where a cutover may stand: before, between the renames, or after. */
  ghost predicate Stage(start: Directory, p: Paths, d: Directory)
    requires Ready(start, p)
  {
    d == start || d == Vacant(start, p) || d == Switched(start, p)
  }

  lemma {:induction false} EveryStageKeepsBoth(start: Directory, p: Paths, d: Directory)
    requires Ready(start, p) && Stage(start, p, d)
    ensures BothSurvive(start, p, d)
  {
    if d == start {
      assert Placed(start, p, d, p.active, p.candidate);
    } else if d == Vacant(start, p) {
      assert Placed(start, p, d, p.previous, p.candidate);
    } else {
      assert Placed(start, p, d, p.previous, p.active);
    }
  }

  /** Undoing the first rename, or both in reverse, gives back the directory; finishing the second completes it. */
  lemma {:induction false} RenamesUndo(d: Directory, p: Paths)
    requires Ready(d, p)
    ensures p.previous in Vacant(d, p) && p.candidate in Vacant(d, p) && p.active !in Vacant(d, p)
    ensures p.active in Switched(d, p) && p.previous in Switched(d, p) && p.candidate !in Switched(d, p)
    ensures Switched(d, p)[p.active] == d[p.candidate] && Switched(d, p)[p.previous] == d[p.active]
    ensures Moved(Vacant(d, p), p.previous, p.active) == d
    ensures Moved(Switched(d, p), p.active, p.candidate) == Vacant(d, p)
  {
  }

  /** Rolling back is the same cutover with the retained release as candidate, and it restores the directory. */
  lemma {:induction false} SwitchBackRestores(d: Directory, p: Paths)
    requires Ready(d, p)
    ensures var back := Paths(p.active, p.previous, p.candidate);
      Ready(Switched(d, p), back) && Switched(Switched(d, p), back) == d
    ensures forall activeId, candidateId | Admissible(d, Cutover(p, activeId, candidateId)) ::
      Admissible(Switched(d, p), Cutover(Paths(p.active, p.previous, p.candidate), candidateId, activeId))
  {
  }

  // ---- the directory on disk ----

  /** Every state the directory had, in order, and the number of the last one known to be on disk. */
  datatype Disk = Disk(history: seq<Directory>, durable: nat)
  {
    predicate Valid() { durable < |history| }

    function View(): Directory
      requires Valid()
    {
      history[|history| - 1]
    }

    /** What a crash now may leave: any state not older than the last one synced. */
    ghost predicate MayLeave(d: Directory) {
      exists k: nat :: durable <= k < |history| && history[k] == d
    }
  }

  /** A rename never replaces a directory. */
  predicate RenameWorks(d: Directory, from: string, to: string, fails: bool) {
    !fails && from in d && to !in d
  }

  function Renamed(disk: Disk, from: string, to: string, fails: bool): (r: Disk)
    requires disk.Valid()
    ensures r.Valid()
  {
    if RenameWorks(disk.View(), from, to, fails) then disk.(history := disk.history + [Moved(disk.View(), from, to)])
    else disk
  }

  function Synced(disk: Disk, fails: bool): (r: Disk)
    requires disk.Valid()
    ensures r.Valid()
  {
    if fails then disk else disk.(durable := |disk.history| - 1)
  }

  predicate ReadsBack(d: Directory, path: string, id: Identity, fails: bool) {
    !fails && path in d && d[path].identity == id
  }

  // ---- the cutover, step by step ----

  datatype Outcome =
    | Done | Refused | NotSetAside | SetAsideUnsynced | NotActivated | ActivatedUnsynced | ReadbackFailed | ParentChanged

  /** Where a cutover stands, in source order: each point is one call that may fail. */
  datatype Point =
    | Checking
    | SettingAside | SyncingFirst | Undoing | SyncingUndo
    | Activating | Restoring | SyncingRestore | SyncingSecond
    | ReadingActive | ReadingPrevious(activeOk: bool) | TakingOut | PuttingBack | SyncingRevert
    | CheckingParent
    | Ended(outcome: Outcome)

  datatype Cutover = Cutover(paths: Paths, activeId: Identity, candidateId: Identity)

  /** What is checked before anything moves. */
  predicate Admissible(d: Directory, c: Cutover) {
    && c.activeId.sourceCommit != c.candidateId.sourceCommit
    && Ready(d, c.paths) && d[c.paths.active].identity == c.activeId && d[c.paths.candidate].identity == c.candidateId
  }

  datatype Progress = Progress(disk: Disk, point: Point)

  function Step(disk: Disk, c: Cutover, point: Point, fails: bool): (r: Progress)
    requires disk.Valid()
    ensures r.disk.Valid()
  {
    var p := c.paths;
    match point
    case Checking => Progress(disk, if !fails && Admissible(disk.View(), c) then SettingAside else Ended(Refused))
    case SettingAside =>
      Progress(Renamed(disk, p.active, p.previous, fails),
               if RenameWorks(disk.View(), p.active, p.previous, fails) then SyncingFirst else Ended(NotSetAside))
    case SyncingFirst => Progress(Synced(disk, fails), if fails then Undoing else Activating)
    case Undoing => Progress(Renamed(disk, p.previous, p.active, fails), SyncingUndo)
    case SyncingUndo => Progress(Synced(disk, fails), Ended(SetAsideUnsynced))
    case Activating =>
      Progress(Renamed(disk, p.candidate, p.active, fails),
               if RenameWorks(disk.View(), p.candidate, p.active, fails) then SyncingSecond else Restoring)
    case Restoring => Progress(Renamed(disk, p.previous, p.active, fails), SyncingRestore)
    case SyncingRestore => Progress(Synced(disk, fails), Ended(NotActivated))
    case SyncingSecond => Progress(Synced(disk, fails), if fails then Ended(ActivatedUnsynced) else ReadingActive)
    case ReadingActive => Progress(disk, ReadingPrevious(ReadsBack(disk.View(), p.active, c.candidateId, fails)))
    case ReadingPrevious(activeOk) =>
      Progress(disk, if activeOk && ReadsBack(disk.View(), p.previous, c.activeId, fails) then CheckingParent else TakingOut)
    case TakingOut => Progress(Renamed(disk, p.active, p.candidate, fails), PuttingBack)
    case PuttingBack => Progress(Renamed(disk, p.previous, p.active, fails), SyncingRevert)
    case SyncingRevert => Progress(Synced(disk, fails), Ended(ReadbackFailed))
    case CheckingParent => Progress(disk, Ended(if fails then ParentChanged else Done))
    case Ended(_) => Progress(disk, point)
  }

  // ---- everything that happens to the parent directory ----

  /** A cutover in progress or ended, with the directory it found, where its own history begins, and whether that
      directory was synced. */
  datatype Activity = Idle | Busy(cutover: Cutover, point: Point, start: Directory, since: nat, synced: bool)

  datatype System = System(disk: Disk, activity: Activity)

  /** A new cutover (refused while another holds the lock), a step with its failure, the death of the process, or a
      crash of the host that leaves one of the states it may leave. */
  datatype Event = Begin(cutover: Cutover) | Advance(fails: bool) | Die | Crash(left: nat)

  predicate Locked(a: Activity) { a.Busy? && !a.point.Ended? }

  function Next(s: System, e: Event): (r: System)
    requires s.disk.Valid()
    ensures r.disk.Valid()
  {
    match e
    case Begin(c) =>
      var now := |s.disk.history| - 1;
      if Locked(s.activity) then s else s.(activity := Busy(c, Checking, s.disk.View(), now, s.disk.durable == now))
    case Advance(fails) =>
      if s.activity.Idle? then s
      else
        var r := Step(s.disk, s.activity.cutover, s.activity.point, fails);
        System(r.disk, s.activity.(point := r.point))
    case Die => s.(activity := Idle)
    case Crash(k) =>
      if s.disk.durable <= k < |s.disk.history|
      then System(Disk(s.disk.history + [s.disk.history[k]], |s.disk.history|), Idle)
      else s
  }

  function Run(first: Directory, events: seq<Event>): (s: System)
    ensures s.disk.Valid()
  {
    if events == [] then System(Disk([first], 0), Idle)
    else Next(Run(first, events[..|events| - 1]), events[|events| - 1])
  }

  // ---- what every step of a cutover keeps ----

  /** The state of the directory at each point of an admitted cutover. */
  ghost predicate StandsAt(start: Directory, p: Paths, point: Point, d: Directory)
    requires Ready(start, p)
  {
    match point
    case Checking | SettingAside => d == start
    case SyncingFirst | Undoing | Activating | Restoring => d == Vacant(start, p)
    case SyncingUndo | SyncingRestore => d == start || d == Vacant(start, p)
    case SyncingSecond | ReadingActive | ReadingPrevious(_) | TakingOut | CheckingParent => d == Switched(start, p)
    case PuttingBack => d == Vacant(start, p) || d == Switched(start, p)
    case SyncingRevert => Stage(start, p, d)
    case Ended(_) => Stage(start, p, d)
  }

  /** All there was since `since` is a stage of the cutover. */
  ghost predicate Staged(disk: Disk, since: nat, start: Directory, p: Paths) {
    Ready(start, p) && forall k: nat | since <= k < |disk.history| :: Stage(start, p, disk.history[k])
  }

  lemma {:induction false} RenameStages(disk: Disk, since: nat, start: Directory, p: Paths, from: string, to: string,
                                        fails: bool)
    requires disk.Valid() && Staged(disk, since, start, p)
    requires RenameWorks(disk.View(), from, to, fails) ==> Stage(start, p, Moved(disk.View(), from, to))
    ensures Staged(Renamed(disk, from, to, fails), since, start, p)
  {
  }

  /** Every step, failing or not, leads from stage to stage. */
  lemma {:induction false} StepStages(disk: Disk, since: nat, start: Directory, c: Cutover, point: Point, fails: bool)
    requires disk.Valid() && since < |disk.history| && Admissible(start, c)
    requires Staged(disk, since, start, c.paths) && StandsAt(start, c.paths, point, disk.View())
    ensures var r := Step(disk, c, point, fails);
      && since < |r.disk.history| && Staged(r.disk, since, start, c.paths) && StandsAt(start, c.paths, r.point, r.disk.View())
  {
    var p := c.paths;
    RenamesUndo(start, p);
    match point
    case SettingAside => RenameStages(disk, since, start, p, p.active, p.previous, fails);
    case Undoing => RenameStages(disk, since, start, p, p.previous, p.active, fails);
    case Activating => RenameStages(disk, since, start, p, p.candidate, p.active, fails);
    case Restoring => RenameStages(disk, since, start, p, p.previous, p.active, fails);
    case TakingOut => RenameStages(disk, since, start, p, p.active, p.candidate, fails);
    case PuttingBack => RenameStages(disk, since, start, p, p.previous, p.active, fails);
    case _ =>
  }

  /** Nothing is ever removed from the history, and the durable state only moves forward. */
  lemma {:induction false} StepGrows(disk: Disk, c: Cutover, point: Point, fails: bool)
    requires disk.Valid()
    ensures var r := Step(disk, c, point, fails); disk.history <= r.disk.history && disk.durable <= r.disk.durable
  {
  }

  /** An inadmissible cutover ends before anything moves. */
  ghost predicate BusyOk(disk: Disk, a: Activity)
    requires disk.Valid()
  {
    a.Busy? ==>
      && a.since < |disk.history| && (a.synced ==> a.since <= disk.durable)
      && (if Admissible(a.start, a.cutover)
          then Staged(disk, a.since, a.start, a.cutover.paths) && StandsAt(a.start, a.cutover.paths, a.point, disk.View())
          else disk.View() == a.start && (a.point == Checking || a.point == Ended(Refused)))
  }

  lemma {:induction false} NextKeepsBusy(s: System, e: Event)
    requires s.disk.Valid() && BusyOk(s.disk, s.activity)
    ensures BusyOk(Next(s, e).disk, Next(s, e).activity)
  {
    var a := s.activity;
    if e.Advance? && a.Busy? { StepGrows(s.disk, a.cutover, a.point, e.fails); }
    if e.Advance? && a.Busy? && Admissible(a.start, a.cutover) {
      StepStages(s.disk, a.since, a.start, a.cutover, a.point, e.fails);
    }
  }

  lemma {:induction false} EveryRunKeeps(first: Directory, events: seq<Event>)
    ensures BusyOk(Run(first, events).disk, Run(first, events).activity)
  {
    if events != [] {
      EveryRunKeeps(first, events[..|events| - 1]);
      NextKeepsBusy(Run(first, events[..|events| - 1]), events[|events| - 1]);
    }
  }

  // ---- crashes ----

  /** Over every run, at every step of a cutover that began on a synced directory, on every revert path and after a
      failing rename or sync: whatever a crash there may leave has both releases, each at exactly one path. */
  lemma {:induction false} CrashesKeepBoth(first: Directory, events: seq<Event>, d: Directory)
    requires var s := Run(first, events);
      s.activity.Busy? && s.activity.synced && Admissible(s.activity.start, s.activity.cutover) && s.disk.MayLeave(d)
    ensures BothSurvive(Run(first, events).activity.start, Run(first, events).activity.cutover.paths, d)
  {
    EveryRunKeeps(first, events);
    var s := Run(first, events);
    var k: nat :| s.disk.durable <= k < |s.disk.history| && s.disk.history[k] == d;
    EveryStageKeepsBoth(s.activity.start, s.activity.cutover.paths, d);
  }

  /** The steps of one cutover, with any choice of failures, up to any moment. */
  function Steps(disk: Disk, c: Cutover, faults: seq<bool>): (r: Progress)
    requires disk.Valid()
    ensures r.disk.Valid()
  {
    if faults == [] then Progress(disk, Checking)
    else
      var before := Steps(disk, c, faults[..|faults| - 1]);
      Step(before.disk, c, before.point, faults[|faults| - 1])
  }

  lemma {:induction false} StepsStage(disk: Disk, c: Cutover, faults: seq<bool>)
    requires disk.Valid() && Admissible(disk.View(), c)
    ensures var r := Steps(disk, c, faults);
      && disk.history <= r.disk.history && disk.durable <= r.disk.durable
      && Staged(r.disk, |disk.history| - 1, disk.View(), c.paths) && StandsAt(disk.View(), c.paths, r.point, r.disk.View())
  {
    if faults != [] {
      StepsStage(disk, c, faults[..|faults| - 1]);
      var before := Steps(disk, c, faults[..|faults| - 1]);
      StepStages(before.disk, |disk.history| - 1, disk.View(), c, before.point, faults[|faults| - 1]);
      StepGrows(before.disk, c, before.point, faults[|faults| - 1]);
    }
  }

  /** From a synced directory, whatever fails and wherever the cutover stops, every directory that was there since
      its beginning, and so everything a crash at any moment may leave, has both releases. */
  lemma {:induction false} EveryMomentKeepsBoth(disk: Disk, c: Cutover, faults: seq<bool>)
    requires disk.Valid() && disk.durable == |disk.history| - 1 && Admissible(disk.View(), c)
    ensures var r := Steps(disk, c, faults).disk;
      && (forall k: nat | |disk.history| - 1 <= k < |r.history| :: BothSurvive(disk.View(), c.paths, r.history[k]))
      && (forall d | r.MayLeave(d) :: BothSurvive(disk.View(), c.paths, d))
  {
    StepsStage(disk, c, faults);
    StagedKeepsBoth(Steps(disk, c, faults).disk, |disk.history| - 1, disk.View(), c.paths);
  }

  lemma {:induction false} StagedKeepsBoth(disk: Disk, since: nat, start: Directory, p: Paths)
    requires Staged(disk, since, start, p)
    ensures forall k: nat | since <= k < |disk.history| :: BothSurvive(start, p, disk.history[k])
  {
    forall k: nat | since <= k < |disk.history| ensures BothSurvive(start, p, disk.history[k]) {
      EveryStageKeepsBoth(start, p, disk.history[k]);
    }
  }

  // ---- nothing is ever lost, over any number of cutovers, deaths and crashes ----

  /** The paths a tree stands at. */
  function PathsOf(d: Directory, t: Tree): set<string> {
    set path | path in d && d[path] == t
  }

  /** Every tree stands at as many paths as before. */
  ghost predicate SameTrees(a: Directory, b: Directory) {
    forall t :: |PathsOf(a, t)| == |PathsOf(b, t)|
  }

  lemma {:induction false} MoveKeepsTrees(d: Directory, from: string, to: string)
    requires from in d && to !in d
    ensures SameTrees(d, Moved(d, from, to))
  {
    var d' := Moved(d, from, to);
    forall t ensures |PathsOf(d, t)| == |PathsOf(d', t)| {
      if d[from] == t {
        assert PathsOf(d, t) == (PathsOf(d, t) - {from}) + {from};
        assert PathsOf(d', t) == (PathsOf(d, t) - {from}) + {to};
      } else {
        assert PathsOf(d', t) == PathsOf(d, t);
      }
    }
  }

  ghost predicate AllSameTrees(first: Directory, disk: Disk) {
    forall k | 0 <= k < |disk.history| :: SameTrees(first, disk.history[k])
  }

  lemma {:induction false} StepKeepsTrees(first: Directory, disk: Disk, c: Cutover, point: Point, fails: bool)
    requires disk.Valid() && AllSameTrees(first, disk)
    ensures AllSameTrees(first, Step(disk, c, point, fails).disk)
  {
    var d, p := disk.View(), c.paths;
    forall from, to | RenameWorks(d, from, to, fails) ensures SameTrees(first, Moved(d, from, to)) {
      MoveKeepsTrees(d, from, to);
    }
  }

  /** Over every run from any directory, in every state the disk had or a crash may bring back, every release tree
      still exists, at exactly as many paths as at first. */
  lemma {:induction false} NoReleaseIsLost(first: Directory, events: seq<Event>)
    ensures AllSameTrees(first, Run(first, events).disk)
  {
    if events != [] {
      var s, e := Run(first, events[..|events| - 1]), events[|events| - 1];
      NoReleaseIsLost(first, events[..|events| - 1]);
      if e.Advance? && s.activity.Busy? { StepKeepsTrees(first, s.disk, s.activity.cutover, s.activity.point, e.fails); }
    }
  }

  // ---- one cutover run to its end ----

  type Faults = Point -> bool

  function Rank(point: Point): nat {
    match point
    case Checking => 0
    case SettingAside => 1
    case SyncingFirst => 2
    case Undoing => 3
    case SyncingUndo => 4
    case Activating => 3
    case Restoring => 4
    case SyncingRestore => 5
    case SyncingSecond => 4
    case ReadingActive => 5
    case ReadingPrevious(_) => 6
    case TakingOut => 7
    case PuttingBack => 8
    case SyncingRevert => 9
    case CheckingParent => 7
    case Ended(_) => 10
  }

  function Finish(disk: Disk, c: Cutover, point: Point, f: Faults): (r: Progress)
    requires disk.Valid()
    ensures r.disk.Valid() && r.point.Ended?
    decreases 10 - Rank(point)
  {
    if point.Ended? then Progress(disk, point)
    else
      var r := Step(disk, c, point, f(point));
      Finish(r.disk, c, r.point, f)
  }

  /** A cutover run to its end is one of the runs stopped at a moment, so what is proved of every moment holds of it. */
  lemma {:induction false} FinishIsSteps(disk: Disk, c: Cutover, f: Faults, faults: seq<bool>) returns (all: seq<bool>)
    requires disk.Valid()
    ensures faults <= all
    ensures var r := Steps(disk, c, faults); Finish(r.disk, c, r.point, f) == Steps(disk, c, all)
    decreases 10 - Rank(Steps(disk, c, faults).point)
  {
    var r := Steps(disk, c, faults);
    if r.point.Ended? {
      all := faults;
    } else {
      var longer := faults + [f(r.point)];
      assert longer[..|longer| - 1] == faults;
      all := FinishIsSteps(disk, c, f, longer);
    }
  }

  /** No call on the way of a successful cutover fails. */
  predicate Harmless(f: Faults) {
    && !f(Checking) && !f(SettingAside) && !f(SyncingFirst) && !f(Activating) && !f(SyncingSecond)
    && !f(ReadingActive) && !f(ReadingPrevious(true)) && !f(CheckingParent)
  }

  /** Where each outcome leaves the directory: the documented reconciliation states, told apart by which revert failed. */
  function After(start: Directory, p: Paths, f: Faults, r: Outcome): Directory
    requires Ready(start, p)
  {
    match r
    case Refused | NotSetAside => start
    case SetAsideUnsynced => if f(Undoing) then Vacant(start, p) else start
    case NotActivated => if f(Restoring) then Vacant(start, p) else start
    case ReadbackFailed => if f(TakingOut) then Switched(start, p) else if f(PuttingBack) then Vacant(start, p) else start
    case Done | ActivatedUnsynced | ParentChanged => Switched(start, p)
  }

  /** Whether the outcome's last sync came through, so that a crash can leave nothing but the final state. */
  predicate Settled(f: Faults, r: Outcome) {
    match r
    case SetAsideUnsynced => !f(SyncingUndo)
    case NotActivated => !f(SyncingRestore)
    case ReadbackFailed => !f(SyncingRevert)
    case Done | ParentChanged => true
    case ActivatedUnsynced | Refused | NotSetAside => false
  }

  // ---- what each outcome means ----

  /** What a cutover that ended so has done to a directory that stood at `start`. */
  ghost predicate Outcomes(start: Directory, c: Cutover, f: Faults, before: Disk, r: Progress)
    requires Ready(start, c.paths) && r.disk.Valid()
  {
    && r.point.Ended? && r.disk.View() == After(start, c.paths, f, r.point.outcome)
    && (Settled(f, r.point.outcome) ==> r.disk.durable == |r.disk.history| - 1)
    && (r.point.outcome == NotSetAside ==> r.disk == before)
  }

  lemma {:induction false} RevertOutcomes(start: Directory, c: Cutover, f: Faults, disk: Disk)
    requires disk.Valid() && Admissible(start, c) && disk.View() == Switched(start, c.paths)
    ensures var r := Finish(disk, c, TakingOut, f); Outcomes(start, c, f, disk, r) && r.point == Ended(ReadbackFailed)
  {
    var p := c.paths;
    RenamesUndo(start, p);
    var out := Step(disk, c, TakingOut, f(TakingOut));
    var back := Step(out.disk, c, PuttingBack, f(PuttingBack));
    var synced := Step(back.disk, c, SyncingRevert, f(SyncingRevert));
    assert back.disk.View() == After(start, p, f, ReadbackFailed);
    assert Finish(disk, c, TakingOut, f) == Finish(out.disk, c, PuttingBack, f) == Finish(back.disk, c, SyncingRevert, f) == synced;
  }

  lemma {:induction false} ReadBackOutcomes(start: Directory, c: Cutover, f: Faults, disk: Disk)
    requires disk.Valid() && Admissible(start, c) && disk.View() == Switched(start, c.paths) && disk.durable == |disk.history| - 1
    ensures var r := Finish(disk, c, ReadingActive, f);
      && Outcomes(start, c, f, disk, r) && r.point.outcome != Refused && r.point.outcome != NotSetAside
      && (r.point == Ended(Done) <==> !f(ReadingActive) && !f(ReadingPrevious(true)) && !f(CheckingParent))
  {
    RenamesUndo(start, c.paths);
    var activeOk := !f(ReadingActive);
    assert Step(disk, c, ReadingActive, f(ReadingActive)) == Progress(disk, ReadingPrevious(activeOk));
    var read := Step(disk, c, ReadingPrevious(activeOk), f(ReadingPrevious(activeOk)));
    assert Finish(disk, c, ReadingActive, f) == Finish(disk, c, ReadingPrevious(activeOk), f) == Finish(disk, c, read.point, f);
    if read.point == TakingOut { RevertOutcomes(start, c, f, disk); }
  }

  lemma {:induction false} ActivateOutcomes(start: Directory, c: Cutover, f: Faults, disk: Disk)
    requires disk.Valid() && Admissible(start, c) && disk.View() == Vacant(start, c.paths)
    ensures var r := Finish(disk, c, Activating, f);
      && Outcomes(start, c, f, disk, r) && r.point.outcome != Refused && r.point.outcome != NotSetAside
      && (r.point == Ended(Done) <==> !f(Activating) && !f(SyncingSecond) && !f(ReadingActive) && !f(ReadingPrevious(true)) && !f(CheckingParent))
  {
    RenamesUndo(start, c.paths);
    var moved := Step(disk, c, Activating, f(Activating));
    if f(Activating) {
      var restored := Step(moved.disk, c, Restoring, f(Restoring));
      assert Finish(disk, c, Activating, f) == Finish(moved.disk, c, Restoring, f) == Finish(restored.disk, c, SyncingRestore, f);
    } else {
      var synced := Step(moved.disk, c, SyncingSecond, f(SyncingSecond));
      assert Finish(disk, c, Activating, f) == Finish(moved.disk, c, SyncingSecond, f) == Finish(synced.disk, c, synced.point, f);
      if !f(SyncingSecond) { ReadBackOutcomes(start, c, f, synced.disk); }
    }
  }

  lemma {:induction false} SetAsideOutcomes(c: Cutover, f: Faults, disk: Disk)
    requires disk.Valid() && Admissible(disk.View(), c)
    ensures var r := Finish(disk, c, SettingAside, f);
      && Outcomes(disk.View(), c, f, disk, r) && r.point.outcome != Refused
      && (r.point == Ended(Done) <==> !f(SettingAside) && !f(SyncingFirst) && !f(Activating) && !f(SyncingSecond)
                                      && !f(ReadingActive) && !f(ReadingPrevious(true)) && !f(CheckingParent))
  {
    var start := disk.View();
    RenamesUndo(start, c.paths);
    var moved := Step(disk, c, SettingAside, f(SettingAside));
    if !f(SettingAside) {
      var synced := Step(moved.disk, c, SyncingFirst, f(SyncingFirst));
      assert Finish(disk, c, SettingAside, f) == Finish(moved.disk, c, SyncingFirst, f) == Finish(synced.disk, c, synced.point, f);
      if f(SyncingFirst) {
        var undone := Step(synced.disk, c, Undoing, f(Undoing));
        assert Finish(synced.disk, c, Undoing, f) == Finish(undone.disk, c, SyncingUndo, f);
      } else {
        ActivateOutcomes(start, c, f, synced.disk);
      }
    }
  }

  /** Success exactly when admissible and nothing fails; otherwise exactly the directory the outcome and the failed
      reverts say; and only stages of the cutover on the way. */
  lemma {:induction false} FinishedWell(disk: Disk, c: Cutover, f: Faults)
    requires disk.Valid()
    ensures var r := Finish(disk, c, Checking, f);
      var o := r.point.outcome;
      && disk.history <= r.disk.history && disk.durable <= r.disk.durable
      && (o == Done <==> Admissible(disk.View(), c) && Harmless(f))
      && (o == Refused || o == NotSetAside ==> r.disk == disk)
      && (o != Refused ==>
            && Admissible(disk.View(), c) && r.disk.View() == After(disk.View(), c.paths, f, o)
            && Staged(r.disk, |disk.history| - 1, disk.View(), c.paths))
      && (Settled(f, o) ==> r.disk.durable == |r.disk.history| - 1)
  {
    assert Finish(disk, c, Checking, f)
        == if !f(Checking) && Admissible(disk.View(), c) then Finish(disk, c, SettingAside, f) else Progress(disk, Ended(Refused));
    if !f(Checking) && Admissible(disk.View(), c) {
      SetAsideOutcomes(c, f, disk);
      assert Steps(disk, c, []) == Progress(disk, Checking);
      var faults := FinishIsSteps(disk, c, f, []);
      StepsStage(disk, c, faults);
    }
  }

  // ---- the straight-line cutover ----

  /** Where a cutover ends that has come to some point: a name for the rest of one run. */
  type Ending = Progress -> Progress

  predicate Asked(s: Progress) { true }

  ghost predicate Ends(c: Cutover, f: Faults, end: Ending) {
    forall s {:trigger Asked(s)} :: Asked(s) && s.disk.Valid() ==> end(s) == Finish(s.disk, c, s.point, f)
  }

  lemma {:induction false} OneStep(c: Cutover, f: Faults, end: Ending, disk: Disk, point: Point)
    requires Ends(c, f, end) && disk.Valid() && !point.Ended?
    ensures end(Progress(disk, point)) == end(Step(disk, c, point, f(point)))
  {
    assert Asked(Progress(disk, point)) && Asked(Step(disk, c, point, f(point)));
  }

  lemma {:induction false} AtEnd(c: Cutover, f: Faults, end: Ending, disk: Disk, outcome: Outcome)
    requires Ends(c, f, end) && disk.Valid()
    ensures end(Progress(disk, Ended(outcome))) == Progress(disk, Ended(outcome))
  {
    assert Asked(Progress(disk, Ended(outcome)));
  }

  class Parent {
    var entries: Directory
    ghost var history: seq<Directory>
    ghost var durable: nat

    ghost predicate Valid() reads this {
      durable < |history| && entries == history[|history| - 1]
    }

    ghost function OnDisk(): (d: Disk) reads this
      requires Valid()
      ensures d.Valid() && d.View() == entries
    {
      Disk(history, durable)
    }

    method Rename(from: string, to: string, fails: bool) returns (ok: bool)
      requires Valid()
      modifies this`entries, this`history
      ensures Valid() && old(durable) == durable && OnDisk() == Renamed(old(OnDisk()), from, to, fails)
      ensures ok <==> !fails && from in old(entries) && to !in old(entries)
      ensures ok ==> entries == Moved(old(entries), from, to) && history == old(history) + [entries]
      ensures !ok ==> entries == old(entries) && history == old(history)
    {
      ok := !fails && from in entries && to !in entries;
      if ok {
        entries := Moved(entries, from, to);
        history := history + [entries];
      }
    }

    method Sync(fails: bool) returns (ok: bool)
      requires Valid()
      modifies this`durable
      ensures Valid() && ok == !fails && old(durable) <= durable && OnDisk() == Synced(old(OnDisk()), fails)
      ensures durable == if ok then |history| - 1 else old(durable)
    {
      ok := !fails;
      if ok { durable := |history| - 1; }
    }

    /** Whether the release with this identity can be read back. */
    method VerifyInstalled(path: string, id: Identity, fails: bool) returns (ok: bool)
      ensures ok <==> !fails && path in entries && entries[path].identity == id
    {
      ok := !fails && path in entries && entries[path].identity == id;
    }

    /** The whole cutover. It takes exactly the steps of the step system. Everything a crash may leave that is not
        older than its beginning has both releases. */
    method Switch(c: Cutover, f: Faults) returns (r: Outcome)
      requires Valid()
      modifies this
      ensures Valid() && old(history) <= history && old(durable) <= durable
      ensures Progress(OnDisk(), Ended(r)) == Finish(old(OnDisk()), c, Checking, f)
      ensures r == Done <==> Admissible(old(entries), c) && Harmless(f)
      ensures r == Refused || r == NotSetAside ==> entries == old(entries) && history == old(history) && durable == old(durable)
      ensures r != Refused ==> Admissible(old(entries), c) && entries == After(old(entries), c.paths, f, r)
      ensures r != Refused ==> Staged(OnDisk(), |old(history)| - 1, old(entries), c.paths)
      ensures r != Refused ==>
        forall k: nat | |old(history)| - 1 <= k < |history| :: BothSurvive(old(entries), c.paths, history[k])
      ensures Settled(f, r) ==> durable == |history| - 1
    {
      ghost var start, since := entries, |history| - 1;
      FinishedWell(OnDisk(), c, f);
      r := Attempt(c, f);
      if r != Refused { StagedKeepsBoth(OnDisk(), since, start, c.paths); }
    }

    method Attempt(c: Cutover, f: Faults) returns (r: Outcome)
      requires Valid()
      modifies this
      ensures Valid() && Progress(OnDisk(), Ended(r)) == Finish(old(OnDisk()), c, Checking, f)
    {
      ghost var end: Ending := (s: Progress) => if s.disk.Valid() then Finish(s.disk, c, s.point, f) else s;
      assert end(Progress(OnDisk(), Checking)) == Finish(OnDisk(), c, Checking, f);
      OneStep(c, f, end, OnDisk(), Checking);
      var admitted := Preflight(c, f(Checking));
      if !admitted {
        AtEnd(c, f, end, OnDisk(), Refused);
        return Refused;
      }
      r := SetAside(c, f, end);
    }

    /** The checks before anything moves. */
    method Preflight(c: Cutover, fails: bool) returns (ok: bool)
      requires Valid()
      ensures ok <==> !fails && Admissible(entries, c)
    {
      var p := c.paths;
      if fails || c.activeId.sourceCommit == c.candidateId.sourceCommit || !p.Distinct() || p.previous in entries { return false; }
      var activeOk := VerifyInstalled(p.active, c.activeId, false);
      var candidateOk := VerifyInstalled(p.candidate, c.candidateId, false);
      ok := activeOk && candidateOk;
    }

    /** The first rename and its sync. */
    method SetAside(c: Cutover, f: Faults, ghost end: Ending) returns (r: Outcome)
      requires Valid() && Ends(c, f, end)
      modifies this
      ensures Valid() && Progress(OnDisk(), Ended(r)) == end(Progress(old(OnDisk()), SettingAside))
    {
      OneStep(c, f, end, OnDisk(), SettingAside);
      var ok := Rename(c.paths.active, c.paths.previous, f(SettingAside));
      if !ok {
        AtEnd(c, f, end, OnDisk(), NotSetAside);
        return NotSetAside;
      }
      OneStep(c, f, end, OnDisk(), SyncingFirst);
      ok := Sync(f(SyncingFirst));
      if ok {
        r := Activate(c, f, end);
      } else {
        r := Undo(c, f, end);
      }
    }

    method Undo(c: Cutover, f: Faults, ghost end: Ending) returns (r: Outcome)
      requires Valid() && Ends(c, f, end)
      modifies this
      ensures Valid() && Progress(OnDisk(), Ended(r)) == end(Progress(old(OnDisk()), Undoing))
    {
      OneStep(c, f, end, OnDisk(), Undoing);
      var undone := Rename(c.paths.previous, c.paths.active, f(Undoing));
      OneStep(c, f, end, OnDisk(), SyncingUndo);
      var synced := Sync(f(SyncingUndo));
      AtEnd(c, f, end, OnDisk(), SetAsideUnsynced);
      r := SetAsideUnsynced;
    }

    /** The second rename and its sync. */
    method Activate(c: Cutover, f: Faults, ghost end: Ending) returns (r: Outcome)
      requires Valid() && Ends(c, f, end)
      modifies this
      ensures Valid() && Progress(OnDisk(), Ended(r)) == end(Progress(old(OnDisk()), Activating))
    {
      OneStep(c, f, end, OnDisk(), Activating);
      var ok := Rename(c.paths.candidate, c.paths.active, f(Activating));
      if !ok {
        r := Restore(c, f, end);
        return;
      }
      OneStep(c, f, end, OnDisk(), SyncingSecond);
      ok := Sync(f(SyncingSecond));
      if !ok {
        AtEnd(c, f, end, OnDisk(), ActivatedUnsynced);
        return ActivatedUnsynced;
      }
      r := ReadBack(c, f, end);
    }

    method Restore(c: Cutover, f: Faults, ghost end: Ending) returns (r: Outcome)
      requires Valid() && Ends(c, f, end)
      modifies this
      ensures Valid() && Progress(OnDisk(), Ended(r)) == end(Progress(old(OnDisk()), Restoring))
    {
      OneStep(c, f, end, OnDisk(), Restoring);
      var restored := Rename(c.paths.previous, c.paths.active, f(Restoring));
      OneStep(c, f, end, OnDisk(), SyncingRestore);
      var synced := Sync(f(SyncingRestore));
      AtEnd(c, f, end, OnDisk(), NotActivated);
      r := NotActivated;
    }

    /** After both renames: read both releases back, and revert if either cannot be read. */
    method ReadBack(c: Cutover, f: Faults, ghost end: Ending) returns (r: Outcome)
      requires Valid() && Ends(c, f, end)
      modifies this
      ensures Valid() && Progress(OnDisk(), Ended(r)) == end(Progress(old(OnDisk()), ReadingActive))
    {
      OneStep(c, f, end, OnDisk(), ReadingActive);
      var activeOk := VerifyInstalled(c.paths.active, c.candidateId, f(ReadingActive));
      OneStep(c, f, end, OnDisk(), ReadingPrevious(activeOk));
      var previousOk := VerifyInstalled(c.paths.previous, c.activeId, f(ReadingPrevious(activeOk)));
      if !activeOk || !previousOk {
        r := Revert(c, f, end);
        return;
      }
      OneStep(c, f, end, OnDisk(), CheckingParent);
      r := if f(CheckingParent) then ParentChanged else Done;
      AtEnd(c, f, end, OnDisk(), r);
    }

    /** The candidate out again, the old release back. */
    method Revert(c: Cutover, f: Faults, ghost end: Ending) returns (r: Outcome)
      requires Valid() && Ends(c, f, end)
      modifies this
      ensures Valid() && Progress(OnDisk(), Ended(r)) == end(Progress(old(OnDisk()), TakingOut))
    {
      OneStep(c, f, end, OnDisk(), TakingOut);
      var out := Rename(c.paths.active, c.paths.candidate, f(TakingOut));
      r := PutBack(c, f, end);
    }

    method PutBack(c: Cutover, f: Faults, ghost end: Ending) returns (r: Outcome)
      requires Valid() && Ends(c, f, end)
      modifies this
      ensures Valid() && Progress(OnDisk(), Ended(r)) == end(Progress(old(OnDisk()), PuttingBack))
    {
      OneStep(c, f, end, OnDisk(), PuttingBack);
      var back := Rename(c.paths.previous, c.paths.active, f(PuttingBack));
      OneStep(c, f, end, OnDisk(), SyncingRevert);
      var synced := Sync(f(SyncingRevert));
      AtEnd(c, f, end, OnDisk(), ReadbackFailed);
      r := ReadbackFailed;
    }
  }
}

/** When each request goes through and what it then leaves: exact conditions on the stored records, and the new
    store, spelled out. With atomicity they say so at the moment of the write under every interleaving. */
module WorkProgress {
  import opened Options
  import opened DeliverySubject
  import opened WorkModel
  import opened WorkStore
  import opened WorkHandlers
  import opened WorkInvariant
  import opened WorkAtomic

  // ---- one turn of a handler at a time ----

  /** What the rest of a handler comes to from any records read, looked up only where asked. */
  type Rest = Locals -> Result<Store>

  predicate Asked(l: Locals) { true }

  ghost predicate Rests(s: Store, req: Request, rest: Rest) {
    forall l {:trigger Asked(l)} :: Asked(l) ==> rest(l) == Alone(s, req, l)
  }

  lemma {:induction false} Stops(s: Store, req: Request, rest: Rest, l: Locals, error: Error)
    requires Rests(s, req, rest) && MoveOf(req, l) == GiveUp(error)
    ensures rest(l) == Err(error)
  {
    assert Asked(l);
  }

  lemma {:induction false} Misses(s: Store, req: Request, rest: Rest, l: Locals, move: Move)
    requires Rests(s, req, rest) && MoveOf(req, l) == move && !move.GiveUp? && !move.Write? && Read(s, l, move) == None
    ensures rest(l) == Err(NotFound)
  {
    assert Asked(l);
  }

  lemma {:induction false} GoesOn(s: Store, req: Request, rest: Rest, l: Locals, move: Move, l': Locals)
    requires Rests(s, req, rest) && MoveOf(req, l) == move && !move.GiveUp? && !move.Write? && Read(s, l, move) == Some(l')
    ensures rest(l) == rest(l')
  {
    assert Asked(l) && Asked(l');
  }

  lemma {:induction false} Lands(s: Store, req: Request, rest: Rest, l: Locals)
    requires Rests(s, req, rest) && MoveOf(req, l) == Write
    ensures rest(l) == Written(s, req, l)
  {
    assert Asked(l);
  }

  // ---- work items ----

  predicate Creatable(s: Store, item: WorkItem) {
    item.id != "" && item.title != "" && item.owner != "" && item.id !in s.works
  }

  /** The state the caller states is kept. */
  function WithWork(s: Store, item: WorkItem, stated: bool): Store {
    s.(works := s.works[item.id := item.(state := if stated then item.state else Draft,
                                         version := if item.version == 0 then 1 else item.version)])
  }

  lemma {:induction false} CreatingWork(s: Store, rest: Rest, item: WorkItem, stated: bool)
    requires Rests(s, NewWork(item, stated), rest)
    ensures rest(NothingRead).Ok? <==> Creatable(s, item)
    ensures Creatable(s, item) ==> rest(NothingRead) == Ok(WithWork(s, item, stated))
  {
    var req := NewWork(item, stated);
    if item.id == "" || item.title == "" || item.owner == "" {
      Stops(s, req, rest, NothingRead, BadRequest);
    } else {
      Lands(s, req, rest, NothingRead);
    }
  }

  // ---- tasks ----

  /** The revision follows the last one of that task, the first being number one. */
  predicate NextRevision(s: Store, id: string, revision: nat) {
    if id in s.revisions
    then revision !in s.revisions[id] && id in s.latestRevision && revision == s.latestRevision[id] + 1
    else revision == 1
  }

  function Frozen(contract: Task, plan: Plan): Task {
    contract.(planId := plan.id, plan := PlanDigest(plan), revision := if contract.revision == 0 then 1 else contract.revision)
  }

  predicate Freezable(s: Store, contract: Task, plan: Plan, admitted: bool) {
    && contract.id != "" && contract.workItemId != "" && contract.taskType != "" && admitted
    && ValidPlan(plan, contract.acceptance) && contract.workItemId in s.works
    && var w := s.works[contract.workItemId];
       && (w.state == Draft || w.state == Ready) && w.run == ""
       && TaskDigest(Frozen(contract, plan)) !in s.tasks
       && NextRevision(s, contract.id, Frozen(contract, plan).revision)
  }

  function WithTask(s: Store, task: Task, plan: Plan): Store
    requires task.workItemId in s.works
  {
    var w := s.works[task.workItemId];
    var known := if task.id in s.revisions then s.revisions[task.id] else map[];
    s.(works := s.works[w.id := w.(task := TaskDigest(task), run := "", state := Ready, version := w.version + 1)],
       revisions := s.revisions[task.id := known[task.revision := task]],
       latestRevision := s.latestRevision[task.id := task.revision],
       tasks := s.tasks[TaskDigest(task) := task],
       plans := s.plans[PlanDigest(plan) := plan])
  }

  lemma {:induction false} FreezingTask(s: Store, rest: Rest, contract: Task, plan: Plan, admitted: bool)
    requires Keyed(s) && Rests(s, NewTask(contract, plan, admitted), rest)
    ensures rest(NothingRead).Ok? <==> Freezable(s, contract, plan, admitted)
    ensures Freezable(s, contract, plan, admitted) ==> rest(NothingRead) == Ok(WithTask(s, Frozen(contract, plan), plan))
  {
    var req := NewTask(contract, plan, admitted);
    if contract.id == "" || contract.workItemId == "" || contract.taskType == "" {
      Stops(s, req, rest, NothingRead, BadRequest);
    } else if contract.workItemId !in s.works {
      Misses(s, req, rest, NothingRead, ReadWork(contract.workItemId));
    } else {
      var l := NothingRead.(work := Some(s.works[contract.workItemId]));
      GoesOn(s, req, rest, NothingRead, ReadWork(contract.workItemId), l);
      if MoveOf(req, l) == Write {
        Lands(s, req, rest, l);
        TaskLands(s, contract, plan, s.works[contract.workItemId]);
      } else {
        Stops(s, req, rest, l, MoveOf(req, l).error);
      }
    }
  }

  lemma {:induction false} TaskLands(s: Store, contract: Task, plan: Plan, w: WorkItem)
    requires plan.id != "" && Holds(s.works, contract.workItemId, w) && w.id == contract.workItemId
    requires w.state == Draft || w.state == Ready
    ensures WriteNewTask(s, contract, plan, w).Ok? <==>
      w.run == "" && TaskDigest(Frozen(contract, plan)) !in s.tasks && NextRevision(s, contract.id, Frozen(contract, plan).revision)
    ensures WriteNewTask(s, contract, plan, w).Ok? ==>
      WriteNewTask(s, contract, plan, w) == Ok(WithTask(s, Frozen(contract, plan), plan))
  {
    var task := Frozen(contract, plan);
    TaskStored(s, task, plan, w, w.(task := TaskDigest(task), run := "", state := Ready));
  }

  lemma {:induction false} TaskStored(s: Store, task: Task, plan: Plan, w: WorkItem, next: WorkItem)
    requires task.revision != 0 && plan.id != "" && task.planId == plan.id && task.plan == PlanDigest(plan)
    requires Holds(s.works, task.workItemId, w) && w.id == task.workItemId && (w.state == Draft || w.state == Ready)
    requires next == w.(task := TaskDigest(task), run := "", state := Ready)
    ensures var r := CreateTaskAndUpdateWork(s, task, plan, w.version, next);
      && (r.Ok? <==> w.run == "" && TaskDigest(task) !in s.tasks && NextRevision(s, task.id, task.revision))
      && (r.Ok? ==> r == Ok(WithTask(s, task, plan)))
  {
  }

  // ---- runs ----

  predicate Startable(s: Store, runId: string, task: TaskDigest, attemptId: string, profiles: string, admitted: bool) {
    && runId != "" && task != OtherText("") && attemptId != "" && admitted && task in s.tasks
    && s.tasks[task].workItemId in s.works
    && var w := s.works[s.tasks[task].workItemId];
       && w.state == Ready && w.task == task && w.run == ""
       && runId !in s.runs && RunInput(runId, task, profiles) !in s.inputs
  }

  function WithRun(s: Store, runId: string, task: TaskDigest, attemptId: string, profiles: string): Store
    requires task in s.tasks && s.tasks[task].workItemId in s.works
  {
    var w, input := s.works[s.tasks[task].workItemId], RunInput(runId, task, profiles);
    s.(works := s.works[w.id := w.(run := runId, state := Executing, version := w.version + 1)],
       runs := s.runs[runId := Run(runId, task, input, Running, 1, 1, attemptId, false)],
       inputs := s.inputs + {input})
  }

  lemma {:induction false} StartingRun(s: Store, rest: Rest, runId: string, task: TaskDigest, attemptId: string,
                                       profiles: string,
                                       admitted: bool)
    requires Keyed(s) && Rests(s, NewRun(runId, task, attemptId, profiles, admitted), rest)
    ensures rest(NothingRead).Ok? <==> Startable(s, runId, task, attemptId, profiles, admitted)
    ensures Startable(s, runId, task, attemptId, profiles, admitted) ==>
      rest(NothingRead) == Ok(WithRun(s, runId, task, attemptId, profiles))
  {
    var req := NewRun(runId, task, attemptId, profiles, admitted);
    if runId == "" || task == OtherText("") || attemptId == "" || !admitted {
      Stops(s, req, rest, NothingRead, BadRequest);
    } else if task !in s.tasks {
      Misses(s, req, rest, NothingRead, ReadTask(task));
    } else {
      var l1 := NothingRead.(task := Some(s.tasks[task]));
      GoesOn(s, req, rest, NothingRead, ReadTask(task), l1);
      var id := s.tasks[task].workItemId;
      if id !in s.works {
        Misses(s, req, rest, l1, ReadWork(id));
      } else {
        var l2 := l1.(work := Some(s.works[id]));
        GoesOn(s, req, rest, l1, ReadWork(id), l2);
        if s.works[id].state != Ready || s.works[id].task != task {
          Stops(s, req, rest, l2, Conflict);
        } else {
          Lands(s, req, rest, l2);
          RunLands(s, runId, task, attemptId, profiles, s.works[id]);
        }
      }
    }
  }

  lemma {:induction false} RunLands(s: Store, runId: string, task: TaskDigest, attemptId: string, profiles: string,
                                    w: WorkItem)
    requires task in s.tasks && Holds(s.works, s.tasks[task].workItemId, w) && w.id == s.tasks[task].workItemId
    requires w.state == Ready && w.task == task
    ensures WriteNewRun(s, runId, task, attemptId, profiles, w).Ok? <==>
      w.run == "" && runId !in s.runs && RunInput(runId, task, profiles) !in s.inputs
    ensures WriteNewRun(s, runId, task, attemptId, profiles, w).Ok? ==>
      WriteNewRun(s, runId, task, attemptId, profiles, w) == Ok(WithRun(s, runId, task, attemptId, profiles))
  {
  }

  predicate Changeable(s: Store, runId: string, epoch: nat) {
    runId in s.runs && s.runs[runId].epoch == epoch && s.runs[runId].state != Completed && s.runs[runId].state != Aborted
  }

  /** The run after each change: pausing and resuming only move its state, a takeover also starts a new epoch under
      a human. */
  function AfterChange(r: Run, change: RunChange): Run {
    match change
    case Pause => r.(state := Paused, version := r.version + 1)
    case Resume => r.(state := Running, version := r.version + 1)
    case Takeover => r.(state := HumanControlled, epoch := r.epoch + 1, human := true, version := r.version + 1)
    case Complete => r.(state := Completed, version := r.version + 1)
  }

  lemma {:induction false} ChangingRun(s: Store, rest: Rest, runId: string, epoch: nat, change: RunChange,
                                       admitted: bool)
    requires Keyed(s) && Rests(s, ChangeRun(runId, epoch, change, admitted), rest)
    ensures rest(NothingRead).Ok? <==> admitted && change != Complete && Changeable(s, runId, epoch)
    ensures rest(NothingRead).Ok? ==> rest(NothingRead) == Ok(s.(runs := s.runs[runId := AfterChange(s.runs[runId], change)]))
  {
    var req := ChangeRun(runId, epoch, change, admitted);
    if runId !in s.runs {
      Misses(s, req, rest, NothingRead, ReadRun(runId));
    } else {
      var l := NothingRead.(run := Some(s.runs[runId]));
      GoesOn(s, req, rest, NothingRead, ReadRun(runId), l);
      if MoveOf(req, l) == Write {
        Lands(s, req, rest, l);
      } else {
        Stops(s, req, rest, l, MoveOf(req, l).error);
      }
    }
  }

  predicate Completable(s: Store, runId: string, epoch: nat) {
    && Changeable(s, runId, epoch) && s.runs[runId].task in s.tasks
    && s.tasks[s.runs[runId].task].workItemId in s.works
    && var w := s.works[s.tasks[s.runs[runId].task].workItemId];
       w.state == Executing && w.task == s.runs[runId].task && w.run == runId
  }

  function WithCompletion(s: Store, runId: string, w: WorkItem): Store
    requires runId in s.runs
  {
    s.(works := s.works[w.id := w.(state := Verifying, version := w.version + 1)],
       runs := s.runs[runId := AfterChange(s.runs[runId], Complete)])
  }

  lemma {:induction false} CompletingRun(s: Store, rest: Rest, runId: string, epoch: nat)
    requires Keyed(s) && Rests(s, CompleteRun(runId, epoch), rest)
    ensures rest(NothingRead).Ok? <==> Completable(s, runId, epoch)
    ensures Completable(s, runId, epoch) ==>
      rest(NothingRead) == Ok(WithCompletion(s, runId, s.works[s.tasks[s.runs[runId].task].workItemId]))
  {
    var req := CompleteRun(runId, epoch);
    if runId !in s.runs {
      Misses(s, req, rest, NothingRead, ReadRun(runId));
    } else {
      var run := s.runs[runId];
      var l1 := NothingRead.(run := Some(run));
      GoesOn(s, req, rest, NothingRead, ReadRun(runId), l1);
      if !Changeable(s, runId, epoch) {
        Stops(s, req, rest, l1, MoveOf(req, l1).error);
      } else if run.task !in s.tasks {
        Misses(s, req, rest, l1, ReadTask(run.task));
      } else {
        var l2 := l1.(task := Some(s.tasks[run.task]));
        GoesOn(s, req, rest, l1, ReadTask(run.task), l2);
        CompletingWork(s, req, rest, l2);
      }
    }
  }

  /** From the work item on. */
  lemma {:induction false} CompletingWork(s: Store, req: Request, rest: Rest, l: Locals)
    requires Keyed(s) && req.CompleteRun? && Rests(s, req, rest)
    requires Changeable(s, req.runId, req.epoch) && s.runs[req.runId].task in s.tasks
    requires l == NothingRead.(run := Some(s.runs[req.runId]), task := Some(s.tasks[s.runs[req.runId].task]))
    ensures rest(l).Ok? <==> Completable(s, req.runId, req.epoch)
    ensures Completable(s, req.runId, req.epoch) ==>
      rest(l) == Ok(WithCompletion(s, req.runId, s.works[s.tasks[s.runs[req.runId].task].workItemId]))
  {
    var id := s.tasks[s.runs[req.runId].task].workItemId;
    if id !in s.works {
      Misses(s, req, rest, l, ReadWork(id));
    } else {
      var l' := l.(work := Some(s.works[id]));
      GoesOn(s, req, rest, l, ReadWork(id), l');
      if MoveOf(req, l') == Write {
        Lands(s, req, rest, l');
      } else {
        Stops(s, req, rest, l', Conflict);
      }
    }
  }

  // ---- deliveries and evidence ----

  predicate Deliverable(s: Store, id: string, runId: string, resultCommit: string, artifacts: seq<Artifact>) {
    && id != "" && runId != "" && id !in s.deliveries && runId in s.runs && s.runs[runId].state == Completed
    && s.runs[runId].task in s.tasks && (resultCommit != "" || artifacts != [])
    && forall a | a in artifacts :: a.id != "" && a.digest != ""
  }

  function WithDelivery(s: Store, id: string, runId: string, resultCommit: string, artifacts: seq<Artifact>): Store
    requires runId in s.runs && s.runs[runId].task in s.tasks
  {
    var digest := s.runs[runId].task;
    var t := s.tasks[digest];
    s.(deliveries := s.deliveries[id :=
      Delivery(id, t.workItemId, digest, runId, t.targetId, t.baseCommit, resultCommit, artifacts,
               SubjectDigest(digest, runId, t.targetId, t.baseCommit, resultCommit,
                             Sorted(seq(|artifacts|, i requires 0 <= i < |artifacts| =>
                                      Pair(artifacts[i].id, artifacts[i].digest)))))])
  }

  lemma {:induction false} Delivering(s: Store, rest: Rest, id: string, runId: string, resultCommit: string,
                                      artifacts: seq<Artifact>)
    requires Keyed(s) && Rests(s, NewDelivery(id, runId, resultCommit, artifacts), rest)
    ensures rest(NothingRead).Ok? <==> Deliverable(s, id, runId, resultCommit, artifacts)
    ensures Deliverable(s, id, runId, resultCommit, artifacts) ==>
      rest(NothingRead) == Ok(WithDelivery(s, id, runId, resultCommit, artifacts))
  {
    var req := NewDelivery(id, runId, resultCommit, artifacts);
    assert PairsOf(artifacts) == seq(|artifacts|, i requires 0 <= i < |artifacts| => Pair(artifacts[i].id, artifacts[i].digest));
    if id == "" || runId == "" {
      Stops(s, req, rest, NothingRead, BadRequest);
    } else if runId !in s.runs {
      Misses(s, req, rest, NothingRead, ReadRun(runId));
    } else {
      var run := s.runs[runId];
      var l1 := NothingRead.(run := Some(run));
      GoesOn(s, req, rest, NothingRead, ReadRun(runId), l1);
      if run.state != Completed {
        Stops(s, req, rest, l1, Conflict);
      } else if run.task !in s.tasks {
        Misses(s, req, rest, l1, ReadTask(run.task));
      } else {
        var l2 := l1.(task := Some(s.tasks[run.task]));
        GoesOn(s, req, rest, l1, ReadTask(run.task), l2);
        if MoveOf(req, l2) == Write {
          Lands(s, req, rest, l2);
        } else {
          Stops(s, req, rest, l2, BadRequest);
        }
      }
    }
  }

  lemma {:induction false} RequirementsOfCriteria(criteria: seq<Criterion>, r: Requirement)
    ensures r in Requirements(criteria) <==> exists c | c in criteria :: r in c.requirements
  {
    if criteria != [] {
      RequirementsOfCriteria(criteria[1..], r);
      if r in criteria[0].requirements { assert criteria[0] in criteria; }
      if c :| c in criteria && r in c.requirements {
        if c != criteria[0] { assert c in criteria[1..]; }
      }
    }
  }

  lemma {:induction false} FoundFirst(rs: seq<Requirement>, id: string)
    ensures var found := FindRequirement(rs, id);
      && (found.Some? ==> id != "" && found.value in rs && found.value.id == id)
      && (found.None? ==> id == "" || forall r | r in rs :: r.id != id)
  {
    if id != "" && rs != [] && rs[0].id != id { FoundFirst(rs[1..], id); }
  }

  /** The plan has exactly such a requirement. */
  ghost predicate Required(plan: Plan, e: Evidence) {
    exists c, r | c in plan.criteria && r in c.requirements ::
      && e.requirementId != "" && r.id == e.requirementId && r.procedure == e.procedure && (r.issuer == "" || r.issuer == e.issuer)
  }

  lemma {:induction false} MatchesExactlyRequired(plan: Plan, acceptance: seq<string>, e: Evidence)
    requires ValidPlan(plan, acceptance)
    ensures MatchesPlan(plan, e) <==> Required(plan, e)
    ensures MatchesPlan(plan, e) <==>
      var found := FindRequirement(Requirements(plan.criteria), e.requirementId);
      found.Some? && e.procedure == found.value.procedure && (found.value.issuer == "" || e.issuer == found.value.issuer)
  {
    var rs := Requirements(plan.criteria);
    FoundFirst(rs, e.requirementId);
    var found := FindRequirement(rs, e.requirementId);
    if found.Some? {
      RequirementsOfCriteria(plan.criteria, found.value);
      forall c, r | c in plan.criteria && r in c.requirements && r.id == e.requirementId ensures r == found.value {
        RequirementsOfCriteria(plan.criteria, r);
        var i :| 0 <= i < |rs| && rs[i] == r;
        var j :| 0 <= j < |rs| && rs[j] == found.value;
      }
    } else {
      forall c, r | c in plan.criteria && r in c.requirements ensures r in rs { RequirementsOfCriteria(plan.criteria, r); }
    }
  }

  /** The evidence cites artifacts of the delivery, none twice, and the delivery's artifacts can be told apart. */
  ghost predicate Cites(d: Delivery, e: Evidence) {
    && (forall a | a in d.artifacts :: a.id != "")
    && (forall i, j | 0 <= i < j < |d.artifacts| :: d.artifacts[i].id != d.artifacts[j].id)
    && (forall i, j | 0 <= i < j < |e.artifactRefs| :: e.artifactRefs[i] != e.artifactRefs[j])
    && (forall ref | ref in e.artifactRefs :: exists a | a in d.artifacts :: a.id == ref)
  }

  lemma {:induction false} BelongExactlyCited(d: Delivery, e: Evidence)
    ensures ArtifactsBelong(d, e) <==> Cites(d, e)
  {
    var ids := ArtifactIds(d.artifacts);
    assert forall i | 0 <= i < |ids| :: ids[i] == d.artifacts[i].id;
    forall ref ensures ref in ids <==> exists a | a in d.artifacts :: a.id == ref {
      if ref in ids {
        var i :| 0 <= i < |ids| && ids[i] == ref;
        assert d.artifacts[i] in d.artifacts;
      }
      if a :| a in d.artifacts && a.id == ref {
        var i :| 0 <= i < |d.artifacts| && d.artifacts[i] == a;
        assert ids[i] == ref;
      }
    }
    assert "" in ids <==> exists a | a in d.artifacts :: a.id == "";
    assert Unique(ids) <==> forall i, j | 0 <= i < j < |d.artifacts| :: d.artifacts[i].id != d.artifacts[j].id;
  }

  ghost predicate Recordable(s: Store, deliveryId: string, e: Evidence) {
    && deliveryId != "" && e.id != "" && e.requirementId != "" && e.issuer != "" && e.procedure != ""
    && e.result != OtherVerdict("") && e.id !in s.evidence && deliveryId in s.deliveries
    && s.deliveries[deliveryId].task in s.tasks
    && Required(s.tasks[s.deliveries[deliveryId].task].plan.plan, e) && Cites(s.deliveries[deliveryId], e)
  }

  function WithEvidence(s: Store, deliveryId: string, e: Evidence): Store
    requires deliveryId in s.deliveries
  {
    s.(evidence := s.evidence[e.id := e.(deliveryId := deliveryId, subject := s.deliveries[deliveryId].subject)])
  }

  lemma {:induction false} DeliveredTask(s: Store, id: string)
    requires RecordsOk(s) && id in s.deliveries
    ensures Planned(s, s.deliveries[id], id)
  {
    assert DeliveryOk(s, id) && TaskOk(s, s.deliveries[id].task);
  }

  /** A delivery, its task and the plan of that task are all stored. */
  predicate Planned(s: Store, d: Delivery, id: string) {
    && d.id == id && d.task in s.tasks
    && var t := s.tasks[d.task];
       Holds(s.plans, t.plan, t.plan.plan) && ValidPlan(t.plan.plan, t.acceptance)
  }

  lemma {:induction false} RecordingEvidence(s: Store, rest: Rest, deliveryId: string, e: Evidence)
    requires Rests(s, NewEvidence(deliveryId, e), rest)
    requires deliveryId in s.deliveries ==> Planned(s, s.deliveries[deliveryId], deliveryId)
    ensures rest(NothingRead).Ok? <==> Recordable(s, deliveryId, e)
    ensures Recordable(s, deliveryId, e) ==> rest(NothingRead) == Ok(WithEvidence(s, deliveryId, e))
  {
    var req := NewEvidence(deliveryId, e);
    if deliveryId == "" || e.id == "" || e.requirementId == "" || e.issuer == "" || e.procedure == ""
       || e.result == OtherVerdict("") {
      Stops(s, req, rest, NothingRead, BadRequest);
    } else if deliveryId !in s.deliveries {
      Misses(s, req, rest, NothingRead, ReadDelivery(deliveryId));
    } else {
      var d := s.deliveries[deliveryId];
      var t := s.tasks[d.task];
      PlanRead(s, req, rest, d, t);
      RecordingPlanned(s, req, rest, NothingRead.(delivery := Some(d), task := Some(t), plan := Some(t.plan.plan)), d, t);
    }
  }

  /** Up to the plan. */
  lemma {:induction false} PlanRead(s: Store, req: Request, rest: Rest, d: Delivery, t: Task)
    requires req.NewEvidence? && Rests(s, req, rest)
    requires req.deliveryId != "" && req.evidence.id != "" && req.evidence.requirementId != "" && req.evidence.issuer != ""
    requires req.evidence.procedure != "" && req.evidence.result != OtherVerdict("")
    requires Holds(s.deliveries, req.deliveryId, d) && Holds(s.tasks, d.task, t) && Holds(s.plans, t.plan, t.plan.plan)
    ensures rest(NothingRead) == rest(NothingRead.(delivery := Some(d), task := Some(t), plan := Some(t.plan.plan)))
  {
    var l1 := NothingRead.(delivery := Some(d));
    var l2 := l1.(task := Some(t));
    GoesOn(s, req, rest, NothingRead, ReadDelivery(req.deliveryId), l1);
    GoesOn(s, req, rest, l1, ReadTask(d.task), l2);
    GoesOn(s, req, rest, l2, ReadPlan(t.plan), l2.(plan := Some(t.plan.plan)));
  }

  lemma {:induction false} EvidenceJudged(plan: Plan, acceptance: seq<string>, d: Delivery, e: Evidence)
    requires ValidPlan(plan, acceptance)
    ensures var stored := e.(deliveryId := d.id, subject := d.subject);
      MatchesPlan(plan, stored) && ArtifactsBelong(d, stored) <==> Required(plan, e) && Cites(d, e)
  {
    var stored := e.(deliveryId := d.id, subject := d.subject);
    MatchesExactlyRequired(plan, acceptance, e);
    BelongExactlyCited(d, e);
    assert MatchesPlan(plan, stored) == MatchesPlan(plan, e) && ArtifactsBelong(d, stored) == ArtifactsBelong(d, e);
  }

  /** From the plan on. */
  lemma {:induction false} RecordingPlanned(s: Store, req: Request, rest: Rest, l: Locals, d: Delivery, t: Task)
    requires req.NewEvidence? && Rests(s, req, rest)
    requires req.deliveryId != "" && req.evidence.id != "" && req.evidence.requirementId != "" && req.evidence.issuer != ""
    requires req.evidence.procedure != "" && req.evidence.result != OtherVerdict("")
    requires Holds(s.deliveries, req.deliveryId, d) && d.id == req.deliveryId && Holds(s.tasks, d.task, t)
    requires Holds(s.plans, t.plan, t.plan.plan) && ValidPlan(t.plan.plan, t.acceptance)
    requires l == NothingRead.(delivery := Some(d), task := Some(t), plan := Some(t.plan.plan))
    ensures rest(l).Ok? <==> Required(t.plan.plan, req.evidence) && Cites(d, req.evidence) && req.evidence.id !in s.evidence
    ensures rest(l).Ok? ==> rest(l) == Ok(WithEvidence(s, req.deliveryId, req.evidence))
  {
    EvidenceJudged(t.plan.plan, t.acceptance, d, req.evidence);
    if MoveOf(req, l) == Write {
      Lands(s, req, rest, l);
    } else {
      Stops(s, req, rest, l, Rejected);
    }
  }

  // ---- verifications ----

  predicate Verifiable(s: Store, id: string, deliveryId: string, verifier: string, evidenceIds: seq<string>) {
    && id != "" && deliveryId != "" && verifier != "" && id !in s.verifications
    && deliveryId in s.deliveries && s.deliveries[deliveryId].task in s.tasks
    && s.tasks[s.deliveries[deliveryId].task].plan in s.plans
    && forall i | 0 <= i < |evidenceIds| :: evidenceIds[i] in s.evidence
  }

  /** PASS exactly when the named evidence meets every requirement of the task's plan. */
  ghost function WithVerification(s: Store, id: string, deliveryId: string, verifier: string,
                                  evidenceIds: seq<string>): Store
    requires Verifiable(s, id, deliveryId, verifier, evidenceIds)
  {
    var d := s.deliveries[deliveryId];
    var digest := s.tasks[d.task].plan;
    s.(verifications := s.verifications[id :=
      Verification(id, deliveryId, digest, d.subject,
                   if AllEvidenced(s.plans[digest], d.subject, EvidenceNamed(s, evidenceIds)) then Pass else Fail,
                   verifier, evidenceIds)])
  }

  lemma {:induction false} VerifyingDelivery(s: Store, rest: Rest, id: string, deliveryId: string, verifier: string,
                                             ids: seq<string>)
    requires Keyed(s) && Rests(s, NewVerification(id, deliveryId, verifier, ids), rest)
    ensures rest(NothingRead).Ok? <==> Verifiable(s, id, deliveryId, verifier, ids)
    ensures Verifiable(s, id, deliveryId, verifier, ids) ==>
      rest(NothingRead) == Ok(WithVerification(s, id, deliveryId, verifier, ids))
  {
    var req := NewVerification(id, deliveryId, verifier, ids);
    if id == "" || deliveryId == "" || verifier == "" {
      Stops(s, req, rest, NothingRead, BadRequest);
    } else if deliveryId !in s.deliveries {
      Misses(s, req, rest, NothingRead, ReadDelivery(deliveryId));
    } else {
      var d := s.deliveries[deliveryId];
      var l1 := NothingRead.(delivery := Some(d));
      GoesOn(s, req, rest, NothingRead, ReadDelivery(deliveryId), l1);
      if d.task !in s.tasks {
        Misses(s, req, rest, l1, ReadTask(d.task));
      } else {
        VerifyingPlanned(s, req, rest, d, s.tasks[d.task]);
      }
    }
  }

  /** From the task on. */
  lemma {:induction false} VerifyingPlanned(s: Store, req: Request, rest: Rest, d: Delivery, t: Task)
    requires Keyed(s) && req.NewVerification? && req.id != "" && req.deliveryId != "" && req.verifier != ""
    requires Rests(s, req, rest) && Holds(s.deliveries, req.deliveryId, d) && Holds(s.tasks, d.task, t)
    ensures var l1 := NothingRead.(delivery := Some(d));
      && (rest(l1).Ok? <==> Verifiable(s, req.id, req.deliveryId, req.verifier, req.evidenceIds))
      && (rest(l1).Ok? ==> rest(l1) == Ok(WithVerification(s, req.id, req.deliveryId, req.verifier, req.evidenceIds)))
  {
    var l1 := NothingRead.(delivery := Some(d));
    var l2 := l1.(task := Some(t));
    GoesOn(s, req, rest, l1, ReadTask(d.task), l2);
    if t.plan !in s.plans {
      Misses(s, req, rest, l2, ReadPlan(t.plan));
    } else {
      var l3 := l2.(plan := Some(s.plans[t.plan]));
      GoesOn(s, req, rest, l2, ReadPlan(t.plan), l3);
      Gathering(s, req, rest, l3, 0);
      if EvidenceStored(s, req.evidenceIds) { VerdictLands(s, req, rest, l3, d, t); }
    }
  }

  /** The evidence is read in order, as far as it is there. */
  lemma {:induction false} Gathering(s: Store, req: Request, rest: Rest, l: Locals, k: nat)
    requires req.NewVerification? && req.id != "" && req.deliveryId != "" && req.verifier != "" && Rests(s, req, rest)
    requires l.delivery.Some? && l.task.Some? && l.plan.Some? && k == |l.evidence| <= |req.evidenceIds|
    requires forall i | 0 <= i < k :: Holds(s.evidence, req.evidenceIds[i], l.evidence[i])
    ensures if EvidenceStored(s, req.evidenceIds) then rest(l) == rest(l.(evidence := EvidenceNamed(s, req.evidenceIds)))
            else rest(l) == Err(NotFound)
    decreases |req.evidenceIds| - k
  {
    if k == |req.evidenceIds| {
      assert l.evidence == EvidenceNamed(s, req.evidenceIds);
    } else if req.evidenceIds[k] in s.evidence {
      var l' := l.(evidence := l.evidence + [s.evidence[req.evidenceIds[k]]]);
      GoesOn(s, req, rest, l, ReadEvidence(req.evidenceIds[k]), l');
      Gathering(s, req, rest, l', k + 1);
    } else {
      Misses(s, req, rest, l, ReadEvidence(req.evidenceIds[k]));
    }
  }

  lemma {:induction false} VerdictLands(s: Store, req: Request, rest: Rest, l: Locals, d: Delivery, t: Task)
    requires Keyed(s) && req.NewVerification? && req.id != "" && req.deliveryId != "" && req.verifier != ""
    requires Rests(s, req, rest) && Holds(s.deliveries, req.deliveryId, d) && Holds(s.tasks, d.task, t) && t.plan in s.plans
    requires EvidenceStored(s, req.evidenceIds)
    requires l == NothingRead.(delivery := Some(d), task := Some(t), plan := Some(s.plans[t.plan]))
    ensures var r := rest(l.(evidence := EvidenceNamed(s, req.evidenceIds)));
      && (r.Ok? <==> req.id !in s.verifications)
      && (r.Ok? ==> r == Ok(WithVerification(s, req.id, req.deliveryId, req.verifier, req.evidenceIds)))
  {
    var evidence := EvidenceNamed(s, req.evidenceIds);
    EvaluationExactlyEvidenced(s.plans[t.plan], d.subject, evidence);
    assert seq(|evidence|, i requires 0 <= i < |evidence| => evidence[i].id) == req.evidenceIds;
    Lands(s, req, rest, l.(evidence := evidence));
  }

  // ---- reviews ----

  predicate Reviewable(s: Store, r: Review) {
    && r.id != "" && r.deliveryId != "" && r.verificationId != "" && r.reviewer != ""
    && r.deliveryId in s.deliveries && r.verificationId in s.verifications
    && r.id !in s.reviews && r.verificationId !in s.reviewOf
    && var d, v := s.deliveries[r.deliveryId], s.verifications[r.verificationId];
       && v.result == Pass && v.deliveryId == r.deliveryId && v.subject == d.subject
       && d.workItemId in s.works
       && var w := s.works[d.workItemId];
          && w.state == Verifying && w.task == d.task && w.run == d.runId
          && r.reviewer != v.verifier && r.reviewer != w.owner
          && r.wellFormed && ((r.result == Pass && r.blocking == 0) || (r.result == Fail && r.blocking != 0))
          && r.task == d.task && r.subject == d.subject
  }

  /** A passing review moves the work item on; a failing one leaves it where it is. */
  function WithReview(s: Store, r: Review, w: WorkItem): Store {
    s.(works := s.works[w.id := w.(state := if r.result == Pass then Reviewing else w.state, version := w.version + 1)],
       reviews := s.reviews[r.id := r], reviewOf := s.reviewOf[r.verificationId := r.id])
  }

  lemma {:induction false} ReviewingWork(s: Store, rest: Rest, req: Request, r: Review)
    requires Keyed(s) && req.NewReview? && Rests(s, req, rest)
    requires r.id == req.id && r.deliveryId == req.deliveryId && r.verificationId == req.verificationId
    requires r.reviewer == req.reviewer && r.result == req.result && r.blocking == req.blocking && r.wellFormed == req.wellFormed
    requires req.deliveryId in s.deliveries ==>
      r.task == s.deliveries[req.deliveryId].task && r.subject == s.deliveries[req.deliveryId].subject
    ensures rest(NothingRead).Ok? <==> Reviewable(s, r)
    ensures Reviewable(s, r) ==> rest(NothingRead) == Ok(WithReview(s, r, s.works[s.deliveries[r.deliveryId].workItemId]))
  {
    if req.id == "" || req.deliveryId == "" || req.verificationId == "" || req.reviewer == "" || req.result == OtherVerdict("") {
      Stops(s, req, rest, NothingRead, BadRequest);
    } else if req.deliveryId !in s.deliveries {
      Misses(s, req, rest, NothingRead, ReadDelivery(req.deliveryId));
    } else {
      var l1 := NothingRead.(delivery := Some(s.deliveries[req.deliveryId]));
      GoesOn(s, req, rest, NothingRead, ReadDelivery(req.deliveryId), l1);
      if req.verificationId !in s.verifications {
        Misses(s, req, rest, l1, ReadVerification(req.verificationId));
      } else {
        var l2 := l1.(verification := Some(s.verifications[req.verificationId]));
        GoesOn(s, req, rest, l1, ReadVerification(req.verificationId), l2);
        ReviewingVerified(s, rest, req, r, l2);
      }
    }
  }

  /** From the verification on. */
  lemma {:induction false} ReviewingVerified(s: Store, rest: Rest, req: Request, r: Review, l: Locals)
    requires Keyed(s) && req.NewReview? && Rests(s, req, rest)
    requires req.id != "" && req.deliveryId != "" && req.verificationId != "" && req.reviewer != "" && req.result != OtherVerdict("")
    requires req.deliveryId in s.deliveries && req.verificationId in s.verifications
    requires l == NothingRead.(delivery := Some(s.deliveries[req.deliveryId]),
                               verification := Some(s.verifications[req.verificationId]))
    requires r == ReviewOf(req, s.deliveries[req.deliveryId], s.verifications[req.verificationId])
    ensures rest(l).Ok? <==> Reviewable(s, r)
    ensures Reviewable(s, r) ==> rest(l) == Ok(WithReview(s, r, s.works[s.deliveries[r.deliveryId].workItemId]))
  {
    var d, v := s.deliveries[req.deliveryId], s.verifications[req.verificationId];
    if !PassedFor(v, d) {
      Stops(s, req, rest, l, Rejected);
    } else if d.workItemId !in s.works {
      Misses(s, req, rest, l, ReadWork(d.workItemId));
    } else {
      var w := s.works[d.workItemId];
      var l' := l.(work := Some(w));
      GoesOn(s, req, rest, l, ReadWork(d.workItemId), l');
      if MoveOf(req, l') == Write {
        Lands(s, req, rest, l');
        ReviewLands(s, r, d, v, w);
      } else {
        Stops(s, req, rest, l', MoveOf(req, l').error);
      }
    }
  }

  lemma {:induction false} ReviewLands(s: Store, r: Review, d: Delivery, v: Verification, w: WorkItem)
    requires Holds(s.deliveries, r.deliveryId, d) && Holds(s.verifications, r.verificationId, v) && Holds(s.works, w.id, w)
    requires d.workItemId == w.id && d.id == r.deliveryId && PassedFor(v, d) && WorkIsAt(w, Verifying, d) && r.Valid()
    requires r.task == d.task && r.subject == d.subject && r.reviewer != v.verifier && r.reviewer != w.owner
    ensures WriteReview(s, r, w).Ok? <==> r.id !in s.reviews && r.verificationId !in s.reviewOf
    ensures WriteReview(s, r, w).Ok? ==> WriteReview(s, r, w) == Ok(WithReview(s, r, w))
  {
    ReviewStored(s, r, d, v, w, w.(state := if r.result == Pass then Reviewing else w.state));
  }

  lemma {:induction false} ReviewStored(s: Store, r: Review, d: Delivery, v: Verification, w: WorkItem, next: WorkItem)
    requires Holds(s.deliveries, r.deliveryId, d) && Holds(s.verifications, r.verificationId, v) && Holds(s.works, w.id, w)
    requires ReviewFits(w, w.version, next, v, d, r) && r.Valid() && next.id == w.id
    ensures CreateReviewAndUpdateWork(s, r, w.version, next).Ok? <==> r.id !in s.reviews && r.verificationId !in s.reviewOf
    ensures CreateReviewAndUpdateWork(s, r, w.version, next).Ok? ==>
      CreateReviewAndUpdateWork(s, r, w.version, next)
      == Ok(s.(works := s.works[w.id := next.(version := w.version + 1)],
               reviews := s.reviews[r.id := r], reviewOf := s.reviewOf[r.verificationId := r.id]))
  {
  }

  // ---- closures ----

  predicate Closable(s: Store, id: string, deliveryId: string, verificationId: string, reviewId: string) {
    && id != "" && deliveryId != "" && verificationId != "" && reviewId != "" && id !in s.closures
    && deliveryId in s.deliveries && verificationId in s.verifications && reviewId in s.reviews
    && var d, v, r := s.deliveries[deliveryId], s.verifications[verificationId], s.reviews[reviewId];
       && v.result == Pass && v.deliveryId == deliveryId && v.subject == d.subject
       && r.result == Pass && r.deliveryId == deliveryId && r.verificationId == verificationId
       && r.task == d.task && r.subject == d.subject
       && d.runId in s.runs && s.runs[d.runId].state == Completed && s.runs[d.runId].task == d.task
       && d.workItemId in s.works
       && var w := s.works[d.workItemId];
          w.state == Reviewing && w.task == d.task && w.run == d.runId
  }

  function WithClosure(s: Store, id: string, deliveryId: string, verificationId: string, reviewId: string): Store
    requires deliveryId in s.deliveries && s.deliveries[deliveryId].workItemId in s.works
  {
    var d := s.deliveries[deliveryId];
    var w := s.works[d.workItemId];
    s.(works := s.works[w.id := w.(state := Closed, version := w.version + 1)],
       closures := s.closures[id :=
         Closure(id, d.workItemId, d.task, d.runId, deliveryId, verificationId, reviewId, d.subject)])
  }

  lemma {:induction false} Closing(s: Store, rest: Rest, id: string, deliveryId: string, verificationId: string,
                                   reviewId: string)
    requires Keyed(s) && Rests(s, NewClosure(id, deliveryId, verificationId, reviewId), rest)
    ensures rest(NothingRead).Ok? <==> Closable(s, id, deliveryId, verificationId, reviewId)
    ensures Closable(s, id, deliveryId, verificationId, reviewId) ==>
      rest(NothingRead) == Ok(WithClosure(s, id, deliveryId, verificationId, reviewId))
  {
    var req := NewClosure(id, deliveryId, verificationId, reviewId);
    if id == "" || deliveryId == "" || verificationId == "" || reviewId == "" {
      Stops(s, req, rest, NothingRead, BadRequest);
    } else if deliveryId !in s.deliveries {
      Misses(s, req, rest, NothingRead, ReadDelivery(deliveryId));
    } else {
      var l1 := NothingRead.(delivery := Some(s.deliveries[deliveryId]));
      GoesOn(s, req, rest, NothingRead, ReadDelivery(deliveryId), l1);
      if verificationId !in s.verifications {
        Misses(s, req, rest, l1, ReadVerification(verificationId));
      } else {
        var l2 := l1.(verification := Some(s.verifications[verificationId]));
        GoesOn(s, req, rest, l1, ReadVerification(verificationId), l2);
        ClosingVerified(s, rest, req, l2);
      }
    }
  }

  ghost predicate ClosesFrom(s: Store, rest: Rest, req: Request, l: Locals)
    requires req.NewClosure?
  {
    && (rest(l).Ok? <==> Closable(s, req.id, req.deliveryId, req.verificationId, req.reviewId))
    && (rest(l).Ok? ==> rest(l) == Ok(WithClosure(s, req.id, req.deliveryId, req.verificationId, req.reviewId)))
  }

  predicate ClosureNamed(s: Store, req: Request)
    requires req.NewClosure?
  {
    && req.id != "" && req.deliveryId != "" && req.verificationId != "" && req.reviewId != ""
    && req.deliveryId in s.deliveries && req.verificationId in s.verifications
  }

  /** From the verification on. */
  lemma {:induction false} ClosingVerified(s: Store, rest: Rest, req: Request, l: Locals)
    requires Keyed(s) && req.NewClosure? && Rests(s, req, rest) && ClosureNamed(s, req)
    requires l == NothingRead.(delivery := Some(s.deliveries[req.deliveryId]),
                               verification := Some(s.verifications[req.verificationId]))
    ensures ClosesFrom(s, rest, req, l)
  {
    if !PassedFor(s.verifications[req.verificationId], s.deliveries[req.deliveryId]) {
      Stops(s, req, rest, l, Rejected);
    } else if req.reviewId !in s.reviews {
      Misses(s, req, rest, l, ReadReview(req.reviewId));
    } else {
      var l' := l.(review := Some(s.reviews[req.reviewId]));
      GoesOn(s, req, rest, l, ReadReview(req.reviewId), l');
      ClosingReviewed(s, rest, req, l');
    }
  }

  /** From the review on. */
  lemma {:induction false} ClosingReviewed(s: Store, rest: Rest, req: Request, l: Locals)
    requires Keyed(s) && req.NewClosure? && Rests(s, req, rest) && ClosureNamed(s, req) && req.reviewId in s.reviews
    requires PassedFor(s.verifications[req.verificationId], s.deliveries[req.deliveryId])
    requires l == NothingRead.(delivery := Some(s.deliveries[req.deliveryId]),
                               verification := Some(s.verifications[req.verificationId]),
                               review := Some(s.reviews[req.reviewId]))
    ensures ClosesFrom(s, rest, req, l)
  {
    var d := s.deliveries[req.deliveryId];
    if !ReviewedAs(s.reviews[req.reviewId], s.verifications[req.verificationId], d) {
      Stops(s, req, rest, l, Rejected);
    } else if d.runId !in s.runs {
      Misses(s, req, rest, l, ReadRun(d.runId));
    } else {
      var l' := l.(run := Some(s.runs[d.runId]));
      GoesOn(s, req, rest, l, ReadRun(d.runId), l');
      ClosingCompleted(s, rest, req, l', d);
    }
  }

  /** From the run on. */
  lemma {:induction false} ClosingCompleted(s: Store, rest: Rest, req: Request, l: Locals, d: Delivery)
    requires Keyed(s) && req.NewClosure? && Rests(s, req, rest) && ClosureNamed(s, req) && req.reviewId in s.reviews
    requires d == s.deliveries[req.deliveryId] && PassedFor(s.verifications[req.verificationId], d) && d.runId in s.runs
    requires ReviewedAs(s.reviews[req.reviewId], s.verifications[req.verificationId], d)
    requires l == NothingRead.(delivery := Some(d), verification := Some(s.verifications[req.verificationId]),
                               review := Some(s.reviews[req.reviewId]), run := Some(s.runs[d.runId]))
    ensures ClosesFrom(s, rest, req, l)
  {
    if s.runs[d.runId].state != Completed || s.runs[d.runId].task != d.task {
      Stops(s, req, rest, l, Conflict);
    } else if d.workItemId !in s.works {
      Misses(s, req, rest, l, ReadWork(d.workItemId));
    } else {
      var w := s.works[d.workItemId];
      var l' := l.(work := Some(w));
      GoesOn(s, req, rest, l, ReadWork(d.workItemId), l');
      if !WorkIsAt(w, Reviewing, d) {
        Stops(s, req, rest, l', Conflict);
      } else {
        Lands(s, req, rest, l');
        ClosureLands(s, req.id, d, s.verifications[req.verificationId], req.reviewId, s.reviews[req.reviewId], w);
      }
    }
  }

  lemma {:induction false} ClosureLands(s: Store, id: string, d: Delivery, v: Verification, reviewId: string,
                                        r: Review, w: WorkItem)
    requires Holds(s.deliveries, d.id, d) && Holds(s.reviews, reviewId, r) && Holds(s.works, w.id, w) && d.workItemId == w.id
    requires ReviewedAs(r, v, d) && WorkIsAt(w, Reviewing, d)
    ensures WriteClosure(s, id, d, v, reviewId, w).Ok? <==> id !in s.closures
    ensures WriteClosure(s, id, d, v, reviewId, w).Ok? ==>
      WriteClosure(s, id, d, v, reviewId, w) == Ok(WithClosure(s, id, d.id, v.id, reviewId))
  {
  }

  // ---- each request run alone ----

  lemma {:induction false} CreatesExactly(s: Store, item: WorkItem, stated: bool)
    ensures var r := Alone(s, NewWork(item, stated), NothingRead);
      (r.Ok? <==> Creatable(s, item)) && (r.Ok? ==> r == Ok(WithWork(s, item, stated)))
  {
    var rest: Rest := l => Alone(s, NewWork(item, stated), l);
    CreatingWork(s, rest, item, stated);
  }

  lemma {:induction false} FreezesExactly(s: Store, contract: Task, plan: Plan, admitted: bool)
    requires Keyed(s)
    ensures var r := Alone(s, NewTask(contract, plan, admitted), NothingRead);
      && (r.Ok? <==> Freezable(s, contract, plan, admitted))
      && (r.Ok? ==> r == Ok(WithTask(s, Frozen(contract, plan), plan)))
  {
    var rest: Rest := l => Alone(s, NewTask(contract, plan, admitted), l);
    FreezingTask(s, rest, contract, plan, admitted);
  }

  lemma {:induction false} StartsExactly(s: Store, runId: string, task: TaskDigest, attemptId: string, profiles: string,
                                         admitted: bool)
    requires Keyed(s)
    ensures var r := Alone(s, NewRun(runId, task, attemptId, profiles, admitted), NothingRead);
      && (r.Ok? <==> Startable(s, runId, task, attemptId, profiles, admitted))
      && (r.Ok? ==> r == Ok(WithRun(s, runId, task, attemptId, profiles)))
  {
    var rest: Rest := l => Alone(s, NewRun(runId, task, attemptId, profiles, admitted), l);
    StartingRun(s, rest, runId, task, attemptId, profiles, admitted);
  }

  lemma {:induction false} ChangesExactly(s: Store, runId: string, epoch: nat, change: RunChange, admitted: bool)
    requires Keyed(s)
    ensures var r := Alone(s, ChangeRun(runId, epoch, change, admitted), NothingRead);
      && (r.Ok? <==> admitted && change != Complete && Changeable(s, runId, epoch))
      && (r.Ok? ==> r == Ok(s.(runs := s.runs[runId := AfterChange(s.runs[runId], change)])))
  {
    var rest: Rest := l => Alone(s, ChangeRun(runId, epoch, change, admitted), l);
    ChangingRun(s, rest, runId, epoch, change, admitted);
  }

  lemma {:induction false} CompletesExactly(s: Store, runId: string, epoch: nat)
    requires Keyed(s)
    ensures var r := Alone(s, CompleteRun(runId, epoch), NothingRead);
      && (r.Ok? <==> Completable(s, runId, epoch))
      && (r.Ok? ==> r == Ok(WithCompletion(s, runId, s.works[s.tasks[s.runs[runId].task].workItemId])))
  {
    var rest: Rest := l => Alone(s, CompleteRun(runId, epoch), l);
    CompletingRun(s, rest, runId, epoch);
  }

  lemma {:induction false} DeliversExactly(s: Store, id: string, runId: string, resultCommit: string,
                                           artifacts: seq<Artifact>)
    requires Keyed(s)
    ensures var r := Alone(s, NewDelivery(id, runId, resultCommit, artifacts), NothingRead);
      && (r.Ok? <==> Deliverable(s, id, runId, resultCommit, artifacts))
      && (r.Ok? ==> r == Ok(WithDelivery(s, id, runId, resultCommit, artifacts)))
  {
    var rest: Rest := l => Alone(s, NewDelivery(id, runId, resultCommit, artifacts), l);
    Delivering(s, rest, id, runId, resultCommit, artifacts);
  }

  lemma {:induction false} RecordsExactly(s: Store, deliveryId: string, e: Evidence)
    requires RecordsOk(s)
    ensures var r := Alone(s, NewEvidence(deliveryId, e), NothingRead);
      (r.Ok? <==> Recordable(s, deliveryId, e)) && (r.Ok? ==> r == Ok(WithEvidence(s, deliveryId, e)))
  {
    var rest: Rest := l => Alone(s, NewEvidence(deliveryId, e), l);
    if deliveryId in s.deliveries { DeliveredTask(s, deliveryId); }
    RecordingEvidence(s, rest, deliveryId, e);
  }

  lemma {:induction false} VerifiesExactly(s: Store, id: string, deliveryId: string, verifier: string, ids: seq<string>)
    requires Keyed(s)
    ensures var r := Alone(s, NewVerification(id, deliveryId, verifier, ids), NothingRead);
      && (r.Ok? <==> Verifiable(s, id, deliveryId, verifier, ids))
      && (r.Ok? ==> r == Ok(WithVerification(s, id, deliveryId, verifier, ids)))
  {
    var rest: Rest := l => Alone(s, NewVerification(id, deliveryId, verifier, ids), l);
    VerifyingDelivery(s, rest, id, deliveryId, verifier, ids);
  }

  /** The report a review request stands for. */
  function Report(s: Store, id: string, deliveryId: string, verificationId: string, reviewer: string, result: Verdict,
                  blocking: nat, wellFormed: bool): Review {
    var known := deliveryId in s.deliveries;
    Review(id, deliveryId, verificationId, if known then s.deliveries[deliveryId].task else OtherText(""),
           if known then s.deliveries[deliveryId].subject else SubjectDigest(OtherText(""), "", "", "", "", []),
           reviewer, result, blocking, wellFormed)
  }

  lemma {:induction false} ReviewsExactly(s: Store, id: string, deliveryId: string, verificationId: string,
                                          reviewer: string,
                                          result: Verdict, blocking: nat, wellFormed: bool)
    requires Keyed(s)
    ensures var r := Alone(s, NewReview(id, deliveryId, verificationId, reviewer, result, blocking, wellFormed), NothingRead);
      var report := Report(s, id, deliveryId, verificationId, reviewer, result, blocking, wellFormed);
      && (r.Ok? <==> Reviewable(s, report))
      && (r.Ok? ==> r == Ok(WithReview(s, report, s.works[s.deliveries[deliveryId].workItemId])))
  {
    var req := NewReview(id, deliveryId, verificationId, reviewer, result, blocking, wellFormed);
    var rest: Rest := l => Alone(s, req, l);
    ReviewingWork(s, rest, req, Report(s, id, deliveryId, verificationId, reviewer, result, blocking, wellFormed));
  }

  lemma {:induction false} ClosesExactly(s: Store, id: string, deliveryId: string, verificationId: string,
                                         reviewId: string)
    requires Keyed(s)
    ensures var r := Alone(s, NewClosure(id, deliveryId, verificationId, reviewId), NothingRead);
      && (r.Ok? <==> Closable(s, id, deliveryId, verificationId, reviewId))
      && (r.Ok? ==> r == Ok(WithClosure(s, id, deliveryId, verificationId, reviewId)))
  {
    var rest: Rest := l => Alone(s, NewClosure(id, deliveryId, verificationId, reviewId), l);
    Closing(s, rest, id, deliveryId, verificationId, reviewId);
  }
}

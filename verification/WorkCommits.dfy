/** Each handler's final write, made with copies read earlier, advances the store and keeps every promise. */
module WorkCommits {
  import opened Options
  import opened DeliverySubject
  import opened WorkModel
  import opened WorkStore
  import opened WorkHandlers
  import opened WorkInvariant

  predicate ReviewsWork(s: Store, id: string, work: string) {
    id in s.reviews && s.reviews[id].deliveryId in s.deliveries && s.deliveries[s.reviews[id].deliveryId].workItemId == work
  }

  predicate PassesWork(s: Store, id: string, work: string) {
    ReviewsWork(s, id, work) && s.reviews[id].result == Pass
  }

  predicate ClosesWork(s: Store, id: string, work: string) {
    id in s.closures && s.closures[id].workItemId == work
  }

  /** A new PASS review finds its work item still verifying. */
  ghost predicate ReviewsSettle(s: Store, s': Store) {
    && (forall a, b | a in s'.reviews && b in s'.reviews && a !in s.reviews && b !in s.reviews :: a == b)
    && (forall id, work | id !in s.reviews && PassesWork(s', id, work) :: work in s.works && Rank(s.works[work].state) < 4)
  }

  /** A new closure finds its work item under review, and nothing is closed without one. */
  ghost predicate ClosuresSettle(s: Store, s': Store) {
    && (forall a, b | a in s'.closures && b in s'.closures && a !in s.closures && b !in s.closures :: a == b)
    && (forall id, work | id !in s.closures && ClosesWork(s', id, work) :: work in s.works && s.works[work].state == Reviewing)
    && (forall work | work in s.works && work in s'.works && s'.works[work].state == Closed ::
          s.works[work].state == Closed || exists id :: ClosesWork(s', id, work))
  }

  ghost predicate Advances(s: Store, s': Store) {
    Evolves(s, s') && Adds(s, s') && ReviewsSettle(s, s') && ClosuresSettle(s, s')
  }

  lemma {:induction false} NothingSettled(s: Store, s': Store)
    ensures s'.reviews == s.reviews ==> ReviewsSettle(s, s')
    ensures s'.closures == s.closures && s'.works == s.works ==> ClosuresSettle(s, s')
  {
  }

  // ---- one map at a time ----

  lemma {:induction false} WorkPut(s: Store, s': Store, w: WorkItem, version: nat)
    requires w.id in s.works && WorkStep(s.works[w.id], w.(version := version)) && s'.works == s.works[w.id := w.(version := version)]
    ensures WorksStep(s.works, s'.works) && NewWorksOk(s, s')
  {
  }

  lemma {:induction false} RunPut(s: Store, s': Store, id: string, r: Run)
    requires id in s.runs && RunStep(s.runs[id], r) && s'.runs == s.runs[id := r]
    ensures RunsStep(s.runs, s'.runs) && NewRunsOk(s, s')
  {
  }

  lemma {:induction false} RunAdded(s: Store, s': Store, id: string, r: Run)
    requires id !in s.runs && s'.runs == s.runs[id := r] && RunOk(s', id)
    ensures RunsStep(s.runs, s'.runs) && NewRunsOk(s, s')
  {
  }

  lemma {:induction false} TaskPut(s: Store, s': Store, t: Task)
    requires TaskDigest(t) !in s.tasks && s'.tasks == s.tasks[TaskDigest(t) := t] && TaskOk(s', TaskDigest(t))
    ensures Kept(s.tasks, s'.tasks) && NewTasksOk(s, s')
  {
  }

  lemma {:induction false} PlanPut(s: Store, s': Store, plan: Plan)
    requires PlansOk(s) && s'.plans == s.plans[PlanDigest(plan) := plan]
    ensures Kept(s.plans, s'.plans) && PlansOk(s')
  {
  }

  lemma {:induction false} DeliveryPut(s: Store, s': Store, d: Delivery)
    requires d.id !in s.deliveries && s'.deliveries == s.deliveries[d.id := d] && DeliveryOk(s', d.id)
    ensures Kept(s.deliveries, s'.deliveries) && NewDeliveriesOk(s, s')
  {
  }

  lemma {:induction false} EvidencePut(s: Store, s': Store, e: Evidence)
    requires e.id !in s.evidence && s'.evidence == s.evidence[e.id := e] && EvidenceOk(s', e.id)
    ensures Kept(s.evidence, s'.evidence) && NewEvidenceOk(s, s')
  {
  }

  lemma {:induction false} VerificationPut(s: Store, s': Store, v: Verification)
    requires v.id !in s.verifications && s'.verifications == s.verifications[v.id := v] && VerificationOk(s', v.id)
    ensures Kept(s.verifications, s'.verifications) && NewVerificationsOk(s, s')
  {
  }

  lemma {:induction false} ReviewPut(s: Store, s': Store, r: Review)
    requires r.id !in s.reviews && s'.reviews == s.reviews[r.id := r] && ReviewOk(s', r.id)
    requires r.verificationId !in s.reviewOf && s'.reviewOf == s.reviewOf[r.verificationId := r.id]
    ensures Kept(s.reviews, s'.reviews) && NewReviewsOk(s, s') && Kept(s.reviewOf, s'.reviewOf)
  {
  }

  lemma {:induction false} ClosurePut(s: Store, s': Store, id: string)
    requires id !in s.closures && id in s'.closures && s'.closures == s.closures[id := s'.closures[id]] && ClosureOk(s', id)
    ensures Kept(s.closures, s'.closures) && NewClosuresOk(s, s')
  {
  }

  lemma {:induction false} ClosureSettles(s: Store, s': Store, id: string, work: string)
    requires id !in s.closures && s'.closures.Keys == s.closures.Keys + {id} && ClosesWork(s', id, work)
    requires work in s.works && s.works[work].state == Reviewing
    requires forall other | other in s.works && other != work :: other in s'.works && s'.works[other] == s.works[other]
    ensures ClosuresSettle(s, s')
  {
  }

  lemma {:induction false} NothingCloses(s: Store, s': Store, w: string)
    requires s'.closures == s.closures && s'.works.Keys == s.works.Keys
    requires forall other | other in s.works && other != w :: s'.works[other] == s.works[other]
    requires w in s'.works && s'.works[w].state != Closed
    ensures ClosuresSettle(s, s')
  {
  }

  // ---- each handler's write ----

  lemma {:induction false} WorkWrite(s: Store, s': Store, item: WorkItem)
    requires PlansOk(s) && CreateWork(s, item) == Ok(s')
    ensures Advances(s, s')
  {
    Untouched(s, s');
    NothingSettled(s, s');
  }

  /** What freezing a task writes. */
  lemma {:induction false} TaskWritten(s: Store, s': Store, contract: Task, plan: Plan, work: WorkItem)
    requires WorkSeen(s, work) && work.id == contract.workItemId && WriteNewTask(s, contract, plan, work) == Ok(s')
    requires work.state == Draft || work.state == Ready
    ensures var task := FrozenTask(contract, plan);
      && TaskDigest(task) !in s.tasks && work == s.works[work.id]
      && s'.tasks == s.tasks[TaskDigest(task) := task] && s'.plans == s.plans[PlanDigest(plan) := plan]
      && s'.works == PutWork(s, work.(task := TaskDigest(task), run := "", state := Ready), work.version + 1).works
      && s' == s.(works := s'.works, tasks := s'.tasks, plans := s'.plans, revisions := s'.revisions, latestRevision := s'.latestRevision)
  {
  }

  lemma {:induction false} TaskWrite(s: Store, s': Store, contract: Task, plan: Plan, work: WorkItem)
    requires PlansOk(s) && WorkSeen(s, work) && work.id == contract.workItemId
    requires ValidPlan(plan, contract.acceptance) && WriteNewTask(s, contract, plan, work) == Ok(s')
    requires work.state == Draft || work.state == Ready
    ensures Advances(s, s')
  {
    TaskWritten(s, s', contract, plan, work);
    var task := FrozenTask(contract, plan);
    TaskAdded(s, s', task, plan, work, work.(task := TaskDigest(task), run := "", state := Ready));
  }

  lemma {:induction false} TaskAdded(s: Store, s': Store, task: Task, plan: Plan, work: WorkItem, next: WorkItem)
    requires PlansOk(s) && work.id in s.works && work == s.works[work.id] && (work.state == Draft || work.state == Ready)
    requires next == work.(task := TaskDigest(task), run := "", state := Ready)
    requires task.workItemId == work.id && task.plan == PlanDigest(plan) && ValidPlan(plan, task.acceptance)
    requires TaskDigest(task) !in s.tasks && s'.works == PutWork(s, next, work.version + 1).works
    requires s'.tasks == s.tasks[TaskDigest(task) := task] && s'.plans == s.plans[PlanDigest(plan) := plan]
    requires s' == s.(works := s'.works, tasks := s'.tasks, plans := s'.plans, revisions := s'.revisions, latestRevision := s'.latestRevision)
    ensures Advances(s, s')
  {
    WorkPut(s, s', next, work.version + 1);
    TaskPut(s, s', task);
    PlanPut(s, s', plan);
    NothingCloses(s, s', work.id);
    NothingSettled(s, s');
    Untouched(s, s');
  }

  /** What starting a run writes. */
  lemma {:induction false} RunWritten(s: Store, s': Store, runId: string, task: TaskDigest, attemptId: string,
                                      profiles: string, work: WorkItem)
    requires WorkSeen(s, work) && TaskOk(s, task)
    requires work.id == s.tasks[task].workItemId && work.state == Ready && work.task == task
    requires WriteNewRun(s, runId, task, attemptId, profiles, work) == Ok(s')
    ensures work == s.works[work.id] && s'.works == PutWork(s, work.(run := runId, state := Executing), work.version + 1).works
    ensures runId !in s.runs && runId in s'.runs && s'.runs == s.runs[runId := s'.runs[runId]] && RunOk(s', runId)
    ensures s' == s.(works := s'.works, runs := s'.runs, inputs := s'.inputs)
  {
  }

  lemma {:induction false} RunWrite(s: Store, s': Store, runId: string, task: TaskDigest, attemptId: string,
                                    profiles: string, work: WorkItem)
    requires PlansOk(s) && WorkSeen(s, work) && TaskOk(s, task)
    requires work.id == s.tasks[task].workItemId && work.state == Ready && work.task == task
    requires WriteNewRun(s, runId, task, attemptId, profiles, work) == Ok(s')
    ensures Advances(s, s')
  {
    RunWritten(s, s', runId, task, attemptId, profiles, work);
    RunsAndWorkAdvance(s, s', runId, work.(run := runId, state := Executing), work.version + 1);
  }

  /** A work item moves on while one run is added or changed. */
  lemma {:induction false} RunsAndWorkAdvance(s: Store, s': Store, runId: string, next: WorkItem, version: nat)
    requires PlansOk(s) && next.id in s.works && WorkStep(s.works[next.id], next.(version := version)) && next.state != Closed
    requires s'.works == s.works[next.id := next.(version := version)]
    requires runId in s'.runs && s'.runs == s.runs[runId := s'.runs[runId]]
    requires if runId in s.runs then RunStep(s.runs[runId], s'.runs[runId]) else RunOk(s', runId)
    requires s' == s.(works := s'.works, runs := s'.runs, inputs := s'.inputs)
    ensures Advances(s, s')
  {
    WorkPut(s, s', next, version);
    if runId in s.runs { RunPut(s, s', runId, s'.runs[runId]); } else { RunAdded(s, s', runId, s'.runs[runId]); }
    NothingCloses(s, s', next.id);
    NothingSettled(s, s');
    Untouched(s, s');
  }

  lemma {:induction false} ChangeWrite(s: Store, s': Store, runId: string, epoch: nat, change: RunChange, run: Run)
    requires PlansOk(s) && RunSeen(s, run) && run.id == runId && WriteChange(s, runId, epoch, change, run) == Ok(s')
    ensures Advances(s, s')
  {
    assert run == s.runs[runId];
    RunPut(s, s', runId, s'.runs[runId]);
    Untouched(s, s');
    NothingSettled(s, s');
  }

  /** What completing a run writes. */
  lemma {:induction false} CompletionWritten(s: Store, s': Store, runId: string, epoch: nat, run: Run, work: WorkItem)
    requires RunSeen(s, run) && WorkSeen(s, work) && run.id == runId && work.state == Executing
    requires WriteCompletion(s, runId, epoch, run, work) == Ok(s')
    ensures work == s.works[work.id] && s'.works == PutWork(s, work.(state := Verifying), work.version + 1).works
    ensures runId in s.runs && runId in s'.runs && s'.runs == s.runs[runId := s'.runs[runId]] && RunStep(s.runs[runId], s'.runs[runId])
    ensures s' == s.(works := s'.works, runs := s'.runs)
  {
  }

  lemma {:induction false} CompletionWrite(s: Store, s': Store, runId: string, epoch: nat, run: Run, work: WorkItem)
    requires PlansOk(s) && RunSeen(s, run) && WorkSeen(s, work) && run.id == runId && work.state == Executing
    requires WriteCompletion(s, runId, epoch, run, work) == Ok(s')
    ensures Advances(s, s')
  {
    CompletionWritten(s, s', runId, epoch, run, work);
    RunsAndWorkAdvance(s, s', runId, work.(state := Verifying), work.version + 1);
  }

  lemma {:induction false} DeliveryWrite(s: Store, s': Store, id: string, run: Run, task: Task, resultCommit: string,
                                         artifacts: seq<Artifact>)
    requires PlansOk(s) && RunSeen(s, run) && run.state == Completed && TaskOk(s, run.task) && s.tasks[run.task] == task
    requires CreateDelivery(s, DeliveryOf(id, run, task, resultCommit, artifacts)) == Ok(s')
    ensures Advances(s, s')
  {
    DeliveryPut(s, s', DeliveryOf(id, run, task, resultCommit, artifacts));
    Untouched(s, s');
    NothingSettled(s, s');
  }

  lemma {:induction false} EvidenceWritten(s: Store, s': Store, e: Evidence)
    requires CreateEvidence(s, e) == Ok(s') && TaskOk(s, s.deliveries[e.deliveryId].task)
    ensures e.id !in s.evidence && s' == s.(evidence := s.evidence[e.id := e]) && EvidenceOk(s', e.id)
  {
  }

  lemma {:induction false} EvidenceWrite(s: Store, s': Store, e: Evidence)
    requires PlansOk(s) && CreateEvidence(s, e) == Ok(s') && TaskOk(s, s.deliveries[e.deliveryId].task)
    ensures Advances(s, s')
  {
    EvidenceWritten(s, s', e);
    EvidencePut(s, s', e);
    Untouched(s, s');
    NothingSettled(s, s');
  }

  lemma {:induction false} VerificationWrite(s: Store, s': Store, id: string, verifier: string, d: Delivery,
                                             task: Task, plan: Plan, evidence: seq<Evidence>)
    requires PlansOk(s) && Holds(s.deliveries, d.id, d) && Holds(s.tasks, d.task, task) && task.plan == PlanDigest(plan)
    requires forall i | 0 <= i < |evidence| :: Holds(s.evidence, evidence[i].id, evidence[i])
    requires CreateVerification(s, VerificationOf(id, verifier, d, task, plan, evidence)) == Ok(s')
    ensures Advances(s, s')
  {
    var v := VerificationOf(id, verifier, d, task, plan, evidence);
    var ids := v.evidenceIds;
    forall i | 0 <= i < |ids| ensures ids[i] in s'.evidence && s'.evidence[ids[i]] == evidence[i] {
      assert Holds(s.evidence, evidence[i].id, evidence[i]);
    }
    assert EvidenceNamed(s', ids) == evidence;
    VerificationPut(s, s', v);
    Untouched(s, s');
    NothingSettled(s, s');
  }

  /** What a review writes. */
  lemma {:induction false} ReviewWritten(s: Store, s': Store, r: Review, d: Delivery, v: Verification, work: WorkItem)
    requires WorkSeen(s, work) && work.id == d.workItemId && work.state == Verifying
    requires Holds(s.deliveries, d.id, d) && Holds(s.verifications, v.id, v) && r.deliveryId == d.id && r.verificationId == v.id
    requires WriteReview(s, r, work) == Ok(s')
    ensures var next := if r.result == Pass then work.(state := Reviewing) else work;
      && r.id !in s.reviews && r.verificationId !in s.reviewOf && work == s.works[work.id]
      && s'.reviews == s.reviews[r.id := r] && s'.reviewOf == s.reviewOf[r.verificationId := r.id]
      && s'.works == PutWork(s, next, work.version + 1).works
      && s' == s.(works := s'.works, reviews := s'.reviews, reviewOf := s'.reviewOf)
      && ReviewOk(s', r.id)
  {
  }

  lemma {:induction false} ReviewWrite(s: Store, s': Store, r: Review, d: Delivery, v: Verification, work: WorkItem)
    requires PlansOk(s) && WorkSeen(s, work) && work.id == d.workItemId && work.state == Verifying
    requires Holds(s.deliveries, d.id, d) && Holds(s.verifications, v.id, v) && r.deliveryId == d.id && r.verificationId == v.id
    requires WriteReview(s, r, work) == Ok(s')
    ensures Advances(s, s')
  {
    ReviewWritten(s, s', r, d, v, work);
    ReviewAdded(s, s', r, work, if r.result == Pass then work.(state := Reviewing) else work);
  }

  lemma {:induction false} ReviewAdded(s: Store, s': Store, r: Review, work: WorkItem, next: WorkItem)
    requires PlansOk(s) && work.id in s.works && work == s.works[work.id] && work.state == Verifying
    requires next == work || next == work.(state := Reviewing)
    requires r.deliveryId in s.deliveries && s.deliveries[r.deliveryId].workItemId == work.id
    requires r.id !in s.reviews && r.verificationId !in s.reviewOf && ReviewOk(s', r.id)
    requires s'.works == PutWork(s, next, work.version + 1).works
    requires s'.reviews == s.reviews[r.id := r] && s'.reviewOf == s.reviewOf[r.verificationId := r.id]
    requires s' == s.(works := s'.works, reviews := s'.reviews, reviewOf := s'.reviewOf)
    ensures Advances(s, s')
  {
    WorkPut(s, s', next, work.version + 1);
    ReviewPut(s, s', r);
    ReviewSettles(s, s', r, work);
    NothingCloses(s, s', work.id);
    Untouched(s, s');
  }

  lemma {:induction false} ReviewSettles(s: Store, s': Store, r: Review, work: WorkItem)
    requires s'.deliveries == s.deliveries && s'.reviews == s.reviews[r.id := r]
    requires r.deliveryId in s.deliveries && s.deliveries[r.deliveryId].workItemId == work.id
    requires work.id in s.works && s.works[work.id] == work && work.state == Verifying
    ensures ReviewsSettle(s, s')
  {
  }

  /** What a closure writes. */
  lemma {:induction false} ClosureWritten(s: Store, s': Store, id: string, d: Delivery, v: Verification,
                                          reviewId: string, work: WorkItem)
    requires WorkSeen(s, work) && work.id == d.workItemId && work.state == Reviewing
    requires Holds(s.deliveries, d.id, d) && Holds(s.verifications, v.id, v) && PassedFor(v, d)
    requires WriteClosure(s, id, d, v, reviewId, work) == Ok(s')
    ensures id !in s.closures && work == s.works[work.id]
    ensures s'.works == PutWork(s, work.(state := Closed), work.version + 1).works
    ensures s' == s.(works := s'.works, closures := s'.closures)
    ensures id in s'.closures && s'.closures == s.closures[id := s'.closures[id]] && ClosesWork(s', id, d.workItemId)
    ensures ClosureOk(s', id)
  {
  }

  lemma {:induction false} ClosureWrite(s: Store, s': Store, id: string, d: Delivery, v: Verification,
                                        reviewId: string, work: WorkItem)
    requires PlansOk(s) && WorkSeen(s, work) && work.id == d.workItemId && work.state == Reviewing
    requires Holds(s.deliveries, d.id, d) && Holds(s.verifications, v.id, v) && PassedFor(v, d)
    requires WriteClosure(s, id, d, v, reviewId, work) == Ok(s')
    ensures Advances(s, s')
  {
    ClosureWritten(s, s', id, d, v, reviewId, work);
    ClosureAdded(s, s', id, work);
  }

  lemma {:induction false} ClosureAdded(s: Store, s': Store, id: string, work: WorkItem)
    requires PlansOk(s) && work.id in s.works && work == s.works[work.id] && work.state == Reviewing && id !in s.closures
    requires s'.works == PutWork(s, work.(state := Closed), work.version + 1).works
    requires s' == s.(works := s'.works, closures := s'.closures)
    requires id in s'.closures && s'.closures == s.closures[id := s'.closures[id]] && ClosesWork(s', id, work.id) && ClosureOk(s', id)
    ensures Advances(s, s')
  {
    WorkPut(s, s', work.(state := Closed), work.version + 1);
    ClosurePut(s, s', id);
    ClosureSettles(s, s', id, work.id);
    NothingSettled(s, s');
    Untouched(s, s');
  }

  // ---- from a handler's locals to its write ----

  lemma {:induction false} IntakeAdvances(s: Store, s': Store, req: Request, l: Locals)
    requires req.NewTask? && PlansOk(s)
    requires Seen(s, l) && Bound(req, l) && MoveOf(req, l) == Write && Written(s, req, l) == Ok(s')
    ensures Advances(s, s')
  {
    TaskWrite(s, s', req.contract, req.plan, l.work.value);
  }

  lemma {:induction false} RunAdvances(s: Store, s': Store, req: Request, l: Locals)
    requires req.NewRun? && TasksBehind(s, l)
    requires Seen(s, l) && Bound(req, l) && MoveOf(req, l) == Write && Written(s, req, l) == Ok(s')
    ensures Advances(s, s')
  {
    RunWrite(s, s', req.runId, req.task, req.attemptId, req.profiles, l.work.value);
  }

  lemma {:induction false} ChangeAdvances(s: Store, s': Store, req: Request, l: Locals)
    requires (req.ChangeRun? || req.CompleteRun?) && PlansOk(s)
    requires Seen(s, l) && Bound(req, l) && MoveOf(req, l) == Write && Written(s, req, l) == Ok(s')
    ensures Advances(s, s')
  {
    if req.ChangeRun? {
      ChangeWrite(s, s', req.runId, req.epoch, req.change, l.run.value);
    } else {
      CompletionWrite(s, s', req.runId, req.epoch, l.run.value, l.work.value);
    }
  }

  lemma {:induction false} DeliveryAdvances(s: Store, s': Store, req: Request, l: Locals)
    requires req.NewDelivery? && TasksBehind(s, l)
    requires Seen(s, l) && Bound(req, l) && MoveOf(req, l) == Write && Written(s, req, l) == Ok(s')
    ensures Advances(s, s')
  {
    DeliveryWrite(s, s', req.id, l.run.value, l.task.value, req.resultCommit, req.artifacts);
  }

  lemma {:induction false} EvidenceAdvances(s: Store, s': Store, req: Request, l: Locals)
    requires req.NewEvidence? && TasksBehind(s, l)
    requires Seen(s, l) && Bound(req, l) && MoveOf(req, l) == Write && Written(s, req, l) == Ok(s')
    ensures Advances(s, s')
  {
    EvidenceWrite(s, s', req.evidence.(deliveryId := l.delivery.value.id, subject := l.delivery.value.subject));
  }

  lemma {:induction false} VerificationAdvances(s: Store, s': Store, req: Request, l: Locals)
    requires req.NewVerification? && PlansOk(s)
    requires Seen(s, l) && Bound(req, l) && MoveOf(req, l) == Write && Written(s, req, l) == Ok(s')
    ensures Advances(s, s')
  {
    VerificationWrite(s, s', req.id, req.verifier, l.delivery.value, l.task.value, l.plan.value, l.evidence);
  }

  lemma {:induction false} ReviewAdvances(s: Store, s': Store, req: Request, l: Locals)
    requires req.NewReview? && PlansOk(s)
    requires Seen(s, l) && Bound(req, l) && MoveOf(req, l) == Write && Written(s, req, l) == Ok(s')
    ensures Advances(s, s')
  {
    ReviewWrite(s, s', ReviewOf(req, l.delivery.value, l.verification.value),
                l.delivery.value, l.verification.value, l.work.value);
  }

  lemma {:induction false} ClosureAdvances(s: Store, s': Store, req: Request, l: Locals)
    requires req.NewClosure? && PlansOk(s)
    requires Seen(s, l) && Bound(req, l) && MoveOf(req, l) == Write && Written(s, req, l) == Ok(s')
    ensures Advances(s, s')
  {
    ClosureWrite(s, s', req.id, l.delivery.value, l.verification.value, req.reviewId, l.work.value);
  }

  /** The contracts a handler's records name are stored and keep their promises. */
  ghost predicate TasksBehind(s: Store, l: Locals) {
    && PlansOk(s)
    && (l.task.Some? ==> TaskOk(s, TaskDigest(l.task.value)))
    && (l.run.Some? && l.run.value.state == Completed ==> TaskOk(s, l.run.value.task))
    && (l.delivery.Some? ==> TaskOk(s, l.delivery.value.task))
  }

  lemma {:induction false} TasksAreBehind(s: Store, l: Locals)
    requires RecordsOk(s) && Seen(s, l)
    ensures TasksBehind(s, l)
  {
    if l.run.Some? { assert RunOk(s, l.run.value.id); }
    if l.delivery.Some? { assert DeliveryOk(s, l.delivery.value.id); }
  }

  predicate Proves(req: Request) {
    req.NewDelivery? || req.NewEvidence? || req.NewVerification? || req.NewReview? || req.NewClosure?
  }

  lemma {:induction false} WorkingWriteAdvances(s: Store, s': Store, req: Request, l: Locals)
    requires !Proves(req)
    requires TasksBehind(s, l) && Seen(s, l) && Bound(req, l) && MoveOf(req, l) == Write && Written(s, req, l) == Ok(s')
    ensures Advances(s, s')
  {
    match req
    case NewWork(item, stated) => WorkWrite(s, s', EnteringWork(item, stated));
    case NewTask(_, _, _) => IntakeAdvances(s, s', req, l);
    case NewRun(_, _, _, _, _) => RunAdvances(s, s', req, l);
    case ChangeRun(_, _, _, _) => ChangeAdvances(s, s', req, l);
    case CompleteRun(_, _) => ChangeAdvances(s, s', req, l);
  }

  lemma {:induction false} ProvingWriteAdvances(s: Store, s': Store, req: Request, l: Locals)
    requires Proves(req)
    requires TasksBehind(s, l) && Seen(s, l) && Bound(req, l) && MoveOf(req, l) == Write && Written(s, req, l) == Ok(s')
    ensures Advances(s, s')
  {
    match req
    case NewDelivery(_, _, _, _) => DeliveryAdvances(s, s', req, l);
    case NewEvidence(_, _) => EvidenceAdvances(s, s', req, l);
    case NewVerification(_, _, _, _) => VerificationAdvances(s, s', req, l);
    case NewReview(_, _, _, _, _, _, _) => ReviewAdvances(s, s', req, l);
    case NewClosure(_, _, _, _) => ClosureAdvances(s, s', req, l);
  }

  /** Whatever a handler writes from copies read at earlier moments, it advances the store. */
  lemma {:induction false} EveryWriteAdvances(s: Store, req: Request, l: Locals)
    requires RecordsOk(s) && Seen(s, l) && Bound(req, l) && MoveOf(req, l) == Write && Written(s, req, l).Ok?
    ensures Advances(s, Written(s, req, l).value)
  {
    TasksAreBehind(s, l);
    if Proves(req) {
      ProvingWriteAdvances(s, Written(s, req, l).value, req, l);
    } else {
      WorkingWriteAdvances(s, Written(s, req, l).value, req, l);
    }
  }
}

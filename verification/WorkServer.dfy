/** The request handlers as straight-line code over the store, proved to do what their programs do when
    nothing else runs; with the atomicity theorem that is what they do under any interleaving. */
module WorkServer {
  import opened Options
  import opened DeliverySubject
  import opened WorkModel
  import opened WorkStore
  import opened WorkHandlers
  import opened WorkInvariant
  import opened WorkAtomic
  import WorkProgress

  /** What a request makes of the store, and the answer it gets. */
  ghost predicate Handled(before: Store, req: Request, after: Store, error: Option<Error>) {
    match Alone(before, req, NothingRead)
    case Ok(store) => after == store && error == None
    case Err(e) => after == before && error == Some(e)
  }

  method RequirementSatisfiedBy(r: Requirement, subject: SubjectDigest, evidence: seq<Evidence>) returns (ok: bool)
    ensures ok == RequirementSatisfied(r, subject, evidence)
    ensures ok <==> r.id != "" && r.procedure != "" && Evidenced(r, subject, evidence)
  {
    SatisfiedExactlyEvidenced(r, subject, evidence);
    if r.id == "" || r.procedure == "" { return false; }
    for i := 0 to |evidence|
      invariant forall k | 0 <= k < i :: !Satisfies(evidence[k], r, subject)
    {
      var item := evidence[i];
      if !item.applicable || item.subject != subject || item.result != Pass { continue; }
      if !Matches(r, item) { continue; }
      return true;
    }
    ok := false;
  }

  /** A passing verdict says that every requirement of every criterion has evidence. */
  method Evaluate(plan: Plan, subject: SubjectDigest, evidence: seq<Evidence>) returns (verdict: Verdict)
    ensures verdict == Evaluation(plan, subject, evidence)
    ensures verdict == if AllEvidenced(plan, subject, evidence) then Pass else Fail
  {
    EvaluationExactlyEvidenced(plan, subject, evidence);
    verdict := Pass;
    if |plan.criteria| == 0 { return Fail; }
    for i := 0 to |plan.criteria|
      invariant verdict == Pass || verdict == Fail
      invariant verdict == Pass <==> forall k | 0 <= k < i :: CriterionMet(plan.criteria[k], subject, evidence)
    {
      var criterion, met := plan.criteria[i], true;
      if criterion.id == "" || criterion.statement == "" || |criterion.requirements| == 0 {
        met := false;
      } else {
        for j := 0 to |criterion.requirements|
          invariant met
          invariant forall k | 0 <= k < j :: RequirementSatisfied(criterion.requirements[k], subject, evidence)
        {
          met := RequirementSatisfiedBy(criterion.requirements[j], subject, evidence);
          if !met { break; }
        }
      }
      if !met { verdict := Fail; }
    }
  }

  class Server {
    var store: Store

    method HandleCreateWork(given: WorkItem, stated: bool) returns (error: Option<Error>)
      modifies this
      ensures Handled(old(store), NewWork(given, stated), store, error)
    {
      var item := given;
      if item.id == "" || item.title == "" || item.owner == "" { return Some(BadRequest); }
      if !stated { item := item.(state := Draft); }
      if item.version == 0 { item := item.(version := 1); }
      var result := CreateWork(store, item);
      if result.Err? { return Some(result.error); }
      store := result.value;
      error := None;
    }

    method HandleCreateTask(contract: Task, plan: Plan, admitted: bool) returns (error: Option<Error>)
      modifies this
      ensures Handled(old(store), NewTask(contract, plan, admitted), store, error)
    {
      ghost var req := NewTask(contract, plan, admitted);
      if contract.id == "" || contract.workItemId == "" || contract.taskType == "" { return Some(BadRequest); }
      if contract.workItemId !in store.works { return Some(NotFound); }
      var work := store.works[contract.workItemId];
      OneRead(store, req, NothingRead, NothingRead.(work := Some(work)));
      if work.state != Draft && work.state != Ready { return Some(Conflict); }
      if !admitted { return Some(Rejected); }
      if !ValidPlan(plan, contract.acceptance) { return Some(Rejected); }
      var task := contract.(planId := plan.id, plan := PlanDigest(plan));
      if task.revision == 0 { task := task.(revision := 1); }
      var expected := work.version;
      work := work.(task := TaskDigest(task), run := "");
      if work.state == Draft {
        var moved := Transition(work, Ready);
        if moved.Err? { return Some(Conflict); }
        work := moved.value;
      }
      var result := CreateTaskAndUpdateWork(store, task, plan, expected, work);
      if result.Err? { return Some(result.error); }
      store := result.value;
      error := None;
    }

    method HandleCreateRun(runId: string, task: TaskDigest, attemptId: string, profiles: string, admitted: bool)
      returns (error: Option<Error>)
      modifies this
      ensures Handled(old(store), NewRun(runId, task, attemptId, profiles, admitted), store, error)
    {
      ghost var req, l := NewRun(runId, task, attemptId, profiles, admitted), NothingRead;
      if runId == "" || task == OtherText("") || attemptId == "" || !admitted { return Some(BadRequest); }
      if task !in store.tasks { return Some(NotFound); }
      var frozen := store.tasks[task];
      OneRead(store, req, l, l.(task := Some(frozen)));
      l := l.(task := Some(frozen));
      if frozen.workItemId !in store.works { return Some(NotFound); }
      var work := store.works[frozen.workItemId];
      OneRead(store, req, l, l.(work := Some(work)));
      if work.state != Ready { return Some(Conflict); }
      if work.task != task { return Some(Conflict); }
      var input := RunInput(runId, task, profiles);
      var value := StartedRun(runId, task, input, attemptId);
      var expected := work.version;
      work := work.(run := runId);
      var moved := Transition(work, Executing);
      if moved.Err? { return Some(Conflict); }
      work := moved.value;
      var result := CreateExecutionAndUpdateWork(store, value, input, expected, work);
      if result.Err? { return Some(result.error); }
      store := result.value;
      error := None;
    }

    /** Pause, resume and takeover. */
    method MutateExecution(runId: string, epoch: nat, change: RunChange, admitted: bool) returns (error: Option<Error>)
      modifies this
      ensures Handled(old(store), ChangeRun(runId, epoch, change, admitted), store, error)
    {
      ghost var req := ChangeRun(runId, epoch, change, admitted);
      if runId !in store.runs { return Some(NotFound); }
      var value := store.runs[runId];
      OneRead(store, req, NothingRead, NothingRead.(run := Some(value)));
      if !admitted || change == Complete { return Some(Conflict); }
      var expected := value.version;
      var changed := Changed(value, epoch, change);
      if changed.Err? { return Some(changed.error); }
      value := changed.value;
      var result := UpdateExecution(store, runId, expected, value);
      if result.Err? { return Some(result.error); }
      store := result.value;
      error := None;
    }

    method HandleCompleteRun(runId: string, epoch: nat) returns (error: Option<Error>)
      modifies this
      ensures Handled(old(store), CompleteRun(runId, epoch), store, error)
    {
      ghost var req, l := CompleteRun(runId, epoch), NothingRead;
      if runId !in store.runs { return Some(NotFound); }
      var value := store.runs[runId];
      OneRead(store, req, l, l.(run := Some(value)));
      l := l.(run := Some(value));
      var expectedRun := value.version;
      var changed := Changed(value, epoch, Complete);
      if changed.Err? { return Some(changed.error); }
      value := changed.value;
      if value.task !in store.tasks { return Some(NotFound); }
      var task := store.tasks[value.task];
      OneRead(store, req, l, l.(task := Some(task)));
      l := l.(task := Some(task));
      if task.workItemId !in store.works { return Some(NotFound); }
      var work := store.works[task.workItemId];
      OneRead(store, req, l, l.(work := Some(work)));
      if work.state != Executing || work.task != value.task || work.run != runId { return Some(Conflict); }
      var expectedWork := work.version;
      var moved := Transition(work, Verifying);
      if moved.Err? { return Some(Conflict); }
      work := moved.value;
      var result := UpdateExecutionAndWork(store, runId, expectedRun, value, expectedWork, work);
      if result.Err? { return Some(result.error); }
      store := result.value;
      error := None;
    }

    method HandleCreateDelivery(id: string, runId: string, resultCommit: string, artifacts: seq<Artifact>)
      returns (error: Option<Error>)
      modifies this
      ensures Handled(old(store), NewDelivery(id, runId, resultCommit, artifacts), store, error)
    {
      ghost var req, l := NewDelivery(id, runId, resultCommit, artifacts), NothingRead;
      if id == "" || runId == "" { return Some(BadRequest); }
      if runId !in store.runs { return Some(NotFound); }
      var value := store.runs[runId];
      OneRead(store, req, l, l.(run := Some(value)));
      l := l.(run := Some(value));
      if value.state != Completed { return Some(Conflict); }
      if value.task !in store.tasks { return Some(NotFound); }
      var task := store.tasks[value.task];
      OneRead(store, req, l, l.(task := Some(task)));
      if resultCommit == "" && |artifacts| == 0 { return Some(BadRequest); }
      for i := 0 to |artifacts|
        invariant forall k | 0 <= k < i :: artifacts[k].id != "" && artifacts[k].digest != ""
      {
        if artifacts[i].id == "" || artifacts[i].digest == "" {
          assert artifacts[i] in artifacts;
          return Some(BadRequest);
        }
      }
      var result := CreateDelivery(store, DeliveryOf(id, value, task, resultCommit, artifacts));
      if result.Err? { return Some(result.error); }
      store := result.value;
      error := None;
    }

    method HandleCreateEvidence(deliveryId: string, evidence: Evidence) returns (error: Option<Error>)
      modifies this
      ensures Handled(old(store), NewEvidence(deliveryId, evidence), store, error)
    {
      ghost var req, l := NewEvidence(deliveryId, evidence), NothingRead;
      if deliveryId == "" || evidence.id == "" || evidence.requirementId == "" || evidence.issuer == ""
         || evidence.procedure == "" || evidence.result == OtherVerdict("") { return Some(BadRequest); }
      if deliveryId !in store.deliveries { return Some(NotFound); }
      var delivery := store.deliveries[deliveryId];
      OneRead(store, req, l, l.(delivery := Some(delivery)));
      l := l.(delivery := Some(delivery));
      if delivery.task !in store.tasks { return Some(NotFound); }
      var task := store.tasks[delivery.task];
      OneRead(store, req, l, l.(task := Some(task)));
      l := l.(task := Some(task));
      if task.plan !in store.plans { return Some(NotFound); }
      var plan := store.plans[task.plan];
      OneRead(store, req, l, l.(plan := Some(plan)));
      var requirement := FindRequirement(Requirements(plan.criteria), evidence.requirementId);
      if requirement.None? { return Some(Rejected); }
      if evidence.procedure != requirement.value.procedure
         || (requirement.value.issuer != "" && evidence.issuer != requirement.value.issuer) { return Some(Rejected); }
      if !ArtifactsBelong(delivery, evidence) { return Some(Rejected); }
      var result := CreateEvidence(store, evidence.(deliveryId := delivery.id, subject := delivery.subject));
      if result.Err? { return Some(result.error); }
      store := result.value;
      error := None;
    }

    /** The evidence a verification names, or None as soon as one item is missing. */
    method GatherEvidence(ids: seq<string>, ghost req: Request, ghost l: Locals) returns (items: Option<seq<Evidence>>)
      requires req.NewVerification? && req.evidenceIds == ids && l.evidence == [] && l.plan.Some?
      requires MoveNewVerification(req.id, req.deliveryId, req.verifier, [], l) == Write
      ensures items.Some? ==> |items.value| == |ids| && Alone(store, req, l) == Alone(store, req, l.(evidence := items.value))
      ensures items.None? ==> Alone(store, req, l) == Err(NotFound)
    {
      var found: seq<Evidence> := [];
      assert l.(evidence := found) == l;
      for i := 0 to |ids|
        invariant |found| == i && Alone(store, req, l) == Alone(store, req, l.(evidence := found))
      {
        if ids[i] !in store.evidence { return None; }
        OneRead(store, req, l.(evidence := found), l.(evidence := found + [store.evidence[ids[i]]]));
        found := found + [store.evidence[ids[i]]];
      }
      items := Some(found);
    }

    method HandleCreateVerification(id: string, deliveryId: string, verifier: string, evidenceIds: seq<string>)
      returns (error: Option<Error>)
      modifies this
      ensures Handled(old(store), NewVerification(id, deliveryId, verifier, evidenceIds), store, error)
      ensures Keyed(old(store)) && error == None ==>
        && WorkProgress.Verifiable(old(store), id, deliveryId, verifier, evidenceIds)
        && store == WorkProgress.WithVerification(old(store), id, deliveryId, verifier, evidenceIds)
    {
      if Keyed(store) { WorkProgress.VerifiesExactly(store, id, deliveryId, verifier, evidenceIds); }
      ghost var req, l := NewVerification(id, deliveryId, verifier, evidenceIds), NothingRead;
      if id == "" || deliveryId == "" || verifier == "" { return Some(BadRequest); }
      if deliveryId !in store.deliveries { return Some(NotFound); }
      var delivery := store.deliveries[deliveryId];
      OneRead(store, req, l, l.(delivery := Some(delivery)));
      l := l.(delivery := Some(delivery));
      if delivery.task !in store.tasks { return Some(NotFound); }
      var task := store.tasks[delivery.task];
      OneRead(store, req, l, l.(task := Some(task)));
      l := l.(task := Some(task));
      if task.plan !in store.plans { return Some(NotFound); }
      var plan := store.plans[task.plan];
      OneRead(store, req, l, l.(plan := Some(plan)));
      l := l.(plan := Some(plan));
      error := StoreVerdict(id, verifier, delivery, task, plan, evidenceIds, req, l);
    }

    /** The second half of a verification: gather the evidence, evaluate the plan, store the report. */
    method StoreVerdict(id: string, verifier: string, delivery: Delivery, task: Task, plan: Plan,
                        evidenceIds: seq<string>,
                        ghost req: Request, ghost l: Locals) returns (error: Option<Error>)
      requires req.NewVerification? && req.id == id && req.verifier == verifier && req.evidenceIds == evidenceIds
      requires id != "" && req.deliveryId != "" && verifier != ""
      requires l == NothingRead.(delivery := Some(delivery), task := Some(task), plan := Some(plan))
      requires Alone(store, req, NothingRead) == Alone(store, req, l)
      modifies this
      ensures Handled(old(store), req, store, error)
    {
      var evidence := GatherEvidence(evidenceIds, req, l);
      if evidence.None? { return Some(NotFound); }
      var verdict := Evaluate(plan, delivery.subject, evidence.value);
      var result := CreateVerification(store, VerificationOf(id, verifier, delivery, task, plan, evidence.value).(result := verdict));
      if result.Err? { return Some(result.error); }
      store := result.value;
      error := None;
    }

    method HandleCreateReview(id: string, deliveryId: string, verificationId: string, reviewer: string,
                              verdict: Verdict,
                              blocking: nat, wellFormed: bool) returns (error: Option<Error>)
      modifies this
      ensures Handled(old(store), NewReview(id, deliveryId, verificationId, reviewer, verdict, blocking, wellFormed), store, error)
    {
      ghost var req, l := NewReview(id, deliveryId, verificationId, reviewer, verdict, blocking, wellFormed), NothingRead;
      if id == "" || deliveryId == "" || verificationId == "" || reviewer == "" || verdict == OtherVerdict("") { return Some(BadRequest); }
      if deliveryId !in store.deliveries { return Some(NotFound); }
      var delivery := store.deliveries[deliveryId];
      OneRead(store, req, l, l.(delivery := Some(delivery)));
      l := l.(delivery := Some(delivery));
      if verificationId !in store.verifications { return Some(NotFound); }
      var verification := store.verifications[verificationId];
      OneRead(store, req, l, l.(verification := Some(verification)));
      l := l.(verification := Some(verification));
      if !PassedFor(verification, delivery) { return Some(Rejected); }
      if delivery.workItemId !in store.works { return Some(NotFound); }
      var work := store.works[delivery.workItemId];
      OneRead(store, req, l, l.(work := Some(work)));
      if work.state != Verifying || work.task != delivery.task || work.run != delivery.runId { return Some(Conflict); }
      if reviewer == verification.verifier || reviewer == work.owner { return Some(Rejected); }
      var report := Review(id, delivery.id, verification.id, delivery.task, delivery.subject, reviewer, verdict, blocking, wellFormed);
      if !report.Valid() { return Some(Rejected); }
      var expected := work.version;
      var next := work;
      if report.result == Pass {
        var moved := Transition(next, Reviewing);
        if moved.Err? { return Some(Conflict); }
        next := moved.value;
      }
      var result := CreateReviewAndUpdateWork(store, report, expected, next);
      if result.Err? { return Some(result.error); }
      store := result.value;
      error := None;
    }

    method HandleCreateClosure(id: string, deliveryId: string, verificationId: string, reviewId: string)
      returns (error: Option<Error>)
      modifies this
      ensures Handled(old(store), NewClosure(id, deliveryId, verificationId, reviewId), store, error)
    {
      ghost var req, l := NewClosure(id, deliveryId, verificationId, reviewId), NothingRead;
      if id == "" || deliveryId == "" || verificationId == "" || reviewId == "" { return Some(BadRequest); }
      if deliveryId !in store.deliveries { return Some(NotFound); }
      var delivery := store.deliveries[deliveryId];
      OneRead(store, req, l, l.(delivery := Some(delivery)));
      l := l.(delivery := Some(delivery));
      if verificationId !in store.verifications { return Some(NotFound); }
      var report := store.verifications[verificationId];
      OneRead(store, req, l, l.(verification := Some(report)));
      l := l.(verification := Some(report));
      if !PassedFor(report, delivery) { return Some(Rejected); }
      if reviewId !in store.reviews { return Some(NotFound); }
      var review := store.reviews[reviewId];
      OneRead(store, req, l, l.(review := Some(review)));
      l := l.(review := Some(review));
      if !ReviewedAs(review, report, delivery) { return Some(Rejected); }
      error := CloseReviewed(id, delivery, report, review, reviewId, req, l);
    }

    /** The second half of a closure: the run and the work item. */
    method CloseReviewed(id: string, delivery: Delivery, report: Verification, review: Review, reviewId: string,
                         ghost req: Request, ghost l: Locals) returns (error: Option<Error>)
      requires req.NewClosure? && req.id == id && req.reviewId == reviewId
      requires l == NothingRead.(delivery := Some(delivery), verification := Some(report), review := Some(review))
      requires id != "" && req.deliveryId != "" && req.verificationId != "" && reviewId != ""
      requires PassedFor(report, delivery) && ReviewedAs(review, report, delivery)
      requires Alone(store, req, NothingRead) == Alone(store, req, l)
      modifies this
      ensures Handled(old(store), req, store, error)
    {
      if delivery.runId !in store.runs { return Some(NotFound); }
      var value := store.runs[delivery.runId];
      OneRead(store, req, l, l.(run := Some(value)));
      if value.state != Completed || value.task != delivery.task { return Some(Conflict); }
      if delivery.workItemId !in store.works { return Some(NotFound); }
      var work := store.works[delivery.workItemId];
      OneRead(store, req, l.(run := Some(value)), l.(run := Some(value), work := Some(work)));
      if work.state != Reviewing || work.run != delivery.runId || work.task != delivery.task { return Some(Conflict); }
      var expected := work.version;
      var moved := Transition(work, Closed);
      if moved.Err? { return Some(Conflict); }
      work := moved.value;
      var closure := Closure(id, delivery.workItemId, delivery.task, delivery.runId, delivery.id, report.id, reviewId, delivery.subject);
      var result := CreateClosureAndUpdateWork(store, closure, expected, work);
      if result.Err? { return Some(result.error); }
      store := result.value;
      error := None;
    }
  }
}

/** The request handlers as programs of single store reads and one final write. A handler between two steps
    is its request and the records it has read so far. */
module WorkHandlers {
  import opened Options
  import opened DeliverySubject
  import opened WorkModel
  import opened WorkStore

  /** `admitted` stands for the checks that look at nothing stored: material, routing, profiles, field sizes. */
  datatype Request =
    | NewWork(item: WorkItem, stated: bool)
    | NewTask(contract: Task, plan: Plan, admitted: bool)
    | NewRun(runId: string, task: TaskDigest, attemptId: string, profiles: string, admitted: bool)
    | ChangeRun(runId: string, epoch: nat, change: RunChange, admitted: bool)
    | CompleteRun(runId: string, epoch: nat)
    | NewDelivery(id: string, runId: string, resultCommit: string, artifacts: seq<Artifact>)
    | NewEvidence(deliveryId: string, evidence: Evidence)
    | NewVerification(id: string, deliveryId: string, verifier: string, evidenceIds: seq<string>)
    | NewReview(id: string, deliveryId: string, verificationId: string, reviewer: string, result: Verdict,
                blocking: nat, wellFormed: bool)
    | NewClosure(id: string, deliveryId: string, verificationId: string, reviewId: string)

  /** The records read so far. */
  datatype Locals = Locals(work: Option<WorkItem>, run: Option<Run>, task: Option<Task>, plan: Option<Plan>,
                           delivery: Option<Delivery>, evidence: seq<Evidence>, verification: Option<Verification>,
                           review: Option<Review>)

  const NothingRead := Locals(None, None, None, None, None, [], None, None)

  /** What a handler does next: read one record, give up, or write. */
  datatype Move =
    | ReadWork(id: string)
    | ReadRun(id: string)
    | ReadTask(digest: TaskDigest)
    | ReadPlan(planDigest: PlanDigest)
    | ReadDelivery(id: string)
    | ReadEvidence(id: string)
    | ReadVerification(id: string)
    | ReadReview(id: string)
    | GiveUp(error: Error)
    | Write

  // ---- the program of each handler, in source order ----

  function MoveNewWork(item: WorkItem): Move {
    if item.id == "" || item.title == "" || item.owner == "" then GiveUp(BadRequest) else Write
  }

  function MoveNewTask(contract: Task, plan: Plan, admitted: bool, l: Locals): Move {
    if contract.id == "" || contract.workItemId == "" || contract.taskType == "" then GiveUp(BadRequest)
    else if l.work.None? then ReadWork(contract.workItemId)
    else if l.work.value.state != Draft && l.work.value.state != Ready then GiveUp(Conflict)
    else if !admitted || !ValidPlan(plan, contract.acceptance) then GiveUp(Rejected)
    else Write
  }

  function MoveNewRun(runId: string, task: TaskDigest, attemptId: string, admitted: bool, l: Locals): Move {
    if runId == "" || task == OtherText("") || attemptId == "" || !admitted then GiveUp(BadRequest)
    else if l.task.None? then ReadTask(task)
    else if l.work.None? then ReadWork(l.task.value.workItemId)
    else if l.work.value.state != Ready || l.work.value.task != task then GiveUp(Conflict)
    else Write
  }

  function MoveChangeRun(runId: string, epoch: nat, change: RunChange, admitted: bool, l: Locals): Move {
    if l.run.None? then ReadRun(runId)
    else if !admitted || change == Complete then GiveUp(Conflict)
    else if Changed(l.run.value, epoch, change).Err? then GiveUp(Changed(l.run.value, epoch, change).error)
    else Write
  }

  function MoveCompleteRun(runId: string, epoch: nat, l: Locals): Move {
    if l.run.None? then ReadRun(runId)
    else if Changed(l.run.value, epoch, Complete).Err? then GiveUp(Changed(l.run.value, epoch, Complete).error)
    else if l.task.None? then ReadTask(l.run.value.task)
    else if l.work.None? then ReadWork(l.task.value.workItemId)
    else if l.work.value.state != Executing || l.work.value.task != l.run.value.task || l.work.value.run != runId then GiveUp(Conflict)
    else Write
  }

  function MoveNewDelivery(id: string, runId: string, resultCommit: string, artifacts: seq<Artifact>, l: Locals): Move {
    if id == "" || runId == "" then GiveUp(BadRequest)
    else if l.run.None? then ReadRun(runId)
    else if l.run.value.state != Completed then GiveUp(Conflict)
    else if l.task.None? then ReadTask(l.run.value.task)
    else if resultCommit == "" && artifacts == [] then GiveUp(BadRequest)
    else if exists a | a in artifacts :: a.id == "" || a.digest == "" then GiveUp(BadRequest)
    else Write
  }

  function MoveNewEvidence(deliveryId: string, e: Evidence, l: Locals): Move {
    if deliveryId == "" || e.id == "" || e.requirementId == "" || e.issuer == "" || e.procedure == "" || e.result == OtherVerdict("")
    then GiveUp(BadRequest)
    else if l.delivery.None? then ReadDelivery(deliveryId)
    else if l.task.None? then ReadTask(l.delivery.value.task)
    else if l.plan.None? then ReadPlan(l.task.value.plan)
    else
      var requirement := FindRequirement(Requirements(l.plan.value.criteria), e.requirementId);
      if requirement.None? || e.procedure != requirement.value.procedure
         || (requirement.value.issuer != "" && e.issuer != requirement.value.issuer) then GiveUp(Rejected)
      else if !ArtifactsBelong(l.delivery.value, e) then GiveUp(Rejected)
      else Write
  }

  function MoveNewVerification(id: string, deliveryId: string, verifier: string, evidenceIds: seq<string>,
                               l: Locals): Move {
    if id == "" || deliveryId == "" || verifier == "" then GiveUp(BadRequest)
    else if l.delivery.None? then ReadDelivery(deliveryId)
    else if l.task.None? then ReadTask(l.delivery.value.task)
    else if l.plan.None? then ReadPlan(l.task.value.plan)
    else if |l.evidence| < |evidenceIds| then ReadEvidence(evidenceIds[|l.evidence|])
    else Write
  }

  /** The verification passed, for exactly this delivery. */
  predicate PassedFor(v: Verification, d: Delivery) {
    v.result == Pass && v.deliveryId == d.id && v.subject == d.subject
  }

  function MoveNewReview(req: Request, l: Locals): Move
    requires req.NewReview?
  {
    if req.id == "" || req.deliveryId == "" || req.verificationId == "" || req.reviewer == "" || req.result == OtherVerdict("")
    then GiveUp(BadRequest)
    else if l.delivery.None? then ReadDelivery(req.deliveryId)
    else if l.verification.None? then ReadVerification(req.verificationId)
    else if !PassedFor(l.verification.value, l.delivery.value) then GiveUp(Rejected)
    else if l.work.None? then ReadWork(l.delivery.value.workItemId)
    else if !WorkIsAt(l.work.value, Verifying, l.delivery.value) then GiveUp(Conflict)
    else if req.reviewer == l.verification.value.verifier || req.reviewer == l.work.value.owner then GiveUp(Rejected)
    else if !ReviewOf(req, l.delivery.value, l.verification.value).Valid() then GiveUp(Rejected)
    else Write
  }

  function MoveNewClosure(id: string, deliveryId: string, verificationId: string, reviewId: string, l: Locals): Move {
    if id == "" || deliveryId == "" || verificationId == "" || reviewId == "" then GiveUp(BadRequest)
    else if l.delivery.None? then ReadDelivery(deliveryId)
    else if l.verification.None? then ReadVerification(verificationId)
    else if !PassedFor(l.verification.value, l.delivery.value) then GiveUp(Rejected)
    else if l.review.None? then ReadReview(reviewId)
    else if !ReviewedAs(l.review.value, l.verification.value, l.delivery.value) then GiveUp(Rejected)
    else if l.run.None? then ReadRun(l.delivery.value.runId)
    else if l.run.value.state != Completed || l.run.value.task != l.delivery.value.task then GiveUp(Conflict)
    else if l.work.None? then ReadWork(l.delivery.value.workItemId)
    else if !WorkIsAt(l.work.value, Reviewing, l.delivery.value) then GiveUp(Conflict)
    else Write
  }

  predicate WorkIsAt(w: WorkItem, state: WorkState, d: Delivery) {
    w.state == state && w.task == d.task && w.run == d.runId
  }

  predicate ReviewedAs(r: Review, v: Verification, d: Delivery) {
    r.result == Pass && r.deliveryId == d.id && r.verificationId == v.id && r.task == d.task && r.subject == d.subject
  }

  function MoveOf(req: Request, l: Locals): Move {
    match req
    case NewWork(item, _) => MoveNewWork(item)
    case NewTask(contract, plan, admitted) => MoveNewTask(contract, plan, admitted, l)
    case NewRun(runId, task, attemptId, _, admitted) => MoveNewRun(runId, task, attemptId, admitted, l)
    case ChangeRun(runId, epoch, change, admitted) => MoveChangeRun(runId, epoch, change, admitted, l)
    case CompleteRun(runId, epoch) => MoveCompleteRun(runId, epoch, l)
    case NewDelivery(id, runId, resultCommit, artifacts) => MoveNewDelivery(id, runId, resultCommit, artifacts, l)
    case NewEvidence(deliveryId, e) => MoveNewEvidence(deliveryId, e, l)
    case NewVerification(id, deliveryId, verifier, ids) => MoveNewVerification(id, deliveryId, verifier, ids, l)
    case NewReview(_, _, _, _, _, _, _) => MoveNewReview(req, l)
    case NewClosure(id, deliveryId, verificationId, reviewId) => MoveNewClosure(id, deliveryId, verificationId, reviewId, l)
  }

  // ---- the records a handler writes ----

  /** A state the caller gives is kept; only a missing one becomes DRAFT. */
  function EnteringWork(item: WorkItem, stated: bool): WorkItem {
    item.(state := if stated then item.state else Draft, version := if item.version == 0 then 1 else item.version)
  }

  function FrozenTask(contract: Task, plan: Plan): Task {
    contract.(planId := plan.id, plan := PlanDigest(plan), revision := if contract.revision == 0 then 1 else contract.revision)
  }

  function ReviewOf(req: Request, d: Delivery, v: Verification): Review
    requires req.NewReview?
  {
    Review(req.id, d.id, v.id, d.task, d.subject, req.reviewer, req.result, req.blocking, req.wellFormed)
  }

  function WriteNewTask(s: Store, contract: Task, plan: Plan, work: WorkItem): Result<Store> {
    var task := FrozenTask(contract, plan);
    var active := work.(task := TaskDigest(task), run := "");
    var next := if work.state == Draft then Transition(active, Ready) else Ok(active);
    if next.Err? then Err(Conflict) else CreateTaskAndUpdateWork(s, task, plan, work.version, next.value)
  }

  function WriteNewRun(s: Store, runId: string, task: TaskDigest, attemptId: string, profiles: string,
                       work: WorkItem): Result<Store> {
    var input := RunInput(runId, task, profiles);
    var next := Transition(work.(run := runId), Executing);
    if next.Err? then Err(Conflict)
    else CreateExecutionAndUpdateWork(s, StartedRun(runId, task, input, attemptId), input, work.version, next.value)
  }

  function WriteChange(s: Store, runId: string, epoch: nat, change: RunChange, run: Run): Result<Store> {
    var changed := Changed(run, epoch, change);
    if changed.Err? then Err(changed.error) else UpdateExecution(s, runId, run.version, changed.value)
  }

  function WriteCompletion(s: Store, runId: string, epoch: nat, run: Run, work: WorkItem): Result<Store> {
    var changed, next := Changed(run, epoch, Complete), Transition(work, Verifying);
    if changed.Err? then Err(changed.error)
    else if next.Err? then Err(Conflict)
    else UpdateExecutionAndWork(s, runId, run.version, changed.value, work.version, next.value)
  }

  function DeliveryOf(id: string, run: Run, task: Task, resultCommit: string, artifacts: seq<Artifact>): Delivery {
    Delivery(id, task.workItemId, run.task, run.id, task.targetId, task.baseCommit, resultCommit, artifacts,
             SubjectFor(run.task, run.id, task.targetId, task.baseCommit, resultCommit, artifacts))
  }

  function VerificationOf(id: string, verifier: string, d: Delivery, task: Task, plan: Plan,
                          evidence: seq<Evidence>): Verification {
    Verification(id, d.id, task.plan, d.subject, Evaluation(plan, d.subject, evidence), verifier,
                 seq(|evidence|, i requires 0 <= i < |evidence| => evidence[i].id))
  }

  function WriteReview(s: Store, r: Review, work: WorkItem): Result<Store> {
    var next := if r.result == Pass then Transition(work, Reviewing) else Ok(work);
    if next.Err? then Err(Conflict) else CreateReviewAndUpdateWork(s, r, work.version, next.value)
  }

  function WriteClosure(s: Store, id: string, d: Delivery, v: Verification, reviewId: string,
                        work: WorkItem): Result<Store> {
    var next := Transition(work, Closed);
    if next.Err? then Err(Conflict)
    else CreateClosureAndUpdateWork(s, Closure(id, d.workItemId, d.task, d.runId, d.id, v.id, reviewId, d.subject),
                                    work.version, next.value)
  }

  /** The final write of a handler that has read everything. */
  function Written(s: Store, req: Request, l: Locals): Result<Store>
    requires MoveOf(req, l) == Write
  {
    match req
    case NewWork(item, stated) => CreateWork(s, EnteringWork(item, stated))
    case NewTask(contract, plan, _) => WriteNewTask(s, contract, plan, l.work.value)
    case NewRun(runId, task, attemptId, profiles, _) => WriteNewRun(s, runId, task, attemptId, profiles, l.work.value)
    case ChangeRun(runId, epoch, change, _) => WriteChange(s, runId, epoch, change, l.run.value)
    case CompleteRun(runId, epoch) => WriteCompletion(s, runId, epoch, l.run.value, l.work.value)
    case NewDelivery(id, _, resultCommit, artifacts) =>
      CreateDelivery(s, DeliveryOf(id, l.run.value, l.task.value, resultCommit, artifacts))
    case NewEvidence(_, e) => CreateEvidence(s, e.(deliveryId := l.delivery.value.id, subject := l.delivery.value.subject))
    case NewVerification(id, _, verifier, _) =>
      CreateVerification(s, VerificationOf(id, verifier, l.delivery.value, l.task.value, l.plan.value, l.evidence))
    case NewReview(_, _, _, _, _, _, _) => WriteReview(s, ReviewOf(req, l.delivery.value, l.verification.value), l.work.value)
    case NewClosure(id, _, _, reviewId) => WriteClosure(s, id, l.delivery.value, l.verification.value, reviewId, l.work.value)
  }

  // ---- one step ----

  function Read(s: Store, l: Locals, move: Move): Option<Locals> {
    match move
    case ReadWork(id) => if id in s.works then Some(l.(work := Some(s.works[id]))) else None
    case ReadRun(id) => if id in s.runs then Some(l.(run := Some(s.runs[id]))) else None
    case ReadTask(digest) => if digest in s.tasks then Some(l.(task := Some(s.tasks[digest]))) else None
    case ReadPlan(digest) => if digest in s.plans then Some(l.(plan := Some(s.plans[digest]))) else None
    case ReadDelivery(id) => if id in s.deliveries then Some(l.(delivery := Some(s.deliveries[id]))) else None
    case ReadEvidence(id) => if id in s.evidence then Some(l.(evidence := l.evidence + [s.evidence[id]])) else None
    case ReadVerification(id) => if id in s.verifications then Some(l.(verification := Some(s.verifications[id]))) else None
    case ReadReview(id) => if id in s.reviews then Some(l.(review := Some(s.reviews[id]))) else None
    case GiveUp(_) => None
    case Write => None
  }

  datatype Call = Active(request: Request, locals: Locals) | Answered(error: Option<Error>)

  /** Clear, cancelled or failing before the step takes effect, or written without an acknowledgement. */
  datatype Weather = Clear | Fails | Unacknowledged

  datatype StepResult = StepResult(store: Store, call: Call)

  function StepCall(s: Store, call: Call, weather: Weather): StepResult {
    match call
    case Answered(_) => StepResult(s, call)
    case Active(req, l) =>
      if weather.Fails? then StepResult(s, Answered(Some(Interrupted)))
      else
        var move := MoveOf(req, l);
        match move
        case GiveUp(error) => StepResult(s, Answered(Some(error)))
        case Write =>
          (match Written(s, req, l)
           case Err(error) => StepResult(s, Answered(Some(error)))
           case Ok(s') => StepResult(s', Answered(if weather.Unacknowledged? then Some(OutcomeUnknown) else None)))
        case _ =>
          (match Read(s, l, move)
           case None => StepResult(s, Answered(Some(NotFound)))
           case Some(l') => StepResult(s, Active(req, l')))
  }

  // ---- any number of handlers over one store ----

  /** `entered` remembers the state each work item first had in the store. */
  datatype System = System(store: Store, calls: seq<Call>, entered: map<string, WorkState>)

  datatype Event = Arrive(request: Request) | Step(call: nat, weather: Weather)

  function Entered(entered: map<string, WorkState>, works: map<string, WorkItem>): map<string, WorkState> {
    map id | id in works :: if id in entered then entered[id] else works[id].state
  }

  function Next(sys: System, e: Event): System {
    match e
    case Arrive(req) => sys.(calls := sys.calls + [Active(req, NothingRead)])
    case Step(i, weather) =>
      if i >= |sys.calls| then sys
      else
        var r := StepCall(sys.store, sys.calls[i], weather);
        System(r.store, sys.calls[i := r.call], Entered(sys.entered, r.store.works))
  }

  function After(events: seq<Event>): System {
    if events == [] then System(EmptyStore, [], map[])
    else Next(After(events[..|events| - 1]), events[|events| - 1])
  }
}

/** The store's own checks: what each write demands of the records it finds, and what it then writes. */
module WorkStore {
  import opened Options
  import opened WorkModel

  datatype Store = Store(
    works: map<string, WorkItem>,
    revisions: map<string, map<nat, Task>>,
    latestRevision: map<string, nat>,
    tasks: map<TaskDigest, Task>,
    plans: map<PlanDigest, Plan>,
    runs: map<string, Run>,
    inputs: set<RunInput>,
    deliveries: map<string, Delivery>,
    evidence: map<string, Evidence>,
    verifications: map<string, Verification>,
    reviews: map<string, Review>,
    reviewOf: map<string, string>,
    closures: map<string, Closure>)

  const EmptyStore := Store(map[], map[], map[], map[], map[], map[], {}, map[], map[], map[], map[], map[], map[])

  function PutWork(s: Store, w: WorkItem, version: nat): Store {
    s.(works := s.works[w.id := w.(version := version)])
  }

  function CreateWork(s: Store, item: WorkItem): Result<Store> {
    if item.id in s.works then Err(Exists)
    else Ok(PutWork(s, item, if item.version == 0 then 1 else item.version))
  }

  /** A task's first revision is number one; later ones follow without a gap. */
  function RevisionError(s: Store, task: Task): Option<Error> {
    if task.id !in s.revisions then (if task.revision != 1 then Some(Conflict) else None)
    else if task.revision in s.revisions[task.id] then Some(Exists)
    else if task.id !in s.latestRevision || task.revision != s.latestRevision[task.id] + 1 then Some(Conflict)
    else None
  }

  function CreateTaskAndUpdateWork(s: Store, task: Task, plan: Plan, expected: nat, work: WorkItem): Result<Store> {
    if task.revision == 0 || task.planId == "" then Err(Conflict)
    else if plan.id != task.planId || PlanDigest(plan) != task.plan then Err(Conflict)
    else if task.workItemId != work.id || work.task != TaskDigest(task) || work.state != Ready then Err(Conflict)
    else if work.id !in s.works then Err(NotFound)
    else
      var current := s.works[work.id];
      if current.version != expected || (current.state != Draft && current.state != Ready) || current.run != "" then Err(Conflict)
      else if TaskDigest(task) in s.tasks then Err(Exists)
      else if RevisionError(s, task).Some? then Err(RevisionError(s, task).value)
      else
        var known := if task.id in s.revisions then s.revisions[task.id] else map[];
        Ok(PutWork(s, work, expected + 1).(
           revisions := s.revisions[task.id := known[task.revision := task]],
           latestRevision := s.latestRevision[task.id := task.revision],
           tasks := s.tasks[TaskDigest(task) := task],
           plans := s.plans[PlanDigest(plan) := plan]))
  }

  function CreateExecutionAndUpdateWork(s: Store, value: Run, input: RunInput, expected: nat,
                                        work: WorkItem): Result<Store> {
    if input != value.input || input.runId != value.id || input.task != value.task then Err(Conflict)
    else if work.state != Executing || work.task != value.task || work.run != value.id then Err(Conflict)
    else if work.id !in s.works then Err(NotFound)
    else
      var current := s.works[work.id];
      if current.version != expected || current.state != Ready || current.task != value.task || current.run != "" then Err(Conflict)
      else if value.task !in s.tasks then Err(NotFound)
      else if value.id in s.runs || input in s.inputs then Err(Exists)
      else
        var stored := if value.version == 0 then value.(version := 1) else value;
        Ok(PutWork(s, work, expected + 1).(runs := s.runs[value.id := stored], inputs := s.inputs + {input}))
  }

  function UpdateExecution(s: Store, id: string, expected: nat, value: Run): Result<Store> {
    if id !in s.runs then Err(NotFound)
    else
      var current := s.runs[id];
      if current.version != expected || current.task != value.task || current.input != value.input then Err(Conflict)
      else Ok(s.(runs := s.runs[id := value.(version := expected + 1)]))
  }

  function UpdateExecutionAndWork(s: Store, id: string, expectedRun: nat, value: Run, expectedWork: nat,
                                  work: WorkItem): Result<Store> {
    if id !in s.runs || work.id !in s.works then Err(NotFound)
    else
      var run, current := s.runs[id], s.works[work.id];
      if run.version != expectedRun || current.version != expectedWork then Err(Conflict)
      else if run.task != value.task || run.input != value.input then Err(Conflict)
      else if current.task != value.task || current.run != value.id || work.task != value.task || work.run != value.id then Err(Conflict)
      else Ok(PutWork(s, work, expectedWork + 1).(runs := s.runs[id := value.(version := expectedRun + 1)]))
  }

  function CreateDelivery(s: Store, d: Delivery): Result<Store> {
    if d.id in s.deliveries then Err(Exists) else Ok(s.(deliveries := s.deliveries[d.id := d]))
  }

  function CreateEvidence(s: Store, e: Evidence): Result<Store> {
    if e.id in s.evidence then Err(Exists)
    else if e.deliveryId !in s.deliveries then Err(NotFound)
    else
      var d := s.deliveries[e.deliveryId];
      if e.subject != d.subject then Err(Conflict)
      else if d.task !in s.tasks then Err(NotFound)
      else if s.tasks[d.task].plan !in s.plans then Err(NotFound)
      else if !MatchesPlan(s.plans[s.tasks[d.task].plan], e) || !ArtifactsBelong(d, e) then Err(Conflict)
      else Ok(s.(evidence := s.evidence[e.id := e]))
  }

  function CreateVerification(s: Store, v: Verification): Result<Store> {
    if v.id in s.verifications then Err(Exists) else Ok(s.(verifications := s.verifications[v.id := v]))
  }

  /** What the store demands of a review's surroundings. */
  predicate ReviewFits(current: WorkItem, expected: nat, work: WorkItem, v: Verification, d: Delivery, r: Review) {
    && current.version == expected && current.state == Verifying
    && (r.result == Pass ==> work.state == Reviewing) && (r.result == Fail ==> work.state == Verifying)
    && current.id == d.workItemId && current.run == d.runId && current.task == d.task
    && work.run == current.run && work.task == current.task
    && r.task == d.task && r.subject == d.subject
    && v.result == Pass && v.deliveryId == d.id && v.subject == d.subject
    && r.reviewer != v.verifier && r.reviewer != current.owner
  }

  function CreateReviewAndUpdateWork(s: Store, r: Review, expected: nat, work: WorkItem): Result<Store> {
    if !r.Valid() then Err(Rejected)
    else if r.id in s.reviews || r.verificationId in s.reviewOf then Err(Exists)
    else if r.verificationId !in s.verifications || r.deliveryId !in s.deliveries || work.id !in s.works then Err(NotFound)
    else if !ReviewFits(s.works[work.id], expected, work, s.verifications[r.verificationId], s.deliveries[r.deliveryId], r)
    then Err(Conflict)
    else Ok(PutWork(s, work, expected + 1).(reviews := s.reviews[r.id := r], reviewOf := s.reviewOf[r.verificationId := r.id]))
  }

  predicate ClosureFits(current: WorkItem, expected: nat, work: WorkItem, r: Review, c: Closure) {
    && current.version == expected && current.state == Reviewing && work.state == Closed
    && r.result == Pass && r.deliveryId == c.deliveryId && r.verificationId == c.verificationId
    && r.task == c.task && r.subject == c.subject
    && current.run == c.runId && current.task == c.task
    && work.run == current.run && work.task == current.task
  }

  function CreateClosureAndUpdateWork(s: Store, c: Closure, expected: nat, work: WorkItem): Result<Store> {
    if c.id in s.closures then Err(Exists)
    else if work.id !in s.works || c.reviewId !in s.reviews then Err(NotFound)
    else if !ClosureFits(s.works[work.id], expected, work, s.reviews[c.reviewId], c) then Err(Conflict)
    else Ok(PutWork(s, work, expected + 1).(closures := s.closures[c.id := c]))
  }
}

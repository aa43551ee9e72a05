/** What every stored record promises about the records it names, and how the store may change under it. */
module WorkInvariant {
  import opened Options
  import opened WorkModel
  import opened WorkStore
  import opened WorkHandlers

  // ---- how the store changes ----

  /** A work item changes one version at a time, never backwards; once it executes, its task and run are fixed. */
  predicate WorkStep(w: WorkItem, w': WorkItem) {
    w' == w ||
    (&& w'.id == w.id && w'.owner == w.owner && w'.version == w.version + 1
     && Rank(w.state) <= Rank(w'.state) <= 5 && Rank(w.state) < 5
     && (Rank(w.state) >= 2 ==> w'.task == w.task && w'.run == w.run))
  }

  /** A run changes one version at a time and never after it ended. */
  predicate RunStep(r: Run, r': Run) {
    r' == r ||
    (&& r'.id == r.id && r'.task == r.task && r'.input == r.input && r'.version == r.version + 1
     && r.state != Completed && r.state != Aborted)
  }

  ghost predicate WorksStep(a: map<string, WorkItem>, b: map<string, WorkItem>) {
    forall id | id in a :: id in b && WorkStep(a[id], b[id])
  }

  ghost predicate RunsStep(a: map<string, Run>, b: map<string, Run>) {
    forall id | id in a :: id in b && RunStep(a[id], b[id])
  }

  ghost predicate Kept<K, V>(a: map<K, V>, b: map<K, V>) {
    forall k | k in a :: k in b && b[k] == a[k]
  }

  /** Works and runs advance; every other record is written once and never changes. */
  ghost predicate Evolves(s: Store, s': Store) {
    && WorksStep(s.works, s'.works) && RunsStep(s.runs, s'.runs)
    && Kept(s.tasks, s'.tasks) && Kept(s.plans, s'.plans)
    && Kept(s.deliveries, s'.deliveries) && Kept(s.evidence, s'.evidence)
    && Kept(s.verifications, s'.verifications) && Kept(s.reviews, s'.reviews)
    && Kept(s.reviewOf, s'.reviewOf) && Kept(s.closures, s'.closures)
  }

  // ---- what each record promises ----

  predicate WorkOk(s: Store, id: string) {
    id in s.works && s.works[id].id == id
  }

  predicate TaskOk(s: Store, digest: TaskDigest) {
    && digest in s.tasks
    && var t := s.tasks[digest];
       && digest == TaskDigest(t) && WorkOk(s, t.workItemId)
       && t.plan in s.plans && s.plans[t.plan] == t.plan.plan && ValidPlan(t.plan.plan, t.acceptance)
  }

  /** The work item of a stored task. */
  function WorkOf(s: Store, digest: TaskDigest): WorkItem
    requires TaskOk(s, digest)
  {
    s.works[s.tasks[digest].workItemId]
  }

  predicate RunOk(s: Store, id: string) {
    && id in s.runs
    && var r := s.runs[id];
       && r.id == id && TaskOk(s, r.task)
       && var w := WorkOf(s, r.task);
          Rank(w.state) >= 2 && w.run == id && w.task == r.task
  }

  predicate DeliveryOk(s: Store, id: string) {
    && id in s.deliveries
    && var d := s.deliveries[id];
       && d.id == id && TaskOk(s, d.task) && d.runId in s.runs
       && s.runs[d.runId].state == Completed && s.runs[d.runId].task == d.task
       && var t := s.tasks[d.task];
          && d.workItemId == t.workItemId
          && d.subject == SubjectFor(d.task, d.runId, t.targetId, t.baseCommit, d.resultCommit, d.artifacts)
  }

  predicate EvidenceOk(s: Store, id: string) {
    && id in s.evidence
    && var e := s.evidence[id];
       && e.id == id && e.deliveryId in s.deliveries
       && var d := s.deliveries[e.deliveryId];
          && e.subject == d.subject && d.task in s.tasks
          && MatchesPlan(s.tasks[d.task].plan.plan, e) && ArtifactsBelong(d, e)
  }

  predicate EvidenceStored(s: Store, ids: seq<string>) {
    forall i | 0 <= i < |ids| :: ids[i] in s.evidence
  }

  function EvidenceNamed(s: Store, ids: seq<string>): seq<Evidence>
    requires EvidenceStored(s, ids)
  {
    seq(|ids|, i requires 0 <= i < |ids| => s.evidence[ids[i]])
  }

  predicate VerificationOk(s: Store, id: string) {
    && id in s.verifications
    && var v := s.verifications[id];
       && v.id == id && v.deliveryId in s.deliveries
       && var d := s.deliveries[v.deliveryId];
          && v.subject == d.subject && d.task in s.tasks && v.plan == s.tasks[d.task].plan
          && EvidenceStored(s, v.evidenceIds)
          && v.result == Evaluation(v.plan.plan, v.subject, EvidenceNamed(s, v.evidenceIds))
  }

  predicate ReviewOk(s: Store, id: string) {
    && id in s.reviews
    && var r := s.reviews[id];
       && r.id == id && r.Valid() && r.verificationId in s.verifications && r.deliveryId in s.deliveries
       && r.verificationId in s.reviewOf && s.reviewOf[r.verificationId] == id
       && var v, d := s.verifications[r.verificationId], s.deliveries[r.deliveryId];
          && PassedFor(v, d) && r.task == d.task && r.subject == d.subject && r.reviewer != v.verifier
          && d.workItemId in s.works
          && var w := s.works[d.workItemId];
             && r.reviewer != w.owner && Rank(w.state) >= (if r.result == Pass then 4 else 3)
             && w.run == d.runId && w.task == d.task
  }

  predicate ClosureOk(s: Store, id: string) {
    && id in s.closures
    && var c := s.closures[id];
       && c.id == id && c.deliveryId in s.deliveries && c.verificationId in s.verifications && c.reviewId in s.reviews
       && var d, v, r := s.deliveries[c.deliveryId], s.verifications[c.verificationId], s.reviews[c.reviewId];
          && d.id == c.deliveryId && v.id == c.verificationId
          && PassedFor(v, d) && ReviewedAs(r, v, d)
          && c.task == d.task && c.runId == d.runId && c.subject == d.subject && c.workItemId == d.workItemId
          && c.workItemId in s.works
          && var w := s.works[c.workItemId];
             w.state == Closed && w.run == c.runId && w.task == c.task
  }

  // ---- no promise is ever broken by a change elsewhere ----

  lemma {:induction false} TaskStays(s: Store, s': Store, digest: TaskDigest)
    requires Evolves(s, s') && TaskOk(s, digest)
    ensures TaskOk(s', digest) && s'.tasks[digest] == s.tasks[digest]
  {
    assert WorkStep(s.works[s.tasks[digest].workItemId], s'.works[s.tasks[digest].workItemId]);
  }

  lemma {:induction false} RunStays(s: Store, s': Store, id: string)
    requires Evolves(s, s') && RunOk(s, id)
    ensures RunOk(s', id)
  {
    TaskStays(s, s', s.runs[id].task);
    assert RunStep(s.runs[id], s'.runs[id]);
    assert WorkStep(WorkOf(s, s.runs[id].task), WorkOf(s', s.runs[id].task));
  }

  lemma {:induction false} DeliveryStays(s: Store, s': Store, id: string)
    requires Evolves(s, s') && DeliveryOk(s, id)
    ensures DeliveryOk(s', id)
  {
    var d := s.deliveries[id];
    TaskStays(s, s', d.task);
    assert RunStep(s.runs[d.runId], s'.runs[d.runId]);
  }

  lemma {:induction false} EvidenceStays(s: Store, s': Store, id: string)
    requires Evolves(s, s') && EvidenceOk(s, id)
    ensures EvidenceOk(s', id)
  {
  }

  lemma {:induction false} VerificationStays(s: Store, s': Store, id: string)
    requires Evolves(s, s') && VerificationOk(s, id)
    ensures VerificationOk(s', id)
  {
    var ids := s.verifications[id].evidenceIds;
    forall i | 0 <= i < |ids| ensures ids[i] in s'.evidence && s'.evidence[ids[i]] == s.evidence[ids[i]] {}
    assert EvidenceNamed(s', ids) == EvidenceNamed(s, ids);
  }

  lemma {:induction false} ReviewStays(s: Store, s': Store, id: string)
    requires Evolves(s, s') && ReviewOk(s, id)
    ensures ReviewOk(s', id)
  {
    var w := s.deliveries[s.reviews[id].deliveryId].workItemId;
    assert WorkStep(s.works[w], s'.works[w]);
  }

  lemma {:induction false} ClosureStays(s: Store, s': Store, id: string)
    requires Evolves(s, s') && ClosureOk(s, id)
    ensures ClosureOk(s', id)
  {
    var w := s.closures[id].workItemId;
    assert WorkStep(s.works[w], s'.works[w]);
  }

  // ---- all promises together ----

  ghost predicate RecordsOk(s: Store) {
    && (forall id | id in s.works :: WorkOk(s, id))
    && (forall digest | digest in s.tasks :: TaskOk(s, digest))
    && (forall id | id in s.runs :: RunOk(s, id))
    && (forall id | id in s.deliveries :: DeliveryOk(s, id))
    && (forall id | id in s.evidence :: EvidenceOk(s, id))
    && (forall id | id in s.verifications :: VerificationOk(s, id))
    && (forall id | id in s.reviews :: ReviewOk(s, id))
    && (forall id | id in s.closures :: ClosureOk(s, id))
    && PlansOk(s)
  }

  ghost predicate NewWorksOk(s: Store, s': Store) {
    forall id | id in s'.works && id !in s.works :: WorkOk(s', id)
  }

  ghost predicate NewTasksOk(s: Store, s': Store) {
    forall digest | digest in s'.tasks && digest !in s.tasks :: TaskOk(s', digest)
  }

  ghost predicate NewRunsOk(s: Store, s': Store) {
    forall id | id in s'.runs && id !in s.runs :: RunOk(s', id)
  }

  ghost predicate NewDeliveriesOk(s: Store, s': Store) {
    forall id | id in s'.deliveries && id !in s.deliveries :: DeliveryOk(s', id)
  }

  ghost predicate NewEvidenceOk(s: Store, s': Store) {
    forall id | id in s'.evidence && id !in s.evidence :: EvidenceOk(s', id)
  }

  ghost predicate NewVerificationsOk(s: Store, s': Store) {
    forall id | id in s'.verifications && id !in s.verifications :: VerificationOk(s', id)
  }

  ghost predicate NewReviewsOk(s: Store, s': Store) {
    forall id | id in s'.reviews && id !in s.reviews :: ReviewOk(s', id)
  }

  ghost predicate NewClosuresOk(s: Store, s': Store) {
    forall id | id in s'.closures && id !in s.closures :: ClosureOk(s', id)
  }

  ghost predicate PlansOk(s: Store) {
    forall digest | digest in s.plans :: s.plans[digest] == digest.plan
  }

  /** Whatever is new keeps its promises. */
  ghost predicate Adds(s: Store, s': Store) {
    && NewWorksOk(s, s') && NewTasksOk(s, s') && NewRunsOk(s, s') && NewDeliveriesOk(s, s') && NewEvidenceOk(s, s')
    && NewVerificationsOk(s, s') && NewReviewsOk(s, s') && NewClosuresOk(s, s') && PlansOk(s')
  }

  /** A map that did not change has nothing to show. */
  lemma {:induction false} Untouched(s: Store, s': Store)
    ensures s'.works == s.works ==> WorksStep(s.works, s'.works) && NewWorksOk(s, s')
    ensures s'.tasks == s.tasks ==> Kept(s.tasks, s'.tasks) && NewTasksOk(s, s')
    ensures s'.plans == s.plans ==> Kept(s.plans, s'.plans) && (PlansOk(s) ==> PlansOk(s'))
    ensures s'.runs == s.runs ==> RunsStep(s.runs, s'.runs) && NewRunsOk(s, s')
    ensures s'.deliveries == s.deliveries ==> Kept(s.deliveries, s'.deliveries) && NewDeliveriesOk(s, s')
    ensures s'.evidence == s.evidence ==> Kept(s.evidence, s'.evidence) && NewEvidenceOk(s, s')
    ensures s'.verifications == s.verifications ==> Kept(s.verifications, s'.verifications) && NewVerificationsOk(s, s')
    ensures s'.reviews == s.reviews ==> Kept(s.reviews, s'.reviews) && NewReviewsOk(s, s')
    ensures s'.reviewOf == s.reviewOf ==> Kept(s.reviewOf, s'.reviewOf)
    ensures s'.closures == s.closures ==> Kept(s.closures, s'.closures) && NewClosuresOk(s, s')
  {
  }

  lemma {:induction false} RecordsStayOk(s: Store, s': Store)
    requires RecordsOk(s) && Evolves(s, s') && Adds(s, s')
    ensures RecordsOk(s')
  {
    forall digest | digest in s'.tasks ensures TaskOk(s', digest) {
      if digest in s.tasks { TaskStays(s, s', digest); }
    }
    forall id | id in s'.runs ensures RunOk(s', id) {
      if id in s.runs { RunStays(s, s', id); }
    }
    forall id | id in s'.deliveries ensures DeliveryOk(s', id) {
      if id in s.deliveries { DeliveryStays(s, s', id); }
    }
    forall id | id in s'.evidence ensures EvidenceOk(s', id) {
      if id in s.evidence { EvidenceStays(s, s', id); }
    }
    forall id | id in s'.verifications ensures VerificationOk(s', id) {
      if id in s.verifications { VerificationStays(s, s', id); }
    }
    forall id | id in s'.reviews ensures ReviewOk(s', id) {
      if id in s.reviews { ReviewStays(s, s', id); }
    }
    forall id | id in s'.closures ensures ClosureOk(s', id) {
      if id in s.closures { ClosureStays(s, s', id); }
    }
    WorksStayOk(s, s');
  }

  lemma {:induction false} WorksStayOk(s: Store, s': Store)
    requires RecordsOk(s) && Evolves(s, s') && Adds(s, s')
    ensures forall id | id in s'.works :: WorkOk(s', id)
  {
    forall id | id in s'.works ensures WorkOk(s', id) {
      if id in s.works { assert WorkOk(s, id) && WorkStep(s.works[id], s'.works[id]); }
    }
  }

  // ---- what a handler in progress knows ----

  /** A copy read earlier: as long as the version is the same, so is the record. */
  predicate WorkSeen(s: Store, w: WorkItem) {
    && w.id in s.works && w.version <= s.works[w.id].version
    && (w.version == s.works[w.id].version ==> w == s.works[w.id])
  }

  /** Likewise for a run; one seen completed is still exactly that. */
  predicate RunSeen(s: Store, r: Run) {
    && r.id in s.runs && r.version <= s.runs[r.id].version
    && (r.version == s.runs[r.id].version || r.state == Completed ==> r == s.runs[r.id])
  }

  predicate Holds<K, V(==)>(m: map<K, V>, k: K, v: V) {
    k in m && m[k] == v
  }

  ghost predicate Seen(s: Store, l: Locals) {
    && (l.work.Some? ==> WorkSeen(s, l.work.value))
    && (l.run.Some? ==> RunSeen(s, l.run.value))
    && (l.task.Some? ==> Holds(s.tasks, TaskDigest(l.task.value), l.task.value))
    && (l.plan.Some? ==> Holds(s.plans, PlanDigest(l.plan.value), l.plan.value))
    && (l.delivery.Some? ==> Holds(s.deliveries, l.delivery.value.id, l.delivery.value))
    && (forall i | 0 <= i < |l.evidence| :: Holds(s.evidence, l.evidence[i].id, l.evidence[i]))
    && (l.verification.Some? ==> Holds(s.verifications, l.verification.value.id, l.verification.value))
    && (l.review.Some? ==> Holds(s.reviews, l.review.value.id, l.review.value))
  }

  lemma {:induction false} SeenStays(s: Store, s': Store, l: Locals)
    requires Seen(s, l) && Evolves(s, s')
    ensures Seen(s', l)
  {
    if l.work.Some? { assert WorkStep(s.works[l.work.value.id], s'.works[l.work.value.id]); }
    if l.run.Some? { assert RunStep(s.runs[l.run.value.id], s'.runs[l.run.value.id]); }
    forall i | 0 <= i < |l.evidence| ensures Holds(s'.evidence, l.evidence[i].id, l.evidence[i]) {
      assert Holds(s.evidence, l.evidence[i].id, l.evidence[i]);
    }
  }

  /** Every record is stored under its own name. */
  ghost predicate Keyed(s: Store) {
    && (forall id | id in s.works :: s.works[id].id == id)
    && (forall digest | digest in s.tasks :: TaskDigest(s.tasks[digest]) == digest)
    && (forall digest | digest in s.plans :: PlanDigest(s.plans[digest]) == digest)
    && (forall id | id in s.runs :: s.runs[id].id == id)
    && (forall id | id in s.deliveries :: s.deliveries[id].id == id)
    && (forall id | id in s.evidence :: s.evidence[id].id == id)
    && (forall id | id in s.verifications :: s.verifications[id].id == id)
    && (forall id | id in s.reviews :: s.reviews[id].id == id)
  }

  lemma {:induction false} RecordsAreKeyed(s: Store)
    requires RecordsOk(s)
    ensures Keyed(s)
  {
    forall id | id in s.works ensures s.works[id].id == id { assert WorkOk(s, id); }
    forall digest | digest in s.tasks ensures TaskDigest(s.tasks[digest]) == digest { assert TaskOk(s, digest); }
    forall id | id in s.runs ensures s.runs[id].id == id { assert RunOk(s, id); }
    forall id | id in s.deliveries ensures s.deliveries[id].id == id { assert DeliveryOk(s, id); }
    forall id | id in s.evidence ensures s.evidence[id].id == id { assert EvidenceOk(s, id); }
    forall id | id in s.verifications ensures s.verifications[id].id == id { assert VerificationOk(s, id); }
    forall id | id in s.reviews ensures s.reviews[id].id == id { assert ReviewOk(s, id); }
  }

  lemma {:induction false} WorkReadIsSeen(s: Store, l: Locals, id: string)
    requires Keyed(s) && Seen(s, l) && id in s.works
    ensures Seen(s, l.(work := Some(s.works[id])))
  {
  }

  lemma {:induction false} RunReadIsSeen(s: Store, l: Locals, id: string)
    requires Keyed(s) && Seen(s, l) && id in s.runs
    ensures Seen(s, l.(run := Some(s.runs[id])))
  {
  }

  lemma {:induction false} TaskReadIsSeen(s: Store, l: Locals, digest: TaskDigest)
    requires Keyed(s) && Seen(s, l) && digest in s.tasks
    ensures Seen(s, l.(task := Some(s.tasks[digest])))
  {
  }

  lemma {:induction false} PlanReadIsSeen(s: Store, l: Locals, digest: PlanDigest)
    requires Keyed(s) && Seen(s, l) && digest in s.plans
    ensures Seen(s, l.(plan := Some(s.plans[digest])))
  {
  }

  lemma {:induction false} DeliveryReadIsSeen(s: Store, l: Locals, id: string)
    requires Keyed(s) && Seen(s, l) && id in s.deliveries
    ensures Seen(s, l.(delivery := Some(s.deliveries[id])))
  {
  }

  lemma {:induction false} VerificationReadIsSeen(s: Store, l: Locals, id: string)
    requires Keyed(s) && Seen(s, l) && id in s.verifications
    ensures Seen(s, l.(verification := Some(s.verifications[id])))
  {
  }

  lemma {:induction false} ReviewReadIsSeen(s: Store, l: Locals, id: string)
    requires Keyed(s) && Seen(s, l) && id in s.reviews
    ensures Seen(s, l.(review := Some(s.reviews[id])))
  {
  }

  lemma {:induction false} ReadIsSeen(s: Store, l: Locals, move: Move)
    requires Keyed(s) && Seen(s, l) && Read(s, l, move).Some?
    ensures Seen(s, Read(s, l, move).value)
  {
    match move
    case ReadWork(id) => WorkReadIsSeen(s, l, id);
    case ReadRun(id) => RunReadIsSeen(s, l, id);
    case ReadTask(digest) => TaskReadIsSeen(s, l, digest);
    case ReadPlan(digest) => PlanReadIsSeen(s, l, digest);
    case ReadDelivery(id) => DeliveryReadIsSeen(s, l, id);
    case ReadEvidence(id) => EvidenceReadIsSeen(s, l, id);
    case ReadVerification(id) => VerificationReadIsSeen(s, l, id);
    case ReadReview(id) => ReviewReadIsSeen(s, l, id);
  }

  lemma {:induction false} EvidenceReadIsSeen(s: Store, l: Locals, id: string)
    requires Keyed(s) && Seen(s, l) && id in s.evidence
    ensures Seen(s, l.(evidence := l.evidence + [s.evidence[id]]))
  {
  }

  // ---- which records a handler has read, by the keys its program asks for ----

  predicate TaskIs(t: Option<Task>, digest: TaskDigest) { t.Some? && TaskDigest(t.value) == digest }

  /** A handler's locals are exactly what its program reads, in order, up to some point. */
  ghost predicate Bound(req: Request, l: Locals) {
    match req
    case NewWork(_, _) => l == NothingRead
    case NewTask(contract, _, _) =>
      l == NothingRead.(work := l.work) && (l.work.Some? ==> l.work.value.id == contract.workItemId)
    case NewRun(_, task, _, _, _) =>
      && l == NothingRead.(task := l.task, work := l.work)
      && (l.task.Some? ==> TaskIs(l.task, task))
      && (l.work.Some? ==> l.task.Some? && l.work.value.id == l.task.value.workItemId)
    case ChangeRun(runId, _, _, _) =>
      l == NothingRead.(run := l.run) && (l.run.Some? ==> l.run.value.id == runId)
    case CompleteRun(runId, _) =>
      && l == NothingRead.(run := l.run, task := l.task, work := l.work)
      && (l.run.Some? ==> l.run.value.id == runId)
      && (l.task.Some? ==> l.run.Some? && TaskIs(l.task, l.run.value.task))
      && (l.work.Some? ==> l.task.Some? && l.work.value.id == l.task.value.workItemId)
    case NewDelivery(_, runId, _, _) =>
      && l == NothingRead.(run := l.run, task := l.task)
      && (l.run.Some? ==> l.run.value.id == runId)
      && (l.task.Some? ==> l.run.Some? && TaskIs(l.task, l.run.value.task))
    case NewEvidence(deliveryId, _) =>
      l == NothingRead.(delivery := l.delivery, task := l.task, plan := l.plan) && PlanBound(deliveryId, l)
    case NewVerification(_, deliveryId, _, ids) =>
      && l == NothingRead.(delivery := l.delivery, task := l.task, plan := l.plan, evidence := l.evidence)
      && PlanBound(deliveryId, l) && |l.evidence| <= |ids| && (l.evidence != [] ==> l.plan.Some?)
      && (forall i | 0 <= i < |l.evidence| :: l.evidence[i].id == ids[i])
    case NewReview(_, deliveryId, verificationId, _, _, _, _) =>
      && l == NothingRead.(delivery := l.delivery, verification := l.verification, work := l.work)
      && VerificationBound(deliveryId, verificationId, l)
      && (l.work.Some? ==> l.verification.Some? && l.work.value.id == l.delivery.value.workItemId)
    case NewClosure(_, deliveryId, verificationId, reviewId) =>
      && l == NothingRead.(delivery := l.delivery, verification := l.verification, review := l.review, run := l.run, work := l.work)
      && VerificationBound(deliveryId, verificationId, l)
      && (l.review.Some? ==> l.verification.Some? && l.review.value.id == reviewId)
      && (l.run.Some? ==> l.review.Some? && l.run.value.id == l.delivery.value.runId)
      && (l.work.Some? ==> l.run.Some? && l.work.value.id == l.delivery.value.workItemId)
  }

  predicate PlanBound(deliveryId: string, l: Locals) {
    && (l.delivery.Some? ==> l.delivery.value.id == deliveryId)
    && (l.task.Some? ==> l.delivery.Some? && TaskIs(l.task, l.delivery.value.task))
    && (l.plan.Some? ==> l.task.Some? && l.task.value.plan == PlanDigest(l.plan.value))
  }

  predicate VerificationBound(deliveryId: string, verificationId: string, l: Locals) {
    && (l.delivery.Some? ==> l.delivery.value.id == deliveryId)
    && (l.verification.Some? ==> l.delivery.Some? && l.verification.value.id == verificationId)
  }

  /** What the program asks for, and when. */
  predicate TaskAsks(req: Request, l: Locals, m: Move)
    requires req.NewTask?
  {
    && (m.ReadWork? ==> m.id == req.contract.workItemId)
    && (!m.ReadRun? && !m.ReadTask? && !m.ReadPlan? && !m.ReadDelivery? && !m.ReadEvidence? && !m.ReadVerification? && !m.ReadReview?)
  }

  lemma {:induction false} TaskMoveAsks(req: Request, l: Locals)
    requires req.NewTask?
    ensures TaskAsks(req, l, MoveOf(req, l))
  {
  }

  lemma {:induction false} TaskReadsBound(s: Store, req: Request, l: Locals, m: Move)
    requires req.NewTask? && TaskAsks(req, l, m)
    requires Keyed(s) && Bound(req, l) && Read(s, l, m).Some?
    ensures Bound(req, Read(s, l, m).value)
  {
  }

  /** What the program asks for, and when. */
  predicate RunAsks(req: Request, l: Locals, m: Move)
    requires req.NewRun?
  {
    && (m.ReadTask? ==> m.digest == req.task && l.task.None?)
    && (m.ReadWork? ==> l.task.Some? && m.id == l.task.value.workItemId)
    && (!m.ReadRun? && !m.ReadPlan? && !m.ReadDelivery? && !m.ReadEvidence? && !m.ReadVerification? && !m.ReadReview?)
  }

  lemma {:induction false} RunMoveAsks(req: Request, l: Locals)
    requires req.NewRun?
    ensures RunAsks(req, l, MoveOf(req, l))
  {
  }

  lemma {:induction false} RunReadsBound(s: Store, req: Request, l: Locals, m: Move)
    requires req.NewRun? && RunAsks(req, l, m)
    requires Keyed(s) && Bound(req, l) && Read(s, l, m).Some?
    ensures Bound(req, Read(s, l, m).value)
  {
  }

  /** What the program asks for, and when. */
  predicate ChangeAsks(req: Request, l: Locals, m: Move)
    requires req.ChangeRun?
  {
    && (m.ReadRun? ==> m.id == req.runId)
    && (!m.ReadWork? && !m.ReadTask? && !m.ReadPlan? && !m.ReadDelivery? && !m.ReadEvidence? && !m.ReadVerification? && !m.ReadReview?)
  }

  lemma {:induction false} ChangeMoveAsks(req: Request, l: Locals)
    requires req.ChangeRun?
    ensures ChangeAsks(req, l, MoveOf(req, l))
  {
  }

  lemma {:induction false} ChangeReadsBound(s: Store, req: Request, l: Locals, m: Move)
    requires req.ChangeRun? && ChangeAsks(req, l, m)
    requires Keyed(s) && Bound(req, l) && Read(s, l, m).Some?
    ensures Bound(req, Read(s, l, m).value)
  {
  }

  /** What the program asks for, and when. */
  predicate CompletionAsks(req: Request, l: Locals, m: Move)
    requires req.CompleteRun?
  {
    && (m.ReadRun? ==> m.id == req.runId && l.run.None?)
    && (m.ReadTask? ==> l.run.Some? && m.digest == l.run.value.task && l.task.None?)
    && (m.ReadWork? ==> l.task.Some? && m.id == l.task.value.workItemId)
    && (!m.ReadPlan? && !m.ReadDelivery? && !m.ReadEvidence? && !m.ReadVerification? && !m.ReadReview?)
  }

  lemma {:induction false} CompletionMoveAsks(req: Request, l: Locals)
    requires req.CompleteRun?
    ensures CompletionAsks(req, l, MoveOf(req, l))
  {
  }

  lemma {:induction false} CompletionReadsBound(s: Store, req: Request, l: Locals, m: Move)
    requires req.CompleteRun? && CompletionAsks(req, l, m)
    requires Keyed(s) && Bound(req, l) && Read(s, l, m).Some?
    ensures Bound(req, Read(s, l, m).value)
  {
  }

  /** What the program asks for, and when. */
  predicate DeliveryAsks(req: Request, l: Locals, m: Move)
    requires req.NewDelivery?
  {
    && (m.ReadRun? ==> m.id == req.runId && l.run.None?)
    && (m.ReadTask? ==> l.run.Some? && m.digest == l.run.value.task)
    && (!m.ReadWork? && !m.ReadPlan? && !m.ReadDelivery? && !m.ReadEvidence? && !m.ReadVerification? && !m.ReadReview?)
  }

  lemma {:induction false} DeliveryMoveAsks(req: Request, l: Locals)
    requires req.NewDelivery?
    ensures DeliveryAsks(req, l, MoveOf(req, l))
  {
  }

  lemma {:induction false} DeliveryReadsBound(s: Store, req: Request, l: Locals, m: Move)
    requires req.NewDelivery? && DeliveryAsks(req, l, m)
    requires Keyed(s) && Bound(req, l) && Read(s, l, m).Some?
    ensures Bound(req, Read(s, l, m).value)
  {
  }

  /** What the program asks for, and when. */
  predicate EvidenceAsks(req: Request, l: Locals, m: Move)
    requires req.NewEvidence?
  {
    && (m.ReadDelivery? ==> m.id == req.deliveryId && l.delivery.None?)
    && (m.ReadTask? ==> l.delivery.Some? && m.digest == l.delivery.value.task && l.task.None?)
    && (m.ReadPlan? ==> l.task.Some? && m.planDigest == l.task.value.plan)
    && (!m.ReadWork? && !m.ReadRun? && !m.ReadEvidence? && !m.ReadVerification? && !m.ReadReview?)
  }

  lemma {:induction false} EvidenceMoveAsks(req: Request, l: Locals)
    requires req.NewEvidence?
    ensures EvidenceAsks(req, l, MoveOf(req, l))
  {
  }

  lemma {:induction false} EvidenceReadsBound(s: Store, req: Request, l: Locals, m: Move)
    requires req.NewEvidence? && EvidenceAsks(req, l, m)
    requires Keyed(s) && Bound(req, l) && Read(s, l, m).Some?
    ensures Bound(req, Read(s, l, m).value)
  {
  }

  /** What the program asks for, and when. */
  predicate VerificationAsks(req: Request, l: Locals, m: Move)
    requires req.NewVerification?
  {
    && (m.ReadDelivery? ==> m.id == req.deliveryId && l.delivery.None?)
    && (m.ReadTask? ==> l.delivery.Some? && m.digest == l.delivery.value.task && l.task.None?)
    && (m.ReadPlan? ==> l.task.Some? && m.planDigest == l.task.value.plan && l.plan.None?)
    && (m.ReadEvidence? ==> l.plan.Some? && |l.evidence| < |req.evidenceIds| && m.id == req.evidenceIds[|l.evidence|])
    && (!m.ReadWork? && !m.ReadRun? && !m.ReadVerification? && !m.ReadReview?)
  }

  lemma {:induction false} VerificationMoveAsks(req: Request, l: Locals)
    requires req.NewVerification?
    ensures VerificationAsks(req, l, MoveOf(req, l))
  {
  }

  lemma {:induction false} VerificationReadsBound(s: Store, req: Request, l: Locals, m: Move)
    requires req.NewVerification? && VerificationAsks(req, l, m)
    requires Keyed(s) && Bound(req, l) && Read(s, l, m).Some?
    ensures Bound(req, Read(s, l, m).value)
  {
  }

  /** What the program asks for, and when. */
  predicate ReviewAsks(req: Request, l: Locals, m: Move)
    requires req.NewReview?
  {
    && (m.ReadDelivery? ==> m.id == req.deliveryId && l.delivery.None?)
    && (m.ReadVerification? ==> l.delivery.Some? && m.id == req.verificationId && l.verification.None?)
    && (m.ReadWork? ==> l.delivery.Some? && l.verification.Some? && m.id == l.delivery.value.workItemId)
    && (!m.ReadRun? && !m.ReadTask? && !m.ReadPlan? && !m.ReadEvidence? && !m.ReadReview?)
  }

  lemma {:induction false} ReviewMoveAsks(req: Request, l: Locals)
    requires req.NewReview?
    ensures ReviewAsks(req, l, MoveOf(req, l))
  {
  }

  lemma {:induction false} ReviewReadsBound(s: Store, req: Request, l: Locals, m: Move)
    requires req.NewReview? && ReviewAsks(req, l, m)
    requires Keyed(s) && Bound(req, l) && Read(s, l, m).Some?
    ensures Bound(req, Read(s, l, m).value)
  {
  }

  /** What the program asks for, and when. */
  predicate ClosureAsks(req: Request, l: Locals, m: Move)
    requires req.NewClosure?
  {
    && (m.ReadDelivery? ==> m.id == req.deliveryId && l.delivery.None?)
    && (m.ReadVerification? ==> l.delivery.Some? && m.id == req.verificationId && l.verification.None?)
    && (m.ReadReview? ==> l.verification.Some? && m.id == req.reviewId && l.review.None?)
    && (m.ReadRun? ==> l.delivery.Some? && l.review.Some? && m.id == l.delivery.value.runId && l.run.None?)
    && (m.ReadWork? ==> l.delivery.Some? && l.run.Some? && m.id == l.delivery.value.workItemId)
    && (!m.ReadTask? && !m.ReadPlan? && !m.ReadEvidence?)
  }

  lemma {:induction false} ClosureMoveAsks(req: Request, l: Locals)
    requires req.NewClosure?
    ensures ClosureAsks(req, l, MoveOf(req, l))
  {
  }

  lemma {:induction false} ClosureReadsBound(s: Store, req: Request, l: Locals, m: Move)
    requires req.NewClosure? && ClosureAsks(req, l, m)
    requires Keyed(s) && Bound(req, l) && Read(s, l, m).Some?
    ensures Bound(req, Read(s, l, m).value)
  {
  }

  /** Reading keeps a handler on its program: each record lands under the key it was asked for by. */
  lemma {:induction false} ReadKeepsBound(s: Store, req: Request, l: Locals)
    requires Keyed(s) && Bound(req, l) && Read(s, l, MoveOf(req, l)).Some?
    ensures Bound(req, Read(s, l, MoveOf(req, l)).value)
  {
    var m := MoveOf(req, l);
    match req
    case NewWork(_, _) =>
    case NewTask(_, _, _) => TaskMoveAsks(req, l); TaskReadsBound(s, req, l, m);
    case NewRun(_, _, _, _, _) => RunMoveAsks(req, l); RunReadsBound(s, req, l, m);
    case ChangeRun(_, _, _, _) => ChangeMoveAsks(req, l); ChangeReadsBound(s, req, l, m);
    case CompleteRun(_, _) => CompletionMoveAsks(req, l); CompletionReadsBound(s, req, l, m);
    case NewDelivery(_, _, _, _) => DeliveryMoveAsks(req, l); DeliveryReadsBound(s, req, l, m);
    case NewEvidence(_, _) => EvidenceMoveAsks(req, l); EvidenceReadsBound(s, req, l, m);
    case NewVerification(_, _, _, _) => VerificationMoveAsks(req, l); VerificationReadsBound(s, req, l, m);
    case NewReview(_, _, _, _, _, _, _) => ReviewMoveAsks(req, l); ReviewReadsBound(s, req, l, m);
    case NewClosure(_, _, _, _) => ClosureMoveAsks(req, l); ClosureReadsBound(s, req, l, m);
  }
}

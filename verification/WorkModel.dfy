/** The records a work item passes through on its way to closure, and the rules on single records. */
module WorkModel {
  import opened Options
  import opened DeliverySubject

  datatype WorkState = Draft | Ready | Executing | Verifying | Reviewing | Closed | Cancelled

  /** The caller names a task by digest; a text that is no task's digest is `OtherText`. */
  datatype TaskDigest = TaskDigest(task: Task) | OtherText(text: string)

  datatype PlanDigest = PlanDigest(plan: Plan)

  datatype WorkItem = WorkItem(id: string, title: string, owner: string, task: TaskDigest, run: string,
                               state: WorkState, version: nat, detail: string)

  datatype Requirement = Requirement(id: string, procedure: string, issuer: string)
  datatype Criterion = Criterion(id: string, statement: string, requirements: seq<Requirement>)
  datatype Plan = Plan(id: string, criteria: seq<Criterion>)

  /** `detail` stands for the fields that only the digest looks at. */
  datatype Task = Task(id: string, workItemId: string, taskType: string, revision: nat, planId: string, plan: PlanDigest,
                       baseCommit: string, targetId: string, acceptance: seq<string>, detail: string)

  datatype RunState = Created | Running | Paused | HumanControlled | Completed | Aborted
  datatype RunInput = RunInput(runId: string, task: TaskDigest, profiles: string)
  datatype Run = Run(id: string, task: TaskDigest, input: RunInput, state: RunState, version: nat, epoch: nat,
                     attemptId: string, human: bool)

  datatype SubjectDigest = SubjectDigest(task: TaskDigest, runId: string, targetId: string, baseCommit: string,
                                         resultCommit: string, artifacts: seq<Pair>)

  datatype Delivery = Delivery(id: string, workItemId: string, task: TaskDigest, runId: string, targetId: string,
                               baseCommit: string, resultCommit: string, artifacts: seq<Artifact>, subject: SubjectDigest)

  datatype Verdict = Pass | Fail | OtherVerdict(text: string)

  datatype Evidence = Evidence(id: string, deliveryId: string, requirementId: string, subject: SubjectDigest,
                               issuer: string, procedure: string, result: Verdict, artifactRefs: seq<string>, applicable: bool)

  datatype Verification = Verification(id: string, deliveryId: string, plan: PlanDigest, subject: SubjectDigest,
                                       result: Verdict, verifier: string, evidenceIds: seq<string>)

  /** `wellFormed` stands for the length and duplicate rules on findings and limits. */
  datatype Review = Review(id: string, deliveryId: string, verificationId: string, task: TaskDigest, subject: SubjectDigest,
                           reviewer: string, result: Verdict, blocking: nat, wellFormed: bool)
  {
    predicate Valid() {
      && wellFormed && (result == Pass || result == Fail)
      && (result == Pass ==> blocking == 0) && (result == Fail ==> blocking != 0)
    }
  }

  datatype Closure = Closure(id: string, workItemId: string, task: TaskDigest, runId: string, deliveryId: string,
                             verificationId: string, reviewId: string, subject: SubjectDigest)

  datatype Error = BadRequest | Exists | NotFound | Conflict | Rejected | StaleEpoch | Terminal | BadTransition | Interrupted | OutcomeUnknown

  datatype Result<+T> = Ok(value: T) | Err(error: Error)

  // ---- work states ----

  function Rank(s: WorkState): nat {
    match s
    case Draft => 0
    case Ready => 1
    case Executing => 2
    case Verifying => 3
    case Reviewing => 4
    case Closed => 5
    case Cancelled => 6
  }

  predicate Allowed(from: WorkState, to: WorkState) {
    (to == Cancelled && Rank(from) < 5) || (to != Cancelled && Rank(to) == Rank(from) + 1)
  }

  function Transition(w: WorkItem, to: WorkState): Result<WorkItem> {
    if w.state == to then Ok(w)
    else if Allowed(w.state, to) then Ok(w.(state := to))
    else Err(BadTransition)
  }

  /** A transition changes nothing but the state, one rank at a time unless it cancels; closed and cancelled items
      have none. */
  lemma {:induction false} TransitionsClimb(w: WorkItem, to: WorkState)
    ensures var r := Transition(w, to);
      && (r.Ok? ==> r.value == w.(state := to) && (to == w.state || to == Cancelled || Rank(to) == Rank(w.state) + 1))
      && ((w.state == Closed || w.state == Cancelled) ==> (r.Ok? <==> to == w.state))
    ensures (forall s :: Transition(w, s).Ok? ==> s == w.state) <==> w.state == Closed || w.state == Cancelled
  {
    if w.state != Closed && w.state != Cancelled { assert Transition(w, Cancelled).Ok?; }
  }

  // ---- runs ----

  function CheckEpoch(r: Run, epoch: nat): Option<Error> {
    if epoch != r.epoch then Some(StaleEpoch)
    else if r.state == Completed || r.state == Aborted then Some(Terminal)
    else None
  }

  function StartedRun(id: string, task: TaskDigest, input: RunInput, attemptId: string): Run {
    Run(id, task, input, Running, 1, 1, attemptId, false)
  }

  datatype RunChange = Pause | Resume | Takeover | Complete

  function Changed(r: Run, epoch: nat, change: RunChange): Result<Run> {
    var refused := CheckEpoch(r, epoch);
    if refused.Some? then Err(refused.value)
    else
      match change
      case Pause => Ok(r.(state := Paused))
      case Resume => Ok(r.(state := Running))
      case Takeover => Ok(r.(state := HumanControlled, epoch := r.epoch + 1, human := true))
      case Complete => Ok(r.(state := Completed))
  }

  /** An ended run changes no more, a stale epoch changes nothing, and no change touches what the run is for. */
  lemma {:induction false} ChangesKeepTheRun(r: Run, epoch: nat, change: RunChange)
    ensures var c := Changed(r, epoch, change);
      && (c.Ok? <==> epoch == r.epoch && r.state != Completed && r.state != Aborted)
      && (c.Ok? ==> && c.value.id == r.id && c.value.task == r.task && c.value.input == r.input && c.value.version == r.version
                    && (c.value.state == Completed <==> change == Complete)
                    && (c.value.epoch == r.epoch <==> change != Takeover))
  {
  }

  // ---- plans and evidence ----

  predicate Unique<T(==)>(s: seq<T>) {
    forall i, j | 0 <= i < j < |s| :: s[i] != s[j]
  }

  function Requirements(criteria: seq<Criterion>): seq<Requirement> {
    if criteria == [] then [] else criteria[0].requirements + Requirements(criteria[1..])
  }

  function Statements(criteria: seq<Criterion>): seq<string> {
    seq(|criteria|, i requires 0 <= i < |criteria| => criteria[i].statement)
  }

  predicate CriterionComplete(c: Criterion) {
    c.id != "" && c.statement != "" && c.requirements != [] && forall r | r in c.requirements :: r.id != "" && r.procedure != ""
  }

  /** The plan has one complete criterion for every acceptance criterion of its contract, and nothing is named twice. */
  predicate ValidPlan(plan: Plan, acceptance: seq<string>) {
    && plan.id != "" && plan.criteria != []
    && (forall c | c in plan.criteria :: CriterionComplete(c))
    && (forall i, j | 0 <= i < j < |plan.criteria| :: plan.criteria[i].id != plan.criteria[j].id)
    && multiset(Statements(plan.criteria)) == multiset(acceptance)
    && (forall i, j | 0 <= i < j < |Requirements(plan.criteria)| ::
          Requirements(plan.criteria)[i].id != Requirements(plan.criteria)[j].id)
  }

  /** The first requirement with that id. */
  function FindRequirement(requirements: seq<Requirement>, id: string): Option<Requirement> {
    if id == "" || requirements == [] then None
    else if requirements[0].id == id then Some(requirements[0])
    else FindRequirement(requirements[1..], id)
  }

  predicate Matches(r: Requirement, e: Evidence) {
    && r.id != "" && e.requirementId == r.id && e.procedure == r.procedure
    && (r.issuer == "" || e.issuer == r.issuer)
  }

  predicate MatchesPlan(plan: Plan, e: Evidence) {
    var r := FindRequirement(Requirements(plan.criteria), e.requirementId);
    r.Some? && Matches(r.value, e)
  }

  function ArtifactIds(artifacts: seq<Artifact>): seq<string> {
    seq(|artifacts|, i requires 0 <= i < |artifacts| => artifacts[i].id)
  }

  /** The evidence cites artifacts of exactly this delivery, each once. */
  predicate ArtifactsBelong(d: Delivery, e: Evidence) {
    var ids := ArtifactIds(d.artifacts);
    && Unique(ids) && "" !in ids
    && Unique(e.artifactRefs) && forall ref | ref in e.artifactRefs :: ref in ids
  }

  predicate Satisfies(e: Evidence, r: Requirement, subject: SubjectDigest) {
    e.applicable && e.subject == subject && e.result == Pass && Matches(r, e)
  }

  predicate RequirementSatisfied(r: Requirement, subject: SubjectDigest, evidence: seq<Evidence>) {
    r.id != "" && r.procedure != "" && exists i :: 0 <= i < |evidence| && Satisfies(evidence[i], r, subject)
  }

  predicate CriterionMet(c: Criterion, subject: SubjectDigest, evidence: seq<Evidence>) {
    c.id != "" && c.statement != "" && c.requirements != []
    && forall i | 0 <= i < |c.requirements| :: RequirementSatisfied(c.requirements[i], subject, evidence)
  }

  function Evaluation(plan: Plan, subject: SubjectDigest, evidence: seq<Evidence>): Verdict {
    if plan.criteria != [] && forall i | 0 <= i < |plan.criteria| :: CriterionMet(plan.criteria[i], subject, evidence)
    then Pass else Fail
  }

  /** Some piece of the evidence is applicable, passing, of this subject and about this requirement, from the issuer
      it names if it names one. */
  ghost predicate Evidenced(r: Requirement, subject: SubjectDigest, evidence: seq<Evidence>) {
    exists e | e in evidence ::
      && e.applicable && e.subject == subject && e.result == Pass
      && e.requirementId == r.id && e.procedure == r.procedure && (r.issuer == "" || e.issuer == r.issuer)
  }

  /** Every requirement of every criterion is complete and has its evidence. */
  ghost predicate AllEvidenced(plan: Plan, subject: SubjectDigest, evidence: seq<Evidence>) {
    && plan.criteria != []
    && forall c | c in plan.criteria ::
         && c.id != "" && c.statement != "" && c.requirements != []
         && forall r | r in c.requirements :: r.id != "" && r.procedure != "" && Evidenced(r, subject, evidence)
  }

  lemma {:induction false} SatisfiedExactlyEvidenced(r: Requirement, subject: SubjectDigest, evidence: seq<Evidence>)
    ensures RequirementSatisfied(r, subject, evidence) <==> r.id != "" && r.procedure != "" && Evidenced(r, subject, evidence)
  {
    if r.id != "" && Evidenced(r, subject, evidence) {
      var e :| e in evidence && e.applicable && e.subject == subject && e.result == Pass
        && e.requirementId == r.id && e.procedure == r.procedure && (r.issuer == "" || e.issuer == r.issuer);
      var i :| 0 <= i < |evidence| && evidence[i] == e;
      assert Satisfies(evidence[i], r, subject);
    }
  }

  lemma {:induction false} MetExactlyEvidenced(c: Criterion, subject: SubjectDigest, evidence: seq<Evidence>)
    ensures CriterionMet(c, subject, evidence) <==>
      && c.id != "" && c.statement != "" && c.requirements != []
      && forall r | r in c.requirements :: r.id != "" && r.procedure != "" && Evidenced(r, subject, evidence)
  {
    forall i | 0 <= i < |c.requirements|
      ensures RequirementSatisfied(c.requirements[i], subject, evidence) <==>
        var r := c.requirements[i]; r.id != "" && r.procedure != "" && Evidenced(r, subject, evidence)
    {
      SatisfiedExactlyEvidenced(c.requirements[i], subject, evidence);
    }
  }

  /** The verdict is PASS exactly when all is evidenced, and FAIL otherwise. */
  lemma {:induction false} EvaluationExactlyEvidenced(plan: Plan, subject: SubjectDigest, evidence: seq<Evidence>)
    ensures Evaluation(plan, subject, evidence) == if AllEvidenced(plan, subject, evidence) then Pass else Fail
  {
    forall i | 0 <= i < |plan.criteria|
      ensures CriterionMet(plan.criteria[i], subject, evidence) <==>
        var c := plan.criteria[i];
        && c.id != "" && c.statement != "" && c.requirements != []
        && forall r | r in c.requirements :: r.id != "" && r.procedure != "" && Evidenced(r, subject, evidence)
    {
      MetExactlyEvidenced(plan.criteria[i], subject, evidence);
    }
  }

  // ---- what a delivery identifies ----

  function SubjectFor(task: TaskDigest, runId: string, targetId: string, baseCommit: string, resultCommit: string,
                     artifacts: seq<Artifact>): SubjectDigest {
    SubjectDigest(task, runId, targetId, baseCommit, resultCommit, Sorted(PairsOf(artifacts)))
  }
}

/** Safety of the whole workflow, over every interleaving of any number of handlers. */
module WorkSafety {
  import opened Options
  import opened WorkModel
  import opened WorkStore
  import opened WorkHandlers
  import opened WorkInvariant
  import opened WorkCommits

  // ---- one verdict per work item ----

  ghost predicate OnePass(s: Store) {
    forall a, b, work | PassesWork(s, a, work) && PassesWork(s, b, work) :: a == b
  }

  ghost predicate OneClosure(s: Store) {
    forall a, b, work | ClosesWork(s, a, work) && ClosesWork(s, b, work) :: a == b
  }

  lemma {:induction false} OldPassIsOld(s: Store, s': Store, id: string, work: string)
    requires RecordsOk(s) && Evolves(s, s') && id in s.reviews && PassesWork(s', id, work)
    ensures PassesWork(s, id, work) && work in s.works && Rank(s.works[work].state) >= 4
  {
    assert ReviewOk(s, id);
  }

  lemma {:induction false} PassStaysOne(s: Store, s': Store)
    requires RecordsOk(s) && Evolves(s, s') && ReviewsSettle(s, s') && OnePass(s)
    ensures OnePass(s')
  {
    forall a, b, work | PassesWork(s', a, work) && PassesWork(s', b, work) ensures a == b {
      if a in s.reviews { OldPassIsOld(s, s', a, work); }
      if b in s.reviews { OldPassIsOld(s, s', b, work); }
    }
  }

  lemma {:induction false} OldClosureIsOld(s: Store, s': Store, id: string, work: string)
    requires RecordsOk(s) && Evolves(s, s') && id in s.closures && ClosesWork(s', id, work)
    ensures ClosesWork(s, id, work) && work in s.works && s.works[work].state == Closed
  {
    assert ClosureOk(s, id);
  }

  lemma {:induction false} ClosureStaysOne(s: Store, s': Store)
    requires RecordsOk(s) && Evolves(s, s') && ClosuresSettle(s, s') && OneClosure(s)
    ensures OneClosure(s')
  {
    forall a, b, work | ClosesWork(s', a, work) && ClosesWork(s', b, work) ensures a == b {
      if a in s.closures { OldClosureIsOld(s, s', a, work); }
      if b in s.closures { OldClosureIsOld(s, s', b, work); }
    }
  }

  // ---- how items entered ----

  /** A closed item has a closure unless it entered closed; then it has none. */
  ghost predicate EntryOk(s: Store, entered: map<string, WorkState>, work: string) {
    && work in s.works && work in entered
    && (entered[work] == Closed ==> s.works[work].state == Closed)
    && (s.works[work].state == Closed ==> ((exists id :: ClosesWork(s, id, work)) <==> entered[work] != Closed))
  }

  ghost predicate EntriesOk(s: Store, entered: map<string, WorkState>) {
    entered.Keys == s.works.Keys && forall work | work in s.works :: EntryOk(s, entered, work)
  }

  lemma {:induction false} NewEntry(s: Store, s': Store, entered: map<string, WorkState>, work: string)
    requires RecordsOk(s) && Evolves(s, s') && ClosuresSettle(s, s')
    requires work !in s.works && work !in entered && work in s'.works
    ensures EntryOk(s', Entered(entered, s'.works), work)
  {
    forall id | ClosesWork(s', id, work) ensures false {
      if id in s.closures { OldClosureIsOld(s, s', id, work); }
    }
  }

  lemma {:induction false} EnteredClosedStays(s: Store, s': Store, entered: map<string, WorkState>, work: string)
    requires RecordsOk(s) && Evolves(s, s') && ClosuresSettle(s, s') && EntryOk(s, entered, work) && entered[work] == Closed
    ensures s'.works[work].state == Closed && forall id :: !ClosesWork(s', id, work)
  {
    assert WorkStep(s.works[work], s'.works[work]);
    forall id ensures !ClosesWork(s', id, work) {
      if ClosesWork(s', id, work) && id in s.closures { OldClosureIsOld(s, s', id, work); }
    }
  }

  lemma {:induction false} ClosedStays(s: Store, s': Store, entered: map<string, WorkState>, work: string)
    requires Evolves(s, s') && ClosuresSettle(s, s') && EntryOk(s, entered, work) && entered[work] != Closed
    ensures s'.works[work].state == Closed ==> exists id :: ClosesWork(s', id, work)
  {
    if s.works[work].state == Closed {
      var id :| ClosesWork(s, id, work);
      assert ClosesWork(s', id, work);
    }
  }

  lemma {:induction false} OldEntry(s: Store, s': Store, entered: map<string, WorkState>, work: string)
    requires RecordsOk(s) && Evolves(s, s') && ClosuresSettle(s, s') && EntryOk(s, entered, work)
    ensures EntryOk(s', Entered(entered, s'.works), work)
  {
    if entered[work] == Closed {
      EnteredClosedStays(s, s', entered, work);
    } else {
      ClosedStays(s, s', entered, work);
    }
  }

  lemma {:induction false} EntriesStayOk(s: Store, s': Store, entered: map<string, WorkState>)
    requires RecordsOk(s) && Evolves(s, s') && ClosuresSettle(s, s') && EntriesOk(s, entered)
    ensures EntriesOk(s', Entered(entered, s'.works))
  {
    forall work | work in s'.works ensures EntryOk(s', Entered(entered, s'.works), work) {
      if work in s.works { OldEntry(s, s', entered, work); } else { NewEntry(s, s', entered, work); }
    }
  }

  // ---- the invariant of the whole system ----

  ghost predicate CallOk(s: Store, call: Call) {
    call.Active? ==> Seen(s, call.locals) && Bound(call.request, call.locals)
  }

  ghost predicate StoreOk(s: Store, entered: map<string, WorkState>) {
    RecordsOk(s) && OnePass(s) && OneClosure(s) && EntriesOk(s, entered)
  }

  ghost predicate Invariant(sys: System) {
    StoreOk(sys.store, sys.entered) && forall i | 0 <= i < |sys.calls| :: CallOk(sys.store, sys.calls[i])
  }

  lemma {:induction false} StoreStaysOk(s: Store, s': Store, entered: map<string, WorkState>)
    requires StoreOk(s, entered) && Advances(s, s')
    ensures StoreOk(s', Entered(entered, s'.works))
  {
    RecordsStayOk(s, s');
    PassStaysOne(s, s');
    ClosureStaysOne(s, s');
    EntriesStayOk(s, s', entered);
  }

  /** A step either leaves the store alone or advances it. */
  lemma {:induction false} StepAdvances(s: Store, call: Call, weather: Weather)
    requires RecordsOk(s) && CallOk(s, call)
    ensures var r := StepCall(s, call, weather); (r.store == s || Advances(s, r.store)) && CallOk(r.store, r.call)
  {
    if call.Active? && !weather.Fails? {
      var req, l := call.request, call.locals;
      if MoveOf(req, l) == Write {
        if Written(s, req, l).Ok? { EveryWriteAdvances(s, req, l); }
      } else if Read(s, l, MoveOf(req, l)).Some? {
        ReadKeepsCall(s, req, l);
      }
    }
  }

  lemma {:induction false} ReadKeepsCall(s: Store, req: Request, l: Locals)
    requires RecordsOk(s) && Seen(s, l) && Bound(req, l) && Read(s, l, MoveOf(req, l)).Some?
    ensures CallOk(s, Active(req, Read(s, l, MoveOf(req, l)).value))
  {
    RecordsAreKeyed(s);
    ReadIsSeen(s, l, MoveOf(req, l));
    ReadKeepsBound(s, req, l);
  }

  lemma {:induction false} EnteredStays(s: Store, entered: map<string, WorkState>)
    requires EntriesOk(s, entered)
    ensures Entered(entered, s.works) == entered
  {
    forall id | id in s.works ensures id in entered { assert EntryOk(s, entered, id); }
  }

  lemma {:induction false} NextKeeps(sys: System, e: Event)
    requires Invariant(sys)
    ensures Invariant(Next(sys, e))
  {
    if e.Step? && e.call < |sys.calls| {
      var s, i := sys.store, e.call;
      var r := StepCall(s, sys.calls[i], e.weather);
      StepAdvances(s, sys.calls[i], e.weather);
      if r.store == s {
        EnteredStays(s, sys.entered);
      } else {
        StoreStaysOk(s, r.store, sys.entered);
      }
      var next := Next(sys, e);
      forall k | 0 <= k < |next.calls| ensures CallOk(next.store, next.calls[k]) {
        if k != i && r.store != s && sys.calls[k].Active? { SeenStays(s, r.store, sys.calls[k].locals); }
      }
    }
  }

  lemma {:induction false} EveryRunKeeps(events: seq<Event>)
    ensures Invariant(After(events))
  {
    if events != [] {
      EveryRunKeeps(events[..|events| - 1]);
      NextKeeps(After(events[..|events| - 1]), events[|events| - 1]);
    }
  }

  // ---- what closure means ----

  /** Every acceptance criterion of a contract is a criterion of its plan, and each of its requirements is met by a
      stored, applicable, passing piece of evidence for exactly this subject. */
  ghost predicate CriteriaMet(s: Store, t: Task, subject: SubjectDigest) {
    forall statement | statement in t.acceptance :: exists c | c in t.plan.plan.criteria ::
      c.statement == statement && c.requirements != [] &&
      forall r | r in c.requirements :: exists id :: EvidenceMeets(s, id, r, subject)
  }

  predicate EvidenceMeets(s: Store, id: string, r: Requirement, subject: SubjectDigest) {
    id in s.evidence && Satisfies(s.evidence[id], r, subject)
  }

  /** The chain of records behind a closed work item. */
  ghost predicate Proven(s: Store, work: string, id: string) {
    && ClosesWork(s, id, work) && ClosureOk(s, id) && work in s.works
    && var c, w := s.closures[id], s.works[work];
       var d, v, r := s.deliveries[c.deliveryId], s.verifications[c.verificationId], s.reviews[c.reviewId];
       && d.workItemId == work && d.runId == w.run && d.task == w.task && TaskOk(s, d.task) && s.tasks[d.task].workItemId == work
       && d.runId in s.runs && s.runs[d.runId].state == Completed && s.runs[d.runId].task == d.task
       && v.result == Pass && v.deliveryId == d.id && v.subject == d.subject && c.subject == d.subject
       && r.result == Pass && r.blocking == 0 && r.verificationId == v.id && r.deliveryId == d.id && r.subject == d.subject
       && r.reviewer != v.verifier && r.reviewer != w.owner
       && CriteriaMet(s, s.tasks[d.task], d.subject)
  }

  lemma {:induction false} PassMeetsCriteria(s: Store, t: Task, v: Verification)
    requires v.id in s.verifications && s.verifications[v.id] == v && VerificationOk(s, v.id) && v.result == Pass
    requires v.plan == t.plan && ValidPlan(t.plan.plan, t.acceptance)
    ensures CriteriaMet(s, t, v.subject)
  {
    var criteria, evidence := t.plan.plan.criteria, EvidenceNamed(s, v.evidenceIds);
    forall statement | statement in t.acceptance
      ensures exists c | c in criteria :: c.statement == statement && c.requirements != [] &&
                forall r | r in c.requirements :: exists id :: EvidenceMeets(s, id, r, v.subject)
    {
      assert statement in multiset(t.acceptance) && statement in multiset(Statements(criteria));
      var i :| 0 <= i < |criteria| && Statements(criteria)[i] == statement;
      assert CriterionMet(criteria[i], v.subject, evidence);
      forall r | r in criteria[i].requirements ensures exists id :: EvidenceMeets(s, id, r, v.subject) {
        var j :| 0 <= j < |criteria[i].requirements| && criteria[i].requirements[j] == r;
        assert RequirementSatisfied(criteria[i].requirements[j], v.subject, evidence);
        var k :| 0 <= k < |evidence| && Satisfies(evidence[k], r, v.subject);
        assert EvidenceMeets(s, v.evidenceIds[k], r, v.subject);
      }
    }
  }

  lemma {:induction false} ClosureProves(s: Store, work: string, id: string)
    requires RecordsOk(s) && ClosesWork(s, id, work)
    ensures Proven(s, work, id)
  {
    assert ClosureOk(s, id);
    var c := s.closures[id];
    assert DeliveryOk(s, c.deliveryId);
    assert VerificationOk(s, c.verificationId);
    assert ReviewOk(s, c.reviewId);
    PassMeetsCriteria(s, s.tasks[c.task], s.verifications[c.verificationId]);
  }

  /** In every reachable state a CLOSED work item has the whole chain of proof behind it, exactly when it did not
      enter the store already CLOSED. Items that entered as DRAFT, READY or anything else are covered. */
  lemma {:induction false} ClosedExactlyProven(events: seq<Event>, work: string)
    ensures var sys := After(events);
      work in sys.store.works && sys.store.works[work].state == Closed ==>
        work in sys.entered && (sys.entered[work] != Closed <==> exists id :: Proven(sys.store, work, id))
  {
    EveryRunKeeps(events);
    var sys := After(events);
    if work in sys.store.works && sys.store.works[work].state == Closed {
      assert EntryOk(sys.store, sys.entered, work);
      forall id | ClosesWork(sys.store, id, work) ensures Proven(sys.store, work, id) { ClosureProves(sys.store, work, id); }
    }
  }

  /** The gap is real: a caller may create an item in any state, and one created CLOSED has nothing behind it. */
  lemma {:induction false} CreatedClosedIsUnproven(item: WorkItem)
    requires item.id != "" && item.title != "" && item.owner != "" && item.state == Closed
    ensures var sys := After([Arrive(NewWork(item, true)), Step(0, Clear)]);
      && item.id in sys.store.works && sys.store.works[item.id].state == Closed
      && !exists id :: Proven(sys.store, item.id, id)
  {
    var events := [Arrive(NewWork(item, true)), Step(0, Clear)];
    var first := events[..1];
    assert first == [Arrive(NewWork(item, true))] && first[..0] == [];
    var arrived := System(EmptyStore, [Active(NewWork(item, true), NothingRead)], map[]);
    assert After(first) == Next(After(first[..0]), first[0]) == arrived;
    assert After(events) == Next(arrived, Step(0, Clear));
  }

  // ---- at most one of each ----

  predicate RunFor(s: Store, id: string, work: string) {
    id in s.runs && s.runs[id].task in s.tasks && s.tasks[s.runs[id].task].workItemId == work
  }

  /** All runs started for tasks of one work item are the same run. */
  lemma {:induction false} AtMostOneRun(events: seq<Event>, a: string, b: string, work: string)
    ensures var s := After(events).store;
      RunFor(s, a, work) && RunFor(s, b, work) ==> a == b
  {
    EveryRunKeeps(events);
    var s := After(events).store;
    if RunFor(s, a, work) && RunFor(s, b, work) { assert RunOk(s, a) && RunOk(s, b); }
  }

  lemma {:induction false} AtMostOnePassAndClosure(events: seq<Event>, a: string, b: string, work: string)
    ensures var s := After(events).store; PassesWork(s, a, work) && PassesWork(s, b, work) ==> a == b
    ensures var s := After(events).store; ClosesWork(s, a, work) && ClosesWork(s, b, work) ==> a == b
  {
    EveryRunKeeps(events);
  }

  /** Each verification is reviewed at most once. */
  lemma {:induction false} OneReviewPerVerification(events: seq<Event>, a: string, b: string)
    ensures var s := After(events).store;
      a in s.reviews && b in s.reviews && s.reviews[a].verificationId == s.reviews[b].verificationId ==> a == b
  {
    EveryRunKeeps(events);
    var s := After(events).store;
    if a in s.reviews && b in s.reviews { assert ReviewOk(s, a) && ReviewOk(s, b); }
  }

  // ---- over time ----

  /** Where a work item may be later: further on, with the same owner, and once executing with the same task and run. */
  predicate WorkLater(w: WorkItem, w': WorkItem) {
    && w'.id == w.id && w'.owner == w.owner && w.version <= w'.version
    && Rank(w.state) <= Rank(w'.state) && (w.version == w'.version ==> w' == w)
    && (Rank(w.state) >= 2 ==> w'.task == w.task && w'.run == w.run)
  }

  /** What the store may look like later: works further on, receipts and frozen tasks unchanged. */
  ghost predicate Later(s: Store, s': Store) {
    && (forall id | id in s.works :: id in s'.works && WorkLater(s.works[id], s'.works[id]))
    && Kept(s.tasks, s'.tasks) && Kept(s.deliveries, s'.deliveries) && Kept(s.evidence, s'.evidence)
    && Kept(s.verifications, s'.verifications) && Kept(s.reviews, s'.reviews) && Kept(s.closures, s'.closures)
    && (forall id | id in s.runs && s.runs[id].state == Completed :: id in s'.runs && s'.runs[id] == s.runs[id])
    && (forall id | id in s.runs :: id in s'.runs)
  }

  lemma {:induction false} AdvancedIsLater(s: Store, s': Store)
    requires Evolves(s, s')
    ensures Later(s, s')
  {
    forall id | id in s.works ensures id in s'.works && WorkLater(s.works[id], s'.works[id]) {
      assert WorkStep(s.works[id], s'.works[id]);
    }
    forall id | id in s.runs ensures id in s'.runs && (s.runs[id].state == Completed ==> s'.runs[id] == s.runs[id]) {
      assert RunStep(s.runs[id], s'.runs[id]);
    }
  }

  lemma {:induction false} SameOrAdvanced(s: Store, s': Store)
    requires s' == s || Advances(s, s')
    ensures Later(s, s')
  {
    if s' != s { AdvancedIsLater(s, s'); }
  }

  lemma {:induction false} StepIsLater(s: Store, call: Call, weather: Weather, s': Store)
    requires RecordsOk(s) && CallOk(s, call) && s' == StepCall(s, call, weather).store
    ensures Later(s, s')
  {
    StepAdvances(s, call, weather);
    SameOrAdvanced(s, s');
  }

  lemma {:induction false} NextIsLater(sys: System, e: Event, s': Store)
    requires Invariant(sys) && s' == Next(sys, e).store
    ensures Later(sys.store, s')
  {
    if e.Step? && e.call < |sys.calls| {
      assert CallOk(sys.store, sys.calls[e.call]);
      StepIsLater(sys.store, sys.calls[e.call], e.weather, s');
    } else {
      SameOrAdvanced(sys.store, s');
    }
  }

  /** Over every run and from any moment of it on: work only moves forward, an executing item's contract is
      fixed, completed runs stay as they are and every receipt is immutable. */
  lemma {:induction false} OnlyForward(events: seq<Event>, n: nat)
    requires n <= |events|
    ensures Later(After(events[..n]).store, After(events).store)
  {
    if n == |events| {
      assert events[..n] == events;
    } else {
      var before := events[..|events| - 1];
      assert before[..n] == events[..n];
      OnlyForward(before, n);
      EveryRunKeeps(before);
      NextIsLater(After(before), events[|events| - 1], After(events).store);
      LaterStill(After(events[..n]).store, After(before).store, After(events).store);
    }
  }

  lemma {:induction false} LaterStill(a: Store, b: Store, c: Store)
    requires Later(a, b) && Later(b, c)
    ensures Later(a, c)
  {
    forall id | id in a.works ensures id in c.works && WorkLater(a.works[id], c.works[id]) {
      assert WorkLater(a.works[id], b.works[id]) && WorkLater(b.works[id], c.works[id]);
    }
  }
}

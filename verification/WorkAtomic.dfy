/** Every handler is atomic: what it writes from reads scattered over time is what it would have written had it
    run alone at the moment of the write. */
module WorkAtomic {
  import opened Options
  import opened WorkModel
  import opened WorkStore
  import opened WorkHandlers
  import opened WorkInvariant
  import opened WorkCommits
  import opened WorkSafety

  function One<T>(o: Option<T>): nat {
    if o.Some? then 0 else 1
  }

  function EvidenceLeft(req: Request, l: Locals): nat {
    if req.NewVerification? && |l.evidence| < |req.evidenceIds| then |req.evidenceIds| - |l.evidence| else 0
  }

  /** How many records a handler has not read yet. */
  function Unread(req: Request, l: Locals): nat {
    One(l.work) + One(l.run) + One(l.task) + One(l.plan) + One(l.delivery) + One(l.verification) + One(l.review)
    + EvidenceLeft(req, l)
  }

  /** A program only asks for what it has not read. */
  predicate AsksForUnread(req: Request, l: Locals, move: Move) {
    match move
    case ReadWork(_) => l.work.None?
    case ReadRun(_) => l.run.None?
    case ReadTask(_) => l.task.None?
    case ReadPlan(_) => l.plan.None?
    case ReadDelivery(_) => l.delivery.None?
    case ReadEvidence(_) => req.NewVerification? && |l.evidence| < |req.evidenceIds|
    case ReadVerification(_) => l.verification.None?
    case ReadReview(_) => l.review.None?
    case GiveUp(_) => true
    case Write => true
  }

  lemma {:induction false} MovesAskForUnread(req: Request, l: Locals)
    ensures AsksForUnread(req, l, MoveOf(req, l))
  {
    match req
    case NewWork(_, _) =>
    case NewTask(_, _, _) =>
    case NewRun(_, _, _, _, _) =>
    case ChangeRun(_, _, _, _) =>
    case CompleteRun(_, _) =>
    case NewDelivery(_, _, _, _) =>
    case NewEvidence(_, _) =>
    case NewVerification(_, _, _, _) =>
    case NewReview(_, _, _, _, _, _, _) =>
    case NewClosure(_, _, _, _) =>
  }

  lemma {:induction false} ReadingShrinks(s: Store, req: Request, l: Locals, move: Move)
    requires AsksForUnread(req, l, move) && Read(s, l, move).Some?
    ensures Unread(req, Read(s, l, move).value) < Unread(req, l)
  {
  }

  /** The rest of a handler with nothing else running: the store it leaves, or why it leaves it alone. */
  function Alone(s: Store, req: Request, l: Locals): Result<Store>
    decreases Unread(req, l)
  {
    var move := MoveOf(req, l);
    MovesAskForUnread(req, l);
    if move.GiveUp? then Err(move.error)
    else if move.Write? then Written(s, req, l)
    else
      match Read(s, l, move)
      case None => Err(NotFound)
      case Some(l') => ReadingShrinks(s, req, l, move); Alone(s, req, l')
  }

  lemma {:induction false} OneRead(s: Store, req: Request, l: Locals, l': Locals)
    requires !MoveOf(req, l).GiveUp? && !MoveOf(req, l).Write? && Read(s, l, MoveOf(req, l)) == Some(l')
    ensures Alone(s, req, l) == Alone(s, req, l')
  {
  }

  /** Every record read is still exactly what is stored. */
  ghost predicate Current(s: Store, l: Locals) {
    && (l.work.Some? ==> Holds(s.works, l.work.value.id, l.work.value))
    && (l.run.Some? ==> Holds(s.runs, l.run.value.id, l.run.value))
    && (l.task.Some? ==> Holds(s.tasks, TaskDigest(l.task.value), l.task.value))
    && (l.plan.Some? ==> Holds(s.plans, PlanDigest(l.plan.value), l.plan.value))
    && (l.delivery.Some? ==> Holds(s.deliveries, l.delivery.value.id, l.delivery.value))
    && (forall i | 0 <= i < |l.evidence| :: Holds(s.evidence, l.evidence[i].id, l.evidence[i]))
    && (l.verification.Some? ==> Holds(s.verifications, l.verification.value.id, l.verification.value))
    && (l.review.Some? ==> Holds(s.reviews, l.review.value.id, l.review.value))
  }

  /** Every copy a successful write relies on is current: its version is, or it is a run seen completed. */
  lemma {:induction false} TaskCopiesCurrent(s: Store, req: Request, l: Locals)
    requires req.NewTask? && Seen(s, l) && Bound(req, l) && MoveOf(req, l) == Write && Written(s, req, l).Ok?
    ensures Holds(s.works, l.work.value.id, l.work.value)
  {
  }

  lemma {:induction false} RunCopiesCurrent(s: Store, req: Request, l: Locals)
    requires req.NewRun? && Seen(s, l) && Bound(req, l) && MoveOf(req, l) == Write && Written(s, req, l).Ok?
    ensures Holds(s.works, l.work.value.id, l.work.value)
  {
  }

  lemma {:induction false} ChangeCopiesCurrent(s: Store, req: Request, l: Locals)
    requires req.ChangeRun? && Seen(s, l) && Bound(req, l) && MoveOf(req, l) == Write && Written(s, req, l).Ok?
    ensures Holds(s.runs, l.run.value.id, l.run.value)
  {
  }

  lemma {:induction false} CompletedRunCopiesCurrent(s: Store, req: Request, l: Locals)
    requires req.CompleteRun? && Seen(s, l) && Bound(req, l) && MoveOf(req, l) == Write && Written(s, req, l).Ok?
    ensures Holds(s.works, l.work.value.id, l.work.value)
    ensures Holds(s.runs, l.run.value.id, l.run.value)
  {
  }

  lemma {:induction false} DeliveredCopiesCurrent(s: Store, req: Request, l: Locals)
    requires req.NewDelivery? && Seen(s, l) && Bound(req, l) && MoveOf(req, l) == Write && Written(s, req, l).Ok?
    ensures Holds(s.runs, l.run.value.id, l.run.value)
  {
  }

  lemma {:induction false} ReviewedCopiesCurrent(s: Store, req: Request, l: Locals)
    requires req.NewReview? && Seen(s, l) && Bound(req, l) && MoveOf(req, l) == Write && Written(s, req, l).Ok?
    ensures Holds(s.works, l.work.value.id, l.work.value)
  {
  }

  lemma {:induction false} ClosedCopiesCurrent(s: Store, req: Request, l: Locals)
    requires req.NewClosure? && Seen(s, l) && Bound(req, l) && MoveOf(req, l) == Write && Written(s, req, l).Ok?
    ensures Holds(s.works, l.work.value.id, l.work.value)
    ensures Holds(s.runs, l.run.value.id, l.run.value)
  {
  }

  /** The copies whose originals may change. */
  ghost predicate VersionedCurrent(s: Store, l: Locals) {
    && (l.work.Some? ==> Holds(s.works, l.work.value.id, l.work.value))
    && (l.run.Some? ==> Holds(s.runs, l.run.value.id, l.run.value))
  }

  lemma {:induction false} WorkingCopiesCurrent(s: Store, req: Request, l: Locals)
    requires !Proves(req)
    requires Seen(s, l) && Bound(req, l) && MoveOf(req, l) == Write && Written(s, req, l).Ok?
    ensures VersionedCurrent(s, l)
  {
    match req
    case NewWork(_, _) =>
    case NewTask(_, _, _) => TaskCopiesCurrent(s, req, l);
    case NewRun(_, _, _, _, _) => RunCopiesCurrent(s, req, l);
    case ChangeRun(_, _, _, _) => ChangeCopiesCurrent(s, req, l);
    case CompleteRun(_, _) => CompletedRunCopiesCurrent(s, req, l);
  }

  lemma {:induction false} ProvingCopiesCurrent(s: Store, req: Request, l: Locals)
    requires Proves(req)
    requires Seen(s, l) && Bound(req, l) && MoveOf(req, l) == Write && Written(s, req, l).Ok?
    ensures VersionedCurrent(s, l)
  {
    match req
    case NewDelivery(_, _, _, _) => DeliveredCopiesCurrent(s, req, l);
    case NewEvidence(_, _) =>
    case NewVerification(_, _, _, _) =>
    case NewReview(_, _, _, _, _, _, _) => ReviewedCopiesCurrent(s, req, l);
    case NewClosure(_, _, _, _) => ClosedCopiesCurrent(s, req, l);
  }

  /** A write that goes through finds every copy current. */
  lemma {:induction false} WritesAreCurrent(s: Store, req: Request, l: Locals)
    requires Seen(s, l) && Bound(req, l) && MoveOf(req, l) == Write && Written(s, req, l).Ok?
    ensures Current(s, l)
  {
    if Proves(req) {
      ProvingCopiesCurrent(s, req, l);
    } else {
      WorkingCopiesCurrent(s, req, l);
    }
  }

  // ---- reading it all again now gives the same copies ----

  lemma {:induction false} RereadTask(s: Store, req: Request, l: Locals)
    requires req.NewTask? && Current(s, l) && Bound(req, l) && MoveOf(req, l) == Write
    ensures Alone(s, req, NothingRead) == Alone(s, req, l)
  {
    OneRead(s, req, NothingRead, l);
  }

  lemma {:induction false} RereadRun(s: Store, req: Request, l: Locals)
    requires req.NewRun? && Current(s, l) && Bound(req, l) && MoveOf(req, l) == Write
    ensures Alone(s, req, NothingRead) == Alone(s, req, l)
  {
    var l1 := NothingRead.(task := l.task);
    OneRead(s, req, NothingRead, l1);
    OneRead(s, req, l1, l);
  }

  lemma {:induction false} RereadChange(s: Store, req: Request, l: Locals)
    requires req.ChangeRun? && Current(s, l) && Bound(req, l) && MoveOf(req, l) == Write
    ensures Alone(s, req, NothingRead) == Alone(s, req, l)
  {
    OneRead(s, req, NothingRead, l);
  }

  lemma {:induction false} RereadCompletion(s: Store, req: Request, l: Locals)
    requires req.CompleteRun? && Current(s, l) && Bound(req, l) && MoveOf(req, l) == Write
    ensures Alone(s, req, NothingRead) == Alone(s, req, l)
  {
    var l1 := NothingRead.(run := l.run);
    var l2 := l1.(task := l.task);
    OneRead(s, req, NothingRead, l1);
    OneRead(s, req, l1, l2);
    OneRead(s, req, l2, l);
  }

  lemma {:induction false} RereadDelivery(s: Store, req: Request, l: Locals)
    requires req.NewDelivery? && Current(s, l) && Bound(req, l) && MoveOf(req, l) == Write
    ensures Alone(s, req, NothingRead) == Alone(s, req, l)
  {
    var l1 := NothingRead.(run := l.run);
    OneRead(s, req, NothingRead, l1);
    OneRead(s, req, l1, l);
  }

  lemma {:induction false} RereadEvidence(s: Store, req: Request, l: Locals)
    requires req.NewEvidence? && Current(s, l) && Bound(req, l) && MoveOf(req, l) == Write
    ensures Alone(s, req, NothingRead) == Alone(s, req, l)
  {
    var l1 := NothingRead.(delivery := l.delivery);
    var l2 := l1.(task := l.task);
    OneRead(s, req, NothingRead, l1);
    OneRead(s, req, l1, l2);
    OneRead(s, req, l2, l);
  }

  lemma {:induction false} RereadItems(s: Store, req: Request, l: Locals, k: nat)
    requires req.NewVerification? && Current(s, l) && Bound(req, l) && MoveOf(req, l) == Write && k <= |l.evidence|
    ensures Alone(s, req, l.(evidence := [])) == Alone(s, req, l.(evidence := l.evidence[..k]))
  {
    if k > 0 {
      RereadItems(s, req, l, k - 1);
      var before, after := l.(evidence := l.evidence[..k - 1]), l.(evidence := l.evidence[..k]);
      assert l.evidence[..k] == l.evidence[..k - 1] + [l.evidence[k - 1]];
      assert Holds(s.evidence, l.evidence[k - 1].id, l.evidence[k - 1]);
      OneRead(s, req, before, after);
    }
  }

  lemma {:induction false} RereadVerification(s: Store, req: Request, l: Locals)
    requires req.NewVerification? && Current(s, l) && Bound(req, l) && MoveOf(req, l) == Write
    ensures Alone(s, req, NothingRead) == Alone(s, req, l)
  {
    var l1 := NothingRead.(delivery := l.delivery);
    var l2 := l1.(task := l.task);
    var l3 := l2.(plan := l.plan);
    OneRead(s, req, NothingRead, l1);
    OneRead(s, req, l1, l2);
    OneRead(s, req, l2, l3);
    assert l3 == l.(evidence := []) && l.evidence[..|l.evidence|] == l.evidence;
    RereadItems(s, req, l, |l.evidence|);
  }

  lemma {:induction false} RereadReview(s: Store, req: Request, l: Locals)
    requires req.NewReview? && Current(s, l) && Bound(req, l) && MoveOf(req, l) == Write
    ensures Alone(s, req, NothingRead) == Alone(s, req, l)
  {
    var l1 := NothingRead.(delivery := l.delivery);
    var l2 := l1.(verification := l.verification);
    OneRead(s, req, NothingRead, l1);
    OneRead(s, req, l1, l2);
    OneRead(s, req, l2, l);
  }

  lemma {:induction false} RereadClosure(s: Store, req: Request, l: Locals)
    requires req.NewClosure? && Current(s, l) && Bound(req, l) && MoveOf(req, l) == Write
    ensures Alone(s, req, NothingRead) == Alone(s, req, l)
  {
    RereadProofs(s, req, l);
    var l3 := NothingRead.(delivery := l.delivery, verification := l.verification, review := l.review);
    var l4 := l3.(run := l.run);
    OneRead(s, req, l3, l4);
    OneRead(s, req, l4, l);
  }

  lemma {:induction false} RereadProofs(s: Store, req: Request, l: Locals)
    requires req.NewClosure? && Current(s, l) && Bound(req, l) && MoveOf(req, l) == Write
    ensures Alone(s, req, NothingRead)
         == Alone(s, req, NothingRead.(delivery := l.delivery, verification := l.verification, review := l.review))
  {
    var l1 := NothingRead.(delivery := l.delivery);
    var l2 := l1.(verification := l.verification);
    OneRead(s, req, NothingRead, l1);
    OneRead(s, req, l1, l2);
    OneRead(s, req, l2, l2.(review := l.review));
  }

  lemma {:induction false} Reread(s: Store, req: Request, l: Locals)
    requires Current(s, l) && Bound(req, l) && MoveOf(req, l) == Write
    ensures Alone(s, req, NothingRead) == Alone(s, req, l)
  {
    match req
    case NewWork(_, _) =>
    case NewTask(_, _, _) => RereadTask(s, req, l);
    case NewRun(_, _, _, _, _) => RereadRun(s, req, l);
    case ChangeRun(_, _, _, _) => RereadChange(s, req, l);
    case CompleteRun(_, _) => RereadCompletion(s, req, l);
    case NewDelivery(_, _, _, _) => RereadDelivery(s, req, l);
    case NewEvidence(_, _) => RereadEvidence(s, req, l);
    case NewVerification(_, _, _, _) => RereadVerification(s, req, l);
    case NewReview(_, _, _, _, _, _, _) => RereadReview(s, req, l);
    case NewClosure(_, _, _, _) => RereadClosure(s, req, l);
  }

  lemma {:induction false} WriteIsAtomic(s: Store, req: Request, l: Locals)
    requires Seen(s, l) && Bound(req, l) && MoveOf(req, l) == Write && Written(s, req, l).Ok?
    ensures Alone(s, req, NothingRead) == Written(s, req, l)
  {
    WritesAreCurrent(s, req, l);
    Reread(s, req, l);
  }

  lemma {:induction false} StepIsAtomic(s: Store, call: Call, weather: Weather)
    requires call.Active? && Seen(s, call.locals) && Bound(call.request, call.locals)
    ensures var s' := StepCall(s, call, weather).store; s' == s || Alone(s, call.request, NothingRead) == Ok(s')
  {
    if MoveOf(call.request, call.locals) == Write && Written(s, call.request, call.locals).Ok? {
      WriteIsAtomic(s, call.request, call.locals);
    }
  }

  /** Over every interleaving: a handler whose step changes the store changes it exactly as if it had run alone,
      from its first read to its write, at that moment. */
  lemma {:induction false} EveryHandlerIsAtomic(events: seq<Event>, i: nat, weather: Weather)
    requires i < |After(events).calls| && After(events).calls[i].Active?
    ensures var sys := After(events);
      var store' := Next(sys, Step(i, weather)).store;
      store' == sys.store || Alone(sys.store, sys.calls[i].request, NothingRead) == Ok(store')
  {
    EveryRunKeeps(events);
    var sys := After(events);
    assert CallOk(sys.store, sys.calls[i]);
    StepIsAtomic(sys.store, sys.calls[i], weather);
  }
}

/** What one call comes to when nothing else runs: the row it leaves, its answer and its provider calls, stated
    with the inputs alone. */
module ActionOutcome {
  import opened Options
  import opened ActionLedger
  import opened ActionRepository
  import opened ActionProtocol
  import opened ActionSolo

  // ---- Execute ----

  /** At the program points before `n` storage answers and nobody cancels or refuses. */
  ghost predicate Undisturbed(around: Surroundings, n: nat) {
    forall k | 0 <= k < n :: Calm(around(k))
  }

  predicate Calm(env: Env) {
    !env.cancelled && env.storage == Answers && env.refusal == None
  }

  /** A row of this request. */
  function RowOf(req: Request, state: State, at: int, externalRef: string, observedState: string): Operation {
    Operation(req.id, req.runID, req.executionEpoch, req.recoveryEpoch, req.action, req.riskClass, req.capability,
              req.idempotencyKey,
              DigestOf(RequestIdentity(req.id, req.runID, req.executionEpoch, req.recoveryEpoch, req.action, req.riskClass,
                                       req.capability, req.parametersDigest, req.requestedBy)),
              state, at, externalRef, observedState)
  }

  /** The ledger with this row under the request's operation ID and key. */
  function With(ledger: Ledger, req: Request, row: Operation): Ledger {
    Ledger(ledger.items[req.id := row], ledger.idempotency[req.idempotencyKey := req.id])
  }

  predicate Fresh(ledger: Ledger, req: Request) {
    req.idempotencyKey != "" && req.idempotencyKey !in ledger.idempotency && req.id !in ledger.items
  }

  /** The row each reply of the provider settles to. */
  ghost predicate Settles(req: Request, reply: DispatchReply, at: int, row: Operation) {
    match reply
    case DispatchReplies(SaysConfirmed, ref, observed) => row == RowOf(req, Confirmed, at, ref, observed)
    case DispatchReplies(SaysUnknown, ref, observed) => row == RowOf(req, Unknown, at, ref, observed)
    case DispatchReplies(SaysOther, _, _) => row == RowOf(req, Unknown, at, "", "INVALID_PROVIDER_DISPATCH_OUTCOME")
    case DispatchFails => row == RowOf(req, Unknown, at, "", "")
  }

  /** The answer each reply leads to once the row is stored. */
  ghost predicate Reports(req: Request, reply: DispatchReply, at: int, outcome: Outcome) {
    match reply
    case DispatchReplies(SaysConfirmed, ref, observed) =>
      outcome == Returned(Receipt("receipt:" + req.id + ":" + "CONFIRMED", req.id, req.id, Confirmed, ref, observed, at))
    case DispatchReplies(SaysUnknown, ref, observed) =>
      outcome == Returned(Receipt("receipt:" + req.id + ":" + "UNKNOWN", req.id, req.id, Unknown, ref, observed, at))
    case DispatchReplies(SaysOther, _, _) => outcome == Failed(ExternalEffectUnresolved)
    case DispatchFails =>
      outcome == Returned(Receipt("receipt:" + req.id + ":" + "UNKNOWN", req.id, req.id, Unknown, "", "", at))
  }

  /** A fresh request, by how far its surroundings let it come. Whatever is lost after the provider was called, the
      answer is that the effect is unresolved, and the provider was called once. */
  ghost predicate ExecutedFresh(before: Ledger, req: Request, around: Surroundings, solo: Solo) {
    var dispatched := RowOf(req, Dispatched, around(2).now, "", "");
    && (Undisturbed(around, 1) && !around(1).cancelled && around(1).refusal.Some? ==>
          solo == Solo(before, Failed(around(1).refusal.value), []))
    && (Undisturbed(around, 2) && !around(2).cancelled && around(2).storage == LosesAnswer ==>
          solo == Solo(With(before, req, RowOf(req, Planned, around(2).now, "", "")), Failed(StorageFailure), []))
    && (Undisturbed(around, 4) && !around(4).cancelled && around(4).storage == LosesAnswer ==>
          solo == Solo(With(before, req, dispatched), Failed(StorageFailure), []))
    && (Undisturbed(around, 5) && around(5).cancelled ==> solo == Solo(With(before, req, dispatched), Failed(Cancelled), []))
    && (Undisturbed(around, 7) && !around(7).cancelled ==>
          && solo.entered == [req.id]
          && (if around(7).storage == LosesWrite then solo.ledger == With(before, req, dispatched)
              else exists row :: Settles(req, around(6).dispatch, around(6).now, row) && solo.ledger == With(before, req, row))
          && (if around(7).storage == Answers then Reports(req, around(6).dispatch, around(7).now, solo.outcome)
              else solo.outcome == Failed(ExternalEffectUnresolved)))
  }

  /** A request whose key is known is answered from its row, and nothing moves. */
  ghost predicate Replayed(before: Ledger, req: Request, around: Surroundings, solo: Solo) {
    Undisturbed(around, 1) && before.Agrees() && req.idempotencyKey in before.idempotency && req.idempotencyKey != "" ==>
      var row := before.items[before.idempotency[req.idempotencyKey]];
      && solo.ledger == before && solo.entered == []
      && solo.outcome ==
           if row.requestDigest != RowOf(req, Planned, 0, "", "").requestDigest then Failed(IdempotencyConflict)
           else if row.state == AbandonedReconciled || row.state == SafeToRetry then Failed(Denied)
           else Returned(ReceiptFromOperation(req.id, row, around(0).now))
  }

  predicate Taken(before: Ledger, req: Request) {
    req.idempotencyKey != "" && req.idempotencyKey !in before.idempotency && req.id in before.items
  }

  /** A new key for an operation ID that is taken is refused, and so is a request without a key. */
  ghost predicate Excluded(before: Ledger, req: Request, around: Surroundings, solo: Solo) {
    && (Undisturbed(around, 4) && Taken(before, req) ==> solo == Solo(before, Failed(OperationExists), []))
    && (req.idempotencyKey == "" ==> solo == Solo(before, Failed(KeyRequired), []))
  }

  /** Until the reservation. */
  lemma {:induction false} FreshIsAdmitted(around: Surroundings, end: Ending, ledger: Ledger, req: Request)
    requires Ends(around, end) && Calm(around(0)) && req.idempotencyKey != "" && req.idempotencyKey !in ledger.idempotency
    ensures end(Moment(ledger, Lookup(req))) ==
      if around(1).cancelled then Solo(ledger, Failed(Cancelled), [])
      else if around(1).refusal.Some? then Solo(ledger, Failed(around(1).refusal.value), [])
      else end(Moment(ledger, Reserve(req)))
  {
    SilentStep(around, end, ledger, Lookup(req), StepResult(ledger, Admit(req), Silent));
    SilentStep(around, end, ledger, Admit(req), StepAdmit(ledger, req, around(1)));
  }

  lemma {:induction false} FreshIsReserved(around: Surroundings, end: Ending, ledger: Ledger, req: Request,
                                           planned: Operation)
    requires Ends(around, end) && Fresh(ledger, req) && planned == RowOf(req, Planned, around(2).now, "", "")
    requires !around(2).cancelled && around(2).storage != LosesWrite
    ensures end(Moment(ledger, Reserve(req))) ==
      if around(2).storage == LosesAnswer then Solo(With(ledger, req, planned), Failed(StorageFailure), [])
      else end(Moment(With(ledger, req, planned), MarkDispatched(req, planned)))
  {
    SilentStep(around, end, ledger, Reserve(req), StepReserve(ledger, req, around(2)));
  }

  lemma {:induction false} PlannedIsMarked(around: Surroundings, end: Ending, ledger: Ledger, req: Request,
                                           planned: Operation,
                                           dispatched: Operation)
    requires Ends(around, end) && planned == RowOf(req, Planned, around(2).now, "", "")
    requires dispatched == RowOf(req, Dispatched, around(2).now, "", "")
    requires !around(4).cancelled && around(4).storage != LosesWrite
    ensures end(Moment(With(ledger, req, planned), MarkDispatched(req, planned))) ==
      if around(4).storage == LosesAnswer then Solo(With(ledger, req, dispatched), Failed(StorageFailure), [])
      else end(Moment(With(ledger, req, dispatched), Invoke(req, dispatched)))
  {
    var before := With(ledger, req, planned);
    assert before.Replace(dispatched) == With(ledger, req, dispatched);
    SilentStep(around, end, before, MarkDispatched(req, planned), StepMarkDispatched(before, req, planned, around(4)));
  }

  /** A settlement write: stored or not, acknowledged or not. */
  lemma {:induction false} SettlementLands(around: Surroundings, end: Ending, ledger: Ledger, req: Request,
                                           dispatched: Operation,
                                           row: Operation, invalid: bool)
    requires Ends(around, end) && !around(7).cancelled
    requires dispatched == RowOf(req, Dispatched, around(2).now, "", "")
    requires row == RowOf(req, row.state, row.updatedAt, row.externalRef, row.observedState)
    requires row.state == Confirmed || row.state == Unknown
    ensures end(Moment(With(ledger, req, dispatched), SettleDispatch(req, row, invalid))) ==
      Solo(With(ledger, req, if around(7).storage == LosesWrite then dispatched else row),
           if around(7).storage != Answers || invalid then Failed(ExternalEffectUnresolved)
           else Returned(ReceiptFromOperation(req.id, row, around(7).now)), [])
  {
    var before := With(ledger, req, dispatched);
    assert before.Replace(row) == With(ledger, req, row);
    SilentStep(around, end, before, SettleDispatch(req, row, invalid), StepSettleDispatch(before, req, row, invalid, around(7)));
  }

  lemma {:induction false} ReplySettles(around: Surroundings, end: Ending, ledger: Ledger, req: Request,
                                        dispatched: Operation)
    returns (row: Operation, invalid: bool)
    requires Ends(around, end) && dispatched == RowOf(req, Dispatched, around(2).now, "", "")
    ensures Settles(req, around(6).dispatch, around(6).now, row)
    ensures row == RowOf(req, row.state, row.updatedAt, row.externalRef, row.observedState)
    ensures row.state == Confirmed || row.state == Unknown
    ensures invalid <==> around(6).dispatch.DispatchReplies? && around(6).dispatch.verdict == SaysOther
    ensures end(Moment(ledger, AwaitDispatch(req, dispatched))) == end(Moment(ledger, SettleDispatch(req, row, invalid)))
  {
    var at := around(6).now;
    match around(6).dispatch {
      case DispatchReplies(SaysConfirmed, ref, observed) => row, invalid := RowOf(req, Confirmed, at, ref, observed), false;
      case DispatchReplies(SaysUnknown, ref, observed) => row, invalid := RowOf(req, Unknown, at, ref, observed), false;
      case DispatchReplies(SaysOther, _, _) =>
        row, invalid := RowOf(req, Unknown, at, "", "INVALID_PROVIDER_DISPATCH_OUTCOME"), true;
      case DispatchFails => row, invalid := RowOf(req, Unknown, at, "", ""), false;
    }
    SilentStep(around, end, ledger, AwaitDispatch(req, dispatched), StepAwaitDispatch(ledger, req, dispatched, around(6)));
  }

  /** From the provider on. */
  lemma {:induction false} DispatchedIsSettled(around: Surroundings, end: Ending, ledger: Ledger, req: Request,
                                               dispatched: Operation)
    requires Ends(around, end) && Calm(around(5)) && Calm(around(6)) && !around(7).cancelled
    requires dispatched == RowOf(req, Dispatched, around(2).now, "", "")
    ensures var solo := end(Moment(With(ledger, req, dispatched), Invoke(req, dispatched)));
      && solo.entered == [req.id]
      && (if around(7).storage == LosesWrite then solo.ledger == With(ledger, req, dispatched)
          else exists row :: Settles(req, around(6).dispatch, around(6).now, row) && solo.ledger == With(ledger, req, row))
      && (if around(7).storage == Answers then Reports(req, around(6).dispatch, around(7).now, solo.outcome)
          else solo.outcome == Failed(ExternalEffectUnresolved))
  {
    var before := With(ledger, req, dispatched);
    OneStep(around, end, before, Invoke(req, dispatched));
    var row, invalid := ReplySettles(around, end, before, req, dispatched);
    SettlementLands(around, end, ledger, req, dispatched, row, invalid);
  }

  lemma {:induction false} FreshExecution(around: Surroundings, end: Ending, ledger: Ledger, req: Request)
    requires Ends(around, end) && Fresh(ledger, req)
    ensures ExecutedFresh(ledger, req, around, end(Moment(ledger, Lookup(req))))
  {
    var planned, dispatched := RowOf(req, Planned, around(2).now, "", ""), RowOf(req, Dispatched, around(2).now, "", "");
    if Undisturbed(around, 1) {
      assert Calm(around(0));
      FreshIsAdmitted(around, end, ledger, req);
    }
    if Undisturbed(around, 2) && !around(2).cancelled && around(2).storage != LosesWrite {
      assert Calm(around(1));
      FreshIsReserved(around, end, ledger, req, planned);
    }
    if Undisturbed(around, 4) && !around(4).cancelled && around(4).storage != LosesWrite {
      assert Calm(around(2));
      PlannedIsMarked(around, end, ledger, req, planned, dispatched);
    }
    if Undisturbed(around, 5) {
      assert Calm(around(4));
      OneStep(around, end, With(ledger, req, dispatched), Invoke(req, dispatched));
    }
    if Undisturbed(around, 7) && !around(7).cancelled {
      assert Calm(around(5)) && Calm(around(6));
      DispatchedIsSettled(around, end, ledger, req, dispatched);
    }
  }

  lemma {:induction false} KnownIsReplayed(around: Surroundings, end: Ending, ledger: Ledger, req: Request)
    requires Ends(around, end)
    ensures Replayed(ledger, req, around, end(Moment(ledger, Lookup(req))))
  {
    if Undisturbed(around, 1) {
      assert Calm(around(0));
      SilentStep(around, end, ledger, Lookup(req), StepLookup(ledger, req, around(0)));
    }
  }

  lemma {:induction false} TakenIsExcluded(around: Surroundings, end: Ending, ledger: Ledger, req: Request)
    requires Ends(around, end)
    ensures Excluded(ledger, req, around, end(Moment(ledger, Lookup(req))))
  {
    if req.idempotencyKey == "" {
      SilentStep(around, end, ledger, Lookup(req), StepLookup(ledger, req, around(0)));
    } else if Undisturbed(around, 4) && Taken(ledger, req) {
      assert Calm(around(0)) && Calm(around(1)) && Calm(around(2)) && Calm(around(3));
      FreshIsAdmitted(around, end, ledger, req);
      SilentStep(around, end, ledger, Reserve(req), StepResult(ledger, Relookup(req), Silent));
      SilentStep(around, end, ledger, Relookup(req), StepRelookup(ledger, req, around(3)));
    }
  }

  /** Everything said above about one Execute. */
  ghost predicate Executed(before: Ledger, req: Request, around: Surroundings, solo: Solo) {
    && (Fresh(before, req) ==> ExecutedFresh(before, req, around, solo))
    && Replayed(before, req, around, solo) && Excluded(before, req, around, solo)
  }

  lemma {:induction false} Execution(around: Surroundings, end: Ending, ledger: Ledger, req: Request)
    requires Ends(around, end)
    ensures Executed(ledger, req, around, end(Moment(ledger, Lookup(req))))
  {
    if Fresh(ledger, req) { FreshExecution(around, end, ledger, req); }
    KnownIsReplayed(around, end, ledger, req);
    TakenIsExcluded(around, end, ledger, req);
  }

  // ---- Reconcile ----

  /** The row each observation settles to: only an OBSERVE row is confirmed, and an answer that is not trusted leaves
      nothing of itself but the reason. */
  ghost predicate Reconciles(was: Operation, reply: ReconcileReply, at: int, row: Operation) {
    match reply
    case ReconcileFails => row == was.(state := Manual, updatedAt := at)
    case ReconcileReplies(FindsConfirmed, ref, observed) =>
      if was.riskClass == Observe
      then row == was.(state := Confirmed, updatedAt := at, externalRef := ref, observedState := observed)
      else row == was.(state := Manual, updatedAt := at, externalRef := "", observedState := "UNQUALIFIED_CONFIRMATION_VERDICT")
    case ReconcileReplies(FindsSafeToRetry, _, _) =>
      row == was.(state := Manual, updatedAt := at, externalRef := "", observedState := "UNQUALIFIED_RETRY_VERDICT")
    case ReconcileReplies(FindsManual, ref, observed) =>
      row == was.(state := Manual, updatedAt := at, externalRef := ref, observedState := observed)
    case ReconcileReplies(FindsOther, _, _) =>
      row == was.(state := Manual, updatedAt := at, externalRef := "", observedState := "INVALID_PROVIDER_RECONCILE_OUTCOME")
  }

  /** Whether the call reports the settled row, or that the effect is still unresolved. */
  predicate Trusted(was: Operation, reply: ReconcileReply) {
    match reply
    case ReconcileFails => true
    case ReconcileReplies(verdict, _, _) => verdict == FindsManual || (verdict == FindsConfirmed && was.riskClass == Observe)
  }

  function ReceiptOfSettled(row: Operation, at: int): Receipt {
    Receipt("receipt:" + row.id + ":" + (if row.state == Confirmed then "CONFIRMED" else "MANUAL"), row.id, row.id, row.state,
            row.externalRef, row.observedState, at)
  }

  ghost predicate ReconciledUnknown(before: Ledger, id: string, around: Surroundings, solo: Solo)
    requires id in before.items
  {
    var was := before.items[id];
    var reconciling := was.(state := Reconciling, updatedAt := around(4).now);
    && (Calm(around(3)) && !around(4).cancelled && around(4).storage == LosesAnswer ==>
          solo == Solo(before.(items := before.items[id := reconciling]), Failed(StorageFailure), []))
    && (Calm(around(3)) && Calm(around(4)) && around(5).cancelled ==>
          solo == Solo(before.(items := before.items[id := reconciling]), Failed(Cancelled), []))
    && (Calm(around(3)) && Calm(around(4)) && Calm(around(5)) && !around(7).cancelled ==>
          exists row :: Reconciles(was, around(6).observation, around(6).now, row) &&
            solo == Solo(before.(items := before.items[id := if around(7).storage == LosesWrite then reconciling else row]),
                         if around(7).storage == Answers && Trusted(was, around(6).observation)
                         then Returned(ReceiptOfSettled(row, around(7).now)) else Failed(ExternalEffectUnresolved), [id]))
  }

  ghost predicate Reconciled(before: Ledger, id: string, around: Surroundings, solo: Solo) {
    && (Calm(around(3)) && id !in before.items ==> solo == Solo(before, Failed(OperationAbsent), []))
    && (Calm(around(3)) && id in before.items && before.items[id].state != Unknown ==> solo == Solo(before, Failed(NotUnknown), []))
    && (before.Agrees() && id in before.items && before.items[id].state == Unknown ==> ReconciledUnknown(before, id, around, solo))
  }

  lemma {:induction false} UnknownIsMarked(around: Surroundings, end: Ending, ledger: Ledger, id: string,
                                           was: Operation,
                                           reconciling: Operation)
    requires Ends(around, end) && id in ledger.items && ledger.items[id] == was && was.id == id && was.state == Unknown
    requires reconciling == was.(state := Reconciling, updatedAt := around(4).now)
    requires !around(4).cancelled && around(4).storage != LosesWrite
    ensures end(Moment(ledger, MarkReconciling(was))) ==
      if around(4).storage == LosesAnswer then Solo(ledger.(items := ledger.items[id := reconciling]), Failed(StorageFailure), [])
      else end(Moment(ledger.(items := ledger.items[id := reconciling]), InvokeReconcile(reconciling)))
  {
    SilentStep(around, end, ledger, MarkReconciling(was), StepMarkReconciling(ledger, was, around(4)));
  }

  lemma {:induction false} ObservationSettles(around: Surroundings, end: Ending, ledger: Ledger, was: Operation,
                                              reconciling: Operation) returns (row: Operation)
    requires Ends(around, end) && was.state == Unknown
    requires reconciling == was.(state := Reconciling, updatedAt := around(4).now)
    ensures Reconciles(was, around(6).observation, around(6).now, row)
    ensures end(Moment(ledger, AwaitReconcile(reconciling)))
         == end(Moment(ledger, SettleReconcile(row, !Trusted(was, around(6).observation))))
  {
    var at := around(6).now;
    match around(6).observation {
      case ReconcileFails => row := was.(state := Manual, updatedAt := at);
      case ReconcileReplies(FindsConfirmed, ref, observed) =>
        row := if was.riskClass == Observe
          then was.(state := Confirmed, updatedAt := at, externalRef := ref, observedState := observed)
          else was.(state := Manual, updatedAt := at, externalRef := "", observedState := "UNQUALIFIED_CONFIRMATION_VERDICT");
      case ReconcileReplies(FindsSafeToRetry, _, _) =>
        row := was.(state := Manual, updatedAt := at, externalRef := "", observedState := "UNQUALIFIED_RETRY_VERDICT");
      case ReconcileReplies(FindsManual, ref, observed) =>
        row := was.(state := Manual, updatedAt := at, externalRef := ref, observedState := observed);
      case ReconcileReplies(FindsOther, _, _) =>
        row := was.(state := Manual, updatedAt := at, externalRef := "", observedState := "INVALID_PROVIDER_RECONCILE_OUTCOME");
    }
    SilentStep(around, end, ledger, AwaitReconcile(reconciling), StepAwaitReconcile(ledger, reconciling, around(6)));
  }

  lemma {:induction false} ReconciliationLands(around: Surroundings, end: Ending, ledger: Ledger, was: Operation,
                                               reconciling: Operation, row: Operation, invalid: bool)
    requires Ends(around, end) && !around(7).cancelled && was.state == Unknown
    requires reconciling == was.(state := Reconciling, updatedAt := around(4).now)
    requires was.id in ledger.items && ledger.items[was.id] == reconciling
    requires row == was.(state := row.state, updatedAt := row.updatedAt, externalRef := row.externalRef,
                         observedState := row.observedState)
    requires row.state == Manual || (row.state == Confirmed && row.riskClass == Observe)
    ensures end(Moment(ledger, SettleReconcile(row, invalid))) ==
      Solo(ledger.(items := ledger.items[was.id := if around(7).storage == LosesWrite then reconciling else row]),
           if around(7).storage != Answers || invalid then Failed(ExternalEffectUnresolved)
           else Returned(ReceiptOfSettled(row, around(7).now)), [])
  {
    assert ledger.items[was.id := reconciling] == ledger.items;
    SilentStep(around, end, ledger, SettleReconcile(row, invalid), StepSettleReconcile(ledger, row, invalid, around(7)));
  }

  lemma {:induction false} ReconcilingIsSettled(around: Surroundings, end: Ending, ledger: Ledger, was: Operation,
                                                reconciling: Operation) returns (row: Operation)
    requires Ends(around, end) && Calm(around(5)) && !around(7).cancelled && was.state == Unknown
    requires reconciling == was.(state := Reconciling, updatedAt := around(4).now)
    requires was.id in ledger.items && ledger.items[was.id] == reconciling
    ensures Reconciles(was, around(6).observation, around(6).now, row)
    ensures end(Moment(ledger, InvokeReconcile(reconciling))) ==
      Solo(ledger.(items := ledger.items[was.id := if around(7).storage == LosesWrite then reconciling else row]),
           if around(7).storage == Answers && Trusted(was, around(6).observation)
           then Returned(ReceiptOfSettled(row, around(7).now)) else Failed(ExternalEffectUnresolved), [was.id])
  {
    OneStep(around, end, ledger, InvokeReconcile(reconciling));
    row := ObservationSettles(around, end, ledger, was, reconciling);
    ReconciliationLands(around, end, ledger, was, reconciling, row, !Trusted(was, around(6).observation));
  }

  lemma {:induction false} UnknownSettles(around: Surroundings, end: Ending, before: Ledger, was: Operation,
                                          reconciling: Operation, marked: Ledger) returns (row: Operation)
    requires Ends(around, end) && Calm(around(5)) && !around(7).cancelled && was.state == Unknown
    requires reconciling == was.(state := Reconciling, updatedAt := around(4).now)
    requires marked == before.(items := before.items[was.id := reconciling])
    ensures Reconciles(was, around(6).observation, around(6).now, row)
    ensures end(Moment(marked, InvokeReconcile(reconciling))) ==
      Solo(before.(items := before.items[was.id := if around(7).storage == LosesWrite then reconciling else row]),
           if around(7).storage == Answers && Trusted(was, around(6).observation)
           then Returned(ReceiptOfSettled(row, around(7).now)) else Failed(ExternalEffectUnresolved), [was.id])
  {
    row := ReconcilingIsSettled(around, end, marked, was, reconciling);
    assert marked.items[was.id := row] == before.items[was.id := row];
    assert marked.items[was.id := reconciling] == before.items[was.id := reconciling];
  }

  lemma {:induction false} UnknownIsRead(around: Surroundings, end: Ending, ledger: Ledger, id: string)
    requires Ends(around, end) && id in ledger.items && ledger.items[id].state == Unknown && Calm(around(3))
    ensures end(Moment(ledger, ReadRow(id))) == end(Moment(ledger, MarkReconciling(ledger.items[id])))
  {
    SilentStep(around, end, ledger, ReadRow(id), StepReadRow(ledger, id, around(3)));
  }

  lemma {:induction false} ObservationCancelled(around: Surroundings, end: Ending, ledger: Ledger,
                                                reconciling: Operation)
    requires Ends(around, end) && around(5).cancelled
    ensures end(Moment(ledger, InvokeReconcile(reconciling))) == Solo(ledger, Failed(Cancelled), [])
  {
    OneStep(around, end, ledger, InvokeReconcile(reconciling));
  }

  lemma {:induction false} UnknownReconciliation(around: Surroundings, end: Ending, ledger: Ledger, id: string)
    requires Ends(around, end) && id in ledger.items && ledger.items[id].id == id && ledger.items[id].state == Unknown
    ensures ReconciledUnknown(ledger, id, around, end(Moment(ledger, ReadRow(id))))
  {
    var was := ledger.items[id];
    var reconciling := was.(state := Reconciling, updatedAt := around(4).now);
    var marked := ledger.(items := ledger.items[id := reconciling]);
    if Calm(around(3)) && !around(4).cancelled && around(4).storage != LosesWrite {
      UnknownIsRead(around, end, ledger, id);
      UnknownIsMarked(around, end, ledger, id, was, reconciling);
      if around(5).cancelled {
        ObservationCancelled(around, end, marked, reconciling);
      } else if Calm(around(5)) && !around(7).cancelled {
        var row := UnknownSettles(around, end, ledger, was, reconciling, marked);
      }
    }
  }

  lemma {:induction false} Reconciliation(around: Surroundings, end: Ending, ledger: Ledger, id: string)
    requires Ends(around, end)
    ensures Reconciled(ledger, id, around, end(Moment(ledger, ReadRow(id))))
  {
    if Calm(around(3)) { SilentStep(around, end, ledger, ReadRow(id), StepReadRow(ledger, id, around(3))); }
    if ledger.Agrees() && id in ledger.items && ledger.items[id].state == Unknown { UnknownReconciliation(around, end, ledger, id); }
  }
}

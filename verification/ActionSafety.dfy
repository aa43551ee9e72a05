/** What every interleaving keeps. The invariant is pointwise: one condition per row, per call and per
    provider entry, tied together by the `owner` and `observer` history. */
module ActionSafety {
  import opened Options
  import opened ActionLedger
  import opened ActionRepository
  import opened ActionProtocol

  ghost predicate FromRequest(op: Operation, req: Request) {
    op.id == req.id && op.idempotencyKey == req.idempotencyKey && op.requestDigest == RequestDigest(req)
  }

  /** The call's local copy is the reservation of the stored row, and the row is in state `s`. */
  ghost predicate Tracks(ledger: Ledger, op: Operation, s: State) {
    op.id in ledger.items && ledger.items[op.id].SameReservation(op) && ledger.items[op.id].state == s
  }

  ghost predicate Owns(log: Log, i: nat, id: string) {
    id in log.owner && log.owner[id] == i
  }

  ghost predicate Observes(log: Log, i: nat, id: string) {
    id in log.observer && log.observer[id] == i
  }

  /** The row repeats a CONFIRMED reply of the original dispatch. */
  ghost predicate ConfirmedByDispatch(log: Log, op: Operation) {
    op.id in log.replies && log.replies[op.id] == DispatchReplies(SaysConfirmed, op.externalRef, op.observedState)
  }

  /** The receipt reports exactly what `op` said. */
  ghost predicate Attests(op: Operation, receipt: Receipt) {
    receipt == ReceiptFromOperation(receipt.requestID, op, receipt.createdAt)
  }

  ghost predicate Genuine(log: Log, receipt: Receipt) {
    exists op :: op in log.held && Attests(op, receipt)
  }

  ghost predicate RowOk(ledger: Ledger, log: Log, id: string)
    requires id in ledger.items
  {
    var row := ledger.items[id];
    && row in log.held
    && id in log.updates && log.updates[id] <= Rank(row.state)
    && row.state != SafeToRetry
    && (row.state == AbandonedReconciled <==> id in log.abandoned)
    && (row.state == Confirmed && row.riskClass != Observe ==> ConfirmedByDispatch(log, row))
  }

  ghost predicate CallOk(ledger: Ledger, log: Log, i: nat, call: Call) {
    match call
    case MarkDispatched(req, op) =>
      && FromRequest(op, req) && Owns(log, i, op.id) && op.state == Planned
      && (Tracks(ledger, op, Planned) || Tracks(ledger, op, AbandonedReconciled))
    case Invoke(req, op) =>
      FromRequest(op, req) && Owns(log, i, op.id) && op.state == Dispatched && Tracks(ledger, op, Dispatched)
    case AwaitDispatch(req, op) =>
      FromRequest(op, req) && Owns(log, i, op.id) && op.state == Dispatched && Tracks(ledger, op, Dispatched)
    case SettleDispatch(req, op, _) =>
      && FromRequest(op, req) && Owns(log, i, op.id) && Tracks(ledger, op, Dispatched)
      && (op.state == Unknown || (op.state == Confirmed && ConfirmedByDispatch(log, op)))
    case ExecuteDone(req, Returned(receipt)) =>
      && Genuine(log, receipt)
      && receipt.operationID in ledger.items
      && ledger.items[receipt.operationID].idempotencyKey == req.idempotencyKey
      && ledger.items[receipt.operationID].requestDigest == RequestDigest(req)
    case MarkReconciling(op) =>
      op.state == Unknown && op.id in ledger.items && ledger.items[op.id].SameReservation(op)
    case InvokeReconcile(op) =>
      Observes(log, i, op.id) && op.state == Reconciling && Tracks(ledger, op, Reconciling)
    case AwaitReconcile(op) =>
      Observes(log, i, op.id) && op.state == Reconciling && Tracks(ledger, op, Reconciling)
    case SettleReconcile(op, _) =>
      && Observes(log, i, op.id) && Tracks(ledger, op, Reconciling)
      && (op.state == Manual || (op.state == Confirmed && op.riskClass == Observe))
    case ReconcileDone(id, Returned(receipt)) => Genuine(log, receipt) && receipt.operationID == id
    case _ => true
  }

  ghost predicate PastDispatch(call: Call) {
    call.AwaitDispatch? || call.SettleDispatch? || call.ExecuteDone?
  }

  ghost predicate PastReconcile(call: Call) {
    call.AwaitReconcile? || call.SettleReconcile? || call.ReconcileDone?
  }

  ghost predicate DispatchOk(ledger: Ledger, log: Log, calls: seq<Call>, e: Entry) {
    && e.id in ledger.items && ledger.items[e.id].idempotencyKey == e.key
    && Rank(ledger.items[e.id].state) >= 1 && ledger.items[e.id].state != AbandonedReconciled
    && Owns(log, e.call, e.id) && e.call < |calls| && PastDispatch(calls[e.call])
  }

  ghost predicate ObservationOk(ledger: Ledger, log: Log, calls: seq<Call>, e: Entry) {
    && e.id in ledger.items && Rank(ledger.items[e.id].state) >= 3
    && ledger.items[e.id].idempotencyKey == e.key
    && Observes(log, e.call, e.id) && e.call < |calls| && PastReconcile(calls[e.call])
  }

  ghost predicate Distinct(entries: seq<Entry>) {
    forall j, k | 0 <= j < k < |entries| :: entries[j].id != entries[k].id
  }

  ghost predicate RowsOk(ledger: Ledger, log: Log) {
    && ledger.Agrees() && log.abandoned <= ledger.items.Keys
    && forall id | id in ledger.items :: RowOk(ledger, log, id)
  }

  ghost predicate CallsOk(ledger: Ledger, log: Log, calls: seq<Call>) {
    forall i | 0 <= i < |calls| :: CallOk(ledger, log, i, calls[i])
  }

  ghost predicate DispatchesOk(s: System) {
    && Distinct(s.log.dispatches)
    && forall j | 0 <= j < |s.log.dispatches| :: DispatchOk(s.ledger, s.log, s.calls, s.log.dispatches[j])
  }

  ghost predicate ObservationsOk(s: System) {
    && Distinct(s.log.observations)
    && forall j | 0 <= j < |s.log.observations| :: ObservationOk(s.ledger, s.log, s.calls, s.log.observations[j])
  }

  ghost predicate Inv(s: System) {
    RowsOk(s.ledger, s.log) && CallsOk(s.ledger, s.log, s.calls) && DispatchesOk(s) && ObservationsOk(s)
  }

  /** Call `i` may replace this row: whoever owns an undispatched or unsettled row, or observes it. */
  ghost predicate MayMove(ledger: Ledger, log: Log, i: nat, op: Operation)
    requires op.id in ledger.items
  {
    var s := ledger.items[op.id].state;
    && (s == Planned || s == Dispatched ==> Owns(log, i, op.id))
    && (s == Reconciling ==> Observes(log, i, op.id))
  }

  /** What one step of a call may do to the ledger and the provider, independent of which step it was. */
  ghost predicate Affects(ledger: Ledger, log: Log, i: nat, call: Call, r: StepResult) {
    && (PastDispatch(call) ==> PastDispatch(r.call))
    && (PastReconcile(call) ==> PastReconcile(r.call))
    && match r.note
       case Silent => r.ledger == ledger
       case Created(op, _) =>
         r.ledger == ledger.Insert(op) && ledger.CreateError(op).None? && op.state == Planned
       case Updated(op, _) =>
         && r.ledger == ledger.Replace(op) && ledger.UpdateError(op).None? && MayMove(ledger, log, i, op)
         && (op.state == Confirmed && op.riskClass != Observe ==> ConfirmedByDispatch(log, op))
       case EnteredDispatch(id, key) =>
         && r.ledger == ledger && Owns(log, i, id) && !PastDispatch(call) && PastDispatch(r.call)
         && id in ledger.items && ledger.items[id].state == Dispatched && ledger.items[id].idempotencyKey == key
       case Replied(id, _) =>
         r.ledger == ledger && Owns(log, i, id) && id in ledger.items && ledger.items[id].state == Dispatched
       case EnteredReconcile(id, key) =>
         && r.ledger == ledger && Observes(log, i, id) && !PastReconcile(call) && PastReconcile(r.call)
         && id in ledger.items && ledger.items[id].state == Reconciling && ledger.items[id].idempotencyKey == key
  }

  /** What one step may do, and where it leaves the call itself. */
  ghost predicate Moved(ledger: Ledger, log: Log, i: nat, call: Call, r: StepResult) {
    CallOk(r.ledger, Record(log, i, r.note), i, r.call) && Affects(ledger, log, i, call, r)
  }

  lemma {:induction false} ReplayIsGenuine(ledger: Ledger, log: Log, req: Request, now: int)
    requires RowsOk(ledger, log) && ledger.ReadByKey(req.idempotencyKey).Ok?
    requires ledger.ReadByKey(req.idempotencyKey).value.requestDigest == RequestDigest(req)
    ensures CallOk(ledger, log, 0, ExecuteDone(req, Replay(req, ledger.ReadByKey(req.idempotencyKey).value, now)))
  {
    var row := ledger.ReadByKey(req.idempotencyKey).value;
    assert RowOk(ledger, log, row.id);
    assert Attests(row, ReceiptFromOperation(req.id, row, now));
  }

  lemma {:induction false} LookupMoves(ledger: Ledger, log: Log, i: nat, req: Request, env: Env)
    requires RowsOk(ledger, log)
    ensures Moved(ledger, log, i, Lookup(req), StepLookup(ledger, req, env))
  {
    var found := ledger.ReadByKey(req.idempotencyKey);
    if found.Ok? && found.value.requestDigest == RequestDigest(req) {
      ReplayIsGenuine(ledger, log, req, env.now);
    }
  }

  lemma {:induction false} RelookupMoves(ledger: Ledger, log: Log, i: nat, req: Request, env: Env)
    requires RowsOk(ledger, log)
    ensures Moved(ledger, log, i, Relookup(req), StepRelookup(ledger, req, env))
  {
    var found := ledger.ReadByKey(req.idempotencyKey);
    if found.Ok? && found.value.requestDigest == RequestDigest(req) {
      ReplayIsGenuine(ledger, log, req, env.now);
    }
  }

  lemma {:induction false} ReserveMoves(ledger: Ledger, log: Log, i: nat, req: Request, env: Env)
    ensures Moved(ledger, log, i, Reserve(req), StepReserve(ledger, req, env))
  {
  }

  lemma {:induction false} MarkDispatchedMoves(ledger: Ledger, log: Log, i: nat, req: Request, op: Operation, env: Env)
    requires CallOk(ledger, log, i, MarkDispatched(req, op))
    ensures Moved(ledger, log, i, MarkDispatched(req, op), StepMarkDispatched(ledger, req, op, env))
  {
  }

  lemma {:induction false} AwaitDispatchMoves(ledger: Ledger, log: Log, i: nat, req: Request, op: Operation, env: Env)
    requires CallOk(ledger, log, i, AwaitDispatch(req, op))
    ensures Moved(ledger, log, i, AwaitDispatch(req, op), StepAwaitDispatch(ledger, req, op, env))
  {
  }

  lemma {:induction false} SettleDispatchMoves(ledger: Ledger, log: Log, i: nat, req: Request, op: Operation,
                                               invalid: bool, env: Env)
    requires CallOk(ledger, log, i, SettleDispatch(req, op, invalid))
    ensures Moved(ledger, log, i, SettleDispatch(req, op, invalid), StepSettleDispatch(ledger, req, op, invalid, env))
  {
    assert Attests(op, ReceiptFromOperation(req.id, op, env.now));
  }

  lemma {:induction false} MarkReconcilingMoves(ledger: Ledger, log: Log, i: nat, op: Operation, env: Env)
    requires CallOk(ledger, log, i, MarkReconciling(op))
    ensures Moved(ledger, log, i, MarkReconciling(op), StepMarkReconciling(ledger, op, env))
  {
  }

  lemma {:induction false} AwaitReconcileMoves(ledger: Ledger, log: Log, i: nat, op: Operation, env: Env)
    requires CallOk(ledger, log, i, AwaitReconcile(op))
    ensures Moved(ledger, log, i, AwaitReconcile(op), StepAwaitReconcile(ledger, op, env))
  {
  }

  lemma {:induction false} SettleReconcileMoves(ledger: Ledger, log: Log, i: nat, op: Operation, invalid: bool,
                                                env: Env)
    requires CallOk(ledger, log, i, SettleReconcile(op, invalid))
    ensures Moved(ledger, log, i, SettleReconcile(op, invalid), StepSettleReconcile(ledger, op, invalid, env))
  {
    assert Attests(op, ReceiptFromOperation("", op, env.now));
  }

  lemma {:induction false} AdmitMoves(ledger: Ledger, log: Log, i: nat, req: Request, env: Env)
    ensures Moved(ledger, log, i, Admit(req), StepAdmit(ledger, req, env))
  {
  }

  lemma {:induction false} InvokeMoves(ledger: Ledger, log: Log, i: nat, req: Request, op: Operation, env: Env)
    requires CallOk(ledger, log, i, Invoke(req, op))
    ensures Moved(ledger, log, i, Invoke(req, op), StepInvoke(ledger, req, op, env))
  {
  }

  lemma {:induction false} ReadRowMoves(ledger: Ledger, log: Log, i: nat, id: string, env: Env)
    requires ledger.Agrees()
    ensures Moved(ledger, log, i, ReadRow(id), StepReadRow(ledger, id, env))
  {
  }

  lemma {:induction false} InvokeReconcileMoves(ledger: Ledger, log: Log, i: nat, op: Operation, env: Env)
    requires CallOk(ledger, log, i, InvokeReconcile(op))
    ensures Moved(ledger, log, i, InvokeReconcile(op), StepInvokeReconcile(ledger, op, env))
  {
  }

  predicate Planning(call: Call) {
    call.Lookup? || call.Admit? || call.Reserve? || call.Relookup?
  }

  predicate Dispatching(call: Call) {
    call.MarkDispatched? || call.Invoke?
  }

  predicate Settling(call: Call) {
    call.AwaitDispatch? || call.SettleDispatch?
  }

  lemma {:induction false} PlanningMoves(ledger: Ledger, log: Log, i: nat, call: Call, env: Env, r: StepResult)
    requires RowsOk(ledger, log) && CallOk(ledger, log, i, call) && Planning(call) && r == StepCall(ledger, call, env)
    ensures Moved(ledger, log, i, call, r)
  {
    match call
    case Lookup(req) => LookupMoves(ledger, log, i, req, env);
    case Admit(req) => AdmitMoves(ledger, log, i, req, env);
    case Reserve(req) => ReserveMoves(ledger, log, i, req, env);
    case Relookup(req) => RelookupMoves(ledger, log, i, req, env);
  }

  lemma {:induction false} DispatchingMoves(ledger: Ledger, log: Log, i: nat, call: Call, env: Env, r: StepResult)
    requires RowsOk(ledger, log) && CallOk(ledger, log, i, call) && Dispatching(call) && r == StepCall(ledger, call, env)
    ensures Moved(ledger, log, i, call, r)
  {
    match call
    case MarkDispatched(req, op) => MarkDispatchedMoves(ledger, log, i, req, op, env);
    case Invoke(req, op) => InvokeMoves(ledger, log, i, req, op, env);
  }

  lemma {:induction false} SettlingMoves(ledger: Ledger, log: Log, i: nat, call: Call, env: Env, r: StepResult)
    requires RowsOk(ledger, log) && CallOk(ledger, log, i, call) && Settling(call) && r == StepCall(ledger, call, env)
    ensures Moved(ledger, log, i, call, r)
  {
    match call
    case AwaitDispatch(req, op) => AwaitDispatchMoves(ledger, log, i, req, op, env);
    case SettleDispatch(req, op, invalid) => SettleDispatchMoves(ledger, log, i, req, op, invalid, env);
  }

  lemma {:induction false} ReconcileMoves(ledger: Ledger, log: Log, i: nat, call: Call, env: Env, r: StepResult)
    requires RowsOk(ledger, log) && CallOk(ledger, log, i, call) && r == StepCall(ledger, call, env)
    requires !Planning(call) && !Dispatching(call) && !Settling(call)
    ensures Moved(ledger, log, i, call, r)
  {
    match call
    case ExecuteDone(_, _) =>
    case ReadRow(id) => ReadRowMoves(ledger, log, i, id, env);
    case MarkReconciling(op) => MarkReconcilingMoves(ledger, log, i, op, env);
    case InvokeReconcile(op) => InvokeReconcileMoves(ledger, log, i, op, env);
    case AwaitReconcile(op) => AwaitReconcileMoves(ledger, log, i, op, env);
    case SettleReconcile(op, invalid) => SettleReconcileMoves(ledger, log, i, op, invalid, env);
    case ReconcileDone(_, _) =>
  }

  lemma {:induction false} EveryStepMoves(ledger: Ledger, log: Log, i: nat, call: Call, env: Env)
    requires RowsOk(ledger, log) && CallOk(ledger, log, i, call)
    ensures Moved(ledger, log, i, call, StepCall(ledger, call, env))
  {
    if Planning(call) {
      PlanningMoves(ledger, log, i, call, env, StepCall(ledger, call, env));
    } else if Dispatching(call) {
      DispatchingMoves(ledger, log, i, call, env, StepCall(ledger, call, env));
    } else if Settling(call) {
      SettlingMoves(ledger, log, i, call, env, StepCall(ledger, call, env));
    } else {
      ReconcileMoves(ledger, log, i, call, env, StepCall(ledger, call, env));
    }
  }

  lemma {:induction false} RowsSurviveCreate(ledger: Ledger, log: Log, i: nat, op: Operation, acknowledged: bool)
    requires RowsOk(ledger, log) && ledger.CreateError(op).None? && op.state == Planned
    ensures RowsOk(ledger.Insert(op), Record(log, i, Created(op, acknowledged)))
  {
    InsertKeepsAgreement(ledger, op);
  }

  lemma {:induction false} RowsSurviveUpdate(ledger: Ledger, log: Log, i: nat, op: Operation, acknowledged: bool)
    requires RowsOk(ledger, log) && ledger.UpdateError(op).None?
    requires op.state == Confirmed && op.riskClass != Observe ==> ConfirmedByDispatch(log, op)
    ensures RowsOk(ledger.Replace(op), Record(log, i, Updated(op, acknowledged)))
  {
    UpdateClimbs(ledger, op);
    var log' := Record(log, i, Updated(op, acknowledged));
    forall id | id in ledger.Replace(op).items
      ensures RowOk(ledger.Replace(op), log', id)
    {
      assert RowOk(ledger, log, id);
    }
  }

  lemma {:induction false} RowsSurviveReply(ledger: Ledger, log: Log, i: nat, id: string, reply: DispatchReply)
    requires RowsOk(ledger, log) && id in ledger.items && ledger.items[id].state == Dispatched
    ensures RowsOk(ledger, Record(log, i, Replied(id, reply)))
  {
    forall k | k in ledger.items
      ensures RowOk(ledger, Record(log, i, Replied(id, reply)), k)
    {
      assert RowOk(ledger, log, k);
    }
  }

  lemma {:induction false} RowsKeep(ledger: Ledger, log: Log, i: nat, call: Call, r: StepResult)
    requires RowsOk(ledger, log) && Affects(ledger, log, i, call, r)
    ensures RowsOk(r.ledger, Record(log, i, r.note))
  {
    match r.note
    case Silent =>
    case Created(op, acknowledged) => RowsSurviveCreate(ledger, log, i, op, acknowledged);
    case Updated(op, acknowledged) => RowsSurviveUpdate(ledger, log, i, op, acknowledged);
    case EnteredDispatch(_, _) => RowsFrame(ledger, log, Record(log, i, r.note));
    case Replied(id, reply) => RowsSurviveReply(ledger, log, i, id, reply);
    case EnteredReconcile(_, _) => RowsFrame(ledger, log, Record(log, i, r.note));
  }

  /** Rows do not depend on the provider entries. */
  lemma {:induction false} RowsFrame(ledger: Ledger, log: Log, log': Log)
    requires RowsOk(ledger, log)
    requires log' == log.(dispatches := log'.dispatches, observations := log'.observations)
    ensures RowsOk(ledger, log')
  {
    forall k | k in ledger.items
      ensures RowOk(ledger, log', k)
    {
      assert RowOk(ledger, log, k);
    }
  }

  // ---- what a step does to everybody else ----

  /** One row, seen by call `j`: what the call owns or observes there stays as the call left it. */
  ghost predicate RowUndisturbed(row: Operation, row': Operation, log: Log, log': Log, j: nat) {
    && row'.id == row.id && row'.SameReservation(row)
    && (row.state == AbandonedReconciled ==> row'.state == AbandonedReconciled)
    && (Owns(log, j, row.id) ==>
          && Owns(log', j, row.id)
          && (row.state == Planned ==> row'.state == Planned || row'.state == AbandonedReconciled)
          && (row.state == Dispatched ==> row'.state == Dispatched)
          && (row.id in log.replies ==> row.id in log'.replies && log'.replies[row.id] == log.replies[row.id]))
    && (Observes(log, j, row.id) && row.state == Reconciling ==> Observes(log', j, row.id) && row'.state == Reconciling)
  }

  ghost predicate Undisturbed(ledger: Ledger, log: Log, ledger': Ledger, log': Log, j: nat) {
    && log.held <= log'.held
    && forall id | id in ledger.items ::
         ledger.items[id].id == id && id in ledger'.items && RowUndisturbed(ledger.items[id], ledger'.items[id], log, log', j)
  }

  lemma {:induction false} ExecuteStays(ledger: Ledger, log: Log, ledger': Ledger, log': Log, j: nat, call: Call)
    requires CallOk(ledger, log, j, call) && Undisturbed(ledger, log, ledger', log', j)
    requires Dispatching(call) || Settling(call)
    ensures CallOk(ledger', log', j, call)
  {
    assert RowUndisturbed(ledger.items[call.op.id], ledger'.items[call.op.id], log, log', j);
  }

  lemma {:induction false} ReconcileStays(ledger: Ledger, log: Log, ledger': Ledger, log': Log, j: nat, call: Call)
    requires CallOk(ledger, log, j, call) && Undisturbed(ledger, log, ledger', log', j)
    requires call.MarkReconciling? || call.InvokeReconcile? || call.AwaitReconcile? || call.SettleReconcile?
    ensures CallOk(ledger', log', j, call)
  {
    assert RowUndisturbed(ledger.items[call.op.id], ledger'.items[call.op.id], log, log', j);
  }

  lemma {:induction false} AnswerStays(ledger: Ledger, log: Log, ledger': Ledger, log': Log, j: nat, call: Call)
    requires CallOk(ledger, log, j, call) && Undisturbed(ledger, log, ledger', log', j)
    requires (call.ExecuteDone? || call.ReconcileDone?) && call.outcome.Returned?
    ensures CallOk(ledger', log', j, call)
  {
    var op :| op in log.held && Attests(op, call.outcome.receipt);
    assert op in log'.held;
    if call.ExecuteDone? {
      var id := call.outcome.receipt.operationID;
      assert RowUndisturbed(ledger.items[id], ledger'.items[id], log, log', j);
    }
  }

  lemma {:induction false} CallStays(ledger: Ledger, log: Log, ledger': Ledger, log': Log, j: nat, call: Call)
    requires CallOk(ledger, log, j, call) && Undisturbed(ledger, log, ledger', log', j)
    ensures CallOk(ledger', log', j, call)
  {
    if Dispatching(call) || Settling(call) {
      ExecuteStays(ledger, log, ledger', log', j, call);
    } else if call.MarkReconciling? || call.InvokeReconcile? || call.AwaitReconcile? || call.SettleReconcile? {
      ReconcileStays(ledger, log, ledger', log', j, call);
    } else if (call.ExecuteDone? || call.ReconcileDone?) && call.outcome.Returned? {
      AnswerStays(ledger, log, ledger', log', j, call);
    }
  }

  lemma {:induction false} UpdatedRowUndisturbed(ledger: Ledger, log: Log, i: nat, op: Operation, acknowledged: bool,
                                                 j: nat, log': Log)
    requires ledger.Agrees() && ledger.UpdateError(op).None? && MayMove(ledger, log, i, op) && i != j
    requires log' == Record(log, i, Updated(op, acknowledged))
    ensures RowUndisturbed(ledger.items[op.id], op, log, log', j)
  {
    UpdateClimbs(ledger, op);
  }

  lemma {:induction false} UpdateUndisturbs(ledger: Ledger, log: Log, i: nat, op: Operation, acknowledged: bool,
                                            j: nat, log': Log)
    requires ledger.Agrees() && ledger.UpdateError(op).None? && MayMove(ledger, log, i, op) && i != j
    requires log' == Record(log, i, Updated(op, acknowledged))
    ensures Undisturbed(ledger, log, ledger.Replace(op), log', j)
  {
    UpdatedRowUndisturbed(ledger, log, i, op, acknowledged, j, log');
    forall id | id in ledger.items && id != op.id ensures RowUndisturbed(ledger.items[id], ledger.items[id], log, log', j) {}
  }

  lemma {:induction false} CreateUndisturbs(ledger: Ledger, log: Log, i: nat, op: Operation, acknowledged: bool,
                                            j: nat, log': Log)
    requires ledger.Agrees() && ledger.CreateError(op).None? && i != j
    requires log' == Record(log, i, Created(op, acknowledged))
    ensures Undisturbed(ledger, log, ledger.Insert(op), log', j)
  {
  }

  lemma {:induction false} ReplyUndisturbs(ledger: Ledger, log: Log, i: nat, id: string, reply: DispatchReply, j: nat,
                                           log': Log)
    requires ledger.Agrees() && Owns(log, i, id) && i != j
    requires log' == log.(replies := log.replies[id := reply])
    ensures Undisturbed(ledger, log, ledger, log', j)
  {
  }

  /** Provider entries are nobody's reservation. */
  lemma {:induction false} EntryUndisturbs(ledger: Ledger, log: Log, j: nat, log': Log)
    requires ledger.Agrees() && log' == log.(dispatches := log'.dispatches, observations := log'.observations)
    ensures Undisturbed(ledger, log, ledger, log', j)
  {
  }

  /** A step of call `i` leaves what every other call holds alone. */
  lemma {:induction false} OthersUndisturbed(ledger: Ledger, log: Log, i: nat, call: Call, r: StepResult, j: nat,
                                             log': Log)
    requires ledger.Agrees() && Affects(ledger, log, i, call, r) && i != j && log' == Record(log, i, r.note)
    ensures Undisturbed(ledger, log, r.ledger, log', j)
  {
    match r.note
    case Silent => EntryUndisturbs(ledger, log, j, log');
    case Created(op, acknowledged) => CreateUndisturbs(ledger, log, i, op, acknowledged, j, log');
    case Updated(op, acknowledged) => UpdateUndisturbs(ledger, log, i, op, acknowledged, j, log');
    case EnteredDispatch(_, _) => EntryUndisturbs(ledger, log, j, log');
    case Replied(id, reply) => ReplyUndisturbs(ledger, log, i, id, reply, j, log');
    case EnteredReconcile(_, _) => EntryUndisturbs(ledger, log, j, log');
  }

  lemma {:induction false} OtherCallKeeps(ledger: Ledger, log: Log, i: nat, call: Call, r: StepResult, j: nat,
                                          other: Call, log': Log)
    requires ledger.Agrees() && Affects(ledger, log, i, call, r) && i != j && log' == Record(log, i, r.note)
    requires CallOk(ledger, log, j, other)
    ensures CallOk(r.ledger, log', j, other)
  {
    OthersUndisturbed(ledger, log, i, call, r, j, log');
    CallStays(ledger, log, r.ledger, log', j, other);
  }

  ghost predicate RowLater(row: Operation, row': Operation) {
    && row'.idempotencyKey == row.idempotencyKey && Rank(row.state) <= Rank(row'.state)
    && (Rank(row.state) >= 1 && row.state != AbandonedReconciled ==> row'.state != AbandonedReconciled)
  }

  lemma {:induction false} AffectedRowLater(ledger: Ledger, log: Log, i: nat, call: Call, r: StepResult, id: string)
    requires ledger.Agrees() && Affects(ledger, log, i, call, r) && id in ledger.items
    ensures id in r.ledger.items && RowLater(ledger.items[id], r.ledger.items[id])
  {
    if r.note.Updated? { UpdateClimbs(ledger, r.note.row); }
  }

  lemma {:induction false} OwnerStays(ledger: Ledger, log: Log, i: nat, call: Call, r: StepResult, log': Log, k: nat,
                                      id: string)
    requires Affects(ledger, log, i, call, r) && log' == Record(log, i, r.note) && id in ledger.items && Owns(log, k, id)
    ensures Owns(log', k, id)
  {
  }

  lemma {:induction false} ObserverStays(ledger: Ledger, log: Log, i: nat, call: Call, r: StepResult, log': Log,
                                         k: nat, id: string)
    requires ledger.Agrees() && Affects(ledger, log, i, call, r) && log' == Record(log, i, r.note)
    requires id in ledger.items && Rank(ledger.items[id].state) >= 3 && Observes(log, k, id)
    ensures Observes(log', k, id)
  {
    if r.note.Updated? { UpdateClimbs(ledger, r.note.row); }
  }

  /** An earlier provider entry stays accounted for. */
  lemma {:induction false} DispatchEntryKeeps(ledger: Ledger, log: Log, calls: seq<Call>, i: nat, r: StepResult,
                                              e: Entry, log': Log)
    requires ledger.Agrees() && i < |calls| && Affects(ledger, log, i, calls[i], r) && log' == Record(log, i, r.note)
    requires DispatchOk(ledger, log, calls, e)
    ensures DispatchOk(r.ledger, log', calls[i := r.call], e)
  {
    AffectedRowLater(ledger, log, i, calls[i], r, e.id);
    OwnerStays(ledger, log, i, calls[i], r, log', e.call, e.id);
  }

  lemma {:induction false} ObservationEntryKeeps(ledger: Ledger, log: Log, calls: seq<Call>, i: nat, r: StepResult,
                                                 e: Entry, log': Log)
    requires ledger.Agrees() && i < |calls| && Affects(ledger, log, i, calls[i], r) && log' == Record(log, i, r.note)
    requires ObservationOk(ledger, log, calls, e)
    ensures ObservationOk(r.ledger, log', calls[i := r.call], e)
  {
    AffectedRowLater(ledger, log, i, calls[i], r, e.id);
    ObserverStays(ledger, log, i, calls[i], r, log', e.call, e.id);
  }

  lemma {:induction false} CallsKeep(s: System, i: nat, r: StepResult, log': Log)
    requires Inv(s) && i < |s.calls| && Moved(s.ledger, s.log, i, s.calls[i], r) && log' == Record(s.log, i, r.note)
    ensures CallsOk(r.ledger, log', s.calls[i := r.call])
  {
    var calls' := s.calls[i := r.call];
    forall j | 0 <= j < |calls'| ensures CallOk(r.ledger, log', j, calls'[j]) {
      if j != i { OtherCallKeeps(s.ledger, s.log, i, s.calls[i], r, j, s.calls[j], log'); }
    }
  }

  /** The provider is entered only by the owner, and the owner had not been there before. */
  lemma {:induction false} NewDispatchOk(ledger: Ledger, log: Log, calls: seq<Call>, i: nat, r: StepResult, log': Log)
    requires i < |calls| && Affects(ledger, log, i, calls[i], r) && log' == Record(log, i, r.note) && r.note.EnteredDispatch?
    ensures DispatchOk(r.ledger, log', calls[i := r.call], Entry(i, r.note.id, r.note.key))
    ensures forall e | DispatchOk(ledger, log, calls, e) :: e.id != r.note.id
  {
  }

  lemma {:induction false} DispatchesKeep(s: System, i: nat, r: StepResult, s': System)
    requires s.ledger.Agrees() && DispatchesOk(s) && i < |s.calls| && Affects(s.ledger, s.log, i, s.calls[i], r)
    requires s' == System(r.ledger, s.calls[i := r.call], Record(s.log, i, r.note))
    ensures DispatchesOk(s')
  {
    var d, d' := s.log.dispatches, s'.log.dispatches;
    forall j | 0 <= j < |d| ensures DispatchOk(s'.ledger, s'.log, s'.calls, d[j]) {
      DispatchEntryKeeps(s.ledger, s.log, s.calls, i, r, d[j], s'.log);
    }
    if r.note.EnteredDispatch? {
      NewDispatchOk(s.ledger, s.log, s.calls, i, r, s'.log);
      assert d' == d + [Entry(i, r.note.id, r.note.key)];
      assert forall j | 0 <= j < |d| :: d'[j] == d[j] && d[j].id != r.note.id;
    } else {
      assert d' == d;
    }
  }

  lemma {:induction false} NewObservationOk(ledger: Ledger, log: Log, calls: seq<Call>, i: nat, r: StepResult,
                                            log': Log)
    requires i < |calls| && Affects(ledger, log, i, calls[i], r) && log' == Record(log, i, r.note) && r.note.EnteredReconcile?
    ensures ObservationOk(r.ledger, log', calls[i := r.call], Entry(i, r.note.id, r.note.key))
    ensures forall e | ObservationOk(ledger, log, calls, e) :: e.id != r.note.id
  {
  }

  lemma {:induction false} ObservationsKeep(s: System, i: nat, r: StepResult, s': System)
    requires s.ledger.Agrees() && ObservationsOk(s) && i < |s.calls| && Affects(s.ledger, s.log, i, s.calls[i], r)
    requires s' == System(r.ledger, s.calls[i := r.call], Record(s.log, i, r.note))
    ensures ObservationsOk(s')
  {
    var d, d' := s.log.observations, s'.log.observations;
    forall j | 0 <= j < |d| ensures ObservationOk(s'.ledger, s'.log, s'.calls, d[j]) {
      ObservationEntryKeeps(s.ledger, s.log, s.calls, i, r, d[j], s'.log);
    }
    if r.note.EnteredReconcile? {
      NewObservationOk(s.ledger, s.log, s.calls, i, r, s'.log);
      assert d' == d + [Entry(i, r.note.id, r.note.key)];
      assert forall j | 0 <= j < |d| :: d'[j] == d[j] && d[j].id != r.note.id;
    } else {
      assert d' == d;
    }
  }

  lemma {:induction false} MovedKeeps(s: System, i: nat, r: StepResult, s': System)
    requires Inv(s) && i < |s.calls| && Moved(s.ledger, s.log, i, s.calls[i], r)
    requires s' == System(r.ledger, s.calls[i := r.call], Record(s.log, i, r.note))
    ensures Inv(s')
  {
    RowsKeep(s.ledger, s.log, i, s.calls[i], r);
    CallsKeep(s, i, r, s'.log);
    DispatchesKeep(s, i, r, s');
    ObservationsKeep(s, i, r, s');
  }

  lemma {:induction false} StepKeeps(s: System, i: nat, env: Env)
    requires Inv(s) && i < |s.calls|
    ensures Inv(Next(s, Advance(i, env)))
  {
    assert CallOk(s.ledger, s.log, i, s.calls[i]);
    EveryStepMoves(s.ledger, s.log, i, s.calls[i], env);
    MovedKeeps(s, i, StepCall(s.ledger, s.calls[i], env), Next(s, Advance(i, env)));
  }

  /** A new call holds nothing yet. */
  lemma {:induction false} StartKeeps(s: System, call: Call)
    requires Inv(s) && (call.Lookup? || call.ReadRow?)
    ensures Inv(s.(calls := s.calls + [call]))
  {
    var s' := s.(calls := s.calls + [call]);
    forall j | 0 <= j < |s.log.dispatches|
      ensures DispatchOk(s'.ledger, s'.log, s'.calls, s'.log.dispatches[j])
    {
      assert DispatchOk(s.ledger, s.log, s.calls, s.log.dispatches[j]);
    }
    forall j | 0 <= j < |s.log.observations|
      ensures ObservationOk(s'.ledger, s'.log, s'.calls, s'.log.observations[j])
    {
      assert ObservationOk(s.ledger, s.log, s.calls, s.log.observations[j]);
    }
  }

  lemma {:induction false} AbandonUndisturbs(ledger: Ledger, log: Log, log': Log, row: Operation, j: nat)
    requires ledger.Agrees() && row.id in ledger.items && ledger.items[row.id].state == Planned
    requires row == ledger.items[row.id].(state := AbandonedReconciled, updatedAt := row.updatedAt)
    requires log' == log.(abandoned := log'.abandoned, held := log'.held) && log.held <= log'.held
    ensures Undisturbed(ledger, log, ledger.Replace(row), log', j)
  {
  }

  lemma {:induction false} AbandonKeeps(s: System, id: string, now: int)
    requires Inv(s)
    ensures Inv(Next(s, Abandon(id, now)))
  {
    var s' := Next(s, Abandon(id, now));
    if s' != s {
      var row := s.ledger.items[id].(state := AbandonedReconciled, updatedAt := now);
      forall k | k in s'.ledger.items
        ensures RowOk(s'.ledger, s'.log, k)
      {
        assert RowOk(s.ledger, s.log, k);
      }
      forall j | 0 <= j < |s.calls|
        ensures CallOk(s'.ledger, s'.log, j, s'.calls[j])
      {
        AbandonUndisturbs(s.ledger, s.log, s'.log, row, j);
        CallStays(s.ledger, s.log, s'.ledger, s'.log, j, s.calls[j]);
      }
      forall j | 0 <= j < |s.log.dispatches|
        ensures DispatchOk(s'.ledger, s'.log, s'.calls, s'.log.dispatches[j])
      {
        assert DispatchOk(s.ledger, s.log, s.calls, s.log.dispatches[j]);
      }
      forall j | 0 <= j < |s.log.observations|
        ensures ObservationOk(s'.ledger, s'.log, s'.calls, s'.log.observations[j])
      {
        assert ObservationOk(s.ledger, s.log, s.calls, s.log.observations[j]);
      }
    }
  }

  lemma {:induction false} EveryRunKeeps(events: seq<Event>)
    ensures Inv(Run(events))
  {
    if events != [] {
      var s, e := Run(events[..|events| - 1]), events[|events| - 1];
      EveryRunKeeps(events[..|events| - 1]);
      match e
      case StartExecute(req) => StartKeeps(s, Lookup(req));
      case StartReconcile(id) => StartKeeps(s, ReadRow(id));
      case Advance(i, env) => if i < |s.calls| { StepKeeps(s, i, env); }
      case Abandon(id, now) => AbandonKeeps(s, id, now);
    }
  }

  /** Over every schedule of calls, cancellations, crashes and lost or ambiguous writes: the provider is
      asked for an effect at most once per operation and at most once per idempotency key. */
  lemma {:induction false} AtMostOneDispatch(events: seq<Event>, j: nat, k: nat)
    requires j < k < |Run(events).log.dispatches|
    ensures var d := Run(events).log.dispatches;
            d[j].id != d[k].id && d[j].key != d[k].key
  {
    var s := Run(events);
    EveryRunKeeps(events);
    assert DispatchOk(s.ledger, s.log, s.calls, s.log.dispatches[j]);
    assert DispatchOk(s.ledger, s.log, s.calls, s.log.dispatches[k]);
  }

  /** Concurrent Reconcile calls observe one operation at most once. */
  lemma {:induction false} AtMostOneReconcile(events: seq<Event>, j: nat, k: nat)
    requires j < k < |Run(events).log.observations|
    ensures Run(events).log.observations[j].id != Run(events).log.observations[k].id
  {
    EveryRunKeeps(events);
  }

  /** A row the ledger shows as PLANNED or abandoned has never reached the provider, in any run. */
  lemma {:induction false} UndispatchedRowsNeverReachedTheProvider(events: seq<Event>, id: string, j: nat)
    requires id in Run(events).ledger.items && j < |Run(events).log.dispatches|
    requires Run(events).ledger.items[id].state == Planned || Run(events).ledger.items[id].state == AbandonedReconciled
    ensures Run(events).log.dispatches[j].id != id
  {
    var s := Run(events);
    EveryRunKeeps(events);
    assert DispatchOk(s.ledger, s.log, s.calls, s.log.dispatches[j]);
  }

  /** A confirmed effect was confirmed by the original dispatch, never by a reconciliation verdict. */
  lemma {:induction false} ConfirmationIsOriginal(events: seq<Event>, id: string)
    requires id in Run(events).ledger.items
    requires Run(events).ledger.items[id].state == Confirmed && Run(events).ledger.items[id].riskClass != Observe
    ensures ConfirmedByDispatch(Run(events).log, Run(events).ledger.items[id])
  {
    EveryRunKeeps(events);
    assert RowOk(Run(events).ledger, Run(events).log, id);
  }

  /** A row is updated at most four times, and the service itself never stores either Recovery-only state. */
  lemma {:induction false} RowsAreUpdatedAtMostFourTimes(events: seq<Event>, id: string)
    requires id in Run(events).ledger.items
    ensures id in Run(events).log.updates && Run(events).log.updates[id] <= 4
    ensures Run(events).ledger.items[id].state != SafeToRetry
    ensures Run(events).ledger.items[id].state == AbandonedReconciled <==> id in Run(events).log.abandoned
  {
    EveryRunKeeps(events);
    assert RowOk(Run(events).ledger, Run(events).log, id);
  }

  lemma {:induction false} AbandonmentIsNeverUndone(s: System, e: Event)
    ensures s.log.abandoned <= Next(s, e).log.abandoned
  {
    if e.Advance? && e.i < |s.calls| {
      var note := StepCall(s.ledger, s.calls[e.i], e.env).note;
      assert Record(s.log, e.i, note).abandoned == s.log.abandoned;
    }
  }

  lemma {:induction false} AbandonedStaysAbandoned(events: seq<Event>, more: seq<Event>, id: string)
    requires id in Run(events).log.abandoned
    ensures id in Run(events + more).log.abandoned
  {
    if more == [] {
      assert events + more == events;
    } else {
      var all := events + more;
      AbandonedStaysAbandoned(events, more[..|more| - 1], id);
      assert all[..|all| - 1] == events + more[..|more| - 1];
      AbandonmentIsNeverUndone(Run(all[..|all| - 1]), all[|all| - 1]);
    }
  }

  /** Once Recovery abandoned a reservation, no continuation of the run ever dispatches it. */
  lemma {:induction false} AbandonedIsNeverDispatched(events: seq<Event>, more: seq<Event>, id: string, j: nat)
    requires id in Run(events).ledger.items && Run(events).ledger.items[id].state == AbandonedReconciled
    requires j < |Run(events + more).log.dispatches|
    ensures Run(events + more).log.dispatches[j].id != id
  {
    var s := Run(events + more);
    EveryRunKeeps(events);
    EveryRunKeeps(events + more);
    assert RowOk(Run(events).ledger, Run(events).log, id);
    AbandonedStaysAbandoned(events, more, id);
    assert RowOk(s.ledger, s.log, id);
    UndispatchedRowsNeverReachedTheProvider(events + more, id, j);
  }

  /** The ledger held `op` after the first `n` events. */
  ghost predicate HeldAfter(events: seq<Event>, n: nat, op: Operation) {
    n <= |events| && op.id in Run(events[..n]).ledger.items && Run(events[..n]).ledger.items[op.id] == op
  }

  lemma {:induction false} NewlyHeldWasWritten(ledger: Ledger, log: Log, i: nat, call: Call, r: StepResult,
                                               op: Operation)
    requires Affects(ledger, log, i, call, r) && op in Record(log, i, r.note).held && op !in log.held
    ensures op.id in r.ledger.items && r.ledger.items[op.id] == op
  {
    assert r.note.Created? || r.note.Updated?;
  }

  lemma {:induction false} NewlyHeldIsStored(s: System, i: nat, env: Env, op: Operation)
    requires Inv(s) && i < |s.calls|
    requires op in Next(s, Advance(i, env)).log.held && op !in s.log.held
    ensures var items := Next(s, Advance(i, env)).ledger.items;
            op.id in items && items[op.id] == op
  {
    assert CallOk(s.ledger, s.log, i, s.calls[i]);
    EveryStepMoves(s.ledger, s.log, i, s.calls[i], env);
    NewlyHeldWasWritten(s.ledger, s.log, i, s.calls[i], StepCall(s.ledger, s.calls[i], env), op);
  }

  lemma {:induction false} HeldRowsWereStored(events: seq<Event>, op: Operation)
    requires op in Run(events).log.held
    ensures exists n: nat :: HeldAfter(events, n, op)
  {
    var before := events[..|events| - 1];
    if op in Run(before).log.held {
      HeldRowsWereStored(before, op);
      var n: nat :| HeldAfter(before, n, op);
      assert before[..n] == events[..n];
      assert HeldAfter(events, n, op);
    } else {
      EveryRunKeeps(before);
      var e := events[|events| - 1];
      if e.Advance? { NewlyHeldIsStored(Run(before), e.i, e.env, op); }
      assert events[..|events|] == events;
      assert HeldAfter(events, |events|, op);
    }
  }

  ghost predicate Answered(s: System, i: nat, req: Request, receipt: Receipt) {
    i < |s.calls| && s.calls[i] == ExecuteDone(req, Returned(receipt))
  }

  /** Every receipt, of Execute or of Reconcile, reports a row the ledger really held at some moment. */
  lemma {:induction false} ReceiptsReportHeldRows(events: seq<Event>, i: nat, receipt: Receipt)
    requires i < |Run(events).calls|
    requires
      var call := Run(events).calls[i];
      (call.ExecuteDone? || call.ReconcileDone?) && call.outcome == Returned(receipt)
    ensures exists n: nat, op :: HeldAfter(events, n, op) && Attests(op, receipt)
  {
    var s := Run(events);
    EveryRunKeeps(events);
    assert CallOk(s.ledger, s.log, i, s.calls[i]);
    var op :| op in s.log.held && Attests(op, receipt);
    HeldRowsWereStored(events, op);
  }

  /** Two receipts for one idempotency key name one operation and answer the same request. */
  lemma {:induction false} OneOperationPerKey(events: seq<Event>, i: nat, j: nat, req: Request, req': Request,
                                              a: Receipt, b: Receipt)
    requires Answered(Run(events), i, req, a) && Answered(Run(events), j, req', b)
    requires req.idempotencyKey == req'.idempotencyKey
    ensures a.operationID == b.operationID
    ensures req' == req.(requestedAt := req'.requestedAt)
  {
    var s := Run(events);
    EveryRunKeeps(events);
    assert CallOk(s.ledger, s.log, i, s.calls[i]);
    assert CallOk(s.ledger, s.log, j, s.calls[j]);
  }
}

/** The service's two entry points as straight-line code over the in-memory repository, proved to take
    exactly the steps of the interleaved protocol when nothing else runs. */
module ActionService {
  import opened Options
  import opened ActionLedger
  import opened ActionRepository
  import opened ActionProtocol
  import opened ActionSolo
  import opened ActionOutcome

  /** The external provider: it records who called and answers what the environment chose. */
  class Provider {
    var entered: seq<string>

    constructor ()
      ensures entered == []
    {
      entered := [];
    }

    method Dispatch(id: string, reply: DispatchReply) returns (r: DispatchReply)
      modifies this
      ensures entered == old(entered) + [id] && r == reply
    {
      entered := entered + [id];
      r := reply;
    }

    method Reconcile(id: string, reply: ReconcileReply) returns (r: ReconcileReply)
      modifies this
      ensures entered == old(entered) + [id] && r == reply
    {
      entered := entered + [id];
      r := reply;
    }
  }

  class Service {
    const repository: MemoryRepository
    const provider: Provider

    constructor (repository: MemoryRepository, provider: Provider)
      ensures this.repository == repository && this.provider == provider
    {
      this.repository, this.provider := repository, provider;
    }

    // The storage between the service and its repository may lose a request, or the answer to it.

    method CreateOperation(op: Operation, env: Env) returns (err: Option<Error>)
      modifies repository
      ensures err == WriteError(old(repository.Content()).CreateError(op), env)
      ensures repository.Content() == if Lands(old(repository.Content()).CreateError(op), env)
        then old(repository.Content()).Insert(op) else old(repository.Content())
      ensures old(repository.Content()).Agrees() ==> repository.Content().Agrees()
    {
      if env.storage == LosesWrite { return Some(if env.cancelled then Cancelled else StorageFailure); }
      err := repository.CreateContext(env.cancelled, op);
      if env.storage == LosesAnswer && !env.cancelled { err := Some(StorageFailure); }
    }

    method UpdateOperation(op: Operation, env: Env) returns (err: Option<Error>)
      modifies repository
      ensures var w := UpdateRow(old(repository.Content()), op, env); repository.Content() == w.ledger && err == w.error
      ensures old(repository.Content()).Agrees() ==> repository.Content().Agrees()
    {
      if env.storage == LosesWrite { return Some(if env.cancelled then Cancelled else StorageFailure); }
      err := repository.UpdateContext(env.cancelled, op);
      if env.storage == LosesAnswer && !env.cancelled { err := Some(StorageFailure); }
    }

    method GetByKey(key: string, env: Env) returns (r: Answer<Operation>)
      ensures r == if ReadError(env).Some? then Err(ReadError(env).value) else repository.Content().ReadByKey(key)
    {
      if env.storage != Answers { return Err(if env.cancelled then Cancelled else StorageFailure); }
      r := repository.GetByIdempotencyKeyContext(env.cancelled, key);
    }

    method GetOperation(id: string, env: Env) returns (r: Answer<Operation>)
      ensures r == if ReadError(env).Some? then Err(ReadError(env).value) else repository.Content().Read(id)
    {
      if env.storage != Answers { return Err(if env.cancelled then Cancelled else StorageFailure); }
      r := repository.GetContext(env.cancelled, id);
    }

    method Execute(req: Request, around: Surroundings) returns (outcome: Outcome)
      modifies repository, provider
      ensures var solo := Alone(old(repository.Content()), Lookup(req), around);
              && repository.Content() == solo.ledger && outcome == solo.outcome
              && provider.entered == old(provider.entered) + solo.entered
              && Executed(old(repository.Content()), req, around, solo)
    {
      ghost var end: Ending := (m: Moment) => Alone(m.ledger, m.call, around);
      assert end(Moment(repository.Content(), Lookup(req))) == Alone(repository.Content(), Lookup(req), around);
      Execution(around, end, repository.Content(), req);
      outcome := LookUpFirst(req, around, end);
    }

    /** A known key is answered from its row; only an absent one goes on. */
    method LookUpFirst(req: Request, around: Surroundings, ghost end: Ending) returns (outcome: Outcome)
      requires Ends(around, end)
      modifies repository, provider
      ensures var solo := end(Moment(old(repository.Content()), Lookup(req)));
              && repository.Content() == solo.ledger && outcome == solo.outcome
              && provider.entered == old(provider.entered) + solo.entered
    {
      OneStep(around, end, repository.Content(), Lookup(req));
      if req.idempotencyKey == "" { return Failed(KeyRequired); }
      var digest := RequestDigest(req);
      var existing := GetByKey(req.idempotencyKey, around(0));
      if existing.Ok? {
        if existing.value.requestDigest != digest { return Failed(IdempotencyConflict); }
        if existing.value.state == AbandonedReconciled { return Failed(Denied); }
        if existing.value.state == SafeToRetry { return Failed(Denied); }
        return Returned(ReceiptFromOperation(req.id, existing.value, around(0).now));
      } else if existing.error != OperationAbsent {
        return Failed(existing.error);
      }
      OneStep(around, end, repository.Content(), Admit(req));
      if around(1).cancelled { return Failed(Cancelled); }
      if around(1).refusal.Some? { return Failed(around(1).refusal.value); }
      outcome := ReserveAndPerform(req, around, end);
    }

    /** Create-if-absent; a lost race is answered from the winner's row. */
    method ReserveAndPerform(req: Request, around: Surroundings, ghost end: Ending) returns (outcome: Outcome)
      requires Ends(around, end)
      modifies repository, provider
      ensures var solo := end(Moment(old(repository.Content()), Reserve(req)));
              && repository.Content() == solo.ledger && outcome == solo.outcome
              && provider.entered == old(provider.entered) + solo.entered
    {
      var digest := RequestDigest(req);
      SilentStep(around, end, repository.Content(), Reserve(req), StepReserve(repository.Content(), req, around(2)));
      var op := NewWithRequestDigest(req, digest, around(2).now);
      var err := CreateOperation(op, around(2));
      if err.Some? {
        if err.value == OperationExists {
          outcome := AnswerFromWinner(req, around, end);
          return;
        }
        return Failed(err.value);
      }
      outcome := Perform(req, op, around, end);
    }

    method AnswerFromWinner(req: Request, around: Surroundings, ghost end: Ending) returns (outcome: Outcome)
      requires Ends(around, end)
      ensures Solo(repository.Content(), outcome, []) == end(Moment(repository.Content(), Relookup(req)))
    {
      OneStep(around, end, repository.Content(), Relookup(req));
      var again := GetByKey(req.idempotencyKey, around(3));
      if again.Ok? && again.value.requestDigest == RequestDigest(req) {
        if again.value.state == AbandonedReconciled { return Failed(Denied); }
        if again.value.state == SafeToRetry { return Failed(Denied); }
        return Returned(ReceiptFromOperation(req.id, again.value, around(3).now));
      }
      return Failed(OperationExists);
    }

    /** From the reservation on: mark, call the provider once, settle. */
    method Perform(req: Request, planned: Operation, around: Surroundings, ghost end: Ending) returns (outcome: Outcome)
      requires Ends(around, end)
      modifies repository, provider
      ensures var solo := end(Moment(old(repository.Content()), MarkDispatched(req, planned)));
              && repository.Content() == solo.ledger && outcome == solo.outcome
              && provider.entered == old(provider.entered) + solo.entered
    {
      SilentStep(around, end, repository.Content(), MarkDispatched(req, planned),
                 StepMarkDispatched(repository.Content(), req, planned, around(4)));
      if around(4).cancelled { return Failed(Cancelled); }
      var moved := planned.Transition(Dispatched, planned.updatedAt);
      if moved.None? { return Failed(InvalidTransition); }
      var op := moved.value;
      var err := UpdateOperation(op, around(4));
      if err.Some? { return Failed(err.value); }
      outcome := DispatchAndSettle(req, op, around, end);
    }

    method DispatchAndSettle(req: Request, dispatched: Operation, around: Surroundings, ghost end: Ending)
      returns (outcome: Outcome)
      requires Ends(around, end)
      modifies repository, provider
      ensures var solo := end(Moment(old(repository.Content()), Invoke(req, dispatched)));
              && repository.Content() == solo.ledger && outcome == solo.outcome
              && provider.entered == old(provider.entered) + solo.entered
    {
      OneStep(around, end, repository.Content(), Invoke(req, dispatched));
      if around(5).cancelled { return Failed(Cancelled); }
      var result := provider.Dispatch(dispatched.id, around(6).dispatch);
      outcome := SettleReply(req, dispatched, result, around, end);
    }

    /** What the provider's reply makes of the row; a malformed one keeps nothing of it. */
    method SettleReply(req: Request, dispatched: Operation, result: DispatchReply, around: Surroundings,
                       ghost end: Ending)
      returns (outcome: Outcome)
      requires Ends(around, end) && result == around(6).dispatch
      modifies repository
      ensures Solo(repository.Content(), outcome, []) == end(Moment(old(repository.Content()), AwaitDispatch(req, dispatched)))
    {
      OneStep(around, end, repository.Content(), AwaitDispatch(req, dispatched));
      var op := dispatched;
      if result.DispatchFails? {
        var moved := op.Transition(Unknown, around(6).now);
        if moved.None? { return Failed(ExternalEffectUnresolved); }
        outcome := SettleDispatched(req, moved.value, false, around, end);
        return;
      }
      var invalid := false;
      var ref, observed := result.externalRef, result.observedState;
      match result.verdict {
        case SaysConfirmed =>
          var moved := op.Transition(Confirmed, around(6).now);
          if moved.None? { return Failed(ExternalEffectUnresolved); }
          op := moved.value;
        case SaysUnknown =>
          var moved := op.Transition(Unknown, around(6).now);
          if moved.None? { return Failed(ExternalEffectUnresolved); }
          op := moved.value;
        case SaysOther =>
          invalid := true;
          var moved := op.Transition(Unknown, around(6).now);
          if moved.None? { return Failed(ExternalEffectUnresolved); }
          op := moved.value;
          ref, observed := "", "INVALID_PROVIDER_DISPATCH_OUTCOME";
      }
      op := op.(externalRef := ref, observedState := observed);
      outcome := SettleDispatched(req, op, invalid, around, end);
    }

    /** The one bounded ledger write after the provider was called. */
    method SettleDispatched(req: Request, op: Operation, invalid: bool, around: Surroundings, ghost end: Ending)
      returns (outcome: Outcome)
      requires Ends(around, end)
      modifies repository
      ensures Solo(repository.Content(), outcome, []) == end(Moment(old(repository.Content()), SettleDispatch(req, op, invalid)))
    {
      OneStep(around, end, repository.Content(), SettleDispatch(req, op, invalid));
      var err := UpdateOperation(op, around(7));
      if err.Some? { return Failed(ExternalEffectUnresolved); }
      if invalid { return Failed(ExternalEffectUnresolved); }
      return Returned(ReceiptFromOperation(req.id, op, around(7).now));
    }

    method Reconcile(operationID: string, around: Surroundings) returns (outcome: Outcome)
      requires repository.Content().Agrees()
      modifies repository, provider
      ensures var solo := Alone(old(repository.Content()), ReadRow(operationID), around);
              && repository.Content() == solo.ledger && outcome == solo.outcome
              && provider.entered == old(provider.entered) + solo.entered
              && Reconciled(old(repository.Content()), operationID, around, solo)
    {
      ghost var end: Ending := (m: Moment) => Alone(m.ledger, m.call, around);
      assert end(Moment(repository.Content(), ReadRow(operationID))) == Alone(repository.Content(), ReadRow(operationID), around);
      Reconciliation(around, end, repository.Content(), operationID);
      outcome := ReadAndObserve(operationID, around, end);
    }

    method ReadAndObserve(operationID: string, around: Surroundings, ghost end: Ending) returns (outcome: Outcome)
      requires Ends(around, end) && repository.Content().Agrees()
      modifies repository, provider
      ensures var solo := end(Moment(old(repository.Content()), ReadRow(operationID)));
              && repository.Content() == solo.ledger && outcome == solo.outcome
              && provider.entered == old(provider.entered) + solo.entered
    {
      OneStep(around, end, repository.Content(), ReadRow(operationID));
      var found := GetOperation(operationID, around(3));
      if found.Err? { return Failed(found.error); }
      if found.value.state != Unknown { return Failed(NotUnknown); }
      outcome := MarkAndObserve(found.value, around, end);
    }

    method MarkAndObserve(unknown: Operation, around: Surroundings, ghost end: Ending) returns (outcome: Outcome)
      requires Ends(around, end) && unknown.state == Unknown
      modifies repository, provider
      ensures var solo := end(Moment(old(repository.Content()), MarkReconciling(unknown)));
              && repository.Content() == solo.ledger && outcome == solo.outcome
              && provider.entered == old(provider.entered) + solo.entered
    {
      SilentStep(around, end, repository.Content(), MarkReconciling(unknown),
                 StepMarkReconciling(repository.Content(), unknown, around(4)));
      var op := unknown.Transition(Reconciling, around(4).now).value;
      if around(4).cancelled { return Failed(Cancelled); }
      var err := UpdateOperation(op, around(4));
      if err.Some? { return Failed(err.value); }
      outcome := ObserveAndSettle(op, around, end);
    }

    /** One provider observation; only a trusted verdict settles to more than MANUAL. */
    method ObserveAndSettle(reconciling: Operation, around: Surroundings, ghost end: Ending) returns (outcome: Outcome)
      requires Ends(around, end) && reconciling.state == Reconciling
      modifies repository, provider
      ensures var solo := end(Moment(old(repository.Content()), InvokeReconcile(reconciling)));
              && repository.Content() == solo.ledger && outcome == solo.outcome
              && provider.entered == old(provider.entered) + solo.entered
    {
      OneStep(around, end, repository.Content(), InvokeReconcile(reconciling));
      if around(5).cancelled { return Failed(Cancelled); }
      var result := provider.Reconcile(reconciling.id, around(6).observation);
      OneStep(around, end, repository.Content(), AwaitReconcile(reconciling));
      var op, invalid := ApplyVerdict(reconciling, result, around(6).now);
      outcome := SettleReconciled(op, invalid, around, end);
    }

    method SettleReconciled(op: Operation, invalid: bool, around: Surroundings, ghost end: Ending)
      returns (outcome: Outcome)
      requires Ends(around, end)
      modifies repository
      ensures Solo(repository.Content(), outcome, []) == end(Moment(old(repository.Content()), SettleReconcile(op, invalid)))
    {
      OneStep(around, end, repository.Content(), SettleReconcile(op, invalid));
      var err := UpdateOperation(op, around(7));
      if err.Some? { return Failed(ExternalEffectUnresolved); }
      if invalid { return Failed(ExternalEffectUnresolved); }
      return Returned(ReceiptFromOperation("", op, around(7).now));
    }
  }

  method ApplyVerdict(reconciling: Operation, result: ReconcileReply, now: int)
    returns (op: Operation, invalid: bool)
    requires reconciling.state == Reconciling
    ensures SettlementOf(reconciling, result, now) == Some((op, invalid))
    ensures op.SameReservation(reconciling) && (op.state == Manual || (op.state == Confirmed && op.riskClass == Observe))
    ensures invalid ==> op.state == Manual && op.externalRef == ""
  {
    op, invalid := reconciling, false;
    if result.ReconcileFails? {
      op := op.(state := Manual, updatedAt := now);
      return;
    }
    var ref, observed := result.externalRef, result.observedState;
    match result.verdict {
      case FindsConfirmed =>
        if op.riskClass == Observe {
          op := op.Transition(Confirmed, now).value;
        } else {
          invalid := true;
          op := op.Transition(Manual, now).value;
          ref, observed := "", "UNQUALIFIED_CONFIRMATION_VERDICT";
        }
      case FindsSafeToRetry =>
        invalid := true;
        op := op.Transition(Manual, now).value;
        ref, observed := "", "UNQUALIFIED_RETRY_VERDICT";
      case FindsManual =>
        op := op.Transition(Manual, now).value;
      case FindsOther =>
        invalid := true;
        op := op.Transition(Manual, now).value;
        ref, observed := "", "INVALID_PROVIDER_RECONCILE_OUTCOME";
    }
    op := op.(externalRef := ref, observedState := observed);
  }
}

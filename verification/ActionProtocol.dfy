/** Any number of Execute and Reconcile calls interleaving over one ledger. Every step of a call is one
    atomic interaction with the ledger, the authority guards or the provider; a call that is never
    advanced again has crashed there. */
module ActionProtocol {
  import opened Options
  import opened ActionLedger
  import opened ActionRepository

  /** What the durable store does with one request of ours. */
  datatype Storage =
    | Answers      // it does what was asked and says so
    | LosesWrite   // it does nothing and reports a failure
    | LosesAnswer  // it does what was asked but reports a failure

  datatype DispatchVerdict = SaysConfirmed | SaysUnknown | SaysOther
  datatype DispatchReply = DispatchFails | DispatchReplies(verdict: DispatchVerdict, externalRef: string, observedState: string)
  datatype ReconcileVerdict = FindsConfirmed | FindsSafeToRetry | FindsManual | FindsOther
  datatype ReconcileReply = ReconcileFails | ReconcileReplies(verdict: ReconcileVerdict, externalRef: string, observedState: string)

  /** Everything the environment decides in one step. */
  datatype Env = Env(
    cancelled: bool,
    storage: Storage,
    refusal: Option<Error>,
    dispatch: DispatchReply,
    observation: ReconcileReply,
    now: int)

  datatype Outcome = Returned(receipt: Receipt) | Failed(error: Error)

  /** A call at a program point, with its local variables. */
  datatype Call =
    | Lookup(req: Request)
    | Admit(req: Request)
    | Reserve(req: Request)
    | Relookup(req: Request)
    | MarkDispatched(req: Request, op: Operation)
    | Invoke(req: Request, op: Operation)
    | AwaitDispatch(req: Request, op: Operation)
    | SettleDispatch(req: Request, op: Operation, invalid: bool)
    | ExecuteDone(req: Request, outcome: Outcome)
    | ReadRow(id: string)
    | MarkReconciling(op: Operation)
    | InvokeReconcile(op: Operation)
    | AwaitReconcile(op: Operation)
    | SettleReconcile(op: Operation, invalid: bool)
    | ReconcileDone(id: string, outcome: Outcome)

  /** What a step did that the history keeps. */
  datatype Note =
    | Silent
    | Created(row: Operation, acknowledged: bool)
    | Updated(row: Operation, acknowledged: bool)
    | EnteredDispatch(id: string, key: string)
    | Replied(id: string, reply: DispatchReply)
    | EnteredReconcile(id: string, key: string)

  datatype StepResult = StepResult(ledger: Ledger, call: Call, note: Note)

  function ReadError(env: Env): Option<Error> {
    if env.cancelled then Some(Cancelled)
    else if env.storage != Answers then Some(StorageFailure)
    else None
  }

  /** Whether a write takes effect, given what the repository makes of it. */
  function Lands(refused: Option<Error>, env: Env): bool {
    !env.cancelled && env.storage != LosesWrite && refused.None?
  }

  /** What the caller of that write is told. */
  function WriteError(refused: Option<Error>, env: Env): Option<Error> {
    if env.cancelled then Some(Cancelled)
    else if env.storage != Answers then Some(StorageFailure)
    else refused
  }

  /** The answer to a repeated request whose digest matches the stored row. */
  function Replay(req: Request, existing: Operation, now: int): Outcome {
    if existing.state == AbandonedReconciled || existing.state == SafeToRetry then Failed(Denied)
    else Returned(ReceiptFromOperation(req.id, existing, now))
  }

  function StepLookup(ledger: Ledger, req: Request, env: Env): StepResult {
    if req.idempotencyKey == "" then StepResult(ledger, ExecuteDone(req, Failed(KeyRequired)), Silent)
    else if ReadError(env).Some? then StepResult(ledger, ExecuteDone(req, Failed(ReadError(env).value)), Silent)
    else
      match ledger.ReadByKey(req.idempotencyKey)
      case Ok(existing) =>
        var outcome := if existing.requestDigest != RequestDigest(req) then Failed(IdempotencyConflict)
                       else Replay(req, existing, env.now);
        StepResult(ledger, ExecuteDone(req, outcome), Silent)
      case Err(_) => StepResult(ledger, Admit(req), Silent)
  }

  /** Authorization and both epoch guards, with the cancellation checks between them. */
  function StepAdmit(ledger: Ledger, req: Request, env: Env): StepResult {
    if env.cancelled then StepResult(ledger, ExecuteDone(req, Failed(Cancelled)), Silent)
    else if env.refusal.Some? then StepResult(ledger, ExecuteDone(req, Failed(env.refusal.value)), Silent)
    else StepResult(ledger, Reserve(req), Silent)
  }

  function StepReserve(ledger: Ledger, req: Request, env: Env): StepResult {
    var op := NewWithRequestDigest(req, RequestDigest(req), env.now);
    var refused := ledger.CreateError(op);
    var err := WriteError(refused, env);
    var next := match err
      case None => MarkDispatched(req, op)
      case Some(OperationExists) => Relookup(req)
      case Some(e) => ExecuteDone(req, Failed(e));
    if Lands(refused, env) then StepResult(ledger.Insert(op), next, Created(op, err.None?))
    else StepResult(ledger, next, Silent)
  }

  function StepRelookup(ledger: Ledger, req: Request, env: Env): StepResult {
    var found := ledger.ReadByKey(req.idempotencyKey);
    var outcome :=
      if ReadError(env).None? && found.Ok? && found.value.requestDigest == RequestDigest(req)
      then Replay(req, found.value, env.now)
      else Failed(OperationExists);
    StepResult(ledger, ExecuteDone(req, outcome), Silent)
  }

  /** One UpdateContext of `op`: the new ledger, what the caller is told and what the history keeps. */
  datatype Write = Write(ledger: Ledger, error: Option<Error>, note: Note)

  function UpdateRow(ledger: Ledger, op: Operation, env: Env): Write {
    var refused := ledger.UpdateError(op);
    var err := WriteError(refused, env);
    if Lands(refused, env) then Write(ledger.Replace(op), err, Updated(op, err.None?))
    else Write(ledger, err, Silent)
  }

  function StepMarkDispatched(ledger: Ledger, req: Request, op: Operation, env: Env): StepResult {
    match op.Transition(Dispatched, op.updatedAt)
    case None => StepResult(ledger, ExecuteDone(req, Failed(if env.cancelled then Cancelled else InvalidTransition)), Silent)
    case Some(marked) =>
      var w := UpdateRow(ledger, marked, env);
      var next := if w.error.None? then Invoke(req, marked) else ExecuteDone(req, Failed(w.error.value));
      StepResult(w.ledger, next, w.note)
  }

  function StepInvoke(ledger: Ledger, req: Request, op: Operation, env: Env): StepResult {
    if env.cancelled then StepResult(ledger, ExecuteDone(req, Failed(Cancelled)), Silent)
    else StepResult(ledger, AwaitDispatch(req, op), EnteredDispatch(op.id, req.idempotencyKey))
  }

  function StepAwaitDispatch(ledger: Ledger, req: Request, op: Operation, env: Env): StepResult {
    var target := if env.dispatch.DispatchReplies? && env.dispatch.verdict == SaysConfirmed
                  then Confirmed else Unknown;
    var next := match op.Transition(target, env.now)
      case None => ExecuteDone(req, Failed(ExternalEffectUnresolved))
      case Some(settled) =>
        match env.dispatch
        case DispatchFails => SettleDispatch(req, settled, false)
        case DispatchReplies(SaysOther, _, _) =>
          SettleDispatch(req, settled.(externalRef := "", observedState := "INVALID_PROVIDER_DISPATCH_OUTCOME"), true)
        case DispatchReplies(_, ref, observed) =>
          SettleDispatch(req, settled.(externalRef := ref, observedState := observed), false);
    StepResult(ledger, next, Replied(op.id, env.dispatch))
  }

  function StepSettleDispatch(ledger: Ledger, req: Request, op: Operation, invalid: bool, env: Env): StepResult {
    var w := UpdateRow(ledger, op, env);
    var outcome := if w.error.Some? || invalid then Failed(ExternalEffectUnresolved)
                   else Returned(ReceiptFromOperation(req.id, op, env.now));
    StepResult(w.ledger, ExecuteDone(req, outcome), w.note)
  }

  function StepReadRow(ledger: Ledger, id: string, env: Env): StepResult {
    var next :=
      if ReadError(env).Some? then ReconcileDone(id, Failed(ReadError(env).value))
      else
        match ledger.Read(id)
        case Err(e) => ReconcileDone(id, Failed(e))
        case Ok(op) => if op.state != Unknown then ReconcileDone(id, Failed(NotUnknown)) else MarkReconciling(op);
    StepResult(ledger, next, Silent)
  }

  function StepMarkReconciling(ledger: Ledger, op: Operation, env: Env): StepResult {
    match op.Transition(Reconciling, env.now)
    case None => StepResult(ledger, ReconcileDone(op.id, Failed(InvalidTransition)), Silent)
    case Some(marked) =>
      var w := UpdateRow(ledger, marked, env);
      var next := if w.error.None? then InvokeReconcile(marked) else ReconcileDone(op.id, Failed(w.error.value));
      StepResult(w.ledger, next, w.note)
  }

  function StepInvokeReconcile(ledger: Ledger, op: Operation, env: Env): StepResult {
    if env.cancelled then StepResult(ledger, ReconcileDone(op.id, Failed(Cancelled)), Silent)
    else StepResult(ledger, AwaitReconcile(op), EnteredReconcile(op.id, op.idempotencyKey))
  }

  /** The row a provider observation settles to, and whether the verdict was one the ledger cannot trust.
      A failed observation sets MANUAL directly. */
  function SettlementOf(op: Operation, reply: ReconcileReply, now: int): Option<(Operation, bool)> {
    match reply
    case ReconcileFails => Some((op.(state := Manual, updatedAt := now), false))
    case ReconcileReplies(verdict, ref, observed) =>
      var trusted := verdict == FindsManual || (verdict == FindsConfirmed && op.riskClass == Observe);
      var target := if verdict == FindsConfirmed && op.riskClass == Observe then Confirmed else Manual;
      match op.Transition(target, now)
      case None => None
      case Some(settled) =>
        if trusted then Some((settled.(externalRef := ref, observedState := observed), false))
        else
          var reason := match verdict
            case FindsConfirmed => "UNQUALIFIED_CONFIRMATION_VERDICT"
            case FindsSafeToRetry => "UNQUALIFIED_RETRY_VERDICT"
            case _ => "INVALID_PROVIDER_RECONCILE_OUTCOME";
          Some((settled.(externalRef := "", observedState := reason), true))
  }

  function StepAwaitReconcile(ledger: Ledger, op: Operation, env: Env): StepResult {
    var next := match SettlementOf(op, env.observation, env.now)
      case None => ReconcileDone(op.id, Failed(ExternalEffectUnresolved))
      case Some((settled, invalid)) => SettleReconcile(settled, invalid);
    StepResult(ledger, next, Silent)
  }

  function StepSettleReconcile(ledger: Ledger, op: Operation, invalid: bool, env: Env): StepResult {
    var w := UpdateRow(ledger, op, env);
    var outcome := if w.error.Some? || invalid then Failed(ExternalEffectUnresolved)
                   else Returned(ReceiptFromOperation("", op, env.now));
    StepResult(w.ledger, ReconcileDone(op.id, outcome), w.note)
  }

  predicate Finished(call: Call) {
    call.ExecuteDone? || call.ReconcileDone?
  }

  function StepCall(ledger: Ledger, call: Call, env: Env): StepResult {
    match call
    case Lookup(req) => StepLookup(ledger, req, env)
    case Admit(req) => StepAdmit(ledger, req, env)
    case Reserve(req) => StepReserve(ledger, req, env)
    case Relookup(req) => StepRelookup(ledger, req, env)
    case MarkDispatched(req, op) => StepMarkDispatched(ledger, req, op, env)
    case Invoke(req, op) => StepInvoke(ledger, req, op, env)
    case AwaitDispatch(req, op) => StepAwaitDispatch(ledger, req, op, env)
    case SettleDispatch(req, op, invalid) => StepSettleDispatch(ledger, req, op, invalid, env)
    case ReadRow(id) => StepReadRow(ledger, id, env)
    case MarkReconciling(op) => StepMarkReconciling(ledger, op, env)
    case InvokeReconcile(op) => StepInvokeReconcile(ledger, op, env)
    case AwaitReconcile(op) => StepAwaitReconcile(ledger, op, env)
    case SettleReconcile(op, invalid) => StepSettleReconcile(ledger, op, invalid, env)
    case ExecuteDone(_, _) => StepResult(ledger, call, Silent)
    case ReconcileDone(_, _) => StepResult(ledger, call, Silent)
  }

  /** One call of the provider. */
  datatype Entry = Entry(call: nat, id: string, key: string)

  /** The history of a run. `owner` names the call that was told its create succeeded, `observer` the one
      that was told its move to RECONCILING succeeded. */
  datatype Log = Log(
    owner: map<string, nat>,
    observer: map<string, nat>,
    dispatches: seq<Entry>,
    observations: seq<Entry>,
    replies: map<string, DispatchReply>,
    updates: map<string, nat>,
    abandoned: set<string>,
    held: set<Operation>)

  datatype System = System(ledger: Ledger, calls: seq<Call>, log: Log)

  const INITIAL := System(Ledger(map[], map[]), [], Log(map[], map[], [], [], map[], map[], {}, {}))

  function Record(log: Log, i: nat, note: Note): Log {
    match note
    case Silent => log
    case Created(row, acknowledged) =>
      log.(owner := if acknowledged then log.owner[row.id := i] else log.owner,
           updates := log.updates[row.id := 0],
           held := log.held + {row})
    case Updated(row, acknowledged) =>
      log.(observer := if acknowledged && row.state == Reconciling then log.observer[row.id := i] else log.observer,
           updates := log.updates[row.id := 1 + if row.id in log.updates then log.updates[row.id] else 0],
           held := log.held + {row})
    case EnteredDispatch(id, key) => log.(dispatches := log.dispatches + [Entry(i, id, key)])
    case Replied(id, reply) => log.(replies := log.replies[id := reply])
    case EnteredReconcile(id, key) => log.(observations := log.observations + [Entry(i, id, key)])
  }

  datatype Event =
    | StartExecute(req: Request)
    | StartReconcile(id: string)
    | Advance(i: nat, env: Env)
    | Abandon(id: string, now: int)  // Recovery moves a PLANNED row to ABANDONED_RECONCILED

  function Next(s: System, e: Event): System {
    match e
    case StartExecute(req) => s.(calls := s.calls + [Lookup(req)])
    case StartReconcile(id) => s.(calls := s.calls + [ReadRow(id)])
    case Advance(i, env) =>
      if i < |s.calls| then
        var r := StepCall(s.ledger, s.calls[i], env);
        System(r.ledger, s.calls[i := r.call], Record(s.log, i, r.note))
      else s
    case Abandon(id, now) =>
      if id in s.ledger.items && s.ledger.items[id].state == Planned then
        var row := s.ledger.items[id].(state := AbandonedReconciled, updatedAt := now);
        s.(ledger := s.ledger.Replace(row),
           log := s.log.(abandoned := s.log.abandoned + {id}, held := s.log.held + {row}))
      else s
  }

  /** The system after a whole schedule. */
  function Run(events: seq<Event>): System {
    if events == [] then INITIAL else Next(Run(events[..|events| - 1]), events[|events| - 1])
  }
}

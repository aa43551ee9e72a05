/** The in-memory ledger authority: rows by operation ID plus an index by idempotency key. */
module ActionRepository {
  import opened Options
  import opened ActionLedger

  datatype Error =
    | KeyRequired
    | Cancelled
    | Denied
    | Refused
    | IdempotencyConflict
    | OperationExists
    | OperationAbsent
    | InvalidTransition
    | NotUnknown
    | StorageFailure
    | ExternalEffectUnresolved

  datatype Answer<+T> = Ok(value: T) | Err(error: Error)

  /** The content of a repository as a value. */
  datatype Ledger = Ledger(items: map<string, Operation>, idempotency: map<string, string>)
  {
    /** Rows and index describe the same reservations. */
    ghost predicate Agrees() {
      && (forall id | id in items ::
            && items[id].id == id
            && items[id].idempotencyKey in idempotency
            && idempotency[items[id].idempotencyKey] == id)
      && (forall key | key in idempotency ::
            && idempotency[key] in items
            && items[idempotency[key]].idempotencyKey == key)
    }

    function CreateError(op: Operation): Option<Error> {
      if op.id in items || op.idempotencyKey in idempotency then Some(OperationExists) else None
    }

    function Insert(op: Operation): Ledger {
      Ledger(items[op.id := op], idempotency[op.idempotencyKey := op.id])
    }

    function Read(id: string): Answer<Operation> {
      if id in items then Ok(items[id]) else Err(OperationAbsent)
    }

    function ReadByKey(key: string): Answer<Operation> {
      if key in idempotency then Read(idempotency[key]) else Err(OperationAbsent)
    }

    function UpdateError(op: Operation): Option<Error> {
      if op.id !in items then Some(OperationAbsent)
      else if !items[op.id].SameReservation(op) then Some(InvalidTransition)
      else if items[op.id].Transition(op.state, op.updatedAt).None? then Some(InvalidTransition)
      else None
    }

    function Replace(op: Operation): Ledger {
      this.(items := items[op.id := op])
    }
  }

  /** Create-if-absent keeps rows and index in agreement, and afterwards both lookups name the new row. */
  lemma {:induction false} InsertKeepsAgreement(ledger: Ledger, op: Operation)
    requires ledger.Agrees() && ledger.CreateError(op).None?
    ensures ledger.Insert(op).Agrees()
    ensures ledger.Insert(op).Read(op.id) == ledger.Insert(op).ReadByKey(op.idempotencyKey) == Ok(op)
    ensures forall key | key in ledger.idempotency :: ledger.Insert(op).ReadByKey(key) == ledger.ReadByKey(key)
  {
    forall key | key in ledger.idempotency
      ensures ledger.Insert(op).ReadByKey(key) == ledger.ReadByKey(key)
    {
      assert ledger.idempotency[key] in ledger.items;
    }
  }

  /** An accepted update keeps the reservation, strictly climbs the table and so keeps the agreement;
      a row in a final state accepts none. */
  lemma {:induction false} UpdateClimbs(ledger: Ledger, op: Operation)
    requires ledger.Agrees() && ledger.UpdateError(op).None?
    ensures ledger.Replace(op).Agrees()
    ensures op.id in ledger.items && ledger.items[op.id].SameReservation(op)
    ensures Rank(ledger.items[op.id].state) < Rank(op.state)
    ensures op.state != SafeToRetry && op.state != AbandonedReconciled && op.state != Planned
    ensures op.state == Confirmed && op.riskClass != Observe ==> ledger.items[op.id].state == Dispatched
    ensures !Final(ledger.items[op.id].state)
  {
    TransitionClimbs(ledger.items[op.id], op.state, op.updatedAt);
  }

  /** Each method holds the repository lock, so it is one atomic step. `cancelled` says whether the
      caller's context was already done at either of the two checks around the lock. */
  class MemoryRepository {
    var items: map<string, Operation>
    var idempotency: map<string, string>

    function Content(): Ledger
      reads this
    {
      Ledger(items, idempotency)
    }

    constructor ()
      ensures Content() == Ledger(map[], map[])
      ensures Content().Agrees()
    {
      items, idempotency := map[], map[];
    }

    method CreateContext(cancelled: bool, op: Operation) returns (err: Option<Error>)
      modifies this
      ensures err == if cancelled then Some(Cancelled) else old(Content()).CreateError(op)
      ensures Content() == if err.None? then old(Content()).Insert(op) else old(Content())
      ensures old(Content()).Agrees() ==> Content().Agrees()
    {
      if cancelled { return Some(Cancelled); }
      if op.id in items { return Some(OperationExists); }
      if op.idempotencyKey in idempotency { return Some(OperationExists); }
      ghost var before := Content();
      items := items[op.id := op];
      idempotency := idempotency[op.idempotencyKey := op.id];
      assert Content() == before.Insert(op);
      if before.Agrees() { InsertKeepsAgreement(before, op); }
      return None;
    }

    method GetContext(cancelled: bool, id: string) returns (r: Answer<Operation>)
      ensures r == if cancelled then Err(Cancelled) else Content().Read(id)
    {
      if cancelled { return Err(Cancelled); }
      if id !in items { return Err(OperationAbsent); }
      return Ok(items[id]);
    }

    method GetByIdempotencyKeyContext(cancelled: bool, key: string) returns (r: Answer<Operation>)
      ensures r == if cancelled then Err(Cancelled) else Content().ReadByKey(key)
    {
      if cancelled { return Err(Cancelled); }
      if key !in idempotency { return Err(OperationAbsent); }
      var id := idempotency[key];
      if id !in items { return Err(OperationAbsent); }
      return Ok(items[id]);
    }

    method UpdateContext(cancelled: bool, op: Operation) returns (err: Option<Error>)
      modifies this
      ensures err == if cancelled then Some(Cancelled) else old(Content()).UpdateError(op)
      ensures Content() == if err.None? then old(Content()).Replace(op) else old(Content())
      ensures old(Content()).Agrees() ==> Content().Agrees()
    {
      if cancelled { return Some(Cancelled); }
      if op.id !in items { return Some(OperationAbsent); }
      var original := items[op.id];
      if !original.SameReservation(op) { return Some(InvalidTransition); }
      if original.Transition(op.state, op.updatedAt).None? { return Some(InvalidTransition); }
      ghost var before := Content();
      items := items[op.id := op];
      if before.Agrees() { UpdateClimbs(before, op); }
      return None;
    }
  }
}

/** The external-operation ledger: states, rows, requests and the normal transition table. */
module ActionLedger {

  import opened Options

  datatype State =
    | Planned
    | Dispatched
    | Confirmed
    | Unknown
    | Reconciling
    | SafeToRetry
    | Manual
    | AbandonedReconciled

  /** Risk classes arrive as free text; only OBSERVE is treated specially. */
  datatype RiskClass = Observe | ControlledMutation | HighRisk | Unlisted(name: string)

  datatype Request = Request(
    id: string,
    runID: string,
    executionEpoch: nat,
    recoveryEpoch: nat,
    action: string,
    riskClass: RiskClass,
    capability: string,
    parametersDigest: string,
    idempotencyKey: string,
    requestedBy: string,
    requestedAt: int)

  /** The part of a request its digest covers: neither the idempotency key nor the time. */
  datatype RequestIdentity = RequestIdentity(
    id: string,
    runID: string,
    executionEpoch: nat,
    recoveryEpoch: nat,
    action: string,
    riskClass: RiskClass,
    capability: string,
    parametersDigest: string,
    requestedBy: string)

  /** A collision-free digest is a free constructor over what it covers. */
  datatype Digest = DigestOf(identity: RequestIdentity)

  function RequestDigest(req: Request): Digest {
    DigestOf(RequestIdentity(req.id, req.runID, req.executionEpoch, req.recoveryEpoch, req.action,
                             req.riskClass, req.capability, req.parametersDigest, req.requestedBy))
  }

  datatype Operation = Operation(
    id: string,
    runID: string,
    executionEpoch: nat,
    recoveryEpoch: nat,
    action: string,
    riskClass: RiskClass,
    capability: string,
    idempotencyKey: string,
    requestDigest: Digest,
    state: State,
    updatedAt: int,
    externalRef: string,
    observedState: string)
  {
    /** The immutable reservation identity: state, time and provider observation are not part of it. */
    predicate SameReservation(other: Operation) {
      && id == other.id && runID == other.runID
      && executionEpoch == other.executionEpoch && recoveryEpoch == other.recoveryEpoch
      && action == other.action && riskClass == other.riskClass
      && capability == other.capability && idempotencyKey == other.idempotencyKey
      && requestDigest == other.requestDigest
    }

    /** The normal table. None is the source's invalid-transition error. */
    function Transition(to: State, now: int): Option<Operation> {
      var valid :=
        match state
        case Planned => to == Dispatched
        case Dispatched => to == Confirmed || to == Unknown
        case Unknown => to == Reconciling
        case Reconciling => to == Manual || (to == Confirmed && riskClass == Observe)
        case _ => false;
      if valid then Some(this.(state := to, updatedAt := now)) else None
    }
  }

  function NewWithRequestDigest(req: Request, digest: Digest, now: int): Operation {
    Operation(req.id, req.runID, req.executionEpoch, req.recoveryEpoch, req.action, req.riskClass,
              req.capability, req.idempotencyKey, digest, Planned, now, "", "")
  }

  /** How far along the table a state lies: every normal transition climbs. */
  function Rank(s: State): nat {
    match s
    case Planned => 0
    case Dispatched => 1
    case Unknown => 2
    case Reconciling => 3
    case _ => 4
  }

  /** A final state admits no normal transition. */
  predicate Final(s: State) {
    Rank(s) == 4
  }

  /** A reservation is fixed exactly up to its four mutable columns. */
  lemma {:induction false} ReservationIsAllButTheMutableColumns(a: Operation, b: Operation)
    ensures a.SameReservation(b) <==>
            a == b.(state := a.state, updatedAt := a.updatedAt,
                    externalRef := a.externalRef, observedState := a.observedState)
  {
  }

  /** The table is acyclic, leaves the identity alone and never enters the two Recovery-only states;
      a row can leave a state unless it is final. */
  lemma {:induction false} TransitionClimbs(o: Operation, to: State, now: int)
    ensures o.Transition(to, now).Some? ==>
              var r := o.Transition(to, now).value;
              && Rank(o.state) < Rank(r.state)
              && o.SameReservation(r)
              && r.state == to && r.externalRef == o.externalRef && r.observedState == o.observedState
              && to != SafeToRetry && to != AbandonedReconciled && to != Planned
              && (to == Confirmed && o.riskClass != Observe ==> o.state == Dispatched)
    ensures Final(o.state) <==> forall s :: o.Transition(s, now).None?
  {
    if !Final(o.state) {
      var next := match o.state
        case Planned => Dispatched
        case Dispatched => Unknown
        case Unknown => Reconciling
        case _ => Manual;
      assert o.Transition(next, now).Some?;
    }
  }

  function StateName(s: State): string {
    match s
    case Planned => "PLANNED"
    case Dispatched => "DISPATCHED"
    case Confirmed => "CONFIRMED"
    case Unknown => "UNKNOWN"
    case Reconciling => "RECONCILING"
    case SafeToRetry => "SAFE_TO_RETRY"
    case Manual => "MANUAL"
    case AbandonedReconciled => "ABANDONED_RECONCILED"
  }

  datatype Receipt = Receipt(
    id: string,
    requestID: string,
    operationID: string,
    result: State,
    externalRef: string,
    observedState: string,
    createdAt: int)

  function ReceiptFromOperation(requestID: string, op: Operation, now: int): Receipt {
    Receipt("receipt:" + op.id + ":" + StateName(op.state),
            if requestID == "" then op.id else requestID, op.id, op.state, op.externalRef,
            op.observedState, now)
  }
}

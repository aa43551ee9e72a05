/** One call of the protocol run to its end with nothing else running. */
module ActionSolo {
  import opened Options
  import opened ActionLedger
  import opened ActionRepository
  import opened ActionProtocol

  /** Program points of one call, in source order; each step moves strictly down the source. */
  function Point(call: Call): nat {
    match call
    case Lookup(_) => 0
    case Admit(_) => 1
    case Reserve(_) => 2
    case Relookup(_) => 3
    case ReadRow(_) => 3
    case MarkDispatched(_, _) => 4
    case MarkReconciling(_) => 4
    case Invoke(_, _) => 5
    case InvokeReconcile(_) => 5
    case AwaitDispatch(_, _) => 6
    case AwaitReconcile(_) => 6
    case SettleDispatch(_, _, _) => 7
    case SettleReconcile(_, _) => 7
    case ExecuteDone(_, _) => 8
    case ReconcileDone(_, _) => 8
  }

  /** What the environment decides at each program point of one call. */
  type Surroundings = nat -> Env

  /** A call run to its end with nothing else running. `entered` lists its provider calls. */
  datatype Solo = Solo(ledger: Ledger, outcome: Outcome, entered: seq<string>)

  lemma {:induction false} StepAdvances(ledger: Ledger, call: Call, env: Env)
    ensures !Finished(call) ==> Point(call) < Point(StepCall(ledger, call, env).call)
  {
    match call
    case AwaitReconcile(op) =>
    case _ =>
  }

  function ProviderCall(note: Note): seq<string> {
    if note.EnteredDispatch? || note.EnteredReconcile? then [note.id] else []
  }

  function Alone(ledger: Ledger, call: Call, around: Surroundings): Solo
    decreases 8 - Point(call)
  {
    if Finished(call) then Solo(ledger, call.outcome, [])
    else
      var r := StepCall(ledger, call, around(Point(call)));
      StepAdvances(ledger, call, around(Point(call)));
      var rest := Alone(r.ledger, r.call, around);
      rest.(entered := ProviderCall(r.note) + rest.entered)
  }

  datatype Moment = Moment(ledger: Ledger, call: Call)

  /** A function that gives the end of every call from any moment. It is looked up only at moments asked about,
      which keeps the solver from running the protocol ahead of the proof. */
  type Ending = Moment -> Solo

  predicate Asked(m: Moment) { true }

  ghost predicate Ends(around: Surroundings, end: Ending) {
    forall m {:trigger Asked(m)} :: Asked(m) ==> end(m) == Alone(m.ledger, m.call, around)
  }

  function Preceded(note: Note, rest: Solo): Solo {
    rest.(entered := ProviderCall(note) + rest.entered)
  }

  /** One step of a solo run, and its end when that step finishes the call. */
  lemma {:induction false} OneStep(around: Surroundings, end: Ending, ledger: Ledger, call: Call)
    requires Ends(around, end) && !Finished(call)
    ensures var r := StepCall(ledger, call, around(Point(call)));
      end(Moment(ledger, call)) == if Finished(r.call) then Solo(r.ledger, r.call.outcome, ProviderCall(r.note))
                                   else Preceded(r.note, end(Moment(r.ledger, r.call)))
  {
    var r := StepCall(ledger, call, around(Point(call)));
    StepAdvances(ledger, call, around(Point(call)));
    assert Asked(Moment(ledger, call)) && Asked(Moment(r.ledger, r.call));
  }

  lemma {:induction false} NothingEntered(note: Note, rest: Solo)
    requires ProviderCall(note) == []
    ensures Preceded(note, rest) == rest
  {
    assert [] + rest.entered == rest.entered;
  }

  lemma {:induction false} SilentStep(around: Surroundings, end: Ending, ledger: Ledger, call: Call, r: StepResult)
    requires Ends(around, end) && !Finished(call) && r == StepCall(ledger, call, around(Point(call)))
    requires ProviderCall(r.note) == []
    ensures end(Moment(ledger, call))
         == if Finished(r.call) then Solo(r.ledger, r.call.outcome, []) else end(Moment(r.ledger, r.call))
  {
    OneStep(around, end, ledger, call);
    if !Finished(r.call) { NothingEntered(r.note, end(Moment(r.ledger, r.call))); }
  }
}

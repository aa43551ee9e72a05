/** The one-pass gate: dictionaries and counters over the stream, proved to decide the language. */
module TestLogVerifier {
  import opened Options
  import opened TestLogSpec
  import opened TestLogHistory

  datatype Verdict = Accepted | Rejected(reason: string)

  /** A counter's entry, zero when absent. */
  function Count(counter: map<string, int>, key: string): int {
    if key in counter then counter[key] else 0
  }

  function LiveSubtests(active: map<string, Mode>, root: string): set<string> {
    set name | name in active && IsSubtest(name) && Root(name) == root
  }

  /** `active` holds exactly the live tests, each with its mode. */
  ghost predicate TracksStatus(h: seq<Event>, active: map<string, Mode>) {
    forall name :: (name in active <==> Status(h, name) != Idle) && (name in active ==> active[name] == Status(h, name))
  }

  /** `children` counts, for every top-level name, its live subtests. */
  ghost predicate TracksChildren(active: map<string, Mode>, children: map<string, int>) {
    forall root | !IsSubtest(root) :: Count(children, root) == |LiveSubtests(active, root)|
  }

  ghost predicate TracksPasses(h: seq<Event>, demand: Demand, passed: map<string, int>) {
    forall name | name in demand.required :: Count(passed, name) == Passes(h, name)
  }

  // ---- one more event ----

  lemma {:induction false} NoStepKeeps(h: seq<Event>, e: Event, demand: Demand, active: map<string, Mode>,
                                       passed: map<string, int>)
    requires TracksStatus(h, active) && TracksPasses(h, demand, passed)
    requires forall name :: !IsStepOf(e, name)
    ensures TracksStatus(h + [e], active) && TracksPasses(h + [e], demand, passed)
    ensures Names(h + [e]) == Names(h)
  {
    assert (h + [e])[..|h|] == h;
    assert forall name :: Status(h + [e], name) == Status(h, name);
    NamesSnoc(h, e);
  }

  lemma {:induction false} NamesSnoc(h: seq<Event>, e: Event)
    ensures Names(h + [e])
         == Names(h) + if e.test.Text? && IsStep(e, e.test.text, Run) then {e.test.text} else {}
  {
    var q := h + [e];
    assert q[|h|] == e;
    assert forall i | 0 <= i < |h| :: q[i] == h[i];
    forall t | t in Names(h) ensures t in Names(q) {
      var i :| 0 <= i < |h| && h[i].test.Text? && IsStep(h[i], h[i].test.text, Run) && h[i].test.text == t;
      assert q[i] == h[i];
    }
    if e.test.Text? && IsStep(e, e.test.text, Run) {
      assert IsStep(q[|h|], q[|h|].test.text, Run);
    }
  }

  lemma {:induction false} StatusSnoc(h: seq<Event>, e: Event, name: string, k: Kind, active: map<string, Mode>)
    requires TracksStatus(h, active) && IsStep(e, name, k)
    ensures TracksStatus(h + [e], if k == Pass then active - {name} else active[name := After(k)])
  {
    assert (h + [e])[..|h|] == h;
    forall t
      ensures Status(h + [e], t) == if t == name then After(k) else Status(h, t)
    {
    }
  }

  lemma {:induction false} PassesSnoc(h: seq<Event>, e: Event, demand: Demand, name: string, k: Kind,
                                      passed: map<string, int>)
    requires TracksPasses(h, demand, passed) && IsStep(e, name, k)
    ensures TracksPasses(h + [e], demand,
                         if k == Pass && name in demand.required then passed[name := Count(passed, name) + 1] else passed)
  {
    assert (h + [e])[..|h|] == h;
  }

  function StartChild(children: map<string, int>, name: string): map<string, int> {
    if IsSubtest(name) then children[Root(name) := Count(children, Root(name)) + 1] else children
  }

  function EndChild(children: map<string, int>, name: string): map<string, int> {
    var rest := children - {name};
    if IsSubtest(name) then rest[Root(name) := Count(rest, Root(name)) - 1] else rest
  }

  lemma {:induction false} ChildrenAfterRun(active: map<string, Mode>, children: map<string, int>, name: string)
    requires TracksChildren(active, children) && name !in active
    ensures TracksChildren(active[name := Running], StartChild(children, name))
  {
    forall root | !IsSubtest(root)
      ensures Count(StartChild(children, name), root) == |LiveSubtests(active[name := Running], root)|
    {
      LiveAfterRun(active, name, root);
    }
  }

  lemma {:induction false} LiveAfterRun(active: map<string, Mode>, name: string, root: string)
    requires name !in active
    ensures |LiveSubtests(active[name := Running], root)|
         == |LiveSubtests(active, root)| + if IsSubtest(name) && Root(name) == root then 1 else 0
  {
    var was, now := LiveSubtests(active, root), LiveSubtests(active[name := Running], root);
    if IsSubtest(name) && Root(name) == root {
      assert now == was + {name};
    } else {
      assert now == was;
    }
  }

  lemma {:induction false} ChildrenAfterToggle(active: map<string, Mode>, children: map<string, int>, name: string,
                                               mode: Mode)
    requires TracksChildren(active, children) && name in active
    ensures TracksChildren(active[name := mode], children)
  {
    assert forall root :: LiveSubtests(active[name := mode], root) == LiveSubtests(active, root);
  }

  lemma {:induction false} ChildrenAfterPass(active: map<string, Mode>, children: map<string, int>, name: string)
    requires TracksChildren(active, children) && name in active
    requires IsSubtest(name) || Count(children, name) == 0
    ensures TracksChildren(active - {name}, EndChild(children, name))
  {
    forall root | !IsSubtest(root)
      ensures Count(EndChild(children, name), root) == |LiveSubtests(active - {name}, root)|
    {
      var was, now := LiveSubtests(active, root), LiveSubtests(active - {name}, root);
      assert now == if IsSubtest(name) && Root(name) == root then was - {name} else was;
      assert IsSubtest(name) && Root(name) == root ==> name in was;
    }
  }

  /** A zero counter says that no subtest of the test is live. */
  lemma {:induction false} ZeroChildrenExactlyIdle(h: seq<Event>, active: map<string, Mode>, children: map<string,
                                                   int>, root: string)
    requires TracksStatus(h, active) && TracksChildren(active, children) && !IsSubtest(root)
    ensures Count(children, root) == 0 <==> forall name | IsSubtest(name) && Root(name) == root :: Status(h, name) == Idle
  {
    if Count(children, root) == 0 {
      assert LiveSubtests(active, root) == {};
      forall name | IsSubtest(name) && Root(name) == root ensures Status(h, name) == Idle {
        assert name !in LiveSubtests(active, root);
      }
    } else {
      var name :| name in LiveSubtests(active, root);
    }
  }

  /** The pass's local dictionaries. */
  datatype Tables = Tables(
    active: map<string, Mode>,
    children: map<string, int>,
    seen: set<string>,
    passed: map<string, int>)

  /** Everything the tables say about the events already read. */
  ghost predicate Tracked(h: seq<Event>, demand: Demand, t: Tables) {
    && TracksStatus(h, t.active) && TracksChildren(t.active, t.children)
    && TracksPasses(h, demand, t.passed) && t.seen == Names(h)
  }

  lemma {:induction false} StepKeepsTrack(h: seq<Event>, e: Event, demand: Demand, name: string, k: Kind, t: Tables)
    requires Tracked(h, demand, t) && IsStep(e, name, k)
    requires if k == Run then name !in t.active
             else name in t.active && (k == Pass ==> IsSubtest(name) || Count(t.children, name) == 0)
    ensures Tracked(h + [e], demand,
                    match k
                    case Run => t.(active := t.active[name := Running], children := StartChild(t.children, name),
                                   seen := t.seen + {name})
                    case Pass => t.(active := t.active - {name}, children := EndChild(t.children, name),
                                    passed := if name in demand.required then t.passed[name := Count(t.passed, name) + 1]
                                              else t.passed)
                    case _ => t.(active := t.active[name := After(k)]))
  {
    StatusSnoc(h, e, name, k, t.active);
    PassesSnoc(h, e, demand, name, k, t.passed);
    NamesSnoc(h, e);
    match k
    case Run => ChildrenAfterRun(t.active, t.children, name);
    case Pass => ChildrenAfterPass(t.active, t.children, name);
    case _ => ChildrenAfterToggle(t.active, t.children, name, After(k));
  }

  /** What the family condition asks of one step is one table lookup. */
  lemma {:induction false} FamilyOkByTables(es: seq<Event>, i: nat, demand: Demand, name: string, k: Kind, t: Tables)
    requires i < |es| && Tracked(es[..i], demand, t) && IsStep(es[i], name, k)
    ensures FamilyOk(es, i) <==>
      ((k == Run && IsSubtest(name) ==> Root(name) in t.active) &&
       (k == Pass && !IsSubtest(name) ==> Count(t.children, name) == 0))
  {
    if k == Pass && !IsSubtest(name) {
      ZeroChildrenExactlyIdle(es[..i], t.active, t.children, name);
    }
  }

  /** An identified event inside the package's lifetime, with the tables saying what came before. */
  ghost predicate Ready(es: seq<Event>, i: nat, demand: Demand, t: Tables) {
    && 0 < i < |es| && Tracked(es[..i], demand, t) && WithinBudget(es[..i], demand)
    && Identified(es[i], demand.package) && !IsPackagePass(es[i - 1])
  }

  lemma {:induction false} StepBudget(h: seq<Event>, e: Event, demand: Demand, name: string, k: Kind, t: Tables)
    requires Tracked(h, demand, t) && WithinBudget(h, demand) && IsStep(e, name, k)
    ensures WithinBudget(h + [e], demand) <==>
      ((k == Run ==> |t.seen + {name}| <= MAX_TESTS) &&
       (k == Pass && name in demand.required ==> Count(t.passed, name) + 1 <= demand.repeats))
  {
    NamesSnoc(h, e);
    assert (h + [e])[..|h|] == h;
    assert forall n | n in demand.required ::
        Passes(h + [e], n) == Passes(h, n) + if n == name && k == Pass then 1 else 0;
  }

  /** Whether a step is admissible, read off the tables. */
  predicate Admissible(demand: Demand, name: string, k: Kind, t: Tables) {
    match k
    case Run => name !in t.active && (IsSubtest(name) ==> Root(name) in t.active) && |t.seen + {name}| <= MAX_TESTS
    case Pause => name in t.active && t.active[name] == Running
    case Cont => name in t.active && t.active[name] == Paused
    case Pass =>
      && name in t.active && t.active[name] == Running
      && (!IsSubtest(name) ==> Count(t.children, name) == 0)
      && (name in demand.required ==> Count(t.passed, name) + 1 <= demand.repeats)
  }

  lemma {:induction false} TablesDecideStep(es: seq<Event>, i: nat, demand: Demand, name: string, k: Kind, t: Tables)
    requires Ready(es, i, demand, t) && IsStep(es[i], name, k)
    ensures EventOk(es, i, demand) <==> Admissible(demand, name, k, t)
  {
    FamilyOkByTables(es, i, demand, name, k, t);
    StepBudget(es[..i], es[i], demand, name, k, t);
    assert es[..i + 1] == es[..i] + [es[i]];
  }

  /** The tables after a test has started. */
  function Started(t: Tables, name: string): Tables {
    t.(active := t.active[name := Running], children := StartChild(t.children, name), seen := t.seen + {name})
  }

  lemma {:induction false} RunKeepsTrack(h: seq<Event>, e: Event, demand: Demand, name: string, t: Tables)
    requires Tracked(h, demand, t) && IsStep(e, name, Run) && name !in t.active
    ensures Tracked(h + [e], demand, Started(t, name))
  {
    StepKeepsTrack(h, e, demand, name, Run, t);
  }

  /** The table lookups and updates of a start. */
  method StartTest(demand: Demand, name: string, t: Tables) returns (error: Option<string>, t': Tables)
    ensures error.None? <==> Admissible(demand, name, Run, t)
    ensures error.None? ==> t' == Started(t, name)
  {
    t' := t;
    if name in t.active { return Some("test started twice or without identity"), t'; }
    var root := Root(name);
    if IsSubtest(name) && root !in t.active { return Some("subtest has no active top-level test"), t'; }
    t' := t'.(seen := t.seen + {name});
    if |t'.seen| > MAX_TESTS { return Some("test identity budget exceeded"), t'; }
    t' := t'.(active := t.active[name := Running]);
    if IsSubtest(name) { t' := t'.(children := t.children[root := Count(t.children, root) + 1]); }
    return None, t';
  }

  method HandleRun(es: seq<Event>, i: nat, demand: Demand, name: string, t: Tables)
    returns (error: Option<string>, t': Tables)
    requires Ready(es, i, demand, t) && IsStep(es[i], name, Run)
    ensures error.None? <==> EventOk(es, i, demand)
    ensures error.None? ==> Tracked(es[..i + 1], demand, t')
  {
    TablesDecideStep(es, i, demand, name, Run, t);
    error, t' := StartTest(demand, name, t);
    if error.None? {
      RunKeepsTrack(es[..i], es[i], demand, name, t);
      assert es[..i + 1] == es[..i] + [es[i]];
    }
  }

  method HandleToggle(es: seq<Event>, i: nat, demand: Demand, name: string, k: Kind, t: Tables)
    returns (error: Option<string>, t': Tables)
    requires Ready(es, i, demand, t) && IsStep(es[i], name, k) && (k == Pause || k == Cont)
    ensures error.None? <==> EventOk(es, i, demand)
    ensures error.None? ==> Tracked(es[..i + 1], demand, t')
  {
    t' := t;
    TablesDecideStep(es, i, demand, name, k, t);
    assert es[..i + 1] == es[..i] + [es[i]];
    var expected := if k == Pause then Running else Paused;
    if name !in t.active || t.active[name] != expected { return Some("invalid parallel test transition"), t'; }
    StepKeepsTrack(es[..i], es[i], demand, name, k, t);
    t' := t'.(active := t.active[name := if k == Pause then Paused else Running]);
    return None, t';
  }

  method HandlePass(es: seq<Event>, i: nat, demand: Demand, name: string, t: Tables)
    returns (error: Option<string>, t': Tables)
    requires Ready(es, i, demand, t) && IsStep(es[i], name, Pass)
    ensures error.None? <==> EventOk(es, i, demand)
    ensures error.None? ==> Tracked(es[..i + 1], demand, t')
  {
    t' := t;
    TablesDecideStep(es, i, demand, name, Pass, t);
    assert es[..i + 1] == es[..i] + [es[i]];
    if name !in t.active || t.active[name] != Running { return Some("test passed without a running invocation"), t'; }
    if !IsSubtest(name) && Count(t.children, name) != 0 { return Some("test passed with unfinished subtests"), t'; }
    StepKeepsTrack(es[..i], es[i], demand, name, Pass, t);
    t' := t'.(active := t.active - {name}, children := t.children - {name});
    if IsSubtest(name) { t' := t'.(children := t'.children[Root(name) := Count(t'.children, Root(name)) - 1]); }
    if name in demand.required {
      t' := t'.(passed := t.passed[name := Count(t.passed, name) + 1]);
      if t'.passed[name] > demand.repeats { return Some("excess targeted test repetition"), t'; }
    }
    return None, t';
  }

  /** Everything after the package start. Some(true) is the package's own pass. */
  method HandleEvent(es: seq<Event>, i: nat, demand: Demand, action: string, t: Tables)
    returns (error: Option<string>, t': Tables)
    requires Ready(es, i, demand, t) && es[i].action == Text(action)
    ensures error.None? <==> EventOk(es, i, demand)
    ensures error.None? ==> Tracked(es[..i + 1], demand, t')
  {
    var e := es[i];
    t' := t;
    assert es[..i + 1] == es[..i] + [e];
    if action == "output" {
      NoStepKeeps(es[..i], e, demand, t.active, t.passed);
      if !e.output.Text? { return Some("invalid test output event"), t'; }
      return None, t';
    }
    if e.test.Absent? {
      NoStepKeeps(es[..i], e, demand, t.active, t.passed);
      if action == "pass" {
        if t.active != map[] { return Some("package passed with unfinished tests"), t'; }
        return None, t';
      }
      return Some("test event without identity"), t';
    }
    match KindOf(action) {
      case Some(Run) => error, t' := HandleRun(es, i, demand, e.test.text, t);
      case Some(Pass) => error, t' := HandlePass(es, i, demand, e.test.text, t);
      case Some(k) => error, t' := HandleToggle(es, i, demand, e.test.text, k, t);
      case None => return Some("unsupported test event action"), t';
    }
  }

  /** One turn of the loop. */
  method ReadEvent(es: seq<Event>, i: nat, demand: Demand, started: bool, ended: bool, t: Tables)
    returns (error: Option<string>, t': Tables)
    requires i < |es| && Tracked(es[..i], demand, t) && WithinBudget(es[..i], demand)
    requires started == (i > 0) && ended == (i > 0 && IsPackagePass(es[i - 1]))
    ensures error.None? <==> EventOk(es, i, demand)
    ensures error.None? ==> Tracked(es[..i + 1], demand, t')
  {
    var e := es[i];
    t' := t;
    if !Identified(e, demand.package) { return Some("invalid test event identity"), t'; }
    if ended { return Some("event after terminal package result"), t'; }
    var action := e.action.text;
    if action == "skip" || action == "fail" || action == "build-fail" {
      return Some("required test was skipped or failed"), t';
    }
    if action == "start" {
      if started || !e.test.Absent? { return Some("duplicate or invalid package start"), t'; }
      NoStepKeeps(es[..i], e, demand, t.active, t.passed);
      assert es[..i + 1] == es[..i] + [e];
      return None, t';
    }
    if !started { return Some("missing package start"), t'; }
    error, t' := HandleEvent(es, i, demand, action, t);
  }

  /** After the package's own pass nothing is live. */
  lemma {:induction false} EndedIsIdle(es: seq<Event>, demand: Demand)
    requires es != [] && AllOk(es, demand) && IsPackagePass(es[|es| - 1])
    ensures AllIdle(es)
  {
    assert EventOk(es, |es| - 1, demand);
    PackageEventKeepsStatus(es);
  }

  method Verify(es: seq<Event>, demand: Demand) returns (verdict: Verdict)
    ensures verdict.Accepted? <==> Conforms(es, demand)
  {
    if !demand.Valid() { return Rejected("explicit package and top-level test set required"); }
    ConformsExactlyAllOk(es, demand);
    var t := Tables(map[], map[], {}, map[]);
    var started, ended := false, false;
    var i := 0;
    while i < |es|
      invariant 0 <= i <= |es|
      invariant forall j | 0 <= j < i :: EventOk(es, j, demand)
      invariant started == (i > 0) && ended == (i > 0 && IsPackagePass(es[i - 1]))
      invariant Tracked(es[..i], demand, t)
      invariant WithinBudget(es[..i], demand)
    {
      var error, t' := ReadEvent(es, i, demand, started, ended, t);
      if error.Some? { return Rejected(error.value); }
      t := t';
      started := true;
      ended := IsPackagePass(es[i]);
      i := i + 1;
    }
    assert es[..i] == es;
    if ended { EndedIsIdle(es, demand); }
    if !ended || t.active != map[] || exists name :: name in demand.required && Count(t.passed, name) != demand.repeats {
      return Rejected("missing complete targeted success events");
    }
    return Accepted;
  }
}

/** The same language told event by event: what each event needs of the history before it. */
module TestLogHistory {
  import opened Options
  import opened TestLogSpec

  datatype Mode = Idle | Running | Paused

  function After(k: Kind): Mode {
    match k
    case Run => Running
    case Pause => Paused
    case Cont => Running
    case Pass => Idle
  }

  /** The only mode a step may start from. */
  function Before(k: Kind): Mode {
    match k
    case Run => Idle
    case Pause => Running
    case Cont => Paused
    case Pass => Running
  }

  /** The mode of a test is what its last step left. */
  function Status(es: seq<Event>, name: string): Mode {
    if es == [] then Idle
    else
      var e := es[|es| - 1];
      if IsStepOf(e, name) then After(KindOf(e.action.text).value) else Status(es[..|es| - 1], name)
  }

  ghost predicate Flow(es: seq<Event>, name: string) {
    forall i | 0 <= i < |es| && IsStepOf(es[i], name) ::
      Status(es[..i], name) == Before(KindOf(es[i].action.text).value)
  }

  // ---- one test: legal steps from idle to idle are exactly whole invocations ----

  /** The mode step `i` finds. */
  function Prior(p: seq<Kind>, i: nat): Mode
    requires i <= |p|
  {
    if i == 0 then Idle else After(p[i - 1])
  }

  function EndMode(p: seq<Kind>): Mode {
    Prior(p, |p|)
  }

  ghost predicate Legal(p: seq<Kind>) {
    forall i | 0 <= i < |p| :: Before(p[i]) == Prior(p, i)
  }

  lemma {:induction false} TraceEndsInStatus(es: seq<Event>, name: string)
    ensures EndMode(Trace(es, name)) == Status(es, name)
  {
    if es != [] {
      TraceEndsInStatus(es[..|es| - 1], name);
    }
  }

  lemma {:induction false} TraceIsLegalExactlyWhenFlow(es: seq<Event>, name: string)
    ensures Legal(Trace(es, name)) <==> Flow(es, name)
  {
    if es != [] {
      var init, e := es[..|es| - 1], es[|es| - 1];
      TraceIsLegalExactlyWhenFlow(init, name);
      TraceEndsInStatus(init, name);
      FlowOfInit(es, name);
      if IsStepOf(e, name) {
        LegalSnoc(Trace(init, name), KindOf(e.action.text).value);
      } else {
        assert Trace(es, name) == Trace(init, name);
      }
    }
  }

  lemma {:induction false} FlowOfInit(es: seq<Event>, name: string)
    requires es != []
    ensures
      var init, e := es[..|es| - 1], es[|es| - 1];
      Flow(es, name) <==>
        (Flow(init, name) && (IsStepOf(e, name) ==> Status(init, name) == Before(KindOf(e.action.text).value)))
  {
    var init := es[..|es| - 1];
    assert forall i | 0 <= i < |init| :: init[..i] == es[..i] && init[i] == es[i];
  }

  lemma {:induction false} LegalSnoc(p: seq<Kind>, k: Kind)
    ensures Legal(p + [k]) <==> Legal(p) && Before(k) == EndMode(p)
  {
    var q := p + [k];
    assert q[|p|] == k && forall i | 0 <= i < |p| :: q[i] == p[i];
  }

  lemma {:induction false} LegalSuffix(p: seq<Kind>, k: nat)
    requires Legal(p) && k <= |p| && EndMode(p[..k]) == Idle
    ensures Legal(p[k..]) && (k < |p| ==> EndMode(p[k..]) == EndMode(p))
  {
    var q := p[k..];
    forall i | 0 <= i < |q| ensures Before(q[i]) == Prior(q, i) {
      assert Before(p[k + i]) == Prior(p, k + i);
      assert q[i] == p[k + i];
      if i > 0 {
        assert q[i - 1] == p[k + i - 1];
      } else if k > 0 {
        assert p[..k][k - 1] == p[k - 1];
      }
    }
  }

  /** Up to its first pass, a legal trace alternates pause and cont. */
  lemma {:induction false} Alternates(p: seq<Kind>, k: nat)
    requires Legal(p) && 0 < k < |p| && forall i | 0 <= i < k :: p[i] != Pass
    ensures p[0] == Run && forall i | 0 < i <= k :: p[i] == Pass || p[i] == if i % 2 == 1 then Pause else Cont
    ensures p[k] == Pass ==> k % 2 == 1
  {
    if k == 1 {
      assert Before(p[0]) == Prior(p, 0) && Before(p[1]) == Prior(p, 1);
    } else {
      Alternates(p, k - 1);
      assert Before(p[k]) == Prior(p, k);
    }
  }

  lemma {:induction false} FirstPass(p: seq<Kind>) returns (k: nat)
    requires p != [] && p[|p| - 1] == Pass
    ensures k < |p| && p[k] == Pass && forall i | 0 <= i < k :: p[i] != Pass
  {
    k := 0;
    while p[k] != Pass
      invariant k < |p| && forall i | 0 <= i < k :: p[i] != Pass
      decreases |p| - k
    {
      k := k + 1;
    }
  }

  lemma {:induction false} LegalIdleIsInvocations(p: seq<Kind>)
    requires Legal(p) && EndMode(p) == Idle
    ensures Invocations(p)
    decreases |p|
  {
    if p != [] {
      var k := FirstPass(p);
      assert Before(p[0]) == Prior(p, 0);
      Alternates(p, k);
      assert OneInvocation(p[..k + 1]);
      LegalSuffix(p, k + 1);
      LegalIdleIsInvocations(p[k + 1..]);
    }
  }

  lemma {:induction false} OneInvocationIsLegal(q: seq<Kind>)
    requires OneInvocation(q)
    ensures Legal(q) && EndMode(q) == Idle
  {
    forall i | 0 < i < |q| ensures Before(q[i]) == Prior(q, i) {
      if i < |q| - 1 { assert q[i] == if i % 2 == 1 then Pause else Cont; }
      if i > 1 { assert q[i - 1] == if (i - 1) % 2 == 1 then Pause else Cont; }
    }
  }

  lemma {:induction false} LegalConcat(a: seq<Kind>, b: seq<Kind>)
    requires Legal(a) && Legal(b) && EndMode(a) == EndMode(b) == Idle
    ensures Legal(a + b) && EndMode(a + b) == Idle
  {
    var q := a + b;
    forall i | 0 <= i < |q| ensures Before(q[i]) == Prior(q, i) {
      if i >= |a| { assert q[i] == b[i - |a|]; }
    }
    if b == [] { assert q == a; }
  }

  lemma {:induction false} FirstInvocation(p: seq<Kind>) returns (k: nat)
    requires Invocations(p) && p != []
    ensures 0 < k <= |p| && OneInvocation(p[..k]) && Invocations(p[k..])
  {
    k :| 0 < k <= |p| && OneInvocation(p[..k]) && Invocations(p[k..]);
  }

  lemma {:induction false} InvocationThenLegal(p: seq<Kind>, k: nat)
    requires k <= |p| && OneInvocation(p[..k]) && Legal(p[k..]) && EndMode(p[k..]) == Idle
    ensures Legal(p) && EndMode(p) == Idle
  {
    OneInvocationIsLegal(p[..k]);
    LegalConcat(p[..k], p[k..]);
    assert p == p[..k] + p[k..];
  }

  lemma {:induction false} InvocationsAreLegal(p: seq<Kind>)
    requires Invocations(p)
    ensures Legal(p) && EndMode(p) == Idle
    decreases |p|
  {
    if p != [] {
      var k := FirstInvocation(p);
      InvocationsAreLegal(p[k..]);
      InvocationThenLegal(p, k);
    }
  }

  /** For one name: the grammar holds exactly when every step was legal and the test ended idle. */
  lemma {:induction false} InvocationsExactlyFlow(es: seq<Event>, name: string)
    ensures Invocations(Trace(es, name)) <==> Flow(es, name) && Status(es, name) == Idle
  {
    TraceEndsInStatus(es, name);
    TraceIsLegalExactlyWhenFlow(es, name);
    var p := Trace(es, name);
    if Invocations(p) {
      InvocationsAreLegal(p);
    } else if Legal(p) && EndMode(p) == Idle {
      LegalIdleIsInvocations(p);
    }
  }

  // ---- nesting: intervals inside intervals are exactly live roots and childless passes ----

  ghost predicate Quiet(es: seq<Event>, name: string, i: nat, n: nat)
    requires n <= |es|
  {
    forall k | i < k < n :: !IsStep(es[k], name, Run) && !IsStep(es[k], name, Pass)
  }

  lemma {:induction false} StaysLive(es: seq<Event>, name: string, i: nat)
    requires i < |es| && IsStep(es[i], name, Run) && Quiet(es, name, i, |es|)
    ensures Status(es, name) != Idle
    decreases |es|
  {
    if i < |es| - 1 {
      var init := es[..|es| - 1];
      assert forall k | i < k < |init| :: init[k] == es[k];
      StaysLive(init, name, i);
    }
  }

  lemma {:induction false} OpenedAt(es: seq<Event>, name: string) returns (i: nat)
    requires Flow(es, name) && Status(es, name) != Idle
    ensures i < |es| && IsStep(es[i], name, Run) && Quiet(es, name, i, |es|)
    decreases |es|
  {
    var init, e := es[..|es| - 1], es[|es| - 1];
    FlowOfInit(es, name);
    if IsStep(e, name, Run) {
      i := |es| - 1;
    } else {
      i := OpenedAt(init, name);
      forall k | i < k < |es| ensures !IsStep(es[k], name, Run) && !IsStep(es[k], name, Pass) {
        if k < |init| { assert init[k] == es[k]; }
      }
    }
  }

  lemma {:induction false} ClosedAt(es: seq<Event>, name: string, i: nat) returns (j: nat)
    requires Flow(es, name) && Status(es, name) == Idle && i < |es| && IsStep(es[i], name, Run)
    ensures Interval(es, name, i, j)
  {
    j := i + 1;
    while j < |es| && !IsStep(es[j], name, Run) && !IsStep(es[j], name, Pass)
      invariant i < j <= |es| && Quiet(es, name, i, j)
    {
      j := j + 1;
    }
    if j == |es| {
      StaysLive(es, name, i);
    } else {
      assert forall k | i <= k < j :: es[..j][k] == es[k];
      StaysLive(es[..j], name, i);
    }
  }

  /** A subtest starts only under a live top-level test; a top-level test passes only with no live subtest. */
  ghost predicate FamilyOk(es: seq<Event>, i: nat)
    requires i < |es|
  {
    && (forall name | IsSubtest(name) && IsStep(es[i], name, Run) :: Status(es[..i], Root(name)) != Idle)
    && (forall name | IsSubtest(name) && IsStep(es[i], Root(name), Pass) :: Status(es[..i], name) == Idle)
  }

  ghost predicate AllComplete(es: seq<Event>) {
    forall name :: Flow(es, name) && Status(es, name) == Idle
  }

  lemma {:induction false} FlowOfPrefix(es: seq<Event>, name: string, n: nat)
    requires Flow(es, name) && n <= |es|
    ensures Flow(es[..n], name)
  {
    assert forall i | 0 <= i < n :: es[..n][i] == es[i] && es[..n][..i] == es[..i];
  }

  lemma {:induction false} RootOpenedBefore(es: seq<Event>, root: string, i: nat) returns (a: nat)
    requires i <= |es| && Flow(es, root) && Status(es[..i], root) != Idle
    ensures a < i && IsStep(es[a], root, Run) && Quiet(es, root, a, i)
  {
    FlowOfPrefix(es, root, i);
    a := OpenedAt(es[..i], root);
    assert forall k | a <= k < i :: es[..i][k] == es[k];
  }

  lemma {:induction false} RootOutlives(es: seq<Event>, name: string, i: nat, j: nat, b: nat)
    requires IsSubtest(name) && Interval(es, name, i, j)
    requires i < b < |es| && IsStep(es[b], Root(name), Pass) && Status(es[..b], name) == Idle
    ensures j < b
  {
    if b < j {
      assert forall k | i <= k < b :: es[..b][k] == es[k];
      StaysLive(es[..b], name, i);
    }
  }

  lemma {:induction false} FamilyEncloses(es: seq<Event>, name: string, i: nat, j: nat)
    requires AllComplete(es) && forall k | 0 <= k < |es| :: FamilyOk(es, k)
    requires IsSubtest(name) && Interval(es, name, i, j)
    ensures Enclosed(es, Root(name), i, j)
  {
    var root := Root(name);
    assert FamilyOk(es, i);
    assert Flow(es, root) && Status(es, root) == Idle;
    var a := RootOpenedBefore(es, root, i);
    var b := ClosedAt(es, root, a);
    assert i < b;
    assert FamilyOk(es, b);
    RootOutlives(es, name, i, j, b);
  }

  lemma {:induction false} EnclosedRootIsLive(es: seq<Event>, name: string, i: nat)
    requires AllComplete(es) && Nested(es)
    requires i < |es| && IsSubtest(name) && IsStep(es[i], name, Run)
    ensures Status(es[..i], Root(name)) != Idle
  {
    assert Flow(es, name) && Status(es, name) == Idle;
    var j := ClosedAt(es, name, i);
    assert Enclosed(es, Root(name), i, j);
    var a: nat, b: nat :| a < i && j < b && Interval(es, Root(name), a, b);
    assert forall k | a <= k < i :: es[..i][k] == es[k];
    StaysLive(es[..i], Root(name), a);
  }

  lemma {:induction false} PassLeavesNoSubtest(es: seq<Event>, name: string, k: nat)
    requires AllComplete(es) && Nested(es)
    requires k < |es| && IsSubtest(name) && IsStep(es[k], Root(name), Pass)
    ensures Status(es[..k], name) == Idle
  {
    if Status(es[..k], name) != Idle {
      assert Flow(es, name) && Status(es, name) == Idle;
      FlowOfPrefix(es, name, k);
      var i := OpenedAt(es[..k], name);
      assert forall x | i < x < k :: es[..k][x] == es[x];
      var j := ClosedAt(es, name, i);
      assert false;
    }
  }

  /** With every invocation complete, nesting of intervals is exactly the local family condition. */
  lemma {:induction false} NestedExactlyFamilyOk(es: seq<Event>)
    requires AllComplete(es)
    ensures Nested(es) <==> forall k | 0 <= k < |es| :: FamilyOk(es, k)
  {
    if Nested(es) {
      forall k | 0 <= k < |es| ensures FamilyOk(es, k) {
        forall name | IsSubtest(name) && IsStep(es[k], name, Run) ensures Status(es[..k], Root(name)) != Idle {
          EnclosedRootIsLive(es, name, k);
        }
        forall name | IsSubtest(name) && IsStep(es[k], Root(name), Pass) ensures Status(es[..k], name) == Idle {
          PassLeavesNoSubtest(es, name, k);
        }
      }
    } else if forall k | 0 <= k < |es| :: FamilyOk(es, k) {
      forall name, i: nat, j: nat | IsSubtest(name) && Interval(es, name, i, j) ensures Enclosed(es, Root(name), i, j) {
        FamilyEncloses(es, name, i, j);
      }
    }
  }

  // ---- the whole stream ----

  /** A named lifecycle step that its history admits. */
  ghost predicate StepOk(es: seq<Event>, i: nat)
    requires i < |es|
  {
    && es[i].test.Text? && IsStepOf(es[i], es[i].test.text)
    && Status(es[..i], es[i].test.text) == Before(KindOf(es[i].action.text).value)
    && FamilyOk(es, i)
  }

  ghost predicate WithinBudget(es: seq<Event>, demand: Demand) {
    |Names(es)| <= MAX_TESTS && forall name | name in demand.required :: Passes(es, name) <= demand.repeats
  }

  ghost predicate AllIdle(es: seq<Event>) {
    forall name :: Status(es, name) == Idle
  }

  /** What event `i` needs of the events before it. */
  ghost predicate EventOk(es: seq<Event>, i: nat, demand: Demand)
    requires i < |es|
  {
    && Identified(es[i], demand.package)
    && (i == 0 ==> IsPackageStart(es[i]))
    && (i > 0 ==> !IsPackagePass(es[i - 1]))
    && (i > 0 ==> IsOutput(es[i]) || (IsPackagePass(es[i]) && AllIdle(es[..i])) || StepOk(es, i))
    && WithinBudget(es[..i + 1], demand)
  }

  ghost predicate AllOk(es: seq<Event>, demand: Demand) {
    forall i | 0 <= i < |es| :: EventOk(es, i, demand)
  }

  ghost predicate Finished(es: seq<Event>, demand: Demand) {
    && es != [] && IsPackagePass(es[|es| - 1])
    && forall name | name in demand.required :: Passes(es, name) == demand.repeats
  }

  lemma {:induction false} PassesGrow(es: seq<Event>, n: nat, name: string)
    requires n <= |es|
    ensures Passes(es[..n], name) <= Passes(es, name)
  {
    if n < |es| {
      var init := es[..|es| - 1];
      PassesGrow(init, n, name);
      assert init[..n] == es[..n];
    } else {
      assert es[..n] == es;
    }
  }

  lemma {:induction false} NamesGrow(es: seq<Event>, n: nat)
    requires n <= |es|
    ensures Names(es[..n]) <= Names(es)
  {
    forall t | t in Names(es[..n]) ensures t in Names(es) {
      var i :| 0 <= i < n && es[..n][i].test.Text? && IsStep(es[..n][i], es[..n][i].test.text, Run) && es[..n][i].test.text == t;
      assert es[i] == es[..n][i];
    }
  }

  lemma {:induction false} SubsetCardinality<T>(a: set<T>, b: set<T>)
    requires a <= b
    ensures |a| <= |b|
  {
    assert b == a + (b - a);
  }

  lemma {:induction false} BudgetOfPrefix(es: seq<Event>, n: nat, demand: Demand)
    requires n <= |es| && WithinBudget(es, demand)
    ensures WithinBudget(es[..n], demand)
  {
    NamesGrow(es, n);
    SubsetCardinality(Names(es[..n]), Names(es));
    forall name | name in demand.required ensures Passes(es[..n], name) <= demand.repeats {
      PassesGrow(es, n, name);
    }
  }

  /** The last event names no test, so it changes no status. */
  lemma {:induction false} PackageEventKeepsStatus(es: seq<Event>)
    requires es != [] && !es[|es| - 1].test.Text?
    ensures AllIdle(es) <==> AllIdle(es[..|es| - 1])
  {
    var init := es[..|es| - 1];
    assert forall name :: Status(es, name) == Status(init, name);
  }

  lemma {:induction false} ConformingEventsAreOk(es: seq<Event>, demand: Demand)
    requires Conforms(es, demand)
    ensures AllOk(es, demand) && Finished(es, demand)
  {
    assert AllComplete(es) by {
      forall name ensures Flow(es, name) && Status(es, name) == Idle { InvocationsExactlyFlow(es, name); }
    }
    NestedExactlyFamilyOk(es);
    forall i | 0 <= i < |es| ensures EventOk(es, i, demand) {
      BudgetOfPrefix(es, i + 1, demand);
      if i == |es| - 1 {
        assert AllIdle(es);
        PackageEventKeepsStatus(es);
      } else if 0 < i && !IsOutput(es[i]) {
        assert Flow(es, es[i].test.text);
        assert FamilyOk(es, i);
      }
    }
  }

  lemma {:induction false} OkEventsFlow(es: seq<Event>, demand: Demand, name: string)
    requires AllOk(es, demand)
    ensures Flow(es, name)
  {
    forall i | 0 <= i < |es| && IsStepOf(es[i], name)
      ensures Status(es[..i], name) == Before(KindOf(es[i].action.text).value)
    {
      assert EventOk(es, i, demand);
    }
  }

  lemma {:induction false} OkEventsConform(es: seq<Event>, demand: Demand)
    requires demand.Valid() && AllOk(es, demand) && Finished(es, demand)
    ensures Conforms(es, demand)
  {
    var n := |es|;
    assert EventOk(es, n - 1, demand) && EventOk(es, 0, demand);
    assert es[..n] == es;
    assert AllIdle(es) by { PackageEventKeepsStatus(es); }
    forall name ensures Flow(es, name) && Status(es, name) == Idle && Invocations(Trace(es, name)) {
      OkEventsFlow(es, demand, name);
      InvocationsExactlyFlow(es, name);
    }
    forall i | 0 <= i < n
      ensures Identified(es[i], demand.package) && FamilyOk(es, i)
      ensures 0 < i < n - 1 ==> IsOutput(es[i]) || (es[i].test.Text? && IsStepOf(es[i], es[i].test.text))
    {
      assert EventOk(es, i, demand);
      if i < n - 1 { assert EventOk(es, i + 1, demand); }
    }
    NestedExactlyFamilyOk(es);
  }

  /** The declarative language is exactly: every event admissible after its history, and the ending right. */
  lemma {:induction false} ConformsExactlyAllOk(es: seq<Event>, demand: Demand)
    ensures Conforms(es, demand) <==> demand.Valid() && AllOk(es, demand) && Finished(es, demand)
  {
    if Conforms(es, demand) {
      ConformingEventsAreOk(es, demand);
    } else if demand.Valid() && AllOk(es, demand) && Finished(es, demand) {
      OkEventsConform(es, demand);
    }
  }
}

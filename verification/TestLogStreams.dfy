/** What the gate makes of the streams a test binary prints: literal events, literal verdicts. */
module TestLogStreams {
  import opened Options
  import opened TestLogSpec
  import opened TestLogHistory

  function Started(package: string): Event { Event(Text("start"), Text(package), Absent, Absent) }

  function Step(action: string, package: string, name: string): Event { Event(Text(action), Text(package), Text(name),
                Absent) }

  function Passed(package: string): Event { Event(Text("pass"), Text(package), Absent, Absent) }

  /** The package's frame around the steps of one test. */
  function OneTest(package: string, name: string, actions: seq<string>): seq<Event> {
    [Started(package)] + Steps(package, name, actions) + [Passed(package)]
  }

  function Steps(package: string, name: string, actions: seq<string>): seq<Event> {
    seq(|actions|, i requires 0 <= i < |actions| => Step(actions[i], package, name))
  }

  predicate Bounded(name: string) {
    name != "" && Utf8Length(name) <= 4096
  }

  /** run (pause cont)* pass */
  ghost predicate RunToPass(actions: seq<string>) {
    && |actions| >= 2 && |actions| % 2 == 0 && actions[0] == "run" && actions[|actions| - 1] == "pass"
    && forall i | 0 < i < |actions| - 1 :: actions[i] == if i % 2 == 1 then "pause" else "cont"
  }

  function KindsOf(actions: seq<string>): seq<Kind>
    requires forall i | 0 <= i < |actions| :: KindOf(actions[i]).Some?
  {
    seq(|actions|, i requires 0 <= i < |actions| => KindOf(actions[i]).value)
  }

  ghost predicate Known(actions: seq<string>) {
    forall i | 0 <= i < |actions| :: KindOf(actions[i]).Some?
  }

  lemma {:induction false} TraceOfSteps(package: string, name: string, actions: seq<string>)
    requires Known(actions)
    ensures Trace([Started(package)] + Steps(package, name, actions), name) == KindsOf(actions)
    ensures forall other | other != name :: Trace([Started(package)] + Steps(package, name, actions), other) == []
  {
    var es := [Started(package)] + Steps(package, name, actions);
    if actions != [] {
      var init := actions[..|actions| - 1];
      TraceOfSteps(package, name, init);
      assert es[..|es| - 1] == [Started(package)] + Steps(package, name, init);
      assert es[|es| - 1] == Step(actions[|actions| - 1], package, name);
      assert KindsOf(actions) == KindsOf(init) + [KindOf(actions[|actions| - 1]).value];
    } else {
      assert es[..0] == [] && es[0] == Started(package);
    }
  }

  lemma {:induction false} TraceOfTest(package: string, name: string, actions: seq<string>)
    requires Known(actions)
    ensures Trace(OneTest(package, name, actions), name) == KindsOf(actions)
    ensures forall other | other != name :: Trace(OneTest(package, name, actions), other) == []
  {
    var es := OneTest(package, name, actions);
    TraceOfSteps(package, name, actions);
    assert es[..|es| - 1] == [Started(package)] + Steps(package, name, actions) && es[|es| - 1] == Passed(package);
  }

  function PassesIn(p: seq<Kind>): nat {
    if p == [] then 0 else PassesIn(p[..|p| - 1]) + if p[|p| - 1] == Pass then 1 else 0
  }

  lemma {:induction false} PassesOfTrace(es: seq<Event>, name: string)
    ensures Passes(es, name) == PassesIn(Trace(es, name))
  {
    if es != [] {
      PassesOfTrace(es[..|es| - 1], name);
      var e := es[|es| - 1];
      if IsStepOf(e, name) {
        var t := Trace(es, name);
        assert t[..|t| - 1] == Trace(es[..|es| - 1], name);
      } else {
        assert Trace(es, name) == Trace(es[..|es| - 1], name);
      }
    }
  }

  lemma {:induction false} PassesConcat(a: seq<Kind>, b: seq<Kind>)
    ensures PassesIn(a + b) == PassesIn(a) + PassesIn(b)
  {
    if b == [] {
      assert a + b == a;
    } else {
      assert (a + b)[..|a + b| - 1] == a + b[..|b| - 1];
      PassesConcat(a, b[..|b| - 1]);
    }
  }

  lemma {:induction false} NoPasses(p: seq<Kind>)
    requires forall i | 0 <= i < |p| :: p[i] != Pass
    ensures PassesIn(p) == 0
  {
    if p != [] { NoPasses(p[..|p| - 1]); }
  }

  lemma {:induction false} OneInvocationPassesOnce(p: seq<Kind>)
    requires OneInvocation(p)
    ensures PassesIn(p) == 1
  {
    NoPasses(p[..|p| - 1]);
  }

  /** Whole invocations with one pass among them are one invocation. */
  lemma {:induction false} OnePassIsOneInvocation(p: seq<Kind>)
    ensures Invocations(p) && PassesIn(p) == 1 <==> OneInvocation(p)
  {
    if OneInvocation(p) {
      OneInvocationPassesOnce(p);
      assert p[..|p|] == p && p[|p|..] == [];
    }
    if Invocations(p) && PassesIn(p) == 1 {
      var k := FirstInvocation(p);
      PassedFirst(p[..k], p[k..], p);
      if k < |p| { AtLeastOnePass(p[k..]); }
      assert p[..|p|] == p;
    }
  }

  lemma {:induction false} AtLeastOnePass(p: seq<Kind>)
    requires Invocations(p) && p != []
    ensures PassesIn(p) >= 1
  {
    var k := FirstInvocation(p);
    PassedFirst(p[..k], p[k..], p);
  }

  lemma {:induction false} PassedFirst(first: seq<Kind>, rest: seq<Kind>, p: seq<Kind>)
    requires OneInvocation(first) && p == first + rest
    ensures PassesIn(p) == 1 + PassesIn(rest)
  {
    OneInvocationPassesOnce(first);
    PassesConcat(first, rest);
  }

  lemma {:induction false} KindsExactly(actions: seq<string>)
    requires Known(actions)
    ensures OneInvocation(KindsOf(actions)) <==> RunToPass(actions)
  {
    var p := KindsOf(actions);
    forall i | 0 <= i < |p|
      ensures p[i] == Run <==> actions[i] == "run"
      ensures p[i] == Pause <==> actions[i] == "pause"
      ensures p[i] == Cont <==> actions[i] == "cont"
      ensures p[i] == Pass <==> actions[i] == "pass"
    {
    }
  }

  lemma {:induction false} FramedExactly(package: string, name: string, actions: seq<string>)
    requires Bounded(name)
    ensures Framed(OneTest(package, name, actions), package) <==> Known(actions)
  {
    var es := OneTest(package, name, actions);
    assert es[0] == Started(package) && es[|es| - 1] == Passed(package);
    forall i | 0 <= i < |actions| ensures es[i + 1] == Step(actions[i], package, name) {}
    if Framed(es, package) {
      forall i | 0 <= i < |actions| ensures KindOf(actions[i]).Some? {
        assert IsOutput(es[i + 1]) || IsStepOf(es[i + 1], es[i + 1].test.text);
      }
    }
  }

  lemma {:induction false} OnlyItsName(package: string, name: string, actions: seq<string>)
    requires !IsSubtest(name)
    ensures Nested(OneTest(package, name, actions)) && |Names(OneTest(package, name, actions))| <= 1
  {
    var es := OneTest(package, name, actions);
    forall i | 0 <= i < |es| && es[i].test.Text? ensures es[i].test.text == name {
      assert es[i] == Step(actions[i - 1], package, name);
    }
    assert Names(es) <= {name};
    SubsetCardinality(Names(es), {name});
  }

  /** One repetition of one top-level test: the gate accepts exactly a run, pauses each followed by a cont, and a
      pass. */
  lemma {:induction false} OneTestExactly(package: string, name: string, actions: seq<string>)
    requires package != "" && Bounded(name) && !IsSubtest(name)
    ensures Conforms(OneTest(package, name, actions), Demand(1, {name}, package)) <==> RunToPass(actions)
  {
    var es := OneTest(package, name, actions);
    FramedExactly(package, name, actions);
    OnlyItsName(package, name, actions);
    if Known(actions) {
      TraceOfTest(package, name, actions);
      PassesOfTrace(es, name);
      OnePassIsOneInvocation(KindsOf(actions));
      KindsExactly(actions);
      if Invocations(KindsOf(actions)) {
        forall other ensures Invocations(Trace(es, other)) {
          if other != name { assert Trace(es, other) == []; }
        }
      }
    }
  }

  /** The places where a test passes. */
  ghost function PassPlaces(es: seq<Event>, name: string): set<nat> {
    set i: nat | i < |es| && es[i].action == Text("pass") && es[i].test == Text(name)
  }

  /** Repetitions are counted by the passes of exactly that test. */
  lemma {:induction false} PassesExactly(es: seq<Event>, name: string)
    ensures Passes(es, name) == |PassPlaces(es, name)|
  {
    if es != [] {
      var init, last := es[..|es| - 1], |es| - 1;
      PassesExactly(init, name);
      assert forall i | 0 <= i < last :: init[i] == es[i];
      assert PassPlaces(es, name) - {last} == PassPlaces(init, name);
      if last in PassPlaces(es, name) { assert PassPlaces(es, name) == PassPlaces(init, name) + {last}; }
    }
  }

  // ---- a test inside another ----

  function KindsAt(e: Event, name: string): seq<Kind> {
    if IsStepOf(e, name) then [KindOf(e.action.text).value] else []
  }

  lemma {:induction false} TraceSnoc(es: seq<Event>, e: Event, name: string)
    ensures Trace(es + [e], name) == Trace(es, name) + KindsAt(e, name)
  {
    assert (es + [e])[..|es|] == es;
  }

  lemma {:induction false} TraceOfThree(es: seq<Event>, e: Event, f: Event, g: Event, name: string)
    ensures Trace(es + [e, f, g], name) == Trace(es, name) + (KindsAt(e, name) + (KindsAt(f, name) + KindsAt(g, name)))
  {
    TraceSnoc(es, e, name);
    TraceSnoc(es + [e], f, name);
    TraceSnoc(es + [e] + [f], g, name);
    assert es + [e, f, g] == es + [e] + [f] + [g];
  }

  /** `inner` runs and passes while `outer` is running. */
  function Inside(package: string, outer: string, inner: string): seq<Event> {
    [Started(package), Step("run", package, outer), Step("run", package, inner), Step("pass", package, inner),
     Step("pass", package, outer), Passed(package)]
  }

  lemma {:induction false} TraceOfSix(a: Event, b: Event, c: Event, d: Event, e: Event, f: Event, name: string)
    ensures Trace([a, b, c, d, e, f], name)
         == KindsAt(a, name) + (KindsAt(b, name) + KindsAt(c, name)) + (KindsAt(d, name) + (KindsAt(e, name) + KindsAt(f, name)))
  {
    TraceOfThree([], a, b, c, name);
    assert [] + [a, b, c] == [a, b, c];
    TraceOfThree([a, b, c], d, e, f, name);
    assert [a, b, c] + [d, e, f] == [a, b, c, d, e, f];
  }

  lemma {:induction false} TracesInside(package: string, outer: string, inner: string, name: string)
    requires outer != inner
    ensures Trace(Inside(package, outer, inner), name) == if name == outer || name == inner then [Run, Pass] else []
  {
    TraceOfSix(Started(package), Step("run", package, outer), Step("run", package, inner), Step("pass", package, inner),
               Step("pass", package, outer), Passed(package), name);
  }

  lemma {:induction false} NestedInside(package: string, outer: string, inner: string)
    requires outer != inner && !IsSubtest(outer)
    ensures Nested(Inside(package, outer, inner)) <==> !IsSubtest(inner) || Root(inner) == outer
  {
    var es := Inside(package, outer, inner);
    assert Interval(es, outer, 1, 4) && Interval(es, inner, 2, 3);
    forall name, i: nat, j: nat | Interval(es, name, i, j) ensures (name == outer && i == 1 && j == 4) || (name == inner && i == 2 && j == 3) {
      assert i in [0, 1, 2, 3, 4, 5];
    }
    if Nested(es) && IsSubtest(inner) {
      assert Enclosed(es, Root(inner), 2, 3);
    }
  }

  /** A subtest is accepted inside a top-level test exactly when its name begins with that test's name and a slash;
      a top-level test may run inside any other. */
  lemma {:induction false} InsideExactly(package: string, outer: string, inner: string)
    requires package != "" && Bounded(outer) && Bounded(inner) && !IsSubtest(outer) && outer != inner
    ensures Conforms(Inside(package, outer, inner), Demand(1, {outer}, package)) <==> !IsSubtest(inner) || outer + "/" <= inner
  {
    NestedInside(package, outer, inner);
    if IsSubtest(inner) { RootExactly(inner, outer); }
    FramedInside(package, outer, inner);
    InvokedInside(package, outer, inner);
  }

  lemma {:induction false} FramedInside(package: string, outer: string, inner: string)
    requires Bounded(outer) && Bounded(inner)
    ensures Framed(Inside(package, outer, inner), package) && |Names(Inside(package, outer, inner))| <= 2
  {
    var es := Inside(package, outer, inner);
    forall i | 0 <= i < |es| && es[i].test.Text? ensures es[i].test.text == outer || es[i].test.text == inner {}
    assert Names(es) <= {outer, inner};
    SubsetCardinality(Names(es), {outer, inner});
  }

  lemma {:induction false} InvokedInside(package: string, outer: string, inner: string)
    requires outer != inner
    ensures forall name :: Invocations(Trace(Inside(package, outer, inner), name))
    ensures Passes(Inside(package, outer, inner), outer) == 1
  {
    OneRun();
    forall name ensures Invocations(Trace(Inside(package, outer, inner), name)) {
      TracesInside(package, outer, inner, name);
    }
    TracesInside(package, outer, inner, outer);
    PassesOfTrace(Inside(package, outer, inner), outer);
  }

  lemma {:induction false} OneRun()
    ensures Invocations([Run, Pass]) && PassesIn([Run, Pass]) == 1
  {
    OnePassIsOneInvocation([Run, Pass]);
  }
}

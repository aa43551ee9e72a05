/** What a complete test-event stream is, stated over the whole stream without running anything. */
module TestLogSpec {
  import opened Options

  /** The JSON value of one event member, as far as the gate looks at it. */
  datatype Field = Absent | Text(text: string) | Other

  datatype Event = Event(action: Field, package: Field, test: Field, output: Field)

  const MAX_TESTS: nat := 10_000
  const MAX_NAME_BYTES: nat := 4096

  function Utf8Width(c: char): nat {
    if c as int < 0x80 then 1 else if c as int < 0x800 then 2 else if c as int < 0x1_0000 then 3 else 4
  }

  function Utf8Length(s: string): nat {
    if s == "" then 0 else Utf8Width(s[0]) + Utf8Length(s[1..])
  }

  /** The bytes of UTF-8 (section 3 of RFC 3629): they add up, and a character has one byte below 128, two below 2048,
      three below 65536 and four above. */
  lemma {:induction false} Utf8Exactly(a: string, b: string, c: char)
    ensures Utf8Length(a + b) == Utf8Length(a) + Utf8Length(b)
    ensures Utf8Length([c]) == 1 <==> c as int < 128
    ensures Utf8Length([c]) <= 2 <==> c as int < 2048
    ensures Utf8Length([c]) <= 3 <==> c as int < 65536
    ensures 1 <= Utf8Length([c]) <= 4
  {
    assert Utf8Length([c]) == Utf8Width(c) + Utf8Length([]);
    if a == "" {
      assert a + b == b;
    } else {
      assert (a + b)[1..] == a[1..] + b;
      Utf8Exactly(a[1..], b, c);
    }
  }

  predicate IsSubtest(name: string) {
    '/' in name
  }

  /** The top-level test a name belongs to: everything before the first slash. */
  function Root(name: string): (r: string)
    ensures !IsSubtest(r)
    ensures r == name <==> !IsSubtest(name)
  {
    if name == "" || name[0] == '/' then "" else [name[0]] + Root(name[1..])
  }

  /** The root of a subtest is what stands before its first slash. */
  lemma {:induction false} RootIsBeforeSlash(name: string) returns (k: nat)
    requires IsSubtest(name)
    ensures k < |name| && name[k] == '/' && '/' !in name[..k] && Root(name) == name[..k]
  {
    if name[0] == '/' {
      k := 0;
    } else {
      assert IsSubtest(name[1..]);
      var j := RootIsBeforeSlash(name[1..]);
      k := j + 1;
      assert name[..k] == [name[0]] + name[1..][..j];
    }
  }

  lemma {:induction false} OneFirstSlash(name: string, j: nat, k: nat)
    requires j < |name| && name[j] == '/' && '/' !in name[..j]
    requires k < |name| && name[k] == '/' && '/' !in name[..k]
    ensures j == k
  {
    assert forall i | 0 <= i < j :: name[..j][i] == name[i];
    assert forall i | 0 <= i < k :: name[..k][i] == name[i];
  }

  /** A name belongs to a top-level test exactly when that is its beginning up to a slash. */
  lemma {:induction false} RootExactly(name: string, top: string)
    requires IsSubtest(name) && !IsSubtest(top)
    ensures Root(name) == top <==> top + "/" <= name
  {
    var k := RootIsBeforeSlash(name);
    if top + "/" <= name {
      assert (top + "/")[|top|] == '/' && (top + "/")[..|top|] == top == name[..|top|];
      OneFirstSlash(name, |top|, k);
    } else {
      assert name[..k + 1] == name[..k] + "/";
    }
  }

  /** What the caller asked for. */
  datatype Demand = Demand(repeats: int, required: set<string>, package: string)
  {
    predicate Valid() {
      && 1 <= repeats <= 20
      && required != {}
      && (forall name | name in required :: name != "" && !IsSubtest(name))
      && package != ""
    }
  }

  /** Right package and, when a test is named at all, a bounded non-empty name. */
  predicate Identified(e: Event, package: string) {
    && e.action.Text?
    && e.package == Text(package)
    && (e.test.Absent? || (e.test.Text? && e.test.text != "" && Utf8Length(e.test.text) <= MAX_NAME_BYTES))
  }

  datatype Kind = Run | Pause | Cont | Pass

  function KindOf(action: string): Option<Kind> {
    if action == "run" then Some(Run)
    else if action == "pause" then Some(Pause)
    else if action == "cont" then Some(Cont)
    else if action == "pass" then Some(Pass)
    else None
  }

  /** The event is a lifecycle step of the test `name`. */
  predicate IsStepOf(e: Event, name: string) {
    e.test == Text(name) && e.action.Text? && KindOf(e.action.text).Some?
  }

  predicate IsStep(e: Event, name: string, k: Kind) {
    IsStepOf(e, name) && KindOf(e.action.text).value == k
  }

  predicate IsPackageStart(e: Event) {
    e.action == Text("start") && e.test.Absent?
  }

  predicate IsPackagePass(e: Event) {
    e.action == Text("pass") && e.test.Absent?
  }

  predicate IsOutput(e: Event) {
    e.action == Text("output") && e.output.Text?
  }

  /** One package start first, one package pass last, and only output and named steps in between. */
  ghost predicate Framed(es: seq<Event>, package: string) {
    && |es| >= 2
    && (forall i | 0 <= i < |es| :: Identified(es[i], package))
    && IsPackageStart(es[0])
    && IsPackagePass(es[|es| - 1])
    && (forall i | 0 < i < |es| - 1 :: IsOutput(es[i]) || (es[i].test.Text? && IsStepOf(es[i], es[i].test.text)))
  }

  /** The lifecycle steps of one name, in order. */
  function Trace(es: seq<Event>, name: string): seq<Kind> {
    if es == [] then []
    else
      var e := es[|es| - 1];
      Trace(es[..|es| - 1], name) + if IsStepOf(e, name) then [KindOf(e.action.text).value] else []
  }

  /** run (pause cont)* pass */
  ghost predicate OneInvocation(p: seq<Kind>) {
    && |p| >= 2 && |p| % 2 == 0
    && p[0] == Run && p[|p| - 1] == Pass
    && (forall i | 0 < i < |p| - 1 :: p[i] == if i % 2 == 1 then Pause else Cont)
  }

  /** (run (pause cont)* pass)* */
  ghost predicate Invocations(p: seq<Kind>) {
    p == [] || exists k :: 0 < k <= |p| && OneInvocation(p[..k]) && Invocations(p[k..])
  }

  /** The events `i` and `j` open and close one invocation of `name`. */
  ghost predicate Interval(es: seq<Event>, name: string, i: nat, j: nat) {
    && i < j < |es| && IsStep(es[i], name, Run) && IsStep(es[j], name, Pass)
    && (forall k | i < k < j :: !IsStep(es[k], name, Run) && !IsStep(es[k], name, Pass))
  }

  /** Every subtest invocation lies strictly inside one invocation of its top-level test. */
  ghost predicate Nested(es: seq<Event>) {
    forall name, i: nat, j: nat | IsSubtest(name) && Interval(es, name, i, j) :: Enclosed(es, Root(name), i, j)
  }

  ghost predicate Enclosed(es: seq<Event>, root: string, i: nat, j: nat) {
    exists a: nat, b: nat :: a < i && j < b && Interval(es, root, a, b)
  }

  /** How many invocations of `name` passed. */
  function Passes(es: seq<Event>, name: string): nat {
    if es == [] then 0
    else Passes(es[..|es| - 1], name) + if IsStep(es[|es| - 1], name, Pass) then 1 else 0
  }

  /** The test identities the stream started. */
  function Names(es: seq<Event>): set<string> {
    set i | 0 <= i < |es| && es[i].test.Text? && IsStep(es[i], es[i].test.text, Run) :: es[i].test.text
  }

  ghost predicate Conforms(es: seq<Event>, demand: Demand) {
    && demand.Valid()
    && Framed(es, demand.package)
    && (forall name :: Invocations(Trace(es, name)))
    && Nested(es)
    && (forall name | name in demand.required :: Passes(es, name) == demand.repeats)
    && |Names(es)| <= 10_000
  }
}

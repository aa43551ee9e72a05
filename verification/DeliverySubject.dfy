/** What a delivery's subject digest identifies: its identity fields and its artifacts in any order. */
module DeliverySubject {
  datatype Artifact = Artifact(id: string, digest: string, mediaType: string, locator: string)

  datatype Receipt = Receipt(taskContractDigest: string, runId: string, targetId: string, baseCommit: string,
                             resultCommit: string, artifacts: seq<Artifact>)

  datatype Pair = Pair(id: string, digest: string)

  datatype Subject = Subject(taskContractDigest: string, runId: string, targetId: string, baseCommit: string,
                             resultCommit: string, artifacts: seq<Pair>)

  type Hash = Subject -> string

  ghost predicate Injective(h: Hash) {
    forall a, b :: h(a) == h(b) ==> a == b
  }

  // ---- the order of artifact pairs ----

  predicate StringLess(a: string, b: string) {
    b != [] && (a == [] || a[0] < b[0] || (a[0] == b[0] && StringLess(a[1..], b[1..])))
  }

  predicate Less(a: Pair, b: Pair) {
    if a.id == b.id then StringLess(a.digest, b.digest) else StringLess(a.id, b.id)
  }

  lemma {:induction false} StringOrder(a: string, b: string)
    ensures StringLess(a, b) ==> !StringLess(b, a)
    ensures StringLess(a, b) || StringLess(b, a) <==> a != b
  {
    if a != [] && b != [] && a[0] == b[0] {
      StringOrder(a[1..], b[1..]);
      assert a == [a[0]] + a[1..] && b == [b[0]] + b[1..];
    }
  }

  lemma {:induction false} StringLessTransitive(a: string, b: string, c: string)
    requires StringLess(a, b) && StringLess(b, c)
    ensures StringLess(a, c)
  {
    if a != [] && a[0] == b[0] == c[0] {
      StringLessTransitive(a[1..], b[1..], c[1..]);
    }
  }

  /** The comparison is a strict total order: of two different pairs exactly one comes first. */
  lemma {:induction false} PairOrder(a: Pair, b: Pair)
    ensures Less(a, b) ==> !Less(b, a)
    ensures Less(a, b) || Less(b, a) <==> a != b
  {
    StringOrder(a.id, b.id);
    StringOrder(a.digest, b.digest);
  }

  lemma {:induction false} LessTransitive(a: Pair, b: Pair, c: Pair)
    requires Less(a, b) && Less(b, c)
    ensures Less(a, c)
  {
    if a.id == b.id == c.id {
      StringLessTransitive(a.digest, b.digest, c.digest);
    } else if a.id != b.id && b.id != c.id {
      StringLessTransitive(a.id, b.id, c.id);
      StringOrder(a.id, b.id);
    }
  }

  /** Byte order: a proper prefix, or the smaller character at the first difference. */
  ghost predicate Lexicographic(a: string, b: string) {
    a < b || exists k :: 0 <= k < |a| && k < |b| && a[..k] == b[..k] && a[k] < b[k]
  }

  lemma {:induction false} StringLessExactly(a: string, b: string)
    ensures StringLess(a, b) <==> Lexicographic(a, b)
  {
    if a != [] && b != [] && a[0] == b[0] {
      StringLessExactly(a[1..], b[1..]);
      assert a == [a[0]] + a[1..] && b == [b[0]] + b[1..];
      if Lexicographic(a[1..], b[1..]) {
        TailsDiffer(a, b);
      } else if Lexicographic(a, b) {
        HeadsAgree(a, b);
      }
    } else if a != [] && b != [] && a[0] < b[0] {
      assert a[..0] == b[..0];
    }
  }

  lemma {:induction false} TailsDiffer(a: string, b: string)
    requires a != [] && b != [] && a[0] == b[0] && Lexicographic(a[1..], b[1..])
    ensures Lexicographic(a, b)
  {
    if a[1..] < b[1..] {
      assert a < b;
    } else {
      var k :| 0 <= k < |a[1..]| && k < |b[1..]| && a[1..][..k] == b[1..][..k] && a[1..][k] < b[1..][k];
      assert a[..k + 1] == [a[0]] + a[1..][..k] && b[..k + 1] == [b[0]] + b[1..][..k];
      assert a[k + 1] < b[k + 1];
    }
  }

  lemma {:induction false} HeadsAgree(a: string, b: string)
    requires a != [] && b != [] && a[0] == b[0] && Lexicographic(a, b)
    ensures Lexicographic(a[1..], b[1..])
  {
    if a < b {
      assert a[1..] < b[1..];
    } else {
      var k :| 0 <= k < |a| && k < |b| && a[..k] == b[..k] && a[k] < b[k];
      assert a[1..][..k - 1] == a[..k][1..] && b[1..][..k - 1] == b[..k][1..];
      assert a[1..][k - 1] < b[1..][k - 1];
    }
  }

  /** Pairs are ordered by ID, and by digest where the IDs are equal. */
  lemma {:induction false} LessExactly(a: Pair, b: Pair)
    ensures Less(a, b) <==> Lexicographic(a.id, b.id) || (a.id == b.id && Lexicographic(a.digest, b.digest))
  {
    StringLessExactly(a.id, b.id);
    StringLessExactly(a.digest, b.digest);
    StringOrder(a.id, b.id);
  }

  // ---- sorted lists ----

  ghost predicate IsSorted(s: seq<Pair>) {
    forall i, j | 0 <= i < j < |s| :: !Less(s[j], s[i])
  }

  lemma {:induction false} HeadAndTail(s: seq<Pair>)
    requires s != []
    ensures multiset(s) == multiset(s[1..]) + multiset{s[0]}
  {
    assert s == [s[0]] + s[1..];
  }

  lemma {:induction false} SameTails(a: seq<Pair>, b: seq<Pair>)
    requires a != [] && b != [] && a[0] == b[0] && multiset(a) == multiset(b)
    ensures multiset(a[1..]) == multiset(b[1..])
  {
    HeadAndTail(a);
    HeadAndTail(b);
    assert multiset(a[1..]) == multiset(a) - multiset{a[0]};
    assert multiset(b[1..]) == multiset(b) - multiset{b[0]};
  }

  lemma {:induction false} SameHead(a: seq<Pair>, b: seq<Pair>)
    requires IsSorted(a) && IsSorted(b) && multiset(a) == multiset(b) && a != [] && b != []
    ensures a[0] == b[0]
  {
    assert a[0] in multiset(b) && b[0] in multiset(a);
    var i :| 0 <= i < |a| && a[i] == b[0];
    var j :| 0 <= j < |b| && b[j] == a[0];
    PairOrder(a[0], b[0]);
  }

  /** Two sorted lists of the same pairs are the same list, whatever algorithm sorted them. */
  lemma {:induction false} SortedUnique(a: seq<Pair>, b: seq<Pair>)
    requires IsSorted(a) && IsSorted(b) && multiset(a) == multiset(b)
    ensures a == b
  {
    assert |multiset(a)| == |a| && |multiset(b)| == |b|;
    if a != [] {
      SameHead(a, b);
      SameTails(a, b);
      SortedUnique(a[1..], b[1..]);
      assert a == [a[0]] + a[1..] && b == [b[0]] + b[1..];
    }
  }

  function Insert(x: Pair, s: seq<Pair>): seq<Pair> {
    if s == [] then [x]
    else
      var last := s[|s| - 1];
      if Less(x, last) then Insert(x, s[..|s| - 1]) + [last] else s + [x]
  }

  function Sorted(s: seq<Pair>): seq<Pair> {
    if s == [] then [] else Insert(s[|s| - 1], Sorted(s[..|s| - 1]))
  }

  lemma {:induction false} InsertContents(x: Pair, s: seq<Pair>)
    ensures multiset(Insert(x, s)) == multiset(s) + multiset{x} && |Insert(x, s)| == |s| + 1
  {
    if s != [] {
      assert s == s[..|s| - 1] + [s[|s| - 1]];
      InsertContents(x, s[..|s| - 1]);
    }
  }

  lemma {:induction false} SortedSnoc(s: seq<Pair>, last: Pair)
    requires IsSorted(s) && forall i | 0 <= i < |s| :: !Less(last, s[i])
    ensures IsSorted(s + [last])
  {
  }

  lemma {:induction false} InsertSorts(x: Pair, s: seq<Pair>)
    requires IsSorted(s)
    ensures IsSorted(Insert(x, s))
  {
    if s != [] {
      var front, last := s[..|s| - 1], s[|s| - 1];
      if Less(x, last) {
        InsertSorts(x, front);
        InsertContents(x, front);
        var inserted := Insert(x, front);
        forall i | 0 <= i < |inserted| ensures !Less(last, inserted[i]) {
          assert inserted[i] in multiset(inserted);
          PairOrder(x, last);
          if inserted[i] != x { assert inserted[i] in multiset(front); }
        }
        SortedSnoc(inserted, last);
      } else {
        forall i | 0 <= i < |s| ensures !Less(x, s[i]) {
          if Less(x, s[i]) && i < |s| - 1 {
            PairOrder(s[i], last);
            if s[i] != last { LessTransitive(x, s[i], last); }
          }
        }
        SortedSnoc(s, x);
      }
    }
  }

  lemma {:induction false} SortedIsSorted(s: seq<Pair>)
    ensures IsSorted(Sorted(s)) && multiset(Sorted(s)) == multiset(s) && |Sorted(s)| == |s|
  {
    if s != [] {
      var front := s[..|s| - 1];
      SortedIsSorted(front);
      InsertSorts(s[|s| - 1], Sorted(front));
      InsertContents(s[|s| - 1], Sorted(front));
      assert s == front + [s[|s| - 1]];
    }
  }

  // ---- the subject ----

  function PairsOf(artifacts: seq<Artifact>): seq<Pair> {
    seq(|artifacts|, i requires 0 <= i < |artifacts| => Pair(artifacts[i].id, artifacts[i].digest))
  }

  function SubjectOf(d: Receipt): Subject {
    Subject(d.taskContractDigest, d.runId, d.targetId, d.baseCommit, d.resultCommit, Sorted(PairsOf(d.artifacts)))
  }

  /** The fields that name the delivery apart from its artifacts. */
  predicate SameIdentity(a: Receipt, b: Receipt) {
    && a.taskContractDigest == b.taskContractDigest && a.runId == b.runId && a.targetId == b.targetId
    && a.baseCommit == b.baseCommit && a.resultCommit == b.resultCommit
  }

  /** Each artifact of `b` is matched with one of `a` by its number, one to one and onto. */
  ghost predicate Rearranges(order: seq<nat>, a: seq<Pair>, b: seq<Pair>) {
    && |order| == |a| == |b|
    && (forall i | 0 <= i < |order| :: order[i] < |a| && b[i] == a[order[i]])
    && (forall i, j | 0 <= i < j < |order| :: order[i] != order[j])
  }

  function Without<T>(s: seq<T>, k: nat): seq<T>
    requires k < |s|
  {
    s[..k] + s[k + 1..]
  }

  /** The place in the full list of entry `i` of the list without entry `k`. */
  function Past(k: nat, i: nat): nat {
    if i < k then i else i + 1
  }

  lemma {:induction false} WithoutContents(s: seq<Pair>, k: nat)
    requires k < |s|
    ensures multiset(s) == multiset(Without(s, k)) + multiset{s[k]}
    ensures forall i | 0 <= i < |s| - 1 :: Without(s, k)[i] == s[Past(k, i)]
  {
    assert s == s[..k] + [s[k]] + s[k + 1..];
  }

  lemma {:induction false} WithoutSame(a: seq<Pair>, b: seq<Pair>, k: nat)
    requires multiset(a) == multiset(b) && b != [] && k < |a| && a[k] == b[0]
    ensures multiset(Without(a, k)) == multiset(b[1..])
  {
    WithoutContents(a, k);
    HeadAndTail(b);
    assert multiset(Without(a, k)) == multiset(a) - multiset{a[k]};
    assert multiset(b[1..]) == multiset(b) - multiset{b[0]};
  }

  /** Lists with the same contents are rearrangements of each other. */
  lemma {:induction false} SameContentsRearrange(a: seq<Pair>, b: seq<Pair>) returns (order: seq<nat>)
    requires multiset(a) == multiset(b)
    ensures Rearranges(order, a, b)
    decreases |b|
  {
    assert |multiset(a)| == |a| && |multiset(b)| == |b|;
    if b == [] {
      order := [];
    } else {
      assert b[0] in multiset(a);
      var k: nat :| k < |a| && a[k] == b[0];
      WithoutSame(a, b, k);
      var rest := SameContentsRearrange(Without(a, k), b[1..]);
      order := [k] + Shifted(rest, k);
      LongerRearrangement(rest, a, b, k);
    }
  }

  function Shifted(rest: seq<nat>, k: nat): seq<nat> {
    seq(|rest|, i requires 0 <= i < |rest| => Past(k, rest[i]))
  }

  lemma {:induction false} LongerRearrangement(rest: seq<nat>, a: seq<Pair>, b: seq<Pair>, k: nat)
    requires b != [] && k < |a| && a[k] == b[0] && Rearranges(rest, Without(a, k), b[1..])
    ensures Rearranges([k] + Shifted(rest, k), a, b)
  {
    WithoutContents(a, k);
    var order := [k] + Shifted(rest, k);
    forall i | 0 <= i < |order| ensures order[i] < |a| && b[i] == a[order[i]] {
      if i > 0 { assert b[i] == b[1..][i - 1] && order[i] == Past(k, rest[i - 1]); }
    }
  }

  lemma {:induction false} RearrangedContents(order: seq<nat>, a: seq<Pair>, b: seq<Pair>)
    requires Rearranges(order, a, b)
    ensures multiset(a) == multiset(b)
    decreases |b|
  {
    if b != [] {
      var k := order[0];
      var rest := Lowered(order[1..], k);
      ShorterRearrangement(order, a, b);
      RearrangedContents(rest, Without(a, k), b[1..]);
      WithoutContents(a, k);
      HeadAndTail(b);
    }
  }

  function Lowered(order: seq<nat>, k: nat): seq<nat> {
    seq(|order|, i requires 0 <= i < |order| => if order[i] <= k then order[i] else (order[i] - 1) as nat)
  }

  lemma {:induction false} ShorterRearrangement(order: seq<nat>, a: seq<Pair>, b: seq<Pair>)
    requires b != [] && Rearranges(order, a, b)
    ensures Rearranges(Lowered(order[1..], order[0]), Without(a, order[0]), b[1..])
  {
    var k := order[0];
    var rest := Lowered(order[1..], k);
    WithoutContents(a, k);
    forall i | 0 <= i < |rest| ensures rest[i] < |a| - 1 && Past(k, rest[i]) == order[i + 1] {
      assert order[1..][i] == order[i + 1] && order[i + 1] != order[0];
    }
    forall i | 0 <= i < |rest| ensures b[1..][i] == Without(a, k)[rest[i]] {
      assert b[i + 1] == a[order[i + 1]];
    }
    forall i, j | 0 <= i < j < |rest| ensures rest[i] != rest[j] {
      assert order[i + 1] != order[j + 1];
    }
  }

  /** Subject digests agree exactly when the identity fields agree and the artifact lists are permutations. */
  lemma {:induction false} SubjectDigestIdentifies(h: Hash, a: Receipt, b: Receipt)
    requires Injective(h)
    ensures h(SubjectOf(a)) == h(SubjectOf(b))
       <==> SameIdentity(a, b) && exists order :: Rearranges(order, PairsOf(a.artifacts), PairsOf(b.artifacts))
  {
    var pa, pb := PairsOf(a.artifacts), PairsOf(b.artifacts);
    SortedIsSorted(pa);
    SortedIsSorted(pb);
    if h(SubjectOf(a)) == h(SubjectOf(b)) {
      assert SubjectOf(a) == SubjectOf(b);
      var order := SameContentsRearrange(pa, pb);
    }
    if order :| Rearranges(order, pa, pb) {
      RearrangedContents(order, pa, pb);
      SortedUnique(Sorted(pa), Sorted(pb));
    }
  }

  /** The artifacts of `b` are those of `a` in another order, as far as IDs and digests go. */
  ghost predicate Permuted(order: seq<nat>, a: seq<Artifact>, b: seq<Artifact>) {
    && |order| == |a| == |b| && (forall i | 0 <= i < |order| :: order[i] < |a|)
    && (forall i, j | 0 <= i < j < |order| :: order[i] != order[j])
    && (forall i | 0 <= i < |order| :: b[i].id == a[order[i]].id && b[i].digest == a[order[i]].digest)
  }

  /** Whatever media type and locator they have. */
  lemma {:induction false} SubjectDigestIdentifiesArtifacts(h: Hash, a: Receipt, b: Receipt)
    requires Injective(h)
    ensures h(SubjectOf(a)) == h(SubjectOf(b)) <==>
      && a.taskContractDigest == b.taskContractDigest && a.runId == b.runId && a.targetId == b.targetId
      && a.baseCommit == b.baseCommit && a.resultCommit == b.resultCommit
      && exists order :: Permuted(order, a.artifacts, b.artifacts)
  {
    SubjectDigestIdentifies(h, a, b);
    var pa, pb := PairsOf(a.artifacts), PairsOf(b.artifacts);
    if order :| Rearranges(order, pa, pb) {
      forall i | 0 <= i < |order| ensures b.artifacts[i].id == a.artifacts[order[i]].id && b.artifacts[i].digest == a.artifacts[order[i]].digest {
        assert pb[i] == pa[order[i]];
      }
      assert Permuted(order, a.artifacts, b.artifacts);
    }
    if order :| Permuted(order, a.artifacts, b.artifacts) { assert Rearranges(order, pa, pb); }
  }

  // ---- the running code ----

  lemma {:induction false} InsertedAt(x: Pair, s: seq<Pair>, j: nat)
    requires j <= |s| && (j > 0 ==> !Less(x, s[j - 1]))
    requires forall k | j <= k < |s| :: Less(x, s[k])
    ensures Insert(x, s) == s[..j] + [x] + s[j..]
  {
    if j == |s| {
      assert s[..j] == s && s[j..] == [];
    } else {
      var front := s[..|s| - 1];
      InsertedAt(x, front, j);
      assert front[..j] == s[..j] && front[j..] + [s[|s| - 1]] == s[j..];
    }
  }

  /** Entry `i` has gone back to place `j`, past greater entries that each moved up by one; nothing else moved. */
  ghost predicate Slid(was: seq<Pair>, now: seq<Pair>, i: nat, j: nat) {
    && j <= i < |was| == |now| && now[j] == was[i]
    && (forall k | 0 <= k < j :: now[k] == was[k])
    && (forall k | j < k <= i :: now[k] == was[k - 1] && Less(was[i], now[k]))
    && (forall k | i < k < |was| :: now[k] == was[k])
  }

  lemma {:induction false} SlidIntoPlace(was: seq<Pair>, now: seq<Pair>, i: nat, j: nat)
    requires Slid(was, now, i, j) && (j > 0 ==> !Less(now[j], now[j - 1]))
    ensures now[..i + 1] == Insert(was[i], was[..i]) && now[i + 1..] == was[i + 1..]
  {
    var x, front := was[i], was[..i];
    forall k | j <= k < |front| ensures Less(x, front[k]) { assert now[k + 1] == front[k]; }
    InsertedAt(x, front, j);
    assert now[..i + 1] == front[..j] + [x] + front[j..] by {
      forall k | 0 <= k <= i ensures now[k] == (front[..j] + [x] + front[j..])[k] {}
    }
    var rest, wasRest := now[i + 1..], was[i + 1..];
    forall k | 0 <= k < |rest| ensures rest[k] == wasRest[k] { assert now[i + 1 + k] == was[i + 1 + k]; }
  }

  /** Moves entry `i` back to its place among the sorted entries before it. */
  method InsertInPlace(a: array<Pair>, i: nat)
    requires i < a.Length
    modifies a
    ensures a[..i + 1] == Insert(old(a[i]), old(a[..i])) && a[i + 1..] == old(a[i + 1..])
  {
    ghost var was := a[..];
    var j := i;
    while j > 0 && Less(a[j], a[j - 1])
      invariant 0 <= j <= i && Slid(was, a[..], i, j)
    {
      a[j - 1], a[j] := a[j], a[j - 1];
      j := j - 1;
    }
    SlidIntoPlace(was, a[..], i, j);
    assert a[..][..i + 1] == a[..i + 1] && a[..][i + 1..] == a[i + 1..];
    assert was[..i] == old(a[..i]) && was[i + 1..] == old(a[i + 1..]);
  }

  method SortInPlace(a: array<Pair>)
    modifies a
    ensures a[..] == Sorted(old(a[..]))
  {
    ghost var was := a[..];
    var i := 0;
    while i < a.Length
      invariant 0 <= i <= a.Length
      invariant a[..i] == Sorted(was[..i]) && a[i..] == was[i..]
    {
      assert was[..i + 1][..i] == was[..i] && was[i..][0] == was[i] && a[i..][0] == a[i];
      InsertInPlace(a, i);
      assert was[i..][1..] == was[i + 1..];
      i := i + 1;
    }
    assert was[..i] == was && a[..i] == a[..];
  }

  method CalculateSubjectDigest(h: Hash, d: Receipt) returns (digest: string)
    ensures digest == h(SubjectOf(d))
  {
    var pairs: seq<Pair> := [];
    var i := 0;
    while i < |d.artifacts|
      invariant 0 <= i <= |d.artifacts|
      invariant pairs == PairsOf(d.artifacts)[..i]
    {
      pairs := pairs + [Pair(d.artifacts[i].id, d.artifacts[i].digest)];
      i := i + 1;
    }
    var sorted := new Pair[|pairs|](k requires 0 <= k < |pairs| => pairs[k]);
    assert sorted[..] == pairs == PairsOf(d.artifacts);
    SortInPlace(sorted);
    digest := h(Subject(d.taskContractDigest, d.runId, d.targetId, d.baseCommit, d.resultCommit, sorted[..]));
  }
}

/** Which JSON members a struct has: a depth-first collector with a visiting set, proved to select exactly
    the unique best occurrence over every embedding path, cyclic ones included. */
module ResponseFields {
  import opened Options
  import opened ResponseTypes

  /** One declaration of a member: the promoted fields leading to it, and its place in the last struct. */
  datatype Occurrence = Occurrence(path: seq<nat>, index: nat, name: string, typ: Type, tagged: bool)

  // ---- the specification: all embedding paths ----

  /** The struct a chain of promoted field numbers leads to. */
  function Follow(u: Universe, id: nat, path: seq<nat>): Option<nat>
    decreases |path|
  {
    if path == [] then Some(id)
    else
      var fields := FieldsOf(u, id);
      if path[0] < |fields| && RoleOf(u, fields[path[0]]).Promoted?
      then Follow(u, RoleOf(u, fields[path[0]]).id, path[1..])
      else None
  }

  predicate DeclaredIn(u: Universe, id: nat, o: Occurrence) {
    var fields := FieldsOf(u, id);
    && o.index < |fields|
    && RoleOf(u, fields[o.index]) == Recorded(o.name, o.tagged)
    && o.typ == fields[o.index].typ
  }

  predicate Occurs(u: Universe, root: nat, o: Occurrence) {
    var end := Follow(u, root, o.path);
    end.Some? && DeclaredIn(u, end.value, o)
  }

  /** Shallower wins; at equal depth an explicit tag wins. */
  predicate Better(a: Occurrence, b: Occurrence) {
    |a.path| < |b.path| || (|a.path| == |b.path| && a.tagged && !b.tagged)
  }

  /** `o` is the one best occurrence of its name over all embedding paths. */
  ghost predicate Selected(u: Universe, root: nat, o: Occurrence) {
    && Occurs(u, root, o)
    && forall other | Occurs(u, root, other) && other.name == o.name && other != o :: Better(o, other)
  }

  // ---- the record step, folded over any list of occurrences ----

  datatype Candidate = Candidate(typ: Type, depth: nat, tagged: bool, ambiguous: bool)

  type Candidates = map<string, Candidate>

  function Absorb(c: Candidates, o: Occurrence): Candidates {
    var depth := |o.path|;
    if o.name !in c || depth < c[o.name].depth || (depth == c[o.name].depth && o.tagged && !c[o.name].tagged)
    then c[o.name := Candidate(o.typ, depth, o.tagged, false)]
    else if depth == c[o.name].depth && o.tagged == c[o.name].tagged
    then c[o.name := c[o.name].(ambiguous := true)]
    else c
  }

  function AbsorbAll(c: Candidates, os: seq<Occurrence>): Candidates {
    if os == [] then c else Absorb(AbsorbAll(c, os[..|os| - 1]), os[|os| - 1])
  }

  lemma {:induction false} AbsorbConcat(c: Candidates, a: seq<Occurrence>, b: seq<Occurrence>)
    ensures AbsorbAll(c, a + b) == AbsorbAll(AbsorbAll(c, a), b)
  {
    if b == [] {
      assert a + b == a;
    } else {
      var ab := a + b;
      assert ab[..|ab| - 1] == a + b[..|b| - 1];
      AbsorbConcat(c, a, b[..|b| - 1]);
    }
  }

  predicate SameRank(a: Occurrence, b: Occurrence) {
    |a.path| == |b.path| && a.tagged == b.tagged
  }

  /** Entry `k` is a best one for its name, and the candidate says so and whether it has a rival. */
  ghost predicate BestAt(os: seq<Occurrence>, k: nat, c: Candidate) {
    && k < |os| && c.depth == |os[k].path| && c.tagged == os[k].tagged && c.typ == os[k].typ
    && (forall j | 0 <= j < |os| && os[j].name == os[k].name :: !Better(os[j], os[k]))
    && (c.ambiguous <==> exists j :: 0 <= j < |os| && j != k && os[j].name == os[k].name && SameRank(os[j], os[k]))
  }

  ghost predicate HasBest(os: seq<Occurrence>, name: string, c: Candidate) {
    exists k: nat :: k < |os| && os[k].name == name && BestAt(os, k, c)
  }

  ghost predicate Summarizes(c: Candidates, os: seq<Occurrence>) {
    && (forall j | 0 <= j < |os| :: os[j].name in c)
    && (forall name | name in c :: HasBest(os, name, c[name]))
  }

  /** A name the new entry does not touch keeps its best entry. */
  lemma {:induction false} OtherNameKeepsBest(os: seq<Occurrence>, o: Occurrence, name: string, c: Candidate)
    requires HasBest(os, name, c) && name != o.name
    ensures HasBest(os + [o], name, c)
  {
    var os' := os + [o];
    assert os'[|os|] == o && forall j | 0 <= j < |os| :: os'[j] == os[j];
    var k: nat :| k < |os| && os[k].name == name && BestAt(os, k, c);
    assert BestAt(os', k, c);
  }

  lemma {:induction false} FirstOfItsName(os: seq<Occurrence>, o: Occurrence)
    requires forall j | 0 <= j < |os| :: os[j].name != o.name
    ensures HasBest(os + [o], o.name, Candidate(o.typ, |o.path|, o.tagged, false))
  {
    var os' := os + [o];
    assert os'[|os|] == o && forall j | 0 <= j < |os| :: os'[j] == os[j];
    assert BestAt(os', |os|, Candidate(o.typ, |o.path|, o.tagged, false));
  }

  lemma {:induction false} SameNameKeepsBest(os: seq<Occurrence>, o: Occurrence, c: Candidate)
    requires HasBest(os, o.name, c)
    ensures HasBest(os + [o], o.name, Absorb(map[o.name := c], o)[o.name])
  {
    var os', c' := os + [o], Absorb(map[o.name := c], o)[o.name];
    assert os'[|os|] == o && forall j | 0 <= j < |os| :: os'[j] == os[j];
    var k: nat :| k < |os| && os[k].name == o.name && BestAt(os, k, c);
    if Better(o, os[k]) {
      NewIsBest(os, os', k, c, c');
    } else {
      OldStaysBest(os, os', k, c, c');
    }
  }

  lemma {:induction false} NewIsBest(os: seq<Occurrence>, os': seq<Occurrence>, k: nat, c: Candidate, c': Candidate)
    requires BestAt(os, k, c) && |os'| == |os| + 1 && forall j | 0 <= j < |os| :: os'[j] == os[j]
    requires os'[|os|].name == os[k].name && Better(os'[|os|], os[k])
    requires c' == Candidate(os'[|os|].typ, |os'[|os|].path|, os'[|os|].tagged, false)
    ensures BestAt(os', |os|, c')
  {
    forall j | 0 <= j < |os| && os[j].name == os[k].name ensures Better(os'[|os|], os[j]) {
      assert !Better(os[j], os[k]);
    }
  }

  lemma {:induction false} OldStaysBest(os: seq<Occurrence>, os': seq<Occurrence>, k: nat, c: Candidate, c': Candidate)
    requires BestAt(os, k, c) && |os'| == |os| + 1 && forall j | 0 <= j < |os| :: os'[j] == os[j]
    requires os'[|os|].name == os[k].name && !Better(os'[|os|], os[k])
    requires c' == if SameRank(os'[|os|], os[k]) then c.(ambiguous := true) else c
    ensures BestAt(os', k, c')
  {
    if c.ambiguous {
      var j :| 0 <= j < |os| && j != k && os[j].name == os[k].name && SameRank(os[j], os[k]);
      assert SameRank(os'[j], os'[k]);
    }
  }

  lemma {:induction false} SummarySnoc(c: Candidates, os: seq<Occurrence>, o: Occurrence)
    requires Summarizes(c, os)
    ensures Summarizes(Absorb(c, o), os + [o])
  {
    var c' := Absorb(c, o);
    forall name | name in c' ensures HasBest(os + [o], name, c'[name]) {
      if name != o.name {
        OtherNameKeepsBest(os, o, name, c[name]);
      } else if name in c {
        SameNameKeepsBest(os, o, c[name]);
      } else {
        FirstOfItsName(os, o);
      }
    }
  }

  lemma {:induction false} FoldSummarizes(os: seq<Occurrence>)
    ensures Summarizes(AbsorbAll(map[], os), os)
  {
    if os != [] {
      FoldSummarizes(os[..|os| - 1]);
      SummarySnoc(AbsorbAll(map[], os[..|os| - 1]), os[..|os| - 1], os[|os| - 1]);
      assert os == os[..|os| - 1] + [os[|os| - 1]];
    }
  }

  // ---- the traversal: simple paths, each once ----

  /** No struct is entered twice, and none of `visiting` at all. */
  ghost predicate SimplePath(u: Universe, id: nat, visiting: set<nat>, path: seq<nat>)
    decreases |path|
  {
    && id !in visiting
    && (path != [] ==>
          var fields := FieldsOf(u, id);
          && path[0] < |fields| && RoleOf(u, fields[path[0]]).Promoted?
          && SimplePath(u, RoleOf(u, fields[path[0]]).id, visiting + {id}, path[1..]))
  }

  /** The struct's own members from field `i` on. */
  function Own(u: Universe, id: nat, base: seq<nat>, i: nat): seq<Occurrence>
    decreases |FieldsOf(u, id)| - i
  {
    var fields := FieldsOf(u, id);
    if i >= |fields| then []
    else
      (match RoleOf(u, fields[i])
       case Recorded(name, tagged) => [Occurrence(base, i, name, fields[i].typ, tagged)]
       case _ => [])
      + Own(u, id, base, i + 1)
  }

  /** Depth-first: a struct's own members, then its promoted fields in order; a struct being visited adds nothing. */
  function Visit(u: Universe, id: nat, visiting: set<nat>, base: seq<nat>): seq<Occurrence>
    decreases |u.structs.Keys - visiting|, 0, 0
  {
    if id in visiting || id !in u.structs then []
    else
      assert |u.structs.Keys - (visiting + {id})| < |u.structs.Keys - visiting| by { Shrinks(u, id, visiting); }
      Own(u, id, base, 0) + VisitPromoted(u, id, visiting + {id}, base, 0)
  }

  function VisitField(u: Universe, id: nat, visiting: set<nat>, base: seq<nat>, i: nat): seq<Occurrence>
    requires i < |FieldsOf(u, id)|
    decreases |u.structs.Keys - visiting|, 1, 0
  {
    match RoleOf(u, FieldsOf(u, id)[i])
    case Promoted(next) => Visit(u, next, visiting, base + [i])
    case _ => []
  }

  function VisitPromoted(u: Universe, id: nat, visiting: set<nat>, base: seq<nat>, i: nat): seq<Occurrence>
    decreases |u.structs.Keys - visiting|, 2, |FieldsOf(u, id)| - i
  {
    if i >= |FieldsOf(u, id)| then []
    else VisitField(u, id, visiting, base, i) + VisitPromoted(u, id, visiting, base, i + 1)
  }

  lemma {:induction false} Shrinks(u: Universe, id: nat, visiting: set<nat>)
    requires id in u.structs && id !in visiting
    ensures |u.structs.Keys - (visiting + {id})| < |u.structs.Keys - visiting|
  {
    assert u.structs.Keys - visiting == (u.structs.Keys - (visiting + {id})) + {id};
  }

  /** The occurrence lies under `base` along a simple path from `id`. */
  ghost predicate Reached(u: Universe, id: nat, visiting: set<nat>, base: seq<nat>, o: Occurrence) {
    && base <= o.path
    && var rest := o.path[|base|..];
       SimplePath(u, id, visiting, rest) && Follow(u, id, rest).Some?
       && DeclaredIn(u, Follow(u, id, rest).value, o)
  }

  lemma {:induction false} OwnMembers(u: Universe, id: nat, base: seq<nat>, i: nat, o: Occurrence)
    ensures o in Own(u, id, base, i) <==> o.path == base && o.index >= i && DeclaredIn(u, id, o)
    decreases |FieldsOf(u, id)| - i
  {
    if i < |FieldsOf(u, id)| {
      OwnMembers(u, id, base, i + 1, o);
    }
  }

  /** Reached through the promoted field `k`. */
  ghost predicate ReachedThrough(u: Universe, id: nat, visiting: set<nat>, base: seq<nat>, k: nat, o: Occurrence) {
    var fields := FieldsOf(u, id);
    && k < |fields| && RoleOf(u, fields[k]).Promoted?
    && Reached(u, RoleOf(u, fields[k]).id, visiting, base + [k], o)
  }

  lemma {:induction false} VisitMembers(u: Universe, id: nat, visiting: set<nat>, base: seq<nat>, o: Occurrence)
    ensures o in Visit(u, id, visiting, base) <==> Reached(u, id, visiting, base, o)
    decreases |u.structs.Keys - visiting|, 0, 0
  {
    if id in visiting || id !in u.structs {
      assert FieldsOf(u, id) == [] || id in visiting;
    } else {
      Shrinks(u, id, visiting);
      OwnMembers(u, id, base, 0, o);
      VisitPromotedMembers(u, id, visiting + {id}, base, 0, o);
      ReachedSplits(u, id, visiting, base, o);
    }
  }

  lemma {:induction false} ReachedSplits(u: Universe, id: nat, visiting: set<nat>, base: seq<nat>, o: Occurrence)
    requires id !in visiting
    ensures Reached(u, id, visiting, base, o) <==>
      ((o.path == base && DeclaredIn(u, id, o)) ||
       (|o.path| > |base| && ReachedThrough(u, id, visiting + {id}, base, o.path[|base|], o)))
    ensures forall k | ReachedThrough(u, id, visiting + {id}, base, k, o) :: |o.path| > |base| && o.path[|base|] == k
  {
    if base <= o.path && |o.path| > |base| {
      var k := o.path[|base|];
      assert o.path[|base|..][0] == k;
      assert o.path[|base|..][1..] == o.path[|base + [k]|..];
      assert base + [k] <= o.path;
    }
    forall k | ReachedThrough(u, id, visiting + {id}, base, k, o) ensures |o.path| > |base| && o.path[|base|] == k && base <= o.path {
      assert (base + [k])[|base|] == k;
      assert base <= base + [k] <= o.path;
    }
  }

  lemma {:induction false} VisitFieldMembers(u: Universe, id: nat, visiting: set<nat>, base: seq<nat>, i: nat,
                                             o: Occurrence)
    requires i < |FieldsOf(u, id)|
    ensures o in VisitField(u, id, visiting, base, i) <==> ReachedThrough(u, id, visiting, base, i, o)
    decreases |u.structs.Keys - visiting|, 1, 0
  {
    var role := RoleOf(u, FieldsOf(u, id)[i]);
    if role.Promoted? {
      VisitMembers(u, role.id, visiting, base + [i], o);
    }
  }

  ghost predicate ReachedFrom(u: Universe, id: nat, visiting: set<nat>, base: seq<nat>, i: nat, o: Occurrence) {
    exists k: nat :: i <= k && ReachedThrough(u, id, visiting, base, k, o)
  }

  lemma {:induction false} VisitPromotedMembers(u: Universe, id: nat, visiting: set<nat>, base: seq<nat>, i: nat,
                                                o: Occurrence)
    ensures o in VisitPromoted(u, id, visiting, base, i) <==> ReachedFrom(u, id, visiting, base, i, o)
    decreases |u.structs.Keys - visiting|, 2, |FieldsOf(u, id)| - i
  {
    if i < |FieldsOf(u, id)| {
      VisitPromotedMembers(u, id, visiting, base, i + 1, o);
      VisitFieldMembers(u, id, visiting, base, i, o);
      assert ReachedFrom(u, id, visiting, base, i, o) <==>
             (ReachedThrough(u, id, visiting, base, i, o) || ReachedFrom(u, id, visiting, base, i + 1, o));
    }
  }

  // ---- each occurrence is visited once ----

  ghost predicate NoDuplicates<T>(s: seq<T>) {
    forall i, j | 0 <= i < j < |s| :: s[i] != s[j]
  }

  lemma {:induction false} ConcatNoDuplicates<T>(a: seq<T>, b: seq<T>)
    requires NoDuplicates(a) && NoDuplicates(b) && forall x | x in a :: x !in b
    ensures NoDuplicates(a + b)
  {
    forall i, j | 0 <= i < j < |a + b| ensures (a + b)[i] != (a + b)[j] {
      if i < |a| <= j { assert (a + b)[i] in a && (a + b)[j] in b; }
    }
  }

  lemma {:induction false} OwnOnce(u: Universe, id: nat, base: seq<nat>, i: nat)
    ensures NoDuplicates(Own(u, id, base, i))
    decreases |FieldsOf(u, id)| - i
  {
    if i < |FieldsOf(u, id)| {
      OwnOnce(u, id, base, i + 1);
      var rest := Own(u, id, base, i + 1);
      forall o | o in rest ensures o.index > i { OwnMembers(u, id, base, i + 1, o); }
    }
  }

  lemma {:induction false} VisitOnce(u: Universe, id: nat, visiting: set<nat>, base: seq<nat>)
    ensures NoDuplicates(Visit(u, id, visiting, base))
    decreases |u.structs.Keys - visiting|, 0, 0
  {
    if id !in visiting && id in u.structs {
      Shrinks(u, id, visiting);
      var own, rest := Own(u, id, base, 0), VisitPromoted(u, id, visiting + {id}, base, 0);
      OwnOnce(u, id, base, 0);
      VisitPromotedOnce(u, id, visiting + {id}, base, 0);
      forall o | o in own ensures o !in rest {
        OwnMembers(u, id, base, 0, o);
        VisitPromotedMembers(u, id, visiting + {id}, base, 0, o);
        ReachedSplits(u, id, visiting, base, o);
      }
      ConcatNoDuplicates(own, rest);
    }
  }

  lemma {:induction false} VisitPromotedOnce(u: Universe, id: nat, visiting: set<nat>, base: seq<nat>, i: nat)
    ensures NoDuplicates(VisitPromoted(u, id, visiting, base, i))
    decreases |u.structs.Keys - visiting|, 2, |FieldsOf(u, id)| - i
  {
    if i < |FieldsOf(u, id)| {
      var first, rest := VisitField(u, id, visiting, base, i), VisitPromoted(u, id, visiting, base, i + 1);
      var role := RoleOf(u, FieldsOf(u, id)[i]);
      if role.Promoted? { VisitOnce(u, role.id, visiting, base + [i]); }
      VisitPromotedOnce(u, id, visiting, base, i + 1);
      forall o | o in first ensures o !in rest {
        VisitFieldMembers(u, id, visiting, base, i, o);
        VisitPromotedMembers(u, id, visiting, base, i + 1, o);
        OneFirstField(u, id, visiting, base, i, o);
      }
      ConcatNoDuplicates(first, rest);
    }
  }

  lemma {:induction false} OneFirstField(u: Universe, id: nat, visiting: set<nat>, base: seq<nat>, i: nat,
                                         o: Occurrence)
    requires ReachedThrough(u, id, visiting, base, i, o)
    ensures !ReachedFrom(u, id, visiting, base, i + 1, o)
  {
    assert base + [i] <= o.path && (base + [i])[|base|] == i;
    forall k: nat | i + 1 <= k ensures !ReachedThrough(u, id, visiting, base, k, o) {
      assert (base + [k])[|base|] == k;
    }
  }

  // ---- cyclic embedding never wins ----

  lemma {:induction false} FollowConcat(u: Universe, id: nat, a: seq<nat>, b: seq<nat>)
    requires Follow(u, id, a).Some?
    ensures Follow(u, id, a + b) == Follow(u, Follow(u, id, a).value, b)
    decreases |a|
  {
    if a == [] {
      assert a + b == b;
    } else {
      assert (a + b)[1..] == a[1..] + b;
      FollowConcat(u, RoleOf(u, FieldsOf(u, id)[a[0]]).id, a[1..], b);
    }
  }

  lemma {:induction false} FollowPrefix(u: Universe, id: nat, path: seq<nat>, k: nat)
    requires Follow(u, id, path).Some? && k <= |path|
    ensures Follow(u, id, path[..k]).Some?
    decreases |path|
  {
    if k > 0 {
      assert path[..k][1..] == path[1..][..k - 1];
      FollowPrefix(u, RoleOf(u, FieldsOf(u, id)[path[0]]).id, path[1..], k - 1);
    }
  }

  /** The struct entered after `k` steps. */
  function At(u: Universe, id: nat, path: seq<nat>, k: nat): Option<nat>
    requires k <= |path|
  {
    Follow(u, id, path[..k])
  }

  lemma {:induction false} DistinctIsSimple(u: Universe, id: nat, visiting: set<nat>, path: seq<nat>)
    requires Follow(u, id, path).Some?
    requires forall k | 0 <= k <= |path| :: At(u, id, path, k).Some? && At(u, id, path, k).value !in visiting
    requires forall j, k | 0 <= j < k <= |path| :: At(u, id, path, j) != At(u, id, path, k)
    ensures SimplePath(u, id, visiting, path)
    decreases |path|
  {
    assert At(u, id, path, 0) == Some(id);
    if path != [] {
      var next, rest := RoleOf(u, FieldsOf(u, id)[path[0]]).id, path[1..];
      forall k | 0 <= k <= |rest| ensures At(u, next, rest, k) == At(u, id, path, k + 1) {
        assert path[..k + 1][1..] == rest[..k];
      }
      forall k | 0 <= k <= |rest| ensures At(u, next, rest, k).value !in visiting + {id} {
        assert At(u, id, path, 0) != At(u, id, path, k + 1);
      }
      DistinctIsSimple(u, next, visiting + {id}, rest);
    }
  }

  /** Any path has a simple one to the same struct, strictly shorter unless it was simple itself. */
  lemma {:induction false} Shorten(u: Universe, id: nat, path: seq<nat>) returns (p: seq<nat>)
    requires Follow(u, id, path).Some?
    ensures SimplePath(u, id, {}, p) && Follow(u, id, p) == Follow(u, id, path)
    ensures p == path || |p| < |path|
    decreases |path|
  {
    if SimplePath(u, id, {}, path) { return path; }
    forall k | 0 <= k <= |path| ensures At(u, id, path, k).Some? { FollowPrefix(u, id, path, k); }
    if forall j, k | 0 <= j < k <= |path| :: At(u, id, path, j) != At(u, id, path, k) {
      DistinctIsSimple(u, id, {}, path);
    }
    var j, k :| 0 <= j < k <= |path| && At(u, id, path, j) == At(u, id, path, k);
    FollowConcat(u, id, path[..j], path[k..]);
    FollowConcat(u, id, path[..k], path[k..]);
    assert path == path[..k] + path[k..];
    p := Shorten(u, id, path[..j] + path[k..]);
  }

  /** Every occurrence is visited, or a strictly shallower one of the same name and type is. */
  lemma {:induction false} VisitedOrBeaten(u: Universe, root: nat, o: Occurrence) returns (v: Occurrence)
    requires Occurs(u, root, o)
    ensures v in Visit(u, root, {}, []) && Occurs(u, root, v) && v.name == o.name
    ensures v == o || |v.path| < |o.path|
  {
    var p := Shorten(u, root, o.path);
    v := o.(path := p);
    assert v.path[0..] == p;
    VisitMembers(u, root, {}, [], v);
  }

  lemma {:induction false} VisitedOccur(u: Universe, root: nat, o: Occurrence)
    requires o in Visit(u, root, {}, [])
    ensures Occurs(u, root, o)
  {
    VisitMembers(u, root, {}, [], o);
    assert o.path[0..] == o.path;
  }

  function Collected(u: Universe, root: nat): Candidates {
    AbsorbAll(map[], Visit(u, root, {}, []))
  }

  lemma {:induction false} UnambiguousIsSelected(u: Universe, root: nat, name: string) returns (o: Occurrence)
    requires name in Collected(u, root) && !Collected(u, root)[name].ambiguous
    ensures Selected(u, root, o) && o.name == name && o.typ == Collected(u, root)[name].typ
  {
    var os, c := Visit(u, root, {}, []), Collected(u, root)[name];
    FoldSummarizes(os);
    assert HasBest(os, name, c);
    var k: nat :| k < |os| && os[k].name == name && BestAt(os, k, c);
    o := os[k];
    VisitedOccur(u, root, o);
    forall other | Occurs(u, root, other) && other.name == name && other != o ensures Better(o, other) {
      var v := VisitedOrBeaten(u, root, other);
      if v != o { BestBeats(os, k, c, v); }
    }
  }

  lemma {:induction false} BestBeats(os: seq<Occurrence>, k: nat, c: Candidate, v: Occurrence)
    requires BestAt(os, k, c) && !c.ambiguous && v in os && v.name == os[k].name && v != os[k]
    ensures Better(os[k], v)
  {
    var j :| 0 <= j < |os| && os[j] == v;
    assert !Better(os[j], os[k]) && !SameRank(os[j], os[k]);
  }

  lemma {:induction false} SelectedIsUnambiguous(u: Universe, root: nat, o: Occurrence)
    requires Selected(u, root, o)
    ensures o.name in Collected(u, root)
    ensures !Collected(u, root)[o.name].ambiguous && Collected(u, root)[o.name].typ == o.typ
  {
    var os := Visit(u, root, {}, []);
    FoldSummarizes(os);
    VisitOnce(u, root, {}, []);
    var v := VisitedOrBeaten(u, root, o);
    assert v == o;
    var i :| 0 <= i < |os| && os[i] == o;
    var c := Collected(u, root)[o.name];
    assert HasBest(os, o.name, c);
    var k: nat :| k < |os| && os[k].name == o.name && BestAt(os, k, c);
    forall j | 0 <= j < |os| && j != i && os[j].name == o.name ensures Better(o, os[j]) {
      VisitedOccur(u, root, os[j]);
      assert os[j] != o;
    }
    assert !Better(os[i], os[k]);
  }

  /** Some occurrence of `name`, of this type, beats all others over every embedding path. */
  ghost predicate SelectedAs(u: Universe, root: nat, name: string, typ: Type) {
    exists o :: Selected(u, root, o) && o.name == name && o.typ == typ
  }

  /** A name is kept, with its type, when its candidate has no rival. */
  predicate Kept(c: Candidates, name: string, typ: Type) {
    name in c && !c[name].ambiguous && c[name].typ == typ
  }

  /** The collector keeps exactly the selected members. */
  lemma {:induction false} KeptExactlySelected(u: Universe, root: nat, name: string, typ: Type)
    ensures Kept(Collected(u, root), name, typ) <==> SelectedAs(u, root, name, typ)
  {
    if Kept(Collected(u, root), name, typ) {
      var o := UnambiguousIsSelected(u, root, name);
    } else if SelectedAs(u, root, name, typ) {
      var o :| Selected(u, root, o) && o.name == name && o.typ == typ;
      SelectedIsUnambiguous(u, root, o);
    }
  }
}

/** The collector itself: two maps shared by the recursion and updated in place. */
module ResponseCollector {
  import opened Options
  import opened ResponseTypes
  import opened ResponseFields

  predicate IsPromoted(u: Universe, id: nat, p: nat) {
    p < |FieldsOf(u, id)| && RoleOf(u, FieldsOf(u, id)[p]).Promoted?
  }

  /** The promoted fields of a struct from field `i` on, by number. */
  function PromotedFrom(u: Universe, id: nat, i: nat): (ps: seq<nat>)
    ensures forall j | 0 <= j < |ps| :: IsPromoted(u, id, ps[j])
    decreases |FieldsOf(u, id)| - i
  {
    if i >= |FieldsOf(u, id)| then []
    else (if IsPromoted(u, id, i) then [i] else []) + PromotedFrom(u, id, i + 1)
  }

  function VisitListed(u: Universe, id: nat, visiting: set<nat>, base: seq<nat>, ps: seq<nat>): seq<Occurrence>
    requires forall j | 0 <= j < |ps| :: IsPromoted(u, id, ps[j])
  {
    if ps == [] then []
    else assert IsPromoted(u, id, ps[0]); VisitField(u, id, visiting, base, ps[0]) + VisitListed(u, id, visiting, base, ps[1..])
  }

  lemma {:induction false} ListedIsPromoted(u: Universe, id: nat, visiting: set<nat>, base: seq<nat>, i: nat)
    ensures VisitListed(u, id, visiting, base, PromotedFrom(u, id, i)) == VisitPromoted(u, id, visiting, base, i)
    decreases |FieldsOf(u, id)| - i
  {
    if i < |FieldsOf(u, id)| {
      ListedIsPromoted(u, id, visiting, base, i + 1);
      if IsPromoted(u, id, i) {
        assert PromotedFrom(u, id, i)[1..] == PromotedFrom(u, id, i + 1);
      } else {
        assert PromotedFrom(u, id, i) == PromotedFrom(u, id, i + 1);
      }
    }
  }

  lemma {:induction false} ListedTurn(u: Universe, id: nat, visiting: set<nat>, base: seq<nat>, ps: seq<nat>, j: nat,
                                      c: Candidates)
    requires j < |ps| && forall k | 0 <= k < |ps| :: IsPromoted(u, id, ps[k])
    ensures AbsorbAll(c, VisitListed(u, id, visiting, base, ps[j..]))
         == AbsorbAll(AbsorbAll(c, VisitField(u, id, visiting, base, ps[j])), VisitListed(u, id, visiting, base, ps[j + 1..]))
  {
    assert ps[j..][1..] == ps[j + 1..] && ps[j..][0] == ps[j];
    AbsorbConcat(c, VisitField(u, id, visiting, base, ps[j]), VisitListed(u, id, visiting, base, ps[j + 1..]));
  }

  /** `types` are the stripped types behind the promoted fields `ps`. */
  ghost predicate TypesOf(u: Universe, id: nat, ps: seq<nat>, types: seq<Type>) {
    && |types| == |ps|
    && forall j | 0 <= j < |ps| :: IsPromoted(u, id, ps[j]) && types[j] == Strip(FieldsOf(u, id)[ps[j]].typ)
  }

  /** Before turn `i` of the first loop: what is left to record, and which promoted fields were set aside. */
  ghost predicate OwnLoop(u: Universe, id: nat, base: seq<nat>, i: nat, before: Candidates, now: Candidates,
                          numbers: seq<nat>, promoted: seq<Type>) {
    && i <= |FieldsOf(u, id)|
    && AbsorbAll(now, Own(u, id, base, i)) == AbsorbAll(before, Own(u, id, base, 0))
    && numbers + PromotedFrom(u, id, i) == PromotedFrom(u, id, 0)
    && TypesOf(u, id, numbers, promoted)
  }

  lemma {:induction false} PromotedOwnsNothing(u: Universe, id: nat, base: seq<nat>, i: nat)
    requires IsPromoted(u, id, i)
    ensures Own(u, id, base, i) == Own(u, id, base, i + 1)
    ensures PromotedFrom(u, id, i) == [i] + PromotedFrom(u, id, i + 1)
  {
    assert Own(u, id, base, i) == [] + Own(u, id, base, i + 1);
  }

  lemma {:induction false} PromotedTurn(u: Universe, id: nat, base: seq<nat>, i: nat, before: Candidates,
                                        now: Candidates,
                     numbers: seq<nat>, promoted: seq<Type>)
    requires OwnLoop(u, id, base, i, before, now, numbers, promoted) && IsPromoted(u, id, i)
    ensures OwnLoop(u, id, base, i + 1, before, now, numbers + [i], promoted + [Strip(FieldsOf(u, id)[i].typ)])
  {
    PromotedOwnsNothing(u, id, base, i);
    NumberSetAside(numbers, i, PromotedFrom(u, id, i), PromotedFrom(u, id, i + 1));
    TypeSetAside(u, id, numbers, promoted, i);
  }

  lemma {:induction false} NumberSetAside(numbers: seq<nat>, i: nat, rest: seq<nat>, rest': seq<nat>)
    requires rest == [i] + rest'
    ensures numbers + rest == (numbers + [i]) + rest'
  {
  }

  lemma {:induction false} TypeSetAside(u: Universe, id: nat, numbers: seq<nat>, types: seq<Type>, i: nat)
    requires TypesOf(u, id, numbers, types) && IsPromoted(u, id, i)
    ensures TypesOf(u, id, numbers + [i], types + [Strip(FieldsOf(u, id)[i].typ)])
  {
  }

  lemma {:induction false} RecordedTurn(u: Universe, id: nat, base: seq<nat>, i: nat, before: Candidates,
                                        now: Candidates,
                                        now': Candidates, numbers: seq<nat>, promoted: seq<Type>)
    requires OwnLoop(u, id, base, i, before, now, numbers, promoted) && i < |FieldsOf(u, id)|
    requires PromotedFrom(u, id, i) == PromotedFrom(u, id, i + 1)
    requires AbsorbAll(now', Own(u, id, base, i + 1)) == AbsorbAll(now, Own(u, id, base, i))
    ensures OwnLoop(u, id, base, i + 1, before, now', numbers, promoted)
  {
  }

  lemma {:induction false} OwnLoopStarts(u: Universe, id: nat, base: seq<nat>, now: Candidates)
    ensures OwnLoop(u, id, base, 0, now, now, [], [])
  {
  }

  lemma {:induction false} OwnLoopEnds(u: Universe, id: nat, base: seq<nat>, before: Candidates, now: Candidates,
                                       numbers: seq<nat>, promoted: seq<Type>)
    requires OwnLoop(u, id, base, |FieldsOf(u, id)|, before, now, numbers, promoted)
    ensures now == AbsorbAll(before, Own(u, id, base, 0)) && TypesOf(u, id, PromotedFrom(u, id, 0), promoted)
  {
    var n := |FieldsOf(u, id)|;
    assert Own(u, id, base, n) == [] && PromotedFrom(u, id, n) == [] && numbers + [] == numbers;
  }

  lemma {:induction false} AbsorbFirst(c: Candidates, o: Occurrence, rest: seq<Occurrence>)
    ensures AbsorbAll(c, [o] + rest) == AbsorbAll(Absorb(c, o), rest)
  {
    AbsorbConcat(c, [o], rest);
    assert AbsorbAll(c, [o]) == Absorb(AbsorbAll(c, []), o);
  }

  class FieldCollector {
    const u: Universe
    var candidates: Candidates
    var visiting: set<nat>

    constructor (u: Universe)
      ensures this.u == u && candidates == map[] && visiting == {}
    {
      this.u := u;
      candidates, visiting := map[], {};
    }

    /** Keep the best candidate for a name, remembering a tie. `o` is the occurrence being recorded. */
    method Record(name: string, typ: Type, depth: nat, tagged: bool, ghost o: Occurrence)
      requires o.name == name && o.typ == typ && |o.path| == depth && o.tagged == tagged
      modifies this`candidates
      ensures candidates == Absorb(old(candidates), o)
    {
      if name !in candidates || depth < candidates[name].depth
         || (depth == candidates[name].depth && tagged && !candidates[name].tagged) {
        candidates := candidates[name := Candidate(typ, depth, tagged, false)];
      } else if depth == candidates[name].depth && tagged == candidates[name].tagged {
        candidates := candidates[name := candidates[name].(ambiguous := true)];
      }
    }

    /** One turn of the first loop for a field that is recorded. */
    method RecordField(id: nat, i: nat, depth: nat, ghost base: seq<nat>)
      requires |base| == depth && i < |FieldsOf(u, id)| && !IsPromoted(u, id, i)
      modifies this`candidates
      ensures PromotedFrom(u, id, i) == PromotedFrom(u, id, i + 1)
      ensures AbsorbAll(candidates, Own(u, id, base, i + 1)) == AbsorbAll(old(candidates), Own(u, id, base, i))
    {
      var field := FieldsOf(u, id)[i];
      match RoleOf(u, field) {
        case Skipped =>
          assert Own(u, id, base, i) == Own(u, id, base, i + 1);
        case Recorded(name, tagged) =>
          ghost var o := Occurrence(base, i, name, field.typ, tagged);
          AbsorbFirst(candidates, o, Own(u, id, base, i + 1));
          Record(name, field.typ, depth, tagged, o);
      }
    }

    /** The first loop: record own members, remember the promoted ones for later. */
    method RecordOwn(id: nat, depth: nat, ghost base: seq<nat>) returns (promoted: seq<Type>)
      requires |base| == depth
      modifies this`candidates
      ensures candidates == AbsorbAll(old(candidates), Own(u, id, base, 0))
      ensures TypesOf(u, id, PromotedFrom(u, id, 0), promoted)
    {
      var fields := FieldsOf(u, id);
      promoted := [];
      ghost var numbers: seq<nat> := [];
      var i := 0;
      OwnLoopStarts(u, id, base, candidates);
      while i < |fields|
        invariant OwnLoop(u, id, base, i, old(candidates), candidates, numbers, promoted)
      {
        if RoleOf(u, fields[i]).Promoted? {
          PromotedTurn(u, id, base, i, old(candidates), candidates, numbers, promoted);
          promoted := promoted + [Strip(fields[i].typ)];
          numbers := numbers + [i];
        } else {
          ghost var now := candidates;
          RecordField(id, i, depth, base);
          RecordedTurn(u, id, base, i, old(candidates), now, candidates, numbers, promoted);
        }
        i := i + 1;
      }
      OwnLoopEnds(u, id, base, old(candidates), candidates, numbers, promoted);
    }

    /** The recursion: a struct being visited adds nothing, so it ends even on types that embed themselves. */
    method Collect(current: Type, depth: nat, ghost base: seq<nat>)
      requires |base| == depth
      modifies this
      ensures visiting == old(visiting)
      ensures candidates == AbsorbAll(old(candidates), VisitType(u, current, old(visiting), base))
      decreases |u.structs.Keys - visiting|, 1
    {
      var target := Strip(current);
      if !target.Struct? || target.id in visiting { return; }
      var id := target.id;
      if id !in u.structs { return; }  // undeclared: no fields to look at
      Shrinks(u, id, visiting);
      visiting := visiting + {id};
      var promoted := RecordOwn(id, depth, base);
      CollectPromoted(id, promoted, depth, base);
      visiting := visiting - {id};
      AbsorbConcat(old(candidates), Own(u, id, base, 0), VisitPromoted(u, id, old(visiting) + {id}, base, 0));
    }

    method CollectPromoted(ghost id: nat, promoted: seq<Type>, depth: nat, ghost base: seq<nat>)
      requires |base| == depth
      requires TypesOf(u, id, PromotedFrom(u, id, 0), promoted)
      modifies this
      ensures visiting == old(visiting)
      ensures candidates == AbsorbAll(old(candidates), VisitPromoted(u, id, visiting, base, 0))
      decreases |u.structs.Keys - visiting|, 2
    {
      ghost var numbers := PromotedFrom(u, id, 0);
      ghost var all := VisitListed(u, id, visiting, base, numbers);
      var j := 0;
      while j < |promoted|
        invariant 0 <= j <= |promoted| && visiting == old(visiting)
        invariant AbsorbAll(candidates, VisitListed(u, id, visiting, base, numbers[j..])) == AbsorbAll(old(candidates), all)
      {
        ListedTurn(u, id, visiting, base, numbers, j, candidates);
        Collect(promoted[j], depth + 1, base + [numbers[j]]);
        j := j + 1;
      }
      ListedIsPromoted(u, id, visiting, base, 0);
    }
  }

  /** What collecting a type visits: nothing unless it is a struct behind pointers. */
  function VisitType(u: Universe, t: Type, visiting: set<nat>, base: seq<nat>): seq<Occurrence> {
    if Strip(t).Struct? then Visit(u, Strip(t).id, visiting, base) else []
  }

  /** The members a type's JSON object may have, each with its type. */
  function TypedFields(u: Universe, t: Type): map<string, Type> {
    var c := AbsorbAll(map[], VisitType(u, t, {}, []));
    map name | name in c && !c[name].ambiguous :: c[name].typ
  }

  predicate HasMember(fields: map<string, Type>, name: string, typ: Type) {
    name in fields && fields[name] == typ
  }

  /** A name maps to a type exactly when one occurrence of that name beats all others over every embedding
      path; a type that is no struct has no members. */
  lemma {:induction false} TypedFieldsExactlySelected(u: Universe, t: Type, name: string, typ: Type)
    ensures HasMember(TypedFields(u, t), name, typ) <==> Strip(t).Struct? && SelectedAs(u, Strip(t).id, name, typ)
  {
    if Strip(t).Struct? {
      assert HasMember(TypedFields(u, t), name, typ) <==> Kept(Collected(u, Strip(t).id), name, typ);
      KeptExactlySelected(u, Strip(t).id, name, typ);
    }
  }

  method ResponseTypedFields(u: Universe, t: Type) returns (fields: map<string, Type>)
    ensures fields == TypedFields(u, t)
    ensures forall name, typ :: HasMember(fields, name, typ) <==> Strip(t).Struct? && SelectedAs(u, Strip(t).id, name, typ)
  {
    var collector := new FieldCollector(u);
    collector.Collect(t, 0, []);
    var candidates := collector.candidates;
    fields := map name | name in candidates && !candidates[name].ambiguous :: candidates[name].typ;
    forall name, typ
      ensures HasMember(fields, name, typ) <==> Strip(t).Struct? && SelectedAs(u, Strip(t).id, name, typ)
    {
      TypedFieldsExactlySelected(u, t, name, typ);
    }
  }
}

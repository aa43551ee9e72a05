/** What the guard asks of a response, type by type, and which members a plain struct has. */
module ResponseMeaning {
  import opened Options
  import opened ResponseTypes
  import opened ResponseFields
  import opened ResponseCollector
  import opened ResponseWalker
  import opened ResponseGuard

  // ---- the members of a struct that embeds nothing ----

  ghost predicate Flat(u: Universe, id: nat) {
    id in u.structs && forall i, t | 0 <= i < |u.structs[id]| :: !Embeds(u, u.structs[id][i], t)
  }

  ghost predicate Declares(u: Universe, f: Field, name: string, tagged: bool) {
    if tagged then Tags(u, f, name) else Plain(u, f, name)
  }

  /** Field `i` declares the name and nothing rivals it: every other field that does is untagged while it is tagged. */
  ghost predicate Wins(u: Universe, fields: seq<Field>, i: nat, name: string) {
    && i < |fields|
    && exists tagged :: Declares(u, fields[i], name, tagged)
         && forall j, other | 0 <= j < |fields| && j != i && Declares(u, fields[j], name, other) :: tagged && !other
  }

  lemma {:induction false} FlatPathsAreEmpty(u: Universe, id: nat, o: Occurrence)
    requires Flat(u, id) && Occurs(u, id, o)
    ensures o.path == []
  {
    if o.path != [] {
      RoleExactly(u, FieldsOf(u, id)[o.path[0]]);
      assert false;
    }
  }

  lemma {:induction false} DeclaredExactly(u: Universe, id: nat, o: Occurrence)
    requires id in u.structs && o.path == []
    ensures Occurs(u, id, o) <==>
      o.index < |u.structs[id]| && Declares(u, u.structs[id][o.index], o.name, o.tagged) && o.typ == u.structs[id][o.index].typ
  {
    if o.index < |u.structs[id]| { RoleExactly(u, u.structs[id][o.index]); }
  }

  lemma {:induction false} WinnerIsSelected(u: Universe, id: nat, i: nat, name: string)
    requires Flat(u, id) && Wins(u, u.structs[id], i, name)
    ensures SelectedAs(u, id, name, u.structs[id][i].typ)
  {
    var fields := u.structs[id];
    var tagged :| Declares(u, fields[i], name, tagged)
      && forall j, other | 0 <= j < |fields| && j != i && Declares(u, fields[j], name, other) :: tagged && !other;
    var o := Occurrence([], i, name, fields[i].typ, tagged);
    DeclaredExactly(u, id, o);
    forall other | Occurs(u, id, other) && other.name == name && other != o ensures Better(o, other) {
      FlatPathsAreEmpty(u, id, other);
      DeclaredExactly(u, id, other);
      OneRole(u, fields[i], name, tagged, other.tagged);
    }
    assert Selected(u, id, o);
  }

  /** A field declares a name either tagged or not. */
  lemma {:induction false} OneRole(u: Universe, f: Field, name: string, a: bool, b: bool)
    requires Declares(u, f, name, a)
    ensures Declares(u, f, name, b) ==> a == b
  {
    RoleExactly(u, f);
  }

  lemma {:induction false} SelectedIsWinner(u: Universe, id: nat, name: string, typ: Type) returns (i: nat)
    requires Flat(u, id) && SelectedAs(u, id, name, typ)
    ensures Wins(u, u.structs[id], i, name) && u.structs[id][i].typ == typ
  {
    var fields := u.structs[id];
    var o :| Selected(u, id, o) && o.name == name && o.typ == typ;
    FlatPathsAreEmpty(u, id, o);
    DeclaredExactly(u, id, o);
    i := o.index;
    forall j, other | 0 <= j < |fields| && j != i && Declares(u, fields[j], name, other) ensures o.tagged && !other {
      var rival := Occurrence([], j, name, fields[j].typ, other);
      DeclaredExactly(u, id, rival);
      assert Better(o, rival);
    }
  }

  /** The table of a struct that embeds nothing: a name has a type exactly when a field of that type declares it
      without a rival. */
  lemma {:induction false} FlatTable(u: Universe, id: nat, name: string, typ: Type)
    requires Flat(u, id)
    ensures HasMember(TypedFields(u, Struct(id)), name, typ) <==>
      exists i: nat :: Wins(u, u.structs[id], i, name) && u.structs[id][i].typ == typ
  {
    TypedFieldsExactlySelected(u, Struct(id), name, typ);
    if SelectedAs(u, id, name, typ) { var i := SelectedIsWinner(u, id, name, typ); }
    if i: nat :| Wins(u, u.structs[id], i, name) && u.structs[id][i].typ == typ { WinnerIsSelected(u, id, i, name); }
  }

  // ---- what is clean, type by type ----

  ghost predicate CleanAt(u: Universe, fold: Folding, t: Option<Type>, v: Json, depth: nat) {
    Clean(GuardRules(u, fold), t, v, depth)
  }

  lemma {:induction false} CleanExactlyTree(u: Universe, fold: Folding, t: Option<Type>, v: Json, depth: nat)
    ensures CleanAt(u, fold, t, v, depth) <==> CleanTree(GuardRules(u, fold), t, v, depth)
  {
    CleanExactlyCleanTree(GuardRules(u, fold), t, v, depth);
  }

  lemma {:induction false} MembersCleanExactly(g: Rules, r: Option<Type>, members: seq<Member>, depth: nat)
    ensures CleanMembers(g, r, members, depth) <==>
      forall i | 0 <= i < |members| ::
        g.allowed(r, members[i].key) && CleanTree(g, g.member(r, members[i].key), members[i].value, depth + 1)
  {
    if members != [] {
      MembersCleanExactly(g, r, members[1..], depth);
      assert members == [members[0]] + members[1..];
    }
  }

  lemma {:induction false} ItemsCleanExactly(g: Rules, r: Option<Type>, items: seq<Json>, depth: nat)
    ensures CleanItems(g, r, items, depth) <==> forall i | 0 <= i < |items| :: CleanTree(g, g.item(r), items[i], depth + 1)
  {
    if items != [] {
      ItemsCleanExactly(g, r, items[1..], depth);
      assert items == [items[0]] + items[1..];
    }
  }

  /** A value that is neither an object nor a list is clean unless it lies too deep. */
  lemma {:induction false} LeafClean(u: Universe, fold: Folding, t: Option<Type>, v: Json, depth: nat)
    requires v.Literal? || v.Str?
    ensures CleanAt(u, fold, t, v, depth) <==> depth <= 64
  {
    CleanExactlyTree(u, fold, t, v, depth);
  }

  /** Pointers are looked through. */
  lemma {:induction false} PointerClean(u: Universe, fold: Folding, elem: Type, v: Json, depth: nat)
    requires !OwnDecoder(u, Pointer(elem))
    ensures CleanAt(u, fold, Some(Pointer(elem)), v, depth) <==> CleanAt(u, fold, Some(elem), v, depth)
  {
    CleanExactlyTree(u, fold, Some(Pointer(elem)), v, depth);
    CleanExactlyTree(u, fold, Some(elem), v, depth);
  }

  /** Nothing is asked of the names below a type that decodes itself, or where nothing is declared. */
  lemma {:induction false} OpaqueClean(u: Universe, fold: Folding, t: Type, v: Json, depth: nat)
    requires OwnDecoder(u, t)
    ensures CleanAt(u, fold, Some(t), v, depth) <==> CleanAt(u, fold, None, v, depth)
  {
    CleanExactlyTree(u, fold, Some(t), v, depth);
    CleanExactlyTree(u, fold, None, v, depth);
  }

  lemma {:induction false} UndeclaredObject(u: Universe, fold: Folding, members: seq<Member>, depth: nat)
    ensures CleanAt(u, fold, None, Object(members), depth) <==>
      depth <= 64 && forall i | 0 <= i < |members| :: CleanAt(u, fold, None, members[i].value, depth + 1)
  {
    var g := GuardRules(u, fold);
    CleanExactlyTree(u, fold, None, Object(members), depth);
    MembersCleanExactly(g, None, members, depth);
    forall i | 0 <= i < |members|
      ensures CleanAt(u, fold, None, members[i].value, depth + 1) <==> CleanTree(g, None, members[i].value, depth + 1)
    {
      CleanExactlyTree(u, fold, None, members[i].value, depth + 1);
    }
  }

  lemma {:induction false} UndeclaredList(u: Universe, fold: Folding, items: seq<Json>, depth: nat)
    ensures CleanAt(u, fold, None, List(items), depth) <==>
      depth <= 64 && forall i | 0 <= i < |items| :: CleanAt(u, fold, None, items[i], depth + 1)
  {
    ListClean(u, fold, None, None, items, depth);
  }

  lemma {:induction false} ListClean(u: Universe, fold: Folding, t: Option<Type>, elem: Option<Type>, items: seq<Json>,
                                     depth: nat)
    requires ItemType(ResolveAt(u, t)) == elem
    ensures CleanAt(u, fold, t, List(items), depth) <==>
      depth <= 64 && forall i | 0 <= i < |items| :: CleanAt(u, fold, elem, items[i], depth + 1)
  {
    var g := GuardRules(u, fold);
    CleanExactlyTree(u, fold, t, List(items), depth);
    ItemsCleanExactly(g, g.resolve(t), items, depth);
    forall i | 0 <= i < |items|
      ensures CleanAt(u, fold, elem, items[i], depth + 1) <==> CleanTree(g, elem, items[i], depth + 1)
    {
      CleanExactlyTree(u, fold, elem, items[i], depth + 1);
    }
  }

  /** The items of a slice or an array are of its element type. */
  lemma {:induction false} SliceClean(u: Universe, fold: Folding, elem: Type, items: seq<Json>, depth: nat)
    ensures !OwnDecoder(u, Slice(elem)) ==>
      (CleanAt(u, fold, Some(Slice(elem)), List(items), depth) <==>
       depth <= 64 && forall i | 0 <= i < |items| :: CleanAt(u, fold, Some(elem), items[i], depth + 1))
    ensures !OwnDecoder(u, Array(elem)) ==>
      (CleanAt(u, fold, Some(Array(elem)), List(items), depth) <==>
       depth <= 64 && forall i | 0 <= i < |items| :: CleanAt(u, fold, Some(elem), items[i], depth + 1))
  {
    if !OwnDecoder(u, Slice(elem)) { ListClean(u, fold, Some(Slice(elem)), Some(elem), items, depth); }
    if !OwnDecoder(u, Array(elem)) { ListClean(u, fold, Some(Array(elem)), Some(elem), items, depth); }
  }

  /** A map's keys are free and its values of its element type. */
  lemma {:induction false} MapClean(u: Universe, fold: Folding, elem: Type, members: seq<Member>, depth: nat)
    requires !OwnDecoder(u, Map(elem))
    ensures CleanAt(u, fold, Some(Map(elem)), Object(members), depth) <==>
      depth <= 64 && forall i | 0 <= i < |members| :: CleanAt(u, fold, Some(elem), members[i].value, depth + 1)
  {
    var g := GuardRules(u, fold);
    CleanExactlyTree(u, fold, Some(Map(elem)), Object(members), depth);
    MembersCleanExactly(g, Some(Map(elem)), members, depth);
    forall i | 0 <= i < |members|
      ensures CleanAt(u, fold, Some(elem), members[i].value, depth + 1) <==> CleanTree(g, Some(elem), members[i].value, depth + 1)
    {
      CleanExactlyTree(u, fold, Some(elem), members[i].value, depth + 1);
    }
  }

  /** A member of a struct's object has the selected type under its exact name; any other key must fold to no member,
      and nothing is declared behind it. */
  ghost predicate StructMember(u: Universe, fold: Folding, id: nat, m: Member, depth: nat) {
    var fields := TypedFields(u, Struct(id));
    if m.key in fields then CleanAt(u, fold, Some(fields[m.key]), m.value, depth)
    else (forall name | name in fields :: fold(name) != fold(m.key)) && CleanAt(u, fold, None, m.value, depth)
  }

  lemma {:induction false} StructClean(u: Universe, fold: Folding, id: nat, members: seq<Member>, depth: nat)
    requires !OwnDecoder(u, Struct(id))
    ensures CleanAt(u, fold, Some(Struct(id)), Object(members), depth) <==>
      depth <= 64 && forall i | 0 <= i < |members| :: StructMember(u, fold, id, members[i], depth + 1)
  {
    var g := GuardRules(u, fold);
    var r := Some(Struct(id));
    CleanExactlyTree(u, fold, r, Object(members), depth);
    MembersCleanExactly(g, r, members, depth);
    forall i | 0 <= i < |members|
      ensures StructMember(u, fold, id, members[i], depth + 1) <==>
        g.allowed(r, members[i].key) && CleanTree(g, g.member(r, members[i].key), members[i].value, depth + 1)
    {
      MemberCleanExactly(u, fold, id, members[i], depth + 1);
    }
  }

  lemma {:induction false} MemberCleanExactly(u: Universe, fold: Folding, id: nat, m: Member, depth: nat)
    ensures var g := GuardRules(u, fold);
      StructMember(u, fold, id, m, depth) <==>
        g.allowed(Some(Struct(id)), m.key) && CleanTree(g, g.member(Some(Struct(id)), m.key), m.value, depth)
  {
    CleanExactlyTree(u, fold, GuardRules(u, fold).member(Some(Struct(id)), m.key), m.value, depth);
  }
}

/** The alias guard over a response: a recursive walk of the token stream that refines a condition on the
    JSON tree. */
module ResponseWalker {
  import opened Options
  import opened ResponseTypes
  import opened ResponseCollector

  datatype Token = ObjectOpen | ObjectClose | ArrayOpen | ArrayClose | Text(text: string) | Atom(literal: string)

  /** A JSON value (sections 3 to 7 of RFC 8259). Atoms are numbers, booleans and null. */
  datatype Json =
    | Literal(literal: string)
    | Str(text: string)
    | Object(members: seq<Member>)
    | List(items: seq<Json>)

  datatype Member = Member(key: string, value: Json)

  const MAX_DEPTH: nat := 64

  /** What the guard asks at a position of declared type `t` (None where nothing is declared): the type whose
      members are checked, whether a key may stand there, and what the members and items are declared as. */
  datatype Rules = Rules(resolve: Option<Type> -> Option<Type>,
                         allowed: (Option<Type>, string) -> bool,
                         member: (Option<Type>, string) -> Option<Type>,
                         item: Option<Type> -> Option<Type>)

  // ---- the tree condition, position by position ----

  /** The value at an address of child numbers. */
  function NodeAt(v: Json, address: seq<nat>): Option<Json>
    decreases |address|
  {
    if address == [] then Some(v)
    else
      match v
      case Object(members) => if address[0] < |members| then NodeAt(members[address[0]].value, address[1..]) else None
      case List(items) => if address[0] < |items| then NodeAt(items[address[0]], address[1..]) else None
      case _ => None
  }

  /** The declared type there, None where nothing is declared. */
  function TypeAt(g: Rules, t: Option<Type>, v: Json, address: seq<nat>): Option<Type>
    requires NodeAt(v, address).Some?
    decreases |address|
  {
    var r := g.resolve(t);
    if address == [] then r
    else
      match v
      case Object(members) => TypeAt(g, g.member(r, members[address[0]].key), members[address[0]].value, address[1..])
      case List(items) => TypeAt(g, g.item(r), items[address[0]], address[1..])
  }

  /** Nothing lies deeper than the limit, and no struct-typed object has an inexact spelling of a member. */
  ghost predicate Clean(g: Rules, t: Option<Type>, v: Json, depth: nat) {
    forall address | NodeAt(v, address).Some? :: PositionClean(g, t, v, depth, address)
  }

  ghost predicate PositionClean(g: Rules, t: Option<Type>, v: Json, depth: nat, address: seq<nat>)
    requires NodeAt(v, address).Some?
  {
    var node := NodeAt(v, address).value;
    && depth + |address| <= 64
    && (node.Object? ==>
          forall i | 0 <= i < |node.members| :: g.allowed(TypeAt(g, t, v, address), node.members[i].key))
  }

  // ---- the token stream of a tree ----

  function Tokens(v: Json): seq<Token>
    decreases v, 1
  {
    match v
    case Literal(l) => [Atom(l)]
    case Str(s) => [Text(s)]
    case Object(members) => [ObjectOpen] + MemberTokens(members) + [ObjectClose]
    case List(items) => [ArrayOpen] + ItemTokens(items) + [ArrayClose]
  }

  function MemberTokens(members: seq<Member>): seq<Token>
    decreases members, 0
  {
    if members == [] then []
    else [Text(members[0].key)] + Tokens(members[0].value) + MemberTokens(members[1..])
  }

  function ItemTokens(items: seq<Json>): seq<Token>
    decreases items, 0
  {
    if items == [] then [] else Tokens(items[0]) + ItemTokens(items[1..])
  }

  // ---- the walk as a function: where in the stream it ends, or None for a refusal ----

  function Walk(g: Rules, ts: seq<Token>, p: nat, t: Option<Type>, depth: nat): (r: Option<nat>)
    requires p <= |ts|
    ensures r.Some? ==> p < r.value <= |ts|
    decreases |ts| - p, 1
  {
    if depth > MAX_DEPTH || p == |ts| then None
    else
      match ts[p]
      case Atom(_) => Some(p + 1)
      case Text(_) => Some(p + 1)
      case ObjectOpen => WalkMembers(g, ts, p + 1, g.resolve(t), depth)
      case ArrayOpen => WalkItems(g, ts, p + 1, g.resolve(t), depth)
      case _ => None
  }

  /** The members and the closing brace. */
  function WalkMembers(g: Rules, ts: seq<Token>, p: nat, r: Option<Type>, depth: nat): (end: Option<nat>)
    requires p <= |ts|
    ensures end.Some? ==> p < end.value <= |ts|
    decreases |ts| - p, 2
  {
    if p == |ts| then None
    else if ts[p] == ObjectClose then Some(p + 1)
    else if !ts[p].Text? || !g.allowed(r, ts[p].text) then None
    else
      match Walk(g, ts, p + 1, g.member(r, ts[p].text), depth + 1)
      case None => None
      case Some(q) => WalkMembers(g, ts, q, r, depth)
  }

  function WalkItems(g: Rules, ts: seq<Token>, p: nat, r: Option<Type>, depth: nat): (end: Option<nat>)
    requires p <= |ts|
    ensures end.Some? ==> p < end.value <= |ts|
    decreases |ts| - p, 2
  {
    if p == |ts| then None
    else if ts[p] == ArrayClose then Some(p + 1)
    else if ts[p] == ObjectClose then None
    else
      match Walk(g, ts, p, g.item(r), depth + 1)
      case None => None
      case Some(q) => WalkItems(g, ts, q, r, depth)
  }

  // ---- the walk computes a structural condition ----

  predicate CleanTree(g: Rules, t: Option<Type>, v: Json, depth: nat)
    decreases v, 1
  {
    && depth <= MAX_DEPTH
    && match v
       case Object(members) => CleanMembers(g, g.resolve(t), members, depth)
       case List(items) => CleanItems(g, g.resolve(t), items, depth)
       case _ => true
  }

  predicate CleanMembers(g: Rules, r: Option<Type>, members: seq<Member>, depth: nat)
    decreases members, 0
  {
    members == [] ||
    (&& g.allowed(r, members[0].key)
     && CleanTree(g, g.member(r, members[0].key), members[0].value, depth + 1)
     && CleanMembers(g, r, members[1..], depth))
  }

  predicate CleanItems(g: Rules, r: Option<Type>, items: seq<Json>, depth: nat)
    decreases items, 0
  {
    items == [] ||
    (CleanTree(g, g.item(r), items[0], depth + 1) && CleanItems(g, r, items[1..], depth))
  }

  /** What the walk makes of a value that ends at `end`. */
  function Outcome(clean: bool, end: nat): Option<nat> {
    if clean then Some(end) else None
  }

  /** `part` stands in `ts` at `p`. */
  ghost predicate At(ts: seq<Token>, p: nat, part: seq<Token>) {
    p + |part| <= |ts| && forall i | 0 <= i < |part| :: ts[p + i] == part[i]
  }

  lemma {:induction false} AtSplits(ts: seq<Token>, p: nat, a: seq<Token>, b: seq<Token>)
    ensures At(ts, p, a + b) <==> At(ts, p, a) && At(ts, p + |a|, b)
  {
    if At(ts, p, a + b) {
      forall i | 0 <= i < |a| ensures ts[p + i] == a[i] { assert ts[p + i] == (a + b)[i]; }
      forall i | 0 <= i < |b| ensures ts[p + |a| + i] == b[i] { assert ts[p + (|a| + i)] == (a + b)[|a| + i]; }
    }
  }

  lemma {:induction false} AtOne(ts: seq<Token>, p: nat, token: Token)
    ensures At(ts, p, [token]) <==> p < |ts| && ts[p] == token
  {
    assert [token][0] == token;
  }

  lemma {:induction false} WalkExactlyCleanTree(g: Rules, v: Json, ts: seq<Token>, p: nat, t: Option<Type>, depth: nat)
    requires At(ts, p, Tokens(v))
    ensures Walk(g, ts, p, t, depth) == Outcome(CleanTree(g, t, v, depth), p + |Tokens(v)|)
    decreases v, 1
  {
    match v
    case Literal(l) => AtOne(ts, p, Atom(l));
    case Str(s) => AtOne(ts, p, Text(s));
    case Object(members) =>
      Bracketed(ts, p, ObjectOpen, MemberTokens(members), ObjectClose);
      WalkExactlyCleanMembers(g, members, ts, p + 1, g.resolve(t), depth);
    case List(items) =>
      Bracketed(ts, p, ArrayOpen, ItemTokens(items), ArrayClose);
      WalkExactlyCleanItems(g, items, ts, p + 1, g.resolve(t), depth);
  }

  lemma {:induction false} Bracketed(ts: seq<Token>, p: nat, open: Token, body: seq<Token>, close: Token)
    ensures At(ts, p, [open] + body + [close])
       <==> p < |ts| && ts[p] == open && At(ts, p + 1, body) && p + 1 + |body| < |ts| && ts[p + 1 + |body|] == close
  {
    AtSplits(ts, p, [open] + body, [close]);
    AtSplits(ts, p, [open], body);
    AtOne(ts, p, open);
    AtOne(ts, p + 1 + |body|, close);
  }

  lemma {:induction false} WalkExactlyCleanMembers(g: Rules, members: seq<Member>, ts: seq<Token>, p: nat,
                                                   r: Option<Type>, depth: nat)
    requires At(ts, p, MemberTokens(members))
    requires p + |MemberTokens(members)| < |ts| && ts[p + |MemberTokens(members)|] == ObjectClose
    ensures WalkMembers(g, ts, p, r, depth)
         == Outcome(CleanMembers(g, r, members, depth), p + |MemberTokens(members)| + 1)
    decreases members, 0
  {
    if members != [] {
      FirstMember(ts, p, members);
      var child := members[0].value;
      WalkExactlyCleanTree(g, child, ts, p + 1, g.member(r, members[0].key), depth + 1);
      WalkExactlyCleanMembers(g, members[1..], ts, p + 1 + |Tokens(child)|, r, depth);
    }
  }

  lemma {:induction false} FirstMember(ts: seq<Token>, p: nat, members: seq<Member>)
    requires members != [] && At(ts, p, MemberTokens(members))
    ensures |MemberTokens(members)| == 1 + |Tokens(members[0].value)| + |MemberTokens(members[1..])|
    ensures ts[p] == Text(members[0].key) && At(ts, p + 1, Tokens(members[0].value))
    ensures At(ts, p + 1 + |Tokens(members[0].value)|, MemberTokens(members[1..]))
  {
    Keyed(ts, p, MemberTokens(members), Text(members[0].key), Tokens(members[0].value), MemberTokens(members[1..]));
  }

  lemma {:induction false} Keyed(ts: seq<Token>, p: nat, whole: seq<Token>, key: Token, value: seq<Token>,
                                 others: seq<Token>)
    requires whole == [key] + value + others
    ensures |whole| == 1 + |value| + |others|
    ensures At(ts, p, whole)
       <==> p < |ts| && ts[p] == key && At(ts, p + 1, value) && At(ts, p + 1 + |value|, others)
  {
    AtSplits(ts, p, [key] + value, others);
    AtSplits(ts, p, [key], value);
    AtOne(ts, p, key);
  }

  lemma {:induction false} WalkExactlyCleanItems(g: Rules, items: seq<Json>, ts: seq<Token>, p: nat,
                                                 r: Option<Type>, depth: nat)
    requires At(ts, p, ItemTokens(items))
    requires p + |ItemTokens(items)| < |ts| && ts[p + |ItemTokens(items)|] == ArrayClose
    ensures WalkItems(g, ts, p, r, depth) == Outcome(CleanItems(g, r, items, depth), p + |ItemTokens(items)| + 1)
    decreases items, 0
  {
    if items != [] {
      FirstItem(ts, p, items);
      WalkExactlyCleanTree(g, items[0], ts, p, g.item(r), depth + 1);
      WalkExactlyCleanItems(g, items[1..], ts, p + |Tokens(items[0])|, r, depth);
    }
  }

  lemma {:induction false} FirstItem(ts: seq<Token>, p: nat, items: seq<Json>)
    requires items != []
    ensures |ItemTokens(items)| == |Tokens(items[0])| + |ItemTokens(items[1..])|
    ensures At(ts, p, ItemTokens(items))
       <==> At(ts, p, Tokens(items[0])) && At(ts, p + |Tokens(items[0])|, ItemTokens(items[1..]))
    ensures At(ts, p, Tokens(items[0])) ==> p < |ts| && ts[p] != ObjectClose && ts[p] != ArrayClose
  {
    var value, others := Tokens(items[0]), ItemTokens(items[1..]);
    assert ItemTokens(items) == value + others;
    FirstToken(items[0]);
    AtSplits(ts, p, value, others);
    assert At(ts, p, value) ==> ts[p + 0] == value[0];
  }

  lemma {:induction false} FirstToken(v: Json)
    ensures Tokens(v) != [] && Tokens(v)[0] != ObjectClose && Tokens(v)[0] != ArrayClose
  {
  }

  // ---- the structural condition is the condition on positions ----

  /** The child of `v` at number `i`, with the type the parent gives it. */
  ghost predicate ChildOf(g: Rules, r: Option<Type>, v: Json, i: nat, child: Json, t: Option<Type>) {
    match v
    case Object(members) => i < |members| && child == members[i].value && t == g.member(r, members[i].key)
    case List(items) => i < |items| && child == items[i] && t == g.item(r)
    case _ => false
  }

  lemma {:induction false} PositionInChild(g: Rules, t: Option<Type>, v: Json, depth: nat, i: nat, child: Json,
                        ct: Option<Type>, address: seq<nat>)
    requires ChildOf(g, g.resolve(t), v, i, child, ct)
    ensures NodeAt(v, [i] + address) == NodeAt(child, address)
    ensures NodeAt(child, address).Some? ==>
      (PositionClean(g, t, v, depth, [i] + address) <==> PositionClean(g, ct, child, depth + 1, address))
  {
    assert ([i] + address)[1..] == address;
  }

  lemma {:induction false} CleanChild(g: Rules, t: Option<Type>, v: Json, depth: nat, i: nat, child: Json,
                                      ct: Option<Type>)
    requires Clean(g, t, v, depth) && ChildOf(g, g.resolve(t), v, i, child, ct)
    ensures Clean(g, ct, child, depth + 1)
  {
    forall address | NodeAt(child, address).Some? ensures PositionClean(g, ct, child, depth + 1, address) {
      PositionInChild(g, t, v, depth, i, child, ct, address);
      assert PositionClean(g, t, v, depth, [i] + address);
    }
  }

  lemma {:induction false} MembersAt(g: Rules, r: Option<Type>, members: seq<Member>, depth: nat, i: nat)
    requires CleanMembers(g, r, members, depth) && i < |members|
    ensures g.allowed(r, members[i].key)
    ensures CleanTree(g, g.member(r, members[i].key), members[i].value, depth + 1)
    decreases i
  {
    if i > 0 {
      assert members[1..][i - 1] == members[i];
      MembersAt(g, r, members[1..], depth, i - 1);
    }
  }

  lemma {:induction false} ItemsAt(g: Rules, r: Option<Type>, items: seq<Json>, depth: nat, i: nat)
    requires CleanItems(g, r, items, depth) && i < |items|
    ensures CleanTree(g, g.item(r), items[i], depth + 1)
    decreases i
  {
    if i > 0 {
      assert items[1..][i - 1] == items[i];
      ItemsAt(g, r, items[1..], depth, i - 1);
    }
  }

  /** Every position of a structurally clean tree is clean. */
  lemma {:induction false} CleanTreeAt(g: Rules, t: Option<Type>, v: Json, depth: nat, address: seq<nat>)
    requires CleanTree(g, t, v, depth) && NodeAt(v, address).Some?
    ensures PositionClean(g, t, v, depth, address)
    decreases |address|
  {
    var r := g.resolve(t);
    if address == [] {
      if v.Object? {
        forall i | 0 <= i < |v.members| ensures g.allowed(r, v.members[i].key) {
          MembersAt(g, r, v.members, depth, i);
        }
      }
    } else {
      var i, rest := address[0], address[1..];
      assert address == [i] + rest;
      match v
      case Object(members) =>
        MembersAt(g, r, members, depth, i);
        CleanTreeAt(g, g.member(r, members[i].key), members[i].value, depth + 1, rest);
        PositionInChild(g, t, v, depth, i, members[i].value, g.member(r, members[i].key), rest);
      case List(items) =>
        ItemsAt(g, r, items, depth, i);
        CleanTreeAt(g, g.item(r), items[i], depth + 1, rest);
        PositionInChild(g, t, v, depth, i, items[i], g.item(r), rest);
    }
  }

  lemma {:induction false} CleanIsCleanTree(g: Rules, t: Option<Type>, v: Json, depth: nat)
    requires Clean(g, t, v, depth)
    ensures CleanTree(g, t, v, depth)
    decreases v, 1
  {
    assert NodeAt(v, []).Some? && PositionClean(g, t, v, depth, []);
    var r := g.resolve(t);
    match v
    case Object(members) =>
      forall i | 0 <= i < |members| ensures CleanTree(g, g.member(r, members[i].key), members[i].value, depth + 1) {
        CleanChild(g, t, v, depth, i, members[i].value, g.member(r, members[i].key));
        CleanIsCleanTree(g, g.member(r, members[i].key), members[i].value, depth + 1);
      }
      AllMembersClean(g, r, members, depth);
    case List(items) =>
      forall i | 0 <= i < |items| ensures CleanTree(g, g.item(r), items[i], depth + 1) {
        CleanChild(g, t, v, depth, i, items[i], g.item(r));
        CleanIsCleanTree(g, g.item(r), items[i], depth + 1);
      }
      AllItemsClean(g, r, items, depth);
    case _ =>
  }

  lemma {:induction false} AllMembersClean(g: Rules, r: Option<Type>, members: seq<Member>, depth: nat)
    requires forall i | 0 <= i < |members| ::
               g.allowed(r, members[i].key)
               && CleanTree(g, g.member(r, members[i].key), members[i].value, depth + 1)
    ensures CleanMembers(g, r, members, depth)
    decreases |members|
  {
    if members != [] {
      AllMembersClean(g, r, members[1..], depth);
    }
  }

  lemma {:induction false} AllItemsClean(g: Rules, r: Option<Type>, items: seq<Json>, depth: nat)
    requires forall i | 0 <= i < |items| :: CleanTree(g, g.item(r), items[i], depth + 1)
    ensures CleanItems(g, r, items, depth)
    decreases |items|
  {
    if items != [] {
      AllItemsClean(g, r, items[1..], depth);
    }
  }

  lemma {:induction false} CleanExactlyCleanTree(g: Rules, t: Option<Type>, v: Json, depth: nat)
    ensures Clean(g, t, v, depth) <==> CleanTree(g, t, v, depth)
  {
    if Clean(g, t, v, depth) {
      CleanIsCleanTree(g, t, v, depth);
    } else if CleanTree(g, t, v, depth) {
      forall address | NodeAt(v, address).Some? ensures PositionClean(g, t, v, depth, address) {
        CleanTreeAt(g, t, v, depth, address);
      }
    }
  }

  /** On the tokens of a value, whatever stands before and after, the walk succeeds exactly when every position
      is clean, and then ends exactly behind the value. */
  lemma {:induction false} WalkExactlyClean(g: Rules, v: Json, ts: seq<Token>, p: nat, t: Option<Type>, depth: nat)
    requires At(ts, p, Tokens(v))
    ensures Walk(g, ts, p, t, depth) == if Clean(g, t, v, depth) then Some(p + |Tokens(v)|) else None
  {
    WalkExactlyCleanTree(g, v, ts, p, t, depth);
    CleanExactlyCleanTree(g, t, v, depth);
  }

  // ---- whatever the walk accepts is one value ----

  lemma {:induction false} WalkedIsAValue(g: Rules, ts: seq<Token>, p: nat, t: Option<Type>, depth: nat)
    returns (v: Json)
    requires p <= |ts| && Walk(g, ts, p, t, depth).Some?
    ensures At(ts, p, Tokens(v)) && Walk(g, ts, p, t, depth) == Some(p + |Tokens(v)|)
    decreases |ts| - p, 1
  {
    match ts[p]
    case Atom(l) =>
      v := Literal(l);
      AtOne(ts, p, ts[p]);
    case Text(s) =>
      v := Str(s);
      AtOne(ts, p, ts[p]);
    case ObjectOpen => v := WalkedIsAnObject(g, ts, p, t, depth);
    case ArrayOpen => v := WalkedIsAList(g, ts, p, t, depth);
  }

  lemma {:induction false} WalkedIsAnObject(g: Rules, ts: seq<Token>, p: nat, t: Option<Type>, depth: nat)
    returns (v: Json)
    requires p < |ts| && ts[p] == ObjectOpen && Walk(g, ts, p, t, depth).Some?
    ensures At(ts, p, Tokens(v)) && Walk(g, ts, p, t, depth) == Some(p + |Tokens(v)|)
    decreases |ts| - p, 0
  {
    var members := WalkedAreMembers(g, ts, p + 1, g.resolve(t), depth);
    v := Object(members);
    Bracketed(ts, p, ObjectOpen, MemberTokens(members), ObjectClose);
  }

  lemma {:induction false} WalkedIsAList(g: Rules, ts: seq<Token>, p: nat, t: Option<Type>, depth: nat)
    returns (v: Json)
    requires p < |ts| && ts[p] == ArrayOpen && Walk(g, ts, p, t, depth).Some?
    ensures At(ts, p, Tokens(v)) && Walk(g, ts, p, t, depth) == Some(p + |Tokens(v)|)
    decreases |ts| - p, 0
  {
    var items := WalkedAreItems(g, ts, p + 1, g.resolve(t), depth);
    v := List(items);
    Bracketed(ts, p, ArrayOpen, ItemTokens(items), ArrayClose);
  }

  lemma {:induction false} AddedMember(ts: seq<Token>, p: nat, key: string, child: Json, others: seq<Member>)
    requires p < |ts| && ts[p] == Text(key) && At(ts, p + 1, Tokens(child))
    requires At(ts, p + 1 + |Tokens(child)|, MemberTokens(others))
    ensures At(ts, p, MemberTokens([Member(key, child)] + others))
    ensures |MemberTokens([Member(key, child)] + others)| == 1 + |Tokens(child)| + |MemberTokens(others)|
  {
    var members := [Member(key, child)] + others;
    assert members[1..] == others;
    Keyed(ts, p, MemberTokens(members), Text(key), Tokens(child), MemberTokens(others));
  }

  lemma {:induction false} WalkedAreMembers(g: Rules, ts: seq<Token>, p: nat, r: Option<Type>, depth: nat)
    returns (members: seq<Member>)
    requires p <= |ts| && WalkMembers(g, ts, p, r, depth).Some?
    ensures At(ts, p, MemberTokens(members)) && p + |MemberTokens(members)| < |ts|
    ensures ts[p + |MemberTokens(members)|] == ObjectClose
    ensures WalkMembers(g, ts, p, r, depth) == Some(p + |MemberTokens(members)| + 1)
    decreases |ts| - p, 2
  {
    if ts[p] == ObjectClose {
      members := [];
    } else {
      var child := WalkedIsAValue(g, ts, p + 1, g.member(r, ts[p].text), depth + 1);
      var others := WalkedAreMembers(g, ts, p + 1 + |Tokens(child)|, r, depth);
      members := [Member(ts[p].text, child)] + others;
      AddedMember(ts, p, ts[p].text, child, others);
    }
  }

  lemma {:induction false} AddedItem(ts: seq<Token>, p: nat, first: Json, others: seq<Json>)
    requires At(ts, p, Tokens(first)) && At(ts, p + |Tokens(first)|, ItemTokens(others))
    ensures At(ts, p, ItemTokens([first] + others))
    ensures |ItemTokens([first] + others)| == |Tokens(first)| + |ItemTokens(others)|
  {
    var items := [first] + others;
    assert items[1..] == others;
    FirstItem(ts, p, items);
  }

  lemma {:induction false} WalkedAreItems(g: Rules, ts: seq<Token>, p: nat, r: Option<Type>, depth: nat)
    returns (items: seq<Json>)
    requires p <= |ts| && WalkItems(g, ts, p, r, depth).Some?
    ensures At(ts, p, ItemTokens(items)) && p + |ItemTokens(items)| < |ts|
    ensures ts[p + |ItemTokens(items)|] == ArrayClose
    ensures WalkItems(g, ts, p, r, depth) == Some(p + |ItemTokens(items)| + 1)
    decreases |ts| - p, 2
  {
    if ts[p] == ArrayClose {
      items := [];
    } else {
      var first := WalkedIsAValue(g, ts, p, g.item(r), depth + 1);
      var others := WalkedAreItems(g, ts, p + |Tokens(first)|, r, depth);
      items := [first] + others;
      AddedItem(ts, p, first, others);
    }
  }

  /** The guard accepts a whole stream: one value and nothing after it. */
  predicate Accepts(g: Rules, ts: seq<Token>, t: Option<Type>) {
    Walk(g, ts, 0, t, 0) == Some(|ts|)
  }

  /** The guard accepts exactly the token streams of clean values. */
  lemma {:induction false} AcceptsExactlyCleanValues(g: Rules, ts: seq<Token>, t: Option<Type>)
    ensures Accepts(g, ts, t) <==> exists v :: Tokens(v) == ts && Clean(g, t, v, 0)
  {
    if Accepts(g, ts, t) {
      var v := WalkedIsAValue(g, ts, 0, t, 0);
      WalkExactlyClean(g, v, ts, 0, t, 0);
    }
    forall v | Tokens(v) == ts && Clean(g, t, v, 0) ensures Accepts(g, ts, t) {
      WalkExactlyClean(g, v, ts, 0, t, 0);
    }
  }
}

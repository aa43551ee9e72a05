/** The alias guard: the rules it walks by, read off the declared types, and the walker as it runs over a
    stateful token decoder with a cache of member tables. */
module ResponseGuard {
  import opened Options
  import opened ResponseTypes
  import opened ResponseFields
  import opened ResponseCollector
  import opened ResponseWalker

  /** How keys are compared ignoring case: two spellings are equal when they fold to the same string. */
  type Folding = string -> string

  /** The type whose members are checked: behind pointers, unless a custom decoder takes over. */
  function Resolve(u: Universe, t: Type): Option<Type> {
    if UsesUnmarshaler(u, t) then None
    else if t.Pointer? then Resolve(u, t.elem)
    else Some(t)
  }

  function ResolveAt(u: Universe, t: Option<Type>): Option<Type> {
    match t
    case None => None
    case Some(typ) => Resolve(u, typ)
  }

  predicate FoldsToMember(fold: Folding, fields: map<string, Type>, key: string) {
    exists name | name in fields :: fold(name) == fold(key)
  }

  /** A key of a struct-typed object must be exact unless it folds to no member at all. */
  predicate KeyAllowed(u: Universe, fold: Folding, t: Option<Type>, key: string) {
    t.Some? && t.value.Struct? ==>
      key in TypedFields(u, t.value) || !FoldsToMember(fold, TypedFields(u, t.value), key)
  }

  function MemberType(u: Universe, t: Option<Type>, key: string): Option<Type> {
    match t
    case Some(Struct(_)) =>
      var fields := TypedFields(u, t.value);
      if key in fields then Some(fields[key]) else None
    case Some(Map(elem)) => Some(elem)
    case _ => None
  }

  function ItemType(t: Option<Type>): Option<Type> {
    match t
    case Some(Slice(elem)) => Some(elem)
    case Some(Array(elem)) => Some(elem)
    case _ => None
  }

  function GuardRules(u: Universe, fold: Folding): Rules {
    Rules(t => ResolveAt(u, t), (t, key) => KeyAllowed(u, fold, t, key), (t, key) => MemberType(u, t, key), ItemType)
  }

  /** The struct at a position, and the members selected over all its embedding paths, decide which keys are
      refused there: exactly the inexact spellings of a selected member that are no selected member themselves. */
  lemma {:induction false} RefusedKeysAreAliases(u: Universe, fold: Folding, id: nat, key: string)
    ensures KeyAllowed(u, fold, Some(Struct(id)), key) <==>
      (&& (exists name, typ :: SelectedAs(u, id, name, typ) && fold(name) == fold(key))
       ==> exists typ :: SelectedAs(u, id, key, typ))
  {
    var fields := TypedFields(u, Struct(id));
    forall name, typ ensures HasMember(fields, name, typ) <==> SelectedAs(u, id, name, typ) {
      TypedFieldsExactlySelected(u, Struct(id), name, typ);
    }
    if key in fields { assert SelectedAs(u, id, key, fields[key]); }
    if typ :| SelectedAs(u, id, key, typ) { assert HasMember(fields, key, typ); }
    if FoldsToMember(fold, fields, key) {
      var name :| name in fields && fold(name) == fold(key);
      assert SelectedAs(u, id, name, fields[name]);
    }
    if name, typ :| SelectedAs(u, id, name, typ) && fold(name) == fold(key) {
      assert HasMember(fields, name, typ);
    }
  }

  class AliasWalker {
    const u: Universe
    const fold: Folding
    const tokens: seq<Token>
    var position: nat
    var cache: map<Type, map<string, Type>>

    ghost predicate Valid() reads this {
      position <= |tokens| && forall t | t in cache :: cache[t] == TypedFields(u, t)
    }

    constructor (u: Universe, fold: Folding, tokens: seq<Token>)
      ensures Valid() && position == 0
      ensures this.u == u && this.fold == fold && this.tokens == tokens
    {
      this.u, this.fold, this.tokens := u, fold, tokens;
      position, cache := 0, map[];
    }

    /** The decoder's next token; nothing at the end of the stream. */
    method NextToken() returns (token: Option<Token>)
      requires Valid()
      modifies this`position
      ensures Valid()
      ensures old(position) == |tokens| ==> token == None && position == old(position)
      ensures old(position) < |tokens| ==> token == Some(tokens[old(position)]) && position == old(position) + 1
    {
      if position == |tokens| { return None; }
      token := Some(tokens[position]);
      position := position + 1;
    }

    /** Whether another element of the current object or list follows. */
    method More() returns (more: bool)
      requires Valid()
      ensures more <==> position < |tokens| && tokens[position] != ObjectClose && tokens[position] != ArrayClose
    {
      more := position < |tokens| && tokens[position] != ObjectClose && tokens[position] != ArrayClose;
    }

    method FieldsOfType(t: Type) returns (fields: map<string, Type>)
      requires Valid()
      modifies this`cache
      ensures Valid() && fields == TypedFields(u, t)
    {
      if t !in cache {
        var computed := ResponseTypedFields(u, t);
        cache := cache[t := computed];
      }
      fields := cache[t];
    }

    method CheckValue(typ: Option<Type>, depth: nat) returns (ok: bool)
      requires Valid()
      modifies this
      ensures Valid() && position >= old(position)
      ensures Walk(GuardRules(u, fold), tokens, old(position), typ, depth) == if ok then Some(position) else None
      decreases |tokens| - position, 1
    {
      if depth > MAX_DEPTH { return false; }
      var checked := typ;
      while checked.Some?
        invariant ResolveAt(u, checked) == ResolveAt(u, typ)
        decreases if checked.Some? then checked.value else Interface
      {
        if UsesUnmarshaler(u, checked.value) { checked := None; break; }
        if !checked.value.Pointer? { break; }
        checked := Some(checked.value.elem);
      }
      assert checked == ResolveAt(u, typ);
      var token := NextToken();
      match token {
        case None => return false;
        case Some(ObjectOpen) => ok := CheckMembers(checked, depth);
        case Some(ArrayOpen) => ok := CheckItems(checked, depth);
        case Some(ObjectClose) => return false;
        case Some(ArrayClose) => return false;
        case Some(_) => return true;
      }
    }

    /** Whether the table has another spelling of `key`. */
    method HasAlias(fields: map<string, Type>, key: string) returns (alias: bool)
      ensures alias <==> FoldsToMember(fold, fields, key)
    {
      var names := fields.Keys;
      while names != {}
        invariant names <= fields.Keys
        invariant forall name | name in fields && fold(name) == fold(key) :: name in names
      {
        var canonical :| canonical in names;
        if fold(canonical) == fold(key) { return true; }
        names := names - {canonical};
      }
      alias := false;
    }

    /** What a key leads to; a refusal when it is an inexact spelling of a member. */
    method CheckKey(typ: Option<Type>, key: string) returns (ok: bool, child: Option<Type>)
      requires Valid()
      modifies this`cache
      ensures Valid()
      ensures ok <==> KeyAllowed(u, fold, typ, key)
      ensures child == MemberType(u, typ, key)
    {
      ok, child := true, None;
      match typ {
        case Some(Struct(_)) =>
          var fields := FieldsOfType(typ.value);
          if key in fields {
            child := Some(fields[key]);
          } else {
            var alias := HasAlias(fields, key);
            ok := !alias;
          }
        case Some(Map(elem)) => child := Some(elem);
        case _ =>
      }
    }

    /** One turn of the object loop: a key, and the value behind it. */
    method CheckMember(typ: Option<Type>, depth: nat) returns (ok: bool)
      requires Valid() && position < |tokens| && tokens[position] != ObjectClose && tokens[position] != ArrayClose
      modifies this
      ensures Valid() && position >= old(position) && (ok ==> position > old(position))
      ensures WalkMembers(GuardRules(u, fold), tokens, old(position), typ, depth)
           == if ok then WalkMembers(GuardRules(u, fold), tokens, position, typ, depth) else None
      decreases |tokens| - position, 1
    {
      var keyToken := NextToken();
      if !keyToken.value.Text? { return false; }
      var key := keyToken.value.text;
      var allowed, child := CheckKey(typ, key);
      if !allowed { return false; }
      ok := CheckValue(child, depth + 1);
    }

    method CheckMembers(typ: Option<Type>, depth: nat) returns (ok: bool)
      requires Valid()
      modifies this
      ensures Valid() && position >= old(position)
      ensures WalkMembers(GuardRules(u, fold), tokens, old(position), typ, depth) == if ok then Some(position) else None
      decreases |tokens| - position, 2
    {
      ghost var whole := WalkMembers(GuardRules(u, fold), tokens, position, typ, depth);
      var more := More();
      while more
        invariant Valid() && position >= old(position)
        invariant more <==> position < |tokens| && tokens[position] != ObjectClose && tokens[position] != ArrayClose
        invariant WalkMembers(GuardRules(u, fold), tokens, position, typ, depth) == whole
        decreases |tokens| - position
      {
        var memberOk := CheckMember(typ, depth);
        if !memberOk { return false; }
        more := More();
      }
      var end := NextToken();
      ok := end == Some(ObjectClose);
    }

    method CheckItems(typ: Option<Type>, depth: nat) returns (ok: bool)
      requires Valid()
      modifies this
      ensures Valid() && position >= old(position)
      ensures WalkItems(GuardRules(u, fold), tokens, old(position), typ, depth) == if ok then Some(position) else None
      decreases |tokens| - position, 2
    {
      ghost var whole := WalkItems(GuardRules(u, fold), tokens, position, typ, depth);
      var element := ItemType(typ);
      var more := More();
      while more
        invariant Valid() && position >= old(position)
        invariant more <==> position < |tokens| && tokens[position] != ObjectClose && tokens[position] != ArrayClose
        invariant WalkItems(GuardRules(u, fold), tokens, position, typ, depth) == whole
        decreases |tokens| - position
      {
        var itemOk := CheckValue(element, depth + 1);
        if !itemOk { return false; }
        more := More();
      }
      var end := NextToken();
      ok := end == Some(ArrayClose);
    }
  }

  /** The guard over a whole response: it accepts exactly the token streams of one value that is clean at every
      position, with nothing after it. */
  method RejectTypedResponseAliases(u: Universe, fold: Folding, tokens: seq<Token>, typ: Type) returns (ok: bool)
    ensures ok <==> exists v :: Tokens(v) == tokens && Clean(GuardRules(u, fold), Some(typ), v, 0)
  {
    AcceptsExactlyCleanValues(GuardRules(u, fold), tokens, Some(typ));
    var walker := new AliasWalker(u, fold, tokens);
    ok := walker.CheckValue(Some(typ), 0);
    if ok {
      var trailing := walker.NextToken();
      ok := trailing == None;
    }
  }
}

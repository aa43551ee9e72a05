/** Reflected Go types as the response guard sees them. Struct types are named by number, so a type may
    embed itself through any chain of structs. */
module ResponseTypes {
  import opened Options

  datatype Type =
    | Scalar(kind: string)
    | Interface
    | Pointer(elem: Type)
    | Struct(id: nat)
    | Map(elem: Type)
    | Slice(elem: Type)
    | Array(elem: Type)

  datatype Field = Field(name: string, tag: string, exported: bool, anonymous: bool, typ: Type)

  /** The declarations in scope: struct fields in order, the types with their own JSON decoding, and the
      letters and digits beyond ASCII that a tag name may use. */
  datatype Universe = Universe(structs: map<nat, seq<Field>>, unmarshalers: set<Type>, letters: set<char>)

  function Strip(t: Type): (r: Type)
    ensures !r.Pointer?
  {
    if t.Pointer? then Strip(t.elem) else t
  }

  predicate UsesUnmarshaler(u: Universe, t: Type) {
    t in u.unmarshalers || (!t.Pointer? && Pointer(t) in u.unmarshalers)
  }

  function BeforeComma(tag: string): string {
    if tag == "" || tag[0] == ',' then "" else [tag[0]] + BeforeComma(tag[1..])
  }

  predicate TagRune(u: Universe, c: char) {
    c in "!#$%&()*+-./:;<=>?@[]^_{|}~ " || 'a' <= c <= 'z' || 'A' <= c <= 'Z' || '0' <= c <= '9' || c in u.letters
  }

  /** The name an encoding/json tag really sets; an invalid one is ignored. */
  function TagName(u: Universe, tag: string): string {
    var name := BeforeComma(tag);
    if forall c | c in name :: TagRune(u, c) then name else ""
  }

  /** What a declared field contributes to its struct's JSON members. */
  datatype Role = Skipped | Promoted(id: nat) | Recorded(name: string, tagged: bool)

  function RoleOf(u: Universe, f: Field): Role {
    var name := TagName(u, f.tag);
    var target := Strip(f.typ);
    if f.tag == "-" then Skipped
    else if f.anonymous && name == "" && !UsesUnmarshaler(u, f.typ) && target.Struct? then Promoted(target.id)
    else if !f.exported && !(f.anonymous && name != "" && target.Struct?) then Skipped
    else Recorded(if name == "" then f.name else name, name != "")
  }

  // ---- what a field contributes, read off its declaration ----

  /** A name a tag may set. */
  predicate JsonName(u: Universe, name: string) {
    && name != "" && ',' !in name
    && forall c | c in name ::
         c in "!#$%&()*+-./:;<=>?@[]^_{|}~ " || 'a' <= c <= 'z' || 'A' <= c <= 'Z' || '0' <= c <= '9' || c in u.letters
  }

  /** The tag is this name, alone or before a comma and options. */
  predicate Names(u: Universe, tag: string, name: string) {
    JsonName(u, name) && (tag == name || name + "," <= tag)
  }

  ghost predicate Nameless(u: Universe, tag: string) {
    forall name :: !Names(u, tag, name)
  }

  /** `t` is that struct, or any number of pointers to it. */
  predicate Behind(t: Type, id: nat) {
    t == Struct(id) || (t.Pointer? && Behind(t.elem, id))
  }

  predicate OwnDecoder(u: Universe, t: Type) {
    t in u.unmarshalers || (!t.Pointer? && Pointer(t) in u.unmarshalers)
  }

  lemma {:induction false} BeforeFirstComma(tag: string)
    ensures ',' !in BeforeComma(tag)
    ensures tag == BeforeComma(tag) || BeforeComma(tag) + "," <= tag
  {
    if tag != "" && tag[0] != ',' { BeforeFirstComma(tag[1..]); }
  }

  lemma {:induction false} CommaEnds(tag: string, name: string)
    requires ',' !in name && (tag == name || name + "," <= tag)
    ensures BeforeComma(tag) == name
  {
    if name == "" {
      assert tag == "" || tag[0] == ',';
    } else {
      assert tag[0] == name[0];
      CommaEnds(tag[1..], name[1..]);
    }
  }

  /** The letters `tag` sets are those before its first comma, when all of them are allowed. */
  lemma {:induction false} TagNameExactly(u: Universe, tag: string, name: string)
    ensures name != "" ==> (TagName(u, tag) == name <==> Names(u, tag, name))
  {
    BeforeFirstComma(tag);
    if Names(u, tag, name) { CommaEnds(tag, name); }
  }

  lemma {:induction false} NamelessExactly(u: Universe, tag: string)
    ensures TagName(u, tag) == "" <==> Nameless(u, tag)
  {
    TagNameExactly(u, tag, TagName(u, tag));
    forall name ensures Names(u, tag, name) ==> TagName(u, tag) == name { TagNameExactly(u, tag, name); }
  }

  lemma {:induction false} StripExactly(t: Type, id: nat)
    ensures Strip(t) == Struct(id) <==> Behind(t, id)
  {
    if t.Pointer? { StripExactly(t.elem, id); }
  }

  /** An embedded struct without a name of its own and without its own decoding hands on its members. */
  ghost predicate Embeds(u: Universe, f: Field, id: nat) {
    f.tag != "-" && f.anonymous && Nameless(u, f.tag) && !OwnDecoder(u, f.typ) && Behind(f.typ, id)
  }

  /** A named field is recorded under its tag's name; it must be exported or an embedded struct. */
  ghost predicate Tags(u: Universe, f: Field, name: string) {
    f.tag != "-" && Names(u, f.tag, name) && (f.exported || (f.anonymous && exists id :: Behind(f.typ, id)))
  }

  /** An exported field without a name in its tag is recorded under its own. */
  ghost predicate Plain(u: Universe, f: Field, name: string) {
    f.tag != "-" && Nameless(u, f.tag) && name == f.name && f.exported && forall id :: !Embeds(u, f, id)
  }

  /** What a field contributes, for every declaration. */
  lemma {:induction false} RoleExactly(u: Universe, f: Field)
    ensures forall id :: RoleOf(u, f) == Promoted(id) <==> Embeds(u, f, id)
    ensures forall name :: RoleOf(u, f) == Recorded(name, true) <==> Tags(u, f, name)
    ensures forall name :: RoleOf(u, f) == Recorded(name, false) <==> Plain(u, f, name)
  {
    NamelessExactly(u, f.tag);
    forall name ensures name != "" ==> (TagName(u, f.tag) == name <==> Names(u, f.tag, name)) { TagNameExactly(u, f.tag, name); }
    forall id ensures Strip(f.typ) == Struct(id) <==> Behind(f.typ, id) { StripExactly(f.typ, id); }
    if Strip(f.typ).Struct? { assert Behind(f.typ, Strip(f.typ).id); }
  }

  function FieldsOf(u: Universe, id: nat): seq<Field> {
    if id in u.structs then u.structs[id] else []
  }
}

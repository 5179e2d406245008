/**
 * The small slice of the GraphQL abstract syntax that the schema augmenter
 * reads and writes: type references in list / non-null notation (sections
 * 3.11 and 3.12 of the June 2018 GraphQL specification), argument, field and
 * type definitions, and a snapshot of a whole schema.
 */
module Ast {

  datatype Option<T> = None | Some(value: T)

  /** The kind of a type definition. */
  datatype Kind = Scalar | Object | Interface | Union | Enum | InputObject

  /**
   * A type reference: a named type or a list of some element type, each with
   * its own non-null flag (the list's flag is independent of the element's).
   */
  datatype TypeRef = Named(name: string, nonNull: bool) | List(elem: TypeRef, nonNull: bool)
  {
    /** The base named type, found by looking through every list level. */
    function Name(): string
    {
      match this
      case Named(n, _) => n
      case List(e, _) => e.Name()
    }

    /** Canonical notation: `[elem]` for a list, a `!` suffix when non-null. */
    function String(): string
    {
      var bang := if nonNull then "!" else "";
      match this
      case Named(n, _) => n + bang
      case List(e, _) => "[" + e.String() + "]" + bang
    }
  }

  datatype Argument = Argument(name: string, typ: TypeRef)

  datatype Field = Field(name: string, args: seq<Argument>, typ: TypeRef)

  datatype Definition = Definition(kind: Kind, name: string, fields: seq<Field>, enumValues: seq<string>)

  /**
   * A schema as the rules and the serializer see it: `types` is None for a
   * nil type map; `query` and `mutation` are None for nil roots.
   */
  datatype SchemaValue = SchemaValue(types: Option<map<string, Definition>>,
                                     query: Option<Definition>,
                                     mutation: Option<Definition>)

  /** The name of the built-in ID scalar. */
  const IdScalar: string := "ID"

  /** A field counts as an ID field when the base name of its type is `ID`. */
  predicate IsIdField(f: Field)
  {
    f.typ.Name() == IdScalar
  }

  /** ASCII lower-casing of one character. */
  function LowerChar(c: char): char
  {
    if 'A' <= c <= 'Z' then (c as int + 32) as char else c
  }

  /** ASCII lower-casing of a string. */
  function ToLower(s: string): (r: string)
    ensures |r| == |s|
    ensures forall i :: 0 <= i < |s| ==> r[i] == LowerChar(s[i])
  {
    if s == [] then [] else [LowerChar(s[0])] + ToLower(s[1..])
  }

  predicate HasPrefix(s: string, p: string)
  {
    |p| <= |s| && s[..|p|] == p
  }

  predicate HasSuffix(s: string, p: string)
  {
    |p| <= |s| && s[|s| - |p|..] == p
  }

  // ---------------------------------------------------------------------
  // Reading the canonical notation back: the partner of TypeRef.String().

  /** A named-type name the notation can carry unambiguously. */
  predicate ValidName(n: string)
  {
    |n| > 0 && forall i :: 0 <= i < |n| ==> n[i] != '[' && n[i] != ']' && n[i] != '!'
  }

  predicate WellNamed(t: TypeRef)
  {
    match t
    case Named(n, _) => ValidName(n)
    case List(e, _) => WellNamed(e)
  }

  /** Reads a type reference written in list / non-null notation. */
  function ParseTypeRef(s: string): Option<TypeRef>
    decreases |s|
  {
    var nonNull := |s| > 0 && s[|s| - 1] == '!';
    var body := if nonNull then s[..|s| - 1] else s;
    if 2 <= |body| && body[0] == '[' && body[|body| - 1] == ']' then
      match ParseTypeRef(body[1..|body| - 1])
      case None => None
      case Some(e) => Some(List(e, nonNull))
    else if ValidName(body) then Some(Named(body, nonNull))
    else None
  }

  /** A trailing `!` is read as the non-null flag and removed, and only then. */
  lemma StripBang(body: string, nonNull: bool)
    requires |body| > 0 && body[|body| - 1] != '!'
    ensures var s := body + (if nonNull then "!" else "");
            (|s| > 0 && s[|s| - 1] == '!') == nonNull &&
            (if nonNull then s[..|s| - 1] else s) == body
  {
    if !nonNull {
      assert body + "" == body;
    }
  }

  lemma NamedRoundTrip(n: string, nonNull: bool)
    requires ValidName(n)
    ensures ParseTypeRef(Named(n, nonNull).String()) == Some(Named(n, nonNull))
  {
    StripBang(n, nonNull);
    assert n[0] != '[';
  }

  lemma ListRoundTrip(e: TypeRef, nonNull: bool)
    requires ParseTypeRef(e.String()) == Some(e)
    ensures ParseTypeRef(List(e, nonNull).String()) == Some(List(e, nonNull))
  {
    var inner := e.String();
    var body := "[" + inner + "]";
    var s := body + (if nonNull then "!" else "");
    assert List(e, nonNull).String() == s;
    StripBang(body, nonNull);
    assert 2 <= |body| && body[0] == '[' && body[|body| - 1] == ']';
    assert body[1..|body| - 1] == inner;
  }

  /** The notation loses nothing: every well-named reference reads back as itself. */
  lemma {:induction false} ParseStringRoundTrip(t: TypeRef)
    requires WellNamed(t)
    ensures ParseTypeRef(t.String()) == Some(t)
  {
    match t
    case Named(n, nn) =>
      NamedRoundTrip(n, nn);
    case List(e, nn) =>
      ParseStringRoundTrip(e);
      ListRoundTrip(e, nn);
  }
}

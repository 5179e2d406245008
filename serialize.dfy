/**
 * Rendering a schema as text. Types are put into sections by kind (and,
 * for kinds other than object, scalar, input object and enum, by the suffix
 * of their key); the sections are written in a fixed order, followed by the
 * Query and Mutation roots. Names starting with `__` are never written.
 */
module Serialize {
  import opened Ast
  import opened Derive
  import opened Augment

  /** Names the GraphQL parser reserves for introspection. */
  predicate Reserved(name: string)
  {
    HasPrefix(name, "__")
  }

  function FieldLine(f: Field): string
  {
    "\t" + f.name + ": " + f.typ.String() + "\n"
  }

  /** The lines of an input or object type's body. */
  function FieldLines(fs: seq<Field>): string
  {
    if fs == [] then ""
    else
      var f := fs[|fs| - 1];
      FieldLines(fs[..|fs| - 1]) + (if Reserved(f.name) then "" else FieldLine(f))
  }

  function InputString(d: Definition): string
  {
    "input " + d.name + " {\n" + FieldLines(d.fields) + "}\n"
  }

  function ObjectString(d: Definition): string
  {
    "type " + d.name + " {\n" + FieldLines(d.fields) + "}\n"
  }

  function EnumLines(vs: seq<string>): string
  {
    if vs == [] then ""
    else
      var v := vs[|vs| - 1];
      EnumLines(vs[..|vs| - 1]) + (if Reserved(v) then "" else "\t" + v + "\n")
  }

  function EnumString(d: Definition): string
  {
    "enum " + d.name + " {\n" + EnumLines(d.enumValues) + "}\n"
  }

  function ScalarString(d: Definition): string
  {
    "scalar " + d.name + "\n"
  }

  function ArgText(a: Argument): string
  {
    a.name + ": " + a.typ.String()
  }

  /** The first `n` arguments as the root-field writer emits them: a comma after each but the last of all. */
  function ArgPieces(args: seq<Argument>, n: nat): string
    requires n <= |args|
  {
    if n == 0 then ""
    else ArgPieces(args, n - 1) + ArgText(args[n - 1]) + (if n - 1 != |args| - 1 then "," else "")
  }

  function ArgsString(args: seq<Argument>): string
  {
    ArgPieces(args, |args|)
  }

  /** Reference notation: the arguments joined by single commas. */
  function Join(args: seq<Argument>): string
  {
    if args == [] then ""
    else if |args| == 1 then ArgText(args[0])
    else Join(args[..|args| - 1]) + "," + ArgText(args[|args| - 1])
  }

  function RootLine(f: Field): string
  {
    "\t" + f.name + "(" + ArgsString(f.args) + "): " + f.typ.String() + "\n"
  }

  function RootLines(fs: seq<Field>): string
  {
    if fs == [] then ""
    else
      var f := fs[|fs| - 1];
      RootLines(fs[..|fs| - 1]) + (if Reserved(f.name) then "" else RootLine(f))
  }

  /** A root type, written under the name Query or Mutation whatever its own name. */
  function QMString(isQuery: bool, qry: Definition): string
  {
    "type " + (if isQuery then "Query" else "Mutation") + " {\n" + RootLines(qry.fields) + "}\n"
  }

  datatype Section = ObjectSection | ScalarSection | InputSection | RefSection | FilterSection | PayloadSection | Dropped

  /**
   * The section a type goes to: by kind for objects, scalars, input objects
   * and enums; by the suffix of its key only for the other kinds.
   */
  function Bucket(name: string, d: Definition): Section
  {
    if d.kind == Object then ObjectSection
    else if d.kind == Scalar then ScalarSection
    else if d.kind == InputObject then InputSection
    else if d.kind == Enum then InputSection
    else if HasSuffix(name, "Filter") then FilterSection
    else if HasSuffix(name, "Payload") then PayloadSection
    else if HasSuffix(name, "Ref") then RefSection
    else Dropped
  }

  /**
   * Kind decides first: only an interface or a union is placed by the
   * suffix of its key, and then only into the section that suffix names.
   */
  lemma BucketByKind(name: string, d: Definition)
    ensures d.kind == Object <==> Bucket(name, d) == ObjectSection
    ensures d.kind == Scalar <==> Bucket(name, d) == ScalarSection
    ensures d.kind == InputObject || d.kind == Enum <==> Bucket(name, d) == InputSection
    ensures Bucket(name, d) == FilterSection <==> (d.kind == Interface || d.kind == Union) && HasSuffix(name, "Filter")
    ensures Bucket(name, d) == PayloadSection <==> (d.kind == Interface || d.kind == Union) && HasSuffix(name, "Payload")
    ensures Bucket(name, d) == RefSection <==> (d.kind == Interface || d.kind == Union) && HasSuffix(name, "Ref")
  {
    if HasSuffix(name, "Payload") {
      assert name[|name| - 1] == 'd';
    }
    if HasSuffix(name, "Ref") {
      assert name[|name| - 1] == 'f';
    }
  }

  /** What one type contributes to its section. */
  function Chunk(name: string, d: Definition): (r: string)
    ensures r == "" <==> Bucket(name, d) == Dropped
  {
    match Bucket(name, d)
    case ObjectSection => ObjectString(d) + "\n"
    case ScalarSection => ScalarString(d)
    case InputSection => (if d.kind == Enum then EnumString(d) else InputString(d)) + "\n"
    case RefSection => InputString(d) + "\n"
    case FilterSection => InputString(d) + "\n"
    case PayloadSection => ObjectString(d) + "\n"
    case Dropped => ""
  }

  /** The text of section `sec`: the chunks of its types, in visiting order. */
  function SectionText(m: map<string, Definition>, order: seq<string>, sec: Section): string
    requires forall n :: n in order ==> n in m
  {
    if order == [] then ""
    else
      var n := order[|order| - 1];
      SectionText(m, order[..|order| - 1], sec) + Part(n, m[n], sec)
  }

  /** What one type contributes to section `sec`: its chunk if it belongs there. */
  function Part(name: string, d: Definition, sec: Section): string
  {
    if Bucket(name, d) == sec then Chunk(name, d) else ""
  }

  /**
   * The schema as text, the type map being visited in `order`: objects,
   * scalars and a blank line, inputs and enums, Ref, Filter and Payload
   * sections, then Query and Mutation.
   */
  function Stringify(s: SchemaValue, order: seq<string>): (r: string)
    requires IsOrder(order, Base(s.types))
    ensures r == "" <==> s.types.None?
  {
    if s.types.None? then ""
    else
      var m := s.types.value;
      var text :=
        SectionText(m, order, ObjectSection) +
        SectionText(m, order, ScalarSection) + "\n" +
        SectionText(m, order, InputSection) +
        SectionText(m, order, RefSection) +
        SectionText(m, order, FilterSection) +
        SectionText(m, order, PayloadSection) +
        (if s.query.Some? then QMString(true, s.query.value) else "") +
        (if s.mutation.Some? then QMString(false, s.mutation.value) else "");
      assert |text| > 0;
      text
  }

  // ---------------------------------------------------------------------
  // Reserved names are never written.

  lemma {:induction false} FieldLinesAppend(a: seq<Field>, b: seq<Field>)
    ensures FieldLines(a + b) == FieldLines(a) + FieldLines(b)
  {
    if b != [] {
      var n := |b| - 1;
      FieldLinesAppend(a, b[..n]);
      assert (a + b)[..|a + b| - 1] == a + b[..n];
    } else {
      assert a + b == a;
    }
  }

  lemma ReservedFieldLines(a: seq<Field>, f: Field, b: seq<Field>)
    requires Reserved(f.name)
    ensures FieldLines(a + [f] + b) == FieldLines(a + b)
  {
    var x, y := FieldLines(a), FieldLines(b);
    assert FieldLines([f]) == "" by {
      assert [f][..0] == [];
    }
    calc {
      FieldLines(a + [f] + b);
      { FieldLinesAppend(a + [f], b); }
      FieldLines(a + [f]) + y;
      { FieldLinesAppend(a, [f]); }
      x + FieldLines([f]) + y;
      x + "" + y;
      { assert x + "" == x; }
      x + y;
      { FieldLinesAppend(a, b); }
      FieldLines(a + b);
    }
  }

  /** Adding or removing a field with a reserved name anywhere leaves an input or object type's text unchanged. */
  lemma ReservedFieldHidden(d: Definition, a: seq<Field>, f: Field, b: seq<Field>)
    requires Reserved(f.name) && d.fields == a + [f] + b
    ensures ObjectString(d) == ObjectString(d.(fields := a + b))
    ensures InputString(d) == InputString(d.(fields := a + b))
  {
    ReservedFieldLines(a, f, b);
  }

  lemma {:induction false} EnumLinesAppend(a: seq<string>, b: seq<string>)
    ensures EnumLines(a + b) == EnumLines(a) + EnumLines(b)
  {
    if b != [] {
      var n := |b| - 1;
      EnumLinesAppend(a, b[..n]);
      assert (a + b)[..|a + b| - 1] == a + b[..n];
    } else {
      assert a + b == a;
    }
  }

  lemma ReservedEnumLines(a: seq<string>, v: string, b: seq<string>)
    requires Reserved(v)
    ensures EnumLines(a + [v] + b) == EnumLines(a + b)
  {
    var x, y := EnumLines(a), EnumLines(b);
    assert EnumLines([v]) == "" by {
      assert [v][..0] == [];
    }
    calc {
      EnumLines(a + [v] + b);
      { EnumLinesAppend(a + [v], b); }
      EnumLines(a + [v]) + y;
      { EnumLinesAppend(a, [v]); }
      x + EnumLines([v]) + y;
      x + "" + y;
      { assert x + "" == x; }
      x + y;
      { EnumLinesAppend(a, b); }
      EnumLines(a + b);
    }
  }

  /** Adding or removing an enum value with a reserved name leaves the enum's text unchanged. */
  lemma ReservedEnumValueHidden(d: Definition, a: seq<string>, v: string, b: seq<string>)
    requires Reserved(v) && d.enumValues == a + [v] + b
    ensures EnumString(d) == EnumString(d.(enumValues := a + b))
  {
    ReservedEnumLines(a, v, b);
  }

  lemma {:induction false} RootLinesAppend(a: seq<Field>, b: seq<Field>)
    ensures RootLines(a + b) == RootLines(a) + RootLines(b)
  {
    if b != [] {
      var n := |b| - 1;
      RootLinesAppend(a, b[..n]);
      assert (a + b)[..|a + b| - 1] == a + b[..n];
    } else {
      assert a + b == a;
    }
  }

  lemma ReservedRootLines(a: seq<Field>, f: Field, b: seq<Field>)
    requires Reserved(f.name)
    ensures RootLines(a + [f] + b) == RootLines(a + b)
  {
    var x, y := RootLines(a), RootLines(b);
    assert RootLines([f]) == "" by {
      assert [f][..0] == [];
    }
    calc {
      RootLines(a + [f] + b);
      { RootLinesAppend(a + [f], b); }
      RootLines(a + [f]) + y;
      { RootLinesAppend(a, [f]); }
      x + RootLines([f]) + y;
      x + "" + y;
      { assert x + "" == x; }
      x + y;
      { RootLinesAppend(a, b); }
      RootLines(a + b);
    }
  }

  /** Adding or removing a root field with a reserved name leaves the root's text unchanged. */
  lemma ReservedRootFieldHidden(isQuery: bool, d: Definition, a: seq<Field>, f: Field, b: seq<Field>)
    requires Reserved(f.name) && d.fields == a + [f] + b
    ensures QMString(isQuery, d) == QMString(isQuery, d.(fields := a + b))
  {
    ReservedRootLines(a, f, b);
  }

  // ---------------------------------------------------------------------
  // Root field notation.

  /** The writer's comma placement is a plain join: commas between arguments, none trailing. */
  lemma {:induction false} ArgPiecesJoin(args: seq<Argument>, n: nat)
    requires n <= |args|
    ensures 0 < n < |args| ==> ArgPieces(args, n) == Join(args[..n]) + ","
    ensures n == |args| ==> ArgPieces(args, n) == Join(args)
  {
    if n > 0 {
      ArgPiecesJoin(args, n - 1);
      var pre := args[..n];
      assert pre[..n - 1] == args[..n - 1];
      assert pre[n - 1] == args[n - 1];
      if n == |args| {
        assert pre == args;
      }
    }
  }

  lemma ArgsStringIsJoin(args: seq<Argument>)
    ensures ArgsString(args) == Join(args)
  {
    ArgPiecesJoin(args, |args|);
  }

  lemma NotReserved(p: string, t: string)
    requires |p| > 0 && p[0] != '_'
    ensures !Reserved(p + t)
  {
    assert (p + t)[0] == p[0];
  }

  lemma ArgsStringSingle(a: Argument)
    ensures ArgsString([a]) == ArgText(a)
  {
    assert ArgPieces([a], 0) == "";
  }

  /** A root field that is not reserved contributes its own line. */
  lemma RootLinesOne(f: Field)
    requires !Reserved(f.name)
    ensures RootLines([f]) == RootLine(f)
  {
    assert [f][..0] == [];
  }

  lemma RootLinesTwo(f: Field, g: Field)
    requires !Reserved(f.name) && !Reserved(g.name)
    ensures RootLines([f, g]) == RootLine(f) + RootLine(g)
  {
    assert [f, g][..1] == [f];
    RootLinesOne(f);
  }

  // The lines the augmentation's root fields render to, for an object type `t`.

  /** `getT(id: ID!): T!` */
  function GetText(t: string): string
  {
    "\tget" + t + "(id: ID!): " + t + "!\n"
  }

  /** `queryT(filter: TFilter!): [T!]!` */
  function QueryText(t: string): string
  {
    "\tquery" + t + "(filter: " + t + "Filter!): [" + t + "!]!\n"
  }

  /** `addT(input: TInput!): AddTPayload!` */
  function AddText(t: string): string
  {
    "\tadd" + t + "(input: " + t + "Input!): Add" + t + "Payload!\n"
  }

  /** `updateT(id: ID!,input: TUpdate): UpdateTPayload!`: no blank after the comma. */
  function UpdateText(t: string): string
  {
    "\tupdate" + t + "(id: ID!,input: " + t + "Update): Update" + t + "Payload!\n"
  }

  /** `deleteT(id: ID!): DeleteTPayload!` */
  function DeleteText(t: string): string
  {
    "\tdelete" + t + "(id: ID!): Delete" + t + "Payload!\n"
  }

  lemma GetLineText(t: string)
    ensures "\t" + ("get" + t) + "(" + "id: ID!" + "): " + (t + "!") + "\n" == GetText(t)
  {
  }

  lemma GetLine(defn: Definition)
    ensures RootLine(QueryFields(defn)[0]) == GetText(defn.name)
  {
    var f := QueryFields(defn)[0];
    assert ArgsString(f.args) == "id: ID!" by {
      ArgsStringSingle(f.args[0]);
      assert f.args == [f.args[0]];
    }
    assert f.typ.String() == defn.name + "!";
    GetLineText(defn.name);
  }

  lemma QueryLineText(t: string)
    ensures "\t" + ("query" + t) + "(" + ("filter: " + t + "Filter!") + "): " + ("[" + t + "!]!") + "\n" == QueryText(t)
  {
  }

  lemma QueryLine(defn: Definition)
    ensures RootLine(QueryFields(defn)[1]) == QueryText(defn.name)
  {
    var f := QueryFields(defn)[1];
    assert ArgsString(f.args) == "filter: " + defn.name + "Filter!" by {
      ArgsStringSingle(f.args[0]);
      assert f.args == [f.args[0]];
    }
    assert f.typ.String() == "[" + defn.name + "!]!";
    QueryLineText(defn.name);
  }

  /** The two arguments of `updateT`, written with the writer's separator. */
  lemma UpdateArgs(defn: Definition)
    ensures ArgsString(MutationFields(defn)[1].args) == "id: ID!,input: " + defn.name + "Update"
  {
    var args := MutationFields(defn)[1].args;
    ArgsStringIsJoin(args);
    assert args[..1] == [args[0]];
    assert ArgText(args[0]) == "id: ID!";
    assert ArgText(args[1]) == "input: " + defn.name + "Update";
  }

  lemma UpdateLineText(t: string)
    ensures "\t" + ("update" + t) + "(" + ("id: ID!,input: " + t + "Update") + "): " + ("Update" + t + "Payload!") + "\n" ==
            UpdateText(t)
  {
  }

  lemma UpdateLine(defn: Definition)
    ensures RootLine(MutationFields(defn)[1]) == UpdateText(defn.name)
  {
    var f := MutationFields(defn)[1];
    UpdateArgs(defn);
    assert f.typ.String() == "Update" + defn.name + "Payload!";
    UpdateLineText(defn.name);
  }

  lemma AddLineText(t: string)
    ensures "\t" + ("add" + t) + "(" + ("input: " + t + "Input!") + "): " + ("Add" + t + "Payload!") + "\n" == AddText(t)
  {
  }

  lemma AddLine(defn: Definition)
    ensures RootLine(MutationFields(defn)[0]) == AddText(defn.name)
  {
    var f := MutationFields(defn)[0];
    assert ArgsString(f.args) == "input: " + defn.name + "Input!" by {
      ArgsStringSingle(f.args[0]);
      assert f.args == [f.args[0]];
    }
    assert f.typ.String() == "Add" + defn.name + "Payload!";
    AddLineText(defn.name);
  }

  lemma DeleteLineText(t: string)
    ensures "\t" + ("delete" + t) + "(" + "id: ID!" + "): " + ("Delete" + t + "Payload!") + "\n" == DeleteText(t)
  {
  }

  lemma DeleteLine(defn: Definition)
    ensures RootLine(MutationFields(defn)[2]) == DeleteText(defn.name)
  {
    var f := MutationFields(defn)[2];
    assert ArgsString(f.args) == "id: ID!" by {
      ArgsStringSingle(f.args[0]);
      assert f.args == [f.args[0]];
    }
    assert f.typ.String() == "Delete" + defn.name + "Payload!";
    DeleteLineText(defn.name);
  }

  /** The Query root gains the lines of `getT` and `queryT`, in that order. */
  lemma QueryFieldsRender(defn: Definition)
    ensures RootLines(QueryFields(defn)) == GetText(defn.name) + QueryText(defn.name)
  {
    var q := QueryFields(defn);
    NotReserved("get", defn.name);
    NotReserved("query", defn.name);
    RootLinesTwo(q[0], q[1]);
    assert q == [q[0], q[1]];
    GetLine(defn);
    QueryLine(defn);
  }

  /** The Mutation root gains the lines of `addT`, `updateT` and `deleteT`, in that order. */
  lemma MutationFieldsRender(defn: Definition)
    ensures RootLines(MutationFields(defn)) == AddText(defn.name) + UpdateText(defn.name) + DeleteText(defn.name)
  {
    var q := MutationFields(defn);
    NotReserved("add", defn.name);
    NotReserved("update", defn.name);
    NotReserved("delete", defn.name);
    RootLinesTwo(q[0], q[1]);
    RootLinesOne(q[2]);
    assert q == [q[0], q[1]] + [q[2]];
    RootLinesAppend([q[0], q[1]], [q[2]]);
    AddLine(defn);
    UpdateLine(defn);
    DeleteLine(defn);
  }

  /** The root-field text one object type `t` contributes to Query (`isQuery`) or Mutation. */
  function RootBlock(t: string, isQuery: bool): string
  {
    if isQuery then GetText(t) + QueryText(t)
    else AddText(t) + UpdateText(t) + DeleteText(t)
  }

  /** The blocks of the object types `objs`, in that order. */
  function RootBlocks(objs: seq<string>, isQuery: bool): string
  {
    if objs == [] then ""
    else RootBlocks(objs[..|objs| - 1], isQuery) + RootBlock(objs[|objs| - 1], isQuery)
  }

  /** A Query or Mutation root written with the given body. */
  function RootSection(isQuery: bool, body: string): string
  {
    "type " + (if isQuery then "Query" else "Mutation") + " {\n" + body + "}\n"
  }

  lemma FieldsForRender(defn: Definition, isQuery: bool)
    ensures RootLines(FieldsFor(defn, isQuery)) == RootBlock(defn.name, isQuery)
  {
    if isQuery {
      QueryFieldsRender(defn);
    } else {
      MutationFieldsRender(defn);
    }
  }

  /**
   * The body of the augmented Query or Mutation root is the blocks of the
   * object types, in visiting order, one block per object type.
   */
  lemma {:induction false} RootFieldsText(m: map<string, Definition>, order: seq<string>, isQuery: bool)
    requires KeyedByName(m) && forall n :: n in order ==> n in m
    ensures RootLines(RootFields(m, order, isQuery)) == RootBlocks(ObjectsIn(m, order), isQuery)
  {
    if order != [] {
      var n := order[|order| - 1];
      var init := order[..|order| - 1];
      RootFieldsText(m, init, isQuery);
      var extra := if m[n].kind == Object then FieldsFor(m[n], isQuery) else [];
      RootLinesAppend(RootFields(m, init, isQuery), extra);
      var objs := ObjectsIn(m, order);
      if m[n].kind == Object {
        FieldsForRender(m[n], isQuery);
        assert objs[..|objs| - 1] == ObjectsIn(m, init);
      } else {
        assert RootLines(extra) == "";
        assert objs == ObjectsIn(m, init) + [] == ObjectsIn(m, init);
      }
    }
  }

  // ---------------------------------------------------------------------
  // Section layout.

  /** The last visited type's part comes after the text of the types before it. */
  lemma SectionTextLast(m: map<string, Definition>, o: seq<string>, sec: Section)
    requires o != [] && forall n :: n in o ==> n in m
    ensures SectionText(m, o, sec) == SectionText(m, o[..|o| - 1], sec) + Part(o[|o| - 1], m[o[|o| - 1]], sec)
  {
  }

  /** Within a section, each type's chunk follows the chunks of the types visited before it. */
  lemma {:induction false} SectionTextAppend(m: map<string, Definition>, o1: seq<string>, o2: seq<string>, sec: Section)
    requires forall n :: n in o1 + o2 ==> n in m
    ensures SectionText(m, o1 + o2, sec) == SectionText(m, o1, sec) + SectionText(m, o2, sec)
  {
    if o2 != [] {
      var n := |o2| - 1;
      var last := o2[n];
      var p := Part(last, m[last], sec);
      assert (o1 + o2)[..|o1 + o2| - 1] == o1 + o2[..n];
      assert (o1 + o2)[|o1 + o2| - 1] == last;
      var x, y := SectionText(m, o1, sec), SectionText(m, o2[..n], sec);
      calc {
        SectionText(m, o1 + o2, sec);
        { SectionTextLast(m, o1 + o2, sec); }
        SectionText(m, o1 + o2[..n], sec) + p;
        { SectionTextAppend(m, o1, o2[..n], sec); }
        x + y + p;
        x + (y + p);
        x + SectionText(m, o2, sec);
      }
    } else {
      assert o1 + o2 == o1;
    }
  }

  /** Every companion type lands in the input section or the object section. */
  lemma CompanionBuckets(types: map<string, Definition>, defn: Definition)
    requires Derivable(types, defn)
    ensures forall k :: k in Companions(types, defn) ==>
              Bucket(k, Companions(types, defn)[k]) in {InputSection, ObjectSection}
  {
  }

  /**
   * The Ref, Filter and Payload sections only ever hold interfaces and
   * unions: in a schema without those kinds they are empty, whatever the
   * names of its types.
   */
  lemma {:induction false} SuffixSectionsEmpty(m: map<string, Definition>, order: seq<string>, sec: Section)
    requires forall n :: n in order ==> n in m
    requires forall n :: n in m ==> m[n].kind !in {Interface, Union}
    requires sec in {RefSection, FilterSection, PayloadSection}
    ensures SectionText(m, order, sec) == ""
  {
    if order != [] {
      SuffixSectionsEmpty(m, order[..|order| - 1], sec);
    }
  }

  /** The names of `order` that are keys of `m`, in that order. */
  function KeysIn(order: seq<string>, m: map<string, Definition>): (r: seq<string>)
    ensures forall n :: n in r ==> n in m
  {
    if order == [] then []
    else
      var n := order[|order| - 1];
      KeysIn(order[..|order| - 1], m) + (if n in m then [n] else [])
  }

  /** A staged companion goes to the input section or the object section. */
  lemma StagedBucket(m: map<string, Definition>, order: seq<string>, n: string)
    requires AllDerivable(m) && KeyedByName(m) && IsOrder(order, m) && n in Staging(m, order)
    ensures Bucket(n, (m + Staging(m, order))[n]) in {InputSection, ObjectSection}
  {
    StagingKeys(m, order, n);
    var t :| t in order && IsObjectName(m, t) && n in DerivedNames(t);
    CompanionsNamed(m, m[t]);
    CompanionsInstalled(m, order, t);
    CompanionBuckets(m, m[t]);
  }

  /**
   * Augmentation adds only objects and input objects, so the Ref, Filter and
   * Payload sections of the augmented schema are those of the original one,
   * whatever order either map is visited in.
   */
  lemma {:induction false} AugmentKeepsSuffixSections(m: map<string, Definition>, order: seq<string>,
                                                      order': seq<string>, sec: Section)
    requires AllDerivable(m) && KeyedByName(m) && IsOrder(order, m) && NoCollisions(m)
    requires forall n :: n in order' ==> n in m + Staging(m, order)
    requires sec in {RefSection, FilterSection, PayloadSection}
    ensures SectionText(m + Staging(m, order), order', sec) == SectionText(m, KeysIn(order', m), sec)
  {
    if order' != [] {
      var m' := m + Staging(m, order);
      var n := order'[|order'| - 1];
      var init := order'[..|order'| - 1];
      AugmentKeepsSuffixSections(m, order, init, sec);
      if n in m {
        UserTypesKept(m, order);
        var keys := KeysIn(order', m);
        assert keys == KeysIn(init, m) + [n];
        assert keys[..|keys| - 1] == KeysIn(init, m);
      } else {
        assert n in order' && n in Staging(m, order);
        StagedBucket(m, order, n);
        assert Bucket(n, m'[n]) != sec;
        assert KeysIn(order', m) == KeysIn(init, m) + [] == KeysIn(init, m);
        assert SectionText(m', order', sec) == SectionText(m', init, sec) + "" == SectionText(m', init, sec);
      }
    }
  }

  /** Augmentation introduces no interface or union. */
  lemma AugmentedKinds(m: map<string, Definition>, order: seq<string>)
    requires AllDerivable(m) && KeyedByName(m) && IsOrder(order, m)
    requires forall n :: n in m ==> m[n].kind !in {Interface, Union}
    ensures forall n :: n in m + Staging(m, order) ==> (m + Staging(m, order))[n].kind !in {Interface, Union}
  {
    forall n | n in m + Staging(m, order)
      ensures (m + Staging(m, order))[n].kind !in {Interface, Union}
    {
      if n in Staging(m, order) {
        StagedBucket(m, order, n);
        BucketByKind(n, (m + Staging(m, order))[n]);
      }
    }
  }

  /** With empty Ref, Filter and Payload sections the text is the remaining sections and both roots. */
  lemma StringifyShape(m: map<string, Definition>, order: seq<string>, q: Definition, u: Definition)
    requires IsOrder(order, m)
    requires SectionText(m, order, RefSection) == "" && SectionText(m, order, FilterSection) == ""
    requires SectionText(m, order, PayloadSection) == ""
    ensures Stringify(SchemaValue(Some(m), Some(q), Some(u)), order) ==
              SectionText(m, order, ObjectSection) + SectionText(m, order, ScalarSection) + "\n" +
              SectionText(m, order, InputSection) + QMString(true, q) + QMString(false, u)
  {
    var head := SectionText(m, order, ObjectSection) + SectionText(m, order, ScalarSection) + "\n" +
                SectionText(m, order, InputSection);
    assert head + "" + "" + "" == head;
  }

  /** A fresh root holding `fields` as the augmentation builds it, written out. */
  lemma RootText(m: map<string, Definition>, order: seq<string>, isQuery: bool)
    requires KeyedByName(m) && forall n :: n in order ==> n in m
    ensures QMString(isQuery, Definition(Object, if isQuery then "Query" else "Mutation", RootFields(m, order, isQuery), [])) ==
            RootSection(isQuery, RootBlocks(ObjectsIn(m, order), isQuery))
  {
    RootFieldsText(m, order, isQuery);
  }

  /**
   * The text of an augmented schema without interfaces or unions: objects,
   * scalars and a blank line, inputs and enums, then the Query root with the
   * `get`/`query` block of every object type and the Mutation root with the
   * `add`/`update`/`delete` block of every object type, both in the order the
   * augmentation visited the object types.
   */
  lemma StringifyAugmented(m: map<string, Definition>, order: seq<string>, order': seq<string>)
    requires AllDerivable(m) && KeyedByName(m) && IsOrder(order, m)
    requires forall n :: n in m ==> m[n].kind !in {Interface, Union}
    requires IsOrder(order', m + Staging(m, order))
    ensures var m' := m + Staging(m, order);
            var s := SchemaValue(Some(m'),
                                 Some(Definition(Object, "Query", RootFields(m, order, true), [])),
                                 Some(Definition(Object, "Mutation", RootFields(m, order, false), [])));
            Stringify(s, order') ==
              SectionText(m', order', ObjectSection) + SectionText(m', order', ScalarSection) + "\n" +
              SectionText(m', order', InputSection) +
              RootSection(true, RootBlocks(ObjectsIn(m, order), true)) +
              RootSection(false, RootBlocks(ObjectsIn(m, order), false))
  {
    var m' := m + Staging(m, order);
    AugmentedKinds(m, order);
    SuffixSectionsEmpty(m', order', RefSection);
    SuffixSectionsEmpty(m', order', FilterSection);
    SuffixSectionsEmpty(m', order', PayloadSection);
    StringifyShape(m', order', Definition(Object, "Query", RootFields(m, order, true), []),
                   Definition(Object, "Mutation", RootFields(m, order, false), []));
    RootText(m, order, true);
    RootText(m, order, false);
  }
}

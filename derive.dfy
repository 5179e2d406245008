/**
 * Derivation of the companion types of one object type T: TInput, TRef,
 * TUpdate, TFilter and the Add / Update / Delete payloads, and of the root
 * fields that expose T through Query and Mutation.
 */
module Derive {
  import opened Ast

  /**
   * Every non-ID field of `fs` names a type that `types` defines; for any
   * other field the type-kind lookup dereferences a missing definition.
   */
  predicate FieldRefsDefined(types: map<string, Definition>, fs: seq<Field>)
  {
    forall i :: 0 <= i < |fs| && !IsIdField(fs[i]) ==> fs[i].typ.Name() in types
  }

  lemma PrefixRefsDefined(types: map<string, Definition>, fs: seq<Field>, n: nat)
    requires FieldRefsDefined(types, fs) && n <= |fs|
    ensures FieldRefsDefined(types, fs[..n])
  {
    assert forall i :: 0 <= i < n ==> fs[..n][i] == fs[i];
  }

  /**
   * The reference an object-typed field gets in the Input and Update types:
   * the base name gains the suffix `Ref`; the outer non-null flag is kept; a
   * list keeps exactly one list level, carrying the element's non-null flag.
   */
  function RefTypeOf(t: TypeRef): (r: TypeRef)
    ensures r.Name() == t.Name() + "Ref"
    ensures r.nonNull == t.nonNull && r.List? == t.List?
    ensures t.List? ==> r.elem.Named? && r.elem.nonNull == t.elem.nonNull
  {
    match t
    case Named(n, nn) => Named(n + "Ref", nn)
    case List(e, nn) => List(Named(e.Name() + "Ref", e.nonNull), nn)
  }

  /**
   * The Input/Update copy of a non-ID field: a field whose base type is an
   * object is rewritten to the Ref companion (as a fresh field with name and
   * type only); every other field is copied unchanged.
   */
  function DeriveField(types: map<string, Definition>, f: Field): (r: Field)
    requires !IsIdField(f) && f.typ.Name() in types
    ensures r.name == f.name && !IsIdField(r)
    ensures types[f.typ.Name()].kind == Object ==> r.typ == RefTypeOf(f.typ) && r.args == []
    ensures types[f.typ.Name()].kind != Object ==> r == f
  {
    if types[f.typ.Name()].kind == Object then Field(f.name, [], RefTypeOf(f.typ)) else f
  }

  /** The fields `getNonIDFields` returns. */
  function NonIdFields(types: map<string, Definition>, fs: seq<Field>): (r: seq<Field>)
    requires FieldRefsDefined(types, fs)
    ensures |r| <= |fs|
    ensures forall k :: 0 <= k < |r| ==> !IsIdField(r[k])
  {
    if fs == [] then []
    else
      var n := |fs| - 1;
      PrefixRefsDefined(types, fs, n);
      NonIdFields(types, fs[..n]) + (if IsIdField(fs[n]) then [] else [DeriveField(types, fs[n])])
  }

  /** The fields `getIDField` returns. */
  function IdFields(fs: seq<Field>): (r: seq<Field>)
    ensures |r| <= |fs|
    ensures forall k :: 0 <= k < |r| ==> IsIdField(r[k])
  {
    if fs == [] then []
    else
      var n := |fs| - 1;
      IdFields(fs[..n]) + (if IsIdField(fs[n]) then [fs[n]] else [])
  }

  /**
   * `idx` lists, in increasing order, exactly the positions of `fs` whose
   * field is an ID field (when `wantId`) or is not one (otherwise).
   */
  ghost predicate SelectedPositions(fs: seq<Field>, idx: seq<int>, wantId: bool)
  {
    (forall k :: 0 <= k < |idx| ==> 0 <= idx[k] < |fs| && IsIdField(fs[idx[k]]) == wantId) &&
    (forall k, l :: 0 <= k < l < |idx| ==> idx[k] < idx[l]) &&
    (forall i :: 0 <= i < |fs| && IsIdField(fs[i]) == wantId ==> i in idx)
  }

  /** Extending a selection over a prefix by the next position. */
  lemma SelectedPositionsStep(fs: seq<Field>, idx: seq<int>, wantId: bool) returns (idx': seq<int>)
    requires |fs| > 0 && SelectedPositions(fs[..|fs| - 1], idx, wantId)
    ensures SelectedPositions(fs, idx', wantId)
    ensures idx' == if IsIdField(fs[|fs| - 1]) == wantId then idx + [|fs| - 1] else idx
  {
    var n := |fs| - 1;
    var pre := fs[..n];
    idx' := if IsIdField(fs[n]) == wantId then idx + [n] else idx;
    forall k | 0 <= k < |idx'|
      ensures 0 <= idx'[k] < |fs| && IsIdField(fs[idx'[k]]) == wantId
    {
      if k < |idx| {
        assert idx'[k] == idx[k] && pre[idx[k]] == fs[idx[k]];
      }
    }
    forall k, l | 0 <= k < l < |idx'|
      ensures idx'[k] < idx'[l]
    {
      if l < |idx| {
        assert idx'[k] == idx[k] && idx'[l] == idx[l];
      } else {
        assert idx'[k] == idx[k] < n;
      }
    }
    forall i | 0 <= i < |fs| && IsIdField(fs[i]) == wantId
      ensures i in idx'
    {
      if i < n {
        assert pre[i] == fs[i];
        assert i in idx;
      }
    }
  }

  /**
   * `getNonIDFields` returns, in order, one derived field for each non-ID
   * field of T and nothing else.
   */
  lemma {:induction false} NonIdFieldsSelect(types: map<string, Definition>, fs: seq<Field>) returns (idx: seq<int>)
    requires FieldRefsDefined(types, fs)
    ensures SelectedPositions(fs, idx, false)
    ensures |NonIdFields(types, fs)| == |idx|
    ensures forall k :: 0 <= k < |idx| ==> NonIdFields(types, fs)[k] == DeriveField(types, fs[idx[k]])
  {
    if fs == [] {
      idx := [];
    } else {
      var n := |fs| - 1;
      var pre := fs[..n];
      PrefixRefsDefined(types, fs, n);
      var prev := NonIdFieldsSelect(types, pre);
      idx := SelectedPositionsStep(fs, prev, false);
      var r, rp := NonIdFields(types, fs), NonIdFields(types, pre);
      assert r == rp + (if IsIdField(fs[n]) then [] else [DeriveField(types, fs[n])]);
      assert forall k :: 0 <= k < |idx| ==> r[k] == DeriveField(types, fs[idx[k]]) by {
        forall k | 0 <= k < |idx|
          ensures r[k] == DeriveField(types, fs[idx[k]])
        {
          if k < |prev| {
            assert r[k] == rp[k] && idx[k] == prev[k] && pre[prev[k]] == fs[prev[k]];
          }
        }
      }
    }
  }

  /**
   * `getIDField` returns, in order, exactly the ID fields of T, each one
   * unchanged.
   */
  lemma {:induction false} IdFieldsSelect(fs: seq<Field>) returns (idx: seq<int>)
    ensures SelectedPositions(fs, idx, true)
    ensures |IdFields(fs)| == |idx|
    ensures forall k :: 0 <= k < |idx| ==> IdFields(fs)[k] == fs[idx[k]]
  {
    if fs == [] {
      idx := [];
    } else {
      var n := |fs| - 1;
      var prev := IdFieldsSelect(fs[..n]);
      assert forall i :: 0 <= i < n ==> fs[..n][i] == fs[i];
      idx := SelectedPositionsStep(fs, prev, true);
    }
  }

  /** Every field of T goes to exactly one of TRef and TInput. */
  lemma {:induction false} FieldPartition(types: map<string, Definition>, fs: seq<Field>)
    requires FieldRefsDefined(types, fs)
    ensures |IdFields(fs)| + |NonIdFields(types, fs)| == |fs|
  {
    if fs != [] {
      var n := |fs| - 1;
      PrefixRefsDefined(types, fs, n);
      FieldPartition(types, fs[..n]);
    }
  }

  /** Collects the non-ID fields of `defn`, rewriting object-typed ones to Ref types. */
  method GetNonIdFields(types: map<string, Definition>, defn: Definition) returns (fldList: seq<Field>)
    requires FieldRefsDefined(types, defn.fields)
    ensures fldList == NonIdFields(types, defn.fields)
  {
    fldList := [];
    for i := 0 to |defn.fields|
      invariant FieldRefsDefined(types, defn.fields[..i])
      invariant fldList == NonIdFields(types, defn.fields[..i])
    {
      PrefixRefsDefined(types, defn.fields, i + 1);
      assert defn.fields[..i + 1][..i] == defn.fields[..i];
      var fld := defn.fields[i];
      if fld.typ.Name() == "ID" {
        continue;
      }
      if types[fld.typ.Name()].kind == Object {
        var newType: TypeRef;
        if fld.typ.Named? {
          newType := Named(fld.typ.Name() + "Ref", fld.typ.nonNull);
        } else {
          newType := List(Named(fld.typ.Name() + "Ref", fld.typ.elem.nonNull), fld.typ.nonNull);
        }
        fldList := fldList + [Field(fld.name, [], newType)];
      } else {
        fldList := fldList + [fld];
      }
    }
    assert defn.fields[..|defn.fields|] == defn.fields;
  }

  /** Collects the ID fields of `defn`. */
  method GetIdField(defn: Definition) returns (fldList: seq<Field>)
    ensures fldList == IdFields(defn.fields)
  {
    fldList := [];
    for i := 0 to |defn.fields|
      invariant fldList == IdFields(defn.fields[..i])
    {
      assert defn.fields[..i + 1][..i] == defn.fields[..i];
      var fld := defn.fields[i];
      if fld.typ.Name() == "ID" {
        fldList := fldList + [fld];
      }
    }
    assert defn.fields[..|defn.fields|] == defn.fields;
  }

  // ---------------------------------------------------------------------
  // The seven companion types.

  /** Every field that T's derivation looks up is defined in `types`. */
  predicate Derivable(types: map<string, Definition>, defn: Definition)
  {
    FieldRefsDefined(types, defn.fields)
  }

  function GenInputType(types: map<string, Definition>, defn: Definition): (d: Definition)
    requires Derivable(types, defn)
    ensures d.kind == InputObject && d.name == defn.name + "Input"
    ensures forall k :: 0 <= k < |d.fields| ==> !IsIdField(d.fields[k])
  {
    Definition(InputObject, defn.name + "Input", NonIdFields(types, defn.fields), [])
  }

  function GenRefType(defn: Definition): (d: Definition)
    ensures d.kind == InputObject && d.name == defn.name + "Ref"
    ensures forall k :: 0 <= k < |d.fields| ==> IsIdField(d.fields[k])
  {
    Definition(InputObject, defn.name + "Ref", IdFields(defn.fields), [])
  }

  /** A copy of a field whose type is no longer non-null at the top level. */
  function AsOptional(f: Field): Field
  {
    f.(typ := f.typ.(nonNull := false))
  }

  /** The Update type: the Input fields, each made optional. */
  function UpdateType(types: map<string, Definition>, defn: Definition): (d: Definition)
    requires Derivable(types, defn)
    ensures d.kind == InputObject && d.name == defn.name + "Update"
    ensures forall k :: 0 <= k < |d.fields| ==> !d.fields[k].typ.nonNull && !IsIdField(d.fields[k])
  {
    var input := NonIdFields(types, defn.fields);
    Definition(InputObject, defn.name + "Update", seq(|input|, k requires 0 <= k < |input| => AsOptional(input[k])), [])
  }

  /** Builds the Update type, clearing the top-level non-null flag of each field copy in turn. */
  method GenUpdateType(types: map<string, Definition>, defn: Definition) returns (updDefn: Definition)
    requires Derivable(types, defn)
    ensures updDefn == UpdateType(types, defn)
  {
    var fields := GetNonIdFields(types, defn);
    ghost var input := fields;
    for i := 0 to |fields|
      invariant |fields| == |input|
      invariant forall k :: 0 <= k < i ==> fields[k] == AsOptional(input[k])
      invariant forall k :: i <= k < |fields| ==> fields[k] == input[k]
    {
      var fld := fields[i];
      fields := fields[i := fld.(typ := fld.typ.(nonNull := false))];
    }
    updDefn := Definition(InputObject, defn.name + "Update", fields, []);
  }

  /**
   * TUpdate has one field per TInput field, with the same name, arguments and
   * type except that it is optional; TInput keeps the non-null flag of the
   * field of T it comes from.
   */
  lemma UpdateMatchesInput(types: map<string, Definition>, defn: Definition) returns (idx: seq<int>)
    requires Derivable(types, defn)
    ensures SelectedPositions(defn.fields, idx, false)
    ensures |UpdateType(types, defn).fields| == |GenInputType(types, defn).fields| == |idx|
    ensures forall k :: 0 <= k < |idx| ==>
              var u := UpdateType(types, defn).fields[k];
              var i := GenInputType(types, defn).fields[k];
              u.name == i.name == defn.fields[idx[k]].name && u.args == i.args &&
              u.typ.Name() == i.typ.Name() && u.typ.List? == i.typ.List? &&
              !u.typ.nonNull && i.typ.nonNull == defn.fields[idx[k]].typ.nonNull
    ensures forall k :: 0 <= k < |idx| ==>
              UpdateType(types, defn).fields[k] == AsOptional(GenInputType(types, defn).fields[k])
  {
    idx := NonIdFieldsSelect(types, defn.fields);
    var input := NonIdFields(types, defn.fields);
    forall k | 0 <= k < |idx|
      ensures input[k].typ.nonNull == defn.fields[idx[k]].typ.nonNull
      ensures AsOptional(input[k]).typ.Name() == input[k].typ.Name()
    {
      assert input[k] == DeriveField(types, defn.fields[idx[k]]);
      match input[k].typ
      case Named(_, _) =>
      case List(_, _) =>
    }
  }

  /** The Filter type's only field. */
  function GetFilterField(): (r: seq<Field>)
    ensures |r| == 1 && r[0].name == "dgraph" && r[0].args == [] && r[0].typ == Named("String", false)
  {
    [Field("dgraph", [], Named("String", false))]
  }

  function GenFilterType(defn: Definition): (d: Definition)
    ensures d.kind == InputObject && d.name == defn.name + "Filter" && d.fields == GetFilterField()
  {
    Definition(InputObject, defn.name + "Filter", GetFilterField(), [])
  }

  /** The single field of the Add and Update payloads: `lower(T): T!`. */
  function PayloadField(defn: Definition): (f: Field)
    ensures f.name == ToLower(defn.name) && f.args == [] && f.typ == Named(defn.name, true)
  {
    Field(ToLower(defn.name), [], Named(defn.name, true))
  }

  function GenAddResultType(defn: Definition): (d: Definition)
    ensures d.kind == Object && d.name == "Add" + defn.name + "Payload" && d.fields == [PayloadField(defn)]
  {
    Definition(Object, "Add" + defn.name + "Payload", [PayloadField(defn)], [])
  }

  function GenUpdResultType(defn: Definition): (d: Definition)
    ensures d.kind == Object && d.name == "Update" + defn.name + "Payload" && d.fields == [PayloadField(defn)]
  {
    Definition(Object, "Update" + defn.name + "Payload", [PayloadField(defn)], [])
  }

  function GenDelResultType(defn: Definition): (d: Definition)
    ensures d.kind == Object && d.name == "Delete" + defn.name + "Payload" && |d.fields| == 1
    ensures d.fields[0].name == "msg" && d.fields[0].args == [] && d.fields[0].typ == Named("String", true)
  {
    Definition(Object, "Delete" + defn.name + "Payload", [Field("msg", [], Named("String", true))], [])
  }

  /** The seven companions of object type `defn`, keyed by their names. */
  function Companions(types: map<string, Definition>, defn: Definition): map<string, Definition>
    requires Derivable(types, defn)
  {
    map[defn.name + "Input" := GenInputType(types, defn),
        defn.name + "Ref" := GenRefType(defn),
        defn.name + "Update" := UpdateType(types, defn),
        defn.name + "Filter" := GenFilterType(defn),
        "Add" + defn.name + "Payload" := GenAddResultType(defn),
        "Update" + defn.name + "Payload" := GenUpdResultType(defn),
        "Delete" + defn.name + "Payload" := GenDelResultType(defn)]
  }

  /** The names derived from type name `t`. */
  function DerivedNames(t: string): set<string>
  {
    {t + "Input", t + "Ref", t + "Update", t + "Filter",
     "Add" + t + "Payload", "Update" + t + "Payload", "Delete" + t + "Payload"}
  }

  /** Each companion is stored under its own name, and under no other key. */
  lemma CompanionsNamed(types: map<string, Definition>, defn: Definition)
    requires Derivable(types, defn)
    ensures Companions(types, defn).Keys == DerivedNames(defn.name)
    ensures forall k :: k in Companions(types, defn) ==> Companions(types, defn)[k].name == k
  {
  }

  // ---------------------------------------------------------------------
  // Root fields.

  function IdArgument(): Argument
  {
    Argument("id", Named(IdScalar, true))
  }

  /** `getT(id: ID!): T!` and `queryT(filter: TFilter!): [T!]!`. */
  function QueryFields(defn: Definition): (r: seq<Field>)
    ensures |r| == 2 && r[0].name == "get" + defn.name && r[1].name == "query" + defn.name
    ensures r[0].args == [Argument("id", Named("ID", true))] && r[0].typ == Named(defn.name, true)
    ensures r[1].args == [Argument("filter", Named(defn.name + "Filter", true))]
    ensures r[1].typ == List(Named(defn.name, true), true)
  {
    [Field("get" + defn.name, [IdArgument()], Named(defn.name, true)),
     Field("query" + defn.name, [Argument("filter", Named(defn.name + "Filter", true))],
           List(Named(defn.name, true), true))]
  }

  /**
   * `addT(input: TInput!): AddTPayload!`, `updateT(id: ID!, input: TUpdate): UpdateTPayload!`
   * and `deleteT(id: ID!): DeleteTPayload!`.
   */
  function MutationFields(defn: Definition): (r: seq<Field>)
    ensures |r| == 3 && r[0].name == "add" + defn.name && r[1].name == "update" + defn.name
    ensures r[2].name == "delete" + defn.name
    ensures r[0].args == [Argument("input", Named(defn.name + "Input", true))]
    ensures r[0].typ == Named("Add" + defn.name + "Payload", true)
    ensures r[1].args == [Argument("id", Named("ID", true)), Argument("input", Named(defn.name + "Update", false))]
    ensures r[1].typ == Named("Update" + defn.name + "Payload", true)
    ensures r[2].args == [Argument("id", Named("ID", true))]
    ensures r[2].typ == Named("Delete" + defn.name + "Payload", true)
  {
    [Field("add" + defn.name, [Argument("input", Named(defn.name + "Input", true))],
           Named("Add" + defn.name + "Payload", true)),
     Field("update" + defn.name, [IdArgument(), Argument("input", Named(defn.name + "Update", false))],
           Named("Update" + defn.name + "Payload", true)),
     Field("delete" + defn.name, [IdArgument()], Named("Delete" + defn.name + "Payload", true))]
  }
}

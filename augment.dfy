/**
 * Schema augmentation: fresh Query and Mutation roots, the seven companions
 * of every object type collected in a staging map, root fields appended per
 * object type, and the staging map merged into the type map at the end.
 *
 * Go leaves the iteration order over the type map unspecified, so the
 * augmentation takes the order as a parameter (`order`, a permutation of
 * the type names); the properties below hold for every such order.
 */
module Augment {
  import opened Ast
  import opened Derive

  predicate Distinct(s: seq<string>)
  {
    forall i, j :: 0 <= i < j < |s| ==> s[i] != s[j]
  }

  /** `order` lists every type name of `m` exactly once. */
  ghost predicate IsOrder(order: seq<string>, m: map<string, Definition>)
  {
    Distinct(order) && forall n :: n in order <==> n in m
  }

  /** Every definition is stored under its own name, as the parser builds the map. */
  predicate KeyedByName(m: map<string, Definition>)
  {
    forall n :: n in m ==> m[n].name == n
  }

  /** Every object type's non-ID fields name defined types. */
  predicate AllDerivable(m: map<string, Definition>)
  {
    forall n :: n in m && m[n].kind == Object ==> Derivable(m, m[n])
  }

  predicate IsObjectName(m: map<string, Definition>, n: string)
  {
    n in m && m[n].kind == Object
  }

  function ObjectNames(m: map<string, Definition>): set<string>
  {
    set n | n in m && m[n].kind == Object
  }

  /** The type map seen through Go's nil: a nil map reads as empty. */
  function Base(types: Option<map<string, Definition>>): map<string, Definition>
  {
    if types.Some? then types.value else map[]
  }

  /** The staging map after visiting the types named by `order`. */
  function Staging(m: map<string, Definition>, order: seq<string>): map<string, Definition>
    requires AllDerivable(m) && forall n :: n in order ==> n in m
  {
    if order == [] then map[]
    else
      var n := order[|order| - 1];
      var rest := Staging(m, order[..|order| - 1]);
      if m[n].kind == Object then rest + Companions(m, m[n]) else rest
  }

  function FieldsFor(defn: Definition, isQuery: bool): seq<Field>
  {
    if isQuery then QueryFields(defn) else MutationFields(defn)
  }

  /** The Query (`isQuery`) or Mutation root fields after visiting `order`. */
  function RootFields(m: map<string, Definition>, order: seq<string>, isQuery: bool): seq<Field>
    requires forall n :: n in order ==> n in m
  {
    if order == [] then []
    else
      var n := order[|order| - 1];
      RootFields(m, order[..|order| - 1], isQuery) + (if m[n].kind == Object then FieldsFor(m[n], isQuery) else [])
  }

  /** The object type names of `order`, in that order. */
  function ObjectsIn(m: map<string, Definition>, order: seq<string>): (r: seq<string>)
    requires forall n :: n in order ==> n in m
    ensures forall n :: n in r ==> n in order
  {
    if order == [] then []
    else
      var n := order[|order| - 1];
      ObjectsIn(m, order[..|order| - 1]) + (if m[n].kind == Object then [n] else [])
  }

  /** One loop turn of the augmentation, on the staging map and on both roots. */
  lemma VisitStep(m: map<string, Definition>, order: seq<string>, i: int)
    requires AllDerivable(m) && (forall n :: n in order ==> n in m) && 0 <= i < |order|
    ensures var d := m[order[i]];
            Staging(m, order[..i + 1]) ==
              (if d.kind == Object then Staging(m, order[..i]) + Companions(m, d) else Staging(m, order[..i])) &&
            RootFields(m, order[..i + 1], true) ==
              (if d.kind == Object then RootFields(m, order[..i], true) + QueryFields(d)
               else RootFields(m, order[..i], true)) &&
            RootFields(m, order[..i + 1], false) ==
              (if d.kind == Object then RootFields(m, order[..i], false) + MutationFields(d)
               else RootFields(m, order[..i], false))
  {
    assert order[..i + 1][..i] == order[..i];
    assert RootFields(m, order[..i], true) + [] == RootFields(m, order[..i], true);
    assert RootFields(m, order[..i], false) + [] == RootFields(m, order[..i], false);
  }

  /** Stages the seven companions of `defn`, each under its own name. */
  method StageCompanions(types: map<string, Definition>, defn: Definition, extenderMap: map<string, Definition>)
    returns (r: map<string, Definition>)
    requires Derivable(types, defn)
    ensures r == extenderMap + Companions(types, defn)
  {
    var updDefn := GenUpdateType(types, defn);
    r := extenderMap[defn.name + "Input" := GenInputType(types, defn)];
    r := r[defn.name + "Ref" := GenRefType(defn)];
    r := r[defn.name + "Update" := updDefn];
    r := r[defn.name + "Filter" := GenFilterType(defn)];
    r := r["Add" + defn.name + "Payload" := GenAddResultType(defn)];
    r := r["Update" + defn.name + "Payload" := GenUpdResultType(defn)];
    r := r["Delete" + defn.name + "Payload" := GenDelResultType(defn)];
  }

  class Schema {
    var types: Option<map<string, Definition>>
    var query: Option<Definition>
    var mutation: Option<Definition>

    constructor (types: Option<map<string, Definition>>, query: Option<Definition>, mutation: Option<Definition>)
      ensures this.types == types && this.query == query && this.mutation == mutation
    {
      this.types := types;
      this.query := query;
      this.mutation := mutation;
    }

    function Value(): SchemaValue
      reads this
    {
      SchemaValue(types, query, mutation)
    }

    /** Appends `getT` and `queryT` to the Query root. */
    method AddQueryType(defn: Definition)
      requires query.Some?
      modifies this
      ensures query == Some(old(query).value.(fields := old(query).value.fields + QueryFields(defn)))
      ensures types == old(types) && mutation == old(mutation)
    {
      var getDefn := Field("get" + defn.name, [Argument("id", Named("ID", true))], Named(defn.name, true));
      query := Some(query.value.(fields := query.value.fields + [getDefn]));
      var qryDefn := Field("query" + defn.name, [Argument("filter", Named(defn.name + "Filter", true))],
                           List(Named(defn.name, true), true));
      query := Some(query.value.(fields := query.value.fields + [qryDefn]));
      assert QueryFields(defn) == [getDefn, qryDefn];
      assert query.value.fields == old(query).value.fields + [getDefn, qryDefn];
    }

    /** Appends `addT`, `updateT` and `deleteT` to the Mutation root. */
    method AddMutationType(defn: Definition)
      requires mutation.Some?
      modifies this
      ensures mutation == Some(old(mutation).value.(fields := old(mutation).value.fields + MutationFields(defn)))
      ensures types == old(types) && query == old(query)
    {
      var addDefn := Field("add" + defn.name, [Argument("input", Named(defn.name + "Input", true))],
                           Named("Add" + defn.name + "Payload", true));
      mutation := Some(mutation.value.(fields := mutation.value.fields + [addDefn]));
      var updDefn := Field("update" + defn.name,
                           [Argument("id", Named("ID", true)), Argument("input", Named(defn.name + "Update", false))],
                           Named("Update" + defn.name + "Payload", true));
      mutation := Some(mutation.value.(fields := mutation.value.fields + [updDefn]));
      var delDefn := Field("delete" + defn.name, [Argument("id", Named("ID", true))],
                           Named("Delete" + defn.name + "Payload", true));
      mutation := Some(mutation.value.(fields := mutation.value.fields + [delDefn]));
      assert MutationFields(defn) == [addDefn, updDefn, delDefn];
      assert mutation.value.fields == old(mutation).value.fields + [addDefn, updDefn, delDefn];
    }

    /**
     * Replaces the roots, derives the companions and root fields of every
     * object type (visited in `order`), then installs the companions.
     */
    method GenerateCompleteSchema(order: seq<string>)
      requires IsOrder(order, Base(types)) && AllDerivable(Base(types))
      modifies this
      ensures query == Some(Definition(Object, "Query", RootFields(Base(old(types)), order, true), []))
      ensures mutation == Some(Definition(Object, "Mutation", RootFields(Base(old(types)), order, false), []))
      ensures types == if old(types).None? then None
                       else Some(old(types).value + Staging(old(types).value, order))
      ensures old(types).Some? ==>
                Value() == SchemaValue(Some(Base(old(types)) + Staging(Base(old(types)), order)),
                                       Some(Definition(Object, "Query", RootFields(Base(old(types)), order, true), [])),
                                       Some(Definition(Object, "Mutation", RootFields(Base(old(types)), order, false), [])))
    {
      ghost var m := Base(types);
      var extenderMap: map<string, Definition> := map[];
      query := Some(Definition(Object, "Query", [], []));
      mutation := Some(Definition(Object, "Mutation", [], []));

      for i := 0 to |order|
        invariant types == old(types)
        invariant extenderMap == Staging(m, order[..i])
        invariant query == Some(Definition(Object, "Query", RootFields(m, order[..i], true), []))
        invariant mutation == Some(Definition(Object, "Mutation", RootFields(m, order[..i], false), []))
      {
        VisitStep(m, order, i);
        var defn := types.value[order[i]];
        if defn.kind == Object {
          extenderMap := StageCompanions(types.value, defn, extenderMap);
          AddQueryType(defn);
          AddMutationType(defn);
        }
      }
      assert order[..|order|] == order;

      InstallTypes(extenderMap);
    }

    /** Writes every staged entry into the type map (the final loop of `GenerateCompleteSchema`). */
    method InstallTypes(extenderMap: map<string, Definition>)
      requires types.None? ==> extenderMap == map[]
      modifies this
      ensures types == if old(types).None? then None else Some(old(types).value + extenderMap)
      ensures query == old(query) && mutation == old(mutation)
    {
      var rest := extenderMap.Keys;
      assert extenderMap - rest == map[];
      assert old(types).Some? ==> old(types).value + map[] == old(types).value;
      while rest != {}
        invariant rest <= extenderMap.Keys
        invariant query == old(query) && mutation == old(mutation)
        invariant old(types).None? ==> types == old(types)
        invariant old(types).Some? ==> types == Some(old(types).value + (extenderMap - rest))
        decreases rest
      {
        var name :| name in rest;
        ghost var done := extenderMap - rest;
        assert extenderMap - (rest - {name}) == done[name := extenderMap[name]];
        assert old(types).Some? ==>
          (old(types).value + done)[name := extenderMap[name]] == old(types).value + done[name := extenderMap[name]];
        types := Some(types.value[name := extenderMap[name]]);
        rest := rest - {name};
      }
      assert extenderMap - {} == extenderMap;
    }
  }

  // ---------------------------------------------------------------------
  // Which entries the staging map holds, for every visiting order.

  /**
   * The type name a derived name was built from: the last character tells
   * the suffixes apart, the first character the three payload prefixes.
   */
  function Stem(x: string): string
  {
    if |x| < 3 then x
    else if x[|x| - 1] == 't' && |x| >= 5 then x[..|x| - 5]
    else if x[|x| - 1] == 'f' then x[..|x| - 3]
    else if x[|x| - 1] == 'e' && |x| >= 6 then x[..|x| - 6]
    else if x[|x| - 1] == 'r' && |x| >= 6 then x[..|x| - 6]
    else if x[|x| - 1] == 'd' && x[0] == 'A' && |x| >= 10 then x[3..|x| - 7]
    else if x[|x| - 1] == 'd' && x[0] == 'U' && |x| >= 13 then x[6..|x| - 7]
    else if x[|x| - 1] == 'd' && x[0] == 'D' && |x| >= 13 then x[6..|x| - 7]
    else x
  }

  lemma StemOfSuffixed(s: string, suffix: string)
    requires suffix in {"Input", "Ref", "Update", "Filter"}
    ensures Stem(s + suffix) == s
  {
    var x := s + suffix;
    assert x[|x| - 1] == suffix[|suffix| - 1];
    assert x[..|x| - |suffix|] == s;
  }

  lemma StemOfPayload(p: string, s: string)
    requires p in {"Add", "Update", "Delete"}
    ensures Stem(p + s + "Payload") == s
  {
    var x := p + s + "Payload";
    assert x[|x| - 1] == 'd' && x[0] == p[0];
    assert x[|p|..|x| - 7] == s;
  }

  /** Every derived name of `t` leads back to `t`. */
  lemma StemOfDerived(t: string, x: string)
    requires x in DerivedNames(t)
    ensures Stem(x) == t
  {
    if x == t + "Input" { StemOfSuffixed(t, "Input"); }
    else if x == t + "Ref" { StemOfSuffixed(t, "Ref"); }
    else if x == t + "Update" { StemOfSuffixed(t, "Update"); }
    else if x == t + "Filter" { StemOfSuffixed(t, "Filter"); }
    else if x == "Add" + t + "Payload" { StemOfPayload("Add", t); }
    else if x == "Update" + t + "Payload" { StemOfPayload("Update", t); }
    else { StemOfPayload("Delete", t); }
  }

  /** The names derived from two different type names never coincide. */
  lemma DerivedNamesDisjoint(s: string, t: string)
    requires s != t
    ensures DerivedNames(s) !! DerivedNames(t)
  {
    forall x | x in DerivedNames(s)
      ensures x !in DerivedNames(t)
    {
      StemOfDerived(s, x);
      if x in DerivedNames(t) {
        StemOfDerived(t, x);
      }
    }
  }

  /** A key is staged exactly when it is a derived name of a visited object type. */
  lemma {:induction false} StagingKeys(m: map<string, Definition>, order: seq<string>, k: string)
    requires AllDerivable(m) && KeyedByName(m) && forall n :: n in order ==> n in m
    ensures k in Staging(m, order) <==> exists t :: t in order && IsObjectName(m, t) && k in DerivedNames(t)
  {
    if order != [] {
      var n := order[|order| - 1];
      var init := order[..|order| - 1];
      StagingKeys(m, init, k);
      assert forall t :: t in order <==> t in init || t == n;
      if m[n].kind == Object {
        CompanionsNamed(m, m[n]);
      }
    }
  }

  /** Each visited object type's companions are staged under their names. */
  lemma {:induction false} StagingLookup(m: map<string, Definition>, order: seq<string>, t: string)
    requires AllDerivable(m) && KeyedByName(m) && Distinct(order) && forall n :: n in order ==> n in m
    requires t in order && IsObjectName(m, t)
    ensures forall k :: k in Companions(m, m[t]) ==>
              k in Staging(m, order) && Staging(m, order)[k] == Companions(m, m[t])[k]
  {
    var n := order[|order| - 1];
    var init := order[..|order| - 1];
    if n != t {
      assert t in init;
      assert Distinct(init);
      StagingLookup(m, init, t);
      if m[n].kind == Object {
        CompanionsNamed(m, m[n]);
        CompanionsNamed(m, m[t]);
        DerivedNamesDisjoint(n, t);
      }
    }
  }

  /** The staging map does not depend on the visiting order. */
  lemma StagingOrderIndependent(m: map<string, Definition>, o1: seq<string>, o2: seq<string>)
    requires AllDerivable(m) && KeyedByName(m) && IsOrder(o1, m) && IsOrder(o2, m)
    ensures Staging(m, o1) == Staging(m, o2)
  {
    var s1, s2 := Staging(m, o1), Staging(m, o2);
    forall k | k in s1 || k in s2
      ensures k in s1 && k in s2 && s1[k] == s2[k]
    {
      StagingKeys(m, o1, k);
      StagingKeys(m, o2, k);
      var t :| t in m && IsObjectName(m, t) && k in DerivedNames(t);
      CompanionsNamed(m, m[t]);
      StagingLookup(m, o1, t);
      StagingLookup(m, o2, t);
    }
    assert s1.Keys == s2.Keys;
  }

  // ---------------------------------------------------------------------
  // The type map after augmentation.

  /**
   * For every object type T present at entry, the augmented map holds its
   * seven companions under their names.
   */
  lemma CompanionsInstalled(m: map<string, Definition>, order: seq<string>, t: string)
    requires AllDerivable(m) && KeyedByName(m) && IsOrder(order, m) && IsObjectName(m, t)
    ensures forall k :: k in Companions(m, m[t]) ==>
              k in m + Staging(m, order) && (m + Staging(m, order))[k] == Companions(m, m[t])[k]
  {
    StagingLookup(m, order, t);
  }

  /** An entry whose name is derived from no object type is left as it was. */
  lemma OtherEntriesUnchanged(m: map<string, Definition>, order: seq<string>, n: string)
    requires AllDerivable(m) && KeyedByName(m) && IsOrder(order, m) && n in m
    requires forall t :: IsObjectName(m, t) ==> n !in DerivedNames(t)
    ensures n in m + Staging(m, order) && (m + Staging(m, order))[n] == m[n]
  {
    StagingKeys(m, order, n);
  }

  /** No type name of `m` is a derived name of one of its object types. */
  ghost predicate NoCollisions(m: map<string, Definition>)
  {
    forall n, t :: n in m && IsObjectName(m, t) ==> n !in DerivedNames(t)
  }

  /** Without collisions, augmentation only adds entries: every user type is kept. */
  lemma UserTypesKept(m: map<string, Definition>, order: seq<string>)
    requires AllDerivable(m) && KeyedByName(m) && IsOrder(order, m) && NoCollisions(m)
    ensures forall n :: n in m ==> n in m + Staging(m, order) && (m + Staging(m, order))[n] == m[n]
  {
    forall n | n in m
      ensures n in m + Staging(m, order) && (m + Staging(m, order))[n] == m[n]
    {
      OtherEntriesUnchanged(m, order, n);
    }
  }

  /** The augmented map holds the entry names of `m` and the derived names of its object types, nothing else. */
  lemma AugmentedKeys(m: map<string, Definition>, order: seq<string>, k: string)
    requires AllDerivable(m) && KeyedByName(m) && IsOrder(order, m)
    ensures k in m + Staging(m, order) <==> k in m || exists t :: IsObjectName(m, t) && k in DerivedNames(t)
  {
    StagingKeys(m, order, k);
  }

  // ---------------------------------------------------------------------
  // The root fields.

  lemma {:induction false} ObjectsInExact(m: map<string, Definition>, order: seq<string>)
    requires Distinct(order) && forall n :: n in order ==> n in m
    ensures Distinct(ObjectsIn(m, order))
    ensures forall n :: n in ObjectsIn(m, order) <==> n in order && m[n].kind == Object
  {
    if order != [] {
      var init := order[..|order| - 1];
      assert Distinct(init);
      ObjectsInExact(m, init);
      assert forall t :: t in order <==> t in init || t == order[|order| - 1];
    }
  }

  lemma {:induction false} DistinctCard(s: seq<string>)
    requires Distinct(s)
    ensures |set x | x in s| == |s|
  {
    if s != [] {
      var init := s[..|s| - 1];
      assert Distinct(init);
      DistinctCard(init);
      assert (set x | x in s) == (set x | x in init) + {s[|s| - 1]};
    }
  }

  /** One visit per object type: the visited object names are exactly the object types. */
  lemma ObjectsInCount(m: map<string, Definition>, order: seq<string>)
    requires IsOrder(order, m)
    ensures |ObjectsIn(m, order)| == |ObjectNames(m)|
  {
    ObjectsInExact(m, order);
    DistinctCard(ObjectsIn(m, order));
    assert (set x | x in ObjectsIn(m, order)) == ObjectNames(m);
  }

  /** The root fields of the object types `objs`, type after type. */
  function FieldsOfObjects(m: map<string, Definition>, objs: seq<string>, isQuery: bool): seq<Field>
    requires forall n :: n in objs ==> n in m
  {
    if objs == [] then []
    else FieldsOfObjects(m, objs[..|objs| - 1], isQuery) + FieldsFor(m[objs[|objs| - 1]], isQuery)
  }

  /**
   * Each root holds, in visiting order, the two (Query) or three (Mutation)
   * fields of every object type and nothing else.
   */
  lemma {:induction false} RootFieldsLayout(m: map<string, Definition>, order: seq<string>, isQuery: bool)
    requires forall n :: n in order ==> n in m
    ensures RootFields(m, order, isQuery) == FieldsOfObjects(m, ObjectsIn(m, order), isQuery)
  {
    if order != [] {
      var n := order[|order| - 1];
      var init := order[..|order| - 1];
      RootFieldsLayout(m, init, isQuery);
      var oi, oi' := ObjectsIn(m, init), ObjectsIn(m, order);
      if m[n].kind == Object {
        assert oi'[..|oi'| - 1] == oi;
      } else {
        assert oi' == oi + [] == oi;
        assert RootFields(m, order, isQuery) == RootFields(m, init, isQuery) + [] == RootFields(m, init, isQuery);
      }
    }
  }

  lemma {:induction false} FieldsOfObjectsLength(m: map<string, Definition>, objs: seq<string>)
    requires forall n :: n in objs ==> n in m
    ensures |FieldsOfObjects(m, objs, true)| == 2 * |objs|
    ensures |FieldsOfObjects(m, objs, false)| == 3 * |objs|
  {
    if objs != [] {
      FieldsOfObjectsLength(m, objs[..|objs| - 1]);
    }
  }

  lemma RootFieldCounts(m: map<string, Definition>, order: seq<string>)
    requires IsOrder(order, m)
    ensures |RootFields(m, order, true)| == 2 * |ObjectNames(m)|
    ensures |RootFields(m, order, false)| == 3 * |ObjectNames(m)|
  {
    RootFieldsLayout(m, order, true);
    RootFieldsLayout(m, order, false);
    FieldsOfObjectsLength(m, ObjectsIn(m, order));
    ObjectsInCount(m, order);
  }
}

/**
 * Scalar bootstrapping: before a schema document is turned into a schema,
 * a SCALAR definition is appended for each supported built-in scalar that
 * the document does not already declare.
 */
module Scalars {
  import opened Ast

  /** The supported scalars, in the order `AddScalars` adds them. */
  const SupportedScalars: seq<string> := ["Int", "Float", "ID", "DateTime", "String", "Boolean"]

  function ScalarDefinition(name: string): Definition
  {
    Definition(Scalar, name, [], [])
  }

  predicate IsScalarNamed(d: Definition, name: string)
  {
    d.kind == Scalar && d.name == name
  }

  predicate HasScalar(defs: seq<Definition>, name: string)
  {
    exists i :: 0 <= i < |defs| && IsScalarNamed(defs[i], name)
  }

  /** The definitions after adding one scalar: appended only when missing. */
  function WithScalar(defs: seq<Definition>, name: string): (r: seq<Definition>)
    ensures HasScalar(r, name)
    ensures |defs| <= |r| <= |defs| + 1 && r[..|defs|] == defs
  {
    if HasScalar(defs, name) then defs
    else
      var r := defs + [ScalarDefinition(name)];
      assert IsScalarNamed(r[|defs|], name);
      r
  }

  /** The definitions after adding each of `names` in turn. */
  function WithAll(defs: seq<Definition>, names: seq<string>): (r: seq<Definition>)
    ensures |defs| <= |r| <= |defs| + |names|
    decreases |names|
  {
    if names == [] then defs else WithAll(WithScalar(defs, names[0]), names[1..])
  }

  /** The definitions `AddScalars` leaves behind. */
  function WithScalars(defs: seq<Definition>): (r: seq<Definition>)
    ensures |defs| <= |r| <= |defs| + 6
  {
    WithAll(defs, SupportedScalars)
  }

  /** Number of SCALAR definitions called `name`. */
  function ScalarCount(defs: seq<Definition>, name: string): nat
  {
    if defs == [] then 0
    else ScalarCount(defs[..|defs| - 1], name) + (if IsScalarNamed(defs[|defs| - 1], name) then 1 else 0)
  }

  class SchemaDocument {
    var definitions: seq<Definition>

    constructor (defs: seq<Definition>)
      ensures definitions == defs
    {
      definitions := defs;
    }

    /** Appends a SCALAR definition named `sType` unless one already exists. */
    method AddScalarInSchema(sType: string)
      modifies this
      ensures definitions == WithScalar(old(definitions), sType)
    {
      for i := 0 to |definitions|
        invariant definitions == old(definitions)
        invariant forall j :: 0 <= j < i ==> !IsScalarNamed(definitions[j], sType)
      {
        if definitions[i].kind == Scalar && definitions[i].name == sType {
          assert IsScalarNamed(definitions[i], sType);
          return;
        }
      }
      definitions := definitions + [ScalarDefinition(sType)];
    }

    /** Adds every supported scalar. */
    method AddScalars()
      modifies this
      ensures definitions == WithScalars(old(definitions))
    {
      AddScalarInSchema("Int");
      AddScalarInSchema("Float");
      AddScalarInSchema("ID");
      AddScalarInSchema("DateTime");
      AddScalarInSchema("String");
      AddScalarInSchema("Boolean");
    }
  }

  // ---------------------------------------------------------------------
  // Properties of scalar bootstrapping.

  /** Existing definitions are kept as they are; only supported scalars are appended. */
  lemma {:induction false} WithAllAppendOnly(defs: seq<Definition>, names: seq<string>)
    ensures |defs| <= |WithAll(defs, names)|
    ensures WithAll(defs, names)[..|defs|] == defs
    ensures forall k :: |defs| <= k < |WithAll(defs, names)| ==>
              WithAll(defs, names)[k].name in names &&
              WithAll(defs, names)[k] == ScalarDefinition(WithAll(defs, names)[k].name)
    decreases |names|
  {
    if names != [] {
      var d1 := WithScalar(defs, names[0]);
      WithAllAppendOnly(d1, names[1..]);
      var r := WithAll(d1, names[1..]);
      assert r[..|defs|] == r[..|d1|][..|defs|];
      forall k | |defs| <= k < |r|
        ensures r[k].name in names && r[k] == ScalarDefinition(r[k].name)
      {
        if k < |d1| {
          assert r[k] == d1[k];
        } else {
          assert r[k].name in names[1..];
        }
      }
    }
  }

  /** A scalar already present stays present. */
  lemma {:induction false} WithAllKeeps(defs: seq<Definition>, names: seq<string>, n: string)
    requires HasScalar(defs, n)
    ensures HasScalar(WithAll(defs, names), n)
  {
    WithAllAppendOnly(defs, names);
    var i :| 0 <= i < |defs| && IsScalarNamed(defs[i], n);
    assert WithAll(defs, names)[..|defs|][i] == defs[i];
  }

  /** Afterwards every requested name has a SCALAR definition. */
  lemma {:induction false} WithAllComplete(defs: seq<Definition>, names: seq<string>)
    ensures forall n :: n in names ==> HasScalar(WithAll(defs, names), n)
    decreases |names|
  {
    if names != [] {
      var d1 := WithScalar(defs, names[0]);
      WithAllComplete(d1, names[1..]);
      WithAllKeeps(d1, names[1..], names[0]);
    }
  }

  /** Adding names that are all present changes nothing. */
  lemma {:induction false} WithAllPresent(defs: seq<Definition>, names: seq<string>)
    requires forall n :: n in names ==> HasScalar(defs, n)
    ensures WithAll(defs, names) == defs
    decreases |names|
  {
    if names != [] {
      assert names[0] in names;
      WithAllPresent(defs, names[1..]);
    }
  }

  /** A second `AddScalars` leaves the definitions unchanged. */
  lemma WithScalarsIdempotent(defs: seq<Definition>)
    ensures WithScalars(WithScalars(defs)) == WithScalars(defs)
  {
    WithAllComplete(defs, SupportedScalars);
    WithAllPresent(WithScalars(defs), SupportedScalars);
  }

  lemma {:induction false} ScalarCountPositive(defs: seq<Definition>, n: string)
    ensures ScalarCount(defs, n) > 0 <==> HasScalar(defs, n)
  {
    if defs != [] {
      var init := defs[..|defs| - 1];
      ScalarCountPositive(init, n);
      if HasScalar(init, n) {
        var i :| 0 <= i < |init| && IsScalarNamed(init[i], n);
        assert IsScalarNamed(defs[i], n);
      }
      if HasScalar(defs, n) && !IsScalarNamed(defs[|defs| - 1], n) {
        var i :| 0 <= i < |defs| && IsScalarNamed(defs[i], n);
        assert IsScalarNamed(init[i], n);
      }
    }
  }

  /** One `addScalarInSchema` step, counted. */
  lemma WithScalarCount(defs: seq<Definition>, name: string, n: string)
    ensures ScalarCount(WithScalar(defs, name), n) ==
              if n == name && ScalarCount(defs, n) == 0 then 1 else ScalarCount(defs, n)
  {
    ScalarCountPositive(defs, name);
    ScalarCountPositive(defs, n);
    if !HasScalar(defs, name) {
      var d1 := defs + [ScalarDefinition(name)];
      assert WithScalar(defs, name) == d1;
      assert d1[..|d1| - 1] == defs;
      assert ScalarCount(d1, n) == ScalarCount(defs, n) + (if IsScalarNamed(ScalarDefinition(name), n) then 1 else 0);
    } else {
      assert WithScalar(defs, name) == defs;
    }
  }

  /**
   * Each requested name ends up declared exactly as often as before, or once
   * if it was missing; other names are not touched.
   */
  lemma {:induction false} WithAllCount(defs: seq<Definition>, names: seq<string>, n: string)
    ensures n in names && ScalarCount(defs, n) == 0 ==> ScalarCount(WithAll(defs, names), n) == 1
    ensures n !in names || ScalarCount(defs, n) > 0 ==>
              ScalarCount(WithAll(defs, names), n) == ScalarCount(defs, n)
    decreases |names|
  {
    if names != [] {
      WithScalarCount(defs, names[0], n);
      WithAllCount(WithScalar(defs, names[0]), names[1..], n);
      assert n in names <==> n == names[0] || n in names[1..];
    }
  }

  /** After bootstrapping (once or more), a built-in declared at most once is declared exactly once. */
  lemma ScalarsDeclaredOnce(defs: seq<Definition>, n: string)
    requires n in SupportedScalars && ScalarCount(defs, n) <= 1
    ensures ScalarCount(WithScalars(defs), n) == 1
    ensures ScalarCount(WithScalars(WithScalars(defs)), n) == 1
  {
    WithAllCount(defs, SupportedScalars, n);
    WithScalarsIdempotent(defs);
  }
}

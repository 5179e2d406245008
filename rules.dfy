/**
 * The schema-rule registry: an ordered list of named rules, each of which
 * inspects the whole schema and reports at most one error, and the runner
 * that applies every rule and collects what they report.
 */
module Rules {
  import opened Ast

  /** An error reported by a rule; its contents are opaque to the registry. */
  datatype GqlError = GqlError(message: string)

  /** A named rule: a pure check of the whole schema. */
  datatype Rule = Rule(name: string, check: SchemaValue -> Option<GqlError>)

  /** The errors reported by `rules` on `s`, in registration order. */
  function Failures(rules: seq<Rule>, s: SchemaValue): seq<GqlError>
  {
    if rules == [] then []
    else
      Failures(rules[..|rules| - 1], s) +
      (match rules[|rules| - 1].check(s) case None => [] case Some(e) => [e])
  }

  /**
   * `idx` lists, in increasing order, exactly the positions of the rules that
   * report an error on `s`.
   */
  ghost predicate ReportingPositions(rules: seq<Rule>, s: SchemaValue, idx: seq<int>)
  {
    (forall k :: 0 <= k < |idx| ==> 0 <= idx[k] < |rules| && rules[idx[k]].check(s).Some?) &&
    (forall k, l :: 0 <= k < l < |idx| ==> idx[k] < idx[l]) &&
    (forall i :: 0 <= i < |rules| && rules[i].check(s).Some? ==> i in idx)
  }

  /** Extending the reporting positions of all but the last rule to all rules. */
  lemma ReportingStep(rules: seq<Rule>, s: SchemaValue, prev: seq<int>) returns (idx: seq<int>)
    requires |rules| > 0 && ReportingPositions(rules[..|rules| - 1], s, prev)
    ensures ReportingPositions(rules, s, idx)
    ensures idx == if rules[|rules| - 1].check(s).Some? then prev + [|rules| - 1] else prev
  {
    var n := |rules| - 1;
    var init := rules[..n];
    idx := if rules[n].check(s).Some? then prev + [n] else prev;
    forall k | 0 <= k < |idx|
      ensures 0 <= idx[k] < |rules| && rules[idx[k]].check(s).Some?
    {
      if k < |prev| {
        assert idx[k] == prev[k] && init[prev[k]] == rules[prev[k]];
      }
    }
    forall k, l | 0 <= k < l < |idx|
      ensures idx[k] < idx[l]
    {
      assert idx[k] == prev[k] < n;
      if l < |prev| {
        assert idx[l] == prev[l];
      }
    }
    forall i | 0 <= i < |rules| && rules[i].check(s).Some?
      ensures i in idx
    {
      if i < n {
        assert init[i] == rules[i];
        assert i in prev;
      }
    }
  }

  /**
   * The collected errors are exactly the reports of the rules that report
   * one, each in the position of its rule: nothing is dropped, nothing
   * reordered, and no rule is skipped after an earlier one failed.
   */
  lemma {:induction false} FailuresAreReports(rules: seq<Rule>, s: SchemaValue) returns (idx: seq<int>)
    ensures ReportingPositions(rules, s, idx)
    ensures |Failures(rules, s)| == |idx|
    ensures forall k :: 0 <= k < |idx| ==> Failures(rules, s)[k] == rules[idx[k]].check(s).value
  {
    if rules == [] {
      idx := [];
    } else {
      var n := |rules| - 1;
      var init := rules[..n];
      var prev := FailuresAreReports(init, s);
      idx := ReportingStep(rules, s, prev);
      var r, rp := Failures(rules, s), Failures(init, s);
      assert r == rp + (if rules[n].check(s).Some? then [rules[n].check(s).value] else []);
      assert forall k :: 0 <= k < |idx| ==> r[k] == rules[idx[k]].check(s).value by {
        forall k | 0 <= k < |idx|
          ensures r[k] == rules[idx[k]].check(s).value
        {
          if k < |prev| {
            assert idx[k] == prev[k] && init[prev[k]] == rules[prev[k]] && r[k] == rp[k];
          }
        }
      }
    }
  }

  /** No error is collected exactly when every rule passes. */
  lemma {:induction false} FailuresEmptyIff(rules: seq<Rule>, s: SchemaValue)
    ensures Failures(rules, s) == [] <==> forall i :: 0 <= i < |rules| ==> rules[i].check(s).None?
  {
    if rules != [] {
      var n := |rules| - 1;
      FailuresEmptyIff(rules[..n], s);
      assert forall i :: 0 <= i < n ==> rules[i] == rules[..n][i];
    }
  }

  /** The process-wide rule list, as an object initialised empty. */
  class RuleRegistry {
    var rules: seq<Rule>

    constructor ()
      ensures rules == []
    {
      rules := [];
    }

    /** Registers a rule after all the rules registered so far. */
    method AddSchRule(name: string, f: SchemaValue -> Option<GqlError>)
      modifies this
      ensures rules == old(rules) + [Rule(name, f)]
    {
      rules := rules + [Rule(name, f)];
    }

    /**
     * Runs every rule on `s` and collects the errors: None (Go's nil list)
     * when no rule reports one, otherwise the non-empty list of reports.
     */
    method ValidateSchema(s: SchemaValue) returns (errs: Option<seq<GqlError>>)
      ensures errs.None? <==> forall i :: 0 <= i < |rules| ==> rules[i].check(s).None?
      ensures errs.Some? ==> errs.value == Failures(rules, s) && errs.value != []
    {
      var acc: seq<GqlError> := [];
      for i := 0 to |rules|
        invariant acc == Failures(rules[..i], s)
      {
        var tmpRVal := rules[i].check(s);
        if tmpRVal.Some? {
          acc := acc + [tmpRVal.value];
        }
        assert rules[..i + 1][..i] == rules[..i];
      }
      assert rules[..|rules|] == rules;
      FailuresEmptyIff(rules, s);
      if |acc| == 0 {
        return None;
      }
      return Some(acc);
    }
  }
}

/** The evaluation of a list of rules, and why its verdict does not depend on their order. */
module Evaluator {
  import opened Kube
  import opened Sequences
  import opened Rules

  datatype Report = Report(rule: Rule, skipped: bool, satisfied: bool, error: Option<RuleError>)

  datatype Cause = Cause(field: string, message: string, error: Option<RuleError>)

  // ----- one rule, on its own

  /** What a rule with a fresh name is reported as. */
  ghost function ReportOn(r: Rule, c: Context): Report {
    if Malformed(r).Some? then Report(r, false, false, Malformed(r))
    else if !Applicable(r, c) then Report(r, true, false, None)
    else
      match Apply(r, c)
      case Err(error) => Report(r, false, false, Some(error))
      case Ok(satisfied) => Report(r, false, satisfied, None)
  }

  /** The rule itself speaks against the VM. */
  ghost predicate Objects(r: Rule, c: Context) {
    || Malformed(r).Some?
    || (Applicable(r, c) && (Apply(r, c).Err? || (!Apply(r, c).value && !r.justWarning)))
  }

  ghost predicate SharedName(rules: seq<Rule>) {
    exists i, j :: 0 <= i < j < |rules| && rules[i].name == rules[j].name
  }

  /** The specification: no word about order. */
  ghost predicate Rejects(rules: seq<Rule>, c: Context) {
    SharedName(rules) || exists r <- rules :: Objects(r, c)
  }

  // ----- the list

  predicate IsDuplicate(rules: seq<Rule>, i: nat)
    requires i < |rules|
  {
    exists j :: 0 <= j < i && rules[j].name == rules[i].name
  }

  ghost function ReportAt(rules: seq<Rule>, c: Context, i: nat): Report
    requires i < |rules|
  {
    if IsDuplicate(rules, i) then Report(rules[i], false, false, Some(DuplicateRuleName)) else ReportOn(rules[i], c)
  }

  /** A report that makes the evaluation fail. */
  predicate Fatal(rr: Report) {
    rr.error.Some? || (!rr.skipped && !rr.satisfied && !rr.rule.justWarning)
  }

  predicate NeedsCause(rr: Report) {
    rr.error.Some? || (!rr.skipped && !rr.satisfied)
  }

  function CauseOf(rr: Report): seq<Cause> {
    if NeedsCause(rr) then [Cause(rr.rule.path, rr.rule.message, rr.error)] else []
  }

  class EvaluationResult {
    var status: seq<Report>
    var failed: bool

    constructor ()
      ensures status == [] && !failed
    {
      status, failed := [], false;
    }

    method Fail(r: Rule, error: RuleError)
      modifies this
      ensures status == old(status) + [Report(r, false, false, Some(error))] && failed
    {
      status := status + [Report(r, false, false, Some(error))];
      failed := true;
    }

    method Skip(r: Rule)
      modifies this
      ensures status == old(status) + [Report(r, true, false, None)] && failed == old(failed)
    {
      status := status + [Report(r, true, false, None)];
    }

    method Applied(r: Rule, satisfied: bool)
      modifies this
      ensures status == old(status) + [Report(r, false, satisfied, None)]
      ensures failed == (old(failed) || (!satisfied && !r.justWarning))
    {
      status := status + [Report(r, false, satisfied, None)];
      if !satisfied {
        if !r.justWarning { failed := true; }
      }
    }

    ghost predicate Truthful()
      reads this
    {
      failed <==> exists rr <- status :: Fatal(rr)
    }

    /** Causes are given exactly if the evaluation failed, and then in order for every report that needs one. */
    method ToStatusCauses() returns (causes: seq<Cause>)
      requires Truthful()
      ensures causes == if failed then FlatMap(status, CauseOf) else []
      ensures causes != [] <==> failed
      ensures failed ==>
                forall cause :: cause in causes <==>
                  exists rr <- status ::
                    && (rr.error.Some? || (!rr.skipped && !rr.satisfied))
                    && cause.field == rr.rule.path
                    && cause.message == rr.rule.message
                    && cause.error == rr.error
    {
      if !failed { return []; }
      causes := [];
      for i := 0 to |status|
        invariant causes == FlatMap(status[..i], CauseOf)
      {
        var rr := status[i];
        assert status[..i + 1][..i] == status[..i];
        if NeedsCause(rr) {
          causes := causes + [Cause(rr.rule.path, rr.rule.message, rr.error)];
        } else {
          assert causes + [] == causes;
        }
      }
      assert status[..|status|] == status;
      ghost var fatal :| fatal in status && Fatal(fatal);
      InFlatMap(status, CauseOf, CauseOf(fatal)[0]);
      forall cause ensures cause in causes <==> exists rr <- status :: cause in CauseOf(rr) {
        InFlatMap(status, CauseOf, cause);
      }
    }
  }

  ghost function ReportNext(r: Rule, c: Context, names: set<string>): Report {
    if r.name in names then Report(r, false, false, Some(DuplicateRuleName)) else ReportOn(r, c)
  }

  /** One rule of the loop. */
  method EvaluateNext(r: Rule, c: Context, names: set<string>, result: EvaluationResult)
    modifies result
    ensures result.status == old(result.status) + [ReportNext(r, c, names)]
    ensures result.failed == (old(result.failed) || Fatal(ReportNext(r, c, names)))
  {
    if r.name in names {
      result.Fail(r, DuplicateRuleName);
      return;
    }
    var malformed := Malformed(r);
    if malformed.Some? {
      result.Fail(r, malformed.value);
      return;
    }
    if !Applicable(r, c) {
      result.Skip(r);
      return;
    }
    var satisfied := ApplyRule(r, c);
    if satisfied.Err? {
      result.Fail(r, satisfied.error);
      return;
    }
    result.Applied(r, satisfied.value);
  }

  /** One report per rule, in order, and failure exactly as specified. */
  method Evaluate(rules: seq<Rule>, c: Context) returns (result: EvaluationResult)
    ensures fresh(result)
    ensures |result.status| == |rules| && forall i :: 0 <= i < |rules| ==> result.status[i] == ReportAt(rules, c, i)
    ensures result.Truthful()
    ensures result.failed <==> Rejects(rules, c)
  {
    result := new EvaluationResult();
    var uniqueNames: set<string> := {};
    for i := 0 to |rules|
      invariant fresh(result)
      invariant uniqueNames == NamesOf(rules[..i])
      invariant result.status == Reports(rules, c, i)
      invariant result.failed == AnyFatal(result.status)
    {
      ReportsExtend(rules, c, i);
      EvaluateNext(rules[i], c, uniqueNames, result);
      uniqueNames := uniqueNames + {rules[i].name};
    }
    ReportsMean(rules, c, |rules|);
    AnyFatalIff(result.status);
    FailureIsOrderFree(rules, c);
  }

  function NamesOf(rules: seq<Rule>): set<string> {
    set r | r in rules :: r.name
  }

  /** What the first rounds of the loop report. */
  ghost function Reports(rules: seq<Rule>, c: Context, n: nat): seq<Report>
    requires n <= |rules|
  {
    if n == 0 then [] else Reports(rules, c, n - 1) + [ReportNext(rules[n - 1], c, NamesOf(rules[..n - 1]))]
  }

  predicate AnyFatal(status: seq<Report>) {
    status != [] && (Fatal(status[|status| - 1]) || AnyFatal(status[..|status| - 1]))
  }

  lemma ReportsExtend(rules: seq<Rule>, c: Context, i: nat)
    requires i < |rules|
    ensures var rr := ReportNext(rules[i], c, NamesOf(rules[..i]));
            && Reports(rules, c, i + 1) == Reports(rules, c, i) + [rr]
            && AnyFatal(Reports(rules, c, i + 1)) == (AnyFatal(Reports(rules, c, i)) || Fatal(rr))
    ensures NamesOf(rules[..i + 1]) == NamesOf(rules[..i]) + {rules[i].name}
  {
    var rr := ReportNext(rules[i], c, NamesOf(rules[..i]));
    assert (Reports(rules, c, i) + [rr])[..|Reports(rules, c, i)|] == Reports(rules, c, i);
    assert rules[..i + 1] == rules[..i] + [rules[i]];
  }

  lemma {:induction false} ReportsMean(rules: seq<Rule>, c: Context, n: nat)
    requires n <= |rules|
    ensures |Reports(rules, c, n)| == n
    ensures forall i :: 0 <= i < n ==> Reports(rules, c, n)[i] == ReportAt(rules, c, i)
  {
    if n > 0 {
      ReportsMean(rules, c, n - 1);
      NameSeenIff(rules, n - 1);
    }
  }

  lemma {:induction false} AnyFatalIff(status: seq<Report>)
    ensures AnyFatal(status) <==> exists rr <- status :: Fatal(rr)
    ensures AnyFatal(status) <==> exists i :: 0 <= i < |status| && Fatal(status[i])
  {
    if status != [] {
      var n := |status| - 1;
      AnyFatalIff(status[..n]);
      assert status == status[..n] + [status[n]];
      assert Fatal(status[n]) ==> status[n] in status;
    }
  }

  lemma NameSeenIff(rules: seq<Rule>, i: nat)
    requires i < |rules|
    ensures rules[i].name in NamesOf(rules[..i]) <==> IsDuplicate(rules, i)
  {
    if IsDuplicate(rules, i) {
      var j :| 0 <= j < i && rules[j].name == rules[i].name;
      assert rules[j] in rules[..i];
    }
  }

  lemma FatalIff(r: Rule, c: Context)
    ensures Fatal(ReportOn(r, c)) <==> Objects(r, c)
  {
  }

  /** Skipping the evaluation of a repeated name loses nothing. */
  lemma FailureIsOrderFree(rules: seq<Rule>, c: Context)
    ensures (exists i :: 0 <= i < |rules| && Fatal(ReportAt(rules, c, i))) <==> Rejects(rules, c)
  {
    if i :| 0 <= i < |rules| && Fatal(ReportAt(rules, c, i)) {
      FatalIff(rules[i], c);
      if IsDuplicate(rules, i) {
        var j :| 0 <= j < i && rules[j].name == rules[i].name;
        assert SharedName(rules);
      } else {
        assert rules[i] in rules && Objects(rules[i], c);
      }
    }
    if SharedName(rules) {
      var j, i :| 0 <= j < i < |rules| && rules[j].name == rules[i].name;
      assert IsDuplicate(rules, i) && Fatal(ReportAt(rules, c, i));
    } else if r :| r in rules && Objects(r, c) {
      var i :| 0 <= i < |rules| && rules[i] == r;
      FatalIff(r, c);
      assert Fatal(ReportAt(rules, c, i));
    }
  }

  // ----- order and additions

  lemma {:induction false} TwiceMeansTwoPlaces<T>(s: seq<T>, x: T)
    ensures multiset(s)[x] >= 2 <==> exists i, j :: 0 <= i < j < |s| && s[i] == x && s[j] == x
  {
    if s != [] {
      var n := |s| - 1;
      assert s == s[..n] + [s[n]];
      TwiceMeansTwoPlaces(s[..n], x);
      if s[n] == x && x in s[..n] {
        var i :| 0 <= i < n && s[..n][i] == x;
        assert s[i] == x && s[n] == x;
      }
    }
  }

  lemma SharedNameStays(rules: seq<Rule>, more: seq<Rule>)
    requires multiset(rules) <= multiset(more) && SharedName(rules)
    ensures SharedName(more)
  {
    var i, j :| 0 <= i < j < |rules| && rules[i].name == rules[j].name;
    if rules[i] == rules[j] {
      TwiceMeansTwoPlaces(rules, rules[i]);
      TwiceMeansTwoPlaces(more, rules[i]);
    } else {
      assert rules[i] in multiset(rules) && rules[j] in multiset(rules);
      var k :| 0 <= k < |more| && more[k] == rules[i];
      var l :| 0 <= l < |more| && more[l] == rules[j];
      assert k < l || l < k;
    }
  }

  /** Rules that are added, anywhere in the list, never turn a rejection into an acceptance. */
  lemma MoreRulesRejectMore(rules: seq<Rule>, more: seq<Rule>, c: Context)
    requires multiset(rules) <= multiset(more) && Rejects(rules, c)
    ensures Rejects(more, c)
  {
    if SharedName(rules) {
      SharedNameStays(rules, more);
    } else {
      var r :| r in rules && Objects(r, c);
      assert r in multiset(rules);
    }
  }

  /** The verdict does not depend on the order of the rules. */
  lemma OrderIsIrrelevant(rules: seq<Rule>, other: seq<Rule>, c: Context)
    requires multiset(rules) == multiset(other)
    ensures Rejects(rules, c) <==> Rejects(other, c)
  {
    if Rejects(rules, c) { MoreRulesRejectMore(rules, other, c); }
    if Rejects(other, c) { MoreRulesRejectMore(other, rules, c); }
  }

  /** The topology in a CPU section; a zero stands for an omitted number. */
  datatype Cpu = Cpu(sockets: nat, cores: nat, threads: nat)

  /** The second topology is the first one with omitted numbers taken as one. */
  predicate Completes(before: Cpu, after: Cpu) {
    && after.sockets == (if before.sockets == 0 then 1 else before.sockets)
    && after.cores == (if before.cores == 0 then 1 else before.cores)
    && after.threads == (if before.threads == 0 then 1 else before.threads)
  }

  /** A VM without a CPU section is left as it is. */
  method SetDefaultValues(cpu: Option<Cpu>) returns (filled: Option<Cpu>)
    ensures cpu.None? <==> filled.None?
    ensures cpu.Some? ==> Completes(cpu.value, filled.value)
  {
    filled := cpu;
    if cpu.Some? {
      var c := cpu.value;
      if c.sockets == 0 { c := c.(sockets := 1); }
      if c.cores == 0 { c := c.(cores := 1); }
      if c.threads == 0 { c := c.(threads := 1); }
      filled := Some(c);
    }
  }

  /**
   A VM is turned away, with reasons, exactly if the rules reject it as it looks with a complete topology.
   `view` is what the rules find in the VM, given its CPU section.
   */
  method ValidateVm(rules: seq<Rule>, cpu: Option<Cpu>, view: Option<Cpu> -> Context) returns (causes: seq<Cause>)
    ensures cpu.None? ==> (causes != [] <==> Rejects(rules, view(None)))
    ensures cpu.Some? ==>
              forall full :: Completes(cpu.value, full) ==> (causes != [] <==> Rejects(rules, view(Some(full))))
  {
    if |rules| == 0 { return []; }
    var filled := SetDefaultValues(cpu);
    var result := Evaluate(rules, view(filled));
    causes := result.ToStatusCauses();
  }
}

/**
 Fine-grained RBAC, query after query: every query edits the cached rules it reaches, so a permission list that was
 served can panic later. When it does, for whole lists, on the next query and on any number of them.
*/
module FineGrainedRepeats {
  import opened Sql
  import opened FineGrained
  import opened FineGrainedMeaning

  // No rule before k matches every resource, so none ends the loop for good.
  predicate Unshadowed(rules: seq<Rule>, k: nat)
    requires k < |rules|
  {
    forall j | 0 <= j < k :: !StepOf(rules[j]).Everything?
  }

  // The loop looks for "" in the groups of this rule.
  predicate Deletes(r: Rule) {
    Lists(r) && !MatchesAll(r) && "*" !in r.apiGroups
  }

  predicate RulesPanic(rules: seq<Rule>) {
    RulesClause(rules, Or([])).Panic?
  }

  lemma EditedSteps(r: Rule)
    ensures Deletes(EditedRule(r)) <==> Deletes(r)
    ensures StepOf(EditedRule(r)).Everything? <==> StepOf(r).Everything?
    ensures StepOf(r).Crash? <==> Deletes(r) && DeletePanics(r.apiGroups)
  {
    EditKeepsGroups(r.apiGroups);
  }

  lemma {:induction false} CrashIsReached(rules: seq<Rule>, k: nat)
    requires k < |rules| && Unshadowed(rules, k) && StepOf(rules[k]).Crash?
    ensures RulesPanic(rules)
    decreases k
  {
    if j :| 0 <= j < k && StepOf(rules[j]).Crash? {
      CrashIsReached(rules, j);
    } else {
      RulesPanicIff(rules, Or([]));
    }
  }

  lemma ShadowsShift(rules: seq<Rule>, k: nat)
    requires 0 < k < |rules|
    ensures Unshadowed(rules, k) <==> !StepOf(rules[0]).Everything? && Unshadowed(rules[1..], k - 1)
  {
    var rest := rules[1..];
    assert forall j | 0 < j < k :: rules[j] == rest[j - 1];
    assert forall j | 0 <= j < k - 1 :: rest[j] == rules[j + 1];
  }

  // What a query without a panic leaves of the rules.
  lemma {:induction false} EditedRulesAre(rules: seq<Rule>, collected: Expr, k: nat)
    requires collected.List? && !RulesClause(rules, collected).Panic? && k < |rules|
    ensures |EditedRules(rules)| == |rules|
    ensures EditedRules(rules)[k] == if Unshadowed(rules, k) then EditedRule(rules[k]) else rules[k]
  {
    var rest := rules[1..];
    if k > 0 {
      ShadowsShift(rules, k);
    }
    if !StepOf(rules[0]).Everything? && rest != [] {
      EditedRulesAre(rest, match StepOf(rules[0]) case Clause(e) => Append(collected, e) case _ => collected, if k > 0 then k - 1 else 0);
    }
  }

  lemma ShadowsStay(rules: seq<Rule>)
    requires !RulesPanic(rules)
    ensures |EditedRules(rules)| == |rules|
    ensures forall k | 0 <= k < |rules| :: Unshadowed(EditedRules(rules), k) <==> Unshadowed(rules, k)
    ensures forall k | 0 <= k < |rules| && Unshadowed(rules, k) :: EditedRules(rules)[k] == EditedRule(rules[k])
  {
    forall k | 0 <= k < |rules|
      ensures |EditedRules(rules)| == |rules|
      ensures EditedRules(rules)[k] == if Unshadowed(rules, k) then EditedRule(rules[k]) else rules[k] {
      EditedRulesAre(rules, Or([]), k);
    }
    forall k | 0 <= k < |rules| ensures StepOf(EditedRules(rules)[k]).Everything? <==> StepOf(rules[k]).Everything? {
      EditedSteps(rules[k]);
    }
  }

  // ---- The next query -------------------------------------------------------------------------------------

  // "" followed by two names at least.
  predicate Turns(r: Rule) {
    Deletes(r) && |r.apiGroups| >= 3 && r.apiGroups[0] == "" && r.apiGroups[1] != "" && r.apiGroups[2] != ""
  }

  lemma TurningCrashes(r: Rule)
    requires !StepOf(r).Crash?
    ensures StepOf(EditedRule(r)).Crash? <==> Turns(r)
  {
    EditedSteps(r);
    EditedSteps(EditedRule(r));
    if Deletes(r) {
      NextQueryPanicsIff(r.apiGroups);
    }
  }

  ghost predicate SomeTurns(rules: seq<Rule>) {
    exists k | 0 <= k < |rules| :: Unshadowed(rules, k) && Turns(rules[k])
  }

  lemma NextPassPanicsIff(rules: seq<Rule>)
    requires !RulesPanic(rules)
    ensures RulesPanic(EditedRules(rules)) <==> SomeTurns(rules)
  {
    ShadowsStay(rules);
    var edited := EditedRules(rules);
    forall k | 0 <= k < |rules| && Unshadowed(rules, k) ensures StepOf(edited[k]).Crash? <==> Turns(rules[k]) {
      if StepOf(rules[k]).Crash? {
        CrashIsReached(rules, k);
      }
      TurningCrashes(rules[k]);
    }
    RulesPanicIff(edited, Or([]));
    if SomeTurns(rules) {
      var k :| 0 <= k < |rules| && Unshadowed(rules, k) && Turns(rules[k]);
      CrashIsReached(edited, k);
    }
  }

  /**
   A permission list that one query serves makes the next query panic exactly when some rule whose "" is followed
   by two names is not behind a rule that matches everything.
  */
  lemma NextQueryPanicsIffTurns(ps: seq<Permission>)
    requires !AnyPanics(ps)
    ensures AnyPanics(EditedPermissions(ps)) <==> exists k | 0 <= k < |ps| :: SomeTurns(ps[k].rules)
  {
    forall k | 0 <= k < |ps| ensures Panics(EditedPermissions(ps)[k]) <==> SomeTurns(ps[k].rules) {
      assert !Panics(ps[k]);
      NextPassPanicsIff(ps[k].rules);
    }
  }

  // ---- Any number of queries ------------------------------------------------------------------------------

  // How many "" stand in front.
  function Leading(groups: seq<string>): (n: nat)
    ensures n <= |groups| && (forall k | 0 <= k < n :: groups[k] == "") && (n < |groups| ==> groups[n] != "")
  {
    if groups == [] || groups[0] != "" then 0 else 1 + Leading(groups[1..])
  }

  // Behind the "" in front there are two names, and there is some "".
  predicate Wears(r: Rule) {
    var n := Leading(r.apiGroups);
    Deletes(r) && "" in r.apiGroups && n + 1 < |r.apiGroups| && r.apiGroups[n + 1] != ""
  }

  lemma {:induction false} LeadingIs(groups: seq<string>, n: nat)
    requires n <= |groups| && (forall k | 0 <= k < n :: groups[k] == "") && (n < |groups| ==> groups[n] != "")
    ensures Leading(groups) == n
  {
    if n > 0 {
      LeadingIs(groups[1..], n - 1);
    }
  }

  lemma CrashWears(r: Rule)
    ensures StepOf(r).Crash? <==> Wears(r) && Leading(r.apiGroups) == 0
  {
    EditedSteps(r);
    var groups := r.apiGroups;
    var i := IndexOf(groups, "");
    if "" in groups {
      assert i > 0 ==> groups[..i][0] == groups[0];
      assert i > 1 ==> groups[..i][1] == groups[1];
    }
  }

  lemma EditWears(r: Rule)
    requires !StepOf(r).Crash?
    ensures Wears(EditedRule(r)) <==> Wears(r)
    ensures Wears(r) ==> Leading(EditedRule(r).apiGroups) == Leading(r.apiGroups) - 1
  {
    EditedSteps(r);
    CrashWears(r);
    var groups := r.apiGroups;
    EditKeepsGroups(groups);
    var n := Leading(groups);
    if Deletes(r) && n > 0 {
      var edited := groups[1..] + [""];
      assert groups[0] == "" && IndexOf(groups, "") == 0;
      assert EditedRule(r).apiGroups == edited;
      if n < |groups| {
        LeadingIs(edited, n - 1);
      } else {
        LeadingIs(edited, n);
      }
    }
  }

  ghost predicate Worn(rules: seq<Rule>) {
    exists k | 0 <= k < |rules| :: Unshadowed(rules, k) && Wears(rules[k])
  }

  lemma PanickingIsWorn(rules: seq<Rule>)
    requires RulesPanic(rules)
    ensures Worn(rules)
  {
    RulesPanicIff(rules, Or([]));
    var k :| 0 <= k < |rules| && StepOf(rules[k]).Crash? && forall j | 0 <= j < k :: !Stops(rules[j]);
    CrashWears(rules[k]);
    assert Unshadowed(rules, k);
  }

  lemma EditKeepsWear(rules: seq<Rule>, k: nat)
    requires !RulesPanic(rules) && k < |rules| && Unshadowed(rules, k)
    ensures |EditedRules(rules)| == |rules| && Unshadowed(EditedRules(rules), k)
    ensures Wears(EditedRules(rules)[k]) <==> Wears(rules[k])
    ensures Wears(rules[k]) ==> 0 < Leading(rules[k].apiGroups) == Leading(EditedRules(rules)[k].apiGroups) + 1
  {
    ShadowsStay(rules);
    if StepOf(rules[k]).Crash? {
      CrashIsReached(rules, k);
    }
    EditWears(rules[k]);
  }

  lemma UnwornStays(rules: seq<Rule>)
    requires !Worn(rules)
    ensures !RulesPanic(rules) && !Worn(EditedRules(rules))
  {
    if RulesPanic(rules) {
      PanickingIsWorn(rules);
    }
    ShadowsStay(rules);
    forall k | 0 <= k < |rules| && Unshadowed(EditedRules(rules), k) ensures !Wears(EditedRules(rules)[k]) {
      EditKeepsWear(rules, k);
    }
  }

  /** n queries in a row are served without a panic. */
  ghost predicate Serves(ps: seq<Permission>, n: nat)
    decreases n
  {
    n == 0 || (!AnyPanics(ps) && Serves(EditedPermissions(ps), n - 1))
  }

  ghost predicate AnyWorn(ps: seq<Permission>) {
    exists i | 0 <= i < |ps| :: Worn(ps[i].rules)
  }

  lemma {:induction false} UnwornServes(ps: seq<Permission>, n: nat)
    requires !AnyWorn(ps)
    ensures Serves(ps, n)
    decreases n
  {
    if n > 0 {
      forall i | 0 <= i < |ps| ensures !Panics(ps[i]) && !Worn(EditedPermissions(ps)[i].rules) {
        UnwornStays(ps[i].rules);
      }
      UnwornServes(EditedPermissions(ps), n - 1);
    }
  }

  // The rule panics at the latest on the query after its "" in front have been moved.
  lemma {:induction false} WornFails(ps: seq<Permission>, i: nat, k: nat)
    requires i < |ps| && k < |ps[i].rules| && Unshadowed(ps[i].rules, k) && Wears(ps[i].rules[k])
    ensures !Serves(ps, Leading(ps[i].rules[k].apiGroups) + 1)
    decreases Leading(ps[i].rules[k].apiGroups)
  {
    if !AnyPanics(ps) {
      assert !Panics(ps[i]);
      EditKeepsWear(ps[i].rules, k);
      WornFails(EditedPermissions(ps), i, k);
    }
  }

  /**
   A permission list serves every number of queries exactly when no rule wears out: one that deletes, is not
   behind a rule that matches everything, holds a "", and has two names in a row behind the "" in front.
  */
  lemma ServesForeverIff(ps: seq<Permission>)
    ensures (forall n: nat :: Serves(ps, n)) <==> !AnyWorn(ps)
  {
    if AnyWorn(ps) {
      var i :| 0 <= i < |ps| && Worn(ps[i].rules);
      var k :| 0 <= k < |ps[i].rules| && Unshadowed(ps[i].rules, k) && Wears(ps[i].rules[k]);
      WornFails(ps, i, k);
    } else {
      forall n: nat ensures Serves(ps, n) {
        UnwornServes(ps, n);
      }
    }
  }
}

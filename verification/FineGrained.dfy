/**
 Fine-grained RBAC: the compilation of a user's permissions into a WHERE clause
 (pkg/resolver/rbacFineGrainedHelper.go) against the direct meaning of the permissions and against the
 direct evaluator CheckUserHasAccess (pkg/rbac/userData.go).
*/
module FineGrained {
  import opened Prelude
  import opened Sql

  datatype Binding = Binding(cluster: string, scope: string, namespaces: seq<string>)
  datatype Rule = Rule(verbs: seq<string>, apiGroups: seq<string>, resources: seq<string>)
  datatype Permission = Permission(bindings: seq<Binding>, rules: seq<Rule>)

  // The outcome of building a clause; `Panic` is a Go slice-bounds panic.
  datatype Built<+T> = Done(value: T) | Panic

  // ---- Location: matchClusterAndNamespaces -------------------------------------------------------------

  predicate IsClusterWide(b: Binding) {
    b.scope == "cluster" || b.namespaces == ["*"]
  }

  function BindingClause(b: Binding): Expr {
    And([ClusterIn([b.cluster]), PropIn("namespace", b.namespaces)])
  }

  function NamespacedClauses(bs: seq<Binding>): seq<Expr> {
    if bs == [] then []
    else NamespacedClauses(bs[..|bs| - 1]) +
         (if IsClusterWide(bs[|bs| - 1]) then [] else [BindingClause(bs[|bs| - 1])])
  }

  function ClusterWideNames(bs: seq<Binding>): seq<string> {
    if bs == [] then []
    else ClusterWideNames(bs[..|bs| - 1]) + (if IsClusterWide(bs[|bs| - 1]) then [bs[|bs| - 1].cluster] else [])
  }

  function LocationClause(bs: seq<Binding>): Expr {
    List(OrOp, NamespacedClauses(bs) + if ClusterWideNames(bs) == [] then [] else [ClusterIn(ClusterWideNames(bs))])
  }

  method MatchClusterAndNamespaces(bindings: seq<Binding>) returns (result: Expr)
    ensures result == LocationClause(bindings)
  {
    result := Or([]);
    var clusterScopedNames: seq<string> := [];
    for i := 0 to |bindings|
      invariant result == List(OrOp, NamespacedClauses(bindings[..i]))
      invariant clusterScopedNames == ClusterWideNames(bindings[..i])
    {
      var b := bindings[i];
      assert bindings[..i + 1][..i] == bindings[..i];
      if b.scope == "cluster" || (|b.namespaces| == 1 && b.namespaces[0] == "*") {
        assert b.scope == "cluster" || b.namespaces == ["*"];
        clusterScopedNames := clusterScopedNames + [b.cluster];
      } else {
        result := Append(result, And([ClusterIn([b.cluster]), PropIn("namespace", b.namespaces)]));
        assert DropEmpty([BindingClause(b)]) == [BindingClause(b)];
      }
    }
    assert bindings[..|bindings|] == bindings;
    if |clusterScopedNames| > 0 {
      result := Append(result, ClusterIn(clusterScopedNames));
      assert DropEmpty([ClusterIn(clusterScopedNames)]) == [ClusterIn(clusterScopedNames)];
    }
  }

  /** The binding covers the row: its whole cluster, or the row's own namespace. */
  predicate Covers(b: Binding, row: Row) {
    b.cluster == row.cluster &&
    (IsClusterWide(b) || ("namespace" in row.data && row.data["namespace"] in b.namespaces))
  }

  lemma BindingClauseMeans(b: Binding, row: Row)
    requires !IsClusterWide(b)
    ensures !IsEmpty(BindingClause(b)) && (Eval(BindingClause(b), row) == T <==> Covers(b, row))
  {
    var es := [ClusterIn([b.cluster]), PropIn("namespace", b.namespaces)];
    AndMeans(es, row);
    assert es[0] in es && es[1] in es;
  }

  lemma {:induction false} LocationParts(bs: seq<Binding>, row: Row)
    ensures (exists e | e in NamespacedClauses(bs) :: Eval(e, row) == T) <==>
            (exists b | b in bs && !IsClusterWide(b) :: Covers(b, row))
    ensures row.cluster in ClusterWideNames(bs) <==> exists b | b in bs && IsClusterWide(b) :: b.cluster == row.cluster
    ensures NamespacedClauses(bs) == [] && ClusterWideNames(bs) == [] <==> bs == []
  {
    if bs != [] {
      var init, last := bs[..|bs| - 1], bs[|bs| - 1];
      LocationParts(init, row);
      assert forall b :: b in bs <==> b in init || b == last;
      if !IsClusterWide(last) {
        BindingClauseMeans(last, row);
      }
    }
  }

  /** The location clause selects exactly the rows that some binding covers; without bindings it is empty. */
  lemma LocationMeans(bs: seq<Binding>, row: Row)
    ensures IsEmpty(LocationClause(bs)) <==> bs == []
    ensures Eval(LocationClause(bs), row) == T <==> exists b | b in bs :: Covers(b, row)
  {
    LocationParts(bs, row);
    var es := LocationClause(bs).es;
    OrIsTrue(es, row);
    if exists e | e in es :: Eval(e, row) == T {
      var e :| e in es && Eval(e, row) == T;
      assert e in NamespacedClauses(bs) || (ClusterWideNames(bs) != [] && e == ClusterIn(ClusterWideNames(bs)));
    }
    if b :| b in bs && Covers(b, row) {
      if IsClusterWide(b) {
        assert es[|es| - 1] == ClusterIn(ClusterWideNames(bs)) && es[|es| - 1] in es;
      } else {
        var e :| e in NamespacedClauses(bs) && Eval(e, row) == T;
        assert e in es;
      }
    }
  }

  // ---- Rules: matchApiGroupAndKind -------------------------------------------------------------------

  predicate Lists(r: Rule) {
    "list" in r.verbs || "*" in r.verbs
  }

  predicate MatchesAll(r: Rule) {
    "*" in r.apiGroups && "*" in r.resources
  }

  predicate HasSlash(s: string) {
    '/' in s
  }

  /** slices.Index */
  function IndexOf(s: seq<string>, x: string): (i: nat)
    ensures i <= |s| && x !in s[..i] && (i < |s| ==> s[i] == x)
    ensures x in s ==> i < |s|
  {
    if s == [] then 0
    else if s[0] == x then 0
    else
      var i := 1 + IndexOf(s[1..], x);
      assert forall k | 1 <= k < i :: s[..i][k] == s[1..][..i - 1][k - 1];
      i
  }

  // slices.Delete(groups, index of "", 1): out of bounds when the first "" is at index 2 or later.
  predicate DeletePanics(groups: seq<string>) {
    "*" !in groups && "" in groups && IndexOf(groups, "") >= 2
  }

  // The slice that Delete returns, and what it leaves in the backing array.
  function Remaining(groups: seq<string>): seq<string>
    requires "" in groups
  {
    if IndexOf(groups, "") == 0 then groups[1..] else groups
  }

  function Edited(groups: seq<string>): seq<string> {
    if "*" !in groups && "" in groups && IndexOf(groups, "") == 0 then groups[1..] + [""] else groups
  }

  function GroupClause(groups: seq<string>): Expr {
    if "" in groups then
      (if Remaining(groups) == [] then LacksKey("apigroup")
       else Or([PropIn("apigroup", Remaining(groups)), LacksKey("apigroup")]))
    else PropIn("apigroup", groups)
  }

  function WithoutSubresources(resources: seq<string>): seq<string> {
    if resources == [] then []
    else
      var last := resources[|resources| - 1];
      WithoutSubresources(resources[..|resources| - 1]) + if HasSlash(last) then [] else [last]
  }

  // The clause of a rule that does not match everything; None when the rule names no whole resource.
  function RuleClause(r: Rule): Option<Expr> {
    var kinds := WithoutSubresources(r.resources);
    if "*" in r.resources then Some(GroupClause(r.apiGroups))
    else if kinds == [] then None
    else if "*" in r.apiGroups then Some(PropIn("kind_plural", kinds))
    else Some(And([GroupClause(r.apiGroups), PropIn("kind_plural", kinds)]))
  }

  // One iteration: nothing to add, a rule that matches any resource, a panic, or a clause to append.
  datatype RuleStep = Skip | Everything | Crash | Clause(e: Expr)

  function StepOf(r: Rule): RuleStep {
    if !Lists(r) then Skip
    else if MatchesAll(r) then Everything
    else if DeletePanics(r.apiGroups) then Crash
    else match RuleClause(r) case None => Skip case Some(e) => Clause(e)
  }

  function EditedRule(r: Rule): Rule {
    if Lists(r) && !MatchesAll(r) && !DeletePanics(r.apiGroups) then r.(apiGroups := Edited(r.apiGroups)) else r
  }

  // The loop over the rules, starting from what has been collected so far.
  function RulesClause(rules: seq<Rule>, collected: Expr): Built<Expr>
    requires collected.List?
  {
    if rules == [] then Done(collected)
    else
      match StepOf(rules[0])
      case Skip => RulesClause(rules[1..], collected)
      case Everything => Done(Or([Always]))
      case Crash => Panic
      case Clause(e) => RulesClause(rules[1..], Append(collected, e))
  }

  // What the loop leaves behind in the rules: the rules it reached are edited.
  function EditedRules(rules: seq<Rule>): seq<Rule> {
    if rules == [] then []
    else
      match StepOf(rules[0])
      case Everything => rules
      case Crash => rules
      case _ => [EditedRule(rules[0])] + EditedRules(rules[1..])
  }

  // A cached rule: the slice APIGroups shares its backing array with every copy of the permission.
  class PolicyRule {
    const verbs: seq<string>
    const resources: seq<string>
    const apiGroups: array<string>

    constructor (verbs: seq<string>, apiGroups: array<string>, resources: seq<string>)
      ensures this.verbs == verbs && this.apiGroups == apiGroups && this.resources == resources
    {
      this.verbs, this.apiGroups, this.resources := verbs, apiGroups, resources;
    }

    function Value(): Rule
      reads apiGroups
    {
      Rule(verbs, apiGroups[..], resources)
    }
  }

  function Values(rules: seq<PolicyRule>): (values: seq<Rule>)
    reads set r | r in rules :: r.apiGroups
    ensures |values| == |rules| && forall k | 0 <= k < |rules| :: values[k] == rules[k].Value()
  {
    if rules == [] then [] else [rules[0].Value()] + Values(rules[1..])
  }

  // The rules were decoded one by one: no two of them share a backing array.
  ghost predicate Separate(rules: seq<PolicyRule>) {
    forall i, j | 0 <= i < j < |rules| :: rules[i].apiGroups != rules[j].apiGroups
  }

  // slices.Delete(s, i, 1) on the slice that covers the whole array a.
  method DeleteOne(a: array<string>, i: nat) returns (r: Built<seq<string>>)
    requires i < a.Length
    modifies a
    ensures i >= 2 ==> r == Panic && a[..] == old(a[..])
    ensures i == 1 ==> r == Done(old(a[..])) && a[..] == old(a[..])
    ensures i == 0 ==> r == Done(old(a[..])[1..]) && a[..] == old(a[..])[1..] + [""]
  {
    if i > 1 {
      return Panic;
    }
    if i == 1 {
      return Done(a[..]);
    }
    var k := 0;
    while k < a.Length - 1
      invariant 0 <= k <= a.Length - 1
      invariant forall j | 0 <= j < k :: a[j] == old(a[j + 1])
      invariant forall j | k <= j < a.Length :: a[j] == old(a[j])
    {
      a[k] := a[k + 1];
      k := k + 1;
    }
    a[a.Length - 1] := "";
    assert a[..a.Length - 1] == old(a[..])[1..];
    r := Done(a[..a.Length - 1]);
  }

  method WholeResources(resources: seq<string>) returns (r: seq<string>)
    ensures r == WithoutSubresources(resources)
  {
    r := [];
    for i := 0 to |resources|
      invariant r == WithoutSubresources(resources[..i])
    {
      assert resources[..i + 1][..i] == resources[..i];
      if !HasSlash(resources[i]) {
        r := r + [resources[i]];
      }
    }
    assert resources[..|resources|] == resources;
  }

  // The apigroup part of one iteration, with its edit in place.
  method GroupExpression(r: PolicyRule) returns (e: Built<Expr>)
    requires "*" !in r.apiGroups[..]
    modifies r.apiGroups
    ensures e == if DeletePanics(old(r.Value()).apiGroups) then Panic else Done(GroupClause(old(r.Value()).apiGroups))
    ensures r.Value() == if e == Panic then old(r.Value()) else old(r.Value()).(apiGroups := Edited(old(r.Value()).apiGroups))
  {
    var groups := r.apiGroups[..];
    if "" in groups {
      var deleted := DeleteOne(r.apiGroups, IndexOf(groups, ""));
      if deleted.Panic? {
        return Panic;
      }
      if |deleted.value| > 0 {
        var es := [PropIn("apigroup", deleted.value), LacksKey("apigroup")];
        return Done(Or(es));
      }
      return Done(LacksKey("apigroup"));
    }
    return Done(PropIn("apigroup", groups));
  }

  method OneRule(r: PolicyRule) returns (e: RuleStep)
    modifies r.apiGroups
    ensures e == StepOf(old(r.Value())) && r.Value() == EditedRule(old(r.Value()))
  {
    if "list" !in r.verbs && "*" !in r.verbs {
      return Skip;
    }
    var wildcardAPIGroup := "*" in r.apiGroups[..];
    var wildcardKind := "*" in r.resources;
    if wildcardAPIGroup && wildcardKind {
      return Everything;
    }
    var group: Option<Expr> := None;
    if !wildcardAPIGroup {
      var built := GroupExpression(r);
      if built.Panic? {
        return Crash;
      }
      group := Some(built.value);
    }
    var kind: Option<Expr> := None;
    if !wildcardKind {
      var resources := WholeResources(r.resources);
      if |resources| > 0 {
        kind := Some(PropIn("kind_plural", resources));
      }
    }
    if wildcardAPIGroup && kind.Some? {
      return Clause(kind.value);
    } else if wildcardKind && group.Some? {
      return Clause(group.value);
    } else if group.Some? && kind.Some? {
      return Clause(And([group.value, kind.value]));
    }
    return Skip;
  }

  predicate Stops(r: Rule) {
    StepOf(r).Everything? || StepOf(r).Crash?
  }

  // The rules before the one that stops the loop are edited, the others stay.
  lemma {:induction false} EditedUntil(rules: seq<Rule>, i: nat)
    requires i <= |rules| && (forall k | 0 <= k < i :: !Stops(rules[k])) && (i < |rules| ==> Stops(rules[i]))
    ensures |EditedRules(rules)| == |rules|
    ensures forall k | 0 <= k < i :: EditedRules(rules)[k] == EditedRule(rules[k])
    ensures forall k | i <= k < |rules| :: EditedRules(rules)[k] == rules[k]
  {
    if i > 0 {
      EditedUntil(rules[1..], i - 1);
    }
  }

  lemma RulesClauseStep(rules: seq<Rule>, i: nat, collected: Expr)
    requires i < |rules| && collected.List?
    ensures RulesClause(rules[i..], collected) ==
            match StepOf(rules[i])
            case Skip => RulesClause(rules[i + 1..], collected)
            case Everything => Done(Or([Always]))
            case Crash => Panic
            case Clause(e) => RulesClause(rules[i + 1..], Append(collected, e))
  {
    assert rules[i..][0] == rules[i] && rules[i..][1..] == rules[i + 1..];
  }

  // The rules before i are edited, those from i on are as they were.
  ghost predicate RulesEditedBefore(rules: seq<PolicyRule>, i: nat, before: seq<Rule>)
    requires |before| == |rules|
    reads set r | r in rules :: r.apiGroups
  {
    forall k | 0 <= k < |rules| :: rules[k].Value() == if k < i then EditedRule(before[k]) else before[k]
  }

  method NextRule(rules: seq<PolicyRule>, i: nat, ghost before: seq<Rule>) returns (e: RuleStep)
    requires i < |rules| == |before| && Separate(rules) && RulesEditedBefore(rules, i, before)
    modifies rules[i].apiGroups
    ensures e == StepOf(before[i]) && RulesEditedBefore(rules, i + 1, before)
  {
    assert rules[i].Value() == before[i];
    e := OneRule(rules[i]);
    forall k | 0 <= k < |rules| && k != i ensures rules[k].Value() == old(rules[k].Value()) {
      assert rules[k].apiGroups != rules[i].apiGroups;
    }
  }

  lemma EditedIsValues(rules: seq<Rule>, values: seq<Rule>, i: nat)
    requires i <= |rules| == |values| && (forall k | 0 <= k < i :: !Stops(rules[k])) && (i < |rules| ==> Stops(rules[i]))
    requires forall k | 0 <= k < |rules| :: values[k] == if k <= i then EditedRule(rules[k]) else rules[k]
    ensures values == EditedRules(rules)
  {
    EditedUntil(rules, i);
  }

  // Before round i: no rule has stopped the loop, and the rest of the loop decides the result.
  ghost predicate AtRound(rules: seq<PolicyRule>, i: nat, before: seq<Rule>, collected: Expr)
    requires i <= |rules| == |before|
    reads set r | r in rules :: r.apiGroups
  {
    && RulesEditedBefore(rules, i, before)
    && collected.List? && RulesClause(before, Or([])) == RulesClause(before[i..], collected)
    && forall k | 0 <= k < i :: !Stops(before[k])
  }

  // One round; `stopped` holds the result when it ends the loop.
  method Round(rules: seq<PolicyRule>, i: nat, collected: Expr, ghost before: seq<Rule>)
      returns (stopped: Option<Built<Expr>>, collected': Expr)
    requires i < |rules| == |before| && Separate(rules) && AtRound(rules, i, before, collected)
    modifies rules[i].apiGroups
    ensures stopped.None? ==> AtRound(rules, i + 1, before, collected')
    ensures stopped.Some? ==> stopped.value == RulesClause(before, Or([])) && Values(rules) == EditedRules(before)
  {
    collected' := collected;
    RulesClauseStep(before, i, collected);
    var e := NextRule(rules, i, before);
    if e.Crash? || e.Everything? {
      EditedIsValues(before, Values(rules), i);
      return Some(if e.Crash? then Panic else Done(Or([Always]))), collected;
    }
    if e.Clause? {
      collected' := Append(collected, e.e);
    }
    stopped := None;
  }

  lemma NoRound(rules: seq<PolicyRule>, before: seq<Rule>)
    requires before == Values(rules)
    ensures AtRound(rules, 0, before, Or([]))
  {
    assert before[0..] == before;
  }

  lemma AllRounds(rules: seq<PolicyRule>, before: seq<Rule>, collected: Expr)
    requires |before| == |rules| && AtRound(rules, |rules|, before, collected)
    ensures RulesClause(before, Or([])) == Done(collected) && Values(rules) == EditedRules(before)
  {
    EditedIsValues(before, Values(rules), |rules|);
    assert before[|rules|..] == [];
  }

  method MatchApiGroupAndKind(rules: seq<PolicyRule>) returns (result: Built<Expr>)
    requires Separate(rules)
    modifies set r | r in rules :: r.apiGroups
    ensures result == RulesClause(old(Values(rules)), Or([]))
    ensures Values(rules) == EditedRules(old(Values(rules)))
  {
    ghost var before := Values(rules);
    var collected := Or([]);
    NoRound(rules, before);
    var i := 0;
    while i < |rules|
      invariant 0 <= i <= |rules| && AtRound(rules, i, before, collected)
    {
      var stopped;
      stopped, collected := Round(rules, i, collected, before);
      if stopped.Some? {
        return stopped.value;
      }
      i := i + 1;
    }
    AllRounds(rules, before, collected);
    result := Done(collected);
  }

  // ---- What the rules clause means ---------------------------------------------------------------------

  /** A row whose apigroup property, when present, is not empty, and whose kind is a whole resource. */
  predicate WellFormed(row: Row) {
    && ("apigroup" in row.data ==> row.data["apigroup"] != "")
    && "kind_plural" in row.data && !HasSlash(row.data["kind_plural"])
  }

  /** The rule grants list on the row's group and kind. */
  predicate Allows(r: Rule, verb: string, group: string, kind: string) {
    && (verb in r.verbs || "*" in r.verbs)
    && (group in r.apiGroups || "*" in r.apiGroups)
    && (kind in r.resources || "*" in r.resources)
  }

  predicate AllowsRow(r: Rule, row: Row)
    requires WellFormed(row)
  {
    Allows(r, "list", GroupOf(row), row.data["kind_plural"])
  }

  // The rule contributes to the clause: it lists, and it names some whole resource.
  predicate Contributes(r: Rule) {
    Lists(r) && ("*" in r.resources || WithoutSubresources(r.resources) != [])
  }

  lemma {:induction false} WholeResourcesAre(resources: seq<string>)
    ensures forall k :: k in WithoutSubresources(resources) <==> k in resources && !HasSlash(k)
  {
    if resources != [] {
      WholeResourcesAre(resources[..|resources| - 1]);
      assert forall k :: k in resources <==> k in resources[..|resources| - 1] || k == resources[|resources| - 1];
    }
  }

  lemma GroupClauseMeans(groups: seq<string>, row: Row)
    requires WellFormed(row) && !DeletePanics(groups) && "*" !in groups
    ensures !IsEmpty(GroupClause(groups)) && (Eval(GroupClause(groups), row) == T <==> GroupOf(row) in groups)
  {
    if "" in groups && Remaining(groups) != [] {
      var es := [PropIn("apigroup", Remaining(groups)), LacksKey("apigroup")];
      OrMeans(es, row);
      assert es[0] in es && es[1] in es;
      assert IndexOf(groups, "") == 0 ==> groups == [""] + groups[1..];
    } else if "" in groups {
      assert groups == [""] + groups[1..];
    }
  }

  lemma RuleClauseMeans(r: Rule, row: Row)
    requires WellFormed(row) && StepOf(r).Clause?
    ensures Contributes(r) && !IsEmpty(StepOf(r).e) && (Eval(StepOf(r).e, row) == T <==> AllowsRow(r, row))
  {
    WholeResourcesAre(r.resources);
    if "*" !in r.apiGroups {
      GroupClauseMeans(r.apiGroups, row);
    }
    if "*" !in r.resources && "*" !in r.apiGroups {
      var es := [GroupClause(r.apiGroups), PropIn("kind_plural", WithoutSubresources(r.resources))];
      AndMeans(es, row);
      assert es[0] in es && es[1] in es;
    }
  }

  lemma NoClauseNoGrant(r: Rule, row: Row)
    requires WellFormed(row) && StepOf(r).Skip?
    ensures !Contributes(r) && !AllowsRow(r, row)
  {
    WholeResourcesAre(r.resources);
  }

  lemma {:induction false} RulesMeanFrom(rules: seq<Rule>, collected: Expr, row: Row)
    requires WellFormed(row) && collected.List? && collected.op == OrOp && RulesClause(rules, collected).Done?
    ensures var e := RulesClause(rules, collected).value;
      && (IsEmpty(e) <==> IsEmpty(collected) && forall r | r in rules :: !Contributes(r))
      && (Eval(e, row) == T <==> Eval(collected, row) == T || exists r | r in rules :: AllowsRow(r, row))
  {
    if rules != [] {
      var r := rules[0];
      assert forall x :: x in rules <==> x == r || x in rules[1..];
      match StepOf(r) {
        case Skip =>
          NoClauseNoGrant(r, row);
          RulesMeanFrom(rules[1..], collected, row);
        case Everything =>
          OrMeans([Always], row);
          assert AllowsRow(r, row) && Contributes(r);
        case Crash =>
        case Clause(e) =>
          RuleClauseMeans(r, row);
          AppendMeans(collected, e, row);
          RulesMeanFrom(rules[1..], Append(collected, e), row);
      }
    }
  }

  /** The clause of the rules selects the rows that some rule allows; it is empty if no rule contributes. */
  lemma RulesMean(rules: seq<Rule>, row: Row)
    requires WellFormed(row) && RulesClause(rules, Or([])).Done?
    ensures var e := RulesClause(rules, Or([])).value;
      && (IsEmpty(e) <==> forall r | r in rules :: !Contributes(r))
      && (Eval(e, row) == T <==> exists r | r in rules :: AllowsRow(r, row))
  {
    RulesMeanFrom(rules, Or([]), row);
    assert Or([]) == List(OrOp, []);
  }

  /** The in-place deletion panics exactly when the loop reaches a rule whose first "" is at index 2 or later. */
  lemma {:induction false} RulesPanicIff(rules: seq<Rule>, collected: Expr)
    requires collected.List?
    ensures RulesClause(rules, collected).Panic? <==>
            exists k | 0 <= k < |rules| :: StepOf(rules[k]).Crash? && forall j | 0 <= j < k :: !Stops(rules[j])
  {
    if rules != [] {
      var rest := rules[1..];
      if !Stops(rules[0]) {
        var next := match StepOf(rules[0]) case Clause(e) => Append(collected, e) case _ => collected;
        RulesPanicIff(rest, next);
        if k :| 0 <= k < |rest| && StepOf(rest[k]).Crash? && forall j | 0 <= j < k :: !Stops(rest[j]) {
          assert StepOf(rules[k + 1]).Crash?;
          assert forall j | 0 <= j < k + 1 :: j > 0 ==> rules[j] == rest[j - 1];
        }
        if k :| 0 <= k < |rules| && StepOf(rules[k]).Crash? && forall j | 0 <= j < k :: !Stops(rules[j]) {
          assert StepOf(rest[k - 1]).Crash?;
          assert forall j | 0 <= j < k - 1 :: rest[j] == rules[j + 1];
        }
      } else if StepOf(rules[0]).Crash? {
        assert StepOf(rules[0]).Crash?;
      }
    }
  }

  // ---- The edit seen by the next query ----------------------------------------------------------------

  /** The edit keeps the groups of a rule, so its direct meaning does not change. */
  lemma EditKeepsGroups(groups: seq<string>)
    ensures forall g :: g in Edited(groups) <==> g in groups
    ensures |Edited(groups)| == |groups|
  {
    if "*" !in groups && "" in groups && IndexOf(groups, "") == 0 {
      assert groups == [""] + groups[1..];
    }
  }

  /**
   A rule that one query processes without a panic makes the next query panic exactly when its groups
   were "" followed by at least two names: the first query has moved "" to the end of the shared array.
  */
  lemma NextQueryPanicsIff(groups: seq<string>)
    requires !DeletePanics(groups)
    ensures DeletePanics(Edited(groups)) <==>
            "*" !in groups && |groups| >= 3 && groups[0] == "" && groups[1] != "" && groups[2] != ""
  {
    if "*" !in groups && "" in groups && IndexOf(groups, "") == 0 {
      var e := Edited(groups);
      EditKeepsGroups(groups);
      assert e[|e| - 1] == "" && "" in e;
      var i := IndexOf(e, "");
      if |groups| >= 3 {
        assert e[0] == groups[1] && e[1] == groups[2];
        assert i > 0 ==> e[..i][0] == e[0];
        assert i > 1 ==> e[..i][1] == e[1];
      }
    }
  }

  /** A concrete rule, core and two named groups: served once, a panic on the second query. */
  lemma SecondQueryPanics()
    ensures !DeletePanics(["", "apps", "batch"]) && DeletePanics(Edited(["", "apps", "batch"]))
  {
    assert IndexOf(["", "apps", "batch"], "") == 0;
    NextQueryPanicsIff(["", "apps", "batch"]);
  }
}

/**
 Fine-grained RBAC: what the whole clause grants (matchFineGrainedRbac,
 pkg/resolver/rbacFineGrainedHelper.go), when that is what the permissions say, and when it agrees with
 the direct evaluator CheckUserHasAccess (pkg/rbac/userData.go).
*/
module FineGrainedMeaning {
  import opened Sql
  import opened FineGrained
  import opened FineGrainedNamespaces

  // A permission of the cache: its rules are shared with every query that reads it.
  datatype Held = Held(bindings: seq<Binding>, rules: seq<PolicyRule>)

  ghost function Arrays(h: Held): set<object> {
    set r | r in h.rules :: r.apiGroups
  }

  function ValueOf(h: Held): Permission
    reads Arrays(h)
  {
    Permission(h.bindings, Values(h.rules))
  }

  ghost function AllArrays(hs: seq<Held>): set<object> {
    set h, a | h in hs && a in Arrays(h) :: a
  }

  function ValuesOf(hs: seq<Held>): (ps: seq<Permission>)
    reads AllArrays(hs)
    ensures |ps| == |hs| && forall k | 0 <= k < |hs| :: ps[k] == ValueOf(hs[k])
  {
    if hs == [] then [] else [ValueOf(hs[0])] + ValuesOf(hs[1..])
  }

  // No two rules share a backing array.
  ghost predicate AllSeparate(hs: seq<Held>) {
    && (forall i | 0 <= i < |hs| :: Separate(hs[i].rules))
    && forall i, j | 0 <= i < |hs| && 0 <= j < |hs| && i != j :: Arrays(hs[i]) !! Arrays(hs[j])
  }

  predicate Panics(p: Permission) {
    RulesClause(p.rules, Or([])).Panic?
  }

  function EditedPermission(p: Permission): Permission {
    Permission(p.bindings, EditedRules(p.rules))
  }

  predicate NoList(p: Permission) {
    forall r | r in p.rules :: !Contributes(r)
  }

  /** What the part of the clause built for one permission grants: an empty side is dropped. */
  predicate Grants(p: Permission, row: Row)
    requires WellFormed(row)
  {
    && (p.bindings == [] || exists b | b in p.bindings :: Covers(b, row))
    && (NoList(p) || exists r | r in p.rules :: AllowsRow(r, row))
    && !(p.bindings == [] && NoList(p))
  }

  /** What the permission says: a binding covers the row and a rule allows it. */
  predicate Permits(p: Permission, row: Row)
    requires WellFormed(row)
  {
    (exists b | b in p.bindings :: Covers(b, row)) && (exists r | r in p.rules :: AllowsRow(r, row))
  }

  predicate SomeGrants(ps: seq<Permission>, row: Row)
    requires WellFormed(row)
  {
    exists p | p in ps :: Grants(p, row)
  }

  lemma PermissionClauseMeans(p: Permission, row: Row)
    requires WellFormed(row) && !Panics(p)
    ensures var e := And([LocationClause(p.bindings), RulesClause(p.rules, Or([])).value]);
      !IsEmpty(e) && Eval(e, row) == T <==> Grants(p, row)
  {
    var es := [LocationClause(p.bindings), RulesClause(p.rules, Or([])).value];
    LocationMeans(p.bindings, row);
    RulesMean(p.rules, row);
    AndMeans(es, row);
    assert es[0] in es && es[1] in es;
    assert forall e | e in es :: e == es[0] || e == es[1];
  }

  // The clause selects what some permission grants.
  ghost predicate ClauseMeans(e: Expr, ps: seq<Permission>) {
    e.List? && e.op == OrOp && forall row | WellFormed(row) :: Eval(e, row) == T <==> SomeGrants(ps, row)
  }

  ghost predicate PartMeans(e: Expr, p: Permission) {
    forall row | WellFormed(row) :: !IsEmpty(e) && Eval(e, row) == T <==> Grants(p, row)
  }

  lemma AppendGrants(result: Expr, e: Expr, ps: seq<Permission>, p: Permission)
    requires ClauseMeans(result, ps) && PartMeans(e, p)
    ensures ClauseMeans(Append(result, e), ps + [p])
  {
    forall row | WellFormed(row) ensures Eval(Append(result, e), row) == T <==> SomeGrants(ps + [p], row) {
      AppendMeans(result, e, row);
      assert forall q :: q in ps + [p] <==> q in ps || q == p;
    }
  }

  method OnePermission(h: Held) returns (part: Built<Expr>)
    requires Separate(h.rules)
    modifies Arrays(h)
    ensures part.Panic? <==> Panics(old(ValueOf(h)))
    ensures part.Done? ==> PartMeans(part.value, old(ValueOf(h)))
    ensures ValueOf(h) == EditedPermission(old(ValueOf(h)))
  {
    ghost var p := ValueOf(h);
    var location := MatchClusterAndNamespaces(h.bindings);
    var rules := MatchApiGroupAndKind(h.rules);
    if rules.Panic? {
      return Panic;
    }
    var both := And([location, rules.value]);
    forall row | WellFormed(row) ensures !IsEmpty(both) && Eval(both, row) == T <==> Grants(p, row) {
      PermissionClauseMeans(p, row);
    }
    part := Done(both);
  }

  /** The whole clause selects what some permission grants, and the Namespace objects. */
  ghost predicate ClauseGrants(e: Expr, ps: seq<Permission>) {
    !IsEmpty(e) &&
    forall row | WellFormed(row) :: Selects(e, row) <==> SomeGrants(ps, row) || GrantsNamespace(AllBindings(ps), row)
  }

  lemma AppendNamespaces(e: Expr, n: Expr, ps: seq<Permission>)
    requires ClauseMeans(e, ps) && !IsEmpty(n)
    requires forall row :: Eval(n, row) == T <==> GrantsNamespace(AllBindings(ps), row)
    ensures ClauseGrants(Append(e, n), ps)
  {
    AppendMeans(e, n, Row("", map[]));
    forall row | WellFormed(row)
      ensures Selects(Append(e, n), row) <==> SomeGrants(ps, row) || GrantsNamespace(AllBindings(ps), row) {
      AppendMeans(e, n, row);
    }
  }

  function EditedPermissions(ps: seq<Permission>): (qs: seq<Permission>)
    ensures |qs| == |ps| && forall k | 0 <= k < |ps| :: qs[k] == EditedPermission(ps[k])
  {
    if ps == [] then [] else [EditedPermission(ps[0])] + EditedPermissions(ps[1..])
  }

  lemma {:induction false} SameBindings(ps: seq<Permission>, qs: seq<Permission>)
    requires |ps| == |qs| && forall k | 0 <= k < |ps| :: ps[k].bindings == qs[k].bindings
    ensures AllBindings(ps) == AllBindings(qs)
  {
    if ps != [] {
      SameBindings(ps[..|ps| - 1], qs[..|qs| - 1]);
    }
  }

  // The permissions before i are edited, those from i on are as they were.
  ghost predicate PermissionsEditedBefore(hs: seq<Held>, i: nat, before: seq<Permission>)
    requires |before| == |hs|
    reads AllArrays(hs)
  {
    forall k | 0 <= k < |hs| :: ValueOf(hs[k]) == if k < i then EditedPermission(before[k]) else before[k]
  }

  // One round of the loop over the permissions.
  method NextPermission(hs: seq<Held>, i: nat, result: Expr, ghost before: seq<Permission>) returns (e: Built<Expr>)
    requires i < |hs| == |before| && AllSeparate(hs)
    requires PermissionsEditedBefore(hs, i, before) && ClauseMeans(result, before[..i])
    modifies Arrays(hs[i])
    ensures e.Panic? <==> Panics(before[i])
    ensures e.Done? ==> PermissionsEditedBefore(hs, i + 1, before) && ClauseMeans(e.value, before[..i + 1])
  {
    assert ValueOf(hs[i]) == before[i];
    var part := OnePermission(hs[i]);
    if part.Panic? {
      return Panic;
    }
    forall k | 0 <= k < |hs| && k != i ensures ValueOf(hs[k]) == old(ValueOf(hs[k])) {
      assert Arrays(hs[i]) !! Arrays(hs[k]);
    }
    AppendGrants(result, part.value, before[..i], before[i]);
    assert before[..i + 1] == before[..i] + [before[i]];
    e := Done(Append(result, part.value));
  }

  predicate AnyPanics(ps: seq<Permission>) {
    exists k | 0 <= k < |ps| :: Panics(ps[k])
  }

  // The loop over the permissions.
  method MatchPermissions(hs: seq<Held>) returns (e: Built<Expr>)
    requires AllSeparate(hs)
    modifies AllArrays(hs)
    ensures e.Panic? <==> AnyPanics(old(ValuesOf(hs)))
    ensures e.Done? ==> ClauseMeans(e.value, old(ValuesOf(hs))) && PermissionsEditedBefore(hs, |hs|, old(ValuesOf(hs)))
  {
    ghost var before := ValuesOf(hs);
    e := Done(Or([]));
    var i := 0;
    while i < |hs|
      invariant 0 <= i <= |hs| && e.Done?
      invariant forall k | 0 <= k < i :: !Panics(before[k])
      invariant PermissionsEditedBefore(hs, i, before)
      invariant ClauseMeans(e.value, before[..i])
    {
      assert Arrays(hs[i]) <= AllArrays(hs) by { assert hs[i] in hs; }
      e := NextPermission(hs, i, e.value, before);
      if e.Panic? {
        assert Panics(before[i]);
        return;
      }
      i := i + 1;
    }
    assert before[..|hs|] == before;
  }

  /**
   The compiled clause, on every permission list: it panics exactly when the deletion in some permission
   does; otherwise it selects the rows that some permission's part grants and the Namespace objects, and
   leaves the shared rules edited.
  */
  method MatchFineGrainedRbac(hs: seq<Held>) returns (result: Built<Expr>)
    requires AllSeparate(hs)
    modifies AllArrays(hs)
    ensures result.Panic? <==> AnyPanics(old(ValuesOf(hs)))
    ensures result.Done? ==> ClauseGrants(result.value, old(ValuesOf(hs)))
    ensures result.Done? ==> ValuesOf(hs) == EditedPermissions(old(ValuesOf(hs)))
  {
    ghost var before := ValuesOf(hs);
    var e := MatchPermissions(hs);
    if e.Panic? {
      return Panic;
    }
    assert ValuesOf(hs) == EditedPermissions(before);
    SameBindings(ValuesOf(hs), before);
    var namespaces := MatchNamespaces(ValuesOf(hs));
    AppendNamespaces(e.value, namespaces, before);
    result := Done(Append(e.value, namespaces));
  }
}

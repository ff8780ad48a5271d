/** The RBAC clause of a search in its four modes (buildRbacWhereClause, pkg/resolver/rbacHelper.go). */
module RbacClause {
  import opened Sql
  import opened FineGrained
  import opened FineGrainedNamespaces
  import opened FineGrainedMeaning
  import opened BasicRbac

  // The user's access, as the query sees it: the fine-grained rules are shared with the cache.
  datatype UserData = UserData(
    isClusterAdmin: bool,
    csResources: seq<Resource>,
    nsResources: map<string, seq<Resource>>,
    managedClusters: set<string>,
    permissions: seq<Held>)

  /** The rows a user sees: all of them, or the granted ones of the mode plus the hub clause. */
  ghost predicate Sees(user: UserData, fineGrained: bool, ps: seq<Permission>, hub: seq<string>, row: Row)
    requires WellFormed(row)
  {
    || user.isClusterAdmin
    || HubClause(user.csResources, user.nsResources, row)
    || (fineGrained && ps != [] && (SomeGrants(ps, row) || GrantsNamespace(AllBindings(ps), row)))
    || (!fineGrained && ManagedGrant(user.managedClusters, hub, row))
  }

  /**
   An administrator sees every row. Without fine-grained access the hub clause and the managed clusters count, and the
   permissions do not; with it the hub clause and the permissions count, if there are any, and the managed clusters
   do not.
  */
  lemma ModesMean(user: UserData, ps: seq<Permission>, hub: seq<string>, row: Row)
    requires WellFormed(row)
    ensures user.isClusterAdmin ==> Sees(user, true, ps, hub, row) && Sees(user, false, ps, hub, row)
    ensures !user.isClusterAdmin ==>
      && (Sees(user, true, [], hub, row) <==> HubClause(user.csResources, user.nsResources, row))
      && (Sees(user, false, ps, hub, row) <==>
          HubClause(user.csResources, user.nsResources, row) || ManagedGrant(user.managedClusters, hub, row))
      && (ps != [] ==>
          (Sees(user, true, ps, hub, row) <==>
           HubClause(user.csResources, user.nsResources, row) || SomeGrants(ps, row) || GrantsNamespace(AllBindings(ps), row)))
  {
  }

  // Both sides of the disjunction render, so it selects what either selects.
  lemma EitherSelects(a: Expr, b: Expr, row: Row)
    requires !IsEmpty(a) && !IsEmpty(b)
    ensures Selects(Or([a, b]), row) <==> Selects(a, row) || Selects(b, row)
  {
    var es := [a, b];
    assert es[0] in es && es[1] in es;
    OrMeans(es, row);
  }

  method BuildRbacWhereClause(user: UserData, fineGrained: bool, c: Codec, hub: seq<string>) returns (e: Built<Expr>)
    requires Faithful(c) && AllSeparate(user.permissions) && forall n | n in user.nsResources :: user.nsResources[n] != []
    modifies AllArrays(user.permissions)
    ensures e.Panic? <==> !user.isClusterAdmin && fineGrained && AnyPanics(old(ValuesOf(user.permissions)))
    ensures e.Done? ==> forall row | WellFormed(row) ::
              Selects(e.value, row) <==> Sees(user, fineGrained, old(ValuesOf(user.permissions)), hub, row)
  {
    ghost var ps := ValuesOf(user.permissions);
    if user.isClusterAdmin {
      return Done(Or([]));
    }
    if fineGrained && |user.permissions| > 0 {
      var permitted := MatchFineGrainedRbac(user.permissions);
      if permitted.Panic? {
        return Panic;
      }
      var onHub := MatchHubClusterRbac(user.csResources, user.nsResources, c);
      forall row | WellFormed(row)
        ensures Selects(Or([permitted.value, onHub]), row) <==> Sees(user, fineGrained, ps, hub, row) {
        EitherSelects(permitted.value, onHub, row);
      }
      return Done(Or([permitted.value, onHub]));
    }
    if fineGrained && |user.permissions| == 0 {
      var onHub := MatchHubClusterRbac(user.csResources, user.nsResources, c);
      return Done(onHub);
    }
    var basic := BasicClause(user.managedClusters, user.csResources, user.nsResources, c, hub);
    e := Done(basic);
  }
}

/**
 Fine-grained RBAC: when the compiled clause means what the permissions say, and the direct evaluator
 CheckUserHasAccess with its permission cache (pkg/rbac/userData.go).
*/
module FineGrainedAccess {
  import opened Sql
  import opened FineGrained
  import opened FineGrainedNamespaces
  import opened FineGrainedMeaning
  import opened PermissionCache
  import opened Prelude

  // ---- Where a permission's clause grants more than the permission ----------------------------------------

  predicate CoversSome(b: Binding) {
    IsClusterWide(b) || b.namespaces != []
  }

  /**
   An empty side of the conjunction is dropped: bindings without a usable rule grant everything at their
   locations, and rules without a binding grant their kinds everywhere.
  */
  predicate OverGrants(p: Permission) {
    || (p.bindings != [] && NoList(p) && exists b | b in p.bindings :: CoversSome(b))
    || (p.bindings == [] && exists r | r in p.rules :: Contributes(r) && r.apiGroups != [])
  }

  lemma NoListAllowsNothing(p: Permission, row: Row)
    requires NoList(p) && WellFormed(row)
    ensures forall r | r in p.rules :: !AllowsRow(r, row)
  {
    forall r | r in p.rules ensures !AllowsRow(r, row) {
      assert !Contributes(r);
      WholeResourcesAre(r.resources);
    }
  }

  lemma CoveredRow(b: Binding) returns (row: Row)
    requires CoversSome(b)
    ensures WellFormed(row) && Covers(b, row)
  {
    var namespace := if b.namespaces == [] then "" else b.namespaces[0];
    row := Row(b.cluster, map["namespace" := namespace, "kind_plural" := "pods"]);
  }

  lemma AllowedRow(r: Rule) returns (row: Row)
    requires Contributes(r) && r.apiGroups != []
    ensures WellFormed(row) && AllowsRow(r, row)
  {
    WholeResourcesAre(r.resources);
    var kinds := WithoutSubresources(r.resources);
    var kind := if kinds == [] then "pods" else kinds[0];
    var group := r.apiGroups[0];
    row := Row("", if group == "" then map["kind_plural" := kind] else map["kind_plural" := kind, "apigroup" := group]);
    assert r.apiGroups[0] in r.apiGroups && (kinds != [] ==> kinds[0] in kinds);
  }

  /** The part built for a permission means what the permission says, on every row, unless it over-grants. */
  lemma ExactIff(p: Permission)
    ensures (forall row | WellFormed(row) :: Grants(p, row) <==> Permits(p, row)) <==> !OverGrants(p)
  {
    if OverGrants(p) {
      var row: Row;
      if p.bindings != [] {
        var b :| b in p.bindings && CoversSome(b);
        row := CoveredRow(b);
      } else {
        var r :| r in p.rules && Contributes(r) && r.apiGroups != [];
        row := AllowedRow(r);
      }
      if NoList(p) {
        NoListAllowsNothing(p, row);
      }
      assert Grants(p, row) && !Permits(p, row);
    } else {
      forall row | WellFormed(row) ensures Grants(p, row) <==> Permits(p, row) {
        GrantedIsPermitted(p, row);
      }
    }
  }

  lemma GrantedIsPermitted(p: Permission, row: Row)
    requires WellFormed(row) && !OverGrants(p)
    ensures Grants(p, row) <==> Permits(p, row)
  {
    forall r | r in p.rules && AllowsRow(r, row) ensures Contributes(r) && r.apiGroups != [] {
      AllowingContributes(r, row);
    }
    forall b | b in p.bindings && Covers(b, row) ensures CoversSome(b) {
    }
  }

  lemma AllowingContributes(r: Rule, row: Row)
    requires WellFormed(row) && AllowsRow(r, row)
    ensures Contributes(r) && r.apiGroups != []
  {
    WholeResourcesAre(r.resources);
  }

  /** A view of one cluster whose only rule names a subresource: it grants everything in the cluster. */
  lemma SubresourceRuleGrantsCluster(row: Row)
    requires WellFormed(row) && row.cluster == "c"
    ensures var p := Permission([Binding("c", "cluster", [])], [Rule(["list"], [""], ["pods/log"])]);
      Grants(p, row) && !Permits(p, row)
  {
    var r := Rule(["list"], [""], ["pods/log"]);
    var p := Permission([Binding("c", "cluster", [])], [r]);
    assert "pods/log"[4] == '/';
    assert WithoutSubresources(r.resources[..0]) == [] && WithoutSubresources(r.resources) == [];
    assert NoList(p);
    assert p.bindings[0] in p.bindings && Covers(p.bindings[0], row);
    NoListAllowsNothing(p, row);
  }

  /** Rules without a binding grant their kinds in every cluster. */
  lemma UnboundRuleGrantsEverywhere(row: Row)
    requires WellFormed(row) && "apigroup" !in row.data && row.data["kind_plural"] == "pods"
    ensures var p := Permission([], [Rule(["list"], [""], ["pods"])]);
      Grants(p, row) && !Permits(p, row)
  {
    var r := Rule(["list"], [""], ["pods"]);
    var p := Permission([], [r]);
    WholeResourcesAre(r.resources);
    assert p.rules[0] in p.rules && r.verbs[0] in r.verbs && r.resources[0] in r.resources && r.apiGroups[0] in r.apiGroups;
    assert AllowsRow(r, row) && !NoList(p);
  }

  predicate PermitsSome(ps: seq<Permission>, row: Row)
    requires WellFormed(row)
  {
    exists p | p in ps :: Permits(p, row)
  }

  /**
   On lists where every permission has a binding and yields a list expression, and some binding has a known
   scope, a row satisfies the clause iff some permission covers and allows it or it is a covered Namespace.
  */
  lemma ClauseIsPermissions(e: Expr, ps: seq<Permission>, row: Row)
    requires ClauseGrants(e, ps) && WellFormed(row)
    requires forall p | p in ps :: p.bindings != [] && !NoList(p)
    requires exists b | b in AllBindings(ps) :: IsScoped(b)
    ensures Selects(e, row) <==>
            PermitsSome(ps, row) || (IsNamespaceObject(row) && exists b | b in AllBindings(ps) :: CoversNamespace(b, row))
  {
    forall p | p in ps ensures Grants(p, row) <==> Permits(p, row) {
    }
    assert SomeGrants(ps, row) <==> PermitsSome(ps, row);
  }

  // ---- CheckUserHasAccess ----------------------------------------------------------------------------------

  predicate AtLocation(b: Binding, cluster: string, namespace: string) {
    b.cluster == cluster && (b.scope == "cluster" || namespace in b.namespaces || "*" in b.namespaces)
  }

  predicate HasAccess(ps: seq<Permission>, verb: string, group: string, kind: string, cluster: string, namespace: string) {
    exists p | p in ps :: PermissionGives(p, verb, group, kind, cluster, namespace)
  }

  predicate PermissionGives(p: Permission, verb: string, group: string, kind: string, cluster: string, namespace: string) {
    && (exists b | b in p.bindings :: AtLocation(b, cluster, namespace))
    && (exists r | r in p.rules :: Allows(r, verb, group, kind))
  }

  // The first loop over one permission, with its early exit.
  method MatchesLocation(bindings: seq<Binding>, cluster: string, namespace: string) returns (found: bool)
    ensures found <==> exists b | b in bindings :: AtLocation(b, cluster, namespace)
  {
    found := false;
    for i := 0 to |bindings|
      invariant forall k | 0 <= k < i :: !AtLocation(bindings[k], cluster, namespace)
    {
      var location := bindings[i];
      if location.cluster == cluster {
        if location.scope == "cluster" || namespace in location.namespaces || "*" in location.namespaces {
          found := true;
          assert AtLocation(location, cluster, namespace);
          break;
        }
      }
    }
  }

  // The search over the permissions: the answer is yes exactly if one of them gives the access.
  method SearchPermissions(items: seq<Permission>, verb: string, apigroup: string, kind: string, cluster: string,
                           namespace: string) returns (ok: bool)
    ensures ok <==> HasAccess(items, verb, apigroup, kind, cluster, namespace)
  {
    for i := 0 to |items|
      invariant forall k | 0 <= k < i :: !PermissionGives(items[k], verb, apigroup, kind, cluster, namespace)
    {
      var p := items[i];
      var atLocation := MatchesLocation(p.bindings, cluster, namespace);
      if !atLocation {
        continue;
      }
      for j := 0 to |p.rules|
        invariant forall k | 0 <= k < j :: !Allows(p.rules[k], verb, apigroup, kind)
      {
        var rule := p.rules[j];
        var matchVerb := verb in rule.verbs || "*" in rule.verbs;
        var matchApiGroup := apigroup in rule.apiGroups || "*" in rule.apiGroups;
        var matchKind := kind in rule.resources || "*" in rule.resources;
        if matchVerb && matchApiGroup && matchKind {
          assert Allows(rule, verb, apigroup, kind);
          assert PermissionGives(p, verb, apigroup, kind, cluster, namespace);
          return true;
        }
      }
    }
    return false;
  }

  // How the making of a record turns out: whether the API is asked for the permissions and when, the stamps of the
  // other caches, and whether GetUserDataCache returns the record or an error.
  datatype Build = Build(admin: bool, asked: Option<Fetch>, askedAt: int, csr: Option<int>, nsr: Option<int>,
                         clusters: Option<int>, returned: bool)

  class UserDataCache {
    const sharedTtl: int
    const ttl: int
    const userTtl: int
    var isClusterAdmin: bool
    var permissions: seq<Permission>
    var failed: bool      // the cache's err field is set
    var updatedAt: int
    var csrUpdatedAt: Option<int>       // None: the zero time
    var nsrUpdatedAt: Option<int>
    var clustersUpdatedAt: Option<int>
    ghost var fetchedAt: int  // when the permissions in use were read from the API

    constructor (sharedTtl: int, ttl: int, userTtl: int)
      ensures this.sharedTtl == sharedTtl && this.ttl == ttl && this.userTtl == userTtl
      ensures State() == EMPTY && Oldest() == None && !isClusterAdmin
    {
      this.sharedTtl, this.ttl, this.userTtl, this.isClusterAdmin := sharedTtl, ttl, userTtl, false;
      permissions, failed, updatedAt, fetchedAt := [], false, 0, 0;
      csrUpdatedAt, nsrUpdatedAt, clustersUpdatedAt := None, None, None;
    }

    // The oldest of the three stamps, once all are there.
    ghost function Oldest(): Option<int>
      reads this
    {
      if csrUpdatedAt.None? || nsrUpdatedAt.None? || clustersUpdatedAt.None? then None
      else Some(Min(csrUpdatedAt.value, Min(nsrUpdatedAt.value, clustersUpdatedAt.value)))
    }

    /** The record can be handed out at `now`: its oldest stamp is within the time-to-live of the user's caches. */
    ghost predicate Lives(now: int)
      reads this
    {
      Oldest().Some? && now < Oldest().value + if userTtl > 0 then userTtl else sharedTtl
    }

    method StampIsValid(stamp: Option<int>, now: int) returns (ok: bool)
      ensures ok <==> stamp.Some? && now < stamp.value + if userTtl > 0 then userTtl else sharedTtl
    {
      var cacheTtl := sharedTtl;
      if userTtl > 0 {
        cacheTtl := userTtl;
      }
      ok := stamp.Some? && now < stamp.value + cacheTtl;
    }

    /** A record lives as long as each of its three other caches is stamped and within the user's time-to-live. */
    lemma LivesMeans(now: int)
      ensures Lives(now) <==>
        var ttl := if userTtl > 0 then userTtl else sharedTtl;
        && csrUpdatedAt.Some? && now < csrUpdatedAt.value + ttl
        && nsrUpdatedAt.Some? && now < nsrUpdatedAt.value + ttl
        && clustersUpdatedAt.Some? && now < clustersUpdatedAt.value + ttl
    {
    }

    // The record's isValid.
    method RecordIsValid(now: int) returns (ok: bool)
      ensures ok <==> Lives(now)
    {
      LivesMeans(now);
      var csr := StampIsValid(csrUpdatedAt, now);
      var nsr := StampIsValid(nsrUpdatedAt, now);
      var clusters := StampIsValid(clustersUpdatedAt, now);
      ok := csr && nsr && clusters;
    }

    ghost function State(): Cache
      reads this
    {
      Cache(permissions, failed, updatedAt, fetchedAt)
    }

    /** The configured time-to-live. */
    function Configured(): int {
      if ttl > 0 then ttl else sharedTtl
    }

    method IsValid(now: int) returns (ok: bool)
      ensures ok <==> now < updatedAt + Ttl(Configured(), State())
    {
      var cacheTtl := sharedTtl;
      if ttl > 0 {
        cacheTtl := ttl;
      }
      if failed {
        cacheTtl := ERROR_TTL;
      }
      ok := now < updatedAt + cacheTtl;
    }

    method GetUserPermissions(now: int, fetch: Fetch) returns (ok: bool)
      modifies this`permissions, this`failed, this`updatedAt, this`fetchedAt
      ensures ok == fetch.Listed?
      ensures State() == AfterFetch(old(State()), now, fetch)
    {
      match fetch {
        case ListFailed =>
          failed, updatedAt := true, now;
          return false;
        case ConvertFailed =>
          return false;
        case Listed(ps) =>
          permissions, updatedAt, fetchedAt := ps, now, now;
          return true;
      }
    }

    // The answer is a use of the cache: with an error it is no, otherwise what the permissions give.
    method CheckUserHasAccess(now: int, fetch: Fetch, verb: string, apigroup: string, kind: string, cluster: string,
                              namespace: string) returns (ok: bool)
      modifies this`permissions, this`failed, this`updatedAt, this`fetchedAt
      ensures isClusterAdmin ==> ok && State() == old(State())
      ensures !isClusterAdmin ==> State() == AfterUse(Configured(), old(State()), now, fetch)
      ensures !isClusterAdmin ==>
        (ok <==> Answers(Configured(), old(State()), now, fetch)
                 && HasAccess(permissions, verb, apigroup, kind, cluster, namespace))
    {
      if isClusterAdmin {
        return true;
      }
      var valid := IsValid(now);
      if |permissions| == 0 || !valid {
        var fetched := GetUserPermissions(now, fetch);
        if !fetched {
          return false;
        }
      }
      ok := SearchPermissions(permissions, verb, apigroup, kind, cluster, namespace);
    }

    // The permissions from which a search compiles its clause: the same use of the cache, for administrators too.
    method GetUserData(now: int, fetch: Fetch) returns (copy: Option<seq<Permission>>)
      modifies this`permissions, this`failed, this`updatedAt, this`fetchedAt
      ensures State() == AfterUse(Configured(), old(State()), now, fetch)
      ensures copy == if Answers(Configured(), old(State()), now, fetch) then Some(permissions) else None
    {
      var valid := IsValid(now);
      if |permissions| == 0 || !valid {
        var fetched := GetUserPermissions(now, fetch);
        if !fetched {
          return None;
        }
      }
      copy := Some(permissions);
    }
  }

  // The entry of one user in the users map.
  class UserCache {
    const sharedTtl: int
    const ttl: int
    const userTtl: int
    var user: UserDataCache?

    constructor (sharedTtl: int, ttl: int, userTtl: int)
      ensures this.sharedTtl == sharedTtl && this.ttl == ttl && this.userTtl == userTtl && user == null
    {
      this.sharedTtl, this.ttl, this.userTtl, user := sharedTtl, ttl, userTtl, null;
    }

    /**
     GetUserDataCache: a record that lives is returned as it is; otherwise a new one takes its place, with none of
     the permissions and without the error of the old one.
    */
    method GetUserDataCache(now: int, build: Build) returns (record: Option<UserDataCache>)
      modifies this
      ensures old(user) != null && old(user.Lives(now)) ==> user == old(user) && record == Some(user)
      ensures old(user) == null || !old(user.Lives(now)) ==>
        && user != null && fresh(user) && record == (if build.returned then Some(user) else None)
        && user.sharedTtl == sharedTtl && user.ttl == ttl && user.userTtl == userTtl && user.isClusterAdmin == build.admin
        && user.State() == (if build.asked.Some? then AfterFetch(EMPTY, build.askedAt, build.asked.value) else EMPTY)
        && user.csrUpdatedAt == build.csr && user.nsrUpdatedAt == build.nsr && user.clustersUpdatedAt == build.clusters
    {
      if user != null {
        var valid := user.RecordIsValid(now);
        if valid {
          return Some(user);
        }
      }
      var made := new UserDataCache(sharedTtl, ttl, userTtl);
      user := made;
      made.isClusterAdmin := build.admin;
      if build.asked.Some? {
        var listed := made.GetUserPermissions(build.askedAt, build.asked.value);
      }
      made.csrUpdatedAt, made.nsrUpdatedAt, made.clustersUpdatedAt := build.csr, build.nsr, build.clusters;
      record := if build.returned then Some(made) else None;
    }
  }

  // ---- The clause against CheckUserHasAccess ---------------------------------------------------------------

  function NamespaceOf(row: Row): string {
    if "namespace" in row.data then row.data["namespace"] else ""
  }

  /** Namespace wildcards stand alone, and no namespace name is empty. */
  predicate Plain(b: Binding) {
    b.scope == "cluster" || (("*" in b.namespaces ==> b.namespaces == ["*"]) && "" !in b.namespaces)
  }

  /** A binding's location means the same to the clause and to CheckUserHasAccess exactly if it is plain. */
  lemma LocationAgreesIff(b: Binding)
    ensures (forall row :: Covers(b, row) <==> AtLocation(b, row.cluster, NamespaceOf(row))) <==> Plain(b)
  {
    var row := Row(b.cluster, map[]);
    if !Plain(b) {
      assert !Covers(b, row) && AtLocation(b, row.cluster, NamespaceOf(row));
    } else if "*" in b.namespaces && b.scope != "cluster" {
      assert IsClusterWide(b);
    }
  }

  /** With plain bindings, what the permissions say about a row is the answer of CheckUserHasAccess for "list". */
  lemma PermitsIsHasAccess(ps: seq<Permission>, row: Row)
    requires WellFormed(row)
    requires forall p, b | p in ps && b in p.bindings :: Plain(b)
    ensures PermitsSome(ps, row) <==>
            HasAccess(ps, "list", GroupOf(row), row.data["kind_plural"], row.cluster, NamespaceOf(row))
  {
    forall p | p in ps
      ensures Permits(p, row) <==>
              PermissionGives(p, "list", GroupOf(row), row.data["kind_plural"], row.cluster, NamespaceOf(row)) {
      forall b | b in p.bindings ensures Covers(b, row) <==> AtLocation(b, row.cluster, NamespaceOf(row)) {
        LocationAgreesIff(b);
      }
      assert forall r | r in p.rules :: AllowsRow(r, row) <==> Allows(r, "list", GroupOf(row), row.data["kind_plural"]);
    }
  }

  /**
   On such lists with plain bindings the compiled clause selects a row iff CheckUserHasAccess says yes to listing
   it, or the row is a Namespace object that a binding covers.
  */
  lemma ClauseIsHasAccess(e: Expr, ps: seq<Permission>, row: Row)
    requires ClauseGrants(e, ps) && WellFormed(row)
    requires forall p | p in ps :: p.bindings != [] && !NoList(p)
    requires exists b | b in AllBindings(ps) :: IsScoped(b)
    requires forall p, b | p in ps && b in p.bindings :: Plain(b)
    ensures Selects(e, row) <==>
            HasAccess(ps, "list", GroupOf(row), row.data["kind_plural"], row.cluster, NamespaceOf(row))
            || (IsNamespaceObject(row) && exists b | b in AllBindings(ps) :: CoversNamespace(b, row))
  {
    ClauseIsPermissions(e, ps, row);
    PermitsIsHasAccess(ps, row);
  }

  // ---- Age of the permissions in use -----------------------------------------------------------------------

  /**
   A failed list stamps the cache without replacing the permissions: the next check, within the error
   time-to-live, answers from permissions of any age that the record lives to. PermissionCache.StaleIff is the exact
   condition.
  */
  method StaleAfterFailure(users: UserCache, age: nat, ps: seq<Permission>, build: Build, verb: string, apigroup: string,
                           kind: string, cluster: string, namespace: string) returns (ok: bool)
    requires users.user != null && !users.user.isClusterAdmin && users.user.Lives(age)
    requires ps != [] && HasAccess(ps, verb, apigroup, kind, cluster, namespace)
    requires users.user.permissions == ps && users.user.fetchedAt == 0
    requires NeedsFetch(users.user.Configured(), users.user.State(), age)
    modifies users, users.user
    ensures ok && users.user == old(users.user) && users.user.fetchedAt == 0
  {
    var record := users.GetUserDataCache(age, build);
    var denied := record.value.CheckUserHasAccess(age, ListFailed, verb, apigroup, kind, cluster, namespace);
    record := users.GetUserDataCache(age, build);
    ok := record.value.CheckUserHasAccess(age, ConvertFailed, verb, apigroup, kind, cluster, namespace);
  }

  /** Once the record no longer lives its permissions are gone: while the API gives none, the check says no. */
  method DeniedAfterRecord(users: UserCache, now: int, build: Build, fetch: Fetch, verb: string, apigroup: string,
                           kind: string, cluster: string, namespace: string) returns (ok: bool)
    requires users.user != null ==> !users.user.Lives(now)
    requires !build.admin && (build.asked.Some? ==> !build.asked.value.Listed?) && !fetch.Listed?
    modifies users
    ensures !ok
  {
    ok := false;
    var record := users.GetUserDataCache(now, build);
    if record.Some? {
      ok := record.value.CheckUserHasAccess(now, fetch, verb, apigroup, kind, cluster, namespace);
    }
  }
}

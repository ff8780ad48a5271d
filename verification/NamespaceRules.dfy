/**
 The rules of a namespace review (getSSRRforNamespace, updateUserManagedClusterList,
 getNamespacedResources, pkg/rbac/userData.go): nested loops with an early return, against the set of
 grants that the rules make.
*/
module NamespaceRules {
  import opened Prelude
  import opened Sorting
  import opened BasicRbac

  datatype ResourceRule = ResourceRule(verbs: seq<string>, groups: seq<string>, resources: seq<string>, names: seq<string>)

  // What the shared cache answers: which resources are cluster-scoped, and which namespaces are managed clusters.
  datatype Shared = Shared(isClusterScoped: Resource -> bool, managedClusters: set<string>)

  const OPENSHIFT_CLUSTER_SCOPED := {
    Resource("authorization.openshift.io", "clusterroles"), Resource("", "clusterroles"),
    Resource("console.openshift.io", "consoleexternalloglinks"), Resource("console.openshift.io", "consolelinks"),
    Resource("console.openshift.io", "consolenotifications"), Resource("console.openshift.io", "consoleyamlsamples"),
    Resource("project.openshift.io", "projects"), Resource("", "projects"),
    Resource("project.openshift.io", "projectrequests"), Resource("", "projectrequests"),
    Resource("oauth.openshift.io", "useroauthaccesstokens")
  }

  /** The shared cache's answer: the discovered cluster-scoped resources and a fixed list. */
  function SharedData(csResources: set<Resource>, managedClusters: set<string>): Shared {
    Shared(r => r in csResources || r in OPENSHIFT_CLUSTER_SCOPED, managedClusters)
  }

  // ---- What the rules grant ------------------------------------------------------------------------------------

  predicate ListsVerb(verb: string) {
    verb == "list" || verb == "*"
  }

  predicate CreatesVerb(verb: string) {
    verb == "create" || verb == "*"
  }

  // No resource names, or the wildcard in front.
  predicate Unrestricted(rule: ResourceRule) {
    rule.names == [] || rule.names[0] == "*"
  }

  /** The rule names the resource: a whole, namespaced resource, without restriction to names. */
  predicate Listable(rule: ResourceRule, shared: Shared, r: Resource) {
    r.kind in rule.resources && '/' !in r.kind && r.group in rule.groups && !shared.isClusterScoped(r) && Unrestricted(rule)
  }

  predicate SomeLists(verbs: seq<string>) {
    exists v | v in verbs :: ListsVerb(v)
  }

  /** The rule grants list on the resource in the namespace. */
  predicate RuleGrants(rule: ResourceRule, shared: Shared, r: Resource) {
    SomeLists(rule.verbs) && Listable(rule, shared, r)
  }

  predicate Grants(rules: seq<ResourceRule>, shared: Shared, r: Resource) {
    exists rule | rule in rules :: RuleGrants(rule, shared, r)
  }

  /** The rule lets the user create managed cluster views. */
  predicate RuleCreatesViews(rule: ResourceRule) {
    SomeCreates(rule.verbs) && NamesViews(rule)
  }

  predicate SomeCreates(verbs: seq<string>) {
    exists v | v in verbs :: CreatesVerb(v)
  }

  predicate NamesViews(rule: ResourceRule) {
    && ("view.open-cluster-management.io" in rule.groups || "*" in rule.groups)
    && ("managedclusterviews" in rule.resources || "*" in rule.resources)
  }

  predicate CreatesViews(rules: seq<ResourceRule>) {
    exists rule | rule in rules :: RuleCreatesViews(rule)
  }

  /** A resource is granted by a rule with a listing verb that names its group and kind and no single resource names. */
  lemma GrantsMean(rules: seq<ResourceRule>, shared: Shared, r: Resource)
    ensures Grants(rules, shared, r) <==>
            && '/' !in r.kind && !shared.isClusterScoped(r)
            && exists rule: ResourceRule | rule in rules ::
                 && ("list" in rule.verbs || "*" in rule.verbs)
                 && r.group in rule.groups && r.kind in rule.resources
                 && (|rule.names| == 0 || rule.names[0] == "*")
  {
    forall rule: ResourceRule ensures SomeLists(rule.verbs) <==> "list" in rule.verbs || "*" in rule.verbs {
      assert "list" in rule.verbs ==> ListsVerb("list");
      assert "*" in rule.verbs ==> ListsVerb("*");
    }
  }

  /** Cluster views are created by a rule that names the verb, the group and the resource, each of them or the star. */
  lemma ViewsMean(rules: seq<ResourceRule>)
    ensures CreatesViews(rules) <==> exists rule: ResourceRule | rule in rules ::
              && ("create" in rule.verbs || "*" in rule.verbs)
              && ("view.open-cluster-management.io" in rule.groups || "*" in rule.groups)
              && ("managedclusterviews" in rule.resources || "*" in rule.resources)
  {
    forall rule: ResourceRule ensures SomeCreates(rule.verbs) <==> "create" in rule.verbs || "*" in rule.verbs {
      assert "create" in rule.verbs ==> CreatesVerb("create");
      assert "*" in rule.verbs ==> CreatesVerb("*");
    }
  }

  predicate ResourceLe(a: Resource, b: Resource) {
    if a.kind != b.kind then StringLe(a.kind, b.kind) else StringLe(a.group, b.group)
  }

  lemma ResourcesAreOrdered()
    ensures IsOrder(ResourceLe)
  {
    StringsAreOrdered();
    forall a, b | ResourceLe(a, b) && ResourceLe(b, a) ensures a == b {
    }
    forall a, b, c | ResourceLe(a, b) && ResourceLe(b, c) ensures ResourceLe(a, c) {
      assert StringLe(a.kind, b.kind) && StringLe(b.kind, c.kind);
    }
  }

  /** The order goes by kind first, and by group within a kind. */
  lemma SortedByKind(s: seq<Resource>, i: nat, j: nat)
    requires Sorted(s, ResourceLe) && i < j < |s|
    ensures StringLe(s[i].kind, s[j].kind) && (s[i].kind == s[j].kind ==> StringLe(s[i].group, s[j].group))
  {
    assert ResourceLe(s[i], s[j]);
    StringTotal(s[i].kind, s[j].kind);
  }

  /** A sorted, duplicate-free listing of exactly what the rules grant. */
  ghost predicate IsListing(s: seq<Resource>, rules: seq<ResourceRule>, shared: Shared) {
    Sorted(s, ResourceLe) && Distinct(s) && forall r :: r in s <==> Grants(rules, shared, r)
  }

  // A rule without the order of its verbs, groups and resources. Of the names only the first one counts.
  datatype RuleShape = RuleShape(verbs: set<string>, groups: set<string>, resources: set<string>, unrestricted: bool)

  function Names(s: seq<string>): set<string> {
    set x | x in s
  }

  function ShapeOf(rule: ResourceRule): RuleShape {
    RuleShape(Names(rule.verbs), Names(rule.groups), Names(rule.resources), Unrestricted(rule))
  }

  function Shapes(rules: seq<ResourceRule>): set<RuleShape> {
    set rule | rule in rules :: ShapeOf(rule)
  }

  /** The same rules up to the order of rules, verbs, groups and resources. */
  predicate SameRules(rules: seq<ResourceRule>, rules': seq<ResourceRule>) {
    Shapes(rules) == Shapes(rules')
  }

  lemma SameShapeGrantsSame(a: ResourceRule, b: ResourceRule, shared: Shared, r: Resource)
    requires ShapeOf(a) == ShapeOf(b)
    ensures RuleGrants(a, shared, r) <==> RuleGrants(b, shared, r)
    ensures RuleCreatesViews(a) <==> RuleCreatesViews(b)
  {
    assert forall x :: x in a.verbs <==> x in Names(b.verbs);
    assert forall x :: x in a.groups <==> x in Names(b.groups);
    assert forall x :: x in a.resources <==> x in Names(b.resources);
  }

  lemma SameRulesGrantNoMore(rules: seq<ResourceRule>, rules': seq<ResourceRule>, shared: Shared, r: Resource)
    requires SameRules(rules, rules')
    ensures Grants(rules, shared, r) ==> Grants(rules', shared, r)
    ensures CreatesViews(rules) ==> CreatesViews(rules')
  {
    if a :| a in rules && RuleGrants(a, shared, r) {
      assert ShapeOf(a) in Shapes(rules');
      var b :| b in rules' && ShapeOf(a) == ShapeOf(b);
      SameShapeGrantsSame(a, b, shared, r);
    }
    if a :| a in rules && RuleCreatesViews(a) {
      assert ShapeOf(a) in Shapes(rules');
      var b :| b in rules' && ShapeOf(a) == ShapeOf(b);
      SameShapeGrantsSame(a, b, shared, r);
    }
  }

  /** Reordering rules, verbs, groups or resources changes nothing that is granted. */
  lemma SameRulesGrantSame(rules: seq<ResourceRule>, rules': seq<ResourceRule>, shared: Shared)
    requires SameRules(rules, rules')
    ensures forall r :: Grants(rules, shared, r) <==> Grants(rules', shared, r)
    ensures CreatesViews(rules) <==> CreatesViews(rules')
  {
    forall r ensures Grants(rules, shared, r) <==> Grants(rules', shared, r) {
      SameRulesGrantNoMore(rules, rules', shared, r);
      SameRulesGrantNoMore(rules', rules, shared, r);
    }
    SameRulesGrantNoMore(rules, rules', shared, ALL);
    SameRulesGrantNoMore(rules', rules, shared, ALL);
  }

  // ---- The user's record ---------------------------------------------------------------------------------------

  // The entry grew by what became tracked, each once.
  ghost predicate Appended(entry: seq<Resource>, tracked: set<Resource>, entry': seq<Resource>, tracked': set<Resource>) {
    tracked <= tracked' && multiset(entry') == multiset(entry) + multiset(tracked' - tracked)
  }

  lemma AppendsOne(entry: seq<Resource>, tracked: set<Resource>, entry': seq<Resource>, tracked': set<Resource>, r: Resource)
    requires Appended(entry, tracked, entry', tracked') && r !in tracked'
    ensures Appended(entry, tracked, entry' + [r], tracked' + {r})
  {
    assert (tracked' + {r}) - tracked == (tracked' - tracked) + {r};
  }

  // The innermost loop: the groups of a rule for one resource name. `tracked` holds what this review has
  // already appended to the entry.
  method ListGroups(rule: ResourceRule, res: string, shared: Shared, entry: seq<Resource>, tracked: set<Resource>)
      returns (wildcard: bool, entry': seq<Resource>, tracked': set<Resource>)
    requires res in rule.resources && '/' !in res
    ensures wildcard <==> res == "*" && Listable(rule, shared, ALL)
    ensures !wildcard ==> Appended(entry, tracked, entry', tracked')
    ensures !wildcard ==> forall r :: r in tracked' <==> r in tracked || (Listable(rule, shared, r) && r.kind == res)
  {
    entry', tracked' := entry, tracked;
    for j := 0 to |rule.groups|
      invariant Appended(entry, tracked, entry', tracked')
      invariant forall r :: r in tracked' <==>
                  (r in tracked || (Listable(rule, shared, r) && r.kind == res && r.group in rule.groups[..j]))
      invariant !(Listable(rule, shared, ALL) && res == "*" && "*" in rule.groups[..j])
    {
      var api := rule.groups[j];
      var currRes := Resource(api, res);
      assert rule.groups[..j + 1] == rule.groups[..j] + [api];
      if !shared.isClusterScoped(currRes) && (|rule.names| == 0 || (|rule.names| > 0 && rule.names[0] == "*")) {
        if res == "*" && api == "*" {
          return true, entry', tracked';
        }
        if currRes !in tracked' {
          AppendsOne(entry, tracked, entry', tracked', currRes);
          entry' := entry' + [currRes];
          tracked' := tracked' + {currRes};
        }
      }
    }
    assert rule.groups[..|rule.groups|] == rule.groups;
    wildcard := false;
  }

  // One pass over a rule's resources for one listing verb.
  method ListResources(rule: ResourceRule, shared: Shared, entry: seq<Resource>, tracked: set<Resource>)
      returns (wildcard: bool, entry': seq<Resource>, tracked': set<Resource>)
    ensures wildcard <==> Listable(rule, shared, ALL)
    ensures !wildcard ==> Appended(entry, tracked, entry', tracked')
    ensures !wildcard ==> forall r :: r in tracked' <==> r in tracked || Listable(rule, shared, r)
  {
    entry', tracked' := entry, tracked;
    for i := 0 to |rule.resources|
      invariant Appended(entry, tracked, entry', tracked')
      invariant forall r :: r in tracked' <==> (r in tracked || (Listable(rule, shared, r) && r.kind in rule.resources[..i]))
      invariant !(Listable(rule, shared, ALL) && "*" in rule.resources[..i])
    {
      var res := rule.resources[i];
      assert rule.resources[..i + 1] == rule.resources[..i] + [res];
      if '/' in res {
        continue;
      }
      ghost var e0, t0 := entry', tracked';
      var all;
      all, entry', tracked' := ListGroups(rule, res, shared, entry', tracked');
      if all {
        return true, entry', tracked';
      }
      AppendedTwice(entry, tracked, e0, t0, entry', tracked');
    }
    assert rule.resources[..|rule.resources|] == rule.resources;
    wildcard := false;
  }

  lemma AppendedTwice(e0: seq<Resource>, t0: set<Resource>, e1: seq<Resource>, t1: set<Resource>,
                      e2: seq<Resource>, t2: set<Resource>)
    requires Appended(e0, t0, e1, t1) && Appended(e1, t1, e2, t2)
    ensures Appended(e0, t0, e2, t2)
  {
    assert t2 - t0 == (t1 - t0) + (t2 - t1);
    assert multiset(t2 - t0) == multiset(t1 - t0) + multiset(t2 - t1);
  }

  // ---- getSSRRforNamespace -------------------------------------------------------------------------------------

  function Entry(m: map<string, seq<Resource>>, ns: string): seq<Resource> {
    if ns in m then m[ns] else []
  }

  // The maps agree except perhaps on ns.
  predicate SameElsewhere(m: map<string, seq<Resource>>, m': map<string, seq<Resource>>, ns: string) {
    m'[ns := []] == m[ns := []]
  }

  // Only the entry of ns changed, by appending what became tracked; it is created by the first append.
  ghost predicate EntryGrew(m: map<string, seq<Resource>>, tracked: set<Resource>, m': map<string, seq<Resource>>,
                            tracked': set<Resource>, ns: string) {
    && Appended(Entry(m, ns), tracked, Entry(m', ns), tracked')
    && SameElsewhere(m, m', ns)
    && (ns in m' <==> ns in m || tracked' != tracked)
  }

  ghost function GrantedSet(rules: seq<ResourceRule>, shared: Shared): (s: set<Resource>)
    ensures forall r :: r in s <==> Grants(rules, shared, r)
  {
    var s := set rule, g, k | rule in rules && g in rule.groups && k in rule.resources &&
                              RuleGrants(rule, shared, Resource(g, k)) :: Resource(g, k);
    assert forall r | Grants(rules, shared, r) :: r == Resource(r.group, r.kind);
    s
  }

  /** The entry after a review without the wildcard: sorted, the old entry plus each granted resource once. */
  ghost predicate Reviewed(before: seq<Resource>, after: seq<Resource>, rules: seq<ResourceRule>, shared: Shared) {
    Sorted(after, ResourceLe) && multiset(after) == multiset(before) + multiset(GrantedSet(rules, shared))
  }

  /** What one review does to the entries, from any earlier entries. */
  ghost predicate Outcome(m: map<string, seq<Resource>>, m': map<string, seq<Resource>>, rules: seq<ResourceRule>,
                          shared: Shared, ns: string) {
    SameElsewhere(m, m', ns) &&
    if Grants(rules, shared, ALL) then ns in m' && m'[ns] == [ALL]
    else
      && (ns in m' <==> ns in m || GrantedSet(rules, shared) != {})
      && Reviewed(Entry(m, ns), Entry(m', ns), rules, shared)
  }

  class UserDataCache {
    var nsResources: map<string, seq<Resource>>
    var managedClusters: set<string>

    constructor ()
      ensures nsResources == map[] && managedClusters == {}
    {
      nsResources, managedClusters := map[], {};
    }

    method UpdateUserManagedClusterList(shared: Shared, ns: string)
      modifies this`managedClusters
      ensures managedClusters == old(managedClusters) + if ns in shared.managedClusters then {ns} else {}
    {
      if ns in shared.managedClusters {
        managedClusters := managedClusters + {ns};
      }
    }

    // The second half of the loop over verbs: the create verb on managed cluster views.
    method CreateViews(rule: ResourceRule, shared: Shared, ns: string)
      modifies this`managedClusters
      ensures managedClusters == old(managedClusters) + if ns in shared.managedClusters && NamesViews(rule) then {ns} else {}
    {
      for i := 0 to |rule.groups|
        invariant managedClusters == old(managedClusters) + if ns in shared.managedClusters && NamesViews(rule) &&
                    ("view.open-cluster-management.io" in rule.groups[..i] || "*" in rule.groups[..i]) then {ns} else {}
      {
        var group := rule.groups[i];
        assert rule.groups[..i + 1] == rule.groups[..i] + [group];
        if group == "view.open-cluster-management.io" || group == "*" {
          ghost var before := managedClusters;
          for j := 0 to |rule.resources|
            invariant managedClusters == before + if ns in shared.managedClusters &&
                        ("managedclusterviews" in rule.resources[..j] || "*" in rule.resources[..j]) then {ns} else {}
          {
            var res := rule.resources[j];
            assert rule.resources[..j + 1] == rule.resources[..j] + [res];
            if res == "managedclusterviews" || res == "*" {
              UpdateUserManagedClusterList(shared, ns);
            }
          }
          assert rule.resources[..|rule.resources|] == rule.resources;
        }
      }
      assert rule.groups[..|rule.groups|] == rule.groups;
    }

    // The first half of the loop over verbs: a listing verb.
    method ListVerb(rule: ResourceRule, shared: Shared, ns: string, tracked: set<Resource>)
        returns (wildcard: bool, tracked': set<Resource>)
      modifies this`nsResources
      ensures wildcard <==> Listable(rule, shared, ALL)
      ensures wildcard ==> nsResources == old(nsResources)[ns := [ALL]]
      ensures !wildcard ==> EntryGrew(old(nsResources), tracked, nsResources, tracked', ns)
      ensures !wildcard ==> forall r :: r in tracked' <==> r in tracked || Listable(rule, shared, r)
    {
      var entry := Entry(nsResources, ns);
      var entry';
      wildcard, entry', tracked' := ListResources(rule, shared, entry, tracked);
      if wildcard {
        nsResources := nsResources[ns := [ALL]];
        return;
      }
      AppendedSize(entry, tracked, entry', tracked');
      if |entry'| > |entry| {
        nsResources := nsResources[ns := entry'];
      }
    }

    // One verb of a rule: list, then create, with the early exit on the wildcard.
    method ProcessVerb(rule: ResourceRule, verb: string, shared: Shared, ns: string, tracked: set<Resource>)
        returns (wildcard: bool, tracked': set<Resource>)
      modifies this
      ensures wildcard <==> ListsVerb(verb) && Listable(rule, shared, ALL)
      ensures wildcard ==> nsResources == old(nsResources)[ns := [ALL]]
      ensures !wildcard ==> EntryGrew(old(nsResources), tracked, nsResources, tracked', ns)
      ensures !wildcard ==> forall r :: r in tracked' <==> r in tracked || (ListsVerb(verb) && Listable(rule, shared, r))
      ensures managedClusters == old(managedClusters) +
              if ns in shared.managedClusters && (wildcard || (CreatesVerb(verb) && NamesViews(rule))) then {ns} else {}
    {
      wildcard, tracked' := false, tracked;
      if verb == "list" || verb == "*" {
        wildcard, tracked' := ListVerb(rule, shared, ns, tracked);
        if wildcard {
          UpdateUserManagedClusterList(shared, ns);
          return;
        }
      }
      if verb == "create" || verb == "*" {
        CreateViews(rule, shared, ns);
      }
    }

    // One rule: its verbs in turn.
    method ProcessRule(rule: ResourceRule, shared: Shared, ns: string, tracked: set<Resource>)
        returns (wildcard: bool, tracked': set<Resource>)
      modifies this
      ensures wildcard <==> RuleGrants(rule, shared, ALL)
      ensures wildcard ==> nsResources == old(nsResources)[ns := [ALL]]
      ensures !wildcard ==> EntryGrew(old(nsResources), tracked, nsResources, tracked', ns)
      ensures !wildcard ==> forall r :: r in tracked' <==> r in tracked || RuleGrants(rule, shared, r)
      ensures managedClusters == old(managedClusters) +
              if ns in shared.managedClusters && (wildcard || RuleCreatesViews(rule)) then {ns} else {}
    {
      tracked' := tracked;
      for j := 0 to |rule.verbs|
        invariant EntryGrew(old(nsResources), tracked, nsResources, tracked', ns)
        invariant forall r :: r in tracked' <==> (r in tracked || (SomeLists(rule.verbs[..j]) && Listable(rule, shared, r)))
        invariant !(SomeLists(rule.verbs[..j]) && Listable(rule, shared, ALL))
        invariant managedClusters == old(managedClusters) +
                  if ns in shared.managedClusters && SomeCreates(rule.verbs[..j]) && NamesViews(rule) then {ns} else {}
      {
        ghost var m0, t0 := nsResources, tracked';
        assert rule.verbs[..j + 1] == rule.verbs[..j] + [rule.verbs[j]];
        SomeVerb(rule.verbs[..j], rule.verbs[j]);
        wildcard, tracked' := ProcessVerb(rule, rule.verbs[j], shared, ns, tracked');
        if wildcard {
          assert SomeLists(rule.verbs) by { assert ListsVerb(rule.verbs[j]); }
          UpdatedAlike(old(nsResources), m0, ns, [ALL]);
          return;
        }
        GrewTwice(old(nsResources), tracked, m0, t0, nsResources, tracked', ns);
      }
      assert rule.verbs[..|rule.verbs|] == rule.verbs;
      wildcard := false;
    }

    // One round of the loop over the rules, after those before i have been processed from the entries m0.
    method NextRule(rules: seq<ResourceRule>, i: nat, shared: Shared, ns: string, tracked: set<Resource>,
                    ghost m0: map<string, seq<Resource>>) returns (wildcard: bool, tracked': set<Resource>)
      requires i < |rules| && EntryGrew(m0, {}, nsResources, tracked, ns)
      requires tracked == GrantedSet(rules[..i], shared) && !Grants(rules[..i], shared, ALL)
      modifies this
      ensures wildcard <==> Grants(rules[..i + 1], shared, ALL)
      ensures wildcard ==> nsResources == m0[ns := [ALL]]
      ensures !wildcard ==> EntryGrew(m0, {}, nsResources, tracked', ns) && tracked' == GrantedSet(rules[..i + 1], shared)
      ensures managedClusters == old(managedClusters) +
              if ns in shared.managedClusters && (wildcard || RuleCreatesViews(rules[i])) then {ns} else {}
    {
      wildcard, tracked' := ProcessRule(rules[i], shared, ns, tracked);
      OneMoreGrants(rules, i, shared, ALL);
      if wildcard {
        UpdatedAlike(m0, old(nsResources), ns, [ALL]);
      } else {
        OneMoreTracked(rules, i, shared, tracked');
        GrewTwice(m0, {}, old(nsResources), tracked, nsResources, tracked', ns);
      }
    }

    // The loop over the rules.
    method ProcessRules(rules: seq<ResourceRule>, shared: Shared, ns: string) returns (wildcard: bool)
      modifies this
      ensures wildcard <==> Grants(rules, shared, ALL)
      ensures wildcard ==> nsResources == old(nsResources)[ns := [ALL]]
      ensures !wildcard ==> EntryGrew(old(nsResources), {}, nsResources, GrantedSet(rules, shared), ns)
      ensures managedClusters == old(managedClusters) + Permitted(rules, shared, ns)
    {
      var tracked: set<Resource> := {};
      for i := 0 to |rules|
        invariant EntryGrew(old(nsResources), {}, nsResources, tracked, ns)
        invariant tracked == GrantedSet(rules[..i], shared) && !Grants(rules[..i], shared, ALL)
        invariant managedClusters == old(managedClusters) + Permitted(rules[..i], shared, ns)
      {
        wildcard, tracked := NextRule(rules, i, shared, ns, tracked, old(nsResources));
        OneMoreGrants(rules, i, shared, ALL);
        OneMorePermitted(rules, i, shared, ns);
        if wildcard {
          return;
        }
      }
      assert rules[..|rules|] == rules;
      wildcard := false;
    }

    // sort.Slice on the entry; sorting an absent entry does nothing.
    method SortEntry(ns: string)
      modifies this`nsResources
      ensures SameElsewhere(old(nsResources), nsResources, ns) && (ns in nsResources <==> ns in old(nsResources))
      ensures Sorted(Entry(nsResources, ns), ResourceLe)
      ensures multiset(Entry(nsResources, ns)) == multiset(old(Entry(nsResources, ns)))
    {
      ResourcesAreOrdered();
      if ns in nsResources {
        SortSorts(nsResources[ns], ResourceLe);
        nsResources := nsResources[ns := Sort(nsResources[ns], ResourceLe)];
      }
    }

    /**
     One review: the entry of the namespace becomes the wildcard alone, or its old content and the granted
     resources, sorted; the managed cluster is added iff it is known and a rule qualifies.
    */
    method GetSSRRforNamespace(rules: seq<ResourceRule>, shared: Shared, ns: string)
      modifies this
      ensures Outcome(old(nsResources), nsResources, rules, shared, ns)
      ensures managedClusters == old(managedClusters) + Permitted(rules, shared, ns)
    {
      var wildcard := ProcessRules(rules, shared, ns);
      if wildcard {
        return;
      }
      assert GrantedSet(rules, shared) - {} == GrantedSet(rules, shared);
      SortEntry(ns);
    }

    /**
     All reviews of a refresh, from cleared entries, in the order in which their goroutines take the lock. The
     shared list can name a namespace more than once. A failed review leaves the entries as the rules [] do,
     and no namespaces at all as the clearing does.
    */
    method GetNamespacedResources(order: seq<string>, reviews: map<string, seq<ResourceRule>>, shared: Shared)
      requires forall ns | ns in order :: ns in reviews
      modifies this
      ensures Refreshed(nsResources, managedClusters, multiset(order), Verdicts(reviews, shared))
    {
      nsResources, managedClusters := map[], {};
      ghost var verdicts := Verdicts(reviews, shared);
      ghost var done: multiset<string> := multiset{};
      for i := 0 to |order|
        invariant done == multiset(order[..i]) && Refreshed(nsResources, managedClusters, done, verdicts)
      {
        var ns := order[i];
        ghost var m, managed := nsResources, managedClusters;
        GetSSRRforNamespace(reviews[ns], shared, ns);
        OneMoreReview(m, managed, nsResources, managedClusters, done, reviews, shared, ns);
        MoreDone(order, i);
        done := done + multiset{ns};
      }
      assert order[..|order|] == order;
    }
  }

  lemma MoreDone(order: seq<string>, i: nat)
    requires i < |order|
    ensures multiset(order[..i + 1]) == multiset(order[..i]) + multiset{order[i]}
  {
    assert order[..i + 1] == order[..i] + [order[i]];
  }

  function Lookup(m: map<string, seq<Resource>>, ns: string): Option<seq<Resource>> {
    if ns in m then Some(m[ns]) else None
  }

  // What the rules of a review decide.
  datatype Verdict = Verdict(wildcard: bool, granted: set<Resource>, managed: bool)

  ghost function VerdictOf(rules: seq<ResourceRule>, shared: Shared, ns: string): Verdict {
    Verdict(Grants(rules, shared, ALL), GrantedSet(rules, shared), Permitted(rules, shared, ns) != {})
  }

  ghost function Verdicts(reviews: map<string, seq<ResourceRule>>, shared: Shared): map<string, Verdict> {
    map ns | ns in reviews :: VerdictOf(reviews[ns], shared, ns)
  }

  /** An entry after n reviews: the wildcard alone, or each grant n times, sorted; absent if there is none. */
  ghost predicate EntryIs(e: Option<seq<Resource>>, n: nat, v: Verdict) {
    if n == 0 || (!v.wildcard && v.granted == {}) then e == None
    else if v.wildcard then e == Some([ALL])
    else e.Some? && IsRepeated(e.value, n, v.granted)
  }

  ghost predicate IsRepeated(s: seq<Resource>, n: nat, granted: set<Resource>) {
    Sorted(s, ResourceLe) && forall r :: multiset(s)[r] == if r in granted then n else 0
  }

  /** The result of a refresh, by what each namespace's review decides and how often it was made; no order is involved. */
  ghost predicate Refreshed(m: map<string, seq<Resource>>, managed: set<string>, done: multiset<string>,
                            verdicts: map<string, Verdict>) {
    && (forall ns | ns in m || ns in managed :: ns in done)
    && (forall ns | ns in done :: ns in verdicts && EntryIs(Lookup(m, ns), done[ns], verdicts[ns]))
    && (forall ns | ns in done :: ns in verdicts && (ns in managed <==> verdicts[ns].managed))
  }

  /** From no earlier entry, a review leaves a sorted, duplicate-free listing of exactly the granted resources. */
  lemma FreshReviewIsListing(after: seq<Resource>, rules: seq<ResourceRule>, shared: Shared)
    requires Reviewed([], after, rules, shared)
    ensures IsListing(after, rules, shared)
  {
    assert multiset(after) == multiset(GrantedSet(rules, shared));
    SetHasNoDuplicates(after, GrantedSet(rules, shared));
  }

  lemma ReviewedOnceMore(m: map<string, seq<Resource>>, m': map<string, seq<Resource>>, n: nat, rules: seq<ResourceRule>,
                         shared: Shared, ns: string)
    requires EntryIs(Lookup(m, ns), n, VerdictOf(rules, shared, ns)) && Outcome(m, m', rules, shared, ns)
    ensures EntryIs(Lookup(m', ns), n + 1, VerdictOf(rules, shared, ns))
  {
    var granted := GrantedSet(rules, shared);
    if !Grants(rules, shared, ALL) && granted != {} {
      forall r ensures multiset(Entry(m', ns))[r] == if r in granted then n + 1 else 0 {
        assert multiset(Entry(m', ns))[r] == multiset(Entry(m, ns))[r] + multiset(granted)[r];
      }
    }
  }

  lemma OthersKept(m: map<string, seq<Resource>>, m': map<string, seq<Resource>>, ns: string, n: string)
    requires SameElsewhere(m, m', ns) && n != ns
    ensures Lookup(m, n) == Lookup(m', n)
  {
    assert n in m <==> n in m[ns := []];
    assert n in m' <==> n in m'[ns := []];
    assert n in m ==> m[ns := []][n] == m'[ns := []][n];
  }

  lemma NextRefreshed(m: map<string, seq<Resource>>, managed: set<string>, m': map<string, seq<Resource>>,
                      managed': set<string>, done: multiset<string>, ns: string, verdicts: map<string, Verdict>)
    requires ns in verdicts && Refreshed(m, managed, done, verdicts)
    requires SameElsewhere(m, m', ns) && EntryIs(Lookup(m', ns), done[ns] + 1, verdicts[ns])
    requires managed' == managed + if verdicts[ns].managed then {ns} else {}
    ensures Refreshed(m', managed', done + multiset{ns}, verdicts)
  {
    forall n | n != ns ensures Lookup(m, n) == Lookup(m', n) {
      OthersKept(m, m', ns, n);
    }
    forall n | n in m' ensures n in done + multiset{ns} {
      assert n == ns || Lookup(m', n) == Lookup(m, n);
    }
  }

  lemma OneMoreReview(m: map<string, seq<Resource>>, managed: set<string>, m': map<string, seq<Resource>>,
                      managed': set<string>, done: multiset<string>, reviews: map<string, seq<ResourceRule>>, shared: Shared,
                      ns: string)
    requires ns in reviews && Refreshed(m, managed, done, Verdicts(reviews, shared))
    requires Outcome(m, m', reviews[ns], shared, ns) && managed' == managed + Permitted(reviews[ns], shared, ns)
    ensures Refreshed(m', managed', done + multiset{ns}, Verdicts(reviews, shared))
  {
    var verdicts := Verdicts(reviews, shared);
    assert ns in m ==> ns in done;
    assert EntryIs(Lookup(m, ns), done[ns], verdicts[ns]);
    ReviewedOnceMore(m, m', done[ns], reviews[ns], shared, ns);
    NextRefreshed(m, managed, m', managed', done, ns, verdicts);
  }

  lemma RepeatedIsUnique(s: seq<Resource>, t: seq<Resource>, n: nat, granted: set<Resource>)
    requires IsRepeated(s, n, granted) && IsRepeated(t, n, granted)
    ensures s == t
  {
    ResourcesAreOrdered();
    assert multiset(s) == multiset(t);
    SortedIsUnique(s, t, ResourceLe);
  }

  lemma RefreshIsUnique(m: map<string, seq<Resource>>, managed: set<string>, m': map<string, seq<Resource>>,
                        managed': set<string>, done: multiset<string>, verdicts: map<string, Verdict>,
                        verdicts': map<string, Verdict>)
    requires Refreshed(m, managed, done, verdicts) && Refreshed(m', managed', done, verdicts')
    requires forall ns | ns in done :: ns in verdicts && ns in verdicts' && verdicts[ns] == verdicts'[ns]
    ensures m == m' && managed == managed'
  {
    forall ns ensures Lookup(m, ns) == Lookup(m', ns) && (ns in managed <==> ns in managed') {
      if ns in done && Lookup(m, ns).Some? && !verdicts[ns].wildcard {
        RepeatedIsUnique(m[ns], m'[ns], done[ns], verdicts[ns].granted);
      }
    }
    forall ns ensures ns in m <==> ns in m' {
      assert Lookup(m, ns) == Lookup(m', ns);
    }
    forall ns | ns in m ensures m[ns] == m'[ns] {
      assert Lookup(m, ns) == Lookup(m', ns);
    }
    assert m.Keys == m'.Keys;
  }

  lemma SameRulesSameVerdict(rules: seq<ResourceRule>, rules': seq<ResourceRule>, shared: Shared, ns: string)
    requires SameRules(rules, rules')
    ensures VerdictOf(rules, shared, ns) == VerdictOf(rules', shared, ns)
  {
    SameRulesGrantSame(rules, rules', shared);
    assert GrantedSet(rules, shared) == GrantedSet(rules', shared);
  }

  /** Two refreshes with the same rules up to order, completing in any order, end in the same record. */
  lemma RefreshIgnoresOrder(m: map<string, seq<Resource>>, managed: set<string>, m': map<string, seq<Resource>>,
                            managed': set<string>, order: seq<string>, order': seq<string>,
                            reviews: map<string, seq<ResourceRule>>, reviews': map<string, seq<ResourceRule>>, shared: Shared)
    requires multiset(order) == multiset(order')
    requires forall ns | ns in multiset(order) :: ns in reviews && ns in reviews' && SameRules(reviews[ns], reviews'[ns])
    requires Refreshed(m, managed, multiset(order), Verdicts(reviews, shared))
    requires Refreshed(m', managed', multiset(order'), Verdicts(reviews', shared))
    ensures m == m' && managed == managed'
  {
    forall ns | ns in multiset(order) ensures Verdicts(reviews, shared)[ns] == Verdicts(reviews', shared)[ns] {
      SameRulesSameVerdict(reviews[ns], reviews'[ns], shared, ns);
    }
    RefreshIsUnique(m, managed, m', managed', multiset(order), Verdicts(reviews, shared), Verdicts(reviews', shared));
  }

  /** A refresh stores no empty list, as the query builder requires of its input. */
  lemma NoEmptyEntry(m: map<string, seq<Resource>>, managed: set<string>, done: multiset<string>,
                     verdicts: map<string, Verdict>)
    requires Refreshed(m, managed, done, verdicts)
    ensures forall ns | ns in m :: m[ns] != []
  {
    forall ns | ns in m ensures m[ns] != [] {
      assert EntryIs(Lookup(m, ns), done[ns], verdicts[ns]);
      if !verdicts[ns].wildcard {
        var r :| r in verdicts[ns].granted;
        assert multiset(m[ns])[r] == done[ns] > 0;
      }
    }
  }

  /**
   Whatever the reviews say, a refresh files only whole namespaced resources: none that discovery found to be
   cluster-scoped, none of the fixed list, and no subresource. The one exception is the wildcard, and it stands alone.
  */
  lemma RefreshFilesNamespaced(m: map<string, seq<Resource>>, managed: set<string>, done: multiset<string>,
                               reviews: map<string, seq<ResourceRule>>, csResources: set<Resource>, clusters: set<string>,
                               ns: string)
    requires Refreshed(m, managed, done, Verdicts(reviews, SharedData(csResources, clusters))) && ns in m
    ensures m[ns] == [ALL] ||
            forall r | r in m[ns] :: r !in csResources && r !in OPENSHIFT_CLUSTER_SCOPED && '/' !in r.kind && r != ALL
  {
    var shared := SharedData(csResources, clusters);
    assert EntryIs(Lookup(m, ns), done[ns], VerdictOf(reviews[ns], shared, ns));
    if !Grants(reviews[ns], shared, ALL) {
      forall r | r in m[ns] ensures Grants(reviews[ns], shared, r) && !shared.isClusterScoped(r) && '/' !in r.kind {
        assert multiset(m[ns])[r] > 0;
      }
    }
  }

  /**
   After a refresh the user's managed clusters are exactly the reviewed namespaces that the shared cache knows as
   managed clusters and whose rules give everything or the creation of cluster views, whatever they were before.
  */
  lemma RefreshManagedClusters(m: map<string, seq<Resource>>, managed: set<string>, done: multiset<string>,
                               reviews: map<string, seq<ResourceRule>>, shared: Shared)
    requires Refreshed(m, managed, done, Verdicts(reviews, shared))
    ensures forall ns :: ns in managed <==>
      && ns in done && ns in reviews && ns in shared.managedClusters
      && (Grants(reviews[ns], shared, ALL) || CreatesViews(reviews[ns]))
    ensures managed <= shared.managedClusters
  {
    forall ns ensures ns in managed <==>
      && ns in done && ns in reviews && ns in shared.managedClusters
      && (Grants(reviews[ns], shared, ALL) || CreatesViews(reviews[ns])) {
      if ns in done {
        assert ns in managed <==> VerdictOf(reviews[ns], shared, ns).managed;
      }
    }
  }

  /**
   In a refresh the entry of a namespace is free of duplicates exactly if it is the wildcard or the shared list
   names the namespace once; then it lists exactly the grants.
  */
  lemma ListedOnceIff(m: map<string, seq<Resource>>, managed: set<string>, done: multiset<string>,
                      reviews: map<string, seq<ResourceRule>>, shared: Shared, ns: string)
    requires ns in reviews && ns in m && Refreshed(m, managed, done, Verdicts(reviews, shared))
    ensures Distinct(m[ns]) <==> Grants(reviews[ns], shared, ALL) || done[ns] == 1
    ensures done[ns] == 1 && !Grants(reviews[ns], shared, ALL) ==> IsListing(m[ns], reviews[ns], shared)
  {
    var n, granted := done[ns], GrantedSet(reviews[ns], shared);
    assert ns in done && EntryIs(Lookup(m, ns), n, VerdictOf(reviews[ns], shared, ns));
    if !Grants(reviews[ns], shared, ALL) {
      RepeatedOnceIff(m[ns], n, granted);
    }
  }

  lemma RepeatedOnceIff(s: seq<Resource>, n: nat, granted: set<Resource>)
    requires IsRepeated(s, n, granted) && granted != {} && n > 0
    ensures Distinct(s) <==> n == 1
    ensures forall r :: r in s <==> r in granted
  {
    forall r ensures r in s <==> r in granted {
      assert r in s <==> multiset(s)[r] > 0;
    }
    if Distinct(s) {
      EachOnce(s);
      var r :| r in granted;
      assert multiset(s)[r] == n;
    }
    if n == 1 {
      OnceIsDistinct(s);
    }
  }

  /**
   With an earlier entry the tracking does not see its content: the result has no duplicates exactly if the
   earlier entry had none and holds nothing that the rules grant.
  */
  lemma NoDuplicatesIff(before: seq<Resource>, after: seq<Resource>, rules: seq<ResourceRule>, shared: Shared)
    requires Reviewed(before, after, rules, shared)
    ensures Distinct(after) <==> Distinct(before) && forall r | r in before :: !Grants(rules, shared, r)
  {
    var granted := GrantedSet(rules, shared);
    if Distinct(after) {
      EachOnce(after);
      forall r ensures multiset(before)[r] + multiset(granted)[r] <= 1 {
        assert multiset(after)[r] == multiset(before)[r] + multiset(granted)[r];
      }
      OnceIsDistinct(before);
      forall r | r in before ensures !Grants(rules, shared, r) {
        assert r in multiset(before) && multiset(before)[r] >= 1;
        assert r !in multiset(granted);
      }
    }
    if Distinct(before) && forall r | r in before :: !Grants(rules, shared, r) {
      EachOnce(before);
      forall r ensures multiset(after)[r] <= 1 {
        assert r in multiset(before) <==> r in before;
      }
      OnceIsDistinct(after);
    }
  }

  lemma EachOnce(s: seq<Resource>)
    requires Distinct(s)
    ensures forall r :: multiset(s)[r] <= 1
  {
    var elements := set r | r in s;
    DistinctMultiset(s, elements);
  }

  lemma OnceIsDistinct(s: seq<Resource>)
    requires forall r :: multiset(s)[r] <= 1
    ensures Distinct(s)
  {
    forall i, j | 0 <= i < j < |s| ensures s[i] != s[j] {
      assert s == s[..j] + s[j..];
      assert s[i] in s[..j] && s[j] in s[j..];
      assert multiset(s)[s[i]] == multiset(s[..j])[s[i]] + multiset(s[j..])[s[i]];
      assert multiset(s[..j])[s[i]] >= 1 && multiset(s[j..])[s[j]] >= 1;
    }
  }

  /** The review adds its managed cluster: a known one, by the wildcard or by a create rule. */
  ghost function Permitted(rules: seq<ResourceRule>, shared: Shared, ns: string): set<string> {
    if ns in shared.managedClusters && (Grants(rules, shared, ALL) || CreatesViews(rules)) then {ns} else {}
  }

  lemma OneMoreGrants(rules: seq<ResourceRule>, i: nat, shared: Shared, r: Resource)
    requires i < |rules|
    ensures Grants(rules[..i + 1], shared, r) <==> Grants(rules[..i], shared, r) || RuleGrants(rules[i], shared, r)
    ensures Grants(rules[..i + 1], shared, r) ==> Grants(rules, shared, r)
  {
    assert forall x :: x in rules[..i + 1] <==> x in rules[..i] || x == rules[i];
  }

  lemma OneMoreTracked(rules: seq<ResourceRule>, i: nat, shared: Shared, tracked: set<Resource>)
    requires i < |rules|
    requires forall r :: r in tracked <==> r in GrantedSet(rules[..i], shared) || RuleGrants(rules[i], shared, r)
    ensures tracked == GrantedSet(rules[..i + 1], shared)
  {
    forall r ensures r in tracked <==> r in GrantedSet(rules[..i + 1], shared) {
      OneMoreGrants(rules, i, shared, r);
    }
  }

  // The managed cluster so far; a wildcard decides it, and the loop ends there.
  lemma OneMorePermitted(rules: seq<ResourceRule>, i: nat, shared: Shared, ns: string)
    requires i < |rules| && !Grants(rules[..i], shared, ALL)
    ensures Permitted(rules[..i + 1], shared, ns) == Permitted(rules[..i], shared, ns) +
            if ns in shared.managedClusters && (RuleGrants(rules[i], shared, ALL) || RuleCreatesViews(rules[i])) then {ns} else {}
    ensures Grants(rules[..i + 1], shared, ALL) ==>
            Permitted(rules, shared, ns) == Permitted(rules[..i + 1], shared, ns)
  {
    OneMoreGrants(rules, i, shared, ALL);
    assert forall x :: x in rules[..i + 1] <==> x in rules[..i] || x == rules[i];
  }

  lemma UpdatedAlike(m: map<string, seq<Resource>>, m': map<string, seq<Resource>>, ns: string, v: seq<Resource>)
    requires SameElsewhere(m, m', ns)
    ensures m[ns := v] == m'[ns := v]
  {
    assert m[ns := v] == m[ns := []][ns := v];
  }

  lemma SomeVerb(verbs: seq<string>, verb: string)
    ensures SomeLists(verbs + [verb]) <==> SomeLists(verbs) || ListsVerb(verb)
    ensures SomeCreates(verbs + [verb]) <==> SomeCreates(verbs) || CreatesVerb(verb)
  {
    assert forall v :: v in verbs + [verb] <==> v in verbs || v == verb;
  }

  lemma AppendedSize(entry: seq<Resource>, tracked: set<Resource>, entry': seq<Resource>, tracked': set<Resource>)
    requires Appended(entry, tracked, entry', tracked')
    ensures |entry'| > |entry| <==> tracked' != tracked
    ensures |entry'| <= |entry| ==> Appended(entry, tracked, entry, tracked')
  {
    assert |multiset(entry')| == |multiset(entry)| + |tracked' - tracked|;
    assert tracked' - tracked == {} <==> tracked' == tracked;
  }

  lemma GrewTwice(m0: map<string, seq<Resource>>, t0: set<Resource>, m1: map<string, seq<Resource>>, t1: set<Resource>,
                  m2: map<string, seq<Resource>>, t2: set<Resource>, ns: string)
    requires EntryGrew(m0, t0, m1, t1, ns) && EntryGrew(m1, t1, m2, t2, ns)
    ensures EntryGrew(m0, t0, m2, t2, ns)
  {
    AppendedTwice(Entry(m0, ns), t0, Entry(m1, ns), t1, Entry(m2, ns), t2);
  }
}

/**
 RBAC for the hub cluster and for managed clusters (pkg/resolver/rbacHelper.go): the compiled clause
 against the grants held in the user's data.
*/
module BasicRbac {
  import opened Prelude
  import Sorting
  import opened Sql

  datatype Resource = Resource(group: string, kind: string)

  const ALL := Resource("*", "*")

  // The JSON text of a resource list, used as a map key. Encoding or decoding may fail.
  datatype Codec = Codec(encode: seq<Resource> -> Option<string>, decode: string -> Option<seq<Resource>>)

  /** Decoding undoes encoding, whenever both succeed. */
  ghost predicate Faithful(c: Codec) {
    forall rs | c.encode(rs).Some? && c.decode(c.encode(rs).value).Some? :: c.decode(c.encode(rs).value).value == rs
  }

  // ---- What a row and a grant are ----------------------------------------------------------------------------

  predicate Grouped(row: Row) {
    "apigroup" in row.data ==> row.data["apigroup"] != ""
  }

  /** The row is a resource of the granted group and kind. */
  predicate IsA(row: Row, r: Resource) {
    && (r.group == "*" || GroupOf(row) == r.group)
    && (r.kind == "*" || ("kind_plural" in row.data && row.data["kind_plural"] == r.kind))
  }

  predicate Granted(rs: seq<Resource>, row: Row) {
    exists r | r in rs :: IsA(row, r)
  }

  predicate GrantedInNamespace(ns: map<string, seq<Resource>>, row: Row) {
    "namespace" in row.data && row.data["namespace"] in ns && Granted(ns[row.data["namespace"]], row)
  }

  predicate AllClusterScoped(cs: seq<Resource>) {
    cs == [ALL]
  }

  predicate AllNamespaces(ns: map<string, seq<Resource>>) {
    ns.Keys == {"*"}
  }

  predicate OnHub(row: Row) {
    "_hubClusterResource" in row.data
  }

  /** A hub row that a cluster-scoped grant matches, without namespace, or that its own namespace grants. */
  predicate HubGrant(cs: seq<Resource>, ns: map<string, seq<Resource>>, row: Row) {
    OnHub(row) &&
    if "namespace" in row.data then AllNamespaces(ns) || GrantedInNamespace(ns, row) else Granted(cs, row)
  }

  // ---- matchApigroupKind -------------------------------------------------------------------------------------

  function ResourceParts(r: Resource): seq<Expr> {
    (if r.group == "*" then [] else if r.group == "" then [LacksKey("apigroup")] else [PropIn("apigroup", [r.group])]) +
    (if r.kind == "*" then [] else [PropIn("kind_plural", [r.kind])])
  }

  // What the single parts say of a row.
  lemma PartMeans(group: string, kind: string, row: Row)
    requires Grouped(row)
    ensures group != "" ==> (Eval(PropIn("apigroup", [group]), row) == T <==> GroupOf(row) == group)
    ensures Eval(LacksKey("apigroup"), row) == T <==> GroupOf(row) == ""
    ensures Eval(PropIn("kind_plural", [kind]), row) == T <==> "kind_plural" in row.data && row.data["kind_plural"] == kind
  {
  }

  lemma PartsMean(r: Resource, row: Row)
    requires Grouped(row) && r != ALL
    ensures !IsEmpty(And(ResourceParts(r))) && (Eval(And(ResourceParts(r)), row) == T <==> IsA(row, r))
  {
    var es := ResourceParts(r);
    AndMeans(es, row);
    PartMeans(r.group, r.kind, row);
    assert es[0] in es && es[|es| - 1] in es;
    assert forall e | e in es :: e == es[0] || e == es[|es| - 1];
  }

  // An expression that stands for a list of grants: empty if everything is granted.
  ghost predicate KindsMean(e: Expr, rs: seq<Resource>) {
    && (IsEmpty(e) <==> ALL in rs)
    && forall row | Grouped(row) :: Selects(e, row) <==> Granted(rs, row)
  }

  lemma OrKinds(prev: Expr, r: Resource, rs: seq<Resource>)
    requires KindsMean(prev, rs) && ALL !in rs && r != ALL
    ensures KindsMean(Or([prev, And(ResourceParts(r))]), rs + [r])
  {
    var es := [prev, And(ResourceParts(r))];
    OrMeans(es, Row("", map[]));
    PartsMean(r, Row("", map[]));
    assert es[0] in es && es[1] in es;
    forall row | Grouped(row) ensures Selects(Or(es), row) <==> Granted(rs + [r], row) {
      OrMeans(es, row);
      PartsMean(r, row);
      assert forall x :: x in rs + [r] <==> x in rs || x == r;
    }
  }

  lemma FirstKind(r: Resource)
    requires r != ALL
    ensures KindsMean(And(ResourceParts(r)), [r])
  {
    PartsMean(r, Row("", map[]));
    forall row | Grouped(row) ensures Selects(And(ResourceParts(r)), row) <==> Granted([r], row) {
      PartsMean(r, row);
      assert r in [r];
    }
  }

  method MatchApigroupKind(resources: seq<Resource>) returns (clause: Expr)
    requires resources != []
    ensures KindsMean(clause, resources)
  {
    clause := Or([]);
    for i := 0 to |resources|
      invariant ALL !in resources[..i] && (i > 0 ==> KindsMean(clause, resources[..i]))
    {
      var r := resources[i];
      var parts: seq<Expr> := [];
      if r.group != "*" {
        parts := parts + [if r.group == "" then LacksKey("apigroup") else PropIn("apigroup", [r.group])];
      }
      if r.kind != "*" {
        parts := parts + [PropIn("kind_plural", [r.kind])];
      }
      if r.group == "*" && r.kind == "*" {
        assert r == ALL && resources[i] in resources;
        forall row | Grouped(row) ensures Granted(resources, row) {
          assert IsA(row, r);
        }
        return Or([]);
      }
      assert parts == ResourceParts(r);
      assert resources[..i + 1] == resources[..i] + [r];
      if i == 0 {
        FirstKind(r);
        assert resources[..1] == [r];
        clause := And(parts);
      } else {
        OrKinds(clause, r, resources[..i]);
        clause := Or([clause, And(parts)]);
      }
    }
    assert resources[..|resources|] == resources;
  }

  // ---- matchClusterScopedResources ---------------------------------------------------------------------------

  method MatchClusterScopedResources(cs: seq<Resource>) returns (e: Expr)
    ensures IsEmpty(e) <==> AllClusterScoped(cs)
    ensures !AllClusterScoped(cs) ==>
      forall row | Grouped(row) :: Eval(e, row) == T <==> "namespace" !in row.data && Granted(cs, row)
  {
    if |cs| == 0 {
      assert DropEmpty([Never]) == [Never];
      return And([Never]);
    } else if |cs| == 1 && cs[0].group == "*" && cs[0].kind == "*" {
      assert cs == [ALL];
      return Or([]);
    } else {
      var kinds := MatchApigroupKind(cs);
      var es := [LacksKey("namespace"), kinds];
      AndMeans(es, Row("", map[]));
      assert es[0] in es && es[1] in es;
      forall row | Grouped(row) ensures Eval(And(es), row) == T <==> "namespace" !in row.data && Granted(cs, row) {
        AndMeans(es, row);
      }
      return And(es);
    }
  }

  // ---- consolidateNsResources, matchNamespacedResources ------------------------------------------------------

  /** The groups hold each namespace under the encoding of its list, and nothing else. */
  ghost predicate GroupedBy(m: map<string, seq<string>>, ns: map<string, seq<Resource>>, done: set<string>, c: Codec)
    requires done <= ns.Keys
  {
    && (forall n | n in done :: c.encode(ns[n]).Some? && c.encode(ns[n]).value in m && n in m[c.encode(ns[n]).value])
    && (forall k, n | k in m && n in m[k] :: n in done && c.encode(ns[n]) == Some(k))
    && (forall k | k in m :: m[k] != [])
  }

  method ConsolidateNsResources(ns: map<string, seq<Resource>>, c: Codec) returns (m: Option<map<string, seq<string>>>)
    ensures m.None? <==> exists n | n in ns :: c.encode(ns[n]).None?
    ensures m.Some? ==> GroupedBy(m.value, ns, ns.Keys, c)
  {
    var groups: map<string, seq<string>> := map[];
    var rest := ns.Keys;
    ghost var done: set<string> := {};
    while rest != {}
      invariant done + rest == ns.Keys && GroupedBy(groups, ns, done, c)
    {
      var n :| n in rest;
      var b := c.encode(ns[n]);
      if b.None? {
        return None;
      }
      if b.value in groups {
        groups := groups[b.value := groups[b.value] + [n]];
      } else {
        groups := groups[b.value := [n]];
      }
      assert n in groups[b.value];
      rest := rest - {n};
      done := done + {n};
    }
    assert done == ns.Keys;
    m := Some(groups);
  }

  // The part of one group of namespaces: its names, and the clause of the list they share.
  lemma GroupPartMeans(names: seq<string>, kinds: Expr, rs: seq<Resource>, row: Row)
    requires KindsMean(kinds, rs) && Grouped(row)
    ensures var e := And([PropIn("namespace", names), kinds]);
      !IsEmpty(e) && (Eval(e, row) == T <==> "namespace" in row.data && row.data["namespace"] in names && Granted(rs, row))
  {
    var es := [PropIn("namespace", names), kinds];
    AndMeans(es, row);
    assert es[0] in es && es[1] in es;
  }

  // The row's own namespace is among the given ones and grants it.
  predicate GrantedAmong(ns: map<string, seq<Resource>>, among: set<string>, row: Row)
    requires among <= ns.Keys
  {
    "namespace" in row.data && row.data["namespace"] in among && Granted(ns[row.data["namespace"]], row)
  }

  // The parts built so far select what the namespaces in `among` grant.
  ghost predicate PartsCover(es: seq<Expr>, ns: map<string, seq<Resource>>, among: set<string>)
    requires among <= ns.Keys
  {
    && (forall e | e in es :: !IsEmpty(e))
    && forall row | Grouped(row) :: (exists e | e in es :: Eval(e, row) == T) <==> GrantedAmong(ns, among, row)
  }

  lemma AddPart(es: seq<Expr>, ns: map<string, seq<Resource>>, among: set<string>, names: seq<string>,
                added: set<string>, kinds: Expr, rs: seq<Resource>)
    requires among <= ns.Keys && added <= ns.Keys && PartsCover(es, ns, among) && KindsMean(kinds, rs)
    requires (forall n :: n in names <==> n in added) && forall n | n in added :: ns[n] == rs
    ensures PartsCover(es + [And([PropIn("namespace", names), kinds])], ns, among + added)
  {
    var e := And([PropIn("namespace", names), kinds]);
    assert forall x :: x in es + [e] <==> x in es || x == e;
    GroupPartMeans(names, kinds, rs, Row("", map[]));
    forall row | Grouped(row)
      ensures (exists x | x in es + [e] :: Eval(x, row) == T) <==> GrantedAmong(ns, among + added, row) {
      GroupPartMeans(names, kinds, rs, row);
    }
  }

  // The namespaces of one group share the list that its key decodes to.
  lemma GroupShares(ns: map<string, seq<Resource>>, m: map<string, seq<string>>, c: Codec, key: string)
    requires Faithful(c) && GroupedBy(m, ns, ns.Keys, c) && key in m && c.decode(key).Some?
    requires forall n | n in ns :: ns[n] != []
    ensures c.decode(key).value != [] && forall n | n in m[key] :: n in ns && ns[n] == c.decode(key).value
  {
    var n := m[key][0];
    assert n in m[key] && c.encode(ns[n]) == Some(key);
  }

  // One part per group, in the order of the keys; None if some key does not decode.
  method ConsolidatedParts(ns: map<string, seq<Resource>>, m: map<string, seq<string>>, c: Codec)
      returns (es: Option<seq<Expr>>)
    requires Faithful(c) && GroupedBy(m, ns, ns.Keys, c)
    requires forall n | n in ns :: ns[n] != []
    ensures es.Some? ==> |es.value| == |m| && PartsCover(es.value, ns, ns.Keys)
  {
    var keys := Sorting.GetKeys(m.Keys);
    var parts: seq<Expr> := [];
    ghost var among: set<string> := {};
    for i := 0 to |keys|
      invariant among <= ns.Keys && PartsCover(parts, ns, among) && |parts| == i
      invariant forall n :: n in among <==> exists j | 0 <= j < i :: n in m[keys[j]]
    {
      assert keys[i] in m;
      var names := m[keys[i]];
      var resList := c.decode(keys[i]);
      if resList.None? {
        return None;
      }
      GroupShares(ns, m, c, keys[i]);
      var kinds := MatchApigroupKind(resList.value);
      ghost var added := set n | n in names;
      AddPart(parts, ns, among, names, added, kinds, resList.value);
      parts := parts + [And([PropIn("namespace", names), kinds])];
      among := among + added;
    }
    forall n | n in ns ensures n in among {
      var k := c.encode(ns[n]).value;
      assert k in keys;
      var j :| 0 <= j < |keys| && keys[j] == k;
      assert n in m[keys[j]];
    }
    assert among == ns.Keys;
    es := Some(parts);
  }

  // One part per namespace.
  method PlainParts(ns: map<string, seq<Resource>>) returns (es: seq<Expr>)
    requires forall n | n in ns :: ns[n] != []
    ensures |es| == |ns| && PartsCover(es, ns, ns.Keys)
  {
    es := [];
    var namespaces := Sorting.GetKeys(ns.Keys);
    ghost var among: set<string> := {};
    for i := 0 to |namespaces|
      invariant among <= ns.Keys && PartsCover(es, ns, among) && |es| == i
      invariant forall n :: n in among <==> n in namespaces[..i]
    {
      var n := namespaces[i];
      assert n in ns;
      var kinds := MatchApigroupKind(ns[n]);
      AddPart(es, ns, among, [n], {n}, kinds, ns[n]);
      es := es + [And([PropIn("namespace", [n]), kinds])];
      among := among + {n};
    }
    assert namespaces[..|namespaces|] == namespaces && among == ns.Keys;
  }

  // The grouped parts, or one part per namespace when some list fails to encode or some key to decode.
  method NamespaceParts(ns: map<string, seq<Resource>>, c: Codec) returns (es: seq<Expr>)
    requires Faithful(c) && ns != map[] && forall n | n in ns :: ns[n] != []
    ensures es != [] && PartsCover(es, ns, ns.Keys)
  {
    var groups := ConsolidateNsResources(ns, c);
    if groups.Some? {
      var parts := ConsolidatedParts(ns, groups.value, c);
      if parts.Some? {
        var n :| n in ns;
        assert c.encode(ns[n]).value in groups.value;
        return parts.value;
      }
    }
    es := PlainParts(ns);
  }

  /**
   Grouped or not, whatever fails to encode or decode, the disjunction selects the rows that their own
   namespace grants. It is empty without namespaces and in the all-namespaces form.
  */
  method MatchNamespacedResources(ns: map<string, seq<Resource>>, c: Codec) returns (e: Expr)
    requires Faithful(c) && forall n | n in ns :: ns[n] != []
    ensures IsEmpty(e) <==> AllNamespaces(ns) || ns == map[]
    ensures !AllNamespaces(ns) ==> forall row | Grouped(row) :: Eval(e, row) == T <==> GrantedInNamespace(ns, row)
  {
    var namespaces := Sorting.GetKeys(ns.Keys);
    if |ns| < 1 {
      return Or([]);
    } else if |ns| == 1 && namespaces[0] == "*" {
      assert namespaces == ["*"];
      return Or([]);
    }
    var parts := NamespaceParts(ns, c);
    e := Or(parts);
    OrMeans(parts, Row("", map[]));
    assert parts[0] in parts;
    forall row | Grouped(row) ensures Eval(e, row) == T <==> GrantedInNamespace(ns, row) {
      OrMeans(parts, row);
    }
  }

  // ---- matchHubClusterRbac -----------------------------------------------------------------------------------

  /** What the hub clause selects: an all-access form contributes nothing to the inner disjunction. */
  predicate HubClause(cs: seq<Resource>, ns: map<string, seq<Resource>>, row: Row) {
    OnHub(row) &&
    ( || (AllClusterScoped(cs) && (AllNamespaces(ns) || ns == map[]))
      || (!AllClusterScoped(cs) && "namespace" !in row.data && Granted(cs, row))
      || (!AllNamespaces(ns) && GrantedInNamespace(ns, row)))
  }

  method MatchHubClusterRbac(cs: seq<Resource>, ns: map<string, seq<Resource>>, c: Codec) returns (e: Expr)
    requires Faithful(c) && forall n | n in ns :: ns[n] != []
    ensures !IsEmpty(e) && forall row | Grouped(row) :: Eval(e, row) == T <==> HubClause(cs, ns, row)
  {
    if |cs| == 0 && |ns| == 0 {
      assert DropEmpty([Never]) == [Never];
      return And([Never]);
    }
    var clusterScoped := MatchClusterScopedResources(cs);
    var namespaced := MatchNamespacedResources(ns, c);
    e := And([HasKey("_hubClusterResource"), Or([clusterScoped, namespaced])]);
    HubParts(clusterScoped, namespaced, Row("", map[]));
    forall row | Grouped(row) ensures Eval(e, row) == T <==> HubClause(cs, ns, row) {
      HubParts(clusterScoped, namespaced, row);
    }
  }

  lemma HubParts(a: Expr, b: Expr, row: Row)
    ensures var e := And([HasKey("_hubClusterResource"), Or([a, b])]);
      !IsEmpty(e) && (Eval(e, row) == T <==>
        OnHub(row) && ((IsEmpty(a) && IsEmpty(b)) || (!IsEmpty(a) && Eval(a, row) == T) || (!IsEmpty(b) && Eval(b, row) == T)))
  {
    var inner := [a, b];
    var es := [HasKey("_hubClusterResource"), Or(inner)];
    AndMeans(es, row);
    OrMeans(inner, row);
    assert es[0] in es && es[1] in es && inner[0] in inner && inner[1] in inner;
  }

  /** The hub clause selects what the grants say, on every row, exactly if the two all-access forms occur together. */
  lemma HubAgreesIff(cs: seq<Resource>, ns: map<string, seq<Resource>>)
    ensures (forall row | Grouped(row) :: HubClause(cs, ns, row) <==> HubGrant(cs, ns, row))
            <==> (AllClusterScoped(cs) <==> AllNamespaces(ns))
  {
    var alone := Row("", map["_hubClusterResource" := "true"]);
    var inside := Row("", map["_hubClusterResource" := "true", "namespace" := "default"]);
    if AllClusterScoped(cs) {
      forall row ensures Granted(cs, row) {
        assert cs[0] in cs && IsA(row, ALL);
      }
      if !AllNamespaces(ns) {
        if ns == map[] {
          assert HubClause(cs, ns, inside) && !HubGrant(cs, ns, inside);
        } else {
          assert !HubClause(cs, ns, alone) && HubGrant(cs, ns, alone);
        }
      }
    } else if AllNamespaces(ns) {
      assert !HubClause(cs, ns, inside) && HubGrant(cs, ns, inside);
    }
  }

  /** All cluster-scoped resources and no namespaced grant: the clause shows every hub row, namespaced ones too. */
  lemma AllClusterScopedShowsNamespaced(row: Row)
    requires OnHub(row) && "namespace" in row.data
    ensures HubClause([ALL], map[], row) && !HubGrant([ALL], map[], row)
  {
  }

  // ---- matchManagedCluster, buildRbacWhereClause in basic mode -----------------------------------------------

  // `hub` is the answer of the subquery for the cluster of some hub row: at most one name.
  method MatchManagedCluster(managed: set<string>, hub: seq<string>) returns (e: Expr)
    ensures !IsEmpty(e)
    ensures forall row :: Eval(e, row) == T <==> ManagedGrant(managed, hub, row)
  {
    var names := Sorting.GetKeys(managed);
    if |names| == 1 && names[0] == "*" {
      assert names == ["*"];
      return ClusterNot(hub);
    }
    return ClusterIn(names);
  }

  /** The row is in a permitted managed cluster; "*" alone permits every cluster but the hub. */
  predicate ManagedGrant(managed: set<string>, hub: seq<string>, row: Row) {
    if managed == {"*"} then hub != [] && row.cluster != hub[0] else row.cluster in managed
  }

  /**
   Named clusters permit exactly their rows, a star among them being a name like any other; the star alone permits
   every row that is not of the hub, and none while the hub's cluster is unknown.
  */
  lemma ManagedMeans(names: set<string>, hubName: string, row: Row)
    ensures names != {"*"} ==> forall hub :: ManagedGrant(names, hub, row) <==> exists n | n in names :: row.cluster == n
    ensures ManagedGrant({"*"}, [hubName], row) <==> row.cluster != hubName
    ensures !ManagedGrant({"*"}, [], row)
  {
  }

  /** The clause of a non-admin user in basic mode. */
  method BasicClause(managed: set<string>, cs: seq<Resource>, ns: map<string, seq<Resource>>, c: Codec, hub: seq<string>)
      returns (e: Expr)
    requires Faithful(c) && forall n | n in ns :: ns[n] != []
    ensures !IsEmpty(e)
    ensures forall row | Grouped(row) :: Selects(e, row) <==> ManagedGrant(managed, hub, row) || HubClause(cs, ns, row)
    ensures (AllClusterScoped(cs) <==> AllNamespaces(ns)) ==>
      forall row | Grouped(row) :: Selects(e, row) <==> ManagedGrant(managed, hub, row) || HubGrant(cs, ns, row)
  {
    var managedClause := MatchManagedCluster(managed, hub);
    var hubClause := MatchHubClusterRbac(cs, ns, c);
    var es := [managedClause, hubClause];
    e := Or(es);
    assert es[0] in es && es[1] in es;
    OrMeans(es, Row("", map[]));
    forall row | Grouped(row)
      ensures Selects(e, row) <==> ManagedGrant(managed, hub, row) || HubClause(cs, ns, row) {
      OrMeans(es, row);
    }
    HubAgreesIff(cs, ns);
  }
}

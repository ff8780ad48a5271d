/**
 Fine-grained RBAC: the fold over all bindings that decides which Namespace objects a user sees
 (matchNamespaces, pkg/resolver/rbacFineGrainedHelper.go).
*/
module FineGrainedNamespaces {
  import Sorting
  import opened Sql
  import opened FineGrained

  // ---- The result of the fold, by what bindings there are ------------------------------------------------

  predicate OpensCluster(b: Binding) {
    b.scope == "cluster" || (b.scope == "namespace" && "*" in b.namespaces)
  }

  function WholeClusters(bs: seq<Binding>): set<string> {
    set b | b in bs && OpensCluster(b) :: b.cluster
  }

  function ScopedClusters(bs: seq<Binding>): set<string> {
    set b | b in bs && b.scope == "namespace" :: b.cluster
  }

  function ListedIn(bs: seq<Binding>, cluster: string): set<string> {
    set b, n | b in bs && b.scope == "namespace" && b.cluster == cluster && n in b.namespaces :: n
  }

  function Names(namespaces: seq<string>): set<string> {
    set n | n in namespaces
  }

  /** The state of the fold after the bindings bs: whole clusters, and names for the other scoped clusters. */
  predicate Folded(bs: seq<Binding>, clusters: set<string>, names: map<string, set<string>>) {
    && clusters == WholeClusters(bs)
    && names.Keys == ScopedClusters(bs) - WholeClusters(bs)
    && forall c | c in names :: names[c] == ListedIn(bs, c)
  }

  function AllBindings(ps: seq<Permission>): seq<Binding> {
    if ps == [] then [] else AllBindings(ps[..|ps| - 1]) + ps[|ps| - 1].bindings
  }

  lemma InAppended(bs: seq<Binding>, b: Binding)
    ensures forall x :: x in bs + [b] <==> x in bs || x == b
  {
  }

  lemma WholeAppended(bs: seq<Binding>, b: Binding)
    ensures WholeClusters(bs + [b]) == WholeClusters(bs) + if OpensCluster(b) then {b.cluster} else {}
    ensures ScopedClusters(bs + [b]) == ScopedClusters(bs) + if b.scope == "namespace" then {b.cluster} else {}
  {
    InAppended(bs, b);
    assert b in bs + [b];
    assert forall x | x in bs :: x in bs + [b];
  }

  lemma ListedAppended(bs: seq<Binding>, b: Binding, c: string)
    ensures ListedIn(bs + [b], c) ==
            ListedIn(bs, c) + if b.scope == "namespace" && b.cluster == c then Names(b.namespaces) else {}
  {
    InAppended(bs, b);
    assert b in bs + [b];
    forall n | n in ListedIn(bs, c) ensures n in ListedIn(bs + [b], c) {
      var x :| x in bs && x.scope == "namespace" && x.cluster == c && n in x.namespaces;
      assert x in bs + [b];
    }
  }

  lemma FoldedSkips(bs: seq<Binding>, b: Binding, clusters: set<string>, names: map<string, set<string>>)
    requires Folded(bs, clusters, names)
    requires b.cluster in clusters || (b.scope != "cluster" && b.scope != "namespace")
    ensures Folded(bs + [b], clusters, names)
  {
    WholeAppended(bs, b);
    forall c | c in names ensures names[c] == ListedIn(bs + [b], c) {
      ListedAppended(bs, b, c);
    }
  }

  lemma FoldedOpens(bs: seq<Binding>, b: Binding, clusters: set<string>, names: map<string, set<string>>,
                    after: map<string, set<string>>)
    requires Folded(bs, clusters, names) && OpensCluster(b)
    requires after.Keys == names.Keys - {b.cluster} && forall c | c in after :: after[c] == names[c]
    ensures Folded(bs + [b], clusters + {b.cluster}, after)
  {
    WholeAppended(bs, b);
    forall c | c in after ensures after[c] == ListedIn(bs + [b], c) {
      ListedAppended(bs, b, c);
    }
  }

  lemma FoldedLists(bs: seq<Binding>, b: Binding, clusters: set<string>, names: map<string, set<string>>,
                    after: map<string, set<string>>)
    requires Folded(bs, clusters, names) && b.scope == "namespace" && !OpensCluster(b) && b.cluster !in clusters
    requires after == names[b.cluster := (if b.cluster in names then names[b.cluster] else {}) + Names(b.namespaces)]
    ensures Folded(bs + [b], clusters, after)
  {
    WholeAppended(bs, b);
    if b.cluster !in names {
      assert b.cluster !in ScopedClusters(bs);
      assert ListedIn(bs, b.cluster) == {};
    }
    forall c | c in after ensures after[c] == ListedIn(bs + [b], c) {
      ListedAppended(bs, b, c);
    }
  }

  // The namespaces of one binding, up to the first "*".
  method Gather(b: Binding, clusters: set<string>, names: map<string, set<string>>)
      returns (clusters': set<string>, names': map<string, set<string>>)
    ensures "*" in b.namespaces ==>
      && clusters' == clusters + {b.cluster}
      && names'.Keys == names.Keys - {b.cluster} && forall c | c in names' :: names'[c] == names[c]
    ensures "*" !in b.namespaces ==>
      && clusters' == clusters
      && names' == names[b.cluster := (if b.cluster in names then names[b.cluster] else {}) + Names(b.namespaces)]
  {
    clusters', names' := clusters, names;
    if b.cluster !in names' {
      names' := names'[b.cluster := {}];
    }
    ghost var before := names'[b.cluster];
    assert before + Names(b.namespaces[..0]) == before && names' == names[b.cluster := before];
    for k := 0 to |b.namespaces|
      invariant "*" !in b.namespaces[..k] && clusters' == clusters
      invariant names' == names[b.cluster := before + Names(b.namespaces[..k])]
    {
      var namespace := b.namespaces[k];
      assert Names(b.namespaces[..k + 1]) == Names(b.namespaces[..k]) + {namespace};
      assert b.namespaces[..k + 1] == b.namespaces[..k] + [namespace];
      if namespace == "*" {
        clusters' := clusters' + {b.cluster};
        names' := names' - {b.cluster};
        return;
      }
      names' := names'[b.cluster := names'[b.cluster] + {namespace}];
      assert names'[b.cluster] == before + Names(b.namespaces[..k + 1]);
      assert names' == names[b.cluster := before + Names(b.namespaces[..k + 1])];
    }
    assert b.namespaces[..|b.namespaces|] == b.namespaces;
  }

  /** The fold keeps the two collections disjoint and ends with what the bindings as a whole determine. */
  method FoldBindings(ps: seq<Permission>) returns (clusters: set<string>, names: map<string, set<string>>)
    ensures Folded(AllBindings(ps), clusters, names)
    ensures clusters !! names.Keys
  {
    clusters, names := {}, map[];
    var i := 0;
    while i < |ps|
      invariant 0 <= i <= |ps|
      invariant Folded(AllBindings(ps[..i]), clusters, names)
    {
      var bindings := ps[i].bindings;
      ghost var before := AllBindings(ps[..i]);
      assert ps[..i + 1][..i] == ps[..i];
      assert before + bindings[..0] == before;
      for j := 0 to |bindings|
        invariant Folded(before + bindings[..j], clusters, names)
      {
        var b := bindings[j];
        ghost var done := before + bindings[..j];
        assert before + bindings[..j + 1] == done + [b];
        if b.cluster in clusters {
          FoldedSkips(done, b, clusters, names);
          continue;
        } else if b.scope == "cluster" {
          FoldedOpens(done, b, clusters, names, names - {b.cluster});
          clusters := clusters + {b.cluster};
          names := names - {b.cluster};
        } else if b.scope == "namespace" {
          ghost var clusters0, names0 := clusters, names;
          clusters, names := Gather(b, clusters, names);
          if "*" in b.namespaces {
            FoldedOpens(done, b, clusters0, names0, names);
          } else {
            FoldedLists(done, b, clusters0, names0, names);
          }
        } else {
          FoldedSkips(done, b, clusters, names);
        }
      }
      assert before + bindings[..|bindings|] == AllBindings(ps[..i + 1]);
      i := i + 1;
    }
    assert ps[..|ps|] == ps;
  }

  predicate Occurs(b: Binding, ps: seq<Permission>) {
    exists p | p in ps :: b in p.bindings
  }

  lemma {:induction false} AllBindingsAre(ps: seq<Permission>)
    ensures forall b :: b in AllBindings(ps) <==> Occurs(b, ps)
  {
    if ps != [] {
      var init, last := ps[..|ps| - 1], ps[|ps| - 1];
      AllBindingsAre(init);
      assert forall p :: p in ps <==> p in init || p == last;
      forall b ensures b in AllBindings(ps) <==> Occurs(b, ps) {
        if p :| p in ps && b in p.bindings {
          assert p in init || p == last;
        }
      }
    }
  }

  /**
   The outcome of the fold does not depend on the order of the permissions or of their bindings, nor on
   repetitions: two permission lists with the same bindings end in the same collections.
  */
  lemma FoldIgnoresOrder(ps: seq<Permission>, qs: seq<Permission>, clusters: set<string>, names: map<string, set<string>>,
                         clusters': set<string>, names': map<string, set<string>>)
    requires forall b :: Occurs(b, ps) <==> Occurs(b, qs)
    requires Folded(AllBindings(ps), clusters, names) && Folded(AllBindings(qs), clusters', names')
    ensures clusters == clusters' && names == names'
  {
    AllBindingsAre(ps);
    AllBindingsAre(qs);
    var bs, cs := AllBindings(ps), AllBindings(qs);
    assert forall b :: b in bs <==> b in cs;
    assert WholeClusters(bs) == WholeClusters(cs) && ScopedClusters(bs) == ScopedClusters(cs);
    forall c | c in names ensures c in names' && names[c] == names'[c] {
      assert ListedIn(bs, c) == ListedIn(cs, c);
    }
    assert names.Keys == names'.Keys;
  }

  // ---- The clause built from the fold ----------------------------------------------------------------------

  predicate IsNamespaceObject(row: Row) {
    "apigroup" !in row.data && "kind" in row.data && row.data["kind"] == "Namespace"
  }

  /** The binding gives access to the Namespace object: its cluster is open, or the object is listed by name. */
  predicate CoversNamespace(b: Binding, row: Row) {
    b.cluster == row.cluster &&
    (OpensCluster(b) || (b.scope == "namespace" && "name" in row.data && row.data["name"] in b.namespaces))
  }

  predicate IsScoped(b: Binding) {
    b.scope == "cluster" || b.scope == "namespace"
  }

  predicate NamesRow(names: map<string, set<string>>, c: string, row: Row)
    requires c in names
  {
    c == row.cluster && "name" in row.data && row.data["name"] in names[c]
  }

  lemma NamedClauseMeans(c: string, keys: seq<string>, row: Row)
    ensures var e := And([ClusterIn([c]), PropIn("name", keys)]);
      !IsEmpty(e) && (Eval(e, row) == T <==> c == row.cluster && "name" in row.data && row.data["name"] in keys)
  {
    var es := [ClusterIn([c]), PropIn("name", keys)];
    AndMeans(es, row);
    assert es[0] in es && es[1] in es;
  }

  // The disjunction over the map, whatever order the runtime iterates in.
  method NamedClauses(names: map<string, set<string>>) returns (location: Expr)
    ensures location.List? && location.op == OrOp && (IsEmpty(location) <==> names == map[])
    ensures forall row :: Eval(location, row) == T <==> exists c | c in names :: NamesRow(names, c, row)
  {
    location := Or([]);
    var rest := names.Keys;
    while rest != {}
      invariant rest <= names.Keys && location.List? && location.op == OrOp
      invariant IsEmpty(location) <==> rest == names.Keys
      invariant forall row :: Eval(location, row) == T <==> exists c | c in names.Keys - rest :: NamesRow(names, c, row)
    {
      var cluster :| cluster in rest;
      var keys := Sorting.GetKeys(names[cluster]);
      var e := And([ClusterIn([cluster]), PropIn("name", keys)]);
      forall row ensures Eval(Append(location, e), row) == T <==> (Eval(location, row) == T || NamesRow(names, cluster, row))
                 ensures !IsEmpty(Append(location, e)) {
        NamedClauseMeans(cluster, keys, row);
        AppendMeans(location, e, row);
      }
      var any := Row("", map[]);
      assert !IsEmpty(Append(location, e)) by { NamedClauseMeans(cluster, keys, any); AppendMeans(location, e, any); }
      location := Append(location, e);
      rest := rest - {cluster};
    }
  }

  /** The fold opens or names the row's cluster exactly if some binding covers the Namespace object. */
  lemma FoldCovers(bs: seq<Binding>, clusters: set<string>, names: map<string, set<string>>, row: Row)
    requires Folded(bs, clusters, names)
    ensures (row.cluster in clusters || exists c | c in names :: NamesRow(names, c, row)) <==>
            exists b | b in bs :: CoversNamespace(b, row)
  {
    var c := row.cluster;
    if b :| b in bs && CoversNamespace(b, row) {
      if c !in clusters {
        assert !OpensCluster(b) && c in ScopedClusters(bs) && row.data["name"] in ListedIn(bs, c);
        assert NamesRow(names, c, row);
      }
    }
    if c in clusters {
      var b :| b in bs && OpensCluster(b) && b.cluster == c;
      assert CoversNamespace(b, row);
    }
    if c in names && NamesRow(names, c, row) {
      var b :| b in bs && b.scope == "namespace" && b.cluster == c && row.data["name"] in b.namespaces;
      assert CoversNamespace(b, row);
    }
  }

  lemma FoldIsEmpty(bs: seq<Binding>, clusters: set<string>, names: map<string, set<string>>)
    requires Folded(bs, clusters, names)
    ensures clusters == {} && names == map[] <==> forall b | b in bs :: !IsScoped(b)
  {
    if b :| b in bs && IsScoped(b) {
      assert b.cluster in WholeClusters(bs) || b.cluster in ScopedClusters(bs);
      assert b.cluster in clusters || b.cluster in names;
    }
    if clusters != {} {
      var c :| c in WholeClusters(bs);
      var b :| b in bs && OpensCluster(b) && b.cluster == c;
      assert IsScoped(b);
    }
    if names != map[] {
      var c :| c in names.Keys;
      var b :| b in bs && b.scope == "namespace" && b.cluster == c;
      assert IsScoped(b);
    }
  }

  /** What the clause grants: covered Namespace objects, or all of them if no binding has a known scope. */
  ghost predicate GrantsNamespace(bs: seq<Binding>, row: Row) {
    IsNamespaceObject(row) && ((forall b | b in bs :: !IsScoped(b)) || exists b | b in bs :: CoversNamespace(b, row))
  }

  // The conjunction of the kind test with the location test, which is dropped when it is empty.
  lemma KindAndLocation(location: Expr, row: Row)
    ensures var e := Append(And([LacksKey("apigroup"), PropIn("kind", ["Namespace"])]), location);
      !IsEmpty(e) && (Eval(e, row) == T <==> IsNamespaceObject(row) && (IsEmpty(location) || Eval(location, row) == T))
  {
    var es := [LacksKey("apigroup"), PropIn("kind", ["Namespace"])];
    assert DropEmpty(es) == es;
    assert DropEmpty([location]) == if IsEmpty(location) then [] else [location];
    var all := es + DropEmpty([location]);
    AndIsTrue(all, row);
    assert all[0] in all && all[1] in all && (!IsEmpty(location) ==> all[2] in all);
    assert forall e | e in all :: e == all[0] || e == all[1] || (!IsEmpty(location) && e == location);
  }

  method MatchNamespaces(ps: seq<Permission>) returns (result: Expr)
    ensures !IsEmpty(result)
    ensures forall row :: Eval(result, row) == T <==> GrantsNamespace(AllBindings(ps), row)
  {
    result := And([LacksKey("apigroup"), PropIn("kind", ["Namespace"])]);
    var clusters, names := FoldBindings(ps);
    var location := NamedClauses(names);
    ghost var named := location;
    ghost var bs := AllBindings(ps);
    if |clusters| > 0 {
      var keys := Sorting.GetKeys(clusters);
      location := Append(location, ClusterIn(keys));
      forall row ensures Eval(location, row) == T <==> (Eval(named, row) == T || row.cluster in clusters)
                 ensures !IsEmpty(location) {
        AppendMeans(named, ClusterIn(keys), row);
      }
      assert !IsEmpty(location) by { AppendMeans(named, ClusterIn(keys), Row("", map[])); }
    }
    FoldIsEmpty(bs, clusters, names);
    KindAndLocation(location, Row("", map[]));
    forall row ensures Eval(Append(result, location), row) == T <==> GrantsNamespace(bs, row) {
      KindAndLocation(location, row);
      FoldCovers(bs, clusters, names, row);
    }
    result := Append(result, location);
  }

  /**
   Against the direct rule, a Namespace object is visible iff some binding covers it: the clause agrees
   on every row exactly if at least one binding has scope "cluster" or "namespace".
  */
  lemma NamespacesExactIff(bs: seq<Binding>)
    ensures (forall row :: GrantsNamespace(bs, row) <==> IsNamespaceObject(row) && exists b | b in bs :: CoversNamespace(b, row))
            <==> exists b | b in bs :: IsScoped(b)
  {
    if forall b | b in bs :: !IsScoped(b) {
      var row := Row("", map["kind" := "Namespace"]);
      assert GrantsNamespace(bs, row);
      assert forall b | b in bs :: !CoversNamespace(b, row);
    }
  }
}

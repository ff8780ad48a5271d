/**
 The relationship query (buildRelationsQuery, pkg/resolver/related.go): a level-bounded recursive query
 over the edges, evaluated by the working-table iteration of section 7.8.2 of the PostgreSQL 16
 documentation, against bounded walks in the graph of edges.
*/
module Relations {

  datatype Edge = Edge(sourceid: string, destid: string, sourcekind: string, destkind: string, cluster: string)

  // A row of search_graph; a row of combineIds; a row of search.resources.
  datatype GraphRow = GraphRow(level: int, e: Edge, path: seq<string>)
  datatype Related = Related(uid: string, kind: string, level: int, path: seq<string>)
  datatype Item = Item(uid: string, kind: string, cluster: string)

  // ---- The query ---------------------------------------------------------------------------------------------

  predicate Touches(e: Edge, uids: set<string>) {
    e.sourceid in uids || e.destid in uids
  }

  function EndsOf(e: Edge): seq<string> {
    [e.sourceid, e.destid]
  }

  // baseSource UNION ALL baseDest, as a set of rows.
  function BaseTerm(edges: set<Edge>, uids: set<string>): set<GraphRow> {
    (set e | e in edges && e.sourceid in uids :: GraphRow(1, e, EndsOf(e))) +
    (set e | e in edges && e.destid in uids :: GraphRow(1, e, EndsOf(e)))
  }

  predicate Joins(sg: Edge, e: Edge) {
    sg.destid in [e.sourceid, e.destid] || sg.sourceid in [e.sourceid, e.destid]
  }

  predicate Expands(e: Edge) {
    e.destkind !in ["Node", "Channel"] && e.sourcekind !in ["Node", "Channel"]
  }

  function RecursiveTerm(edges: set<Edge>, working: set<GraphRow>, level: int): set<GraphRow> {
    set sg, e | sg in working && e in edges && Joins(sg.e, e) && sg.level <= level && Expands(e) ::
      GraphRow(sg.level + 1, e, sg.path)
  }

  function ClusterNode(cluster: string): string {
    "cluster__" + cluster
  }

  // unnest(array[sourceid, destid, concat('cluster__', cluster)]) with the matching kinds.
  function CombineIds(graph: set<GraphRow>): set<Related> {
    (set r | r in graph :: Related(r.e.sourceid, r.e.sourcekind, r.level, r.path)) +
    (set r | r in graph :: Related(r.e.destid, r.e.destkind, r.level, r.path)) +
    (set r | r in graph :: Related(ClusterNode(r.e.cluster), "Cluster", r.level, r.path))
  }

  predicate SameGroup(a: Related, b: Related) {
    a.uid == b.uid && a.kind == b.kind && a.path == b.path
  }

  // GROUP BY uid, kind, path with MIN(level).
  function GroupMin(rows: set<Related>): set<Related> {
    set r | r in rows && forall q | q in rows && SameGroup(r, q) :: r.level <= q.level
  }

  // selectIfClusterUIDPresent: every resource of a cluster whose pseudo-node was searched for.
  function ClusterTerm(items: set<Item>, uids: set<string>): set<Related> {
    set i | i in items && ClusterNode(i.cluster) in uids :: Related(i.uid, i.kind, 1, [])
  }

  function SelectFinal(graph: set<GraphRow>, uids: set<string>, level: int): set<Related> {
    GroupMin(set r | r in CombineIds(graph) && r.level <= level && r.uid !in uids)
  }

  // ---- Walks -------------------------------------------------------------------------------------------------

  ghost predicate IsEnd(e: Edge, uid: string) {
    uid == e.sourceid || uid == e.destid
  }

  ghost predicate ShareEnd(a: Edge, b: Edge) {
    exists uid :: IsEnd(a, uid) && IsEnd(b, uid)
  }

  // Neither end is a Node or a Channel.
  ghost predicate Passable(e: Edge) {
    && e.sourcekind != "Node" && e.sourcekind != "Channel"
    && e.destkind != "Node" && e.destkind != "Channel"
  }

  /**
   A walk along edges: an end of the first is in the search, and each later one shares an end with the one before and
   has no end that is a Node or a Channel.
  */
  ghost predicate Walk(edges: set<Edge>, uids: set<string>, w: seq<Edge>) {
    && w != []
    && (forall i | 0 <= i < |w| :: w[i] in edges)
    && (exists uid | uid in uids :: IsEnd(w[0], uid))
    && (forall i | 0 < i < |w| :: Passable(w[i]))
    && (forall i | 0 < i < |w| :: ShareEnd(w[i - 1], w[i]))
  }

  // The conditions of the query are those of a walk.
  lemma JoinsMeans(a: Edge, b: Edge)
    ensures Joins(a, b) <==> ShareEnd(a, b)
  {
    assert IsEnd(a, a.sourceid) && IsEnd(a, a.destid);
  }

  lemma ExpandsMeans(e: Edge)
    ensures Expands(e) <==> Passable(e)
  {
  }

  ghost predicate WalkTo(edges: set<Edge>, uids: set<string>, w: seq<Edge>, r: GraphRow) {
    Walk(edges, uids, w) && |w| == r.level && w[|w| - 1] == r.e && r.path == [w[0].sourceid, w[0].destid]
  }

  ghost predicate Walkable(edges: set<Edge>, uids: set<string>, r: GraphRow) {
    exists w :: WalkTo(edges, uids, w, r)
  }

  lemma BaseIsOneStep(edges: set<Edge>, uids: set<string>, r: GraphRow)
    ensures r in BaseTerm(edges, uids) <==> r.level == 1 && Walkable(edges, uids, r)
  {
    if r in BaseTerm(edges, uids) {
      assert WalkTo(edges, uids, [r.e], r);
    }
    if r.level == 1 && Walkable(edges, uids, r) {
      var w :| WalkTo(edges, uids, w, r);
      assert w[0] == r.e;
    }
  }

  // A walk of two or more edges is a shorter walk and one more edge.
  lemma WalkSplits(edges: set<Edge>, uids: set<string>, r: GraphRow) returns (sg: GraphRow)
    requires Walkable(edges, uids, r) && r.level > 1
    ensures sg.level == r.level - 1 && sg.path == r.path && Walkable(edges, uids, sg)
    ensures r.e in edges && Joins(sg.e, r.e) && Expands(r.e)
  {
    ExpandsMeans(r.e);
    var w :| WalkTo(edges, uids, w, r);
    var init := w[..|w| - 1];
    sg := GraphRow(|init|, init[|init| - 1], r.path);
    assert WalkTo(edges, uids, init, sg);
    JoinsMeans(sg.e, r.e);
  }

  lemma WalkGrows(edges: set<Edge>, uids: set<string>, sg: GraphRow, e: Edge)
    requires Walkable(edges, uids, sg) && e in edges && Joins(sg.e, e) && Expands(e)
    ensures Walkable(edges, uids, GraphRow(sg.level + 1, e, sg.path))
  {
    var w :| WalkTo(edges, uids, w, sg);
    JoinsMeans(sg.e, e);
    ExpandsMeans(e);
    assert WalkTo(edges, uids, w + [e], GraphRow(sg.level + 1, e, sg.path));
  }

  lemma {:induction false} WalkHasPrefix(edges: set<Edge>, uids: set<string>, r: GraphRow, k: int) returns (p: GraphRow)
    requires Walkable(edges, uids, r) && 1 <= k <= r.level
    ensures p.level == k && Walkable(edges, uids, p)
    decreases r.level
  {
    if k == r.level {
      p := r;
    } else {
      var sg := WalkSplits(edges, uids, r);
      p := WalkHasPrefix(edges, uids, sg, k);
    }
  }

  // The rows of one level that the iteration keeps.
  ghost predicate IsLevel(edges: set<Edge>, uids: set<string>, rows: set<GraphRow>, k: int, limit: int) {
    forall r :: r in rows <==> r.level == k && k <= limit && Walkable(edges, uids, r)
  }

  ghost predicate UpToLevel(edges: set<Edge>, uids: set<string>, rows: set<GraphRow>, k: int, limit: int) {
    forall r :: r in rows <==> r.level <= k && r.level <= limit && Walkable(edges, uids, r)
  }

  lemma NextLevel(edges: set<Edge>, uids: set<string>, working: set<GraphRow>, k: int, level: int)
    requires k >= 1 && IsLevel(edges, uids, working, k, level + 1)
    ensures IsLevel(edges, uids, RecursiveTerm(edges, working, level), k + 1, level + 1)
  {
    var next := RecursiveTerm(edges, working, level);
    forall r ensures r in next <==> r.level == k + 1 && k + 1 <= level + 1 && Walkable(edges, uids, r) {
      if r in next {
        var sg, e :| sg in working && e in edges && Joins(sg.e, e) && sg.level <= level && Expands(e)
                     && r == GraphRow(sg.level + 1, e, sg.path);
        WalkGrows(edges, uids, sg, e);
      }
      if r.level == k + 1 && k + 1 <= level + 1 && Walkable(edges, uids, r) {
        var sg := WalkSplits(edges, uids, r);
        assert sg in working;
        assert r == GraphRow(sg.level + 1, r.e, sg.path);
      }
    }
  }

  lemma LevelsBelowHaveRows(edges: set<Edge>, uids: set<string>, rows: set<GraphRow>, k: int, limit: int, r: GraphRow)
    requires IsLevel(edges, uids, rows, k, limit) && Walkable(edges, uids, r) && 1 <= k <= r.level <= limit
    ensures rows != {}
  {
    var p := WalkHasPrefix(edges, uids, r, k);
    assert p in rows;
  }

  /**
   WITH RECURSIVE ... UNION: the iteration stops, because the level of the working table grows past the
   bound, and has then collected exactly the walks of up to one edge more than the bound.
  */
  method SearchGraph(edges: set<Edge>, uids: set<string>, level: int) returns (result: set<GraphRow>)
    requires level >= 1
    ensures UpToLevel(edges, uids, result, level + 1, level + 1)
  {
    result := BaseTerm(edges, uids);
    var working := result;
    ghost var k := 1;
    forall r ensures r in result <==> r.level <= 1 && Walkable(edges, uids, r) {
      BaseIsOneStep(edges, uids, r);
      if Walkable(edges, uids, r) {
        assert r.level >= 1;
      }
    }
    while working != {}
      invariant 1 <= k <= level + 2
      invariant IsLevel(edges, uids, working, k, level + 1)
      invariant UpToLevel(edges, uids, result, k, level + 1)
      decreases level + 2 - k
    {
      var r :| r in working;
      assert k <= level + 1;
      NextLevel(edges, uids, working, k, level);
      var intermediate := RecursiveTerm(edges, working, level) - result;
      assert intermediate == RecursiveTerm(edges, working, level);
      result := result + intermediate;
      working := intermediate;
      k := k + 1;
    }
    forall r: GraphRow | Walkable(edges, uids, r) && r.level <= level + 1 ensures r.level <= k {
      if r.level > k {
        LevelsBelowHaveRows(edges, uids, working, k, level + 1, r);
      }
    }
  }

  // ---- What the query returns --------------------------------------------------------------------------------

  /** The edge names the uid with the kind: an endpoint, or its cluster's pseudo-node. */
  predicate Names(e: Edge, uid: string, kind: string) {
    || (uid == e.sourceid && kind == e.sourcekind)
    || (uid == e.destid && kind == e.destkind)
    || (uid == "cluster__" + e.cluster && kind == "Cluster")
  }

  /** A walk of n edges that starts at the edge with these ends and whose last edge names the uid. */
  ghost predicate WalkNames(edges: set<Edge>, uids: set<string>, w: seq<Edge>, uid: string, kind: string, path: seq<string>) {
    Walk(edges, uids, w) && path == [w[0].sourceid, w[0].destid] && Names(w[|w| - 1], uid, kind)
  }

  /** The row's uid is outside the search and its level is the length of the shortest such walk, within the bound. */
  ghost predicate IsRelated(edges: set<Edge>, uids: set<string>, level: int, r: Related) {
    && r.uid !in uids && r.level <= level
    && (exists w :: WalkNames(edges, uids, w, r.uid, r.kind, r.path) && |w| == r.level)
    && (forall w :: WalkNames(edges, uids, w, r.uid, r.kind, r.path) ==> r.level <= |w|)
  }

  // The rows of the graph are the walks, as far as the bound.
  ghost predicate CoversBound(edges: set<Edge>, uids: set<string>, level: int, graph: set<GraphRow>) {
    forall r: GraphRow | r.level <= level :: r in graph <==> Walkable(edges, uids, r)
  }

  lemma CombinedIsWalk(edges: set<Edge>, uids: set<string>, level: int, graph: set<GraphRow>, r: Related)
    requires CoversBound(edges, uids, level, graph) && r.level <= level
    ensures r in CombineIds(graph) <==> exists w :: WalkNames(edges, uids, w, r.uid, r.kind, r.path) && |w| == r.level
  {
    if r in CombineIds(graph) {
      var g :| g in graph && g.level == r.level && g.path == r.path && Names(g.e, r.uid, r.kind);
      var w :| WalkTo(edges, uids, w, g);
      assert WalkNames(edges, uids, w, r.uid, r.kind, r.path);
    }
    if w :| WalkNames(edges, uids, w, r.uid, r.kind, r.path) && |w| == r.level {
      var g := GraphRow(r.level, w[|w| - 1], r.path);
      assert WalkTo(edges, uids, w, g);
      assert g in graph;
    }
  }

  lemma FinalIsRelated(edges: set<Edge>, uids: set<string>, level: int, graph: set<GraphRow>, r: Related)
    requires CoversBound(edges, uids, level, graph)
    ensures r in SelectFinal(graph, uids, level) <==> IsRelated(edges, uids, level, r)
  {
    var rows := set q | q in CombineIds(graph) && q.level <= level && q.uid !in uids;
    if r.level <= level {
      CombinedIsWalk(edges, uids, level, graph, r);
    }
    if r in SelectFinal(graph, uids, level) {
      forall w | WalkNames(edges, uids, w, r.uid, r.kind, r.path) ensures r.level <= |w| {
        var q := Related(r.uid, r.kind, |w|, r.path);
        if |w| <= level {
          CombinedIsWalk(edges, uids, level, graph, q);
          assert SameGroup(r, q);
        }
      }
    }
    if IsRelated(edges, uids, level, r) {
      forall q | q in rows && SameGroup(r, q) ensures r.level <= q.level {
        CombinedIsWalk(edges, uids, level, graph, q);
      }
    }
  }

  /** The search holds the pseudo-node of the item's cluster; such a row has level 1 and no path. */
  ghost predicate InSearchedCluster(items: set<Item>, uids: set<string>, r: Related) {
    exists i | i in items :: "cluster__" + i.cluster in uids && r == Related(i.uid, i.kind, 1, [])
  }

  /**
   The query, for every edge set, search and level: the related rows of the graph, and, when the search
   holds cluster pseudo-nodes, the resources of those clusters.
  */
  method RelationsQuery(edges: set<Edge>, items: set<Item>, uids: set<string>, level: int) returns (rows: set<Related>)
    ensures forall r :: r in rows <==> IsRelated(edges, uids, level, r) || InSearchedCluster(items, uids, r)
  {
    var graph: set<GraphRow>;
    if level > 1 {
      graph := SearchGraph(edges, uids, level);
    } else {
      graph := BaseTerm(edges, uids);
      forall r: GraphRow | r.level <= level ensures r in graph <==> Walkable(edges, uids, r) {
        BaseIsOneStep(edges, uids, r);
      }
    }
    rows := SelectFinal(graph, uids, level) + ClusterTerm(items, uids);
    forall r ensures r in rows <==> IsRelated(edges, uids, level, r) || InSearchedCluster(items, uids, r) {
      FinalIsRelated(edges, uids, level, graph, r);
    }
  }

  predicate HasClusterNode(uids: set<string>, items: set<Item>) {
    exists i | i in items :: "cluster__" + i.cluster in uids
  }

  /** A uid outside the search that some edge of a walk within the bound names. */
  ghost predicate Reached(edges: set<Edge>, uids: set<string>, level: int, uid: string) {
    exists w, i, kind :: Walk(edges, uids, w) && 0 <= i < |w| <= level && Names(w[i], uid, kind)
  }

  lemma PrefixNames(edges: set<Edge>, uids: set<string>, w: seq<Edge>, i: nat, uid: string, kind: string)
    requires Walk(edges, uids, w) && i < |w| && Names(w[i], uid, kind)
    ensures WalkNames(edges, uids, w[..i + 1], uid, kind, EndsOf(w[0]))
  {
  }

  // Among the walks that name a uid for one first edge there is a shortest.
  lemma {:induction false} ShortestWalk(edges: set<Edge>, uids: set<string>, w: seq<Edge>, uid: string, kind: string)
      returns (r: Related)
    requires Walk(edges, uids, w) && WalkNames(edges, uids, w, uid, kind, EndsOf(w[0])) && uid !in uids
    ensures r.uid == uid && r.level <= |w| && IsRelated(edges, uids, |w|, r)
    decreases |w|
  {
    if v :| WalkNames(edges, uids, v, uid, kind, EndsOf(w[0])) && |v| < |w| {
      r := ShortestWalk(edges, uids, v, uid, kind);
    } else {
      r := Related(uid, kind, |w|, EndsOf(w[0]));
    }
  }

  /**
   Without cluster pseudo-nodes in the search, the query returns exactly the uids outside it that are
   endpoints or cluster pseudo-nodes of some edge of a walk of at most `level` edges.
  */
  lemma RelatedUids(edges: set<Edge>, items: set<Item>, uids: set<string>, level: int, rows: set<Related>, uid: string)
    requires forall r :: r in rows <==> IsRelated(edges, uids, level, r) || InSearchedCluster(items, uids, r)
    requires !HasClusterNode(uids, items)
    ensures (exists r | r in rows :: r.uid == uid) <==> uid !in uids && Reached(edges, uids, level, uid)
  {
    if r :| r in rows && r.uid == uid {
      assert !InSearchedCluster(items, uids, r);
      var w :| WalkNames(edges, uids, w, r.uid, r.kind, r.path) && |w| == r.level;
      assert Walk(edges, uids, w) && Names(w[|w| - 1], uid, r.kind);
    }
    if uid !in uids && Reached(edges, uids, level, uid) {
      var w, i, kind :| Walk(edges, uids, w) && 0 <= i < |w| <= level && Names(w[i], uid, kind);
      PrefixNames(edges, uids, w, i, uid, kind);
      var r := ShortestWalk(edges, uids, w[..i + 1], uid, kind);
      assert IsRelated(edges, uids, level, r);
    }
  }

  // ---- Direction does not matter -----------------------------------------------------------------------------

  function Reversed(e: Edge): Edge {
    Edge(e.destid, e.sourceid, e.destkind, e.sourcekind, e.cluster)
  }

  function AllReversed(edges: set<Edge>): set<Edge> {
    set e | e in edges :: Reversed(e)
  }

  lemma ReversedWalk(edges: set<Edge>, uids: set<string>, w: seq<Edge>) returns (v: seq<Edge>)
    requires Walk(edges, uids, w)
    ensures |v| == |w| && Walk(AllReversed(edges), uids, v) && forall i | 0 <= i < |w| :: v[i] == Reversed(w[i])
  {
    v := seq(|w|, i requires 0 <= i < |w| => Reversed(w[i]));
    var uid :| uid in uids && IsEnd(w[0], uid);
    assert IsEnd(v[0], uid);
    forall i | 0 < i < |v| ensures ShareEnd(v[i - 1], v[i]) {
      assert ShareEnd(w[i - 1], w[i]);
      var u :| IsEnd(w[i - 1], u) && IsEnd(w[i], u);
      assert IsEnd(v[i - 1], u) && IsEnd(v[i], u);
    }
  }

  lemma ReversingReaches(edges: set<Edge>, uids: set<string>, level: int, uid: string)
    requires Reached(edges, uids, level, uid)
    ensures Reached(AllReversed(edges), uids, level, uid)
  {
    var w, i, kind :| Walk(edges, uids, w) && 0 <= i < |w| <= level && Names(w[i], uid, kind);
    var v := ReversedWalk(edges, uids, w);
    assert Names(v[i], uid, kind);
  }

  /** Reversing every edge leaves what a search reaches as it is. */
  lemma ReversingKeepsReached(edges: set<Edge>, uids: set<string>, level: int, uid: string)
    ensures Reached(AllReversed(edges), uids, level, uid) <==> Reached(edges, uids, level, uid)
  {
    if Reached(edges, uids, level, uid) {
      ReversingReaches(edges, uids, level, uid);
    }
    if Reached(AllReversed(edges), uids, level, uid) {
      ReversingReaches(AllReversed(edges), uids, level, uid);
      TwiceReversed(edges);
    }
  }

  lemma TwiceReversed(edges: set<Edge>)
    ensures AllReversed(AllReversed(edges)) == edges
  {
    forall e ensures e in AllReversed(AllReversed(edges)) <==> e in edges {
      assert Reversed(Reversed(e)) == e;
      assert e in edges ==> Reversed(e) in AllReversed(edges);
    }
  }

  /** One row per uid, kind and path: the reported level is a function of them. */
  lemma OneLevelEach(edges: set<Edge>, items: set<Item>, uids: set<string>, level: int, a: Related, b: Related)
    requires IsRelated(edges, uids, level, a) || InSearchedCluster(items, uids, a)
    requires IsRelated(edges, uids, level, b) || InSearchedCluster(items, uids, b)
    requires SameGroup(a, b)
    ensures a == b
  {
    if IsRelated(edges, uids, level, a) && IsRelated(edges, uids, level, b) {
      var v :| WalkNames(edges, uids, v, a.uid, a.kind, a.path) && |v| == a.level;
      var w :| WalkNames(edges, uids, w, b.uid, b.kind, b.path) && |w| == b.level;
      assert a.level <= |w| && b.level <= |v|;
    }
  }

  /** The path of a graph row is the two ends of an edge of the search, so it always meets the search. */
  lemma PathMeetsSearch(edges: set<Edge>, uids: set<string>, level: int, r: Related)
    requires IsRelated(edges, uids, level, r)
    ensures |r.path| == 2 && (r.path[0] in uids || r.path[1] in uids)
  {
    var w :| WalkNames(edges, uids, w, r.uid, r.kind, r.path) && |w| == r.level;
    assert Touches(w[0], uids);
  }
}

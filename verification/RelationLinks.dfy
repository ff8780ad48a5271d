/**
 The relationship query and the bookkeeping on its rows together (pkg/resolver/related.go): which results of a
 search are linked back to it.
*/
module RelationLinks {
  import opened Relations
  import RelatedItems

  // What the relations query answers.
  ghost predicate Answers(rows: set<Related>, edges: set<Edge>, items: set<Item>, uids: set<string>, level: int) {
    forall r :: r in rows <==> IsRelated(edges, uids, level, r) || InSearchedCluster(items, uids, r)
  }

  function RowOf(row: RelatedItems.Scanned): Related
    requires row.Scanned?
  {
    Related(row.uid, row.kind, row.level, row.path)
  }

  // The scanned rows are rows of the answer; the join, the user's permissions and scan errors may lose some.
  ghost predicate ScannedFrom(scanned: seq<RelatedItems.Scanned>, rows: set<Related>) {
    forall row | row in scanned && row.Scanned? :: RowOf(row) in rows
  }

  lemma RowMeetsIff(edges: set<Edge>, items: set<Item>, uids: set<string>, level: int, r: Related)
    requires IsRelated(edges, uids, level, r) || InSearchedCluster(items, uids, r)
    ensures (exists u | u in r.path :: u in uids) <==> IsRelated(edges, uids, level, r)
  {
    if IsRelated(edges, uids, level, r) {
      PathMeetsSearch(edges, uids, level, r);
      assert r.path[0] in r.path && r.path[1] in r.path;
    }
  }

  /** A result is linked to the search exactly when one of its rows comes from a walk, not from a cluster alone. */
  lemma LinkedIffWalked(edges: set<Edge>, items: set<Item>, uids: set<string>, level: int, rows: set<Related>,
                        scanned: seq<RelatedItems.Scanned>, uid: string)
    requires Answers(rows, edges, items, uids, level) && ScannedFrom(scanned, rows)
    ensures RelatedItems.RelatedTo(scanned, uid, uids) != [] <==>
            exists row :: RelatedItems.IsRowOf(scanned, row, uid) && IsRelated(edges, uids, level, RowOf(row))
  {
    RelatedItems.LinkedIff(scanned, uid, uids);
    forall row | RelatedItems.IsRowOf(scanned, row, uid)
      ensures (exists u | u in row.path :: u in uids) <==> IsRelated(edges, uids, level, RowOf(row)) {
      RowMeetsIff(edges, items, uids, level, RowOf(row));
    }
  }

  /**
   Without cluster pseudo-nodes in the search, every fetched item is linked to it: it lies outside the search, some
   walk within the bound names it, and its list of related uids is not empty.
  */
  lemma EveryResultLinked(edges: set<Edge>, items: set<Item>, uids: set<string>, level: int, rows: set<Related>,
                          scanned: seq<RelatedItems.Scanned>, fetched: seq<RelatedItems.Item>, m: map<string, seq<string>>,
                          results: seq<RelatedItems.KindResult>, i: nat, j: nat)
    requires Answers(rows, edges, items, uids, level) && ScannedFrom(scanned, rows) && !HasClusterNode(uids, items)
    requires RelatedItems.LinkedBack(m, scanned, uids) && RelatedItems.ResultsFor(results, fetched, m)
    requires forall item | item in fetched :: RelatedItems.IsScanned(scanned, item.uid)
    requires i < |results| && j < |results[i].items|
    ensures var r := results[i].items[j];
      && r.item in fetched && r.item.uid !in uids && Reached(edges, uids, level, r.item.uid)
      && r.relatedUids != [] && forall u | u in r.relatedUids :: u in uids
  {
    var kind := results[i].kind;
    ItemsAreAmong(fetched, kind);
    var item := RelatedItems.ItemsOfKind(fetched, kind)[j];
    assert results[i].items[j].item == item && item in fetched;
    var row :| RelatedItems.IsRowOf(scanned, row, item.uid);
    assert RowOf(row) in rows && !InSearchedCluster(items, uids, RowOf(row));
    LinkedIffWalked(edges, items, uids, level, rows, scanned, item.uid);
    RelatedUids(edges, items, uids, level, rows, item.uid);
    RelatedItems.RelatedToMeans(scanned, item.uid, uids);
  }

  lemma {:induction false} ItemsAreAmong(items: seq<RelatedItems.Item>, kind: string)
    ensures forall x | x in RelatedItems.ItemsOfKind(items, kind) :: x in items
  {
    if items != [] {
      ItemsAreAmong(items[..|items| - 1], kind);
    }
  }

  /** A search for a cluster's pseudo-node alone: a resource of the cluster without edges is a result without a link. */
  lemma ClusterResultUnlinked(uid: string, kind: string)
    ensures var item := Relations.Item(uid, kind, "c"); var uids := {"cluster__c"};
      && InSearchedCluster({item}, uids, Related(uid, kind, 1, []))
      && RelatedItems.RelatedTo([RelatedItems.Scanned(uid, kind, 1, [])], uid, uids) == []
  {
    var row := RelatedItems.Scanned(uid, kind, 1, []);
    assert "cluster__" + "c" == "cluster__c";
    assert [row][..0] == [] && [row][0] == row;
    assert RelatedItems.RelatedTo([], uid, {"cluster__c"}) == [];
  }
}

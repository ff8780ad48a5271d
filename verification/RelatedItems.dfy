/**
 What becomes of the rows of the relationship query (getRelationResolvers and its helpers,
 pkg/resolver/related.go): uids by kind, the uids to fetch, and the related results with their links back
 to the search.
*/
module RelatedItems {
  import opened Prelude
  import opened Sorting

  // A row of the query, or one that failed to scan and is skipped.
  datatype Scanned = Scanned(uid: string, kind: string, level: int, path: seq<string>) | ScanError

  datatype Item = Item(uid: string, kind: string)
  datatype RelatedItem = RelatedItem(item: Item, relatedUids: seq<string>)
  datatype KindResult = KindResult(kind: string, count: nat, items: seq<RelatedItem>)

  // ---- What the rows say ---------------------------------------------------------------------------------------

  ghost predicate IsRowOf(rows: seq<Scanned>, row: Scanned, uid: string) {
    row in rows && row.Scanned? && row.uid == uid
  }

  ghost predicate IsScanned(rows: seq<Scanned>, uid: string) {
    exists row :: IsRowOf(rows, row, uid)
  }

  /** The first uid of the path that belongs to the search. */
  function FirstMeet(path: seq<string>, search: set<string>): Option<string> {
    if path == [] then None else if path[0] in search then Some(path[0]) else FirstMeet(path[1..], search)
  }

  lemma {:induction false} FirstMeetIs(path: seq<string>, search: set<string>)
    ensures FirstMeet(path, search).Some? <==> exists u | u in path :: u in search
    ensures FirstMeet(path, search).Some? ==> FirstMeet(path, search).value in path && FirstMeet(path, search).value in search
  {
    if path != [] {
      FirstMeetIs(path[1..], search);
      assert forall u :: u in path <==> u == path[0] || u in path[1..];
    }
  }

  // The uids filed under a kind: each uid under the kind of its first row.
  ghost function UidsOfKind(rows: seq<Scanned>, kind: string): seq<string> {
    if rows == [] then []
    else
      var init, row := rows[..|rows| - 1], rows[|rows| - 1];
      UidsOfKind(init, kind) + if row.Scanned? && row.kind == kind && !IsScanned(init, row.uid) then [row.uid] else []
  }

  // The search uids a result is linked to, in the order of their first row.
  function RelatedTo(rows: seq<Scanned>, uid: string, search: set<string>): seq<string> {
    if rows == [] then []
    else
      var found, row := RelatedTo(rows[..|rows| - 1], uid, search), rows[|rows| - 1];
      if row.ScanError? || row.uid != uid then found
      else match FirstMeet(row.path, search)
        case None => found
        case Some(u) => if u in found then found else found + [u]
  }

  /**
   The links of a result: duplicate-free, inside the search, one for each row path that meets the search,
   hence non-empty exactly for uids with such a row.
  */
  lemma {:induction false} RelatedToMeans(rows: seq<Scanned>, uid: string, search: set<string>)
    ensures Distinct(RelatedTo(rows, uid, search))
    ensures forall u | u in RelatedTo(rows, uid, search) :: u in search
    ensures forall u :: u in RelatedTo(rows, uid, search) <==>
                        exists row :: IsRowOf(rows, row, uid) && FirstMeet(row.path, search) == Some(u)
  {
    if rows != [] {
      var init, last := rows[..|rows| - 1], rows[|rows| - 1];
      RelatedToMeans(init, uid, search);
      assert forall row :: row in rows <==> row in init || row == last;
      assert forall row :: IsRowOf(rows, row, uid) <==> IsRowOf(init, row, uid) || (row == last && last.Scanned? && last.uid == uid);
      if last.Scanned? && last.uid == uid {
        FirstMeetIs(last.path, search);
      }
    }
  }

  /** The rows' paths decide whether a result has a link at all. */
  lemma LinkedIff(rows: seq<Scanned>, uid: string, search: set<string>)
    ensures RelatedTo(rows, uid, search) != [] <==>
            exists row :: IsRowOf(rows, row, uid) && exists u | u in row.path :: u in search
  {
    RelatedToMeans(rows, uid, search);
    var links := RelatedTo(rows, uid, search);
    if links != [] {
      assert links[0] in links;
      var row :| IsRowOf(rows, row, uid) && FirstMeet(row.path, search) == Some(links[0]);
      FirstMeetIs(row.path, search);
    }
    if row :| IsRowOf(rows, row, uid) && exists u | u in row.path :: u in search {
      FirstMeetIs(row.path, search);
      assert FirstMeet(row.path, search).value in links;
    }
  }

  // ---- Scanning the rows ---------------------------------------------------------------------------------------

  ghost predicate FiledByKind(m: map<string, seq<string>>, rows: seq<Scanned>) {
    forall k :: (k in m <==> UidsOfKind(rows, k) != []) && (k in m ==> m[k] == UidsOfKind(rows, k))
  }

  ghost predicate LinkedBack(m: map<string, seq<string>>, rows: seq<Scanned>, search: set<string>) {
    forall u :: (u in m <==> RelatedTo(rows, u, search) != []) && (u in m ==> m[u] == RelatedTo(rows, u, search))
  }

  // updateKindMap
  method UpdateKindMap(uid: string, kind: string, levelMap: map<string, seq<string>>) returns (m: map<string, seq<string>>)
    ensures m == levelMap[kind := (if kind in levelMap then levelMap[kind] else []) + [uid]]
  {
    var uids := if kind in levelMap then levelMap[kind] else [];
    uids := uids + [uid];
    m := levelMap[kind := uids];
  }

  // updResultToCurrSearchUidsMap
  method UpdateResultMap(resultUid: string, search: set<string>, m: map<string, seq<string>>, path: seq<string>)
      returns (m': map<string, seq<string>>)
    ensures var found := if resultUid in m then m[resultUid] else [];
      m' == match FirstMeet(path, search)
            case None => m
            case Some(u) => if u in found then m else m[resultUid := found + [u]]
  {
    m' := m;
    var i := 0;
    assert path[0..] == path;
    while i < |path|
      invariant 0 <= i <= |path| && m' == m
      invariant FirstMeet(path, search) == FirstMeet(path[i..], search)
    {
      var relatedUid := path[i];
      if relatedUid in search {
        assert path[i..][0] == relatedUid && [] + [relatedUid] == [relatedUid];
        if resultUid !in m' {
          m' := m'[resultUid := [relatedUid]];
        } else if relatedUid !in m'[resultUid] {
          m' := m'[resultUid := m'[resultUid] + [relatedUid]];
        }
        return;
      }
      assert path[i..][1..] == path[i + 1..];
      i := i + 1;
    }
    assert path[|path|..] == [];
  }

  lemma FiledNext(m: map<string, seq<string>>, init: seq<Scanned>, row: Scanned)
    requires FiledByKind(m, init)
    ensures FiledByKind(if row.Scanned? && !IsScanned(init, row.uid)
                        then m[row.kind := (if row.kind in m then m[row.kind] else []) + [row.uid]] else m, init + [row])
  {
    var next := init + [row];
    assert next[..|next| - 1] == init;
    forall k ensures UidsOfKind(next, k) == UidsOfKind(init, k) +
                     if row.Scanned? && row.kind == k && !IsScanned(init, row.uid) then [row.uid] else [] {
    }
  }

  lemma LinkedNext(m: map<string, seq<string>>, init: seq<Scanned>, row: Scanned, search: set<string>,
                   m': map<string, seq<string>>)
    requires LinkedBack(m, init, search)
    requires row.ScanError? ==> m' == m
    requires row.Scanned? ==> var found := if row.uid in m then m[row.uid] else [];
      m' == match FirstMeet(row.path, search)
            case None => m
            case Some(u) => if u in found then m else m[row.uid := found + [u]]
    ensures LinkedBack(m', init + [row], search)
  {
    var next := init + [row];
    assert next[..|next| - 1] == init;
    forall u ensures (u in m' <==> RelatedTo(next, u, search) != []) && (u in m' ==> m'[u] == RelatedTo(next, u, search)) {
      assert u in m <==> RelatedTo(init, u, search) != [];
    }
  }

  // One row, after the rows `init`.
  method ScanRow(row: Scanned, search: set<string>, relatedMap: map<string, seq<string>>, resultMap: map<string, seq<string>>,
                 processed: set<string>, ghost init: seq<Scanned>)
      returns (relatedMap': map<string, seq<string>>, resultMap': map<string, seq<string>>, processed': set<string>)
    requires FiledByKind(relatedMap, init) && LinkedBack(resultMap, init, search)
    requires forall u :: u in processed <==> IsScanned(init, u)
    ensures FiledByKind(relatedMap', init + [row]) && LinkedBack(resultMap', init + [row], search)
    ensures forall u :: u in processed' <==> IsScanned(init + [row], u)
  {
    relatedMap', resultMap', processed' := relatedMap, resultMap, processed;
    OneMoreRow(init, row);
    FiledNext(relatedMap, init, row);
    if row.ScanError? {
      LinkedNext(resultMap, init, row, search, resultMap);
      return;
    }
    if row.uid !in processed {
      processed' := processed + {row.uid};
      relatedMap' := UpdateKindMap(row.uid, row.kind, relatedMap);
    }
    resultMap' := UpdateResultMap(row.uid, search, resultMap, row.path);
    LinkedNext(resultMap, init, row, search, resultMap');
  }

  method ScanRows(rows: seq<Scanned>, search: set<string>)
      returns (relatedMap: map<string, seq<string>>, resultMap: map<string, seq<string>>)
    ensures FiledByKind(relatedMap, rows) && LinkedBack(resultMap, rows, search)
  {
    relatedMap, resultMap := map[], map[];
    var processed: set<string> := {};
    for i := 0 to |rows|
      invariant FiledByKind(relatedMap, rows[..i]) && LinkedBack(resultMap, rows[..i], search)
      invariant forall u :: u in processed <==> IsScanned(rows[..i], u)
    {
      relatedMap, resultMap, processed := ScanRow(rows[i], search, relatedMap, resultMap, processed, rows[..i]);
      assert rows[..i + 1] == rows[..i] + [rows[i]];
    }
    assert rows[..|rows|] == rows;
  }

  lemma OneMoreRow(init: seq<Scanned>, row: Scanned)
    ensures forall u :: IsScanned(init + [row], u) <==> IsScanned(init, u) || (row.Scanned? && row.uid == u)
  {
    forall u ensures IsScanned(init + [row], u) <==> IsScanned(init, u) || (row.Scanned? && row.uid == u) {
      if IsScanned(init, u) {
        var r :| IsRowOf(init, r, u);
        assert IsRowOf(init + [row], r, u);
      }
      if row.Scanned? && row.uid == u {
        assert IsRowOf(init + [row], row, u);
      }
      if IsScanned(init + [row], u) {
        var r :| IsRowOf(init + [row], r, u);
        assert r != row ==> IsRowOf(init, r, u);
      }
    }
  }

  // ---- The uids to fetch ---------------------------------------------------------------------------------------

  // The kinds split the uids: no uid twice under a kind or under two kinds.
  ghost predicate Partition(m: map<string, seq<string>>) {
    && (forall k | k in m :: Distinct(m[k]))
    && (forall k, l | k in m && l in m && k != l :: Separate(m[k], m[l]))
  }

  ghost predicate Separate(a: seq<string>, b: seq<string>) {
    forall u | u in a :: u !in b
  }

  lemma {:induction false} UidsOfKindAre(rows: seq<Scanned>, k: string)
    ensures Distinct(UidsOfKind(rows, k))
    ensures forall u | u in UidsOfKind(rows, k) :: IsScanned(rows, u)
  {
    if rows != [] {
      var init, row := rows[..|rows| - 1], rows[|rows| - 1];
      assert rows == init + [row];
      UidsOfKindAre(init, k);
      OneMoreRow(init, row);
    }
  }

  lemma {:induction false} KindsAreSeparate(rows: seq<Scanned>, k: string, l: string)
    requires k != l
    ensures Separate(UidsOfKind(rows, k), UidsOfKind(rows, l))
  {
    if rows != [] {
      var init, row := rows[..|rows| - 1], rows[|rows| - 1];
      KindsAreSeparate(init, k, l);
      UidsOfKindAre(init, k);
      UidsOfKindAre(init, l);
    }
  }

  lemma {:induction false} EachUidHasAKind(rows: seq<Scanned>, u: string) returns (k: string)
    requires IsScanned(rows, u)
    ensures u in UidsOfKind(rows, k)
  {
    var init, row := rows[..|rows| - 1], rows[|rows| - 1];
    assert rows == init + [row];
    OneMoreRow(init, row);
    if IsScanned(init, u) {
      k := EachUidHasAKind(init, u);
    } else {
      k := row.kind;
    }
  }

  /** Every scanned uid is filed once, under one kind. */
  lemma FilingIsPartition(m: map<string, seq<string>>, rows: seq<Scanned>)
    requires FiledByKind(m, rows)
    ensures Partition(m)
    ensures forall u :: IsScanned(rows, u) <==> exists k | k in m :: u in m[k]
  {
    forall k | k in m ensures Distinct(m[k]) && forall u | u in m[k] :: IsScanned(rows, u) {
      UidsOfKindAre(rows, k);
    }
    forall k, l | k in m && l in m && k != l ensures Separate(m[k], m[l]) {
      KindsAreSeparate(rows, k, l);
    }
    forall u | IsScanned(rows, u) ensures exists k | k in m :: u in m[k] {
      var k := EachUidHasAKind(rows, u);
      assert k in m && u in m[k];
    }
  }

  ghost function UidsUnder(m: map<string, seq<string>>, kinds: set<string>): set<string>
    requires kinds <= m.Keys
  {
    set k, u | k in kinds && u in m[k] :: u
  }

  lemma UnderOneMore(m: map<string, seq<string>>, kinds: set<string>, k: string)
    requires Partition(m) && kinds <= m.Keys && k in m && k !in kinds
    ensures multiset(UidsUnder(m, kinds + {k})) == multiset(UidsUnder(m, kinds)) + multiset(m[k])
  {
    var before, added := UidsUnder(m, kinds), set u | u in m[k];
    forall u | u in before ensures u !in added {
      var l :| l in kinds && u in m[l];
      assert Separate(m[l], m[k]);
    }
    DistinctMultiset(m[k], added);
    assert UidsUnder(m, kinds + {k}) == before + added;
  }

  // filterRelatedUIDs without a filter on kinds.
  method AllUids(m: map<string, seq<string>>) returns (uids: seq<string>)
    requires Partition(m)
    ensures Sorted(uids, StringLe) && Distinct(uids)
    ensures forall u :: u in uids <==> exists k | k in m :: u in m[k]
  {
    var all: seq<string> := [];
    var rest := m.Keys;
    assert multiset(UidsUnder(m, {})) == multiset{};
    while rest != {}
      invariant rest <= m.Keys && multiset(all) == multiset(UidsUnder(m, m.Keys - rest))
    {
      var k :| k in rest;
      UnderOneMore(m, m.Keys - rest, k);
      assert m.Keys - (rest - {k}) == (m.Keys - rest) + {k};
      all := all + m[k];
      rest := rest - {k};
    }
    assert m.Keys - rest == m.Keys;
    StringsAreOrdered();
    SortSorts(all, StringLe);
    uids := Sort(all, StringLe);
    SetHasNoDuplicates(uids, UidsUnder(m, m.Keys));
  }

  // The first key in sorted order that folds to the filter.
  ghost predicate FirstFolding(m: map<string, seq<string>>, filter: string, fold: (string, string) -> bool, k: string) {
    k in m && fold(k, filter) && forall l | l in m && fold(l, filter) :: StringLe(k, l)
  }

  // The part of the result for one filter: the sorted uids of that kind, or nothing.
  ghost predicate PartFor(part: seq<string>, m: map<string, seq<string>>, filter: string, fold: (string, string) -> bool) {
    if exists k | k in m :: fold(k, filter) then exists k :: FirstFolding(m, filter, fold, k) && part == Sort(m[k], StringLe)
    else part == []
  }

  ghost predicate PartsFor(uids: seq<string>, m: map<string, seq<string>>, filters: seq<string>,
                           fold: (string, string) -> bool)
    decreases |filters|
  {
    if filters == [] then uids == []
    else
      var init := filters[..|filters| - 1];
      exists j | 0 <= j <= |uids| ::
        PartsFor(uids[..j], m, init, fold) && PartFor(uids[j..], m, filters[|filters| - 1], fold)
  }

  // The first of the kinds that fold to the filter, in sorted order.
  ghost predicate Chosen(m: map<string, seq<string>>, f: string, fold: (string, string) -> bool, k: string) {
    k in m && fold(k, f) && forall l | l in m && fold(l, f) :: k == l || !StringLe(l, k)
  }

  lemma ChosenIsFirst(m: map<string, seq<string>>, f: string, fold: (string, string) -> bool, k: string)
    ensures Chosen(m, f, fold, k) <==> FirstFolding(m, f, fold, k)
  {
    StringsAreOrdered();
  }

  ghost predicate Fetches(m: map<string, seq<string>>, f: string, fold: (string, string) -> bool, u: string) {
    exists k :: Chosen(m, f, fold, k) && u in m[k]
  }

  lemma PartHolds(part: seq<string>, m: map<string, seq<string>>, f: string, fold: (string, string) -> bool)
    requires PartFor(part, m, f, fold)
    ensures Sorted(part, StringLe)
    ensures forall u :: u in part <==> Fetches(m, f, fold, u)
  {
    StringsAreOrdered();
    if exists k | k in m :: fold(k, f) {
      var k :| FirstFolding(m, f, fold, k) && part == Sort(m[k], StringLe);
      ChosenIsFirst(m, f, fold, k);
      SortSorts(m[k], StringLe);
      assert forall u :: u in part <==> u in multiset(part);
      assert forall u :: u in m[k] <==> u in multiset(m[k]);
      forall l | Chosen(m, f, fold, l) ensures l == k {
        ChosenIsFirst(m, f, fold, l);
      }
    }
  }

  /** With filters, the uids to fetch are those of the first kind, in sorted order, that folds to some filter. */
  lemma {:induction false} FilteredUids(uids: seq<string>, m: map<string, seq<string>>, filters: seq<string>,
                                        fold: (string, string) -> bool)
    requires PartsFor(uids, m, filters, fold)
    ensures forall u :: u in uids <==> exists f | f in filters :: Fetches(m, f, fold, u)
    decreases |filters|
  {
    if filters != [] {
      var init, last := filters[..|filters| - 1], filters[|filters| - 1];
      var j :| 0 <= j <= |uids| && PartsFor(uids[..j], m, init, fold) && PartFor(uids[j..], m, last, fold);
      FilteredUids(uids[..j], m, init, fold);
      PartHolds(uids[j..], m, last, fold);
      assert uids == uids[..j] + uids[j..];
      assert forall f :: f in filters <==> f in init || f == last;
    }
  }

  method UidsForFilter(m: map<string, seq<string>>, kinds: seq<string>, filter: string, fold: (string, string) -> bool)
      returns (part: seq<string>)
    requires Sorted(kinds, StringLe) && forall k :: k in kinds <==> k in m
    ensures PartFor(part, m, filter, fold)
  {
    StringsAreOrdered();
    for i := 0 to |kinds|
      invariant forall j | 0 <= j < i :: !fold(kinds[j], filter)
    {
      var kind := kinds[i];
      if fold(kind, filter) {
        FirstIsLeast(kinds, i, filter, fold);
        assert kind in kinds && FirstFolding(m, filter, fold, kind);
        return Sort(m[kind], StringLe);
      }
    }
    part := [];
    NoneFolds(kinds, filter, fold);
  }

  lemma FirstIsLeast(kinds: seq<string>, i: nat, filter: string, fold: (string, string) -> bool)
    requires i < |kinds| && Sorted(kinds, StringLe) && forall j | 0 <= j < i :: !fold(kinds[j], filter)
    ensures forall k | k in kinds && fold(k, filter) :: StringLe(kinds[i], k)
  {
    StringsAreOrdered();
    forall k | k in kinds && fold(k, filter) ensures StringLe(kinds[i], k) {
      var j :| 0 <= j < |kinds| && kinds[j] == k;
      assert j == i || i < j;
    }
  }

  lemma NoneFolds(kinds: seq<string>, filter: string, fold: (string, string) -> bool)
    requires forall j | 0 <= j < |kinds| :: !fold(kinds[j], filter)
    ensures forall k | k in kinds :: !fold(k, filter)
  {
  }

  // filterRelatedUIDs with a filter; `fold` is strings.EqualFold.
  method UidsForFilters(m: map<string, seq<string>>, filters: seq<string>, fold: (string, string) -> bool)
      returns (uids: seq<string>)
    ensures PartsFor(uids, m, filters, fold)
  {
    uids := [];
    var kinds := GetKeys(m.Keys);
    for i := 0 to |filters|
      invariant PartsFor(uids, m, filters[..i], fold)
    {
      var part := UidsForFilter(m, kinds, filters[i], fold);
      ghost var next := filters[..i + 1];
      assert next[..|next| - 1] == filters[..i];
      assert (uids + part)[..|uids|] == uids && (uids + part)[|uids|..] == part;
      uids := uids + part;
    }
    assert filters[..|filters|] == filters;
  }

  // ---- The related results -------------------------------------------------------------------------------------

  function ItemsOfKind(items: seq<Item>, kind: string): seq<Item> {
    if items == [] then []
    else ItemsOfKind(items[..|items| - 1], kind) + if items[|items| - 1].kind == kind then [items[|items| - 1]] else []
  }

  function Links(m: map<string, seq<string>>, uid: string): seq<string> {
    if uid in m then m[uid] else []
  }

  // The items with their links, nil where there are none.
  function WithLinks(items: seq<Item>, m: map<string, seq<string>>): (r: seq<RelatedItem>)
    ensures |r| == |items| && forall k | 0 <= k < |items| :: r[k] == RelatedItem(items[k], Links(m, items[k].uid))
  {
    if items == [] then []
    else WithLinks(items[..|items| - 1], m) + [RelatedItem(items[|items| - 1], Links(m, items[|items| - 1].uid))]
  }

  lemma WithLinksAppends(items: seq<Item>, item: Item, m: map<string, seq<string>>)
    ensures WithLinks(items + [item], m) == WithLinks(items, m) + [RelatedItem(item, Links(m, item.uid))]
  {
  }

  function SumOf(results: seq<KindResult>): nat {
    if results == [] then 0 else SumOf(results[..|results| - 1]) + results[|results| - 1].count
  }

  function CountIn(items: seq<Item>, kinds: set<string>): nat {
    if items == [] then 0 else CountIn(items[..|items| - 1], kinds) + if items[|items| - 1].kind in kinds then 1 else 0
  }

  lemma {:induction false} CountOneMore(items: seq<Item>, kinds: set<string>, k: string)
    requires k !in kinds
    ensures CountIn(items, kinds + {k}) == CountIn(items, kinds) + |ItemsOfKind(items, k)|
  {
    if items != [] {
      CountOneMore(items[..|items| - 1], kinds, k);
    }
  }

  lemma {:induction false} CountBounds(items: seq<Item>, kinds: set<string>)
    requires forall k | ItemsOfKind(items, k) != [] :: k in kinds
    ensures CountIn(items, kinds) == |items|
  {
    if items != [] {
      var init, last := items[..|items| - 1], items[|items| - 1];
      forall k | ItemsOfKind(init, k) != [] ensures k in kinds {
        assert ItemsOfKind(items, k) != [];
      }
      CountBounds(init, kinds);
      assert ItemsOfKind(items, last.kind) != [];
    }
  }

  lemma {:induction false} CountInNone(items: seq<Item>)
    ensures CountIn(items, {}) == 0
  {
    if items != [] {
      CountInNone(items[..|items| - 1]);
    }
  }

  /** One result per kind of the items, holding those items in order, each with its links. */
  ghost predicate ResultsFor(results: seq<KindResult>, items: seq<Item>, m: map<string, seq<string>>) {
    && (forall i | 0 <= i < |results| :: results[i].count == |results[i].items| && results[i].items != []
          && results[i].items == WithLinks(ItemsOfKind(items, results[i].kind), m))
    && (forall i, j | 0 <= i < j < |results| :: results[i].kind != results[j].kind)
    && (forall k | ItemsOfKind(items, k) != [] :: exists i | 0 <= i < |results| :: results[i].kind == k)
  }

  lemma ItemsNext(init: seq<Item>, item: Item, k: string)
    ensures ItemsOfKind(init + [item], k) == ItemsOfKind(init, k) + if item.kind == k then [item] else []
  {
    assert (init + [item])[..|init|] == init;
  }

  // The entry of one kind is right.
  ghost predicate EntryFor(byKind: map<string, seq<RelatedItem>>, items: seq<Item>, m: map<string, seq<string>>, k: string) {
    if ItemsOfKind(items, k) == [] then k !in byKind else k in byKind && byKind[k] == WithLinks(ItemsOfKind(items, k), m)
  }

  ghost predicate GroupedByKind(byKind: map<string, seq<RelatedItem>>, items: seq<Item>, m: map<string, seq<string>>) {
    forall k :: EntryFor(byKind, items, m, k)
  }

  lemma GroupedNext(byKind: map<string, seq<RelatedItem>>, init: seq<Item>, item: Item, m: map<string, seq<string>>)
    requires GroupedByKind(byKind, init, m)
    ensures GroupedByKind(byKind[item.kind := (if item.kind in byKind then byKind[item.kind] else []) +
                                              [RelatedItem(item, Links(m, item.uid))]], init + [item], m)
  {
    var byKind' := byKind[item.kind := (if item.kind in byKind then byKind[item.kind] else []) +
                                       [RelatedItem(item, Links(m, item.uid))]];
    forall k ensures EntryFor(byKind', init + [item], m, k) {
      assert EntryFor(byKind, init, m, k);
      ItemsNext(init, item, k);
      if k == item.kind {
        WithLinksAppends(ItemsOfKind(init, k), item, m);
      }
    }
  }

  method GroupItems(items: seq<Item>, m: map<string, seq<string>>) returns (byKind: map<string, seq<RelatedItem>>)
    ensures GroupedByKind(byKind, items, m)
  {
    byKind := map[];
    for i := 0 to |items|
      invariant GroupedByKind(byKind, items[..i], m)
    {
      var item := items[i];
      GroupedNext(byKind, items[..i], item, m);
      assert items[..i + 1] == items[..i] + [item];
      var kindItemList := if item.kind in byKind then byKind[item.kind] else [];
      byKind := byKind[item.kind := kindItemList + [RelatedItem(item, Links(m, item.uid))]];
    }
    assert items[..|items|] == items;
  }

  // The results so far: one for each kind already taken from the map.
  ghost predicate Taken(result: seq<KindResult>, byKind: map<string, seq<RelatedItem>>, done: set<string>)
    requires done <= byKind.Keys
  {
    && (forall i | 0 <= i < |result| :: result[i].kind in done &&
          result[i] == KindResult(result[i].kind, |byKind[result[i].kind]|, byKind[result[i].kind]))
    && (forall i, j | 0 <= i < j < |result| :: result[i].kind != result[j].kind)
    && (forall k | k in done :: exists i | 0 <= i < |result| :: result[i].kind == k)
  }

  lemma TakenNext(result: seq<KindResult>, byKind: map<string, seq<RelatedItem>>, done: set<string>, kind: string)
    requires done <= byKind.Keys && kind in byKind && kind !in done && Taken(result, byKind, done)
    ensures Taken(result + [KindResult(kind, |byKind[kind]|, byKind[kind])], byKind, done + {kind})
  {
    var next := result + [KindResult(kind, |byKind[kind]|, byKind[kind])];
    forall k | k in done + {kind} ensures exists i | 0 <= i < |next| :: next[i].kind == k {
      if k != kind {
        var i :| 0 <= i < |result| && result[i].kind == k;
        assert next[i].kind == k;
      } else {
        assert next[|result|].kind == k;
      }
    }
  }

  lemma AllTaken(result: seq<KindResult>, byKind: map<string, seq<RelatedItem>>, items: seq<Item>, m: map<string, seq<string>>)
    requires GroupedByKind(byKind, items, m) && Taken(result, byKind, byKind.Keys)
    ensures ResultsFor(result, items, m)
  {
    forall k ensures k in byKind <==> ItemsOfKind(items, k) != [] {
      assert EntryFor(byKind, items, m, k);
    }
    forall i | 0 <= i < |result| ensures result[i].items != [] && result[i].items == WithLinks(ItemsOfKind(items, result[i].kind), m) {
      assert EntryFor(byKind, items, m, result[i].kind);
    }
  }

  // The loop over the map of kinds, in the runtime's order.
  method ResultPerKind(byKind: map<string, seq<RelatedItem>>, ghost items: seq<Item>) returns (result: seq<KindResult>)
    requires forall k | k in byKind :: |byKind[k]| == |ItemsOfKind(items, k)|
    ensures Taken(result, byKind, byKind.Keys) && SumOf(result) == CountIn(items, byKind.Keys)
  {
    result := [];
    var rest := byKind.Keys;
    ghost var done: set<string> := {};
    CountInNone(items);
    while rest != {}
      invariant done + rest == byKind.Keys && done * rest == {}
      invariant Taken(result, byKind, done)
      invariant SumOf(result) == CountIn(items, done)
    {
      var kind :| kind in rest;
      CountOneMore(items, done, kind);
      TakenNext(result, byKind, done, kind);
      SumNext(result, KindResult(kind, |byKind[kind]|, byKind[kind]));
      result := result + [KindResult(kind, |byKind[kind]|, byKind[kind])];
      done := done + {kind};
      rest := rest - {kind};
    }
    assert done == byKind.Keys;
  }

  lemma SumNext(results: seq<KindResult>, r: KindResult)
    ensures SumOf(results + [r]) == SumOf(results) + r.count
  {
    assert (results + [r])[..|results|] == results;
  }

  /** searchRelatedResultKindItems: the counts of the kinds sum to the fetched items. */
  method SearchRelatedResultKindItems(items: seq<Item>, m: map<string, seq<string>>) returns (result: seq<KindResult>)
    ensures ResultsFor(result, items, m) && SumOf(result) == |items|
  {
    var byKind := GroupItems(items, m);
    forall k ensures (k in byKind <==> ItemsOfKind(items, k) != []) && (k in byKind ==> |byKind[k]| == |ItemsOfKind(items, k)|) {
      assert EntryFor(byKind, items, m, k);
    }
    result := ResultPerKind(byKind, items);
    AllTaken(result, byKind, items, m);
    CountBounds(items, byKind.Keys);
  }

  // ---- getRelationResolvers ------------------------------------------------------------------------------------

  // The search result whose relations are resolved; `uids` first holds the search, then the uids to fetch.
  class SearchResult {
    const relatedKinds: seq<string>
    var uids: seq<string>

    constructor (relatedKinds: seq<string>, uids: seq<string>)
      ensures this.relatedKinds == relatedKinds && this.uids == uids
    {
      this.relatedKinds, this.uids := relatedKinds, uids;
    }

    method FilterRelatedUIDs(levelsMap: map<string, seq<string>>, fold: (string, string) -> bool)
      requires Partition(levelsMap)
      modifies this
      ensures relatedKinds == [] ==> Sorted(uids, StringLe) && Distinct(uids)
      ensures relatedKinds == [] ==> forall u :: u in uids <==> exists k | k in levelsMap :: u in levelsMap[k]
      ensures relatedKinds != [] ==> PartsFor(uids, levelsMap, relatedKinds, fold)
    {
      if |relatedKinds| == 0 {
        uids := AllUids(levelsMap);
      } else {
        uids := UidsForFilters(levelsMap, relatedKinds, fold);
      }
    }

    /**
     `rows` is the answer of the relations query, `fetch` that of the query for the items. Without a filter on
     kinds, the uids to fetch list all scanned uids, sorted and without duplicates; each result item carries
     the links that the rows give it.
    */
    method GetRelationResolvers(rows: Option<seq<Scanned>>, fetch: seq<string> -> Option<seq<Item>>,
                                fold: (string, string) -> bool) returns (results: seq<KindResult>)
      modifies this
      ensures rows.None? ==> results == [] && uids == old(uids)
      ensures rows.Some? && relatedKinds == [] ==>
        Sorted(uids, StringLe) && Distinct(uids) && forall u :: u in uids <==> IsScanned(rows.value, u)
      ensures rows.Some? && uids != [] && fetch(uids).Some? ==>
        && SumOf(results) == |fetch(uids).value|
        && exists m | LinkedBack(m, rows.value, set u | u in old(uids)) :: ResultsFor(results, fetch(uids).value, m)
      ensures rows.Some? && (uids == [] || fetch(uids).None?) ==> results == []
    {
      if rows.None? {
        return [];
      }
      var search := set u | u in uids;
      var relatedMap, resultMap := ScanRows(rows.value, search);
      FilingIsPartition(relatedMap, rows.value);
      FilterRelatedUIDs(relatedMap, fold);
      if |uids| == 0 {
        return [];
      }
      var items := fetch(uids);
      if items.None? {
        return [];
      }
      results := SearchRelatedResultKindItems(items.value, resultMap);
    }
  }
}

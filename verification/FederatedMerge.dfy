/**
 Merging the responses of the managed hubs as they arrive (pkg/federated/mergeResponses.go): in-place
 accumulation against the sums over all responses.
*/
module FederatedMerge {
  import opened Prelude
  import opened Sorting

  type Item = map<string, string>
  datatype Related = Related(kind: string, count: int, items: seq<Item>)
  datatype SearchResult = SearchResult(count: int, items: seq<Item>, related: seq<Related>)
  datatype Response = Response(hub: string, results: seq<SearchResult>)

  const NOTHING := SearchResult(0, [], [])

  // ---- What one merge does ---------------------------------------------------------------------------------

  function Tag(items: seq<Item>, hub: string): (r: seq<Item>)
    ensures |r| == |items| && forall k | 0 <= k < |items| :: r[k] == items[k]["managedHub" := hub]
  {
    if items == [] then [] else Tag(items[..|items| - 1], hub) + [items[|items| - 1]["managedHub" := hub]]
  }

  function TagRelated(related: seq<Related>, hub: string): (r: seq<Related>)
    ensures |r| == |related|
    ensures forall k | 0 <= k < |related| :: r[k] == Related(related[k].kind, related[k].count, Tag(related[k].items, hub))
  {
    if related == [] then []
    else
      var last := related[|related| - 1];
      TagRelated(related[..|related| - 1], hub) + [Related(last.kind, last.count, Tag(last.items, hub))]
  }

  function TagResult(r: SearchResult, hub: string): SearchResult {
    SearchResult(r.count, Tag(r.items, hub), TagRelated(r.related, hub))
  }

  function Kinds(related: seq<Related>): (r: seq<string>)
    ensures |r| == |related| && forall i | 0 <= i < |r| :: r[i] == related[i].kind
  {
    if related == [] then [] else [related[0].kind] + Kinds(related[1..])
  }

  // The entry is merged into the first one of its kind, or appended.
  function Absorb(merged: seq<Related>, e: Related): seq<Related> {
    if merged == [] then [e]
    else if merged[0].kind == e.kind then
      [Related(e.kind, merged[0].count + e.count, merged[0].items + e.items)] + merged[1..]
    else [merged[0]] + Absorb(merged[1..], e)
  }

  function AbsorbAll(merged: seq<Related>, added: seq<Related>): seq<Related> {
    if added == [] then merged else Absorb(AbsorbAll(merged, added[..|added| - 1]), added[|added| - 1])
  }

  function AppendRelated(merged: seq<Related>, added: seq<Related>): seq<Related> {
    if merged == [] then added else AbsorbAll(merged, added)
  }

  function MergeOne(acc: SearchResult, r: SearchResult, hub: string): SearchResult {
    SearchResult(acc.count + r.count, acc.items + Tag(r.items, hub),
                 if r.related == [] then acc.related else AppendRelated(acc.related, TagRelated(r.related, hub)))
  }

  function MergeFrom(acc: seq<SearchResult>, results: seq<SearchResult>, hub: string): (r: seq<SearchResult>)
    requires |results| <= |acc|
    ensures |r| == |acc|
    ensures forall k | 0 <= k < |acc| :: r[k] == if k < |results| then MergeOne(acc[k], results[k], hub) else acc[k]
  {
    if results == [] then acc
    else
      var n := |results| - 1;
      MergeFrom(acc, results[..n], hub)[n := MergeOne(acc[n], results[n], hub)]
  }

  function Blank(n: nat): (r: seq<SearchResult>)
    ensures |r| == n && forall k | 0 <= k < n :: r[k] == NOTHING
  {
    seq(n, _ => NOTHING)
  }

  // The state after the responses in order of arrival; None after an index panic.
  datatype Run = Running(search: Option<seq<SearchResult>>) | Panicked

  function Arrive(run: Run, r: Response): Run {
    match run
    case Panicked => Panicked
    case Running(None) => Running(Some(MergeFrom(Blank(|r.results|), r.results, r.hub)))
    case Running(Some(acc)) => if |r.results| > |acc| then Panicked else Running(Some(MergeFrom(acc, r.results, r.hub)))
  }

  // ---- The schema and completion lists -----------------------------------------------------------------------

  // The new values are appended in order, each once.
  function AddNew(list: seq<string>, values: seq<string>): seq<string> {
    if values == [] then list
    else
      var l := AddNew(list, values[..|values| - 1]);
      var v := values[|values| - 1];
      if v in l then l else l + [v]
  }

  function WithHub(props: seq<string>): seq<string> {
    if "managedHub" in props then props else ["managedHub"] + props
  }

  /** The merged list has no duplicates and holds exactly the old and the new values. */
  lemma {:induction false} AddNewIsUnion(list: seq<string>, values: seq<string>)
    ensures forall v :: v in AddNew(list, values) <==> v in list || v in values
    ensures Distinct(list) <==> Distinct(AddNew(list, values))
    ensures |AddNew(list, values)| >= |list| && AddNew(list, values)[..|list|] == list
  {
    if values != [] {
      AddNewIsUnion(list, values[..|values| - 1]);
      assert forall v :: v in values <==> v in values[..|values| - 1] || v == values[|values| - 1];
    }
    if Distinct(AddNew(list, values)) {
      assert forall i | 0 <= i < |list| :: list[i] == AddNew(list, values)[..|list|][i];
    }
  }

  /** Every merged schema offers managedHub: in front, if it is the first and did not have it, and once in any case. */
  lemma SchemaMeans(list: seq<string>, props: seq<string>)
    ensures var merged := AddNew(list, WithHub(props));
      && "managedHub" in merged && (forall p :: p in merged <==> p in list || p in props || p == "managedHub")
      && (list == [] && "managedHub" !in props ==> merged[0] == "managedHub")
      && ("managedHub" in props ==> merged == AddNew(list, props))
  {
    AddNewIsUnion(list, WithHub(props));
    if list == [] && "managedHub" !in props {
      FirstAdded(WithHub(props));
    }
  }

  lemma {:induction false} FirstAdded(values: seq<string>)
    requires values != []
    ensures AddNew([], values) != [] && AddNew([], values)[0] == values[0]
  {
    if |values| > 1 {
      FirstAdded(values[..|values| - 1]);
    }
  }

  // ---- The payload -------------------------------------------------------------------------------------------

  class Data {
    var search: Option<seq<SearchResult>>
    var searchComplete: Option<seq<string>>
    var searchCompleteValues: set<string>
    var searchSchema: Option<seq<string>>
    var searchSchemaValues: set<string>

    constructor ()
      ensures Valid() && search == None && searchComplete == None && searchSchema == None
    {
      search, searchComplete, searchSchema := None, None, None;
      searchCompleteValues, searchSchemaValues := {}, {};
    }

    /** The lists are duplicate-free and equal their shadow sets. */
    ghost predicate Valid()
      reads this
    {
      Shadowed(searchComplete, searchCompleteValues) && Shadowed(searchSchema, searchSchemaValues)
    }

    method MergeSearchSchema(schemaProps: seq<string>)
      requires Valid()
      modifies this`searchSchema, this`searchSchemaValues
      ensures Valid()
      ensures searchSchema == Some(AddNew(Listed(old(searchSchema)), WithHub(schemaProps)))
    {
      if searchSchema.None? {
        searchSchemaValues := {};
        searchSchema := Some([]);
      }
      var props := if "managedHub" !in schemaProps then ["managedHub"] + schemaProps else schemaProps;
      ghost var before := searchSchema.value;
      for i := 0 to |props|
        invariant searchSchema == Some(AddNew(before, props[..i])) && Valid()
      {
        assert props[..i + 1][..i] == props[..i];
        if props[i] !in searchSchemaValues {
          searchSchemaValues := searchSchemaValues + {props[i]};
          searchSchema := Some(searchSchema.value + [props[i]]);
        }
      }
      assert props[..|props|] == props;
    }

    method MergeSearchComplete(s: seq<string>)
      requires Valid()
      modifies this`searchComplete, this`searchCompleteValues
      ensures Valid()
      ensures searchComplete == Some(AddNew(Listed(old(searchComplete)), s))
    {
      if searchComplete.None? {
        searchCompleteValues := {};
        searchComplete := Some([]);
      }
      ghost var before := searchComplete.value;
      for i := 0 to |s|
        invariant searchComplete == Some(AddNew(before, s[..i])) && Valid()
      {
        assert s[..i + 1][..i] == s[..i];
        if s[i] !in searchCompleteValues {
          searchCompleteValues := searchCompleteValues + {s[i]};
          searchComplete := Some(searchComplete.value + [s[i]]);
        }
      }
      assert s[..|s|] == s;
    }

    /**
     One response. The first one fixes the number of results; a later one with more results is an index
     panic (ok is false), and then what was merged before the panic is not specified.
    */
    method MergeSearchResults(hubName: string, results: seq<SearchResult>) returns (ok: bool)
      modifies this`search
      ensures ok <==> old(search).None? || |results| <= |old(search).value|
      ensures Arrive(Running(old(search)), Response(hubName, results)) == if ok then Running(search) else Panicked
    {
      if search.None? {
        search := Some(Blank(|results|));
      }
      ghost var before := search.value;
      for index := 0 to |results|
        invariant index <= |before| && search == Some(MergeFrom(before, results[..index], hubName))
      {
        if index >= |search.value| {
          return false;
        }
        var merged := MergeResult(search.value[index], results[index], hubName);
        assert results[..index + 1][..index] == results[..index];
        search := Some(search.value[index := merged]);
      }
      assert results[..|results|] == results;
      ok := true;
    }
  }

  function Listed(l: Option<seq<string>>): seq<string> {
    if l.None? then [] else l.value
  }

  ghost predicate Shadowed(list: Option<seq<string>>, values: set<string>) {
    list.Some? ==> Distinct(list.value) && forall v :: v in values <==> v in list.value
  }

  method TagItems(items: seq<Item>, hubName: string) returns (tagged: seq<Item>)
    ensures tagged == Tag(items, hubName)
  {
    tagged := [];
    for i := 0 to |items|
      invariant tagged == Tag(items[..i], hubName)
    {
      assert items[..i + 1][..i] == items[..i];
      tagged := tagged + [items[i]["managedHub" := hubName]];
    }
    assert items[..|items|] == items;
  }

  // The body of the loop over the results.
  method MergeResult(acc: SearchResult, result: SearchResult, hubName: string) returns (merged: SearchResult)
    ensures merged == MergeOne(acc, result, hubName)
  {
    var items := TagItems(result.items, hubName);
    var related := acc.related;
    if |result.related| > 0 {
      var tagged: seq<Related> := [];
      for i := 0 to |result.related|
        invariant tagged == TagRelated(result.related[..i], hubName)
      {
        var r := result.related[i];
        assert result.related[..i + 1][..i] == result.related[..i];
        var t := TagItems(r.items, hubName);
        tagged := tagged + [Related(r.kind, r.count, t)];
      }
      assert result.related[..|result.related|] == result.related;
      related := AppendRelatedResults(acc.related, tagged);
    }
    merged := SearchResult(acc.count + result.count, acc.items + items, related);
  }

  method AppendRelatedResults(mergedItems: seq<Related>, newItems: seq<Related>) returns (r: seq<Related>)
    ensures r == AppendRelated(mergedItems, newItems)
  {
    if |mergedItems| == 0 {
      return newItems;
    }
    r := mergedItems;
    for i := 0 to |newItems|
      invariant r == AbsorbAll(mergedItems, newItems[..i])
    {
      assert newItems[..i + 1][..i] == newItems[..i];
      r := MergeKind(r, newItems[i]);
    }
    assert newItems[..|newItems|] == newItems;
  }

  lemma {:induction false} AbsorbAt(merged: seq<Related>, e: Related, index: nat)
    requires index <= |merged| && (forall k | 0 <= k < index :: merged[k].kind != e.kind)
    requires index < |merged| ==> merged[index].kind == e.kind
    ensures Absorb(merged, e) == if index == |merged| then merged + [e]
              else merged[index := Related(e.kind, merged[index].count + e.count, merged[index].items + e.items)]
  {
    if index > 0 {
      AbsorbAt(merged[1..], e, index - 1);
    } else if merged != [] {
      assert merged[0 := Related(e.kind, merged[0].count + e.count, merged[0].items + e.items)][1..] == merged[1..];
    }
  }

  // The search for the first entry of the kind.
  method MergeKind(merged: seq<Related>, newItem: Related) returns (r: seq<Related>)
    ensures r == Absorb(merged, newItem)
  {
    for index := 0 to |merged|
      invariant forall k | 0 <= k < index :: merged[k].kind != newItem.kind
    {
      var mergedItem := merged[index];
      if mergedItem.kind == newItem.kind {
        AbsorbAt(merged, newItem, index);
        return merged[index := Related(newItem.kind, mergedItem.count + newItem.count, mergedItem.items + newItem.items)];
      }
    }
    AbsorbAt(merged, newItem, |merged|);
    r := merged + [newItem];
  }

  // ---- What is conserved -------------------------------------------------------------------------------------

  // Quantities of a result: the count, the copies of an item, and for a kind the count and the copies of an item.
  datatype Measure = Count | Copies(item: Item) | KindCount(kind: string) | KindCopies(kind: string, item: Item)

  function RelatedValue(related: seq<Related>, m: Measure): int
    requires m.KindCount? || m.KindCopies?
  {
    if related == [] then 0 else EntryValue(related[0], m) + RelatedValue(related[1..], m)
  }

  function EntryValue(e: Related, m: Measure): int
    requires m.KindCount? || m.KindCopies?
  {
    if e.kind != m.kind then 0 else if m.KindCount? then e.count else multiset(e.items)[m.item]
  }

  function Value(r: SearchResult, m: Measure): int {
    match m
    case Count => r.count
    case Copies(x) => multiset(r.items)[x]
    case KindCount(_) => RelatedValue(r.related, m)
    case KindCopies(_, _) => RelatedValue(r.related, m)
  }

  /** What the quantities measure, on a result with one related entry. */
  lemma MeasuresAre(r: SearchResult, e: Related, kind: string, x: Item)
    requires r.related == [e]
    ensures Value(r, Count) == r.count && Value(r, Copies(x)) == multiset(r.items)[x]
    ensures Value(r, KindCount(e.kind)) == e.count && Value(r, KindCopies(e.kind, x)) == multiset(e.items)[x]
    ensures kind != e.kind ==> Value(r, KindCount(kind)) == 0 && Value(r, KindCopies(kind, x)) == 0
  {
    OneEntry(e, KindCount(e.kind));
    OneEntry(e, KindCopies(e.kind, x));
    OneEntry(e, KindCount(kind));
    OneEntry(e, KindCopies(kind, x));
  }

  lemma OneEntry(e: Related, m: Measure)
    requires m.KindCount? || m.KindCopies?
    ensures RelatedValue([e], m) == EntryValue(e, m)
  {
    assert [e][1..] == [];
    assert RelatedValue([], m) == 0;
  }

  lemma {:induction false} AbsorbAdds(merged: seq<Related>, e: Related, m: Measure)
    requires m.KindCount? || m.KindCopies?
    ensures RelatedValue(Absorb(merged, e), m) == RelatedValue(merged, m) + EntryValue(e, m)
  {
    if merged == [] {
      assert [e][1..] == [];
    } else if merged[0].kind == e.kind {
      var first := Related(e.kind, merged[0].count + e.count, merged[0].items + e.items);
      assert Absorb(merged, e)[0] == first && Absorb(merged, e)[1..] == merged[1..];
      assert EntryValue(first, m) == EntryValue(merged[0], m) + EntryValue(e, m);
    } else {
      AbsorbAdds(merged[1..], e, m);
      assert Absorb(merged, e)[1..] == Absorb(merged[1..], e);
    }
  }

  lemma {:induction false} RelatedSplit(a: seq<Related>, b: seq<Related>, m: Measure)
    requires m.KindCount? || m.KindCopies?
    ensures RelatedValue(a + b, m) == RelatedValue(a, m) + RelatedValue(b, m)
  {
    if a == [] {
      assert a + b == b;
    } else {
      assert (a + b)[1..] == a[1..] + b;
      RelatedSplit(a[1..], b, m);
    }
  }

  lemma {:induction false} AbsorbAllAdds(merged: seq<Related>, added: seq<Related>, m: Measure)
    requires m.KindCount? || m.KindCopies?
    ensures RelatedValue(AbsorbAll(merged, added), m) == RelatedValue(merged, m) + RelatedValue(added, m)
  {
    if added != [] {
      var init, last := added[..|added| - 1], added[|added| - 1];
      AbsorbAllAdds(merged, init, m);
      AbsorbAdds(AbsorbAll(merged, init), last, m);
      assert added == init + [last] && [last][1..] == [];
      RelatedSplit(init, [last], m);
    }
  }

  /** Merging one result adds every quantity of it, with its items tagged by the hub. */
  lemma MergeAdds(acc: SearchResult, r: SearchResult, hub: string, m: Measure)
    ensures Value(MergeOne(acc, r, hub), m) == Value(acc, m) + Value(TagResult(r, hub), m)
  {
    if m.KindCount? || m.KindCopies? {
      var tagged := TagRelated(r.related, hub);
      if r.related != [] && acc.related != [] {
        AbsorbAllAdds(acc.related, tagged, m);
      }
    }
  }

  // ---- Whole runs --------------------------------------------------------------------------------------------

  function MergeAll(rs: seq<Response>): Run {
    if rs == [] then Running(None) else Arrive(MergeAll(rs[..|rs| - 1]), rs[|rs| - 1])
  }

  function Sum(rs: seq<Response>, f: Response -> int): int {
    if rs == [] then 0 else Sum(rs[..|rs| - 1], f) + f(rs[|rs| - 1])
  }

  // What a response contributes to result i, its items tagged.
  function Part(i: nat, m: Measure): Response -> int {
    (r: Response) => if i < |r.results| then Value(TagResult(r.results[i], r.hub), m) else 0
  }

  /** The run panics exactly if some response has more results than the first. */
  lemma {:induction false} PanicsIff(rs: seq<Response>)
    ensures rs == [] ==> MergeAll(rs) == Running(None)
    ensures rs != [] ==> (MergeAll(rs).Panicked? <==> exists r | r in rs :: |r.results| > |rs[0].results|)
    ensures rs != [] && MergeAll(rs).Running? ==> MergeAll(rs).search.Some? && |MergeAll(rs).search.value| == |rs[0].results|
  {
    if rs != [] {
      var init, last := rs[..|rs| - 1], rs[|rs| - 1];
      PanicsIff(init);
      assert forall r :: r in rs <==> r in init || r == last;
      assert init != [] ==> init[0] == rs[0];
    }
  }

  // The result i of a run that did not panic.
  function Result(rs: seq<Response>, i: nat): SearchResult {
    match MergeAll(rs)
    case Running(Some(acc)) => if i < |acc| then acc[i] else NOTHING
    case _ => NOTHING
  }

  lemma ResultArrives(init: seq<Response>, last: Response, i: nat)
    requires MergeAll(init + [last]).Running?
    requires i < if init == [] then |last.results| else |init[0].results|
    ensures MergeAll(init).Running?
    ensures Result(init + [last], i) ==
            if i < |last.results| then MergeOne(Result(init, i), last.results[i], last.hub) else Result(init, i)
  {
    assert (init + [last])[..|init|] == init;
    PanicsIff(init);
  }

  lemma ResultAdds(init: seq<Response>, last: Response, i: nat, m: Measure)
    requires MergeAll(init + [last]).Running?
    requires i < if init == [] then |last.results| else |init[0].results|
    ensures Value(Result(init + [last], i), m) == Value(Result(init, i), m) + Part(i, m)(last)
  {
    ResultArrives(init, last, i);
    if i < |last.results| {
      MergeAdds(Result(init, i), last.results[i], last.hub, m);
    }
  }

  lemma SumOfOneMore(init: seq<Response>, last: Response, f: Response -> int)
    ensures Sum(init + [last], f) == Sum(init, f) + f(last)
  {
    assert (init + [last])[..|init|] == init;
  }

  /** Every quantity of every merged result is the sum over the responses, whatever their order. */
  lemma {:induction false} MergedIsSum(rs: seq<Response>, i: nat, m: Measure)
    requires MergeAll(rs).Running? && (rs != [] ==> i < |rs[0].results|)
    ensures Value(Result(rs, i), m) == Sum(rs, Part(i, m))
  {
    if rs == [] {
      NothingYet(i, m);
    } else {
      var init, last := rs[..|rs| - 1], rs[|rs| - 1];
      assert rs == init + [last];
      assert init != [] ==> init[0] == rs[0];
      ResultArrives(init, last, i);
      MergedIsSum(init, i, m);
      ResultAdds(init, last, i, m);
      SumOfOneMore(init, last, Part(i, m));
    }
  }

  lemma NothingYet(i: nat, m: Measure)
    ensures Value(Result([], i), m) == 0
  {
  }

  lemma {:induction false} SumRemoves(rs: seq<Response>, k: nat, f: Response -> int)
    requires k < |rs|
    ensures Sum(rs, f) == Sum(rs[..k] + rs[k + 1..], f) + f(rs[k])
  {
    var n := |rs| - 1;
    var init, last := rs[..n], rs[n];
    assert rs == init + [last];
    SumOfOneMore(init, last, f);
    if k < n {
      SumRemoves(init, k, f);
      SumOfOneMore(init[..k] + init[k + 1..], last, f);
      assert rs[..k] + rs[k + 1..] == init[..k] + init[k + 1..] + [last];
    } else {
      assert rs[..k] + rs[k + 1..] == init;
    }
  }

  lemma TakenOut<T>(s: seq<T>, k: nat)
    requires k < |s|
    ensures multiset(s) == multiset(s[..k] + s[k + 1..]) + multiset{s[k]}
  {
    assert s == s[..k] + [s[k]] + s[k + 1..];
    assert multiset(s) == multiset(s[..k]) + multiset([s[k]]) + multiset(s[k + 1..]);
  }

  lemma SameWithoutOne(rs: seq<Response>, qs: seq<Response>, k: nat)
    requires multiset(rs) == multiset(qs) && rs != [] && k < |qs| && qs[k] == rs[|rs| - 1]
    ensures multiset(rs[..|rs| - 1]) == multiset(qs[..k] + qs[k + 1..])
  {
    var n := |rs| - 1;
    TakenOut(rs, n);
    TakenOut(qs, k);
    assert rs[..n] + rs[n + 1..] == rs[..n];
    assert multiset(rs[..n]) + multiset{qs[k]} == multiset(qs[..k] + qs[k + 1..]) + multiset{qs[k]};
    assert multiset(rs[..n]) == (multiset(rs[..n]) + multiset{qs[k]}) - multiset{qs[k]};
  }

  lemma {:induction false} SumIgnoresOrder(rs: seq<Response>, qs: seq<Response>, f: Response -> int)
    requires multiset(rs) == multiset(qs)
    ensures Sum(rs, f) == Sum(qs, f)
  {
    assert |rs| == |multiset(rs)| == |multiset(qs)| == |qs|;
    if rs != [] {
      var n := |rs| - 1;
      assert rs[n] in multiset(qs);
      var k :| 0 <= k < |qs| && qs[k] == rs[n];
      SameWithoutOne(rs, qs, k);
      SumIgnoresOrder(rs[..n], qs[..k] + qs[k + 1..], f);
      SumRemoves(qs, k, f);
    }
  }

  /** Any two orders of arrival of responses of equal length agree on every quantity of every result. */
  lemma ArrivalOrderIrrelevant(rs: seq<Response>, qs: seq<Response>, n: nat, i: nat, m: Measure)
    requires rs != [] && multiset(rs) == multiset(qs) && i < n
    requires forall r | r in rs :: |r.results| == n
    ensures MergeAll(rs).Running? && MergeAll(qs).Running?
    ensures Value(Result(rs, i), m) == Value(Result(qs, i), m) == Sum(rs, Part(i, m))
  {
    assert |rs| == |multiset(rs)| == |multiset(qs)| == |qs|;
    forall r | r in qs ensures |r.results| == n {
      assert r in multiset(rs);
    }
    assert rs[0] in rs && qs[0] in qs;
    PanicsIff(rs);
    PanicsIff(qs);
    MergedIsSum(rs, i, m);
    MergedIsSum(qs, i, m);
    SumIgnoresOrder(rs, qs, Part(i, m));
  }

  // ---- One related entry per kind ----------------------------------------------------------------------------

  ghost predicate DistinctKinds(related: seq<Related>) {
    Distinct(Kinds(related))
  }

  predicate HasKind(related: seq<Related>, kind: string) {
    kind in Kinds(related)
  }

  lemma {:induction false} AbsorbKinds(merged: seq<Related>, e: Related)
    ensures Kinds(Absorb(merged, e)) == Kinds(merged) + if HasKind(merged, e.kind) then [] else [e.kind]
  {
    if merged == [] {
      assert Kinds([e]) == [e.kind];
    } else if merged[0].kind == e.kind {
      assert Kinds(merged)[0] == e.kind;
      assert Kinds(Absorb(merged, e)) == Kinds(merged);
    } else {
      AbsorbKinds(merged[1..], e);
      assert Absorb(merged, e)[1..] == Absorb(merged[1..], e);
    }
  }

  lemma {:induction false} AbsorbAllKinds(merged: seq<Related>, added: seq<Related>)
    ensures Kinds(AbsorbAll(merged, added)) == AddNew(Kinds(merged), Kinds(added))
  {
    if added != [] {
      var init, last := added[..|added| - 1], added[|added| - 1];
      AbsorbAllKinds(merged, init);
      AbsorbKinds(AbsorbAll(merged, init), last);
      assert Kinds(added)[..|added| - 1] == Kinds(init);
    }
  }

  /** The related list of the first response, in order of arrival, that has one at this result. */
  function FirstRelated(rs: seq<Response>, i: nat): seq<Related> {
    if rs == [] then []
    else
      var first := FirstRelated(rs[..|rs| - 1], i);
      var last := rs[|rs| - 1];
      if first != [] then first else if i < |last.results| then last.results[i].related else []
  }

  /** The kinds named by some response. */
  ghost predicate SomeHasKind(rs: seq<Response>, i: nat, k: string) {
    exists r | r in rs :: i < |r.results| && HasKind(r.results[i].related, k)
  }

  lemma MergeOneKinds(acc: SearchResult, r: SearchResult, hub: string)
    ensures var m := MergeOne(acc, r, hub).related;
      && (forall k :: HasKind(m, k) <==> HasKind(acc.related, k) || HasKind(r.related, k))
      && (DistinctKinds(m) <==> DistinctKinds(if acc.related != [] then acc.related else r.related))
      && (m == [] <==> acc.related == [] && r.related == [])
  {
    var tagged := TagRelated(r.related, hub);
    assert Kinds(tagged) == Kinds(r.related);
    if r.related != [] && acc.related != [] {
      AbsorbAllKinds(acc.related, tagged);
      AddNewIsUnion(Kinds(acc.related), Kinds(tagged));
    }
  }

  /**
   Exactly one related entry per kind named by some response, if and only if the first response that names
   any kind names each once: later lists are folded in by kind, the first one is taken as it is.
  */
  lemma {:induction false} OneEntryPerKindIff(rs: seq<Response>, i: nat)
    requires rs != [] && MergeAll(rs).Running? && i < |rs[0].results|
    ensures forall k :: HasKind(Result(rs, i).related, k) <==> SomeHasKind(rs, i, k)
    ensures DistinctKinds(Result(rs, i).related) <==> DistinctKinds(FirstRelated(rs, i))
    ensures Result(rs, i).related == [] <==> FirstRelated(rs, i) == []
  {
    var init, last := rs[..|rs| - 1], rs[|rs| - 1];
    assert rs == init + [last];
    assert init != [] ==> init[0] == rs[0];
    ResultArrives(init, last, i);
    KindsArrive(init, last, i);
    if init == [] {
      assert Result(init, i) == NOTHING && FirstRelated(init, i) == [];
      assert forall k :: !HasKind(NOTHING.related, k) && !SomeHasKind(init, i, k);
    } else {
      OneEntryPerKindIff(init, i);
    }
    if i < |last.results| {
      MergeOneKinds(Result(init, i), last.results[i], last.hub);
    }
  }

  lemma KindsArrive(init: seq<Response>, last: Response, i: nat)
    ensures forall k :: SomeHasKind(init + [last], i, k) <==>
                        SomeHasKind(init, i, k) || (i < |last.results| && HasKind(last.results[i].related, k))
  {
    assert forall r :: r in init + [last] <==> r in init || r == last;
  }

  /** The shape of the result can depend on the order: a hub that repeats a kind, first or second. */
  lemma RepeatedKindDependsOnOrder(twice: Response, once: Response)
    requires twice == Response("a", [SearchResult(0, [], [Related("Pod", 1, []), Related("Pod", 2, [])])])
    requires once == Response("b", [SearchResult(0, [], [Related("Pod", 4, [])])])
    ensures MergeAll([twice, once]).Running? && MergeAll([once, twice]).Running?
    ensures !DistinctKinds(Result([twice, once], 0).related) && DistinctKinds(Result([once, twice], 0).related)
  {
    PanicsIff([twice, once]);
    PanicsIff([once, twice]);
    FirstOfTwo(twice, once);
    FirstOfTwo(once, twice);
    OneEntryPerKindIff([twice, once], 0);
    OneEntryPerKindIff([once, twice], 0);
    var r := twice.results[0].related;
    assert r[0].kind == r[1].kind;
  }

  lemma FirstOfTwo(a: Response, b: Response)
    requires |a.results| > 0 && a.results[0].related != []
    ensures FirstRelated([a, b], 0) == a.results[0].related
  {
    assert [a, b][..1] == [a] && [a][..0] == [];
    assert FirstRelated([], 0) == [];
    assert FirstRelated([a], 0) == a.results[0].related;
  }
}

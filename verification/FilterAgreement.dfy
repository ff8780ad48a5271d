/**
 Two implementations of the same filters: the WHERE clause of a search (WhereClauseFilter,
 pkg/resolver/search.go, and its helpers) and the event filter of a watch (eventMatchesAllFilters,
 pkg/resolver/watchSubscription.go).
*/
module FilterAgreement {
  import opened Prelude
  import opened Wildcard
  import opened Sql
  import opened Sorting
  import opened Operators

  datatype Filter = Filter(property: string, values: seq<string>)
  datatype SearchInput = SearchInput(keywords: seq<string>, filters: seq<Filter>)

  // A condition of the WHERE list, before it is rendered: a keyword, 1 = 0, or for a property the groups of
  // operands by operator, any of which may hold.
  datatype Group = Group(operator: string, values: seq<string>)
  datatype Clause = KeywordLike(pattern: string) | Nothing | AnyOf(property: string, dataType: string, groups: seq<Group>)
  datatype Where = Where(clauses: seq<Clause>, propTypes: map<string, string>) | Failed

  // ---- WhereClauseFilter -------------------------------------------------------------------------------------

  /** The groups list the map in the order of its keys. */
  ghost predicate Lists(groups: seq<Group>, m: Groups) {
    && |groups| == |m|
    && (forall i | 0 <= i < |groups| :: groups[i].operator in m && groups[i].values == m[groups[i].operator])
    && (forall i, j | 0 <= i < j < |groups| ::
          groups[i].operator != groups[j].operator && StringLe(groups[i].operator, groups[j].operator))
  }

  /** The clause of one filter whose property has the given type. */
  ghost predicate IsClause(c: Clause, f: Filter, dataType: string, ago: string -> string) {
    && c.AnyOf? && c.property == f.property && c.dataType == dataType
    && exists decoded, m :: DecodesTo(f.values, dataType, decoded) && Dispatched(m, decoded, dataType, ago) && Lists(c.groups, m)
  }

  ghost predicate DecodesTo(values: seq<string>, dataType: string, decoded: seq<string>) {
    if dataType != "object" && dataType != "array" then decoded == values
    else |decoded| == |values| && forall k | 0 <= k < |values| ::
      && Rewritten(OperandOf(values[k]), IsPartial(values), dataType).Some?
      && OperatorOf(decoded[k]) == OperatorOf(values[k])
      && OperandOf(decoded[k]) == Rewritten(OperandOf(values[k]), IsPartial(values), dataType).value
  }

  predicate BadValues(values: seq<string>, dataType: string) {
    exists k | 0 <= k < |values| :: Rewritten(OperandOf(values[k]), IsPartial(values), dataType).None?
  }

  method GroupsByKey(m: Groups) returns (groups: seq<Group>)
    ensures Lists(groups, m)
  {
    var keys := GetKeys(m.Keys);
    groups := [];
    for i := 0 to |keys|
      invariant |groups| == i && forall k | 0 <= k < i :: groups[k] == Group(keys[k], m[keys[k]])
    {
      groups := groups + [Group(keys[i], m[keys[i]])];
    }
  }

  // One filter whose property type is known; None when a label value is malformed.
  method FilterClause(f: Filter, dataType: string, ago: string -> string) returns (c: Option<Clause>)
    ensures c.None? <==> BadValues(f.values, dataType)
    ensures c.Some? ==> IsClause(c.value, f, dataType, ago)
  {
    var decoded := DecodePropertyTypes(f.values, dataType);
    if decoded.BadLabel? {
      return None;
    }
    var values := new string[|decoded.values|](i requires 0 <= i < |decoded.values| => decoded.values[i]);
    assert values[..] == decoded.values;
    var m := MatchOperatorToProperty(dataType, values, ago);
    var groups := GroupsByKey(m);
    assert DecodesTo(f.values, dataType, decoded.values);
    c := Some(AnyOf(f.property, dataType, groups));
  }

  /**
   The result r follows from the filters from i on, with the types known and the clauses collected so far.
   `refresh(i)` is the answer when filter i asks for the property types again; None is an error.
  */
  ghost predicate Builds(filters: seq<Filter>, i: nat, types: map<string, string>, refresh: nat -> Option<map<string, string>>,
                         ago: string -> string, collected: seq<Clause>, r: Where)
    requires i <= |filters|
    decreases |filters| - i
  {
    if i == |filters| then r == Where(collected, types)
    else
      var f := filters[i];
      if f.values == [] then Builds(filters, i + 1, types, refresh, ago, collected, r)
      else if f.property in types then BuildsTyped(filters, i, types, refresh, ago, collected, r)
      else if refresh(i).None? then r == Failed
      else if f.property !in refresh(i).value then r == Where(collected + [Nothing], refresh(i).value)
      else BuildsTyped(filters, i, refresh(i).value, refresh, ago, collected, r)
  }

  ghost predicate BuildsTyped(filters: seq<Filter>, i: nat, types: map<string, string>, refresh: nat -> Option<map<string, string>>,
                              ago: string -> string, collected: seq<Clause>, r: Where)
    requires i < |filters| && filters[i].property in types
    decreases |filters| - i, 0
  {
    var f, dataType := filters[i], types[filters[i].property];
    if BadValues(f.values, dataType) then r == Failed
    else exists c :: IsClause(c, f, dataType, ago) && Builds(filters, i + 1, types, refresh, ago, collected + [c], r)
  }

  /** One clause per keyword, which may occur anywhere. */
  function KeywordLikes(keywords: seq<string>): (clauses: seq<Clause>)
    ensures |clauses| == |keywords| && forall k | 0 <= k < |keywords| :: clauses[k] == KeywordLike("%" + keywords[k] + "%")
  {
    if keywords == [] then [] else KeywordLikes(keywords[..|keywords| - 1]) + [KeywordLike("%" + keywords[|keywords| - 1] + "%")]
  }

  method KeywordClauses(keywords: seq<string>) returns (clauses: seq<Clause>)
    ensures clauses == KeywordLikes(keywords)
  {
    clauses := [];
    for i := 0 to |keywords|
      invariant clauses == KeywordLikes(keywords[..i])
    {
      assert keywords[..i + 1][..i] == keywords[..i];
      clauses := clauses + [KeywordLike("%" + keywords[i] + "%")];
    }
    assert keywords[..|keywords|] == keywords;
  }

  method WhereClauseFilter(input: SearchInput, propTypes: map<string, string>, refresh: nat -> Option<map<string, string>>,
                           ago: string -> string) returns (r: Where)
    ensures Builds(input.filters, 0, propTypes, refresh, ago, KeywordLikes(input.keywords), r)
  {
    var whereDs := KeywordClauses(input.keywords);
    ghost var keywords := whereDs;
    var filters, types := input.filters, propTypes;
    var i := 0;
    while i < |filters|
      invariant 0 <= i <= |filters|
      invariant forall r :: Builds(filters, i, types, refresh, ago, whereDs, r) ==>
                            Builds(filters, 0, propTypes, refresh, ago, keywords, r)
    {
      var filter := filters[i];
      if |filter.values| == 0 {
        i := i + 1;
        continue;
      }
      var known := types;
      if filter.property !in types {
        var refreshed := refresh(i);
        if refreshed.None? {
          return Failed;
        }
        types := refreshed.value;
        if filter.property !in types {
          return Where(whereDs + [Nothing], types);
        }
      }
      assert forall r :: BuildsTyped(filters, i, types, refresh, ago, whereDs, r) ==>
                         Builds(filters, i, known, refresh, ago, whereDs, r);
      var c := FilterClause(filter, types[filter.property], ago);
      if c.None? {
        assert BuildsTyped(filters, i, types, refresh, ago, whereDs, Failed);
        return Failed;
      }
      whereDs := whereDs + [c.value];
      i := i + 1;
    }
    r := Where(whereDs, types);
  }

  // ---- Rendering the clauses of string properties (getWhereClauseExpression) ------------------------------------

  predicate OrdinaryProperty(property: string) {
    property != "" && property != "kind" && property != "cluster" && property != "label" && property != "managedHub"
  }

  /** A clause of an ordinary string property with equality operators only. */
  predicate StringClause(c: Clause) {
    c.AnyOf? && OrdinaryProperty(c.property) && c.dataType == "string" &&
    forall i | 0 <= i < |c.groups| :: c.groups[i].operator == "=" || c.groups[i].operator == "=:*"
  }

  function Likes(property: string, values: seq<string>): (r: seq<Expr>)
    ensures |r| == |values| && forall k | 0 <= k < |values| :: r[k] == PropLike(property, values[k])
  {
    if values == [] then [] else [PropLike(property, values[0])] + Likes(property, values[1..])
  }

  // "=" lists the values; "=:*" has a LIKE for each.
  function GetWhereClauseExpression(property: string, g: Group): seq<Expr> {
    if g.operator == "=:*" then Likes(property, g.values) else [PropIn(property, g.values)]
  }

  function OfGroups(property: string, groups: seq<Group>): seq<Expr> {
    if groups == [] then [] else GetWhereClauseExpression(property, groups[0]) + OfGroups(property, groups[1..])
  }

  function Render(c: Clause): Expr
    requires StringClause(c)
  {
    Or(OfGroups(c.property, c.groups))
  }

  function RenderAll(clauses: seq<Clause>): (r: seq<Expr>)
    requires forall c | c in clauses :: StringClause(c)
    ensures |r| == |clauses| && forall k | 0 <= k < |clauses| :: r[k] == Render(clauses[k])
  {
    if clauses == [] then [] else [Render(clauses[0])] + RenderAll(clauses[1..])
  }

  // ---- eventMatchesAllFilters ------------------------------------------------------------------------------------

  // Comparisons that are parameters: `fold` is strings.EqualFold, `lower` strings.ToLower, and `order` the
  // numeric or textual <, <=, >, >=.
  datatype Compare = Compare(fold: (string, string) -> bool, lower: string -> string, order: (string, string, string) -> bool)

  function CompareWithOperator(operator: string, property: string, value: string, cmp: Compare): bool {
    if operator == "=" then property == value
    else if operator == "!" || operator == "!=" then property != value
    else cmp.order(operator, property, value)
  }

  /** One filter value against the property's value. */
  predicate ValueMatches(property: string, actual: string, filterValue: string, cmp: Compare) {
    var operator, value := OperatorOf(filterValue), OperandOf(filterValue);
    if '*' in value then operator == "=" && MatchesWildcard(actual, value)
    else if property == "kind" && (operator == "=" || operator == "!" || operator == "!=") then
      cmp.fold(actual, value) == (operator == "=")
    else CompareWithOperator(operator, actual, value, cmp)
  }

  predicate AnyValueMatches(f: Filter, actual: string, cmp: Compare) {
    exists v | v in f.values :: ValueMatches(f.property, actual, v, cmp)
  }

  predicate FilterMatches(data: map<string, string>, f: Filter, cmp: Compare) {
    f.property == "" || (f.property in data && AnyValueMatches(f, data[f.property], cmp))
  }

  predicate KeywordMatches(data: map<string, string>, keyword: string, cmp: Compare) {
    exists k | k in data :: Contains(cmp.lower(data[k]), cmp.lower(keyword))
  }

  /** The event's data passes all keywords and all filters. */
  predicate Accepts(data: map<string, string>, input: SearchInput, cmp: Compare) {
    && (forall k | k in input.keywords :: KeywordMatches(data, k, cmp))
    && (forall f | f in input.filters :: FilterMatches(data, f, cmp))
  }

  method MatchFilter(data: map<string, string>, f: Filter, cmp: Compare) returns (ok: bool)
    ensures ok <==> FilterMatches(data, f, cmp)
  {
    if f.property == "" {
      return true;
    }
    if f.property !in data {
      return false;
    }
    if |f.values| == 0 {
      return false;
    }
    var actual := data[f.property];
    for i := 0 to |f.values|
      invariant forall k | 0 <= k < i :: !ValueMatches(f.property, actual, f.values[k], cmp)
    {
      var operator, value := GetOperatorFromString(f.values[i]);
      if '*' in value {
        if operator != "=" {
          continue;
        }
        if MatchesWildcard(actual, value) {
          assert ValueMatches(f.property, actual, f.values[i], cmp);
          return true;
        }
        continue;
      }
      if f.property == "kind" && (operator == "=" || operator == "!" || operator == "!=") {
        var isEqual := cmp.fold(actual, value);
        if (operator == "=" && isEqual) || ((operator == "!" || operator == "!=") && !isEqual) {
          assert ValueMatches(f.property, actual, f.values[i], cmp);
          return true;
        }
        continue;
      }
      if CompareWithOperator(operator, actual, value, cmp) {
        assert ValueMatches(f.property, actual, f.values[i], cmp);
        return true;
      }
    }
    return false;
  }

  method MatchKeyword(data: map<string, string>, keyword: string, cmp: Compare) returns (found: bool)
    ensures found <==> KeywordMatches(data, keyword, cmp)
  {
    var keywordLower := cmp.lower(keyword);
    var rest := data.Keys;
    while rest != {}
      invariant rest <= data.Keys && forall k | k in data && k !in rest :: !Contains(cmp.lower(data[k]), cmp.lower(keyword))
    {
      var k :| k in rest;
      if Contains(cmp.lower(data[k]), keywordLower) {
        return true;
      }
      rest := rest - {k};
    }
    found := false;
  }

  // The data of an insert or update, or else of the deleted row. A missing input accepts everything.
  method EventMatchesAllFilters(newData: Option<map<string, string>>, oldData: Option<map<string, string>>,
                                input: Option<SearchInput>, cmp: Compare) returns (ok: bool)
    ensures input.None? ==> ok
    ensures input.Some? && newData.None? && oldData.None? ==> !ok
    ensures input.Some? && newData.Some? ==> (ok <==> Accepts(newData.value, input.value, cmp))
    ensures input.Some? && newData.None? && oldData.Some? ==> (ok <==> Accepts(oldData.value, input.value, cmp))
  {
    if input.None? {
      return true;
    }
    var eventData := if newData.Some? then newData else oldData;
    if eventData.None? {
      return false;
    }
    var data, keywords, filters := eventData.value, input.value.keywords, input.value.filters;
    for i := 0 to |keywords|
      invariant forall k | k in keywords[..i] :: KeywordMatches(data, k, cmp)
    {
      var found := MatchKeyword(data, keywords[i], cmp);
      if !found {
        return false;
      }
      assert keywords[..i + 1] == keywords[..i] + [keywords[i]];
    }
    assert keywords[..|keywords|] == keywords;
    for i := 0 to |filters|
      invariant forall f | f in filters[..i] :: FilterMatches(data, f, cmp)
    {
      var matched := MatchFilter(data, filters[i], cmp);
      if !matched {
        return false;
      }
      assert filters[..i + 1] == filters[..i] + [filters[i]];
    }
    assert filters[..|filters|] == filters;
    return true;
  }

  // ---- Agreement ---------------------------------------------------------------------------------------------

  /**
   A filter on which the two sides agree: an ordinary property, at least one value, only equalities, and, if
   some value has a star, no value with another character that LIKE treats specially.
  */
  predicate Agreeable(f: Filter) {
    && OrdinaryProperty(f.property) && f.values != []
    && (forall v | v in f.values :: OperatorOf(v) == "=")
    && (IsPartial(f.values) ==> forall v | v in f.values :: LikeFree(OperandOf(v)))
  }

  // A value with operator "=" is its operand, or "=" and its operand.
  lemma EqualityShape(v: string)
    requires OperatorOf(v) == "="
    ensures v == OperandOf(v) || v == "=" + OperandOf(v)
    ensures '*' in v <==> '*' in OperandOf(v)
    ensures v == OperandOf(v) ==> v == [] || v[0] != '='
  {
    OneCharPrefix(v, '=');
    if HasPrefix(v, "=") {
      assert v == "=" + v[1..];
    }
  }

  // The LIKE rewrite of a value leaves its operator alone.
  lemma RewriteKeepsOperator(v: string)
    requires OperatorOf(v) == "="
    ensures OperatorOf(ToLike(v)) == "=" && OperandOf(ToLike(v)) == ToLike(OperandOf(v))
  {
    EqualityShape(v);
    OperatorByStart(v);
    OperatorByStart(ToLike(v));
    OneCharPrefix(ToLike(v), '=');
    if v != [] {
      ToLikeUnit(v);
      assert ToLike(v)[1..] == ToLike(v[1..]);
      OneCharPrefix(v, '=');
    }
  }

  lemma {:induction false} GlobWithoutStar(p: string, v: string)
    requires '*' !in p
    ensures Glob(p, v) <==> p == v
  {
    if p != [] && v != [] {
      GlobWithoutStar(p[1..], v[1..]);
      assert p == [p[0]] + p[1..] && v == [v[0]] + v[1..];
    }
  }

  // If every value has the same key, one group holds all operands.
  lemma {:induction false} OneKey(filed: seq<Filed>, key: string)
    requires forall k | 0 <= k < |filed| :: filed[k].key == key
    ensures |Under(filed, key)| == |filed| && forall k | 0 <= k < |filed| :: Under(filed, key)[k] == filed[k].operand
    ensures forall other | other != key :: Under(filed, other) == []
  {
    if filed != [] {
      OneKey(filed[..|filed| - 1], key);
    }
  }

  lemma OneGroup(m: Groups, filed: seq<Filed>, key: string, groups: seq<Group>)
    requires filed != [] && forall k | 0 <= k < |filed| :: filed[k].key == key
    requires Grouped(map[], m, filed) && Lists(groups, m)
    ensures |groups| == 1 && groups[0].operator == key && |groups[0].values| == |filed|
    ensures forall k | 0 <= k < |filed| :: groups[0].values[k] == filed[k].operand
  {
    OneKey(filed, key);
    forall other ensures other in m <==> other == key {
      assert EntryGrew(map[], m, filed, other);
    }
    assert EntryGrew(map[], m, filed, key);
    assert m.Keys == {key};
    assert |m| == |m.Keys| == 1;
  }

  // The operands of the one group, as the search sees them.
  ghost predicate GroupFor(g: Group, f: Filter) {
    && g.operator == (if IsPartial(f.values) then "=:*" else "=")
    && |g.values| == |f.values|
    && forall k | 0 <= k < |f.values| ::
         g.values[k] == if IsPartial(f.values) then ToLike(OperandOf(f.values[k])) else OperandOf(f.values[k])
  }

  lemma PartialFiled(f: Filter)
    requires Agreeable(f)
    ensures forall k | 0 <= k < |f.values| ::
              FiledAs(Starred(f.values), "*")[k] == Filed("=:*", ToLike(OperandOf(f.values[k])))
  {
    forall k | 0 <= k < |f.values|
      ensures FiledAs(Starred(f.values), "*")[k] == Filed("=:*", ToLike(OperandOf(f.values[k]))) {
      assert f.values[k] in f.values;
      RewriteKeepsOperator(f.values[k]);
    }
  }

  lemma ClauseHasOneGroup(c: Clause, f: Filter, ago: string -> string)
    requires Agreeable(f) && IsClause(c, f, "string", ago)
    ensures |c.groups| == 1 && GroupFor(c.groups[0], f) && StringClause(c)
  {
    var decoded, m :| DecodesTo(f.values, "string", decoded) && Dispatched(m, decoded, "string", ago) && Lists(c.groups, m);
    if IsPartial(f.values) {
      PartialFiled(f);
      OneGroup(m, FiledAs(Starred(f.values), "*"), "=:*", c.groups);
    } else {
      OneGroup(m, FiledAs(f.values, ""), "=", c.groups);
    }
  }

  lemma WatchMeans(f: Filter, actual: string, v: string, cmp: Compare)
    requires Agreeable(f) && v in f.values && (IsPartial(f.values) ==> OneLine(actual))
    ensures ValueMatches(f.property, actual, v, cmp) <==>
            if IsPartial(f.values) then Glob(OperandOf(v), actual) else actual == OperandOf(v)
  {
    EqualityShape(v);
    StarIsContained(v);
    var x := OperandOf(v);
    if '*' in x {
      assert IsPartial(f.values) by { assert Contains(v, "*") && "*" in ["*"]; }
      MatchesWildcardOnOneLine(actual, x);
    } else {
      GlobWithoutStar(x, actual);
    }
  }

  lemma LikesMean(property: string, values: seq<string>, row: Row)
    ensures (exists e | e in Likes(property, values) :: Eval(e, row) == T) <==>
            property in row.data && exists v | v in values :: Like(v, row.data[property])
    ensures forall e | e in Likes(property, values) :: !IsEmpty(e)
  {
    var es := Likes(property, values);
    if e :| e in es && Eval(e, row) == T {
      var k :| 0 <= k < |es| && es[k] == e;
      assert values[k] in values;
    }
    if property in row.data {
      if v :| v in values && Like(v, row.data[property]) {
        var k :| 0 <= k < |values| && values[k] == v;
        assert es[k] == PropLike(property, v) && Eval(es[k], row) == T;
        assert es[k] in es;
      }
    }
  }

  // What the one group selects.
  lemma OneGroupRenders(c: Clause, row: Row)
    requires StringClause(c) && |c.groups| == 1 && c.groups[0].values != []
    ensures !IsEmpty(Render(c))
    ensures c.groups[0].operator == "=:*" ==> (Eval(Render(c), row) == T <==>
              c.property in row.data && exists v | v in c.groups[0].values :: Like(v, row.data[c.property]))
    ensures c.groups[0].operator == "=" ==> (Eval(Render(c), row) == T <==>
              c.property in row.data && row.data[c.property] in c.groups[0].values)
  {
    var g := c.groups[0];
    var es := OfGroups(c.property, c.groups);
    assert c.groups[1..] == [] && OfGroups(c.property, c.groups[1..]) == [];
    assert es == GetWhereClauseExpression(c.property, g) + [];
    assert es == GetWhereClauseExpression(c.property, g);
    OrMeans(es, row);
    assert es[0] in es;
    if g.operator == "=:*" {
      LikesMean(c.property, g.values, row);
    } else {
      assert es == [PropIn(c.property, g.values)] && es[0] == PropIn(c.property, g.values);
      assert forall e | e in es :: e == es[0];
    }
  }

  // Some value of the filter in terms of the operands of the group.
  lemma SomeOperand(g: Group, f: Filter, actual: string)
    requires GroupFor(g, f)
    ensures IsPartial(f.values) ==>
            ((exists x | x in g.values :: Like(x, actual)) <==> exists v | v in f.values :: Like(ToLike(OperandOf(v)), actual))
    ensures !IsPartial(f.values) ==> (actual in g.values <==> exists v | v in f.values :: actual == OperandOf(v))
  {
    forall v | v in f.values ensures (if IsPartial(f.values) then ToLike(OperandOf(v)) else OperandOf(v)) in g.values {
      var k :| 0 <= k < |f.values| && f.values[k] == v;
      assert g.values[k] in g.values;
    }
    forall x | x in g.values
      ensures exists v | v in f.values :: x == if IsPartial(f.values) then ToLike(OperandOf(v)) else OperandOf(v) {
      var k :| 0 <= k < |g.values| && g.values[k] == x;
      assert f.values[k] in f.values;
    }
  }

  lemma SearchMeans(c: Clause, f: Filter, row: Row)
    requires Agreeable(f) && StringClause(c) && c.property == f.property && |c.groups| == 1 && GroupFor(c.groups[0], f)
    ensures !IsEmpty(Render(c))
    ensures Eval(Render(c), row) == T <==> f.property in row.data && exists v | v in f.values ::
              if IsPartial(f.values) then Like(ToLike(OperandOf(v)), row.data[f.property]) else row.data[f.property] == OperandOf(v)
  {
    OneGroupRenders(c, row);
    if f.property in row.data {
      SomeOperand(c.groups[0], f, row.data[f.property]);
    }
  }

  /** One filter: the search's clause holds of a row exactly if the watch's filter accepts its data. */
  lemma FilterAgrees(c: Clause, f: Filter, ago: string -> string, row: Row, cmp: Compare)
    requires Agreeable(f) && IsClause(c, f, "string", ago)
    requires f.property in row.data && IsPartial(f.values) ==> OneLine(row.data[f.property])
    ensures StringClause(c) && !IsEmpty(Render(c))
    ensures Eval(Render(c), row) == T <==> FilterMatches(row.data, f, cmp)
  {
    ClauseHasOneGroup(c, f, ago);
    SearchMeans(c, f, row);
    if f.property in row.data {
      forall v | v in f.values
        ensures ValueMatches(f.property, row.data[f.property], v, cmp) <==>
                if IsPartial(f.values) then Like(ToLike(OperandOf(v)), row.data[f.property])
                else row.data[f.property] == OperandOf(v) {
        WatchMeans(f, row.data[f.property], v, cmp);
        if IsPartial(f.values) {
          LikeIsGlob(OperandOf(v), row.data[f.property]);
        }
      }
    }
  }

  ghost predicate AgreesWhereOneLine(c: Clause, f: Filter, cmp: Compare)
    requires StringClause(c)
  {
    forall row: Row | f.property in row.data ==> OneLine(row.data[f.property]) ::
      Eval(Render(c), row) == T <==> FilterMatches(row.data, f, cmp)
  }

  /**
   For a filter with a single equality value on one line, the condition is exact: the two sides agree on all
   rows whose property is free of newlines iff the value has no star or is free of LIKE's other characters.
  */
  lemma SingleValueAgreesIff(c: Clause, f: Filter, v: string, ago: string -> string, cmp: Compare)
    requires OrdinaryProperty(f.property) && f.values == [v] && OperatorOf(v) == "=" && OneLine(OperandOf(v))
    requires IsClause(c, f, "string", ago)
    ensures StringClause(c) && (AgreesWhereOneLine(c, f, cmp) <==> '*' !in OperandOf(v) || LikeFree(OperandOf(v)))
  {
    OneValueGroup(c, f, v, ago);
    if '*' !in OperandOf(v) || LikeFree(OperandOf(v)) {
      SingleValueIsAgreeable(f, v);
      forall row: Row | f.property in row.data ==> OneLine(row.data[f.property])
        ensures Eval(Render(c), row) == T <==> FilterMatches(row.data, f, cmp) {
        FilterAgrees(c, f, ago, row, cmp);
      }
    } else {
      var row := DistinguishedRow(c, f, v, ago, cmp);
    }
  }

  lemma SingleValueIsAgreeable(f: Filter, v: string)
    requires OrdinaryProperty(f.property) && f.values == [v] && OperatorOf(v) == "="
    requires '*' !in OperandOf(v) || LikeFree(OperandOf(v))
    ensures Agreeable(f)
  {
    StarIsContained(v);
    EqualityShape(v);
  }

  // A row on which the two sides part.
  lemma DistinguishedRow(c: Clause, f: Filter, v: string, ago: string -> string, cmp: Compare) returns (row: Row)
    requires OrdinaryProperty(f.property) && f.values == [v] && OperatorOf(v) == "=" && OneLine(OperandOf(v))
    requires IsClause(c, f, "string", ago) && '*' in OperandOf(v) && !LikeFree(OperandOf(v))
    ensures StringClause(c) && f.property in row.data && OneLine(row.data[f.property])
    ensures !(Eval(Render(c), row) == T <==> FilterMatches(row.data, f, cmp))
  {
    StarIsContained(v);
    EqualityShape(v);
    assert v in f.values && "*" in ["*"];
    OneValueGroup(c, f, v, ago);
    var w := Distinguished(OperandOf(v));
    row := Row("", map[f.property := w]);
    OneGroupRenders(c, row);
    MatchesWildcardOnOneLine(w, OperandOf(v));
    assert AnyValueMatches(f, w, cmp) <==> ValueMatches(f.property, w, v, cmp);
  }

  lemma OneValueGroup(c: Clause, f: Filter, v: string, ago: string -> string)
    requires OrdinaryProperty(f.property) && f.values == [v] && OperatorOf(v) == "=" && IsClause(c, f, "string", ago)
    ensures StringClause(c) && |c.groups| == 1
    ensures IsPartial(f.values) ==> c.groups[0] == Group("=:*", [ToLike(OperandOf(v))])
  {
    var decoded, m :| DecodesTo(f.values, "string", decoded) && Dispatched(m, decoded, "string", ago) && Lists(c.groups, m);
    if IsPartial(f.values) {
      RewriteKeepsOperator(v);
      OneGroup(m, FiledAs(Starred(f.values), "*"), "=:*", c.groups);
    } else {
      OneGroup(m, FiledAs(f.values, ""), "=", c.groups);
    }
  }

  /** The property types, refreshed where needed, say string for every filter from i on. */
  predicate StringTyped(filters: seq<Filter>, i: nat, types: map<string, string>, refresh: nat -> Option<map<string, string>>)
    requires i <= |filters|
    decreases |filters| - i
  {
    i == |filters| ||
    var p := filters[i].property;
    if p in types then types[p] == "string" && StringTyped(filters, i + 1, types, refresh)
    else refresh(i).Some? && p in refresh(i).value && refresh(i).value[p] == "string" &&
         StringTyped(filters, i + 1, refresh(i).value, refresh)
  }

  ghost predicate LinesOk(filters: seq<Filter>, row: Row) {
    forall f | f in filters :: f.property in row.data && IsPartial(f.values) ==> OneLine(row.data[f.property])
  }

  ghost predicate AgreesOn(c: Clause, f: Filter, row: Row, cmp: Compare) {
    StringClause(c) && !IsEmpty(Render(c)) && (Eval(Render(c), row) == T <==> FilterMatches(row.data, f, cmp))
  }

  // The clauses collected are those of the filters so far, one each.
  ghost predicate AgreeSoFar(clauses: seq<Clause>, filters: seq<Filter>, row: Row, cmp: Compare) {
    |clauses| == |filters| && forall k | 0 <= k < |clauses| :: AgreesOn(clauses[k], filters[k], row, cmp)
  }

  // A typed, agreeable filter adds its clause and goes on.
  lemma NextClause(filters: seq<Filter>, i: nat, types: map<string, string>, refresh: nat -> Option<map<string, string>>,
                   ago: string -> string, collected: seq<Clause>, r: Where, row: Row, cmp: Compare)
      returns (types': map<string, string>, c: Clause)
    requires i < |filters| && Builds(filters, i, types, refresh, ago, collected, r)
    requires Agreeable(filters[i]) && StringTyped(filters, i, types, refresh)
    requires filters[i].property in row.data && IsPartial(filters[i].values) ==> OneLine(row.data[filters[i].property])
    ensures AgreesOn(c, filters[i], row, cmp) && StringTyped(filters, i + 1, types', refresh)
    ensures Builds(filters, i + 1, types', refresh, ago, collected + [c], r)
  {
    var f := filters[i];
    types' := if f.property in types then types else refresh(i).value;
    assert BuildsTyped(filters, i, types', refresh, ago, collected, r);
    assert !BadValues(f.values, "string");
    c :| IsClause(c, f, "string", ago) && Builds(filters, i + 1, types', refresh, ago, collected + [c], r);
    FilterAgrees(c, f, ago, row, cmp);
  }

  lemma {:induction false} AgreesFrom(filters: seq<Filter>, i: nat, types: map<string, string>,
                                      refresh: nat -> Option<map<string, string>>, ago: string -> string,
                                      collected: seq<Clause>, r: Where, row: Row, cmp: Compare)
    requires i <= |filters| && Builds(filters, i, types, refresh, ago, collected, r)
    requires (forall f | f in filters :: Agreeable(f)) && StringTyped(filters, i, types, refresh) && LinesOk(filters, row)
    requires AgreeSoFar(collected, filters[..i], row, cmp)
    ensures r.Where? && AgreeSoFar(r.clauses, filters, row, cmp)
    decreases |filters| - i
  {
    if i == |filters| {
      assert filters[..i] == filters;
    } else {
      assert filters[i] in filters;
      var types', c := NextClause(filters, i, types, refresh, ago, collected, r, row, cmp);
      assert filters[..i + 1] == filters[..i] + [filters[i]];
      AgreesFrom(filters, i + 1, types', refresh, ago, collected + [c], r, row, cmp);
    }
  }

  // A conjunction whose parts hold as the given truths do.
  lemma ConjunctionOf(es: seq<Expr>, holds: seq<bool>, row: Row)
    requires |es| == |holds| && forall k | 0 <= k < |es| :: !IsEmpty(es[k]) && (Eval(es[k], row) == T <==> holds[k])
    ensures Selects(And(es), row) <==> forall k | 0 <= k < |holds| :: holds[k]
  {
    AndMeans(es, row);
    if forall k | 0 <= k < |holds| :: holds[k] {
      forall e | e in es ensures Eval(e, row) == T {
        var k :| 0 <= k < |es| && es[k] == e;
      }
    } else {
      var k :| 0 <= k < |holds| && !holds[k];
      assert es[k] in es;
    }
  }

  // The conjunction of the clauses against that of the filters.
  lemma AllAgree(clauses: seq<Clause>, filters: seq<Filter>, row: Row, cmp: Compare)
    requires AgreeSoFar(clauses, filters, row, cmp)
    ensures forall c | c in clauses :: StringClause(c)
    ensures Selects(And(RenderAll(clauses)), row) <==> forall f | f in filters :: FilterMatches(row.data, f, cmp)
  {
    forall c | c in clauses ensures StringClause(c) {
      var k :| 0 <= k < |clauses| && clauses[k] == c;
      assert AgreesOn(clauses[k], filters[k], row, cmp);
    }
    var holds := seq(|filters|, k requires 0 <= k < |filters| => FilterMatches(row.data, filters[k], cmp));
    forall k | 0 <= k < |clauses|
      ensures !IsEmpty(RenderAll(clauses)[k]) && (Eval(RenderAll(clauses)[k], row) == T <==> holds[k]) {
      assert AgreesOn(clauses[k], filters[k], row, cmp);
    }
    ConjunctionOf(RenderAll(clauses), holds, row);
    if forall k | 0 <= k < |holds| :: holds[k] {
      forall f | f in filters ensures FilterMatches(row.data, f, cmp) {
        var k :| 0 <= k < |filters| && filters[k] == f;
        assert holds[k];
      }
    } else {
      var k :| 0 <= k < |holds| && !holds[k];
      assert filters[k] in filters;
    }
  }

  /**
   For filters on ordinary string properties with equality values, any number of them, the WHERE clause selects
   a row exactly if the event filter accepts its data: values with stars must be free of the other characters
   special to LIKE, and the properties they are compared with free of newlines.
  */
  lemma SearchAgreesWithWatch(input: SearchInput, types: map<string, string>, refresh: nat -> Option<map<string, string>>,
                              ago: string -> string, r: Where, row: Row, cmp: Compare)
    requires input.keywords == [] && Builds(input.filters, 0, types, refresh, ago, [], r)
    requires (forall f | f in input.filters :: Agreeable(f)) && StringTyped(input.filters, 0, types, refresh)
    requires LinesOk(input.filters, row)
    ensures r.Where? && forall c | c in r.clauses :: StringClause(c)
    ensures Selects(And(RenderAll(r.clauses)), row) <==> Accepts(row.data, input, cmp)
  {
    AgreesFrom(input.filters, 0, types, refresh, ago, [], r, row, cmp);
    AllAgree(r.clauses, input.filters, row, cmp);
  }

  // ---- Where they differ -------------------------------------------------------------------------------------

  /** A filter without values: the search ignores it, the watch rejects every event. */
  lemma EmptyFilterDiffers(types: map<string, string>, refresh: nat -> Option<map<string, string>>, ago: string -> string,
                           r: Where, row: Row, cmp: Compare)
    requires Builds([Filter("name", [])], 0, types, refresh, ago, [], r)
    ensures r == Where([], types) && Selects(And(RenderAll(r.clauses)), row)
    ensures !Accepts(row.data, SearchInput([], [Filter("name", [])]), cmp)
  {
    var f := Filter("name", []);
    assert [f][0] in [f] && !FilterMatches(row.data, f, cmp);
  }

  /** A star next to an underscore: LIKE takes the underscore for any character, the watch for itself. */
  lemma UnderscoreDiffers(cmp: Compare)
    ensures Like(ToLike("a_*"), "abc") && !ValueMatches("name", "abc", "a_*", cmp)
  {
    var p := "a_*";
    ToLikeUnit(p);
    ToLikeUnit(p[1..]);
    ToLikeUnit(p[2..]);
    assert p[1..][1..] == p[2..] && p[2..][1..] == [];
    assert ToLike(p) == "a_%";
    assert "a_%"[1..] == "_%" && "_%"[1..] == "%" && "%"[1..] == [] && "abc"[1..] == "bc" && "bc"[1..] == "c";
    assert Like("", "c"[1..]);
    assert Like("%", "c");
    MatchesWildcardMeans("abc", p);
    OperatorByStart(p);
    OneCharPrefix(p, '=');
    assert "a_*"[1..] == "_*";
    assert !GlobLine("_*", "bc");
  }
}

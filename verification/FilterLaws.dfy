/**
 What the operators and keywords of the event filter mean, in terms of the texts alone: negation is the complement of
 equality, comparisons pass the property first, and a keyword occurs in some value.
*/
module FilterLaws {
  import opened Prelude
  import opened Wildcard
  import opened Operators
  import opened FilterAgreement
  import opened OperatorLaws

  predicate StarFree(x: string) {
    '*' !in x
  }

  lemma Listed()
    ensures forall op | op in ["=", "!", "!=", "<", "<=", ">", ">="] :: op in PREFIXES
  {
    assert PREFIXES[0] in PREFIXES && PREFIXES[1] in PREFIXES && PREFIXES[2] in PREFIXES && PREFIXES[3] in PREFIXES;
    assert PREFIXES[4] in PREFIXES && PREFIXES[5] in PREFIXES && PREFIXES[6] in PREFIXES;
  }

  /** On a property other than kind, "=" asks for the text and "!=" or "!" for anything else. */
  lemma NegationIsComplement(property: string, actual: string, x: string, cmp: Compare)
    requires property != "kind" && StarFree(x)
    ensures ValueMatches(property, actual, "=" + x, cmp) <==> actual == x
    ensures ValueMatches(property, actual, "!=" + x, cmp) <==> actual != x
    ensures (x != [] ==> x[0] != '=') ==> (ValueMatches(property, actual, "!" + x, cmp) <==> actual != x)
  {
    Listed();
    TakesOperator("=", x);
    TakesOperator("!=", x);
    if x != [] ==> x[0] != '=' {
      TakesOperator("!", x);
    }
  }

  /** For kind the same, up to case. */
  lemma KindNegationIsComplement(actual: string, x: string, cmp: Compare)
    requires StarFree(x)
    ensures ValueMatches("kind", actual, "=" + x, cmp) <==> cmp.fold(actual, x)
    ensures ValueMatches("kind", actual, "!=" + x, cmp) <==> !cmp.fold(actual, x)
    ensures (x != [] ==> x[0] != '=') ==> (ValueMatches("kind", actual, "!" + x, cmp) <==> !cmp.fold(actual, x))
  {
    Listed();
    TakesOperator("=", x);
    TakesOperator("!=", x);
    if x != [] ==> x[0] != '=' {
      TakesOperator("!", x);
    }
  }

  /** The other operators compare the event's value, on the left, with the text. */
  lemma ComparisonTakesValueFirst(property: string, actual: string, op: string, x: string, cmp: Compare)
    requires op in ["<", "<=", ">", ">="] && StarFree(x) && ((op == "<" || op == ">") && x != [] ==> x[0] != '=')
    ensures ValueMatches(property, actual, op + x, cmp) <==> cmp.order(op, actual, x)
  {
    Listed();
    TakesOperator(op, x);
  }

  /** A text without an operator in front is an equality. */
  lemma BareTextIsEquality(property: string, actual: string, x: string, cmp: Compare)
    requires property != "kind" && StarFree(x) && (x != [] ==> x[0] !in "=!<>")
    ensures ValueMatches(property, actual, x, cmp) <==> actual == x
  {
    OperatorByStart(x);
    OneCharPrefix(x, '=');
  }

  /** A star is a wildcard after "=" alone; after any other operator the value matches nothing. */
  lemma StarNeedsEquality(property: string, actual: string, op: string, x: string, cmp: Compare)
    requires op in ["!", "!=", "<", "<=", ">", ">="] && !StarFree(x) && ((op == "<" || op == ">" || op == "!") && x != [] ==> x[0] != '=')
    ensures !ValueMatches(property, actual, op + x, cmp)
    ensures OneLine(actual) ==> (ValueMatches(property, actual, "=" + x, cmp) <==> Glob(x, actual))
  {
    Listed();
    TakesOperator(op, x);
    TakesOperator("=", x);
    if OneLine(actual) {
      MatchesWildcardOnOneLine(actual, x);
    }
  }

  // ---- Whole events ----------------------------------------------------------------------------------------

  /** One filter with one negated text: the event has the property, and its value is not the text. */
  method NegatedFilter(newData: map<string, string>, oldData: Option<map<string, string>>, p: string, x: string, cmp: Compare)
      returns (ok: bool)
    requires p != "" && p != "kind" && StarFree(x)
    ensures ok <==> p in newData && newData[p] != x
  {
    var f := Filter(p, ["!=" + x]);
    ok := EventMatchesAllFilters(Some(newData), oldData, Some(SearchInput([], [f])), cmp);
    AcceptsOne(newData, f, cmp);
    if p in newData {
      NegationIsComplement(p, newData[p], x, cmp);
    }
  }

  /** The same for kind, up to case; a deleted row is judged by its old data. */
  method NegatedKind(oldData: map<string, string>, x: string, cmp: Compare) returns (ok: bool)
    requires StarFree(x)
    ensures ok <==> "kind" in oldData && !cmp.fold(oldData["kind"], x)
  {
    var f := Filter("kind", ["!=" + x]);
    ok := EventMatchesAllFilters(None, Some(oldData), Some(SearchInput([], [f])), cmp);
    AcceptsOne(oldData, f, cmp);
    if "kind" in oldData {
      KindNegationIsComplement(oldData["kind"], x, cmp);
    }
  }

  lemma AcceptsOne(data: map<string, string>, f: Filter, cmp: Compare)
    requires f.property != "" && |f.values| == 1
    ensures Accepts(data, SearchInput([], [f]), cmp) <==>
            f.property in data && ValueMatches(f.property, data[f.property], f.values[0], cmp)
  {
    assert f in [f];
    assert f.values[0] in f.values && forall v | v in f.values :: v == f.values[0];
  }

  /** More values of a filter accept more, more filters and more keywords accept less. */
  lemma ValuesWidenFiltersNarrow(data: map<string, string>, input: SearchInput, p: string, vs: seq<string>, ws: seq<string>,
                                 word: string, cmp: Compare)
    requires p != ""
    ensures FilterMatches(data, Filter(p, vs + ws), cmp) <==>
            FilterMatches(data, Filter(p, vs), cmp) || FilterMatches(data, Filter(p, ws), cmp)
    ensures Accepts(data, SearchInput(input.keywords + [word], input.filters + [Filter(p, vs)]), cmp) <==>
            Accepts(data, input, cmp) && KeywordMatches(data, word, cmp) && FilterMatches(data, Filter(p, vs), cmp)
  {
    assert forall v :: v in vs + ws <==> v in vs || v in ws;
    assert forall k :: k in input.keywords + [word] <==> k in input.keywords || k == word;
    assert forall f :: f in input.filters + [Filter(p, vs)] <==> f in input.filters || f == Filter(p, vs);
  }

  // ---- Keywords --------------------------------------------------------------------------------------------

  /** One text contains another iff it is that text with something around it. */
  lemma ContainsMeans(s: string, sub: string)
    ensures Contains(s, sub) <==> exists before, after :: s == before + sub + after
  {
    if i :| 0 <= i <= |s| && HasPrefix(s[i..], sub) {
      assert s[i..] == sub + s[i..][|sub|..];
      assert s == s[..i] + sub + s[i..][|sub|..];
    }
    if before, after :| s == before + sub + after {
      assert s[|before|..] == sub + after;
      assert HasPrefix(s[|before|..], sub);
    }
  }

  /** A keyword matches iff, in lower case, it occurs inside some value of the event. */
  lemma KeywordMeans(data: map<string, string>, keyword: string, cmp: Compare)
    ensures KeywordMatches(data, keyword, cmp) <==>
            exists k, before, after :: k in data && cmp.lower(data[k]) == before + cmp.lower(keyword) + after
  {
    if KeywordMatches(data, keyword, cmp) {
      var k :| k in data && Contains(cmp.lower(data[k]), cmp.lower(keyword));
      ContainsMeans(cmp.lower(data[k]), cmp.lower(keyword));
    }
    if k, before, after :| k in data && cmp.lower(data[k]) == before + cmp.lower(keyword) + after {
      ContainsMeans(cmp.lower(data[k]), cmp.lower(keyword));
    }
  }

  // ---- The WHERE list --------------------------------------------------------------------------------------

  lemma {:induction false} LikePrefix(x: string, v: string)
    requires LikeFree(x)
    ensures Like(x + "%", v) <==> HasPrefix(v, x)
  {
    var p := x + "%";
    if x == [] {
      assert p[0] == '%' && p[1..] == [];
      assert v[|v|..] == [] && Like([], v[|v|..]);
    } else {
      assert p[0] == x[0] && p[1..] == x[1..] + "%" && x[0] in x;
      if v != [] {
        LikePrefix(x[1..], v[1..]);
        assert x == [x[0]] + x[1..] && v == [v[0]] + v[1..];
        assert v[0] == x[0] && HasPrefix(v[1..], x[1..]) ==> v[..|x|] == [v[0]] + v[1..][..|x| - 1];
        assert HasPrefix(v, x) ==> v[1..][..|x| - 1] == v[..|x|][1..];
      }
    }
  }

  /** The LIKE text of a keyword asks for it anywhere, if it holds no character that LIKE treats specially. */
  lemma KeywordLikeMeans(word: string, v: string)
    requires LikeFree(word)
    ensures KeywordLikes([word]) == [KeywordLike("%" + word + "%")]
    ensures Like("%" + word + "%", v) <==> exists before, after :: v == before + word + after
  {
    var p := "%" + word + "%";
    assert p[0] == '%' && p[1..] == word + "%";
    ContainsMeans(v, word);
    forall k | 0 <= k <= |v| ensures Like(word + "%", v[k..]) <==> HasPrefix(v[k..], word) {
      LikePrefix(word, v[k..]);
    }
  }

  /** What one filter adds to the WHERE list, case by case. */
  lemma OneFilterBuilds(f: Filter, types: map<string, string>, refresh: nat -> Option<map<string, string>>,
                        ago: string -> string, collected: seq<Clause>, r: Where)
    requires Builds([f], 0, types, refresh, ago, collected, r)
    ensures f.values == [] ==> r == Where(collected, types)
    ensures f.values != [] && f.property !in types && refresh(0).None? ==> r == Failed
    ensures f.values != [] && f.property !in types && refresh(0).Some? && f.property !in refresh(0).value ==>
              r == Where(collected + [Nothing], refresh(0).value)
    ensures f.values != [] && f.property in types ==>
              if BadValues(f.values, types[f.property]) then r == Failed
              else r.Where? && r.propTypes == types && |r.clauses| == |collected| + 1 && r.clauses[..|collected|] == collected
                   && IsClause(r.clauses[|collected|], f, types[f.property], ago)
  {
    if f.values != [] && f.property in types && !BadValues(f.values, types[f.property]) {
      var c :| IsClause(c, f, types[f.property], ago) && Builds([f], 1, types, refresh, ago, collected + [c], r);
      assert r == Where(collected + [c], types);
    }
  }

  /** A property that no refresh knows ends the list with 1 = 0, and a failed refresh fails, whatever filters follow. */
  lemma UnknownStops(filters: seq<Filter>, i: nat, types: map<string, string>, refresh: nat -> Option<map<string, string>>,
                     ago: string -> string, collected: seq<Clause>, r: Where)
    requires i < |filters| && filters[i].values != [] && filters[i].property !in types
    requires Builds(filters, i, types, refresh, ago, collected, r)
    ensures refresh(i).None? ==> r == Failed
    ensures refresh(i).Some? && filters[i].property !in refresh(i).value ==> r == Where(collected + [Nothing], refresh(i).value)
  {
  }

  /** A value is malformed only as an exact label that is not key=value with one '='. */
  lemma MalformedMeans(value: string, dataType: string)
    ensures BadValues([value], dataType) <==>
              && dataType == "object" && '*' !in value
              && !exists key, text :: Free(key, '=') && Free(text, '=') && OperandOf(value) == key + "=" + text
  {
    PartialOne(value);
    OtherLabels(OperandOf(value));
    var values := [value];
    assert values[0] == value;
    assert BadValues(values, dataType) <==> Rewritten(OperandOf(value), IsPartial(values), dataType).None?;
  }
}

/**
 Operators in filter values (pkg/resolver/searchHelper.go): extraction, the re-printing of values for
 object and array properties, and grouping by operator.
*/
module Operators {
  import opened Prelude
  import opened Wildcard

  // ---- getOperatorFromString ---------------------------------------------------------------------------------

  const PREFIXES := ["<=", ">=", "!=", "!", "<", ">", "="]

  function OperatorOf(value: string): string {
    if HasPrefix(value, "<=") then "<="
    else if HasPrefix(value, ">=") then ">="
    else if HasPrefix(value, "!=") then "!="
    else if HasPrefix(value, "!") then "!"
    else if HasPrefix(value, "<") then "<"
    else if HasPrefix(value, ">") then ">"
    else "="
  }

  function OperandOf(value: string): string {
    if HasPrefix(value, OperatorOf(value)) then value[|OperatorOf(value)|..] else value
  }

  method GetOperatorFromString(value: string) returns (operator: string, operand: string)
    ensures operator == OperatorOf(value) && operand == OperandOf(value)
  {
    operator, operand := "=", value;
    for i := 0 to |PREFIXES|
      invariant operator == "=" && operand == value
      invariant forall k | 0 <= k < i :: !HasPrefix(value, PREFIXES[k])
    {
      var prefix := PREFIXES[i];
      if HasPrefix(value, prefix) {
        FirstPrefix(value, i);
        return prefix, value[|prefix|..];
      }
    }
    FirstPrefix(value, |PREFIXES|);
  }

  // The prefixes are tried in order; a value without any keeps the default.
  lemma FirstPrefix(value: string, i: nat)
    requires i <= |PREFIXES| && (forall k | 0 <= k < i :: !HasPrefix(value, PREFIXES[k]))
    requires i < |PREFIXES| ==> HasPrefix(value, PREFIXES[i])
    ensures i < |PREFIXES| ==> OperatorOf(value) == PREFIXES[i]
    ensures i == |PREFIXES| ==> OperatorOf(value) == "=" && OperandOf(value) == value
  {
    assert i > 0 ==> !HasPrefix(value, PREFIXES[0]);
    assert i > 1 ==> !HasPrefix(value, PREFIXES[1]);
    assert i > 2 ==> !HasPrefix(value, PREFIXES[2]);
    assert i > 3 ==> !HasPrefix(value, PREFIXES[3]);
    assert i > 4 ==> !HasPrefix(value, PREFIXES[4]);
    assert i > 5 ==> !HasPrefix(value, PREFIXES[5]);
    assert i > 6 ==> !HasPrefix(value, PREFIXES[6]);
  }

  lemma OneCharPrefix(s: string, c: char)
    ensures HasPrefix(s, [c]) <==> s != [] && s[0] == c
  {
    if s != [] {
      assert s[..1] == [s[0]];
    }
  }

  lemma TwoCharPrefix(s: string, c: char, d: char)
    ensures HasPrefix(s, [c, d]) <==> |s| >= 2 && s[0] == c && s[1] == d
  {
    if |s| >= 2 {
      assert s[..2] == [s[0], s[1]];
    }
  }

  // The operator by the first two characters.
  lemma OperatorByStart(s: string)
    ensures OperatorOf(s) ==
            if s == [] then "="
            else if s[0] == '<' then (if |s| >= 2 && s[1] == '=' then "<=" else "<")
            else if s[0] == '>' then (if |s| >= 2 && s[1] == '=' then ">=" else ">")
            else if s[0] == '!' then (if |s| >= 2 && s[1] == '=' then "!=" else "!")
            else "="
  {
    TwoCharPrefix(s, '<', '=');
    TwoCharPrefix(s, '>', '=');
    TwoCharPrefix(s, '!', '=');
    OneCharPrefix(s, '!');
    OneCharPrefix(s, '<');
    OneCharPrefix(s, '>');
  }

  predicate IsOperator(op: string) {
    op in PREFIXES
  }

  predicate Extends(op: string, rest: string) {
    (op == "<" || op == ">" || op == "!") && rest != [] && rest[0] == '='
  }

  /** Parsing an operator followed by a text gives them back, unless the text extends the operator. */
  lemma ReparseIff(op: string, rest: string)
    requires IsOperator(op)
    ensures OperatorOf(op + rest) == op && OperandOf(op + rest) == rest <==> !Extends(op, rest)
  {
    var s := op + rest;
    OperatorByStart(s);
    assert op in ["<=", ">=", "!=", "!", "<", ">", "="];
    if |op| == 1 {
      assert s[0] == op[0] && (rest != [] ==> s[1] == rest[0]);
    } else {
      assert s[0] == op[0] && s[1] == op[1];
    }
    assert s[|op|..] == rest && s[..|op|] == op;
    assert HasPrefix(s, op);
  }

  /** What extraction leaves never extends the operator it took. */
  lemma OperandDoesNotExtend(value: string)
    ensures IsOperator(OperatorOf(value)) && !Extends(OperatorOf(value), OperandOf(value))
  {
    OperatorByStart(value);
    assert IsOperator(OperatorOf(value)) by {
      assert PREFIXES[0] in PREFIXES && PREFIXES[1] in PREFIXES && PREFIXES[2] in PREFIXES && PREFIXES[3] in PREFIXES;
      assert PREFIXES[4] in PREFIXES && PREFIXES[5] in PREFIXES && PREFIXES[6] in PREFIXES;
    }
    OneCharPrefix(value, '<');
    OneCharPrefix(value, '>');
    OneCharPrefix(value, '!');
  }

  /** The longest listed operator in front and the rest of the value; or "=" and the whole value, if none is in front. */
  predicate Parses(value: string, operator: string, operand: string) {
    && operator in PREFIXES
    && (if exists p | p in PREFIXES :: HasPrefix(value, p) then value == operator + operand else operator == "=" && operand == value)
    && forall p | p in PREFIXES && HasPrefix(value, p) :: |p| <= |operator|
  }

  lemma ParseIsUnique(value: string, op: string, rest: string, op': string, rest': string)
    requires Parses(value, op, rest) && Parses(value, op', rest')
    ensures op == op' && rest == rest'
  {
    if p :| p in PREFIXES && HasPrefix(value, p) {
      assert value[..|op|] == op && value[..|op'|] == op';
      assert HasPrefix(value, op) && HasPrefix(value, op');
      assert rest == value[|op|..] && rest' == value[|op'|..];
    }
  }

  lemma OperatorParses(value: string)
    ensures Parses(value, OperatorOf(value), OperandOf(value))
  {
    OperatorByStart(value);
    OperandDoesNotExtend(value);
    OneCharPrefix(value, '=');
    forall p | p in PREFIXES && HasPrefix(value, p) ensures |p| <= |OperatorOf(value)| && HasPrefix(value, OperatorOf(value)) {
      StartDecides(value, p);
    }
  }

  // A listed operator in front is the one that the first two characters give, or its first character.
  lemma StartDecides(value: string, p: string)
    requires p in PREFIXES && HasPrefix(value, p)
    ensures |p| <= |OperatorOf(value)| && HasPrefix(value, OperatorOf(value))
  {
    OperatorByStart(value);
    TwoCharPrefix(value, '<', '=');
    TwoCharPrefix(value, '>', '=');
    TwoCharPrefix(value, '!', '=');
    OneCharPrefix(value, '!');
    OneCharPrefix(value, '<');
    OneCharPrefix(value, '>');
    OneCharPrefix(value, '=');
    assert p in ["<=", ">=", "!=", "!", "<", ">", "="];
  }

  /** Extraction takes the longest listed operator in front of the value, "=" if there is none, and nothing else does. */
  lemma ParsesIff(value: string, operator: string, operand: string)
    ensures Parses(value, operator, operand) <==> operator == OperatorOf(value) && operand == OperandOf(value)
  {
    OperatorParses(value);
    if Parses(value, operator, operand) {
      ParseIsUnique(value, operator, operand, OperatorOf(value), OperandOf(value));
    }
  }

  // ---- decodePropertyTypes -----------------------------------------------------------------------------------

  /** strings.Contains */
  predicate Contains(s: string, sub: string) {
    exists i | 0 <= i <= |s| :: HasPrefix(s[i..], sub)
  }

  predicate SomeContains(values: seq<string>, subs: seq<string>) {
    exists v, x | v in values && x in subs :: Contains(v, x)
  }

  lemma StarIsContained(s: string)
    ensures Contains(s, "*") <==> '*' in s
  {
    if '*' in s {
      var i :| 0 <= i < |s| && s[i] == '*';
      OneCharPrefix(s[i..], '*');
    }
    if Contains(s, "*") {
      var i :| 0 <= i <= |s| && HasPrefix(s[i..], "*");
      OneCharPrefix(s[i..], '*');
      assert s[i] == '*';
    }
  }

  // compareValues(values, subs)
  method CompareValues(values: seq<string>, subs: seq<string>) returns (found: bool)
    ensures found <==> SomeContains(values, subs)
  {
    for i := 0 to |subs|
      invariant forall v, x | v in values && x in subs[..i] :: !Contains(v, x)
    {
      for j := 0 to |values|
        invariant forall v, x | v in values && x in subs[..i] :: !Contains(v, x)
        invariant forall v | v in values[..j] :: !Contains(v, subs[i])
      {
        if Contains(values[j], subs[i]) {
          return true;
        }
      }
      assert values[..|values|] == values;
    }
    assert subs[..|subs|] == subs;
    found := false;
  }

  /** strings.Split by one character */
  function Split(s: string, c: char): (parts: seq<string>)
    ensures parts != []
  {
    if s == [] then [[]]
    else
      var rest := Split(s[1..], c);
      if s[0] == c then [[]] + rest else [[s[0]] + rest[0]] + rest[1..]
  }

  lemma {:induction false} PartsAreFree(s: string, c: char)
    ensures forall k | 0 <= k < |Split(s, c)| :: c !in Split(s, c)[k]
  {
    if s != [] {
      PartsAreFree(s[1..], c);
    }
  }

  datatype Decoded = Values(values: seq<string>) | BadLabel

  predicate IsPartial(values: seq<string>) {
    SomeContains(values, ["*"])
  }

  // The new operand of one value; None for a label that is not key=value.
  function RewrittenObject(operand: string, partial: bool): Option<string> {
    var labels := Split(operand, '=');
    if |labels| == 2 then
      Some(if partial then labels[0] + ":" + labels[1] else "{\"" + labels[0] + "\":\"" + labels[1] + "\"}")
    else if partial then Some(labels[0]) else None
  }

  function RewrittenArray(operand: string): string {
    "[\"" + operand + "\"]"
  }

  /** What decoding makes of a value's operand. */
  function Rewritten(operand: string, partial: bool, dataType: string): Option<string> {
    if dataType == "object" then RewrittenObject(operand, partial)
    else if dataType == "array" && !partial then Some(RewrittenArray(operand))
    else Some(operand)
  }

  method DecodeObject(partial: bool, values: seq<string>) returns (r: Decoded)
    ensures r.BadLabel? <==> exists k | 0 <= k < |values| :: RewrittenObject(OperandOf(values[k]), partial).None?
    ensures r.Values? ==> |r.values| == |values| && forall k | 0 <= k < |values| ::
              RewrittenObject(OperandOf(values[k]), partial).Some? &&
              r.values[k] == OperatorOf(values[k]) + RewrittenObject(OperandOf(values[k]), partial).value
  {
    var cleaned: seq<string> := [];
    for i := 0 to |values|
      invariant |cleaned| == i
      invariant forall k | 0 <= k < i :: RewrittenObject(OperandOf(values[k]), partial).Some? &&
                  cleaned[k] == OperatorOf(values[k]) + RewrittenObject(OperandOf(values[k]), partial).value
    {
      var operator, operand := GetOperatorFromString(values[i]);
      var labels := Split(operand, '=');
      if |labels| == 2 {
        if partial {
          cleaned := cleaned + [operator + (labels[0] + ":" + labels[1])];
        } else {
          cleaned := cleaned + [operator + ("{\"" + labels[0] + "\":\"" + labels[1] + "\"}")];
        }
      } else {
        if partial {
          cleaned := cleaned + [operator + labels[0]];
        } else {
          return BadLabel;
        }
      }
    }
    r := Values(cleaned);
  }

  method DecodeArray(partial: bool, values: seq<string>) returns (r: seq<string>)
    ensures |r| == |values| && forall k | 0 <= k < |values| ::
              r[k] == if partial then values[k] else OperatorOf(values[k]) + RewrittenArray(OperandOf(values[k]))
  {
    r := [];
    for i := 0 to |values|
      invariant |r| == i && forall k | 0 <= k < i ::
                  r[k] == if partial then values[k] else OperatorOf(values[k]) + RewrittenArray(OperandOf(values[k]))
    {
      var operator, operand := GetOperatorFromString(values[i]);
      if !partial {
        r := r + [operator + ("[\"" + operand + "\"]")];
      } else {
        r := r + [values[i]];
      }
    }
  }

  lemma RewrittenDoesNotExtend(value: string, partial: bool, dataType: string)
    requires Rewritten(OperandOf(value), partial, dataType).Some?
    ensures !Extends(OperatorOf(value), Rewritten(OperandOf(value), partial, dataType).value)
  {
    OperandDoesNotExtend(value);
    var operand := OperandOf(value);
    var r := Rewritten(operand, partial, dataType).value;
    if dataType == "object" {
      PartsAreFree(operand, '=');
      var labels := Split(operand, '=');
      assert labels[0] != [] ==> labels[0][0] in labels[0];
      if r != [] && |labels| == 2 && partial {
        assert r[0] == if labels[0] == [] then ':' else labels[0][0];
      }
    }
  }

  /**
   Whenever decoding succeeds, parsing each printed value gives back the original operator and the
   rewritten operand.
  */
  method DecodePropertyTypes(values: seq<string>, dataType: string) returns (r: Decoded)
    ensures r.BadLabel? <==> exists k | 0 <= k < |values| :: Rewritten(OperandOf(values[k]), IsPartial(values), dataType).None?
    ensures r.Values? ==> |r.values| == |values| && forall k | 0 <= k < |values| ::
              && Rewritten(OperandOf(values[k]), IsPartial(values), dataType).Some?
              && OperatorOf(r.values[k]) == OperatorOf(values[k])
              && OperandOf(r.values[k]) == Rewritten(OperandOf(values[k]), IsPartial(values), dataType).value
    ensures dataType != "object" && dataType != "array" ==> r == Values(values)
  {
    var partial := CompareValues(values, ["*"]);
    match dataType {
      case "object" =>
        r := DecodeObject(partial, values);
      case "array" =>
        var cleaned := DecodeArray(partial, values);
        r := Values(cleaned);
      case _ =>
        r := Values(values);
    }
    if r.Values? {
      forall k | 0 <= k < |values|
        ensures OperatorOf(r.values[k]) == OperatorOf(values[k])
        ensures OperandOf(r.values[k]) == Rewritten(OperandOf(values[k]), partial, dataType).value {
        OperandDoesNotExtend(values[k]);
        RewrittenDoesNotExtend(values[k], partial, dataType);
        ReparseIff(OperatorOf(values[k]), Rewritten(OperandOf(values[k]), partial, dataType).value);
      }
    }
  }

  // ---- Grouping by operator ----------------------------------------------------------------------------------

  type Groups = map<string, seq<string>>

  function KeyOf(value: string, inner: string): string {
    if inner != "" then OperatorOf(value) + ":" + inner else OperatorOf(value)
  }

  // What a value becomes: the key of a group, and the operand filed there.
  datatype Filed = Filed(key: string, operand: string)

  function FiledAs(values: seq<string>, inner: string): (r: seq<Filed>)
    ensures |r| == |values| && forall k | 0 <= k < |values| :: r[k] == Filed(KeyOf(values[k], inner), OperandOf(values[k]))
  {
    seq(|values|, k requires 0 <= k < |values| => Filed(KeyOf(values[k], inner), OperandOf(values[k])))
  }

  /** The operands filed under the key, in their order. */
  function Under(filed: seq<Filed>, key: string): seq<string> {
    if filed == [] then []
    else Under(filed[..|filed| - 1], key) + if filed[|filed| - 1].key == key then [filed[|filed| - 1].operand] else []
  }

  function Entry(m: Groups, key: string): seq<string> {
    if key in m then m[key] else []
  }

  ghost predicate EntryGrew(before: Groups, after: Groups, filed: seq<Filed>, key: string) {
    && Entry(after, key) == Entry(before, key) + Under(filed, key)
    && (key in after <==> key in before || Under(filed, key) != [])
  }

  // Each entry is extended by the operands of its key, and there is an entry for each key met.
  ghost predicate Grouped(before: Groups, after: Groups, filed: seq<Filed>) {
    forall key :: EntryGrew(before, after, filed, key)
  }

  // updateOperatorValueMap
  method UpdateOperatorValueMap(operator: string, m: Groups, operand: string) returns (m': Groups)
    ensures m' == m[operator := Entry(m, operator) + [operand]]
  {
    if operator !in m {
      assert [] + [operand] == [operand];
      m' := m[operator := [operand]];
    } else {
      var vals := m[operator];
      vals := vals + [operand];
      m' := m[operator := vals];
    }
  }

  lemma GroupedNext(before: Groups, m: Groups, init: seq<Filed>, f: Filed)
    requires Grouped(before, m, init)
    ensures Grouped(before, m[f.key := Entry(m, f.key) + [f.operand]], init + [f])
  {
    var m' := m[f.key := Entry(m, f.key) + [f.operand]];
    assert (init + [f])[..|init|] == init;
    forall key ensures EntryGrew(before, m', init + [f], key) {
      assert EntryGrew(before, m, init, key);
    }
  }

  method ExtractOperator(values: seq<string>, inner: string, m: Groups) returns (m': Groups)
    ensures Grouped(m, m', FiledAs(values, inner))
  {
    m' := m;
    ghost var filed := FiledAs(values, inner);
    for i := 0 to |values|
      invariant Grouped(m, m', filed[..i])
    {
      var operator, operand := GetOperatorFromString(values[i]);
      GroupedNext(m, m', filed[..i], filed[i]);
      assert filed[..i + 1] == filed[..i] + [filed[i]];
      m' := UpdateOperatorValueMap(if inner != "" then operator + ":" + inner else operator, m', operand);
    }
    assert filed[..|values|] == filed;
  }

  /** The positions of the values with the key, in increasing order. */
  function Positions(filed: seq<Filed>, key: string): (p: seq<nat>)
    ensures forall j | 0 <= j < |p| :: p[j] < |filed| && filed[p[j]].key == key
  {
    if filed == [] then []
    else
      var n := |filed| - 1;
      Positions(filed[..n], key) + if filed[n].key == key then [n] else []
  }

  lemma {:induction false} PositionsAre(filed: seq<Filed>, key: string)
    ensures Increasing(Positions(filed, key))
    ensures forall i | 0 <= i < |filed| :: filed[i].key == key ==> i in Positions(filed, key)
  {
    if filed != [] {
      var n := |filed| - 1;
      PositionsAre(filed[..n], key);
      if filed[n].key == key {
        assert AllBelow(Positions(filed[..n], key), n);
        IncreasingAppend(Positions(filed[..n], key), n);
      }
    }
  }

  lemma {:induction false} UnderIsAtPositions(filed: seq<Filed>, key: string)
    ensures |Under(filed, key)| == |Positions(filed, key)|
    ensures forall j | 0 <= j < |Positions(filed, key)| :: Under(filed, key)[j] == filed[Positions(filed, key)[j]].operand
  {
    if filed != [] {
      UnderIsAtPositions(filed[..|filed| - 1], key);
    }
  }

  /**
   Grouping conserves the operands: the value at each index is at exactly one place, under its own key, and
   each key holds its values in their order.
  */
  lemma GroupingConserves(after: Groups, filed: seq<Filed>, i: nat)
    requires Grouped(map[], after, filed) && i < |filed|
    ensures var key := filed[i].key;
      && key in after && i in Positions(filed, key)
      && (forall other | other != key :: i !in Positions(filed, other))
      && Increasing(Positions(filed, key))
      && |after[key]| == |Positions(filed, key)|
      && forall j | 0 <= j < |after[key]| :: after[key][j] == filed[Positions(filed, key)[j]].operand
  {
    var key := filed[i].key;
    PositionsAre(filed, key);
    UnderIsAtPositions(filed, key);
    assert EntryGrew(map[], after, filed, key);
    assert |Under(filed, key)| > 0;
  }

  // ---- getPartialMatchFilter, getOperatorIfDateFilter, matchOperatorToProperty -------------------------------

  // strings.ReplaceAll(val, "*", "%") where the value has a star.
  function Starred(values: seq<string>): (r: seq<string>)
    ensures |r| == |values| && forall k | 0 <= k < |values| :: r[k] == ToLike(values[k])
  {
    if values == [] then [] else [ToLike(values[0])] + Starred(values[1..])
  }

  lemma {:induction false} NoStarNoChange(s: string)
    requires '*' !in s
    ensures ToLike(s) == s
  {
    if s != [] {
      ToLikeUnit(s);
      NoStarNoChange(s[1..]);
    }
  }

  function InnerFor(dataType: string): string {
    if dataType == "object" then "*@>" else if dataType == "array" then "*[]" else "*"
  }

  // The values are edited in place.
  method GetPartialMatchFilter(values: array<string>, dataType: string, m: Groups) returns (m': Groups)
    modifies values
    ensures values[..] == Starred(old(values[..]))
    ensures Grouped(m, m', FiledAs(Starred(old(values[..])), InnerFor(dataType)))
  {
    var i := 0;
    while i < values.Length
      invariant 0 <= i <= values.Length
      invariant forall k | 0 <= k < i :: values[k] == ToLike(old(values[k]))
      invariant forall k | i <= k < values.Length :: values[k] == old(values[k])
    {
      if '*' in values[i] {
        values[i] := ToLike(values[i]);
      } else {
        NoStarNoChange(values[i]);
      }
      i := i + 1;
    }
    assert values[..] == Starred(old(values[..]));
    m' := ExtractOperator(values[..], if dataType == "object" then "*@>" else if dataType == "array" then "*[]" else "*", m);
  }

  const DATES := ["hour", "day", "week", "month", "year"]

  // The key and operand of a date filter; `ago` formats the instant that lies one unit back.
  function DateKey(value: string): string {
    if OperatorOf(value) == "=" then ">" else OperatorOf(value)
  }

  function DateOperand(value: string, ago: string -> string): string {
    if OperandOf(value) in DATES then ago(OperandOf(value)) else ""
  }

  function FiledAsDates(values: seq<string>, ago: string -> string): (r: seq<Filed>)
    ensures |r| == |values| && forall k | 0 <= k < |values| :: r[k] == Filed(DateKey(values[k]), DateOperand(values[k], ago))
  {
    seq(|values|, k requires 0 <= k < |values| => Filed(DateKey(values[k]), DateOperand(values[k], ago)))
  }

  method GetOperatorIfDateFilter(values: seq<string>, ago: string -> string, m: Groups) returns (m': Groups)
    ensures Grouped(m, m', FiledAsDates(values, ago))
  {
    m' := m;
    ghost var filed := FiledAsDates(values, ago);
    for i := 0 to |values|
      invariant Grouped(m, m', filed[..i])
    {
      var operator, operand := GetOperatorFromString(values[i]);
      if operator == "=" {
        operator := ">";
      }
      var instant := "";
      if operand in DATES {
        instant := ago(operand);
      }
      GroupedNext(m, m', filed[..i], filed[i]);
      assert filed[..i + 1] == filed[..i] + [filed[i]];
      m' := UpdateOperatorValueMap(operator, m', instant);
    }
    assert filed[..|values|] == filed;
  }

  /** Which grouping the values of a property get, and whether they are rewritten to LIKE patterns first. */
  ghost predicate Dispatched(after: Groups, values: seq<string>, dataType: string, ago: string -> string) {
    if (dataType == "object" || dataType == "array") && !IsPartial(values) then Grouped(map[], after, FiledAs(values, "@>"))
    else if dataType == "timestamp" && SomeContains(values, DATES) then Grouped(map[], after, FiledAsDates(values, ago))
    else if IsPartial(values) then Grouped(map[], after, FiledAs(Starred(values), InnerFor(dataType)))
    else Grouped(map[], after, FiledAs(values, ""))
  }

  method MatchOperatorToProperty(dataType: string, values: array<string>, ago: string -> string) returns (m: Groups)
    modifies values
    ensures Dispatched(m, old(values[..]), dataType, ago)
  {
    var partial := CompareValues(values[..], ["*"]);
    var dated := CompareValues(values[..], DATES);
    if (dataType == "object" || dataType == "array") && !partial {
      m := ExtractOperator(values[..], "@>", map[]);
    } else if dataType == "timestamp" && dated {
      m := GetOperatorIfDateFilter(values[..], ago, map[]);
    } else if partial {
      m := GetPartialMatchFilter(values, dataType, map[]);
    } else {
      m := ExtractOperator(values[..], "", map[]);
    }
  }
}

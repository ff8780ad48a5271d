/**
 What decoding prints can be read back: a label's key and value, in the two forms in which the queries take them
 apart, and the one element of an array.
*/
module OperatorLaws {
  import opened Prelude
  import opened Wildcard
  import opened Operators

  // ---- Splitting -------------------------------------------------------------------------------------------

  /** strings.Join with one character */
  function Join(parts: seq<string>, c: char): string {
    if parts == [] then [] else if |parts| == 1 then parts[0] else parts[0] + [c] + Join(parts[1..], c)
  }

  predicate Free(s: string, c: char) {
    c !in s
  }

  // The part up to the first separator is split off.
  lemma {:induction false} SplitsOff(part: string, rest: string, c: char)
    requires Free(part, c)
    ensures Split(part + [c] + rest, c) == [part] + Split(rest, c)
  {
    var s := part + [c] + rest;
    if part == [] {
      assert s == [c] + rest && s[1..] == rest;
    } else {
      assert s[1..] == part[1..] + [c] + rest;
      SplitsOff(part[1..], rest, c);
      assert [part[0]] + part[1..] == part;
    }
  }

  lemma {:induction false} SplitsNothing(part: string, c: char)
    requires Free(part, c)
    ensures Split(part, c) == [part]
  {
    if part != [] {
      SplitsNothing(part[1..], c);
      assert [part[0]] + part[1..] == part;
    }
  }

  lemma {:induction false} JoinThenSplit(parts: seq<string>, c: char)
    requires parts != [] && forall p | p in parts :: Free(p, c)
    ensures Split(Join(parts, c), c) == parts
  {
    if |parts| == 1 {
      SplitsNothing(parts[0], c);
    } else {
      JoinThenSplit(parts[1..], c);
      SplitsOff(parts[0], Join(parts[1..], c), c);
    }
  }

  /** Splitting gives the parts between the separators: those free of it that join to the text, and no others. */
  lemma {:induction false} SplitIff(s: string, c: char, parts: seq<string>)
    ensures parts == Split(s, c) <==> parts != [] && (forall p | p in parts :: Free(p, c)) && Join(parts, c) == s
  {
    PartsAreFree(s, c);
    SplitJoins(s, c);
    if parts != [] && (forall p | p in parts :: Free(p, c)) && Join(parts, c) == s {
      JoinThenSplit(parts, c);
    }
  }

  lemma JoinCons(x: char, parts: seq<string>, c: char)
    requires parts != []
    ensures Join([[x] + parts[0]] + parts[1..], c) == [x] + Join(parts, c)
  {
    var longer := [[x] + parts[0]] + parts[1..];
    assert longer[1..] == parts[1..];
    if |parts| > 1 {
      assert ([x] + parts[0]) + [c] + Join(parts[1..], c) == [x] + (parts[0] + [c] + Join(parts[1..], c));
    }
  }

  lemma {:induction false} SplitJoins(s: string, c: char)
    ensures Join(Split(s, c), c) == s
  {
    if s != [] {
      var rest := Split(s[1..], c);
      SplitJoins(s[1..], c);
      assert s == [s[0]] + s[1..];
      if s[0] == c {
        assert ([[]] + rest)[1..] == rest;
      } else {
        JoinCons(s[0], rest, c);
      }
    }
  }

  // ---- Reading back ----------------------------------------------------------------------------------------

  lemma LabelParts(key: string, value: string)
    requires Free(key, '=') && Free(value, '=')
    ensures Split(key + "=" + value, '=') == [key, value]
  {
    SplitsOff(key, value, '=');
    SplitsNothing(value, '=');
  }

  /** An exact label is printed as an object whose two quoted strings are the key and then the value. */
  lemma LabelReadsBack(key: string, value: string)
    requires Free(key, '=') && Free(value, '=') && Free(key, '"') && Free(value, '"')
    ensures var r := Rewritten(key + "=" + value, false, "object");
      r.Some? && Split(r.value, '"') == ["{", key, ":", value, "}"]
  {
    LabelParts(key, value);
    QuotedLabel(key, value);
  }

  lemma FiveParts(a: string, b: string, c: string, d: string, e: string, q: char)
    requires Free(a, q) && Free(b, q) && Free(c, q) && Free(d, q) && Free(e, q)
    ensures Split(a + [q] + (b + [q] + (c + [q] + (d + [q] + e))), q) == [a, b, c, d, e]
  {
    SplitsNothing(e, q);
    SplitsOff(d, e, q);
    SplitsOff(c, d + [q] + e, q);
    SplitsOff(b, c + [q] + (d + [q] + e), q);
    SplitsOff(a, b + [q] + (c + [q] + (d + [q] + e)), q);
  }

  lemma Regrouped(a: string, b: string, c: string, d: string, e: string, q: string)
    ensures (a + q) + b + (q + c + q) + d + (q + e) == a + q + (b + q + (c + q + (d + q + e)))
  {
  }

  lemma QuotedLabel(key: string, value: string)
    requires Free(key, '"') && Free(value, '"')
    ensures Split("{\"" + key + "\":\"" + value + "\"}", '"') == ["{", key, ":", value, "}"]
  {
    FiveParts("{", key, ":", value, "}", '"');
    Regrouped("{", key, ":", value, "}", ['"']);
    assert "{\"" == "{" + ['"'] && "\":\"" == ['"'] + ":" + ['"'] && "\"}" == ['"'] + "}";
  }

  /** A partial label splits at ':' into the key and then the value, as the query does it. */
  lemma PartialLabelReadsBack(key: string, value: string)
    requires Free(key, '=') && Free(value, '=') && Free(key, ':') && Free(value, ':')
    ensures var r := Rewritten(key + "=" + value, true, "object");
      r.Some? && Split(r.value, ':') == [key, value]
  {
    LabelParts(key, value);
    SplitsOff(key, value, ':');
    SplitsNothing(value, ':');
  }

  lemma {:induction false} SplitsFurther(s: string, c: char)
    requires !Free(s, c)
    ensures |Split(s, c)| > 1
  {
    if s[0] != c {
      SplitsFurther(s[1..], c);
    }
  }

  /** Without exactly one '=', an exact label is malformed, and a partial one is the text before the first '='. */
  lemma OtherLabels(operand: string)
    ensures Rewritten(operand, false, "object").None? <==>
            !exists key, value :: Free(key, '=') && Free(value, '=') && operand == key + "=" + value
    ensures Free(operand, '=') ==> Rewritten(operand, true, "object") == Some(operand)
    ensures forall key, rest | Free(key, '=') && !Free(rest, '=') && operand == key + "=" + rest ::
              Rewritten(operand, true, "object") == Some(key)
  {
    var parts := Split(operand, '=');
    PartsAreFree(operand, '=');
    SplitJoins(operand, '=');
    if |parts| == 2 {
      assert parts[1..] == [parts[1]];
      assert Free(parts[0], '=') && Free(parts[1], '=') && operand == parts[0] + "=" + parts[1];
    }
    forall key, value | Free(key, '=') && Free(value, '=') && operand == key + "=" + value ensures |parts| == 2 {
      LabelParts(key, value);
    }
    if Free(operand, '=') {
      SplitsNothing(operand, '=');
    }
    forall key, rest | Free(key, '=') && !Free(rest, '=') && operand == key + "=" + rest
      ensures Rewritten(operand, true, "object") == Some(key) {
      SplitsOff(key, rest, '=');
      SplitsFurther(rest, '=');
    }
  }

  /** An exact array value is printed as an array with the one quoted element; other operands stay as they are. */
  lemma ElementReadsBack(operand: string, dataType: string)
    ensures Free(operand, '"') ==>
            var r := Rewritten(operand, false, "array"); r.Some? && Split(r.value, '"') == ["[", operand, "]"]
    ensures Rewritten(operand, true, "array") == Some(operand)
    ensures dataType != "object" && dataType != "array" ==> forall partial :: Rewritten(operand, partial, dataType) == Some(operand)
  {
    if Free(operand, '"') {
      SplitsNothing("]", '"');
      SplitsOff(operand, "]", '"');
      SplitsOff("[", operand + ['"'] + "]", '"');
      assert "[\"" == "[" + ['"'] && "\"]" == ['"'] + "]";
      assert "[" + ['"'] + (operand + ['"'] + "]") == "[\"" + operand + "\"]";
    }
  }

  // ---- Grouping one value ----------------------------------------------------------------------------------

  // The operator in front of a text that does not extend it is the one that is taken.
  lemma TakesOperator(op: string, x: string)
    requires op in PREFIXES && !Extends(op, x)
    ensures OperatorOf(op + x) == op && OperandOf(op + x) == x
  {
    ReparseIff(op, x);
  }

  lemma OneFiled(m: Groups, f: Filed)
    requires Grouped(map[], m, [f])
    ensures m == map[f.key := [f.operand]]
  {
    assert [f][..0] == [];
    forall key ensures EntryGrew(map[], m, [f], key) && Under([f], key) == if key == f.key then [f.operand] else [] {
      assert Under([], key) == [];
    }
    forall key ensures key in m <==> key == f.key {
      assert EntryGrew(map[], m, [f], key);
    }
    assert EntryGrew(map[], m, [f], f.key);
    assert m.Keys == {f.key} && m[f.key] == [f.operand];
  }

  lemma PartialOne(value: string)
    ensures IsPartial([value]) <==> '*' in value
  {
    StarIsContained(value);
    var values, stars := [value], ["*"];
    assert values[0] in values && stars[0] in stars;
    assert Contains(value, "*") ==> SomeContains(values, stars);
  }

  /**
   An exact value of an object or array property is filed under its operator with "@>"; of any other property, unless
   it is a date, under its operator alone.
  */
  lemma ExactValueIsFiled(m: Groups, op: string, x: string, dataType: string, ago: string -> string)
    requires op in PREFIXES && !Extends(op, x) && '*' !in op + x && Dispatched(m, [op + x], dataType, ago)
    ensures dataType == "object" || dataType == "array" ==> m == map[op + ":@>" := [x]]
    ensures dataType != "object" && dataType != "array" && dataType != "timestamp" ==> m == map[op := [x]]
  {
    TakesOperator(op, x);
    PartialOne(op + x);
    if dataType == "object" || dataType == "array" {
      assert FiledAs([op + x], "@>") == [Filed(op + ":" + "@>", x)];
      assert op + ":" + "@>" == op + ":@>";
      OneFiled(m, Filed(op + ":@>", x));
    } else if dataType != "timestamp" {
      assert FiledAs([op + x], "") == [Filed(op, x)];
      OneFiled(m, Filed(op, x));
    }
  }

  /** A value with a star is filed with its LIKE text, under a key that tells objects, arrays and the rest apart. */
  lemma PartialValueIsFiled(m: Groups, op: string, x: string, dataType: string, ago: string -> string)
    requires op in PREFIXES && !Extends(op, x) && !Extends(op, ToLike(x)) && '*' in x && dataType != "timestamp"
    requires Dispatched(m, [op + x], dataType, ago)
    ensures m == map[op + (if dataType == "object" then ":*@>" else if dataType == "array" then ":*[]" else ":*") := [ToLike(x)]]
  {
    PartialOne(op + x);
    LikeAfterOperator(op, x);
    TakesOperator(op, ToLike(x));
    var inner := InnerFor(dataType);
    assert Starred([op + x]) == [op + ToLike(x)];
    assert FiledAs([op + ToLike(x)], inner) == [Filed(op + ":" + inner, ToLike(x))];
    assert ":" + "*@>" == ":*@>" && ":" + "*[]" == ":*[]" && ":" + "*" == ":*";
    assert op + ":" + inner == op + (":" + inner);
    OneFiled(m, Filed(op + ":" + inner, ToLike(x)));
  }

  // Operators hold no star, so the LIKE text of a value is that of its operand behind the operator.
  lemma LikeAfterOperator(op: string, x: string)
    requires op in PREFIXES
    ensures ToLike(op + x) == op + ToLike(x)
  {
    assert op in ["<=", ">=", "!=", "!", "<", ">", "="];
    ToLikeUnit(op + x);
    if |op| == 2 {
      ToLikeUnit((op + x)[1..]);
      assert (op + x)[1..][1..] == x;
    } else {
      assert (op + x)[1..] == x;
    }
  }

  /** A date unit is compared with ">" unless another operator stands in front, and with the instant one unit back. */
  lemma DateIsFiled(m: Groups, op: string, unit: string, ago: string -> string)
    requires op in PREFIXES && unit in ["hour", "day", "week", "month", "year"] && Dispatched(m, [op + unit], "timestamp", ago)
    ensures m == map[if op == "=" then ">" else op := [ago(unit)]]
  {
    assert unit[0] != '=' && HasPrefix((op + unit)[|op|..], unit);
    TakesOperator(op, unit);
    assert unit in DATES && Contains(op + unit, unit) && op + unit in [op + unit];
    assert FiledAsDates([op + unit], ago) == [Filed(DateKey(op + unit), ago(unit))];
    OneFiled(m, Filed(DateKey(op + unit), ago(unit)));
  }

  /** Without an operator the unit is compared with ">", and next to a unit any other text becomes the empty one. */
  lemma OtherDates(x: string, ago: string -> string)
    ensures (x == [] || x[0] !in "=!<>") ==> DateKey(x) == ">"
    ensures x !in ["hour", "day", "week", "month", "year"] && !Extends(">", x) ==> DateOperand(">" + x, ago) == ""
  {
    OperatorByStart(x);
    if !Extends(">", x) {
      assert PREFIXES[5] in PREFIXES;
      TakesOperator(">", x);
    }
  }
}

/**
 The WHERE clauses that the resolver builds: an expression tree, its value over a row in the
 three-valued logic of SQL, and the query builder's treatment of empty lists, which it drops.
 A row's JSON data is a map of string properties; a property that is absent reads as NULL.
*/
module Sql {
  import Wildcard

  datatype Row = Row(cluster: string, data: map<string, string>)

  datatype Truth = T | F | U

  datatype Op = AndOp | OrOp

  datatype Expr =
    | Always                                    // 1=1
    | Never                                     // FALSE, 1 = 0
    | ClusterIn(clusters: seq<string>)          // cluster IN (...), cluster = ANY (...)
    | ClusterNot(other: seq<string>)            // cluster != (subquery); the subquery yields at most one value
    | HasKey(key: string)                       // data ? 'key'
    | LacksKey(key: string)                     // NOT(data ? 'key'), (data ? 'key') IS NOT TRUE
    | PropIn(key: string, values: seq<string>)  // data->'key' ?| values, data->'key' ? 'value', data->>'key' IN (...)
    | PropLike(key: string, pattern: string)    // data->>'key' LIKE pattern
    | List(op: Op, es: seq<Expr>)

  /** The API group of a row; core resources have no such property. */
  function GroupOf(row: Row): string {
    if "apigroup" in row.data then row.data["apigroup"] else ""
  }

  function Lift(b: bool): Truth {
    if b then T else F
  }

  function And3(a: Truth, b: Truth): Truth {
    if a == F || b == F then F else if a == T && b == T then T else U
  }

  function Or3(a: Truth, b: Truth): Truth {
    if a == T || b == T then T else if a == F && b == F then F else U
  }

  function Eval(e: Expr, row: Row): Truth
    decreases e, 1
  {
    match e
    case Always => T
    case Never => F
    case ClusterIn(cs) => Lift(row.cluster in cs)
    case ClusterNot(other) => if other == [] then U else Lift(row.cluster != other[0])
    case HasKey(k) => Lift(k in row.data)
    case LacksKey(k) => Lift(k !in row.data)
    case PropIn(k, vs) => if k in row.data then Lift(row.data[k] in vs) else U
    case PropLike(k, p) => if k in row.data then Lift(Wildcard.Like(p, row.data[k])) else U
    case List(AndOp, es) => EvalAnd(es, row)
    case List(OrOp, es) => EvalOr(es, row)
  }

  function EvalAnd(es: seq<Expr>, row: Row): Truth
    decreases es, 0
  {
    if es == [] then T else And3(Eval(es[0], row), EvalAnd(es[1..], row))
  }

  function EvalOr(es: seq<Expr>, row: Row): Truth
    decreases es, 0
  {
    if es == [] then F else Or3(Eval(es[0], row), EvalOr(es[1..], row))
  }

  /**
   The tests on a row: "not this cluster" is the complement of "this cluster" and unknown without one, a key is there
   or not, and tests on a property are unknown where it is absent, as comparisons with NULL are.
  */
  lemma TestsMean(row: Row, name: string, key: string, values: seq<string>, pattern: string)
    ensures Eval(ClusterNot([name]), row) == T <==> Eval(ClusterIn([name]), row) == F
    ensures Eval(ClusterIn(values), row) == T <==> row.cluster in values
    ensures Eval(ClusterNot([]), row) == U
    ensures Eval(HasKey(key), row) == T <==> Eval(LacksKey(key), row) == F
    ensures Eval(HasKey(key), row) == T <==> key in row.data
    ensures key !in row.data ==> Eval(PropIn(key, values), row) == U && Eval(PropLike(key, pattern), row) == U
    ensures key in row.data ==> Eval(PropIn(key, values), row) == (if row.data[key] in values then T else F)
    ensures key in row.data ==> Eval(PropLike(key, pattern), row) == (if Wildcard.Like(pattern, row.data[key]) then T else F)
    ensures Eval(Always, row) == T && Eval(Never, row) == F
  {
  }

  /** An expression list without expressions renders as nothing. */
  predicate IsEmpty(e: Expr) {
    e.List? && e.es == []
  }

  function DropEmpty(es: seq<Expr>): seq<Expr> {
    if es == [] then [] else (if IsEmpty(es[0]) then [] else [es[0]]) + DropEmpty(es[1..])
  }

  function And(es: seq<Expr>): Expr {
    List(AndOp, DropEmpty(es))
  }

  function Or(es: seq<Expr>): Expr {
    List(OrOp, DropEmpty(es))
  }

  function Append(l: Expr, e: Expr): Expr
    requires l.List?
  {
    List(l.op, l.es + DropEmpty([e]))
  }

  /** WHERE e selects the row; WHERE with nothing to render selects every row. */
  predicate Selects(e: Expr, row: Row) {
    IsEmpty(e) || Eval(e, row) == T
  }

  lemma {:induction false} AndIsTrue(es: seq<Expr>, row: Row)
    ensures EvalAnd(es, row) == T <==> forall e | e in es :: Eval(e, row) == T
  {
    if es != [] {
      AndIsTrue(es[1..], row);
      assert forall e | e in es :: e == es[0] || e in es[1..];
      assert EvalAnd(es, row) == And3(Eval(es[0], row), EvalAnd(es[1..], row));
      assert es[0] in es && forall e | e in es[1..] :: e in es;
    }
  }

  lemma {:induction false} OrIsTrue(es: seq<Expr>, row: Row)
    ensures EvalOr(es, row) == T <==> exists e | e in es :: Eval(e, row) == T
  {
    if es != [] {
      OrIsTrue(es[1..], row);
      assert forall e | e in es :: e == es[0] || e in es[1..];
      assert EvalOr(es, row) == Or3(Eval(es[0], row), EvalOr(es[1..], row));
      assert es[0] in es && forall e | e in es[1..] :: e in es;
    }
  }

  lemma {:induction false} DropEmptyKeeps(es: seq<Expr>)
    ensures forall e :: e in DropEmpty(es) <==> e in es && !IsEmpty(e)
  {
    if es != [] {
      DropEmptyKeeps(es[1..]);
    }
  }

  /** A conjunction is its non-empty parts; it is itself empty when there are none. */
  lemma AndMeans(es: seq<Expr>, row: Row)
    ensures Eval(And(es), row) == T <==> forall e | e in es && !IsEmpty(e) :: Eval(e, row) == T
    ensures IsEmpty(And(es)) <==> forall e | e in es :: IsEmpty(e)
  {
    DropEmptyKeeps(es);
    AndIsTrue(DropEmpty(es), row);
    assert DropEmpty(es) != [] ==> DropEmpty(es)[0] in es && !IsEmpty(DropEmpty(es)[0]);
  }

  /** A disjunction is its non-empty parts; it is itself empty when there are none. */
  lemma OrMeans(es: seq<Expr>, row: Row)
    ensures Eval(Or(es), row) == T <==> exists e | e in es && !IsEmpty(e) :: Eval(e, row) == T
    ensures IsEmpty(Or(es)) <==> forall e | e in es :: IsEmpty(e)
  {
    DropEmptyKeeps(es);
    OrIsTrue(DropEmpty(es), row);
    assert DropEmpty(es) != [] ==> DropEmpty(es)[0] in es && !IsEmpty(DropEmpty(es)[0]);
  }

  lemma AppendMeans(l: Expr, e: Expr, row: Row)
    requires l.List? && l.op == OrOp
    ensures Eval(Append(l, e), row) == T <==> Eval(l, row) == T || (!IsEmpty(e) && Eval(e, row) == T)
    ensures IsEmpty(Append(l, e)) <==> IsEmpty(l) && IsEmpty(e)
  {
    assert DropEmpty([e]) == if IsEmpty(e) then [] else [e];
    OrIsTrue(l.es, row);
    OrIsTrue(l.es + DropEmpty([e]), row);
    assert forall x :: x in l.es + DropEmpty([e]) <==> x in l.es || (x == e && !IsEmpty(e));
  }
}

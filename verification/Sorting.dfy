/** The order of Go strings, and sorting as the library does it: the sorted permutation of the input. */
module Sorting {

  /** Go's string comparison, a <= b. */
  predicate StringLe(a: string, b: string) {
    a == [] || (b != [] && (a[0] < b[0] || (a[0] == b[0] && StringLe(a[1..], b[1..]))))
  }

  lemma {:induction false} StringTotal(a: string, b: string)
    ensures StringLe(a, b) || StringLe(b, a)
  {
    if a != [] && b != [] {
      StringTotal(a[1..], b[1..]);
    }
  }

  lemma {:induction false} StringAntisymmetric(a: string, b: string)
    requires StringLe(a, b) && StringLe(b, a)
    ensures a == b
  {
    if a != [] {
      StringAntisymmetric(a[1..], b[1..]);
      assert a == [a[0]] + a[1..] && b == [b[0]] + b[1..];
    }
  }

  lemma {:induction false} StringTransitive(a: string, b: string, c: string)
    requires StringLe(a, b) && StringLe(b, c)
    ensures StringLe(a, c)
  {
    if a != [] && a[0] == b[0] && b[0] == c[0] {
      StringTransitive(a[1..], b[1..], c[1..]);
    }
  }

  ghost predicate IsOrder<T(!new)>(le: (T, T) -> bool) {
    && (forall a, b :: le(a, b) || le(b, a))
    && (forall a, b :: le(a, b) && le(b, a) ==> a == b)
    && (forall a, b, c :: le(a, b) && le(b, c) ==> le(a, c))
  }

  lemma StringsAreOrdered()
    ensures IsOrder(StringLe)
  {
    forall a, b ensures StringLe(a, b) || StringLe(b, a) {
      StringTotal(a, b);
    }
    forall a, b | StringLe(a, b) && StringLe(b, a) ensures a == b {
      StringAntisymmetric(a, b);
    }
    forall a, b, c | StringLe(a, b) && StringLe(b, c) ensures StringLe(a, c) {
      StringTransitive(a, b, c);
    }
  }

  predicate Sorted<T>(s: seq<T>, le: (T, T) -> bool) {
    forall i, j | 0 <= i < j < |s| :: le(s[i], s[j])
  }

  predicate Distinct<T(==)>(s: seq<T>) {
    forall i, j | 0 <= i < j < |s| :: s[i] != s[j]
  }

  function Insert<T>(x: T, s: seq<T>, le: (T, T) -> bool): seq<T> {
    if s == [] || le(x, s[0]) then [x] + s else [s[0]] + Insert(x, s[1..], le)
  }

  function Sort<T>(s: seq<T>, le: (T, T) -> bool): seq<T> {
    if s == [] then [] else Insert(s[0], Sort(s[1..], le), le)
  }

  lemma {:induction false} InsertAdds<T>(x: T, s: seq<T>, le: (T, T) -> bool)
    ensures multiset(Insert(x, s, le)) == multiset(s) + multiset{x}
  {
    if s != [] && !le(x, s[0]) {
      InsertAdds(x, s[1..], le);
      assert s == [s[0]] + s[1..];
    }
  }

  lemma {:induction false} InsertKeepsSorted<T(!new)>(x: T, s: seq<T>, le: (T, T) -> bool)
    requires IsOrder(le) && Sorted(s, le)
    ensures Sorted(Insert(x, s, le), le)
  {
    if s == [] || le(x, s[0]) {
      assert forall i | 0 <= i < |s| :: le(s[0], s[i]);
    } else {
      var r := Insert(x, s[1..], le);
      InsertKeepsSorted(x, s[1..], le);
      InsertAdds(x, s[1..], le);
      forall i | 0 <= i < |r| ensures le(s[0], r[i]) {
        assert r[i] in multiset(r);
        assert r[i] == x || r[i] in multiset(s[1..]);
      }
    }
  }

  /** Sorting yields a sorted permutation. */
  lemma {:induction false} SortSorts<T(!new)>(s: seq<T>, le: (T, T) -> bool)
    requires IsOrder(le)
    ensures Sorted(Sort(s, le), le) && multiset(Sort(s, le)) == multiset(s)
  {
    if s != [] {
      SortSorts(s[1..], le);
      InsertKeepsSorted(s[0], Sort(s[1..], le), le);
      InsertAdds(s[0], Sort(s[1..], le), le);
      assert s == [s[0]] + s[1..];
    }
  }

  lemma SameHead<T(!new)>(s: seq<T>, t: seq<T>, le: (T, T) -> bool)
    requires IsOrder(le) && Sorted(s, le) && Sorted(t, le) && multiset(s) == multiset(t) && s != [] && t != []
    ensures s[0] == t[0]
  {
    assert s[0] in multiset(t) && t[0] in multiset(s);
    var i :| 0 <= i < |s| && s[i] == t[0];
    var j :| 0 <= j < |t| && t[j] == s[0];
    assert le(s[0], s[i]) && le(t[0], t[j]);
  }

  lemma SameRest<T>(s: seq<T>, t: seq<T>)
    requires multiset(s) == multiset(t) && s != [] && t != [] && s[0] == t[0]
    ensures multiset(s[1..]) == multiset(t[1..])
  {
    assert s == [s[0]] + s[1..] && t == [t[0]] + t[1..];
    assert multiset(s[1..]) == multiset(s) - multiset{s[0]} && multiset(t[1..]) == multiset(t) - multiset{t[0]};
  }

  /** There is only one sorted permutation, so the sort's choices do not matter. */
  lemma {:induction false} SortedIsUnique<T(!new)>(s: seq<T>, t: seq<T>, le: (T, T) -> bool)
    requires IsOrder(le) && Sorted(s, le) && Sorted(t, le) && multiset(s) == multiset(t)
    ensures s == t
  {
    assert |s| == |multiset(s)| == |multiset(t)| == |t|;
    if s != [] {
      SameHead(s, t, le);
      SameRest(s, t);
      SortedIsUnique(s[1..], t[1..], le);
      assert s == [s[0]] + s[1..] && t == [t[0]] + t[1..];
    }
  }

  /** A duplicate-free sequence has its set of elements as its multiset. */
  lemma {:induction false} DistinctMultiset<T>(s: seq<T>, elements: set<T>)
    requires Distinct(s) && forall x :: x in s <==> x in elements
    ensures multiset(s) == multiset(elements)
  {
    if s != [] {
      var rest := elements - {s[0]};
      assert s == [s[0]] + s[1..];
      forall x ensures x in s[1..] <==> x in rest {
        if x in s[1..] {
          assert x in s;
        }
      }
      DistinctMultiset(s[1..], rest);
      assert elements == rest + {s[0]};
    }
  }

  /** A sequence with the multiset of a set has no duplicates. */
  lemma {:induction false} SetHasNoDuplicates<T>(s: seq<T>, elements: set<T>)
    requires multiset(s) == multiset(elements)
    ensures Distinct(s) && forall x :: x in s <==> x in elements
  {
    forall x ensures x in s <==> x in elements {
      assert x in s <==> x in multiset(s);
    }
    forall i, j | 0 <= i < j < |s| ensures s[i] != s[j] {
      assert s == s[..j] + s[j..];
      assert s[i] in s[..j] && s[j] in s[j..];
      assert multiset(s)[s[i]] == multiset(s[..j])[s[i]] + multiset(s[j..])[s[i]];
      assert multiset(s[..j])[s[i]] >= 1 && multiset(s[j..])[s[j]] >= 1;
    }
  }

  // The keys of a map as the range over it finds them, in an order of the runtime's choosing.
  method CollectKeys(s: set<string>) returns (keys: seq<string>)
    ensures multiset(keys) == multiset(s)
  {
    keys := [];
    var rest := s;
    while rest != {}
      invariant rest <= s && multiset(keys) == multiset(s - rest)
    {
      var x :| x in rest;
      assert s - (rest - {x}) == (s - rest) + {x};
      keys := keys + [x];
      rest := rest - {x};
    }
    assert s - rest == s;
  }

  // getKeys, pkg/resolver/searchHelper.go:439-453: each key once, sorted.
  method GetKeys(s: set<string>) returns (keys: seq<string>)
    ensures (forall x :: x in keys <==> x in s) && |keys| == |s| && (keys == ["*"] <==> s == {"*"})
    ensures Sorted(keys, StringLe) && Distinct(keys)
  {
    var unsorted := CollectKeys(s);
    StringsAreOrdered();
    SortSorts(unsorted, StringLe);
    keys := Sort(unsorted, StringLe);
    SetHasNoDuplicates(keys, s);
    assert |keys| == |multiset(keys)| == |multiset(s)|;
    StarAlone(keys, s);
  }

  lemma StarAlone(keys: seq<string>, s: set<string>)
    requires (forall x :: x in keys <==> x in s) && |keys| == |s|
    ensures keys == ["*"] <==> s == {"*"}
  {
    if keys == ["*"] {
      assert "*" in keys && forall x | x in s :: x in keys;
    }
    if s == {"*"} {
      assert keys[0] in keys;
    }
  }
}

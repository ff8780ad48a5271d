/** Small shared vocabulary: optional values and strictly increasing sequences. */
module Prelude {

  datatype Option<+T> = None | Some(value: T)

  /** The notifications in `s` appear in strictly increasing order, hence without duplicates. */
  ghost predicate Increasing(s: seq<nat>) {
    forall i, j | 0 <= i < j < |s| :: s[i] < s[j]
  }

  /** Every element of `s` is below `n`. */
  ghost predicate AllBelow(s: seq<nat>, n: int) {
    forall x | x in s :: x < n
  }

  lemma IncreasingAppend(s: seq<nat>, n: nat)
    requires Increasing(s) && AllBelow(s, n)
    ensures Increasing(s + [n])
  {
    forall i, j | 0 <= i < j < |s + [n]| ensures (s + [n])[i] < (s + [n])[j] {
      assert s[i] in s;
    }
  }

  function Min(a: int, b: int): int {
    if a <= b then a else b
  }
}

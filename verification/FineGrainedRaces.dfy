/**
 The in-place deletion of "" from a rule's groups takes no lock, and the array is shared with every copy of the cached
 permissions: what another goroutine can see that reads the groups, one by one, while they are being moved.
*/
module FineGrainedRaces {
  import opened FineGrained

  // The array, how many of its elements the deletion has written, and what the reader has read so far.
  datatype State = State(groups: seq<string>, written: nat, seen: seq<string>)

  datatype Step = WriteNext | ReadNext

  predicate Enabled(s: State, a: Step) {
    match a
    case WriteNext => s.written < |s.groups|
    case ReadNext => |s.seen| < |s.groups|
  }

  // slices.Delete(groups, 0, 1) moves each element to the front and clears the last.
  function Apply(s: State, a: Step): State
    requires Enabled(s, a)
  {
    match a
    case WriteNext =>
      var next := if s.written + 1 < |s.groups| then s.groups[s.written + 1] else "";
      s.(groups := s.groups[s.written := next], written := s.written + 1)
    case ReadNext => s.(seen := s.seen + [s.groups[|s.seen|]])
  }

  /** The steps lead from s to t, in any interleaving of the two goroutines. */
  ghost predicate Leads(s: State, steps: seq<Step>, t: State)
    decreases |steps|
  {
    if steps == [] then s == t else Enabled(s, steps[0]) && Leads(Apply(s, steps[0]), steps[1..], t)
  }

  function Shifted(groups: seq<string>): (r: seq<string>)
    requires groups != []
    ensures |r| == |groups|
  {
    groups[1..] + [""]
  }

  /** Every element read is that of the groups before the deletion or of those after it, independently of the others. */
  predicate Mixed(groups: seq<string>, seen: seq<string>)
    requires groups != []
  {
    |seen| <= |groups| && forall j | 0 <= j < |seen| :: seen[j] == groups[j] || seen[j] == Shifted(groups)[j]
  }

  ghost predicate CanSee(groups: seq<string>, seen: seq<string>) {
    exists steps, t :: Leads(State(groups, 0, []), steps, t) && t.seen == seen
  }

  // Half-way: the written elements are shifted, the others are not.
  ghost predicate HalfWay(groups: seq<string>, s: State)
    requires groups != []
  {
    && s.written <= |groups| == |s.groups| && Mixed(groups, s.seen)
    && forall j | 0 <= j < |groups| :: s.groups[j] == if j < s.written then Shifted(groups)[j] else groups[j]
  }

  lemma {:induction false} StaysHalfWay(groups: seq<string>, s: State, steps: seq<Step>, t: State)
    requires groups != [] && HalfWay(groups, s) && Leads(s, steps, t)
    ensures HalfWay(groups, t)
    decreases |steps|
  {
    if steps != [] {
      StaysHalfWay(groups, Apply(s, steps[0]), steps[1..], t);
    }
  }

  lemma {:induction false} OneMore(s: State, steps: seq<Step>, t: State, a: Step)
    requires Leads(s, steps, t) && Enabled(t, a)
    ensures Leads(s, steps + [a], Apply(t, a))
    decreases |steps|
  {
    if steps == [] {
      assert (steps + [a])[1..] == [];
    } else {
      assert (steps + [a])[0] == steps[0] && (steps + [a])[1..] == steps[1..] + [a];
      OneMore(Apply(s, steps[0]), steps[1..], t, a);
    }
  }

  // The deletion goes on, without the reader, until n elements are written.
  lemma {:induction false} WritesTo(s: State, steps: seq<Step>, t: State, n: nat) returns (more: seq<Step>, u: State)
    requires Leads(s, steps, t) && t.written <= n <= |t.groups|
    ensures Leads(s, more, u) && u.written == n && u.seen == t.seen && |u.groups| == |t.groups|
    decreases n - t.written
  {
    more, u := steps, t;
    if t.written < n {
      OneMore(s, steps, t, WriteNext);
      more, u := WritesTo(s, steps + [WriteNext], Apply(t, WriteNext), n);
    }
  }

  // The reader keeps behind the deletion where it is to see the old element, and ahead where the new one.
  lemma {:induction false} Reads(groups: seq<string>, seen: seq<string>) returns (steps: seq<Step>, t: State)
    requires groups != [] && Mixed(groups, seen)
    ensures Leads(State(groups, 0, []), steps, t) && t.seen == seen && t.written <= |seen|
    decreases |seen|
  {
    var start := State(groups, 0, []);
    steps, t := [], start;
    if seen != [] {
      var j := |seen| - 1;
      steps, t := Reads(groups, seen[..j]);
      if seen[j] != groups[j] {
        StaysHalfWay(groups, start, steps, t);
        steps, t := WritesTo(start, steps, t, j + 1);
      }
      StaysHalfWay(groups, start, steps, t);
      OneMore(start, steps, t, ReadNext);
      steps, t := steps + [ReadNext], Apply(t, ReadNext);
      assert seen == seen[..j] + [seen[j]];
    }
  }

  /** What a reader can see while "" is deleted from the front of the groups: any mixture of before and after. */
  lemma SeenIff(groups: seq<string>, seen: seq<string>)
    requires groups != []
    ensures CanSee(groups, seen) <==> Mixed(groups, seen)
  {
    if CanSee(groups, seen) {
      var steps, t :| Leads(State(groups, 0, []), steps, t) && t.seen == seen;
      StaysHalfWay(groups, State(groups, 0, []), steps, t);
    }
    if Mixed(groups, seen) {
      var steps, t := Reads(groups, seen);
    }
  }

  /** It never sees a group that the rule does not have: a concurrent check is never granted too much. */
  lemma SeesNoMore(groups: seq<string>, seen: seq<string>)
    requires groups != [] && groups[0] == "" && CanSee(groups, seen)
    ensures forall x | x in seen :: x in groups
  {
    SeenIff(groups, seen);
    assert "" in groups;
  }

  /**
   But it can miss a group the rule has, exactly if the group does not stand next to itself: between reading one
   element and the next the deletion can carry it past the reader.
  */
  lemma MissesIff(groups: seq<string>, x: string)
    requires groups != []
    ensures (exists seen :: CanSee(groups, seen) && |seen| == |groups| && x !in seen) <==>
            forall j | 0 <= j < |groups| :: groups[j] != x || Shifted(groups)[j] != x
  {
    if forall j | 0 <= j < |groups| :: groups[j] != x || Shifted(groups)[j] != x {
      var seen := seq(|groups|, j requires 0 <= j < |groups| => if groups[j] != x then groups[j] else Shifted(groups)[j]);
      SeenIff(groups, seen);
      assert x !in seen;
    }
    forall seen | CanSee(groups, seen) && |seen| == |groups| && x !in seen
      ensures forall j | 0 <= j < |groups| :: groups[j] != x || Shifted(groups)[j] != x {
      SeenIff(groups, seen);
      assert forall j | 0 <= j < |groups| :: seen[j] in seen;
    }
  }

  /** A concrete rule: a check for "apps" reads "" and then, after the move, "batch", and finds no "apps". */
  lemma AppsMissed()
    ensures exists seen :: CanSee(["", "apps", "batch"], seen) && |seen| == 3 && "apps" !in seen
  {
    MissesIff(["", "apps", "batch"], "apps");
  }

  // The deletion moves the elements as the whole edit does.
  lemma EditIsShift(groups: seq<string>)
    requires "*" !in groups && groups != [] && groups[0] == ""
    ensures Edited(groups) == Shifted(groups)
  {
    assert IndexOf(groups, "") == 0;
  }
}

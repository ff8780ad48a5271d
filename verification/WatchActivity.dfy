/**
 A delivery keeps a watch alive: the activity stamp that follows it is at least the time of the delivery, so no
 cleanup pass takes the watch for idle until the timeout has passed since.
*/
module WatchActivity {
  import opened Prelude
  import opened WatchProtocol
  import opened WatchSafety
  import opened WatchRuns
  import opened WatchCleanup

  /** The home of watch w is the singleton, and its map holds w under w's own ID. */
  ghost predicate Held(s: State, w: nat) {
    && w < |s.watchers| && s.watchers[w].home.Some? && s.instance == s.watchers[w].home
    && s.instance.value < |s.insts|
    && s.watchers[w].id in s.insts[s.instance.value].subs && s.insts[s.instance.value].subs[s.watchers[w].id] == w
  }

  // On its way from a delivery to its stamp.
  ghost predicate Stamping(pc: WPc, w: nat, h: nat) {
    || pc.ActWaitGlobal? || pc.ActReadPtr? || pc == ActWaitMu(h) || pc == ActLookup(h)
    || pc == ActWaitSub(w) || pc == ActStamp(w)
  }

  // Watch w has been stamped since time t, or is on its way to be.
  ghost predicate StampDue(s: State, w: nat, t: nat) {
    && w < |s.watchers| && s.watchers[w].home.Some? && t <= s.clock
    && (t <= s.watchers[w].lastActivity || Stamping(s.watchers[w].pc, w, s.watchers[w].home.value))
  }

  // A step of another thread leaves the program counter of w.
  lemma LoopLeavesPc(s: State, i: nat, a: LAct, w: nat)
    requires LEnabled(s, i, a) && w < |s.watchers|
    ensures w < |LApply(s, i, a).watchers| && LApply(s, i, a).watchers[w].pc == s.watchers[w].pc
  {
  }

  lemma CleanupLeavesPc(c: Config, s: State, i: nat, a: CAct, w: nat)
    requires CEnabled(s, i, a) && w < |s.watchers|
    ensures w < |CApply(c, s, i, a).watchers| && CApply(c, s, i, a).watchers[w].pc == s.watchers[w].pc
  {
  }

  lemma OtherLeavesPc(c: Config, s: State, v: nat, a: WAct, w: nat)
    requires WEnabled(s, v, a) && w < |s.watchers| && v != w
    ensures w < |WApply(c, s, v, a).watchers| && WApply(c, s, v, a).watchers[w].pc == s.watchers[w].pc
  {
    if MovesEvent(a) {
      MoversStayAlone(c, s, v, a);
    } else if MovesPc(a) {
      PcMoverShape(c, s, v, a);
    } else if a.Delete? {
      DeleterLeavesPc(s, v, s.watchers[v].pc.i, w);
    }
  }

  lemma DeleterLeavesPc(s: State, v: nat, i: nat, w: nat)
    requires w < |s.watchers| && v < |s.watchers| && v != w && i < |s.insts|
    requires s.watchers[v].id in s.insts[i].subs ==> s.insts[i].subs[s.watchers[v].id] < |s.watchers|
    ensures w < |DoDelete(s, v, i).watchers| && DoDelete(s, v, i).watchers[w].pc == s.watchers[w].pc
  {
  }

  // The steps of w itself: each brings it closer to the stamp, and the stamp is taken from the clock.
  lemma OwnStepStamps(c: Config, s: State, w: nat, a: WAct)
    requires Inv(c, s) && Held(s, w) && WEnabled(s, w, a) && Stamping(s.watchers[w].pc, w, s.watchers[w].home.value)
    ensures w < |WApply(c, s, w, a).watchers|
    ensures var x, y := s.watchers[w], WApply(c, s, w, a).watchers[w];
      y.home == x.home && (Stamping(y.pc, w, x.home.value) || y.lastActivity == s.clock)
  {
  }

  lemma ClockNeverFalls(c: Config, s: State, a: Action)
    requires Enabled(s, a)
    ensures s.clock <= Apply(c, s, a).clock
  {
  }

  lemma StepKeepsDue(c: Config, s: State, a: Action, w: nat, t: nat)
    requires Inv(c, s) && Enabled(s, a) && Held(s, w) && StampDue(s, w, t)
    ensures StampDue(Apply(c, s, a), w, t)
  {
    ClockNeverFalls(c, s, a);
    StepEvolves(c, s, a);
    assert Evolves(s.watchers[w], Apply(c, s, a).watchers[w]);
    match a
    case OfWatch(v, wa) =>
      if v != w {
        OtherLeavesPc(c, s, v, wa, w);
      } else if Stamping(s.watchers[w].pc, w, s.watchers[w].home.value) {
        OwnStepStamps(c, s, w, wa);
      }
    case OfLoop(i, la) => LoopLeavesPc(s, i, la, w);
    case OfCleanup(i, ca) => CleanupLeavesPc(c, s, i, ca, w);
    case _ =>
  }

  // Step j delivers an event to the client of w, and until k the home of w is the singleton and holds it.
  ghost predicate DeliversThenHeld(run: seq<State>, acts: seq<Action>, j: nat, k: nat, w: nat)
    requires |run| == |acts| + 1
  {
    j < k < |run| && acts[j] == OfWatch(w, Deliver) && forall m | j <= m < k :: Held(run[m], w)
  }

  lemma {:induction false} DueAfterDelivery(c: Config, run: seq<State>, acts: seq<Action>, j: nat, k: nat, w: nat)
    requires Run(c, run, acts) && DeliversThenHeld(run, acts, j, k, w)
    ensures StampDue(run[k], w, run[j].clock)
  {
    RunKeeps(c, run, acts, k - 1);
    assert Follows(c, run, acts, k - 1);
    if k == j + 1 {
      assert Held(run[j], w);
      DeliverIsDue(c, run[j], w);
    } else {
      DueAfterDelivery(c, run, acts, j, k - 1, w);
      StepKeepsDue(c, run[k - 1], acts[k - 1], w, run[j].clock);
    }
  }

  lemma DeliverIsDue(c: Config, s: State, w: nat)
    requires Inv(c, s) && Held(s, w) && WEnabled(s, w, Deliver)
    ensures StampDue(WApply(c, s, w, Deliver), w, s.clock)
  {
    assert WatchOk(s, s.watchers[w]);
  }

  /**
   A watch that has delivered an event and is waiting for the next one has been stamped since, if its home was the
   singleton and held it all the while.
  */
  lemma DeliveryIsStamped(c: Config, run: seq<State>, acts: seq<Action>, j: nat, k: nat, w: nat)
    requires Run(c, run, acts) && DeliversThenHeld(run, acts, j, k, w)
    requires w < |run[k].watchers| && run[k].watchers[w].pc.Watching?
    ensures run[k].watchers[w].lastActivity >= run[j].clock
  {
    DueAfterDelivery(c, run, acts, j, k, w);
  }

  // No cleanup has read w as expired and is about to cancel it.
  ghost predicate NotCondemned(s: State, w: nat) {
    forall i | 0 <= i < |s.insts| :: !(s.insts[i].cleanup.Evicting? && s.insts[i].cleanup.v == w)
  }

  lemma EvictsItsOwn(c: Config, run: seq<State>, acts: seq<Action>, q: nat, i: nat, a: CAct, w: nat)
    requires Run(c, run, acts) && q < |acts| && acts[q] == OfCleanup(i, a)
    requires w < |run[q].watchers| && w < |run[q + 1].watchers|
    requires !run[q].watchers[w].cancelled && run[q + 1].watchers[w].cancelled
    ensures i < |run[q].insts| && run[q].insts[i].cleanup.Evicting? && run[q].insts[i].cleanup.v == w
  {
    RunKeeps(c, run, acts, q);
    assert Follows(c, run, acts, q);
    OnlyEvictCancels(c, run[q], i, a, w);
  }

  // A cancel at q rests on a reading of w's stamps, and that is not before k if w was not condemned then.
  lemma ReadAfter(c: Config, run: seq<State>, acts: seq<Action>, k: nat, q: nat, i: nat, a: CAct, w: nat) returns (r: nat)
    requires Run(c, run, acts) && k <= q < |acts| && acts[q] == OfCleanup(i, a) && NotCondemned(run[k], w)
    requires w < |run[q].watchers| && w < |run[q + 1].watchers|
    requires !run[q].watchers[w].cancelled && run[q + 1].watchers[w].cancelled
    ensures k <= r < q && w < |run[r].watchers| && i < |run[q].insts| && CReads(run[q].insts[i].cleanup)
    ensures var now, x := run[q].insts[i].cleanup.now, run[r].watchers[w];
      now - x.createdAt > c.maxLifetime || now - x.lastActivity > c.idleTimeout
  {
    CleanupCancelsOnlyExpired(c, run, acts, q, i, a, w);
    EvictsItsOwn(c, run, acts, q, i, a, w);
    var pc := run[q].insts[i].cleanup;
    r :| 0 <= r < q && Condemns(c, run, acts, r, i, pc.now, w) && forall m | r < m <= q :: PcAt(run[m], i, pc);
    assert r < k ==> PcAt(run[k], i, pc);
  }

  /**
   From there on no cleanup pass cancels the watch at a time that is within the idle timeout of that delivery and
   within the maximum lifetime of its registration.
  */
  lemma ActiveIsNotEvicted(c: Config, run: seq<State>, acts: seq<Action>, j: nat, k: nat, q: nat, i: nat, a: CAct, w: nat)
    requires Run(c, run, acts) && DeliversThenHeld(run, acts, j, k, w)
    requires w < |run[k].watchers| && run[k].watchers[w].pc.Watching? && NotCondemned(run[k], w)
    requires k <= q < |acts| && acts[q] == OfCleanup(i, a) && i < |run[q].insts| && CReads(run[q].insts[i].cleanup)
    requires var now := run[q].insts[i].cleanup.now;
      now <= run[j].clock + c.idleTimeout && now <= run[k].watchers[w].createdAt + c.maxLifetime
    ensures w < |run[q].watchers| && w < |run[q + 1].watchers|
    ensures run[q].watchers[w].cancelled == run[q + 1].watchers[w].cancelled
  {
    DeliveryIsStamped(c, run, acts, j, k, w);
    DueAfterDelivery(c, run, acts, j, k, w);
    StampsNeverDecrease(c, run, acts, k, q, w);
    StampsNeverDecrease(c, run, acts, q, q + 1, w);
    if !run[q].watchers[w].cancelled && run[q + 1].watchers[w].cancelled {
      var r := ReadAfter(c, run, acts, k, q, i, a, w);
      StampsNeverDecrease(c, run, acts, k, r, w);
    }
  }
}

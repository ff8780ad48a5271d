/**
 The cleanup pass, interleaved with everything else: when it ends it has cancelled every expired entry of its
 map, and it cancels only entries that were expired when it read their stamps.
*/
module WatchCleanup {
  import opened WatchProtocol
  import opened WatchSafety
  import opened WatchRuns

  // The pass that took place at `now` owes nothing more to this watch.
  ghost predicate Settled(c: Config, now: nat, x: Watcher) {
    x.home.Some? && (x.cancelled || !Expired(c, now, x.createdAt, x.lastActivity))
  }

  // The entries that the pass has still to judge.
  ghost function Waiting(pc: CPc): set<nat>
    requires CReads(pc)
  {
    if pc.Pass? then pc.pending else pc.pending + {pc.v}
  }

  ghost predicate SettledAt(c: Config, s: State, now: nat, v: nat) {
    v < |s.watchers| && Settled(c, now, s.watchers[v])
  }

  // During a pass, every entry that no longer waits is cancelled or not expired.
  ghost predicate JudgedOk(c: Config, s: State, i: nat)
    requires i < |s.insts|
  {
    var l := s.insts[i];
    CReads(l.cleanup) ==> forall v | v in l.subs.Values - Waiting(l.cleanup) :: SettledAt(c, s, l.cleanup.now, v)
  }

  ghost predicate AllJudged(c: Config, s: State) {
    forall i | 0 <= i < |s.insts| :: JudgedOk(c, s, i)
  }

  // No pass moved, and no map changed under a pass.
  ghost predicate KeepsPass(s: State, t: State, i: nat)
    requires i < |t.insts|
  {
    CReads(t.insts[i].cleanup) ==>
      i < |s.insts| && t.insts[i].cleanup == s.insts[i].cleanup && t.insts[i].subs == s.insts[i].subs
  }

  lemma EvolvingKeepsSettled(c: Config, s: State, t: State, now: nat, v: nat)
    requires AllEvolve(s, t) && SettledAt(c, s, now, v)
    ensures SettledAt(c, t, now, v)
  {
    assert Evolves(s.watchers[v], t.watchers[v]);
  }

  lemma KeptPassIsJudged(c: Config, s: State, t: State, i: nat)
    requires AllEvolve(s, t) && i < |s.insts| && i < |t.insts| && JudgedOk(c, s, i) && KeepsPass(s, t, i)
    ensures JudgedOk(c, t, i)
  {
    var l := t.insts[i];
    if CReads(l.cleanup) {
      forall v | v in l.subs.Values - Waiting(l.cleanup) ensures SettledAt(c, t, l.cleanup.now, v) {
        EvolvingKeepsSettled(c, s, t, l.cleanup.now, v);
      }
    }
  }

  lemma KeptPassesAreJudged(c: Config, s: State, t: State)
    requires AllJudged(c, s) && AllEvolve(s, t)
    requires forall i | 0 <= i < |t.insts| :: KeepsPass(s, t, i)
    ensures AllJudged(c, t)
  {
    forall i | 0 <= i < |t.insts| ensures JudgedOk(c, t, i) {
      assert KeepsPass(s, t, i);
      if i < |s.insts| {
        KeptPassIsJudged(c, s, t, i);
      }
    }
  }

  // A pass holds the read lock, so no watch registers or unregisters under it.
  lemma WatchKeepsPass(c: Config, s: State, w: nat, a: WAct, i: nat)
    requires Inv(c, s) && WEnabled(s, w, a) && i < |WApply(c, s, w, a).insts|
    ensures KeepsPass(s, WApply(c, s, w, a), i)
  {
    if i < |s.insts| {
      assert MuWL(s, i, w);
    }
  }

  lemma LoopKeepsPass(s: State, i: nat, a: LAct, j: nat)
    requires LEnabled(s, i, a) && j < |LApply(s, i, a).insts|
    ensures KeepsPass(s, LApply(s, i, a), j)
  {
  }

  lemma OtherPassStays(c: Config, s: State, i: nat, a: CAct, j: nat)
    requires CEnabled(s, i, a) && j < |CApply(c, s, i, a).insts| && j != i
    ensures KeepsPass(s, CApply(c, s, i, a), j)
  {
  }

  // An entry stops waiting when it is read as not expired, or when it is cancelled.
  lemma DoneIsSettled(c: Config, s: State, i: nat, a: CAct)
    requires Inv(c, s) && CEnabled(s, i, a) && (a.Judge? || a.Evict?)
    ensures var pc := s.insts[i].cleanup; var t := CApply(c, s, i, a);
      t.insts[i].cleanup.Pass? ==> SettledAt(c, t, pc.now, pc.v)
  {
    assert InstOk(c, s, i);
  }

  lemma PassMovesOn(c: Config, s: State, i: nat, a: CAct)
    requires Inv(c, s) && CEnabled(s, i, a) && JudgedOk(c, s, i)
    ensures JudgedOk(c, CApply(c, s, i, a), i)
  {
    var t := CApply(c, s, i, a);
    var subs := s.insts[i].subs.Values;
    var before, after := s.insts[i].cleanup, t.insts[i].cleanup;
    CleanupStaysAside(c, s, i, a);
    if CReads(after) {
      forall v | v in subs - Waiting(after) ensures SettledAt(c, t, after.now, v) {
        if (a.Judge? || a.Evict?) && v == before.v {
          DoneIsSettled(c, s, i, a);
        } else {
          assert !a.LockPass? && v in subs - Waiting(before);
          EvolvingKeepsSettled(c, s, t, before.now, v);
        }
      }
    }
  }

  lemma CleanupStepJudges(c: Config, s: State, i: nat, a: CAct)
    requires Inv(c, s) && AllJudged(c, s) && CEnabled(s, i, a)
    ensures AllJudged(c, CApply(c, s, i, a))
  {
    var t := CApply(c, s, i, a);
    CleanupStaysAside(c, s, i, a);
    forall j | 0 <= j < |t.insts| ensures JudgedOk(c, t, j) {
      if j == i {
        PassMovesOn(c, s, i, a);
      } else {
        OtherPassStays(c, s, i, a, j);
        KeptPassIsJudged(c, s, t, j);
      }
    }
  }

  lemma StepJudges(c: Config, s: State, a: Action)
    requires Inv(c, s) && AllJudged(c, s) && Enabled(s, a)
    ensures AllJudged(c, Apply(c, s, a))
  {
    var t := Apply(c, s, a);
    if a.OfCleanup? {
      CleanupStepJudges(c, s, a.i, a.ca);
    } else {
      StepEvolves(c, s, a);
      forall i | 0 <= i < |t.insts| ensures KeepsPass(s, t, i) {
        if a.OfWatch? {
          WatchKeepsPass(c, s, a.w, a.wa, i);
        } else if a.OfLoop? {
          LoopKeepsPass(s, a.i, a.la, i);
        }
      }
      KeptPassesAreJudged(c, s, t);
    }
  }

  lemma {:induction false} RunJudges(c: Config, run: seq<State>, acts: seq<Action>, k: nat)
    requires Run(c, run, acts) && k < |run|
    ensures AllJudged(c, run[k])
  {
    if k > 0 {
      RunJudges(c, run, acts, k - 1);
      RunKeeps(c, run, acts, k - 1);
      assert Follows(c, run, acts, k - 1);
      StepJudges(c, run[k - 1], acts[k - 1]);
    }
  }

  // The pass under way at a step, up to the release.
  ghost predicate InPass(pc: CPc) {
    pc.PassWait? || CReads(pc)
  }

  lemma PassGoesOn(c: Config, s: State, a: Action, i: nat)
    requires Inv(c, s) && Enabled(s, a) && i < |Apply(c, s, a).insts| && InPass(Apply(c, s, a).insts[i].cleanup)
    ensures i < |s.insts|
    ensures var now := Apply(c, s, a).insts[i].cleanup.now;
      (InPass(s.insts[i].cleanup) && s.insts[i].cleanup.now == now) || (a == OfCleanup(i, Tick) && now == s.clock)
  {
    var t := Apply(c, s, a);
    if a.OfWatch? {
      WatchKeepsTicker(c, s, a.w, a.wa, i);
    } else if a.OfLoop? {
      LoopKeepsTicker(s, a.i, a.la, i);
    }
  }

  lemma WatchKeepsTicker(c: Config, s: State, w: nat, a: WAct, i: nat)
    requires WEnabled(s, w, a) && i < |WApply(c, s, w, a).insts|
    ensures WApply(c, s, w, a).insts[i].cleanup == if i < |s.insts| then s.insts[i].cleanup else Idle
  {
    if MovesEvent(a) {
      MoversStayAlone(c, s, w, a);
    } else if MovesPc(a) {
      PcMoverShape(c, s, w, a);
    }
  }

  lemma LoopKeepsTicker(s: State, i: nat, a: LAct, j: nat)
    requires LEnabled(s, i, a) && j < |LApply(s, i, a).insts|
    ensures j < |s.insts| && LApply(s, i, a).insts[j].cleanup == s.insts[j].cleanup
  {
  }

  /** The time of a pass is that of the clock at its own tick, and from the tick on the pass has not stopped. */
  lemma {:induction false} PassIsOfItsTick(c: Config, run: seq<State>, acts: seq<Action>, k: nat, i: nat) returns (j: nat)
    requires Run(c, run, acts) && k < |run| && i < |run[k].insts| && InPass(run[k].insts[i].cleanup)
    ensures j < k && acts[j] == OfCleanup(i, Tick) && run[k].insts[i].cleanup.now == run[j].clock
    ensures forall m | j < m <= k :: i < |run[m].insts| && InPass(run[m].insts[i].cleanup)
  {
    assert k > 0;
    RunKeeps(c, run, acts, k - 1);
    assert Follows(c, run, acts, k - 1);
    PassGoesOn(c, run[k - 1], acts[k - 1], i);
    if InPass(run[k - 1].insts[i].cleanup) && run[k - 1].insts[i].cleanup.now == run[k].insts[i].cleanup.now {
      j := PassIsOfItsTick(c, run, acts, k - 1, i);
    } else {
      j := k - 1;
    }
  }

  /**
   When a pass releases the map, every entry that is expired at the pass's time is cancelled, whatever was stamped,
   cancelled or registered while the pass was under way.
  */
  lemma PassCancelsExpired(c: Config, run: seq<State>, acts: seq<Action>, k: nat, i: nat)
    requires Run(c, run, acts) && k < |acts| && acts[k] == OfCleanup(i, UnlockPass)
    ensures var s := run[k];
      && i < |s.insts| && s.insts[i].cleanup.Pass?
      && forall v | v in s.insts[i].subs.Values ::
           && v < |s.watchers|
           && (s.insts[i].cleanup.now - s.watchers[v].createdAt > c.maxLifetime ==> s.watchers[v].cancelled)
           && (s.insts[i].cleanup.now - s.watchers[v].lastActivity > c.idleTimeout ==> s.watchers[v].cancelled)
  {
    RunJudges(c, run, acts, k);
    assert Follows(c, run, acts, k);
    var l := run[k].insts[i];
    assert JudgedOk(c, run[k], i);
    forall v | v in l.subs.Values ensures SettledAt(c, run[k], l.cleanup.now, v) {
      assert v in l.subs.Values - Waiting(l.cleanup);
    }
  }

  lemma OnlyEvictCancels(c: Config, s: State, i: nat, a: CAct, w: nat)
    requires Inv(c, s) && CEnabled(s, i, a) && w < |s.watchers| && w < |CApply(c, s, i, a).watchers|
    requires !s.watchers[w].cancelled && CApply(c, s, i, a).watchers[w].cancelled
    ensures a.Evict? && s.insts[i].cleanup.v == w && w in s.insts[i].subs.Values
  {
    assert InstOk(c, s, i);
  }

  ghost predicate PcAt(s: State, i: nat, pc: CPc) {
    i < |s.insts| && s.insts[i].cleanup == pc
  }

  // At step j the pass of instance i at `now` read watch v's stamps and found it expired.
  ghost predicate Condemns(c: Config, run: seq<State>, acts: seq<Action>, j: nat, i: nat, now: nat, v: nat)
    requires j < |acts| && |run| == |acts| + 1
  {
    && acts[j] == OfCleanup(i, Judge) && i < |run[j].insts| && run[j].insts[i].cleanup.SubRead?
    && run[j].insts[i].cleanup.now == now && run[j].insts[i].cleanup.v == v && v < |run[j].watchers|
    && (now - run[j].watchers[v].createdAt > c.maxLifetime || now - run[j].watchers[v].lastActivity > c.idleTimeout)
  }

  lemma EvictingBefore(c: Config, s: State, a: Action, i: nat, pc: CPc)
    requires Inv(c, s) && Enabled(s, a) && PcAt(Apply(c, s, a), i, pc) && pc.Evicting?
    ensures i < |s.insts|
    ensures PcAt(s, i, pc) || (a == OfCleanup(i, Judge) && PcAt(s, i, SubRead(pc.now, pc.pending, pc.v))
            && pc.v < |s.watchers| && Expired(c, pc.now, s.watchers[pc.v].createdAt, s.watchers[pc.v].lastActivity))
  {
    var t := Apply(c, s, a);
    if a.OfWatch? {
      WatchKeepsPass(c, s, a.w, a.wa, i);
    } else if a.OfLoop? {
      LoopKeepsPass(s, a.i, a.la, i);
    } else if a.OfCleanup? && a.i != i {
      OtherPassStays(c, s, a.i, a.ca, i);
    }
  }

  lemma {:induction false} EvictingWasExpired(c: Config, run: seq<State>, acts: seq<Action>, k: nat, i: nat, pc: CPc)
    returns (j: nat)
    requires Run(c, run, acts) && k < |run| && PcAt(run[k], i, pc) && pc.Evicting?
    ensures j < k && Condemns(c, run, acts, j, i, pc.now, pc.v)
    ensures forall m | j < m <= k :: PcAt(run[m], i, pc)
  {
    assert k > 0;
    RunKeeps(c, run, acts, k - 1);
    assert Follows(c, run, acts, k - 1);
    EvictingBefore(c, run[k - 1], acts[k - 1], i, pc);
    if PcAt(run[k - 1], i, pc) {
      j := EvictingWasExpired(c, run, acts, k - 1, i, pc);
    } else {
      j := k - 1;
    }
  }

  /**
   A cleanup cancels only an entry of its own map, and only one that it had just found expired: between that
   reading of the stamps and the cancel, the cleanup took no other step.
  */
  lemma CleanupCancelsOnlyExpired(c: Config, run: seq<State>, acts: seq<Action>, k: nat, i: nat, a: CAct, w: nat)
    requires Run(c, run, acts) && k < |acts| && acts[k] == OfCleanup(i, a)
    requires w < |run[k].watchers| && w < |run[k + 1].watchers|
    requires !run[k].watchers[w].cancelled && run[k + 1].watchers[w].cancelled
    ensures i < |run[k].insts| && run[k].insts[i].cleanup.Evicting? && w in run[k].insts[i].subs.Values
    ensures var pc := run[k].insts[i].cleanup;
      exists j | 0 <= j < k :: Condemns(c, run, acts, j, i, pc.now, w) && forall m | j < m <= k :: PcAt(run[m], i, pc)
  {
    RunKeeps(c, run, acts, k);
    assert Follows(c, run, acts, k);
    OnlyEvictCancels(c, run[k], i, a, w);
    var j := EvictingWasExpired(c, run, acts, k, i, run[k].insts[i].cleanup);
  }
}

/**
 The singleton that is never replaced: an instance whose first connection failed, or whose connection did not
 close, has no loop any more and yet stays the singleton, so nothing is offered to any watch again.
*/
module WatchFailures {
  import opened Prelude
  import opened WatchProtocol
  import opened WatchSafety
  import opened WatchRuns

  /** The singleton points to an instance whose loop has ended, or never began. */
  ghost predicate Stranded(s: State, i: nat) {
    s.instance == Some(i) && i < |s.insts| && !Current(s.insts[i])
  }

  ghost predicate SameOffers(s: State, t: State) {
    && |s.watchers| <= |t.watchers|
    && forall w | 0 <= w < |t.watchers| ::
         t.watchers[w].log.offered == if w < |s.watchers| then s.watchers[w].log.offered else []
  }

  lemma NoLoopLeft(c: Config, s: State, i: nat, j: nat)
    requires Inv(c, s) && Stranded(s, i) && j < |s.insts|
    ensures !Current(s.insts[j])
  {
    CurrentIsSingleton(c, s);
  }

  lemma WatchKeepsStranded(c: Config, s: State, i: nat, w: nat, a: WAct)
    requires Inv(c, s) && Stranded(s, i) && WEnabled(s, w, a)
    ensures i < |WApply(c, s, w, a).insts| && !Current(WApply(c, s, w, a).insts[i])
  {
    assert WatchOk(s, s.watchers[w]);
  }

  lemma WatchOffersNone(c: Config, s: State, w: nat, a: WAct)
    requires Inv(c, s) && WEnabled(s, w, a)
    ensures SameOffers(s, WApply(c, s, w, a))
  {
    if MovesEvent(a) {
      MoversStayAlone(c, s, w, a);
    } else {
      OthersStayAside(c, s, w, a);
      forall v | 0 <= v < |s.watchers| ensures WApply(c, s, w, a).watchers[v].log.offered == s.watchers[v].log.offered {
        assert Quiet(s.watchers[v], WApply(c, s, w, a).watchers[v]);
      }
    }
  }

  lemma NoLoopSteps(c: Config, s: State, i: nat, j: nat, a: LAct)
    requires Inv(c, s) && Stranded(s, i)
    ensures !LEnabled(s, j, a)
  {
    if j < |s.insts| {
      NoLoopLeft(c, s, i, j);
    }
  }

  lemma CleanupKeepsStranded(c: Config, s: State, i: nat, j: nat, a: CAct)
    requires Stranded(s, i) && CEnabled(s, j, a)
    ensures Stranded(CApply(c, s, j, a), i) && SameOffers(s, CApply(c, s, j, a))
  {
  }

  lemma StepKeepsStranded(c: Config, s: State, a: Action, i: nat)
    requires Inv(c, s) && Enabled(s, a) && Stranded(s, i)
    ensures Stranded(Apply(c, s, a), i) && SameOffers(s, Apply(c, s, a))
  {
    match a
    case OfWatch(w, wa) =>
      WatchKeepsStranded(c, s, i, w, wa);
      WatchOffersNone(c, s, w, wa);
      if Apply(c, s, a).instance != Some(i) {
        OnlyOwnLoopResets(c, s, a, i);
      }
    case OfLoop(j, la) => NoLoopSteps(c, s, i, j, la);
    case OfCleanup(j, ca) => CleanupKeepsStranded(c, s, i, j, ca);
    case _ =>
  }

  /**
   A stranded singleton stays: from there on no watch, old or new, is offered anything, however often clients
   register, leave and come back.
  */
  lemma {:induction false} StrandedForever(c: Config, run: seq<State>, acts: seq<Action>, j: nat, k: nat, i: nat)
    requires Run(c, run, acts) && j <= k < |run| && Stranded(run[j], i)
    ensures Stranded(run[k], i) && SameOffers(run[j], run[k])
  {
    if j < k {
      StrandedForever(c, run, acts, j, k - 1, i);
      RunKeeps(c, run, acts, k - 1);
      assert Follows(c, run, acts, k - 1);
      StepKeepsStranded(c, run[k - 1], acts[k - 1], i);
    }
  }

  // The two ways to lose the loop of the singleton without clearing the singleton.
  ghost predicate Strands(s: State, a: Action, i: nat) {
    && s.instance == Some(i) && i < |s.insts|
    && (|| (a.OfWatch? && a.w < |s.watchers| && a.wa == StartDone(false) && s.watchers[a.w].pc == Starting(i))
        || (a == OfLoop(i, CloseConn(false)) && s.insts[i].conn))
  }

  lemma WatchStrands(c: Config, s: State, w: nat, a: WAct, i: nat)
    requires Inv(c, s) && WEnabled(s, w, a) && !Stranded(s, i)
    ensures Stranded(WApply(c, s, w, a), i) <==> Strands(s, OfWatch(w, a), i)
  {
    assert WatchOk(s, s.watchers[w]);
  }

  lemma LoopGoesOn(s: State, i: nat, a: LAct)
    requires LEnabled(s, i, a) && !a.CloseConn? && !a.Reset?
    ensures LApply(s, i, a).instance == s.instance && Current(LApply(s, i, a).insts[i])
  {
  }

  lemma LoopStrands(c: Config, s: State, j: nat, a: LAct, i: nat)
    requires Inv(c, s) && LEnabled(s, j, a) && !Stranded(s, i)
    ensures Stranded(LApply(s, j, a), i) <==> Strands(s, OfLoop(j, a), i)
  {
    CurrentIsSingleton(c, s);
    assert s.instance == Some(j);
    if !a.CloseConn? && !a.Reset? {
      LoopGoesOn(s, j, a);
    }
  }

  /** The singleton is stranded exactly by a failed first connection, or by a connection that fails to close. */
  lemma StrandedIff(c: Config, run: seq<State>, acts: seq<Action>, k: nat, i: nat)
    requires Run(c, run, acts) && k < |acts|
    ensures Stranded(run[k + 1], i) <==> Stranded(run[k], i) || Strands(run[k], acts[k], i)
  {
    RunKeeps(c, run, acts, k);
    assert Follows(c, run, acts, k);
    if Stranded(run[k], i) {
      StepKeepsStranded(c, run[k], acts[k], i);
    } else {
      match acts[k]
      case OfWatch(w, wa) => WatchStrands(c, run[k], w, wa, i);
      case OfLoop(j, la) => LoopStrands(c, run[k], j, la, i);
      case _ =>
    }
  }

  // ---- The connection --------------------------------------------------------------------------------------

  /** What the step makes of instance i's connection: the outcome of an attempt to connect, or none after a drop. */
  ghost function ConnectionAfter(s: State, a: Action, i: nat): Option<bool> {
    match a
    case OfWatch(w, StartDone(ok)) => if w < |s.watchers| && s.watchers[w].pc == Starting(i) then Some(ok) else None
    case OfLoop(j, ConnectDone(ok)) => if i == j then Some(ok) else None
    case OfLoop(j, DropDone) => if i == j then Some(false) else None
    case _ => None
  }

  lemma ConnectionStep(c: Config, s: State, a: Action, i: nat)
    requires Inv(c, s) && Enabled(s, a) && i < |Apply(c, s, a).insts|
    ensures Apply(c, s, a).insts[i].conn ==
            match ConnectionAfter(s, a, i) case Some(ok) => ok case None => i < |s.insts| && s.insts[i].conn
  {
    match a
    case OfWatch(w, wa) => WatchConnects(c, s, w, wa, i);
    case OfLoop(j, la) => LoopConnects(s, j, la, i);
    case OfCleanup(j, ca) => CleanupKeepsConnection(c, s, j, ca, i);
    case _ =>
  }

  lemma CleanupKeepsConnection(c: Config, s: State, j: nat, a: CAct, i: nat)
    requires CEnabled(s, j, a) && i < |CApply(c, s, j, a).insts|
    ensures i < |s.insts| && CApply(c, s, j, a).insts[i].conn == s.insts[i].conn
  {
  }

  lemma WatchConnects(c: Config, s: State, w: nat, a: WAct, i: nat)
    requires Inv(c, s) && WEnabled(s, w, a) && i < |WApply(c, s, w, a).insts|
    ensures WApply(c, s, w, a).insts[i].conn ==
            match ConnectionAfter(s, OfWatch(w, a), i) case Some(ok) => ok case None => i < |s.insts| && s.insts[i].conn
  {
  }

  lemma LoopConnects(s: State, j: nat, a: LAct, i: nat)
    requires LEnabled(s, j, a) && i < |LApply(s, j, a).insts|
    ensures LApply(s, j, a).insts[i].conn ==
            match ConnectionAfter(s, OfLoop(j, a), i) case Some(ok) => ok case None => i < |s.insts| && s.insts[i].conn
  {
  }

  // Step j connected instance i, and nothing has changed its connection up to k.
  ghost predicate ConnectedSince(run: seq<State>, acts: seq<Action>, j: nat, k: nat, i: nat)
    requires |run| == |acts| + 1 && k < |run|
  {
    j < k && ConnectionAfter(run[j], acts[j], i) == Some(true) && forall m | j < m < k :: ConnectionAfter(run[m], acts[m], i) == None
  }

  /** An instance has a connection exactly if its last attempt succeeded and the connection was not dropped since. */
  lemma {:induction false} ConnectedIff(c: Config, run: seq<State>, acts: seq<Action>, k: nat, i: nat)
    requires Run(c, run, acts) && k < |run| && i < |run[k].insts|
    ensures run[k].insts[i].conn <==> exists j | 0 <= j < k :: ConnectedSince(run, acts, j, k, i)
  {
    RunKeeps(c, run, acts, k - 1);
    assert Follows(c, run, acts, k - 1);
    ConnectionStep(c, run[k - 1], acts[k - 1], i);
    var after := ConnectionAfter(run[k - 1], acts[k - 1], i);
    if after == Some(true) {
      assert ConnectedSince(run, acts, k - 1, k, i);
    } else if after == None {
      SinceOneMore(c, run, acts, k - 1, k, i);
      if i < |run[k - 1].insts| {
        ConnectedIff(c, run, acts, k - 1, i);
      } else {
        NotBefore(c, run, acts, k - 1, i);
      }
    }
  }

  lemma SinceOneMore(c: Config, run: seq<State>, acts: seq<Action>, n: nat, k: nat, i: nat)
    requires Run(c, run, acts) && k == n + 1 < |run| && ConnectionAfter(run[n], acts[n], i) == None
    ensures (exists j | 0 <= j < k :: ConnectedSince(run, acts, j, k, i)) <==>
            (exists j | 0 <= j < n :: ConnectedSince(run, acts, j, n, i))
  {
    forall j: nat ensures ConnectedSince(run, acts, j, k, i) <==> ConnectedSince(run, acts, j, n, i) {
    }
  }

  // An instance that does not exist yet has not been connected.
  lemma {:induction false} NotBefore(c: Config, run: seq<State>, acts: seq<Action>, k: nat, i: nat)
    requires Run(c, run, acts) && k < |run| && i >= |run[k].insts|
    ensures forall j | 0 <= j < k :: ConnectionAfter(run[j], acts[j], i) != Some(true)
  {
    if k > 0 {
      RunKeeps(c, run, acts, k - 1);
      assert Follows(c, run, acts, k - 1);
      InstancesStay(c, run[k - 1], acts[k - 1]);
      NotBefore(c, run, acts, k - 1, i);
      NoStepBefore(c, run[k - 1], acts[k - 1], i);
    }
  }

  lemma NoStepBefore(c: Config, s: State, a: Action, i: nat)
    requires Inv(c, s) && Enabled(s, a) && i >= |s.insts|
    ensures ConnectionAfter(s, a, i) != Some(true)
  {
    if a.OfWatch? {
      assert WatchOk(s, s.watchers[a.w]);
    }
  }

  lemma InstancesStay(c: Config, s: State, a: Action)
    requires Enabled(s, a)
    ensures |s.insts| <= |Apply(c, s, a).insts|
  {
    match a
    case OfWatch(w, wa) => InstancesStayInWatch(c, s, w, wa);
    case _ =>
  }

  lemma InstancesStayInWatch(c: Config, s: State, w: nat, a: WAct)
    requires WEnabled(s, w, a)
    ensures |s.insts| <= |WApply(c, s, w, a).insts|
  {
  }
}

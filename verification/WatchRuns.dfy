/**
 What the invariant of WatchSafety says about whole runs of the watch system: no step ever sends on or
 closes a closed channel, every receiver is closed at most once, capacity and activity stamps,
 eviction, and what a cancelled watch can still receive.
*/
module WatchRuns {
  import opened Prelude
  import opened WatchProtocol
  import opened WatchSafety

  /** No run crashes: no send on a closed channel, no double close, no use of a nil listener. */
  lemma NeverCrashes(c: Config, run: seq<State>, acts: seq<Action>, k: nat)
    requires Run(c, run, acts) && k < |run|
    ensures !run[k].panicked
  {
    RunKeeps(c, run, acts, k);
  }

  /** When a fan-out is about to send to a watch, that watch still has its map entry and an open receiver. */
  lemma SendsToOpenChannel(c: Config, run: seq<State>, acts: seq<Action>, k: nat, i: nat)
    requires Run(c, run, acts) && k < |run| && i < |run[k].insts| && run[k].insts[i].loop.Offering?
    ensures var s := run[k]; var v := s.insts[i].loop.v;
      v in s.insts[i].subs.Values && v < |s.watchers| && !s.watchers[v].receiverClosed
  {
    RunKeeps(c, run, acts, k);
    OfferedIsOpen(c, run[k], i);
    assert InstOk(c, run[k], i);
  }

  /** The receiver of a watch is open until its goroutine has ended, and closed from then on. */
  lemma ClosedIffFinished(c: Config, run: seq<State>, acts: seq<Action>, k: nat, w: nat)
    requires Run(c, run, acts) && k < |run| && w < |run[k].watchers|
    ensures run[k].watchers[w].receiverClosed <==> run[k].watchers[w].pc.Finished?
  {
    RunKeeps(c, run, acts, k);
    assert WatchOk(run[k], run[k].watchers[w]);
  }

  /** No listener instance ever holds more than the configured number of subscriptions. */
  lemma WithinCapacity(c: Config, run: seq<State>, acts: seq<Action>, k: nat, i: nat)
    requires Run(c, run, acts) && k < |run| && i < |run[k].insts|
    ensures |run[k].insts[i].subs| <= c.maxActive
  {
    RunKeeps(c, run, acts, k);
    assert InstOk(c, run[k], i);
  }

  /** Both queues of a watch are bounded by the channel buffers. */
  lemma QueuesBounded(c: Config, run: seq<State>, acts: seq<Action>, k: nat, w: nat)
    requires Run(c, run, acts) && k < |run| && w < |run[k].watchers|
    ensures |run[k].watchers[w].receiver| <= 100 && |run[k].watchers[w].result| <= 100
  {
    RunKeeps(c, run, acts, k);
    assert WatchOk(run[k], run[k].watchers[w]);
  }

  /** At most one instance can still send or reset, and it is the one the singleton points to. */
  lemma OneCurrentInstance(c: Config, run: seq<State>, acts: seq<Action>, k: nat, i: nat, j: nat)
    requires Run(c, run, acts) && k < |run| && i < |run[k].insts| && j < |run[k].insts|
    requires Current(run[k].insts[i]) && Current(run[k].insts[j])
    ensures i == j && run[k].instance == Some(i)
  {
    RunKeeps(c, run, acts, k);
    assert InstOk(c, run[k], i) && InstOk(c, run[k], j);
  }

  lemma WatchKeepsInstance(c: Config, s: State, w: nat, a: WAct)
    requires Inv(c, s) && WEnabled(s, w, a) && s.instance.Some?
    ensures WApply(c, s, w, a).instance == s.instance
  {
  }

  lemma LoopKeepsInstance(s: State, i: nat, a: LAct)
    requires LEnabled(s, i, a) && !a.Reset?
    ensures LApply(s, i, a).instance == s.instance
  {
  }

  lemma OnlyOwnLoopResets(c: Config, s: State, a: Action, i: nat)
    requires Inv(c, s) && Enabled(s, a) && s.instance == Some(i) && Apply(c, s, a).instance != Some(i)
    ensures i < |s.insts| && a == OfLoop(i, Reset) && s.insts[i].loop.Resetting?
  {
    if a.OfWatch? {
      WatchKeepsInstance(c, s, a.w, a.wa);
    } else if a.OfLoop? {
      if !a.la.Reset? {
        LoopKeepsInstance(s, a.i, a.la);
      }
      assert InstOk(c, s, a.i);
    }
  }

  /** An instance is replaced only by the last step of its own loop, after the loop has exited. */
  lemma ReplacedAfterExit(c: Config, run: seq<State>, acts: seq<Action>, k: nat, i: nat)
    requires Run(c, run, acts) && k < |acts| && run[k].instance == Some(i) && run[k + 1].instance != Some(i)
    ensures i < |run[k].insts| && acts[k] == OfLoop(i, Reset) && run[k].insts[i].loop.Resetting?
  {
    RunKeeps(c, run, acts, k);
    assert Follows(c, run, acts, k);
    OnlyOwnLoopResets(c, run[k], acts[k], i);
  }

  // ---- The shapes of a watch's steps --------------------------------------------------------------

  // The steps in which a watch moves an event along.
  ghost predicate MovesEvent(a: WAct) {
    a.Receive? || a.Filter? || a.Authorise? || a.Deliver? || a.DropFull? || a.AbandonSend?
  }

  // The steps that only move the program counter.
  ghost predicate MovesPc(a: WAct) {
    a.LockGlobal? || a.LockMu? || a.UnlockRegister? || a.LeaveRegister? || a.SeeDone? || a.ReadPtr? || a.LookupSub? || a.LockSub? || a.UnlockUnregister?
  }

  ghost predicate CanMove(x: Watcher, a: WAct) {
    || (a.Receive? && x.pc.Watching? && x.receiver != [])
    || (a.Filter? && x.pc.Filtering?)
    || (a.Authorise? && x.pc.Authorising?)
    || ((a.Deliver? || a.DropFull? || a.AbandonSend?) && x.pc.Sending?)
  }

  ghost function Moved(x: Watcher, a: WAct): Watcher
    requires CanMove(x, a)
  {
    if a.Receive? then DoReceive(x)
    else if a.Filter? then DoFilter(x, x.pc.n)
    else if a.Authorise? then DoAuthorise(x, x.pc.n, a.granted)
    else if a.Deliver? then DoDeliver(x, x.pc.n)
    else if a.DropFull? then DoDropFull(x, x.pc.n)
    else DoAbandon(x, x.pc.n)
  }

  // The event that the watch has taken from its receiver and not disposed of yet.
  ghost function Hand(pc: WPc): seq<nat> {
    if pc.Filtering? || pc.Authorising? || pc.Sending? then [pc.n] else []
  }

  lemma MoversStayAlone(c: Config, s: State, w: nat, a: WAct)
    requires WEnabled(s, w, a) && MovesEvent(a)
    ensures CanMove(s.watchers[w], a)
    ensures WApply(c, s, w, a) == SetW(s, w, Moved(s.watchers[w], a)) || WApply(c, s, w, a) == Crash(s)
  {
  }

  // A step of the program counter outside the handling of an event.
  ghost predicate PcMove(before: WPc, after: WPc) {
    Hand(before) == [] && Hand(after) == [] && !before.Finished?
  }

  lemma PcMoverShape(c: Config, s: State, w: nat, a: WAct)
    requires WEnabled(s, w, a) && MovesPc(a)
    ensures w < |WApply(c, s, w, a).watchers|
    ensures var pc := WApply(c, s, w, a).watchers[w].pc; WApply(c, s, w, a) == SetPc(s, w, pc) && PcMove(s.watchers[w].pc, pc)
  {
  }

  // ---- What every step of a watch does to the watches and the loops ---------------------------------

  // Identity and registration are permanent, stamps only grow, an end is an end.
  ghost predicate Evolves(x: Watcher, y: Watcher) {
    && x.id == y.id && x.accepts == y.accepts
    && (x.home.Some? ==> y.home == x.home && y.createdAt == x.createdAt && x.lastActivity <= y.lastActivity)
    && (x.cancelled ==> y.cancelled)
    && (x.pc.Finished? ==> y.pc.Finished?)
  }

  ghost predicate AllEvolve(s: State, t: State) {
    |s.watchers| <= |t.watchers| && forall v | 0 <= v < |s.watchers| :: Evolves(s.watchers[v], t.watchers[v])
  }

  // Nothing moved through the watch.
  ghost predicate Quiet(x: Watcher, y: Watcher) {
    && x.log == y.log && x.receiver == y.receiver && x.result == y.result && x.accepts == y.accepts
    && (x.pc == y.pc || PcMove(x.pc, y.pc)) && (x.cancelled ==> y.cancelled)
  }

  ghost predicate AllQuiet(s: State, t: State) {
    |t.watchers| == |s.watchers| && forall u | 0 <= u < |s.watchers| :: Quiet(s.watchers[u], t.watchers[u])
  }

  // The loop has a notification in hand.
  ghost predicate Carrying(l: LPc) {
    l.Parsing? || l.FanWait? || l.FanOut? || l.Offering?
  }

  // No loop that has a notification in hand was moved, and no loop was given one.
  ghost predicate LeavesFanOuts(s: State, t: State) {
    && |s.insts| <= |t.insts| && t.notified == s.notified
    && forall i | 0 <= i < |t.insts| && Carrying(t.insts[i].loop) :: i < |s.insts| && t.insts[i].loop == s.insts[i].loop
  }

  ghost predicate Aside(s: State, t: State) {
    AllEvolve(s, t) && AllQuiet(s, t) && LeavesFanOuts(s, t)
  }

  // One watch evolves quietly on its own.
  lemma SelfAside(s: State, w: nat, y: Watcher)
    requires w < |s.watchers| && Quiet(s.watchers[w], y) && Evolves(s.watchers[w], y)
    ensures Aside(s, SetW(s, w, y))
  {
    var t := SetW(s, w, y);
    forall u | 0 <= u < |s.watchers| ensures Evolves(s.watchers[u], t.watchers[u]) && Quiet(s.watchers[u], t.watchers[u]) {
    }
  }

  lemma PcMoveAside(s: State, w: nat, pc: WPc)
    requires w < |s.watchers| && PcMove(s.watchers[w].pc, pc)
    ensures Aside(s, SetPc(s, w, pc))
  {
    SelfAside(s, w, s.watchers[w].(pc := pc));
  }

  lemma CreateAside(s: State, w: nat)
    requires w < |s.watchers| && s.watchers[w].pc.RegOnce?
    ensures Aside(s, DoEnterOnce(s, w))
  {
    if !s.onceDone {
      var t := WithNewInstance(s);
      assert Aside(s, t);
      PcMoveAside(t, w, StartWaitMu(|s.insts|));
      AsideTwice(s, t, DoCreate(s, w));
    } else if s.instance.Some? {
      PcMoveAside(s, w, RegWaitMu(s.instance.value));
    }
  }

  lemma StartAside(s: State, w: nat, i: nat, ok: bool)
    requires w < |s.watchers| && i < |s.insts| && s.watchers[w].pc == Starting(i)
    ensures Aside(s, DoStart(s, w, i, ok))
  {
    PcMoveAside(s, w, RegWaitMu(i));
    var t := SetPc(s, w, RegWaitMu(i));
    assert forall j | 0 <= j < |s.insts| && j != i :: t.insts[j] == s.insts[j];
  }

  lemma InsertAside(c: Config, s: State, w: nat, i: nat)
    requires Inv(c, s) && w < |s.watchers| && i < |s.insts| && s.watchers[w].pc == RegInsert(i)
    ensures Aside(s, DoInsert(c, s, w, i))
  {
    assert WatchOk(s, s.watchers[w]);
    var t := DoInsert(c, s, w, i);
    assert Quiet(s.watchers[w], t.watchers[w]);
    assert forall u | 0 <= u < |s.watchers| && u != w :: t.watchers[u] == s.watchers[u];
    assert forall j | 0 <= j < |s.insts| :: t.insts[j].loop == s.insts[j].loop;
  }

  lemma StampAside(c: Config, s: State, w: nat, v: nat)
    requires Inv(c, s) && w < |s.watchers| && v < |s.watchers| && s.watchers[w].pc == ActStamp(v)
    ensures Aside(s, DoStamp(s, w, v))
  {
    assert WatchOk(s, s.watchers[v]);
    PcMoveAside(SetW(s, v, s.watchers[v].(lastActivity := s.clock)), w, Watching);
  }

  lemma CancelAside(s: State, v: nat)
    requires v < |s.watchers|
    ensures Aside(s, Cancel(s, v))
  {
    SelfAside(s, v, s.watchers[v].(cancelled := true));
  }

  lemma EditMapAside(s: State, i: nat, l: Inst)
    requires i < |s.insts| && l.loop == s.insts[i].loop
    ensures Aside(s, SetI(s, i, l))
  {
  }

  lemma AsideTwice(s: State, t: State, u: State)
    requires Aside(s, t) && Aside(t, u)
    ensures AllEvolve(s, u) && LeavesFanOuts(s, u)
    ensures (forall v | 0 <= v < |s.watchers| :: t.watchers[v].pc == s.watchers[v].pc) ==> Aside(s, u)
  {
    forall v | 0 <= v < |s.watchers| ensures Evolves(s.watchers[v], u.watchers[v]) {
      assert Evolves(s.watchers[v], t.watchers[v]) && Evolves(t.watchers[v], u.watchers[v]);
    }
    if forall v | 0 <= v < |s.watchers| :: t.watchers[v].pc == s.watchers[v].pc {
      forall v | 0 <= v < |s.watchers| ensures Quiet(s.watchers[v], u.watchers[v]) {
        assert Quiet(s.watchers[v], t.watchers[v]) && Quiet(t.watchers[v], u.watchers[v]);
      }
    }
  }

  lemma RemoveAside(s: State, i: nat, id: string, l: Inst)
    requires i < |s.insts| && l.loop == s.insts[i].loop && (id in s.insts[i].subs ==> s.insts[i].subs[id] < |s.watchers|)
    ensures var t := if id in s.insts[i].subs then Cancel(s, s.insts[i].subs[id]) else s; Aside(s, SetI(t, i, l))
  {
    var t := if id in s.insts[i].subs then Cancel(s, s.insts[i].subs[id]) else s;
    EditMapAside(t, i, l);
    if id in s.insts[i].subs {
      CancelAside(s, s.insts[i].subs[id]);
      AsideTwice(s, t, SetI(t, i, l));
    }
  }

  lemma DeleteAside(s: State, w: nat, i: nat)
    requires w < |s.watchers| && i < |s.insts| && s.watchers[w].pc == UnDelete(i)
    requires s.watchers[w].id in s.insts[i].subs ==> s.insts[i].subs[s.watchers[w].id] < |s.watchers|
    ensures Aside(s, DoDelete(s, w, i))
  {
    var id := s.watchers[w].id;
    var l := s.insts[i];
    var t := if id in l.subs then Cancel(s, l.subs[id]) else s;
    var subs := l.subs - {id};
    var m := l.(subs := subs, cancelled := l.cancelled || subs == map[]);
    RemoveAside(s, i, id, m);
    PcMoveAside(SetI(t, i, m), w, UnUnlock(i));
    AsideTwice(s, SetI(t, i, m), DoDelete(s, w, i));
  }

  lemma CloseAside(s: State, w: nat)
    requires w < |s.watchers| && (s.watchers[w].pc.CloseResult? || s.watchers[w].pc.CloseReceiver?)
    ensures Aside(s, DoCloseChannel(s, w))
  {
    var x := s.watchers[w];
    if x.pc.CloseResult? {
      SelfAside(s, w, x.(pc := CloseReceiver, resultClosed := true));
    } else {
      SelfAside(s, w, x.(pc := Finished, receiverClosed := true));
    }
  }

  // A step of a watch that does not move an event: every watch evolves quietly, every fan-out stays.
  lemma OthersStayAside(c: Config, s: State, w: nat, a: WAct)
    requires Inv(c, s) && WEnabled(s, w, a) && !MovesEvent(a)
    ensures Aside(s, WApply(c, s, w, a))
  {
    var pc := s.watchers[w].pc;
    if MovesPc(a) {
      PcMoverShape(c, s, w, a);
      PcMoveAside(s, w, WApply(c, s, w, a).watchers[w].pc);
    } else if a.Stamp? {
      StampAside(c, s, w, pc.v);
    } else if a.Delete? {
      DeleteAside(s, w, pc.i);
    } else if a.EnterOnce? {
      CreateAside(s, w);
    } else if a.StartDone? {
      StartAside(s, w, pc.i, a.ok);
    } else if a.Insert? {
      InsertAside(c, s, w, pc.i);
    } else {
      CloseAside(s, w);
    }
  }

  lemma MoverEvolves(s: State, w: nat, a: WAct)
    requires w < |s.watchers| && CanMove(s.watchers[w], a)
    ensures AllEvolve(s, SetW(s, w, Moved(s.watchers[w], a)))
  {
  }

  lemma WatchEvolves(c: Config, s: State, w: nat, a: WAct)
    requires Inv(c, s) && WEnabled(s, w, a)
    ensures AllEvolve(s, WApply(c, s, w, a))
  {
    if MovesEvent(a) {
      MoversStayAlone(c, s, w, a);
      MoverEvolves(s, w, a);
    } else {
      OthersStayAside(c, s, w, a);
    }
  }

  lemma OffersEvolve(s: State, i: nat, v: nat, n: nat, pending: set<nat>)
    requires i < |s.insts| && v < |s.watchers|
    ensures AllEvolve(s, DoSkipAt(s, i, v, n, pending)) && AllEvolve(s, DoSendAt(s, i, v, n, pending))
  {
  }

  lemma LoopLeavesWatches(s: State, i: nat, a: LAct)
    requires LEnabled(s, i, a) && !a.Skip? && !a.Send?
    ensures LApply(s, i, a).watchers == s.watchers
  {
  }

  lemma LoopEvolves(s: State, i: nat, a: LAct)
    requires LEnabled(s, i, a)
    ensures AllEvolve(s, LApply(s, i, a))
  {
    var l := s.insts[i].loop;
    if a.Skip? {
      OffersEvolve(s, i, a.v, l.n, l.pending);
    } else if a.Send? {
      OffersEvolve(s, i, l.v, l.n, l.pending);
    } else {
      LoopLeavesWatches(s, i, a);
    }
  }

  lemma CleanupStaysAside(c: Config, s: State, i: nat, a: CAct)
    requires CEnabled(s, i, a)
    ensures Aside(s, CApply(c, s, i, a))
  {
  }

  lemma StepEvolves(c: Config, s: State, a: Action)
    requires Inv(c, s) && Enabled(s, a)
    ensures AllEvolve(s, Apply(c, s, a))
  {
    match a
    case OfWatch(w, wa) => WatchEvolves(c, s, w, wa);
    case OfLoop(i, la) => LoopEvolves(s, i, la);
    case OfCleanup(i, ca) => CleanupStaysAside(c, s, i, ca);
    case _ =>
  }

  lemma EvolvesInStep(c: Config, run: seq<State>, acts: seq<Action>, k: nat, w: nat)
    requires Run(c, run, acts) && k < |acts| && w < |run[k].watchers|
    ensures w < |run[k + 1].watchers| && Evolves(run[k].watchers[w], run[k + 1].watchers[w])
  {
    RunKeeps(c, run, acts, k);
    assert Follows(c, run, acts, k);
    StepEvolves(c, run[k], acts[k]);
  }

  lemma StampsInOrder(c: Config, run: seq<State>, acts: seq<Action>, k: nat, w: nat)
    requires Run(c, run, acts) && k < |run| && w < |run[k].watchers| && run[k].watchers[w].home.Some?
    ensures run[k].watchers[w].createdAt <= run[k].watchers[w].lastActivity
  {
    RunKeeps(c, run, acts, k);
    assert WatchOk(run[k], run[k].watchers[w]);
  }

  /**
   Over any stretch of a run: a registered watch keeps its instance and creation stamp, its activity
   stamp never decreases and never precedes the creation stamp.
  */
  lemma {:induction false} StampsNeverDecrease(c: Config, run: seq<State>, acts: seq<Action>, j: nat, k: nat, w: nat)
    requires Run(c, run, acts) && j <= k < |run| && w < |run[j].watchers|
    ensures w < |run[k].watchers| && Evolves(run[j].watchers[w], run[k].watchers[w])
    ensures var x := run[k].watchers[w]; x.home.Some? ==> x.createdAt <= x.lastActivity
  {
    if j < k {
      StampsNeverDecrease(c, run, acts, j, k - 1, w);
      EvolvesInStep(c, run, acts, k - 1, w);
    }
    if run[k].watchers[w].home.Some? {
      StampsInOrder(c, run, acts, k, w);
    }
  }

  // Step k of the run closes the receiver of w.
  ghost predicate ClosesReceiver(run: seq<State>, acts: seq<Action>, k: nat, w: nat)
    requires k < |acts| && |run| == |acts| + 1
  {
    acts[k] == OfWatch(w, DoClose) && w < |run[k].watchers| && run[k].watchers[w].pc.CloseReceiver?
  }

  /** No receiver is closed twice: of two steps that close the same receiver, both are the same step. */
  lemma ClosedAtMostOnce(c: Config, run: seq<State>, acts: seq<Action>, j: nat, k: nat, w: nat)
    requires Run(c, run, acts) && j <= k < |acts|
    requires ClosesReceiver(run, acts, j, w) && ClosesReceiver(run, acts, k, w)
    ensures j == k
  {
    if j < k {
      ClosedIffFinished(c, run, acts, j, w);
      assert Follows(c, run, acts, j);
      assert run[j + 1] == DoCloseChannel(run[j], w);
      StampsNeverDecrease(c, run, acts, j + 1, k, w);
    }
  }

  // ---- Cancellation -----------------------------------------------------------------------------

  // The listener's sends to the watch so far, in order.
  ghost function Received(x: Watcher): seq<nat> {
    x.log.taken + x.receiver
  }

  // The watch is cancelled and no fan-out has already passed the Done check for it.
  ghost predicate CutOff(s: State, w: nat) {
    && w < |s.watchers| && s.watchers[w].cancelled
    && forall i | 0 <= i < |s.insts| :: !(s.insts[i].loop.Offering? && s.insts[i].loop.v == w)
  }

  lemma CutOffStays(c: Config, s: State, a: Action, w: nat)
    requires Inv(c, s) && Enabled(s, a) && CutOff(s, w)
    ensures CutOff(Apply(c, s, a), w) && Received(Apply(c, s, a).watchers[w]) == Received(s.watchers[w])
  {
    match a
    case OfLoop(i, la) => CutOffFromLoop(s, i, la, w);
    case OfWatch(v, wa) => CutOffFromWatch(c, s, v, wa, w);
    case OfCleanup(i, ca) =>
      CleanupStaysAside(c, s, i, ca);
      assert Quiet(s.watchers[w], CApply(c, s, i, ca).watchers[w]);
    case _ =>
  }

  lemma CutOffFromLoop(s: State, i: nat, a: LAct, w: nat)
    requires LEnabled(s, i, a) && CutOff(s, w)
    ensures CutOff(LApply(s, i, a), w) && Received(LApply(s, i, a).watchers[w]) == Received(s.watchers[w])
  {
    var t := LApply(s, i, a);
    assert forall j | 0 <= j < |s.insts| && j != i :: t.insts[j] == s.insts[j];
  }

  lemma ReceiveKeepsOrder(x: Watcher)
    requires x.receiver != []
    ensures Received(DoReceive(x)) == Received(x)
  {
    assert x.log.taken + x.receiver == (x.log.taken + [x.receiver[0]]) + x.receiver[1..];
  }

  lemma MoverKeepsReceived(x: Watcher, a: WAct)
    requires CanMove(x, a)
    ensures Received(Moved(x, a)) == Received(x) && Moved(x, a).cancelled == x.cancelled
  {
    if a.Receive? {
      ReceiveKeepsOrder(x);
    }
  }

  lemma WatchReceivesNothing(c: Config, s: State, v: nat, a: WAct, w: nat)
    requires Inv(c, s) && WEnabled(s, v, a) && w < |s.watchers|
    ensures w < |WApply(c, s, v, a).watchers|
    ensures Received(WApply(c, s, v, a).watchers[w]) == Received(s.watchers[w])
  {
    if MovesEvent(a) {
      MoversStayAlone(c, s, v, a);
      MoverKeepsReceived(s.watchers[v], a);
    } else {
      OthersStayAside(c, s, v, a);
      assert Quiet(s.watchers[w], WApply(c, s, v, a).watchers[w]);
    }
  }

  lemma WatchLeavesFanOuts(c: Config, s: State, v: nat, a: WAct)
    requires Inv(c, s) && WEnabled(s, v, a)
    ensures LeavesFanOuts(s, WApply(c, s, v, a))
  {
    if MovesEvent(a) {
      MoversStayAlone(c, s, v, a);
    } else {
      OthersStayAside(c, s, v, a);
    }
  }

  lemma CutOffFromWatch(c: Config, s: State, v: nat, a: WAct, w: nat)
    requires Inv(c, s) && WEnabled(s, v, a) && CutOff(s, w)
    ensures CutOff(WApply(c, s, v, a), w) && Received(WApply(c, s, v, a).watchers[w]) == Received(s.watchers[w])
  {
    WatchLeavesFanOuts(c, s, v, a);
    WatchReceivesNothing(c, s, v, a, w);
    WatchEvolves(c, s, v, a);
    assert Evolves(s.watchers[w], WApply(c, s, v, a).watchers[w]);
  }

  /**
   Eviction is final: once a watch is cancelled and no fan-out is between its Done check and its send,
   nothing is ever enqueued to it again. In particular no fan-out that starts after the cancel does.
  */
  lemma {:induction false} NothingAfterCancel(c: Config, run: seq<State>, acts: seq<Action>, j: nat, k: nat, w: nat)
    requires Run(c, run, acts) && j <= k < |run| && CutOff(run[j], w)
    ensures CutOff(run[k], w) && Received(run[k].watchers[w]) == Received(run[j].watchers[w])
  {
    if j < k {
      NothingAfterCancel(c, run, acts, j, k - 1, w);
      RunKeeps(c, run, acts, k - 1);
      assert Follows(c, run, acts, k - 1);
      CutOffStays(c, run[k - 1], acts[k - 1], w);
    }
  }
}

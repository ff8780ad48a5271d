/**
 How a watch ends, and what the threads of the listener are doing in between: a watch leaves only once it is
 cancelled, abandons at most one event, and no thread rests but at the places made for it.
*/
module WatchEnds {
  import opened Prelude
  import opened WatchProtocol
  import opened WatchSafety
  import opened WatchRuns
  import opened WatchLocks

  // ---- Leaving ---------------------------------------------------------------------------------------------

  // The watch has left its select loop.
  ghost predicate Leaving(pc: WPc) {
    pc.UnWaitGlobal? || pc.UnReadPtr? || pc.UnWaitMu? || pc.UnDelete? || Gone(pc)
  }

  ghost predicate LeavesOk(x: Watcher) {
    && (Leaving(x.pc) ==> x.cancelled)
    && (x.log.abandoned != [] ==> |x.log.abandoned| == 1 && Leaving(x.pc))
  }

  ghost predicate AllLeaveOk(s: State) {
    forall w | 0 <= w < |s.watchers| :: LeavesOk(s.watchers[w])
  }

  // The steps of the program counter enter and leave the teardown only where the source does.
  ghost predicate KeepsPlace(x: Watcher, y: Watcher) {
    && (Leaving(x.pc) ==> Leaving(y.pc)) && (Leaving(y.pc) ==> Leaving(x.pc) || x.cancelled)
    && (x.cancelled ==> y.cancelled) && y.log.abandoned == x.log.abandoned
  }

  lemma PlaceKeepsLeaving(x: Watcher, y: Watcher)
    requires LeavesOk(x) && KeepsPlace(x, y)
    ensures LeavesOk(y)
  {
  }

  lemma MovingKeepsLeaving(x: Watcher, a: WAct)
    requires LeavesOk(x) && CanMove(x, a) && (a.AbandonSend? ==> x.cancelled)
    ensures LeavesOk(Moved(x, a))
  {
  }

  ghost predicate AllKeepPlace(s: State, t: State) {
    |t.watchers| == |s.watchers| && forall w | 0 <= w < |s.watchers| :: KeepsPlace(s.watchers[w], t.watchers[w])
  }

  lemma OtherKeepsPlace(c: Config, s: State, w: nat, a: WAct)
    requires Inv(c, s) && WEnabled(s, w, a) && !MovesEvent(a)
    ensures AllKeepPlace(s, WApply(c, s, w, a))
  {
    var t := WApply(c, s, w, a);
    OthersStayAside(c, s, w, a);
    OwnPlace(c, s, w, a);
    forall v | 0 <= v < |s.watchers| ensures KeepsPlace(s.watchers[v], t.watchers[v]) {
      assert Quiet(s.watchers[v], t.watchers[v]);
      if v != w {
        OtherPlace(c, s, w, a, v);
      }
    }
  }

  lemma PcOwnPlace(c: Config, s: State, w: nat, a: WAct)
    requires Inv(c, s) && WEnabled(s, w, a) && MovesPc(a)
    ensures w < |WApply(c, s, w, a).watchers|
    ensures var x, y := s.watchers[w].pc, WApply(c, s, w, a).watchers[w].pc;
      (Leaving(x) ==> Leaving(y)) && (Leaving(y) ==> Leaving(x) || s.watchers[w].cancelled)
  {
  }

  lemma EditOwnPlace(c: Config, s: State, w: nat, a: WAct)
    requires Inv(c, s) && WEnabled(s, w, a) && !MovesEvent(a) && !MovesPc(a)
    ensures w < |WApply(c, s, w, a).watchers|
    ensures Leaving(s.watchers[w].pc) <==> Leaving(WApply(c, s, w, a).watchers[w].pc)
  {
    assert WatchOk(s, s.watchers[w]);
  }

  lemma OwnPlace(c: Config, s: State, w: nat, a: WAct)
    requires Inv(c, s) && WEnabled(s, w, a) && !MovesEvent(a)
    ensures w < |WApply(c, s, w, a).watchers|
    ensures var x, y := s.watchers[w].pc, WApply(c, s, w, a).watchers[w].pc;
      (Leaving(x) ==> Leaving(y)) && (Leaving(y) ==> Leaving(x) || s.watchers[w].cancelled)
  {
    if MovesPc(a) {
      PcOwnPlace(c, s, w, a);
    } else {
      EditOwnPlace(c, s, w, a);
    }
  }

  lemma OtherPlace(c: Config, s: State, w: nat, a: WAct, v: nat)
    requires WEnabled(s, w, a) && !MovesEvent(a) && v < |s.watchers| && v != w
    ensures v < |WApply(c, s, w, a).watchers| && WApply(c, s, w, a).watchers[v].pc == s.watchers[v].pc
  {
    if MovesPc(a) {
      PcMoverShape(c, s, w, a);
    }
  }

  lemma WatchKeepsLeaving(c: Config, s: State, w: nat, a: WAct)
    requires Inv(c, s) && AllLeaveOk(s) && WEnabled(s, w, a)
    ensures AllLeaveOk(WApply(c, s, w, a))
  {
    var t := WApply(c, s, w, a);
    if MovesEvent(a) {
      MoversStayAlone(c, s, w, a);
      MovingKeepsLeaving(s.watchers[w], a);
    } else {
      OtherKeepsPlace(c, s, w, a);
      forall v | 0 <= v < |t.watchers| ensures LeavesOk(t.watchers[v]) {
        PlaceKeepsLeaving(s.watchers[v], t.watchers[v]);
      }
    }
  }

  lemma StepKeepsLeaving(c: Config, s: State, a: Action)
    requires Inv(c, s) && AllLeaveOk(s) && Enabled(s, a)
    ensures AllLeaveOk(Apply(c, s, a))
  {
    match a
    case OfWatch(w, wa) => WatchKeepsLeaving(c, s, w, wa);
    case OfLoop(i, la) => LoopKeepsLeaving(s, i, la);
    case OfCleanup(i, ca) => CleanupKeepsLeaving(c, s, i, ca);
    case _ =>
  }

  lemma LoopKeepsLeaving(s: State, i: nat, a: LAct)
    requires AllLeaveOk(s) && LEnabled(s, i, a)
    ensures AllLeaveOk(LApply(s, i, a))
  {
  }

  lemma CleanupKeepsLeaving(c: Config, s: State, i: nat, a: CAct)
    requires AllLeaveOk(s) && CEnabled(s, i, a)
    ensures AllLeaveOk(CApply(c, s, i, a))
  {
  }

  lemma {:induction false} RunKeepsLeaving(c: Config, run: seq<State>, acts: seq<Action>, k: nat)
    requires Run(c, run, acts) && k < |run|
    ensures AllLeaveOk(run[k])
  {
    if k > 0 {
      RunKeepsLeaving(c, run, acts, k - 1);
      RunKeeps(c, run, acts, k - 1);
      assert Follows(c, run, acts, k - 1);
      StepKeepsLeaving(c, run[k - 1], acts[k - 1]);
    }
  }

  /**
   A watch unregisters and closes its channels only once it is cancelled, and it abandons at most one event, on its
   way out.
  */
  lemma LeavesOnlyWhenCancelled(c: Config, run: seq<State>, acts: seq<Action>, k: nat, w: nat)
    requires Run(c, run, acts) && k < |run| && w < |run[k].watchers|
    ensures var x := run[k].watchers[w];
      && (x.resultClosed || x.receiverClosed || Leaving(x.pc) ==> x.cancelled)
      && |x.log.abandoned| <= 1 && (x.log.abandoned != [] ==> Leaving(x.pc))
  {
    RunKeepsLeaving(c, run, acts, k);
    RunKeeps(c, run, acts, k);
    assert LeavesOk(run[k].watchers[w]) && WatchOk(run[k], run[k].watchers[w]);
  }

  // ---- No thread rests but where it may --------------------------------------------------------------------

  // A watch waits for an event or has ended; a loop never ran or has ended; a ticker waits or has ended.
  ghost predicate Rests(s: State, t: Thread)
    requires Exists(s, t)
  {
    match t
    case WatchThread(w) => s.watchers[w].pc.Watching? || s.watchers[w].pc.Finished? || s.watchers[w].pc.Rejected?
    case LoopThread(i) => s.insts[i].loop.Unstarted? || s.insts[i].loop.Failed? || s.insts[i].loop.Stopped?
    case CleanupThread(i) => s.insts[i].cleanup.Idle? || s.insts[i].cleanup.CleanupDone?
  }

  lemma WatchGoesOn(c: Config, s: State, w: nat)
    requires Inv(c, s) && w < |s.watchers| && Wants(s, WatchThread(w)).None? && !Rests(s, WatchThread(w))
    ensures exists a :: WEnabled(s, w, a)
  {
    var x := s.watchers[w];
    RegisterIndex(c, s, w);
    assert WatchOk(s, x);
    if x.pc.UnDelete? {
      assert InstOk(c, s, x.pc.i);
    }
    var a :=
      if x.pc.RegOnce? then EnterOnce else if x.pc.Starting? then StartDone(true) else if x.pc.RegInsert? then Insert
      else if x.pc.RegUnlock? || x.pc.RegReject? then UnlockRegister else if x.pc.RegLeave? then LeaveRegister
      else if x.pc.ActReadPtr? || x.pc.UnReadPtr? then ReadPtr else if x.pc.ActLookup? then LookupSub
      else if x.pc.ActStamp? then Stamp else if x.pc.UnDelete? then Delete else if x.pc.UnUnlock? then UnlockUnregister
      else if x.pc.Filtering? then Filter else if x.pc.Authorising? then Authorise(true)
      else if x.pc.Sending? then (if |x.result| < BUFFER then Deliver else if x.cancelled then AbandonSend else DropFull)
      else DoClose;
    assert WEnabled(s, w, a);
  }

  lemma LoopGoesOn(c: Config, s: State, i: nat)
    requires Inv(c, s) && i < |s.insts| && Wants(s, LoopThread(i)).None? && !Rests(s, LoopThread(i))
    ensures exists a :: LEnabled(s, i, a)
  {
    var l := s.insts[i].loop;
    assert InstOk(c, s, i);
    if LReads(l) || LWrites(l) || l.Resetting? {
      var k := if l.Resetting? then Global else Mu(i);
      assert Holds(s, LoopThread(i), k);
      HoldingLoopSteps(c, s, i, k);
    } else {
      var a := if l.Top? then (if s.insts[i].conn then Notify else SeeNoConn) else if l.Sleeping? then Wake
               else if l.Parsing? then Parsed else CloseConn(true);
      assert LEnabled(s, i, a);
    }
  }

  lemma CleanupGoesOn(c: Config, s: State, i: nat)
    requires Inv(c, s) && i < |s.insts| && Wants(s, CleanupThread(i)).None? && !Rests(s, CleanupThread(i))
    ensures exists a :: CEnabled(s, i, a)
  {
    assert Holds(s, CleanupThread(i), Mu(i));
    HoldingCleanupSteps(c, s, i, Mu(i));
  }

  /**
   On every run a thread that waits for no lock can take a step, unless it rests. A watch at rest in its select loop
   can step as soon as it is cancelled or has an event, a rested ticker once its loop has started.
  */
  lemma OnlyRestingThreadsRest(c: Config, run: seq<State>, acts: seq<Action>, k: nat, t: Thread)
    requires Run(c, run, acts) && k < |run| && Exists(run[k], t) && Wants(run[k], t).None?
    ensures !Rests(run[k], t) ==> CanStep(run[k], t)
    ensures t.WatchThread? && run[k].watchers[t.w].pc.Watching? ==>
      (CanStep(run[k], t) <==> run[k].watchers[t.w].cancelled || run[k].watchers[t.w].receiver != [])
    ensures t.CleanupThread? && run[k].insts[t.i].cleanup.Idle? ==>
      (CanStep(run[k], t) <==> !run[k].insts[t.i].loop.Unstarted? && !run[k].insts[t.i].loop.Failed?)
  {
    var s := run[k];
    RunKeeps(c, run, acts, k);
    if !Rests(s, t) {
      match t
      case WatchThread(w) => WatchGoesOn(c, s, w);
      case LoopThread(i) => LoopGoesOn(c, s, i);
      case CleanupThread(i) => CleanupGoesOn(c, s, i);
    }
    if t.WatchThread? && s.watchers[t.w].pc.Watching? {
      assert s.watchers[t.w].cancelled ==> WEnabled(s, t.w, SeeDone);
      assert s.watchers[t.w].receiver != [] ==> WEnabled(s, t.w, Receive);
    }
    if t.CleanupThread? && s.insts[t.i].cleanup.Idle? {
      assert !s.insts[t.i].loop.Unstarted? && !s.insts[t.i].loop.Failed? ==> CEnabled(s, t.i, Tick);
    }
  }
}

/**
 The locks of the listener: listenerMu, one reader/writer lock per instance and one per subscription.
 Every thread acquires them in that order, so no chain of threads waiting for each other closes into a
 cycle, and whenever a thread waits for a lock some thread on its chain can take a step.
*/
module WatchLocks {
  import opened Prelude
  import opened WatchProtocol
  import opened WatchSafety
  import opened WatchRuns

  datatype Thread = WatchThread(w: nat) | LoopThread(i: nat) | CleanupThread(i: nat)
  datatype Lock = Global | Mu(i: nat) | Sub(v: nat)
  datatype Request = Request(lock: Lock, write: bool)

  ghost predicate Exists(s: State, t: Thread) {
    match t
    case WatchThread(w) => w < |s.watchers|
    case LoopThread(i) => i < |s.insts|
    case CleanupThread(i) => i < |s.insts|
  }

  ghost predicate HoldsForWrite(s: State, t: Thread, k: Lock)
    requires Exists(s, t)
  {
    match t
    case WatchThread(w) =>
      var pc := s.watchers[w].pc;
      (match k case Global => WHoldsGlobal(pc) case Mu(i) => WWrites(pc, i) case Sub(v) => pc == ActStamp(v))
    case LoopThread(i) =>
      var pc := s.insts[i].loop;
      (match k case Global => pc.Resetting? case Mu(j) => j == i && LWrites(pc) case Sub(_) => false)
    case CleanupThread(_) => false
  }

  ghost predicate HoldsForRead(s: State, t: Thread, k: Lock)
    requires Exists(s, t)
  {
    match t
    case WatchThread(w) => k.Mu? && WReads(s.watchers[w].pc, k.i)
    case LoopThread(i) => k == Mu(i) && LReads(s.insts[i].loop)
    case CleanupThread(i) =>
      var pc := s.insts[i].cleanup;
      (k == Mu(i) && CReads(pc)) || (pc.SubRead? && k == Sub(pc.v))
  }

  ghost predicate Holds(s: State, t: Thread, k: Lock)
    requires Exists(s, t)
  {
    HoldsForWrite(s, t, k) || HoldsForRead(s, t, k)
  }

  ghost function Wants(s: State, t: Thread): Option<Request>
    requires Exists(s, t)
  {
    match t
    case WatchThread(w) => (
      match s.watchers[w].pc
      case RegWaitGlobal => Some(Request(Global, true))
      case ActWaitGlobal => Some(Request(Global, true))
      case UnWaitGlobal => Some(Request(Global, true))
      case StartWaitMu(i) => Some(Request(Mu(i), true))
      case RegWaitMu(i) => Some(Request(Mu(i), true))
      case UnWaitMu(i) => Some(Request(Mu(i), true))
      case ActWaitMu(i) => Some(Request(Mu(i), false))
      case ActWaitSub(v) => Some(Request(Sub(v), true))
      case _ => None)
    case LoopThread(i) =>
      var pc := s.insts[i].loop;
      if pc.DropWaitMu? || pc.ConnWaitMu? then Some(Request(Mu(i), true))
      else if pc.FanWait? then Some(Request(Mu(i), false))
      else if pc.ResetWait? then Some(Request(Global, true))
      else None
    case CleanupThread(i) =>
      var pc := s.insts[i].cleanup;
      if pc.PassWait? then Some(Request(Mu(i), false))
      else if pc.SubWait? then Some(Request(Sub(pc.v), false))
      else None
  }

  // t waits for a lock that h holds incompatibly; a reader also waits behind a waiting writer.
  ghost predicate BlockedBy(s: State, t: Thread, h: Thread) {
    && Exists(s, t) && Exists(s, h) && Wants(s, t).Some?
    && var r := Wants(s, t).value;
       || HoldsForWrite(s, h, r.lock)
       || (r.write && HoldsForRead(s, h, r.lock))
       || (!r.write && Wants(s, h) == Some(Request(r.lock, true)))
  }

  function Level(k: Lock): nat {
    match k case Global => 0 case Mu(_) => 1 case Sub(_) => 2
  }

  // A thread that waits is ranked by the lock it waits for, readers just below writers.
  ghost function Rank(s: State, t: Thread): nat
    requires Exists(s, t)
  {
    match Wants(s, t)
    case None => 6
    case Some(r) => 2 * Level(r.lock) + (if r.write then 1 else 0)
  }

  /** Locks are acquired in the order listenerMu, listener.mu, sub.mu, and no thread holds two of one kind. */
  lemma AcquiresInOrder(s: State, t: Thread, k: Lock)
    requires Exists(s, t) && Holds(s, t, k)
    ensures Wants(s, t).Some? ==> Level(k) < Level(Wants(s, t).value.lock)
    ensures forall m | Holds(s, t, m) && m != k :: Level(m) != Level(k)
  {
  }

  // ---- Exclusion ---------------------------------------------------------------------------------------

  ghost predicate SubWW(s: State, w: nat, u: nat)
    requires w < |s.watchers| && u < |s.watchers|
  {
    s.watchers[w].pc.ActStamp? && s.watchers[u].pc == s.watchers[w].pc ==> w == u
  }

  ghost predicate SubWC(s: State, w: nat, i: nat)
    requires w < |s.watchers| && i < |s.insts|
  {
    !(s.watchers[w].pc.ActStamp? && s.insts[i].cleanup.SubRead? && s.insts[i].cleanup.v == s.watchers[w].pc.v)
  }

  /** Every sub.mu is held by one writer alone or by readers only. */
  ghost predicate SubExclusive(s: State) {
    && (forall w, u | 0 <= w < |s.watchers| && 0 <= u < |s.watchers| :: SubWW(s, w, u))
    && (forall w, i | 0 <= w < |s.watchers| && 0 <= i < |s.insts| :: SubWC(s, w, i))
  }

  // Nobody new stamps or reads stamps.
  ghost predicate NoNewSubHolder(s: State, t: State) {
    && (forall w | 0 <= w < |t.watchers| && t.watchers[w].pc.ActStamp? :: w < |s.watchers| && s.watchers[w].pc == t.watchers[w].pc)
    && (forall i | 0 <= i < |t.insts| && t.insts[i].cleanup.SubRead? :: i < |s.insts| && s.insts[i].cleanup == t.insts[i].cleanup)
  }

  lemma NoNewSubHolderKeeps(s: State, t: State)
    requires SubExclusive(s) && NoNewSubHolder(s, t)
    ensures SubExclusive(t)
  {
    forall w, u | 0 <= w < |t.watchers| && 0 <= u < |t.watchers| ensures SubWW(t, w, u) {
      assert w < |s.watchers| && u < |s.watchers| ==> SubWW(s, w, u);
    }
    forall w, i | 0 <= w < |t.watchers| && 0 <= i < |t.insts| ensures SubWC(t, w, i) {
      assert w < |s.watchers| && i < |s.insts| ==> SubWC(s, w, i);
    }
  }

  lemma PcMoverTakesNoSub(c: Config, s: State, w: nat, a: WAct)
    requires WEnabled(s, w, a) && MovesPc(a) && !a.LockSub?
    ensures NoNewSubHolder(s, WApply(c, s, w, a))
  {
    PcMoverShape(c, s, w, a);
  }

  lemma CreatingTakesNoSub(s: State, w: nat)
    requires w < |s.watchers|
    ensures NoNewSubHolder(s, DoEnterOnce(s, w))
  {
  }

  lemma StartingTakesNoSub(s: State, w: nat, i: nat, ok: bool)
    requires w < |s.watchers| && i < |s.insts|
    ensures NoNewSubHolder(s, DoStart(s, w, i, ok))
  {
  }

  lemma InsertingTakesNoSub(c: Config, s: State, w: nat, i: nat)
    requires w < |s.watchers| && i < |s.insts|
    ensures NoNewSubHolder(s, DoInsert(c, s, w, i))
  {
  }

  lemma ClosingTakesNoSub(s: State, w: nat)
    requires w < |s.watchers|
    ensures NoNewSubHolder(s, DoCloseChannel(s, w))
  {
  }

  lemma StampingTakesNoSub(s: State, w: nat, v: nat)
    requires w < |s.watchers| && v < |s.watchers|
    ensures NoNewSubHolder(s, DoStamp(s, w, v))
  {
  }

  lemma DeletingTakesNoSub(s: State, w: nat, i: nat)
    requires w < |s.watchers| && i < |s.insts|
    requires s.watchers[w].id in s.insts[i].subs ==> s.insts[i].subs[s.watchers[w].id] < |s.watchers|
    ensures NoNewSubHolder(s, DoDelete(s, w, i))
  {
  }

  lemma EditorTakesNoSub(c: Config, s: State, w: nat, a: WAct)
    requires WEnabled(s, w, a) && (a.EnterOnce? || a.StartDone? || a.Insert? || a.Stamp? || a.Delete? || a.DoClose?)
    ensures NoNewSubHolder(s, WApply(c, s, w, a))
  {
    var pc := s.watchers[w].pc;
    if a.Stamp? {
      StampingTakesNoSub(s, w, pc.v);
    } else if a.Delete? {
      DeletingTakesNoSub(s, w, pc.i);
    } else if a.EnterOnce? {
      CreatingTakesNoSub(s, w);
    } else if a.StartDone? {
      StartingTakesNoSub(s, w, pc.i, a.ok);
    } else if a.Insert? {
      InsertingTakesNoSub(c, s, w, pc.i);
    } else {
      ClosingTakesNoSub(s, w);
    }
  }

  lemma WatchTakesNoSub(c: Config, s: State, w: nat, a: WAct)
    requires WEnabled(s, w, a) && !a.LockSub?
    ensures NoNewSubHolder(s, WApply(c, s, w, a))
  {
    if MovesEvent(a) {
      MoversStayAlone(c, s, w, a);
    } else if MovesPc(a) {
      PcMoverTakesNoSub(c, s, w, a);
    } else {
      EditorTakesNoSub(c, s, w, a);
    }
  }

  lemma WatchTakesSub(s: State, w: nat)
    requires w < |s.watchers| && s.watchers[w].pc.ActWaitSub? && SubFreeForWrite(s, s.watchers[w].pc.v) && SubExclusive(s)
    ensures SubExclusive(SetPc(s, w, ActStamp(s.watchers[w].pc.v)))
  {
    var t := SetPc(s, w, ActStamp(s.watchers[w].pc.v));
    forall x, u | 0 <= x < |t.watchers| && 0 <= u < |t.watchers| ensures SubWW(t, x, u) {
      assert SubWW(s, x, u);
    }
    forall x, i | 0 <= x < |t.watchers| && 0 <= i < |t.insts| ensures SubWC(t, x, i) {
      assert SubWC(s, x, i);
    }
  }

  lemma LoopTakesNoSub(s: State, i: nat, a: LAct)
    requires LEnabled(s, i, a)
    ensures NoNewSubHolder(s, LApply(s, i, a))
  {
  }

  lemma CleanupStepSub(c: Config, s: State, i: nat, a: CAct)
    requires CEnabled(s, i, a) && SubExclusive(s)
    ensures SubExclusive(CApply(c, s, i, a))
  {
    var t := CApply(c, s, i, a);
    if a.LockSubRead? {
      forall w, u | 0 <= w < |t.watchers| && 0 <= u < |t.watchers| ensures SubWW(t, w, u) {
        assert SubWW(s, w, u);
      }
      forall w, j | 0 <= w < |t.watchers| && 0 <= j < |t.insts| ensures SubWC(t, w, j) {
        assert SubWC(s, w, j);
      }
    } else {
      NoNewSubHolderKeeps(s, t);
    }
  }

  lemma StepKeepsSub(c: Config, s: State, a: Action)
    requires Enabled(s, a) && SubExclusive(s)
    ensures SubExclusive(Apply(c, s, a))
  {
    match a
    case OfWatch(w, wa) =>
      if wa.LockSub? {
        WatchTakesSub(s, w);
      } else {
        WatchTakesNoSub(c, s, w, wa);
        NoNewSubHolderKeeps(s, WApply(c, s, w, wa));
      }
    case OfLoop(i, la) =>
      LoopTakesNoSub(s, i, la);
      NoNewSubHolderKeeps(s, LApply(s, i, la));
    case OfCleanup(i, ca) => CleanupStepSub(c, s, i, ca);
    case _ => NoNewSubHolderKeeps(s, Apply(c, s, a));
  }

  lemma {:induction false} RunKeepsSub(c: Config, run: seq<State>, acts: seq<Action>, n: nat)
    requires Run(c, run, acts) && n < |run|
    ensures SubExclusive(run[n])
  {
    if n > 0 {
      RunKeepsSub(c, run, acts, n - 1);
      assert Follows(c, run, acts, n - 1);
      StepKeepsSub(c, run[n - 1], acts[n - 1]);
    }
  }

  /** On every run each lock excludes: while one thread writes under it, no other thread holds it. */
  lemma LocksExclude(c: Config, run: seq<State>, acts: seq<Action>, n: nat, t: Thread, h: Thread, k: Lock)
    requires Run(c, run, acts) && n < |run| && Exists(run[n], t) && Exists(run[n], h) && t != h
    requires (k.Mu? ==> k.i < |run[n].insts|) && HoldsForWrite(run[n], t, k)
    ensures !Holds(run[n], h, k)
  {
    var s := run[n];
    RunKeeps(c, run, acts, n);
    RunKeepsSub(c, run, acts, n);
    match (t, h) {
      case (WatchThread(w), WatchThread(v)) =>
        assert GlobalWW(s, w, v) && SubWW(s, w, v);
        if k.Mu? {
          assert MuWW(s, k.i, w, v);
        }
      case (WatchThread(w), LoopThread(i)) =>
        assert GlobalWL(s, w, i) && MuWL(s, i, w);
      case (LoopThread(i), WatchThread(w)) =>
        assert GlobalWL(s, w, i) && MuWL(s, i, w);
      case (WatchThread(w), CleanupThread(i)) =>
        assert MuWL(s, i, w) && SubWC(s, w, i);
      case (LoopThread(i), LoopThread(j)) =>
        assert GlobalLL(s, i, j);
      case (LoopThread(i), CleanupThread(j)) =>
        assert MuLC(s.insts[i]);
      case (CleanupThread(_), _) =>
    }
  }

  lemma BlockerRanksHigher(s: State, t: Thread, h: Thread)
    requires BlockedBy(s, t, h)
    ensures Rank(s, t) < Rank(s, h)
  {
    var k := Wants(s, t).value.lock;
    if Holds(s, h, k) {
      AcquiresInOrder(s, h, k);
    }
  }

  // Each thread of the chain is blocked by the next one.
  ghost predicate Chain(s: State, chain: seq<Thread>) {
    && (forall k | 0 <= k < |chain| :: Exists(s, chain[k]))
    && (forall k | 0 <= k < |chain| - 1 :: BlockedBy(s, chain[k], chain[k + 1]))
  }

  lemma {:induction false} ChainClimbs(s: State, chain: seq<Thread>, k: nat)
    requires Chain(s, chain) && k < |chain|
    ensures Rank(s, chain[0]) + k <= Rank(s, chain[k])
  {
    if k > 0 {
      ChainClimbs(s, chain, k - 1);
      BlockerRanksHigher(s, chain[k - 1], chain[k]);
    }
  }

  /** No circular wait: a chain of blocked threads never returns to its start, and has at most seven threads. */
  lemma NoCircularWait(s: State, chain: seq<Thread>)
    requires Chain(s, chain) && |chain| >= 2
    ensures chain[0] != chain[|chain| - 1] && |chain| <= 7
  {
    ChainClimbs(s, chain, |chain| - 1);
  }

  // ---- Progress -------------------------------------------------------------------------------------

  ghost predicate CanStep(s: State, t: Thread) {
    match t
    case WatchThread(w) => exists a :: WEnabled(s, w, a)
    case LoopThread(i) => exists a :: LEnabled(s, i, a)
    case CleanupThread(i) => exists a :: CEnabled(s, i, a)
  }

  ghost predicate Blocked(s: State, t: Thread) {
    exists h :: BlockedBy(s, t, h)
  }

  // A lock that no thread keeps t from is free in the sense of the step system.
  lemma UnblockedMeansFree(s: State, t: Thread)
    requires Exists(s, t) && Wants(s, t).Some? && !Blocked(s, t)
    ensures var r := Wants(s, t).value;
      match r.lock
      case Global => r.write ==> GlobalFree(s)
      case Mu(i) => i < |s.insts| ==> NoWriter(s, i) && (r.write ==> NoReader(s, i))
      case Sub(v) => SubFreeForRead(s, v) && (r.write ==> SubFreeForWrite(s, v))
  {
    var r := Wants(s, t).value;
    forall w | 0 <= w < |s.watchers|
      ensures !HoldsForWrite(s, WatchThread(w), r.lock) && (r.write ==> !HoldsForRead(s, WatchThread(w), r.lock)) {
      assert !BlockedBy(s, t, WatchThread(w));
    }
    forall i | 0 <= i < |s.insts|
      ensures !HoldsForWrite(s, LoopThread(i), r.lock) && (r.write ==> !HoldsForRead(s, LoopThread(i), r.lock))
      ensures r.write ==> !HoldsForRead(s, CleanupThread(i), r.lock) {
      assert !BlockedBy(s, t, LoopThread(i)) && !BlockedBy(s, t, CleanupThread(i));
    }
    match r.lock
    case Global =>
      forall w | 0 <= w < |s.watchers| ensures !WHoldsGlobal(s.watchers[w].pc) { assert !HoldsForWrite(s, WatchThread(w), Global); }
      forall i | 0 <= i < |s.insts| ensures !s.insts[i].loop.Resetting? { assert !HoldsForWrite(s, LoopThread(i), Global); }
    case Mu(i) =>
      forall w | 0 <= w < |s.watchers|
        ensures !WWrites(s.watchers[w].pc, i) && (r.write ==> !WReads(s.watchers[w].pc, i)) {
        assert !HoldsForWrite(s, WatchThread(w), Mu(i));
      }
      if i < |s.insts| {
        assert !HoldsForWrite(s, LoopThread(i), Mu(i));
      }
    case Sub(v) =>
      forall w | 0 <= w < |s.watchers| ensures s.watchers[w].pc != ActStamp(v) { assert !HoldsForWrite(s, WatchThread(w), Sub(v)); }
      if r.write {
        forall i | 0 <= i < |s.insts| ensures !(s.insts[i].cleanup.SubRead? && s.insts[i].cleanup.v == v) {
          assert !HoldsForRead(s, CleanupThread(i), Sub(v));
        }
      }
  }

  lemma UnblockedWatchSteps(c: Config, s: State, w: nat)
    requires Inv(c, s) && w < |s.watchers| && Wants(s, WatchThread(w)).Some? && !Blocked(s, WatchThread(w))
    ensures CanStep(s, WatchThread(w))
  {
    var k := Wants(s, WatchThread(w)).value.lock;
    RegisterIndex(c, s, w);
    UnblockedMeansFree(s, WatchThread(w));
    if k.Sub? {
      assert WEnabled(s, w, LockSub);
    } else if k.Global? {
      assert WEnabled(s, w, LockGlobal);
    } else {
      assert WEnabled(s, w, LockMu);
    }
  }

  ghost predicate CurrentIndexOk(s: State, pc: WPc) {
    pc.StartWaitMu? || pc.RegWaitMu? || pc.UnWaitMu? || pc.ActWaitMu? || pc.Starting? || pc.RegInsert? ==> pc.i < |s.insts|
  }

  lemma RegisterIndex(c: Config, s: State, w: nat)
    requires Inv(c, s) && w < |s.watchers|
    ensures CurrentIndexOk(s, s.watchers[w].pc)
  {
    assert WatchOk(s, s.watchers[w]);
  }

  lemma UnblockedInstSteps(c: Config, s: State, i: nat, t: Thread)
    requires Inv(c, s) && i < |s.insts| && (t == LoopThread(i) || t == CleanupThread(i))
    requires Wants(s, t).Some? && !Blocked(s, t)
    ensures CanStep(s, t)
  {
    UnblockedMeansFree(s, t);
    var pc := s.insts[i].loop;
    if t.CleanupThread? {
      var a := if s.insts[i].cleanup.PassWait? then LockPass else LockSubRead;
      assert CEnabled(s, i, a);
    } else {
      var a := if pc.ResetWait? then LockReset else if pc.DropWaitMu? then LockDrop
               else if pc.ConnWaitMu? then LockConnect else LockFan;
      assert LEnabled(s, i, a);
    }
  }

  // Inside a critical section a watch always has something to do.
  lemma HoldingWatchSteps(c: Config, s: State, w: nat, k: Lock)
    requires Inv(c, s) && w < |s.watchers| && Holds(s, WatchThread(w), k) && Wants(s, WatchThread(w)).None?
    ensures CanStep(s, WatchThread(w))
  {
    var pc := s.watchers[w].pc;
    RegisterIndex(c, s, w);
    assert WatchOk(s, s.watchers[w]);
    if pc.UnDelete? {
      assert InstOk(c, s, pc.i);
    }
    var a :=
      if pc.RegOnce? then EnterOnce else if pc.Starting? then StartDone(true) else if pc.RegInsert? then Insert
      else if pc.RegUnlock? || pc.RegReject? then UnlockRegister else if pc.RegLeave? then LeaveRegister else if pc.ActReadPtr? || pc.UnReadPtr? then ReadPtr
      else if pc.ActLookup? then LookupSub else if pc.ActStamp? then Stamp else if pc.UnDelete? then Delete
      else UnlockUnregister;
    assert WEnabled(s, w, a);
  }

  lemma HoldingLoopSteps(c: Config, s: State, i: nat, k: Lock)
    requires Inv(c, s) && i < |s.insts| && Holds(s, LoopThread(i), k)
    ensures CanStep(s, LoopThread(i))
  {
    var l := s.insts[i].loop;
    assert InstOk(c, s, i);
    var v := if l.FanOut? && l.pending != {} then var v :| v in l.pending; v else 0;
    var a :=
      if l.FanOut? then
        (if l.pending == {} then UnlockFan else if s.watchers[v].cancelled then Skip(v) else Check(v))
      else if l.Offering? then Send else if l.DropConn? then DropDone
      else if l.Connecting? then ConnectDone(true) else Reset;
    assert LEnabled(s, i, a);
  }

  lemma HoldingCleanupSteps(c: Config, s: State, i: nat, k: Lock)
    requires Inv(c, s) && i < |s.insts| && Holds(s, CleanupThread(i), k) && Wants(s, CleanupThread(i)).None?
    ensures CanStep(s, CleanupThread(i))
  {
    var q := s.insts[i].cleanup;
    assert InstOk(c, s, i);
    var v := if q.Pass? && q.pending != {} then var v :| v in q.pending; v else 0;
    var a := if q.SubRead? then Judge else if q.Evicting? then Evict else if q.pending == {} then UnlockPass else Pick(v);
    assert CEnabled(s, i, a);
  }

  lemma UnblockedSteps(c: Config, s: State, t: Thread)
    requires Inv(c, s) && Exists(s, t) && Wants(s, t).Some? && !Blocked(s, t)
    ensures CanStep(s, t)
  {
    match t
    case WatchThread(w) => UnblockedWatchSteps(c, s, w);
    case LoopThread(i) => UnblockedInstSteps(c, s, i, t);
    case CleanupThread(i) => UnblockedInstSteps(c, s, i, t);
  }

  lemma HolderSteps(c: Config, s: State, t: Thread, k: Lock)
    requires Inv(c, s) && Exists(s, t) && Holds(s, t, k) && Wants(s, t).None?
    ensures CanStep(s, t)
  {
    match t
    case WatchThread(w) => HoldingWatchSteps(c, s, w, k);
    case LoopThread(i) => HoldingLoopSteps(c, s, i, k);
    case CleanupThread(i) => HoldingCleanupSteps(c, s, i, k);
  }

  lemma ChainGrows(s: State, t: Thread, rest: seq<Thread>)
    requires rest != [] && Chain(s, rest) && BlockedBy(s, t, rest[0])
    ensures Chain(s, [t] + rest)
  {
    var chain := [t] + rest;
    forall k | 0 <= k < |chain| - 1 ensures BlockedBy(s, chain[k], chain[k + 1]) {
      assert k > 0 ==> chain[k] == rest[k - 1] && chain[k + 1] == rest[k];
    }
  }

  lemma {:induction false} WaiterLeadsToRunner(c: Config, s: State, t: Thread) returns (chain: seq<Thread>)
    requires Inv(c, s) && Exists(s, t) && Wants(s, t).Some?
    ensures |chain| > 0 && chain[0] == t && Chain(s, chain) && CanStep(s, chain[|chain| - 1])
    decreases 7 - Rank(s, t)
  {
    if Blocked(s, t) {
      var h :| BlockedBy(s, t, h);
      BlockerRanksHigher(s, t, h);
      if Wants(s, h).Some? {
        var rest := WaiterLeadsToRunner(c, s, h);
        ChainGrows(s, t, rest);
        chain := [t] + rest;
      } else {
        HolderSteps(c, s, h, Wants(s, t).value.lock);
        ChainGrows(s, t, [h]);
        chain := [t] + [h];
      }
    } else {
      UnblockedSteps(c, s, t);
      chain := [t];
    }
  }

  /** No deadlock on any run: a thread that waits for a lock leads, blocker by blocker, to one that can step. */
  lemma NoDeadlock(c: Config, run: seq<State>, acts: seq<Action>, k: nat, t: Thread)
    requires Run(c, run, acts) && k < |run| && Exists(run[k], t) && Wants(run[k], t).Some?
    ensures exists chain :: |chain| > 0 && chain[0] == t && Chain(run[k], chain) && CanStep(run[k], chain[|chain| - 1])
  {
    RunKeeps(c, run, acts, k);
    var chain := WaiterLeadsToRunner(c, run[k], t);
  }
}

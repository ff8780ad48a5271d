/**
 Channel safety of the watch fan-out: an inductive invariant of the step system, and what it gives
 over whole runs. The safety argument is the one the source states in its comments: sends happen
 under the read lock, a watch unregisters before it closes its channel, and an instance is replaced
 only after its own loop has exited.
*/
module WatchSafety {
  import opened Prelude
  import opened WatchProtocol

  /** The watch has left the listener for good: its entry is gone and it is about to close. */
  ghost predicate Gone(pc: WPc) {
    pc.UnUnlock? || pc.CloseResult? || pc.CloseReceiver? || pc.Finished?
  }

  /** The watch has not been inserted into any map yet. */
  ghost predicate Registering(pc: WPc) {
    pc.RegWaitGlobal? || pc.RegOnce? || pc.StartWaitMu? || pc.Starting? || pc.RegWaitMu? || pc.RegInsert?
    || pc.RegReject? || (pc.RegLeave? && pc.rejected) || pc.Rejected?
  }

  /** The instance's loop may still send, or still has to reset the singleton. */
  ghost predicate Current(l: Inst) {
    !l.loop.Failed? && !l.loop.Stopped?
  }

  // The singleton pointer and the once-flag agree, and the pointer is in range.
  ghost predicate PointerOk(s: State) {
    && (s.onceDone <==> s.instance.Some?)
    && (s.instance.Some? ==> s.instance.value < |s.insts|)
  }

  ghost predicate GlobalWW(s: State, w: nat, v: nat)
    requires w < |s.watchers| && v < |s.watchers|
  {
    WHoldsGlobal(s.watchers[w].pc) && WHoldsGlobal(s.watchers[v].pc) ==> w == v
  }

  ghost predicate GlobalWL(s: State, w: nat, i: nat)
    requires w < |s.watchers| && i < |s.insts|
  {
    !(WHoldsGlobal(s.watchers[w].pc) && s.insts[i].loop.Resetting?)
  }

  ghost predicate GlobalLL(s: State, i: nat, j: nat)
    requires i < |s.insts| && j < |s.insts|
  {
    s.insts[i].loop.Resetting? && s.insts[j].loop.Resetting? ==> i == j
  }

  /** listenerMu is held by at most one thread. */
  ghost predicate GlobalExclusive(s: State) {
    && (forall w, v | 0 <= w < |s.watchers| && 0 <= v < |s.watchers| :: GlobalWW(s, w, v))
    && (forall w, i | 0 <= w < |s.watchers| && 0 <= i < |s.insts| :: GlobalWL(s, w, i))
    && (forall i, j | 0 <= i < |s.insts| && 0 <= j < |s.insts| :: GlobalLL(s, i, j))
  }

  ghost predicate MuWW(s: State, i: nat, w: nat, v: nat)
    requires w < |s.watchers| && v < |s.watchers|
  {
    WWrites(s.watchers[w].pc, i) ==> !WReads(s.watchers[v].pc, i) && (WWrites(s.watchers[v].pc, i) ==> v == w)
  }

  ghost predicate MuWL(s: State, i: nat, w: nat)
    requires w < |s.watchers| && i < |s.insts|
  {
    var l := s.insts[i];
    && (WWrites(s.watchers[w].pc, i) ==> !LWrites(l.loop) && !LReads(l.loop) && !CReads(l.cleanup))
    && (LWrites(l.loop) ==> !WReads(s.watchers[w].pc, i))
  }

  ghost predicate MuLC(l: Inst) {
    LWrites(l.loop) ==> !CReads(l.cleanup)
  }

  /** Every listener.mu is held either by one writer alone or by readers only. */
  ghost predicate MuExclusive(s: State) {
    && (forall i, w, v | 0 <= i < |s.insts| && 0 <= w < |s.watchers| && 0 <= v < |s.watchers| :: MuWW(s, i, w, v))
    && (forall i, w | 0 <= i < |s.insts| && 0 <= w < |s.watchers| :: MuWL(s, i, w))
    && (forall i | 0 <= i < |s.insts| :: MuLC(s.insts[i]))
  }

  // A watch that registers works on the singleton it found, which stays current under listenerMu.
  ghost predicate RegisterOk(s: State, x: Watcher) {
    && (x.pc.StartWaitMu? || x.pc.Starting? || x.pc.RegWaitMu? || x.pc.RegInsert? ==> s.instance == Some(x.pc.i))
    && (x.pc.StartWaitMu? || x.pc.Starting? ==> x.pc.i < |s.insts| && s.insts[x.pc.i].loop.Unstarted?)
    && (Registering(x.pc) ==> x.home.None?)
    && (!Registering(x.pc) ==> x.home.Some? && x.home.value < |s.insts|)
  }

  // A watch that unregisters from instance j does so at its home, if the home can still send.
  ghost predicate UnregisterOk(s: State, x: Watcher) {
    (x.pc.UnWaitMu? || x.pc.UnDelete?) && x.home.Some? && x.home.value < |s.insts| && Current(s.insts[x.home.value])
    ==> x.pc.i == x.home.value
  }

  ghost predicate IndexOk(s: State, pc: WPc) {
    pc.RegUnlock? || pc.RegReject? || pc.ActWaitMu? || pc.ActLookup? || pc.UnWaitMu? || pc.UnDelete? || pc.UnUnlock?
    ==> pc.i < |s.insts|
  }

  ghost predicate ChannelsOk(x: Watcher) {
    && (x.resultClosed <==> x.pc.CloseReceiver? || x.pc.Finished?)
    && (x.receiverClosed <==> x.pc.Finished?)
    && |x.receiver| <= BUFFER && |x.result| <= BUFFER
  }

  // Stamps are taken from the clock, and one that is being taken is for a registered watch.
  ghost predicate TimesOk(s: State, x: Watcher) {
    && (x.home.Some? ==> x.createdAt <= x.lastActivity <= s.clock)
    && (x.pc.ActWaitSub? || x.pc.ActStamp? ==> x.pc.v < |s.watchers| && s.watchers[x.pc.v].home.Some?)
  }

  // Every map entry is a registered watch with that ID, and an instance that can still send
  // holds no watch that is about to close.
  ghost predicate EntriesOk(s: State, i: nat)
    requires i < |s.insts|
  {
    forall id | id in s.insts[i].subs ::
      var v := s.insts[i].subs[id];
      && v < |s.watchers| && s.watchers[v].id == id && s.watchers[v].home == Some(i)
      && (Current(s.insts[i]) ==> !Gone(s.watchers[v].pc))
  }

  ghost predicate InstOk(c: Config, s: State, i: nat)
    requires i < |s.insts|
  {
    var l := s.insts[i];
    && (Current(l) ==> s.instance == Some(i))
    && EntriesOk(s, i)
    && |l.subs| <= c.maxActive
    && (l.loop.FanOut? ==> l.loop.pending <= l.subs.Values)
    && (l.loop.Offering? ==> l.loop.pending <= l.subs.Values && l.loop.v in l.subs.Values)
    && (l.cleanup.Pass? ==> l.cleanup.pending <= l.subs.Values)
    && (l.cleanup.SubWait? || l.cleanup.SubRead? || l.cleanup.Evicting? ==> l.cleanup.pending <= l.subs.Values && l.cleanup.v in l.subs.Values)
  }

  ghost predicate WatchOk(s: State, x: Watcher) {
    RegisterOk(s, x) && UnregisterOk(s, x) && IndexOk(s, x.pc) && ChannelsOk(x) && TimesOk(s, x)
  }

  ghost predicate Inv(c: Config, s: State) {
    && !s.panicked
    && PointerOk(s) && GlobalExclusive(s) && MuExclusive(s)
    && (forall w | 0 <= w < |s.watchers| :: WatchOk(s, s.watchers[w]))
    && (forall i | 0 <= i < |s.insts| :: InstOk(c, s, i))
  }

  // ---- Frames: one watch changes, or one instance changes ------------------------------------

  // The watch takes only locks that are free.
  ghost predicate LocksFairly(s: State, before: WPc, after: WPc) {
    && (WHoldsGlobal(after) ==> WHoldsGlobal(before) || GlobalFree(s))
    && (forall i | 0 <= i < |s.insts| && WWrites(after, i) :: WWrites(before, i) || (NoWriter(s, i) && NoReader(s, i)))
    && (forall i | 0 <= i < |s.insts| && WReads(after, i) :: WReads(before, i) || NoWriter(s, i))
  }

  lemma ExclusionAfterWatch(s: State, w: nat, x: Watcher)
    requires GlobalExclusive(s) && MuExclusive(s) && w < |s.watchers|
    requires LocksFairly(s, s.watchers[w].pc, x.pc)
    ensures GlobalExclusive(SetW(s, w, x)) && MuExclusive(SetW(s, w, x))
  {
    var t := SetW(s, w, x);
    forall v, u | 0 <= v < |t.watchers| && 0 <= u < |t.watchers| ensures GlobalWW(t, v, u) {
      assert GlobalWW(s, v, u);
    }
    forall v, j | 0 <= v < |t.watchers| && 0 <= j < |t.insts| ensures GlobalWL(t, v, j) && MuWL(t, j, v) {
      assert GlobalWL(s, v, j) && MuWL(s, j, v);
    }
    forall j, k | 0 <= j < |t.insts| && 0 <= k < |t.insts| ensures GlobalLL(t, j, k) {
      assert GlobalLL(s, j, k);
    }
    forall j, v, u | 0 <= j < |t.insts| && 0 <= v < |t.watchers| && 0 <= u < |t.watchers| ensures MuWW(t, j, v, u) {
      assert MuWW(s, j, v, u);
    }
    forall j | 0 <= j < |t.insts| ensures MuLC(t.insts[j]) {
      assert MuLC(s.insts[j]);
    }
  }

  // No instance that can still send holds watch w.
  ghost predicate Unlisted(s: State, w: nat) {
    forall i, id | 0 <= i < |s.insts| && Current(s.insts[i]) && id in s.insts[i].subs :: s.insts[i].subs[id] != w
  }

  lemma WatchMoves(c: Config, s: State, w: nat, x: Watcher)
    requires Inv(c, s) && w < |s.watchers|
    requires x.id == s.watchers[w].id
    requires s.watchers[w].home.Some? ==> x.home == s.watchers[w].home
    requires LocksFairly(s, s.watchers[w].pc, x.pc)
    requires WatchOk(s, x)
    requires Gone(x.pc) ==> Gone(s.watchers[w].pc) || Unlisted(s, w)
    ensures Inv(c, SetW(s, w, x))
  {
    ExclusionAfterWatch(s, w, x);
    var t := SetW(s, w, x);
    forall v | 0 <= v < |t.watchers| ensures WatchOk(t, t.watchers[v]) {
      assert WatchOk(s, s.watchers[v]);
    }
    forall i | 0 <= i < |t.insts| ensures InstOk(c, t, i) {
      assert InstOk(c, s, i);
    }
  }

  // The loop and the ticker take only locks that are free, and a loop that has exited stays so.
  ghost predicate InstFairly(s: State, i: nat, l: Inst)
    requires i < |s.insts|
  {
    var before := s.insts[i];
    && (LWrites(l.loop) ==> LWrites(before.loop) || (NoWriter(s, i) && NoReader(s, i)))
    && (LReads(l.loop) ==> LReads(before.loop) || NoWriter(s, i))
    && (CReads(l.cleanup) ==> CReads(before.cleanup) || NoWriter(s, i))
    && !(LWrites(l.loop) && CReads(l.cleanup))
    && (l.loop.Resetting? ==> before.loop.Resetting? || GlobalFree(s))
    && (Current(l) ==> Current(before))
  }

  lemma ExclusionAfterInst(s: State, i: nat, l: Inst)
    requires GlobalExclusive(s) && MuExclusive(s) && i < |s.insts|
    requires InstFairly(s, i, l)
    ensures GlobalExclusive(SetI(s, i, l)) && MuExclusive(SetI(s, i, l))
  {
    var t := SetI(s, i, l);
    forall v, u | 0 <= v < |t.watchers| && 0 <= u < |t.watchers| ensures GlobalWW(t, v, u) {
      assert GlobalWW(s, v, u);
    }
    forall v, j | 0 <= v < |t.watchers| && 0 <= j < |t.insts| ensures GlobalWL(t, v, j) && MuWL(t, j, v) {
      assert GlobalWL(s, v, j) && MuWL(s, j, v);
    }
    forall j, k | 0 <= j < |t.insts| && 0 <= k < |t.insts| ensures GlobalLL(t, j, k) {
      assert GlobalLL(s, j, k);
    }
    forall j, v, u | 0 <= j < |t.insts| && 0 <= v < |t.watchers| && 0 <= u < |t.watchers| ensures MuWW(t, j, v, u) {
      assert MuWW(s, j, v, u);
    }
    forall j | 0 <= j < |t.insts| ensures MuLC(t.insts[j]) {
      assert MuLC(s.insts[j]);
    }
  }

  lemma InstMoves(c: Config, s: State, i: nat, l: Inst)
    requires Inv(c, s) && i < |s.insts|
    requires InstFairly(s, i, l)
    requires InstOk(c, SetI(s, i, l), i)
    requires s.insts[i].loop.Unstarted? && !l.loop.Unstarted? ==>
               forall w | 0 <= w < |s.watchers| :: s.watchers[w].pc != StartWaitMu(i) && s.watchers[w].pc != Starting(i)
    ensures Inv(c, SetI(s, i, l))
  {
    ExclusionAfterInst(s, i, l);
    var t := SetI(s, i, l);
    forall w | 0 <= w < |t.watchers| ensures WatchOk(t, t.watchers[w]) {
      assert WatchOk(s, s.watchers[w]);
    }
    forall j | 0 <= j < |t.insts| ensures InstOk(c, t, j) {
      assert InstOk(c, s, j);
    }
  }

  lemma CountersMove(c: Config, s: State, t: State)
    requires Inv(c, s) && s.clock <= t.clock && t == s.(clock := t.clock, notified := t.notified)
    ensures Inv(c, t)
  {
    assert GlobalExclusive(t) && MuExclusive(t) by { SameHoldersKeep(s, t); }
    forall w | 0 <= w < |t.watchers| ensures WatchOk(t, t.watchers[w]) {
      assert WatchOk(s, s.watchers[w]);
    }
    forall j | 0 <= j < |t.insts| ensures InstOk(c, t, j) {
      assert InstOk(c, s, j);
    }
  }

  // Every thread is where it was; threads that are new hold no lock.
  ghost predicate SameHolders(s: State, t: State) {
    && |s.watchers| <= |t.watchers| && |s.insts| <= |t.insts|
    && (forall w | 0 <= w < |t.watchers| ::
          if w < |s.watchers| then t.watchers[w].pc == s.watchers[w].pc else t.watchers[w].pc == RegWaitGlobal)
    && (forall i | 0 <= i < |t.insts| ::
          if i < |s.insts| then t.insts[i].loop == s.insts[i].loop && t.insts[i].cleanup == s.insts[i].cleanup
          else t.insts[i].loop == Unstarted && t.insts[i].cleanup == Idle)
  }

  lemma SameHoldersKeep(s: State, t: State)
    requires GlobalExclusive(s) && MuExclusive(s) && SameHolders(s, t)
    requires forall i, w | |s.insts| <= i < |t.insts| && 0 <= w < |s.watchers| :: !WWrites(s.watchers[w].pc, i)
    ensures GlobalExclusive(t) && MuExclusive(t)
  {
    forall v, u | 0 <= v < |t.watchers| && 0 <= u < |t.watchers| ensures GlobalWW(t, v, u) {
      assert v < |s.watchers| && u < |s.watchers| ==> GlobalWW(s, v, u);
    }
    forall v, j | 0 <= v < |t.watchers| && 0 <= j < |t.insts| ensures GlobalWL(t, v, j) && MuWL(t, j, v) {
      assert v < |s.watchers| && j < |s.insts| ==> GlobalWL(s, v, j) && MuWL(s, j, v);
    }
    forall j, k | 0 <= j < |t.insts| && 0 <= k < |t.insts| ensures GlobalLL(t, j, k) {
      assert j < |s.insts| && k < |s.insts| ==> GlobalLL(s, j, k);
    }
    forall j, v, u | 0 <= j < |t.insts| && 0 <= v < |t.watchers| && 0 <= u < |t.watchers| ensures MuWW(t, j, v, u) {
      assert j < |s.insts| && v < |s.watchers| && u < |s.watchers| ==> MuWW(s, j, v, u);
    }
    forall j | 0 <= j < |t.insts| ensures MuLC(t.insts[j]) {
      assert j < |s.insts| ==> MuLC(s.insts[j]);
    }
  }

  // ---- Every step keeps the invariant ----------------------------------------------------------

  ghost function WithNewInstance(s: State): State {
    s.(insts := s.insts + [Inst(map[], false, false, Unstarted, Idle)], instance := Some(|s.insts|), onceDone := true)
  }

  lemma InvAfterCreate(c: Config, s: State, w: nat)
    requires Inv(c, s) && w < |s.watchers| && s.watchers[w].pc.RegOnce? && !s.onceDone
    ensures Inv(c, WithNewInstance(s))
  {
    var t := WithNewInstance(s);
    forall j | 0 <= j < |t.insts| ensures InstOk(c, t, j) {
      assert j < |s.insts| ==> InstOk(c, s, j);
    }
    forall v | 0 <= v < |t.watchers| ensures WatchOk(t, t.watchers[v]) {
      assert WatchOk(s, s.watchers[v]);
    }
    SameHoldersKeep(s, t);
  }

  lemma CreateKeeps(c: Config, s: State, w: nat)
    requires Inv(c, s) && w < |s.watchers| && s.watchers[w].pc.RegOnce? && !s.onceDone
    ensures Inv(c, DoCreate(s, w))
  {
    InvAfterCreate(c, s, w);
    var t := WithNewInstance(s);
    WatchMoves(c, t, w, t.watchers[w].(pc := StartWaitMu(|s.insts|)));
  }

  lemma EnterOnceKeeps(c: Config, s: State, w: nat)
    requires Inv(c, s) && w < |s.watchers| && s.watchers[w].pc.RegOnce?
    ensures Inv(c, DoEnterOnce(s, w))
  {
    if !s.onceDone {
      CreateKeeps(c, s, w);
    } else {
      WatchMoves(c, s, w, s.watchers[w].(pc := RegWaitMu(s.instance.value)));
    }
  }

  lemma LockGlobalKeeps(c: Config, s: State, w: nat)
    requires Inv(c, s) && WEnabled(s, w, LockGlobal)
    ensures Inv(c, DoLockGlobal(s, w))
  {
    assert WatchOk(s, s.watchers[w]);
    WatchMoves(c, s, w, DoLockGlobal(s, w).watchers[w]);
  }
  
  lemma LockMuKeeps(c: Config, s: State, w: nat)
    requires Inv(c, s) && WEnabled(s, w, LockMu)
    ensures Inv(c, DoLockMu(s, w))
  {
    assert WatchOk(s, s.watchers[w]);
    WatchMoves(c, s, w, DoLockMu(s, w).watchers[w]);
  }

  lemma StartKeeps(c: Config, s: State, w: nat, i: nat, ok: bool)
    requires Inv(c, s) && w < |s.watchers| && i < |s.insts| && s.watchers[w].pc == Starting(i)
    ensures Inv(c, DoStart(s, w, i, ok))
  {
    assert WatchOk(s, s.watchers[w]);
    assert InstOk(c, s, i);
    forall v | 0 <= v < |s.watchers| && v != w ensures s.watchers[v].pc != Starting(i) && s.watchers[v].pc != StartWaitMu(i) {
      assert GlobalWW(s, v, w);
    }
    WatchMoves(c, s, w, s.watchers[w].(pc := RegWaitMu(i)));
    var t := SetPc(s, w, RegWaitMu(i));
    InstMoves(c, t, i, s.insts[i].(conn := ok, loop := if ok then Top else Failed));
  }

  lemma InsertsEntry(c: Config, s: State, w: nat, i: nat, l: Inst)
    requires Inv(c, s) && w < |s.watchers| && i < |s.insts| && s.watchers[w].pc == RegUnlock(i) && s.watchers[w].home == Some(i)
    requires |s.insts[i].subs| < c.maxActive
    requires l == s.insts[i].(subs := s.insts[i].subs[s.watchers[w].id := w])
    ensures Inv(c, SetI(s, i, l))
  {
    assert MuWL(s, i, w);
    assert InstOk(c, s, i);
    assert |l.subs| <= |s.insts[i].subs| + 1;
    InstMoves(c, s, i, l);
  }

  lemma InsertKeeps(c: Config, s: State, w: nat, i: nat)
    requires Inv(c, s) && w < |s.watchers| && i < |s.insts| && s.watchers[w].pc == RegInsert(i)
    ensures Inv(c, DoInsert(c, s, w, i))
  {
    var x := s.watchers[w];
    var l := s.insts[i];
    assert WatchOk(s, x);
    if |l.subs| >= c.maxActive {
      WatchMoves(c, s, w, x.(pc := RegReject(i)));
    } else {
      var y := x.(pc := RegUnlock(i), home := Some(i), createdAt := s.clock, lastActivity := s.clock);
      WatchMoves(c, s, w, y);
      InsertsEntry(c, SetW(s, w, y), w, i, l.(subs := l.subs[x.id := w]));
    }
  }

  // A step inside the watch's goroutine: no lock is taken, nothing is closed, identity and stamps stay.
  ghost predicate Local(x: Watcher, y: Watcher) {
    && x.id == y.id && x.home == y.home && x.createdAt == y.createdAt && x.lastActivity == y.lastActivity
    && x.resultClosed == y.resultClosed && x.receiverClosed == y.receiverClosed
    && |y.receiver| <= BUFFER && |y.result| <= BUFFER
    && (x.pc.Watching? || x.pc.Filtering? || x.pc.Authorising? || x.pc.Sending? || x.pc.ActStamp?)
    && (y.pc.Watching? || y.pc.Filtering? || y.pc.Authorising? || y.pc.Sending? || y.pc.ActWaitGlobal? || y.pc.UnWaitGlobal?)
  }

  lemma LocalStepKeeps(c: Config, s: State, w: nat, y: Watcher)
    requires Inv(c, s) && w < |s.watchers| && Local(s.watchers[w], y)
    ensures Inv(c, SetW(s, w, y))
  {
    assert WatchOk(s, s.watchers[w]);
    WatchMoves(c, s, w, y);
  }

  lemma SelectIsLocal(x: Watcher)
    requires ChannelsOk(x)
    ensures x.pc.Watching? && x.receiver != [] ==> Local(x, DoReceive(x))
    ensures x.pc.Filtering? ==> Local(x, DoFilter(x, x.pc.n))
    ensures x.pc.Authorising? ==> Local(x, DoAuthorise(x, x.pc.n, true)) && Local(x, DoAuthorise(x, x.pc.n, false))
    ensures x.pc.Sending? && |x.result| < BUFFER ==> Local(x, DoDeliver(x, x.pc.n))
    ensures x.pc.Sending? ==> Local(x, DoDropFull(x, x.pc.n)) && Local(x, DoAbandon(x, x.pc.n))
  {
  }

  lemma LookupKeeps(c: Config, s: State, w: nat, i: nat)
    requires Inv(c, s) && w < |s.watchers| && i < |s.insts| && s.watchers[w].pc == ActLookup(i)
    ensures Inv(c, DoLookup(s, w, i))
  {
    assert WatchOk(s, s.watchers[w]);
    assert InstOk(c, s, i);
    WatchMoves(c, s, w, DoLookup(s, w, i).watchers[w]);
  }

  lemma LockSubKeeps(c: Config, s: State, w: nat, v: nat)
    requires Inv(c, s) && w < |s.watchers| && s.watchers[w].pc == ActWaitSub(v)
    ensures Inv(c, SetPc(s, w, ActStamp(v)))
  {
    assert WatchOk(s, s.watchers[w]);
    WatchMoves(c, s, w, s.watchers[w].(pc := ActStamp(v)));
  }

  lemma StampKeeps(c: Config, s: State, w: nat, v: nat)
    requires Inv(c, s) && w < |s.watchers| && v < |s.watchers| && s.watchers[w].pc == ActStamp(v)
    ensures Inv(c, DoStamp(s, w, v))
  {
    assert WatchOk(s, s.watchers[w]) && WatchOk(s, s.watchers[v]);
    var y := s.watchers[v].(lastActivity := s.clock);
    WatchMoves(c, s, v, y);
    LocalStepKeeps(c, SetW(s, v, y), w, SetW(s, v, y).watchers[w].(pc := Watching));
  }

  lemma CurrentIsSingleton(c: Config, s: State)
    requires Inv(c, s)
    ensures forall i | 0 <= i < |s.insts| && Current(s.insts[i]) :: s.instance == Some(i)
  {
    forall i | 0 <= i < |s.insts| && Current(s.insts[i]) ensures s.instance == Some(i) {
      assert InstOk(c, s, i);
    }
  }

  lemma ReadPtrKeeps(c: Config, s: State, w: nat)
    requires Inv(c, s) && WEnabled(s, w, ReadPtr)
    ensures Inv(c, DoReadPtr(s, w))
  {
    assert WatchOk(s, s.watchers[w]);
    CurrentIsSingleton(c, s);
    WatchMoves(c, s, w, DoReadPtr(s, w).watchers[w]);
  }

  lemma SubsetSize<T>(a: set<T>, b: set<T>)
    requires a <= b
    ensures |a| <= |b|
  {
    assert b == a + (b - a);
  }

  lemma SmallerMap(m: map<string, nat>, id: string)
    ensures |m - {id}| <= |m|
  {
    assert (m - {id}).Keys <= m.Keys;
    SubsetSize((m - {id}).Keys, m.Keys);
    assert |m - {id}| == |(m - {id}).Keys| && |m| == |m.Keys|;
  }

  lemma CancelKeeps(c: Config, s: State, v: nat)
    requires Inv(c, s) && v < |s.watchers|
    ensures Inv(c, Cancel(s, v))
  {
    assert WatchOk(s, s.watchers[v]);
    WatchMoves(c, s, v, s.watchers[v].(cancelled := true));
  }

  lemma RemoveEntryKeeps(c: Config, s: State, w: nat, i: nat, l: Inst)
    requires Inv(c, s) && w < |s.watchers| && i < |s.insts| && s.watchers[w].pc == UnDelete(i)
    requires l.subs == s.insts[i].subs - {s.watchers[w].id}
    requires l == s.insts[i].(subs := l.subs, cancelled := l.cancelled)
    ensures Inv(c, SetI(s, i, l)) && Unlisted(SetI(s, i, l), w)
  {
    assert MuWL(s, i, w);
    assert InstOk(c, s, i);
    SmallerMap(s.insts[i].subs, s.watchers[w].id);
    InstMoves(c, s, i, l);
    var u := SetI(s, i, l);
    assert WatchOk(u, u.watchers[w]);
    forall j, id | 0 <= j < |u.insts| && Current(u.insts[j]) && id in u.insts[j].subs ensures u.insts[j].subs[id] != w {
      assert InstOk(c, u, j);
    }
  }

  lemma UnlistedKeeps(c: Config, s: State, w: nat, i: nat)
    requires Inv(c, s) && w < |s.watchers| && s.watchers[w].pc == UnDelete(i) && Unlisted(s, w)
    ensures Inv(c, SetPc(s, w, UnUnlock(i)))
  {
    assert WatchOk(s, s.watchers[w]);
    WatchMoves(c, s, w, s.watchers[w].(pc := UnUnlock(i)));
  }

  lemma DeleteKeeps(c: Config, s: State, w: nat, i: nat)
    requires Inv(c, s) && w < |s.watchers| && i < |s.insts| && s.watchers[w].pc == UnDelete(i)
    requires s.watchers[w].id in s.insts[i].subs ==> s.insts[i].subs[s.watchers[w].id] < |s.watchers|
    ensures Inv(c, DoDelete(s, w, i))
  {
    var id := s.watchers[w].id;
    var l := s.insts[i];
    var t := if id in l.subs then Cancel(s, l.subs[id]) else s;
    if id in l.subs {
      CancelKeeps(c, s, l.subs[id]);
    }
    var subs := l.subs - {id};
    var m := l.(subs := subs, cancelled := l.cancelled || subs == map[]);
    RemoveEntryKeeps(c, t, w, i, m);
    UnlistedKeeps(c, SetI(t, i, m), w, i);
  }

  lemma CloseKeeps(c: Config, s: State, w: nat)
    requires Inv(c, s) && WEnabled(s, w, DoClose)
    ensures Inv(c, DoCloseChannel(s, w))
  {
    assert WatchOk(s, s.watchers[w]);
    WatchMoves(c, s, w, DoCloseChannel(s, w).watchers[w]);
  }

  lemma UnlockKeeps(c: Config, s: State, w: nat, pc: WPc)
    requires Inv(c, s) && w < |s.watchers|
    requires var before := s.watchers[w].pc;
      || ((before.RegUnlock? || before.RegReject?) && pc == RegLeave(before.RegReject?))
      || (before.RegLeave? && pc == if before.rejected then Rejected else Watching)
      || (before.UnUnlock? && pc.CloseResult?)
    ensures Inv(c, SetPc(s, w, pc))
  {
    assert WatchOk(s, s.watchers[w]);
    WatchMoves(c, s, w, s.watchers[w].(pc := pc));
  }

  // The steps of the watch's own select loop touch only the watch.
  lemma SelectKeeps(c: Config, s: State, w: nat, a: WAct)
    requires Inv(c, s) && WEnabled(s, w, a)
    requires a.Receive? || a.Filter? || a.Authorise? || a.Deliver? || a.DropFull? || a.AbandonSend?
    ensures Inv(c, WApply(c, s, w, a))
  {
    var x := s.watchers[w];
    assert WatchOk(s, x);
    SelectIsLocal(x);
    var y :=
      if a.Receive? then DoReceive(x)
      else if a.Filter? then DoFilter(x, x.pc.n)
      else if a.Authorise? then DoAuthorise(x, x.pc.n, a.granted)
      else if a.Deliver? then DoDeliver(x, x.pc.n)
      else if a.DropFull? then DoDropFull(x, x.pc.n)
      else DoAbandon(x, x.pc.n);
    LocalStepKeeps(c, s, w, y);
  }

  lemma WatchStep(c: Config, s: State, w: nat, a: WAct)
    requires Inv(c, s) && WEnabled(s, w, a)
    ensures Inv(c, WApply(c, s, w, a))
  {
    var x := s.watchers[w];
    match a
    case LockGlobal => LockGlobalKeeps(c, s, w);
    case EnterOnce => EnterOnceKeeps(c, s, w);
    case LockMu => LockMuKeeps(c, s, w);
    case StartDone(ok) => StartKeeps(c, s, w, x.pc.i, ok);
    case Insert => InsertKeeps(c, s, w, x.pc.i);
    case UnlockRegister => UnlockKeeps(c, s, w, RegLeave(x.pc.RegReject?));
    case LeaveRegister => UnlockKeeps(c, s, w, if x.pc.rejected then Rejected else Watching);
    case ReadPtr => ReadPtrKeeps(c, s, w);
    case LookupSub => LookupKeeps(c, s, w, x.pc.i);
    case LockSub => LockSubKeeps(c, s, w, x.pc.v);
    case Stamp => StampKeeps(c, s, w, x.pc.v);
    case Delete => DeleteKeeps(c, s, w, x.pc.i);
    case UnlockUnregister => UnlockKeeps(c, s, w, CloseResult);
    case DoClose => CloseKeeps(c, s, w);
    case SeeDone => LocalStepKeeps(c, s, w, x.(pc := UnWaitGlobal));
    case _ => SelectKeeps(c, s, w, a);
  }

  // A step of the loop that leaves the map, the cleanup and the watches alone.
  lemma LoopMoves(c: Config, s: State, i: nat, l: Inst)
    requires Inv(c, s) && i < |s.insts|
    requires l.subs == s.insts[i].subs && l.cleanup == s.insts[i].cleanup
    requires InstFairly(s, i, l) && !s.insts[i].loop.Unstarted?
    requires l.loop.FanOut? ==> l.loop.pending <= l.subs.Values
    requires l.loop.Offering? ==> l.loop.pending <= l.subs.Values && l.loop.v in l.subs.Values
    ensures Inv(c, SetI(s, i, l))
  {
    assert InstOk(c, s, i);
    InstMoves(c, s, i, l);
  }

  lemma NotifyKeeps(c: Config, s: State, i: nat)
    requires Inv(c, s) && i < |s.insts| && s.insts[i].loop.Top?
    ensures Inv(c, DoNotify(s, i))
  {
    var t := SetLoop(s, i, Parsing(s.notified));
    LoopMoves(c, s, i, t.insts[i]);
    CountersMove(c, t, t.(notified := s.notified + 1));
  }

  lemma ClearsSingleton(c: Config, s: State, t: State)
    requires Inv(c, s) && t == s.(instance := None, onceDone := false)
    requires forall v | 0 <= v < |s.watchers| :: !WHoldsGlobal(s.watchers[v].pc)
    requires forall j | 0 <= j < |s.insts| :: !Current(s.insts[j])
    ensures Inv(c, t)
  {
    SameHoldersKeep(s, t);
    forall w | 0 <= w < |t.watchers| ensures WatchOk(t, t.watchers[w]) {
      assert WatchOk(s, s.watchers[w]);
    }
    forall j | 0 <= j < |t.insts| ensures InstOk(c, t, j) {
      assert InstOk(c, s, j);
    }
  }

  // Only the current instance resets the singleton, so after the reset no instance is current.
  lemma ResetKeeps(c: Config, s: State, i: nat)
    requires Inv(c, s) && i < |s.insts| && s.insts[i].loop.Resetting?
    ensures Inv(c, DoReset(s, i))
  {
    var t := SetLoop(s, i, Stopped);
    CurrentIsSingleton(c, s);
    forall v | 0 <= v < |s.watchers| ensures !WHoldsGlobal(s.watchers[v].pc) {
      assert GlobalWL(s, v, i);
    }
    LoopMoves(c, s, i, t.insts[i]);
    ClearsSingleton(c, t, DoReset(s, i));
  }

  lemma RecordsOffer(c: Config, s: State, v: nat, y: Watcher)
    requires Inv(c, s) && v < |s.watchers|
    requires var x := s.watchers[v]; y == x.(log := y.log, receiver := y.receiver) && |y.receiver| <= BUFFER
    ensures Inv(c, SetW(s, v, y))
  {
    assert WatchOk(s, s.watchers[v]);
    WatchMoves(c, s, v, y);
  }

  lemma SkipKeeps(c: Config, s: State, i: nat, v: nat, n: nat, pending: set<nat>)
    requires Inv(c, s) && i < |s.insts| && v < |s.watchers| && s.insts[i].loop == FanOut(n, pending) && v in pending
    ensures Inv(c, DoSkipAt(s, i, v, n, pending))
  {
    assert InstOk(c, s, i) && WatchOk(s, s.watchers[v]);
    RecordsOffer(c, s, v, DoSkip(s.watchers[v], n));
    LoopMoves(c, SetW(s, v, DoSkip(s.watchers[v], n)), i, s.insts[i].(loop := FanOut(n, pending - {v})));
  }

  // The central fact: a channel that is about to be sent to is open.
  lemma OfferedIsOpen(c: Config, s: State, i: nat)
    requires Inv(c, s) && i < |s.insts| && s.insts[i].loop.Offering?
    ensures s.insts[i].loop.v < |s.watchers| && !s.watchers[s.insts[i].loop.v].receiverClosed
    ensures |s.watchers[s.insts[i].loop.v].receiver| <= BUFFER
  {
    var l := s.insts[i];
    assert InstOk(c, s, i);
    var id :| id in l.subs && l.subs[id] == l.loop.v;
    assert !Gone(s.watchers[l.loop.v].pc);
    assert WatchOk(s, s.watchers[l.loop.v]);
  }

  lemma SendKeeps(c: Config, s: State, i: nat, v: nat, n: nat, pending: set<nat>)
    requires Inv(c, s) && i < |s.insts| && v < |s.watchers| && s.insts[i].loop == Offering(n, pending, v)
    ensures Inv(c, DoSendAt(s, i, v, n, pending))
  {
    OfferedIsOpen(c, s, i);
    assert InstOk(c, s, i);
    RecordsOffer(c, s, v, DoSend(s.watchers[v], n));
    LoopMoves(c, SetW(s, v, DoSend(s.watchers[v], n)), i, s.insts[i].(loop := FanOut(n, pending)));
  }

  // The steps of the fan-out that take the lock, pass an entry on to its send, or release the lock.
  lemma FanOutLoopStep(c: Config, s: State, i: nat, a: LAct)
    requires Inv(c, s) && LEnabled(s, i, a) && (a.LockFan? || a.Check? || a.UnlockFan? || a.Parsed?)
    ensures Inv(c, LApply(s, i, a))
  {
    assert InstOk(c, s, i);
    LoopMoves(c, s, i, LApply(s, i, a).insts[i]);
  }

  lemma ConnectionLoopStep(c: Config, s: State, i: nat, a: LAct)
    requires Inv(c, s) && LEnabled(s, i, a) && (a.LockDrop? || a.DropDone? || a.Wake? || a.LockConnect? || a.ConnectDone?)
    ensures Inv(c, LApply(s, i, a))
  {
    LoopMoves(c, s, i, LApply(s, i, a).insts[i]);
  }

  lemma QuietLoopStep(c: Config, s: State, i: nat, a: LAct)
    requires Inv(c, s) && LEnabled(s, i, a)
    requires !a.Notify? && !a.Skip? && !a.Send? && !a.Reset?
    ensures Inv(c, LApply(s, i, a))
  {
    if a.LockFan? || a.Check? || a.UnlockFan? || a.Parsed? {
      FanOutLoopStep(c, s, i, a);
    } else if a.LockDrop? || a.DropDone? || a.Wake? || a.LockConnect? || a.ConnectDone? {
      ConnectionLoopStep(c, s, i, a);
    } else {
      LoopMoves(c, s, i, LApply(s, i, a).insts[i]);
    }
  }

  lemma LoopStep(c: Config, s: State, i: nat, a: LAct)
    requires Inv(c, s) && LEnabled(s, i, a)
    ensures Inv(c, LApply(s, i, a))
  {
    if a.Notify? {
      NotifyKeeps(c, s, i);
    } else if a.Skip? {
      SkipKeeps(c, s, i, a.v, s.insts[i].loop.n, s.insts[i].loop.pending);
    } else if a.Send? {
      SendKeeps(c, s, i, s.insts[i].loop.v, s.insts[i].loop.n, s.insts[i].loop.pending);
    } else if a.Reset? {
      ResetKeeps(c, s, i);
    } else {
      QuietLoopStep(c, s, i, a);
    }
  }

  lemma CleanupMoves(c: Config, s: State, i: nat, pc: CPc)
    requires Inv(c, s) && i < |s.insts|
    requires InstFairly(s, i, s.insts[i].(cleanup := pc))
    requires pc.Pass? ==> pc.pending <= s.insts[i].subs.Values
    requires pc.SubWait? || pc.SubRead? || pc.Evicting? ==> pc.pending <= s.insts[i].subs.Values && pc.v in s.insts[i].subs.Values
    ensures Inv(c, SetCleanup(s, i, pc))
  {
    assert InstOk(c, s, i);
    InstMoves(c, s, i, s.insts[i].(cleanup := pc));
  }

  lemma EvictKeeps(c: Config, s: State, i: nat, now: nat, pending: set<nat>, v: nat)
    requires Inv(c, s) && i < |s.insts| && v < |s.watchers| && s.insts[i].cleanup == Evicting(now, pending, v)
    ensures Inv(c, DoEvict(s, i, now, pending, v))
  {
    assert InstOk(c, s, i);
    CancelKeeps(c, s, v);
    CleanupMoves(c, Cancel(s, v), i, Pass(now, pending));
  }

  lemma CleanupStep(c: Config, s: State, i: nat, a: CAct)
    requires Inv(c, s) && CEnabled(s, i, a)
    ensures Inv(c, CApply(c, s, i, a))
  {
    assert InstOk(c, s, i);
    if a.Evict? {
      var pc := s.insts[i].cleanup;
      EvictKeeps(c, s, i, pc.now, pc.pending, pc.v);
    } else {
      CleanupMoves(c, s, i, CApply(c, s, i, a).insts[i].cleanup);
    }
  }

  lemma ArriveKeeps(c: Config, s: State, id: string, accepts: iset<nat>)
    requires Inv(c, s)
    ensures Inv(c, Apply(c, s, Arrive(id, accepts)))
  {
    var x := NewWatcher(id, accepts);
    var t := s.(watchers := s.watchers + [x]);
    SameHoldersKeep(s, t);
    forall w | 0 <= w < |t.watchers| ensures WatchOk(t, t.watchers[w]) {
      assert w < |s.watchers| ==> WatchOk(s, s.watchers[w]);
    }
    forall j | 0 <= j < |t.insts| ensures InstOk(c, t, j) {
      assert InstOk(c, s, j);
    }
  }

  lemma ClockKeeps(c: Config, s: State)
    requires Inv(c, s)
    ensures Inv(c, DoTick(s))
  {
    CountersMove(c, s, s.(clock := s.clock + 1));
  }

  lemma ReadKeeps(c: Config, s: State, w: nat)
    requires Inv(c, s) && Enabled(s, Read(w))
    ensures Inv(c, Apply(c, s, Read(w)))
  {
    assert WatchOk(s, s.watchers[w]);
    WatchMoves(c, s, w, Apply(c, s, Read(w)).watchers[w]);
  }

  /** The invariant is inductive: every step of every thread keeps it. */
  lemma StepKeeps(c: Config, s: State, a: Action)
    requires Inv(c, s) && Enabled(s, a)
    ensures Inv(c, Apply(c, s, a))
  {
    match a
    case Clock => ClockKeeps(c, s);
    case Arrive(id, accepts) => ArriveKeeps(c, s, id, accepts);
    case Leave(w) => CancelKeeps(c, s, w);
    case Read(w) => ReadKeeps(c, s, w);
    case OfWatch(w, wa) => WatchStep(c, s, w, wa);
    case OfLoop(i, la) => LoopStep(c, s, i, la);
    case OfCleanup(i, ca) => CleanupStep(c, s, i, ca);
  }

  /** The invariant holds in every state of every run. */
  lemma {:induction false} RunKeeps(c: Config, run: seq<State>, acts: seq<Action>, k: nat)
    requires Run(c, run, acts) && k < |run|
    ensures Inv(c, run[k])
  {
    if k > 0 {
      RunKeeps(c, run, acts, k - 1);
      assert Follows(c, run, acts, k - 1);
      StepKeeps(c, run[k - 1], acts[k - 1]);
    }
  }
}

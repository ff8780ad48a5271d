/**
 The watch fan-out protocol as a step system (pkg/database/listener.go and the goroutine of
 pkg/resolver/watchSubscription.go).

 Threads: one goroutine per client watch (`Watcher`), and for every listener instance its
 `listen` loop and its cleanup ticker. A lock is held by a thread exactly while the thread's
 program counter lies in the critical section, so "the lock is free" means that no thread is inside.
 A step that would crash the process (send on or close of a closed channel, use of a nil listener)
 is enabled like any other and sets `panicked`.
*/
module WatchProtocol {
  import opened Prelude

  const BUFFER: nat := 100

  datatype Config = Config(maxActive: nat, maxLifetime: nat, idleTimeout: nat)

  // Program counter of a watch. Indices are listener instances (i) and watches (v).
  datatype WPc =
    | RegWaitGlobal | RegOnce | StartWaitMu(i: nat) | Starting(i: nat)
    | RegWaitMu(i: nat) | RegInsert(i: nat) | RegUnlock(i: nat) | RegReject(i: nat) | RegLeave(rejected: bool) | Rejected
    | Watching | Filtering(n: nat) | Authorising(n: nat) | Sending(n: nat)
    | ActWaitGlobal | ActReadPtr | ActWaitMu(i: nat) | ActLookup(i: nat) | ActWaitSub(v: nat) | ActStamp(v: nat)
    | UnWaitGlobal | UnReadPtr | UnWaitMu(i: nat) | UnDelete(i: nat) | UnUnlock(i: nat)
    | CloseResult | CloseReceiver | Finished

  // Program counter of an instance's listen loop.
  datatype LPc =
    | Unstarted | Failed
    | Top | DropWaitMu | DropConn | Sleeping | ConnWaitMu | Connecting
    | Parsing(n: nat) | FanWait(n: nat) | FanOut(n: nat, pending: set<nat>)
    | Offering(n: nat, pending: set<nat>, v: nat)
    | Closing | ResetWait | Resetting | Stopped

  // Program counter of an instance's cleanup ticker.
  datatype CPc =
    | Idle | PassWait(now: nat) | Pass(now: nat, pending: set<nat>)
    | SubWait(now: nat, pending: set<nat>, v: nat) | SubRead(now: nat, pending: set<nat>, v: nat)
    | Evicting(now: nat, pending: set<nat>, v: nat) | CleanupDone

  // What happened to each notification offered to a watch, in order of the events.
  datatype Log = Log(
    offered: seq<nat>, skipped: seq<nat>, overflow: seq<nat>,
    taken: seq<nat>, filtered: seq<nat>, denied: seq<nat>, delivered: seq<nat>,
    resultFull: seq<nat>, abandoned: seq<nat>, read: seq<nat>, granted: set<nat>)

  const EMPTY_LOG := Log([], [], [], [], [], [], [], [], [], [], {})

  // A client watch together with its Subscription object: the receiver channel is written by the
  // listener, the result channel by the watch itself. `accepts` is the meaning of the input filters.
  datatype Watcher = Watcher(
    id: string, accepts: iset<nat>, pc: WPc, cancelled: bool, home: Option<nat>,
    receiver: seq<nat>, receiverClosed: bool, result: seq<nat>, resultClosed: bool,
    createdAt: nat, lastActivity: nat, log: Log)

  datatype Inst = Inst(subs: map<string, nat>, cancelled: bool, conn: bool, loop: LPc, cleanup: CPc)

  datatype State = State(
    clock: nat, notified: nat, instance: Option<nat>, onceDone: bool,
    insts: seq<Inst>, watchers: seq<Watcher>, panicked: bool)

  ghost predicate Init(s: State) {
    s == State(0, 0, None, false, [], [], false)
  }

  // ---- Locks -------------------------------------------------------------------------------

  ghost predicate WHoldsGlobal(pc: WPc) {
    pc.RegOnce? || pc.StartWaitMu? || pc.Starting? || pc.RegWaitMu? || pc.RegInsert? || pc.RegUnlock?
    || pc.RegReject? || pc.RegLeave? || pc.ActReadPtr? || pc.UnReadPtr?
  }

  ghost predicate WWrites(pc: WPc, i: nat) {
    pc == Starting(i) || pc == RegInsert(i) || pc == RegUnlock(i) || pc == RegReject(i) || pc == UnDelete(i) || pc == UnUnlock(i)
  }

  ghost predicate WReads(pc: WPc, i: nat) {
    pc == ActLookup(i)
  }

  ghost predicate LWrites(pc: LPc) {
    pc.DropConn? || pc.Connecting?
  }

  ghost predicate LReads(pc: LPc) {
    pc.FanOut? || pc.Offering?
  }

  ghost predicate CReads(pc: CPc) {
    pc.Pass? || pc.SubWait? || pc.SubRead? || pc.Evicting?
  }

  ghost predicate GlobalFree(s: State) {
    && (forall w | 0 <= w < |s.watchers| :: !WHoldsGlobal(s.watchers[w].pc))
    && (forall i | 0 <= i < |s.insts| :: !s.insts[i].loop.Resetting?)
  }

  ghost predicate NoWriter(s: State, i: nat)
    requires i < |s.insts|
  {
    && (forall w | 0 <= w < |s.watchers| :: !WWrites(s.watchers[w].pc, i))
    && !LWrites(s.insts[i].loop)
  }

  ghost predicate NoReader(s: State, i: nat)
    requires i < |s.insts|
  {
    && (forall w | 0 <= w < |s.watchers| :: !WReads(s.watchers[w].pc, i))
    && !LReads(s.insts[i].loop) && !CReads(s.insts[i].cleanup)
  }

  ghost predicate SubFreeForWrite(s: State, v: nat) {
    && (forall w | 0 <= w < |s.watchers| :: s.watchers[w].pc != ActStamp(v))
    && (forall i | 0 <= i < |s.insts| :: !(s.insts[i].cleanup.SubRead? && s.insts[i].cleanup.v == v))
  }

  ghost predicate SubFreeForRead(s: State, v: nat) {
    forall w | 0 <= w < |s.watchers| :: s.watchers[w].pc != ActStamp(v)
  }

  // ---- Updates -----------------------------------------------------------------------------

  ghost function SetW(s: State, w: nat, x: Watcher): State
    requires w < |s.watchers|
  {
    s.(watchers := s.watchers[w := x])
  }

  ghost function SetPc(s: State, w: nat, pc: WPc): State
    requires w < |s.watchers|
  {
    SetW(s, w, s.watchers[w].(pc := pc))
  }

  ghost function SetI(s: State, i: nat, x: Inst): State
    requires i < |s.insts|
  {
    s.(insts := s.insts[i := x])
  }

  ghost function SetLoop(s: State, i: nat, pc: LPc): State
    requires i < |s.insts|
  {
    SetI(s, i, s.insts[i].(loop := pc))
  }

  ghost function SetCleanup(s: State, i: nat, pc: CPc): State
    requires i < |s.insts|
  {
    SetI(s, i, s.insts[i].(cleanup := pc))
  }

  ghost function Cancel(s: State, v: nat): State
    requires v < |s.watchers|
  {
    SetW(s, v, s.watchers[v].(cancelled := true))
  }

  ghost function Crash(s: State): State {
    s.(panicked := true)
  }

  // ---- Watch steps -------------------------------------------------------------------------

  datatype WAct =
    | LockGlobal | EnterOnce | LockMu | StartDone(ok: bool) | Insert | UnlockRegister | LeaveRegister
    | SeeDone | Receive | Filter | Authorise(granted: bool) | Deliver | DropFull | AbandonSend
    | ReadPtr | LookupSub | LockSub | Stamp | Delete | UnlockUnregister | DoClose

  ghost predicate WEnabled(s: State, w: nat, a: WAct) {
    w < |s.watchers| &&
    var x := s.watchers[w];
    match a
    case LockGlobal => (x.pc.RegWaitGlobal? || x.pc.ActWaitGlobal? || x.pc.UnWaitGlobal?) && GlobalFree(s)
    case EnterOnce => x.pc.RegOnce?
    case LockMu =>
      if x.pc.StartWaitMu? || x.pc.RegWaitMu? || x.pc.UnWaitMu? then
        x.pc.i < |s.insts| && NoWriter(s, x.pc.i) && NoReader(s, x.pc.i)
      else x.pc.ActWaitMu? && x.pc.i < |s.insts| && NoWriter(s, x.pc.i)
    case StartDone(_) => x.pc.Starting? && x.pc.i < |s.insts|
    case Insert => x.pc.RegInsert? && x.pc.i < |s.insts|
    case UnlockRegister => x.pc.RegUnlock? || x.pc.RegReject?
    case LeaveRegister => x.pc.RegLeave?
    case SeeDone => x.pc.Watching? && x.cancelled
    case Receive => x.pc.Watching? && x.receiver != []
    case Filter => x.pc.Filtering?
    case Authorise(_) => x.pc.Authorising?
    case Deliver => x.pc.Sending? && |x.result| < BUFFER
    case DropFull => x.pc.Sending? && |x.result| >= BUFFER && !x.cancelled
    case AbandonSend => x.pc.Sending? && x.cancelled
    case ReadPtr => x.pc.ActReadPtr? || x.pc.UnReadPtr?
    case LookupSub => x.pc.ActLookup? && x.pc.i < |s.insts|
    case LockSub => x.pc.ActWaitSub? && SubFreeForWrite(s, x.pc.v)
    case Stamp => x.pc.ActStamp? && x.pc.v < |s.watchers|
    case Delete =>
      && x.pc.UnDelete? && x.pc.i < |s.insts|
      && (x.id in s.insts[x.pc.i].subs ==> s.insts[x.pc.i].subs[x.id] < |s.watchers|)
    case UnlockUnregister => x.pc.UnUnlock?
    case DoClose => x.pc.CloseResult? || x.pc.CloseReceiver?
  }

  // RegisterSubscription, listener.go:64-107.
  ghost function DoLockGlobal(s: State, w: nat): State
    requires w < |s.watchers|
  {
    var pc := s.watchers[w].pc;
    SetPc(s, w, if pc.RegWaitGlobal? then RegOnce else if pc.ActWaitGlobal? then ActReadPtr else UnReadPtr)
  }

  // The body of listenerOnce.Do up to the call of Start.
  ghost function DoCreate(s: State, w: nat): State
    requires w < |s.watchers|
  {
    var i := |s.insts|;
    SetPc(s.(insts := s.insts + [Inst(map[], false, false, Unstarted, Idle)], instance := Some(i), onceDone := true),
          w, StartWaitMu(i))
  }

  ghost function DoEnterOnce(s: State, w: nat): State
    requires w < |s.watchers|
  {
    if !s.onceDone then DoCreate(s, w)
    else if s.instance.None? then Crash(s)
    else SetPc(s, w, RegWaitMu(s.instance.value))
  }

  ghost function DoLockMu(s: State, w: nat): State
    requires w < |s.watchers|
  {
    SetPc(s, w, match s.watchers[w].pc
          case StartWaitMu(i) => Starting(i)
          case RegWaitMu(i) => RegInsert(i)
          case UnWaitMu(i) => UnDelete(i)
          case ActWaitMu(i) => ActLookup(i)
          case other => other)
  }

  // Start, listener.go:162-180: when the first connection fails no goroutine is launched.
  ghost function DoStart(s: State, w: nat, i: nat, ok: bool): State
    requires w < |s.watchers| && i < |s.insts|
  {
    SetI(SetPc(s, w, RegWaitMu(i)), i, s.insts[i].(conn := ok, loop := if ok then Top else Failed))
  }

  ghost function DoInsert(c: Config, s: State, w: nat, i: nat): State
    requires w < |s.watchers| && i < |s.insts|
  {
    var x := s.watchers[w];
    var l := s.insts[i];
    if |l.subs| >= c.maxActive then SetPc(s, w, RegReject(i))
    else
      var y := x.(pc := RegUnlock(i), home := Some(i), createdAt := s.clock, lastActivity := s.clock);
      SetI(SetW(s, w, y), i, l.(subs := l.subs[x.id := w]))
  }

  // The select loop of the watch, watchSubscription.go:396-440.
  ghost function DoReceive(x: Watcher): Watcher
    requires x.receiver != []
  {
    var n := x.receiver[0];
    x.(pc := Filtering(n), receiver := x.receiver[1..], log := x.log.(taken := x.log.taken + [n]))
  }

  ghost function DoFilter(x: Watcher, n: nat): Watcher {
    if n in x.accepts then x.(pc := WPc.Authorising(n))
    else x.(pc := Watching, log := x.log.(filtered := x.log.filtered + [n]))
  }

  ghost function DoAuthorise(x: Watcher, n: nat, granted: bool): Watcher {
    if granted then x.(pc := Sending(n), log := x.log.(granted := x.log.granted + {n}))
    else x.(pc := Watching, log := x.log.(denied := x.log.denied + [n]))
  }

  ghost function DoDeliver(x: Watcher, n: nat): Watcher {
    x.(pc := ActWaitGlobal, result := x.result + [n], log := x.log.(delivered := x.log.delivered + [n]))
  }

  ghost function DoDropFull(x: Watcher, n: nat): Watcher {
    x.(pc := Watching, log := x.log.(resultFull := x.log.resultFull + [n]))
  }

  ghost function DoAbandon(x: Watcher, n: nat): Watcher {
    x.(pc := UnWaitGlobal, log := x.log.(abandoned := x.log.abandoned + [n]))
  }

  // UpdateSubscriptionActivity and UnregisterSubscription read the singleton under listenerMu.
  ghost function DoReadPtr(s: State, w: nat): State
    requires w < |s.watchers|
  {
    SetPc(s, w,
          if s.watchers[w].pc.ActReadPtr? then (if s.instance.None? then Watching else ActWaitMu(s.instance.value))
          else (if s.instance.None? then CloseResult else UnWaitMu(s.instance.value)))
  }

  ghost function DoLookup(s: State, w: nat, i: nat): State
    requires w < |s.watchers| && i < |s.insts|
  {
    var id := s.watchers[w].id;
    SetPc(s, w, if id in s.insts[i].subs then ActWaitSub(s.insts[i].subs[id]) else Watching)
  }

  ghost function DoStamp(s: State, w: nat, v: nat): State
    requires w < |s.watchers| && v < |s.watchers|
  {
    SetPc(SetW(s, v, s.watchers[v].(lastActivity := s.clock)), w, Watching)
  }

  // UnregisterSubscription, listener.go:125-135. The entry under the watch's ID need not be its own.
  ghost function DoDelete(s: State, w: nat, i: nat): State
    requires w < |s.watchers| && i < |s.insts|
    requires s.watchers[w].id in s.insts[i].subs ==> s.insts[i].subs[s.watchers[w].id] < |s.watchers|
  {
    var id := s.watchers[w].id;
    var l := s.insts[i];
    var t := if id in l.subs then Cancel(s, l.subs[id]) else s;
    var subs := l.subs - {id};
    SetPc(SetI(t, i, l.(subs := subs, cancelled := l.cancelled || subs == map[])), w, UnUnlock(i))
  }

  ghost function DoCloseChannel(s: State, w: nat): State
    requires w < |s.watchers|
  {
    var x := s.watchers[w];
    if x.pc.CloseResult? then
      (if x.resultClosed then Crash(s) else SetW(s, w, x.(pc := CloseReceiver, resultClosed := true)))
    else
      (if x.receiverClosed then Crash(s) else SetW(s, w, x.(pc := Finished, receiverClosed := true)))
  }

  ghost function WApply(c: Config, s: State, w: nat, a: WAct): State
    requires WEnabled(s, w, a)
  {
    var x := s.watchers[w];
    match a
    case LockGlobal => DoLockGlobal(s, w)
    case EnterOnce => DoEnterOnce(s, w)
    case LockMu => DoLockMu(s, w)
    case StartDone(ok) => DoStart(s, w, x.pc.i, ok)
    case Insert => DoInsert(c, s, w, x.pc.i)
    case UnlockRegister => SetPc(s, w, RegLeave(x.pc.RegReject?))
    case LeaveRegister => SetPc(s, w, if x.pc.rejected then Rejected else Watching)
    case SeeDone => SetPc(s, w, UnWaitGlobal)
    case Receive => SetW(s, w, DoReceive(x))
    case Filter => SetW(s, w, DoFilter(x, x.pc.n))
    case Authorise(granted) => SetW(s, w, DoAuthorise(x, x.pc.n, granted))
    case Deliver => if x.resultClosed then Crash(s) else SetW(s, w, DoDeliver(x, x.pc.n))
    case DropFull => SetW(s, w, DoDropFull(x, x.pc.n))
    case AbandonSend => SetW(s, w, DoAbandon(x, x.pc.n))
    case ReadPtr => DoReadPtr(s, w)
    case LookupSub => DoLookup(s, w, x.pc.i)
    case LockSub => SetPc(s, w, ActStamp(x.pc.v))
    case Stamp => DoStamp(s, w, x.pc.v)
    case Delete => DoDelete(s, w, x.pc.i)
    case UnlockUnregister => SetPc(s, w, CloseResult)
    case DoClose => DoCloseChannel(s, w)
  }

  // ---- Listen loop steps ---------------------------------------------------------------------

  datatype LAct =
    | SeeCancelled | SeeNoConn | Notify | NotifyFails | LockDrop | DropDone | Wake | LockConnect | ConnectDone(ok: bool)
    | ParseFails | Parsed | LockFan | Skip(v: nat) | Check(v: nat) | Send | UnlockFan
    | CloseConn(ok: bool) | LockReset | Reset

  ghost predicate LEnabled(s: State, i: nat, a: LAct) {
    i < |s.insts| &&
    var l := s.insts[i];
    match a
    case SeeCancelled => l.loop.Top? && l.cancelled
    case SeeNoConn => l.loop.Top? && !l.conn
    case Notify => l.loop.Top? && l.conn
    case NotifyFails => l.loop.Top? && l.conn
    case LockDrop => l.loop.DropWaitMu? && NoWriter(s, i) && NoReader(s, i)
    case DropDone => l.loop.DropConn?
    case Wake => l.loop.Sleeping?
    case LockConnect => l.loop.ConnWaitMu? && NoWriter(s, i) && NoReader(s, i)
    case ConnectDone(_) => l.loop.Connecting?
    case ParseFails => l.loop.Parsing?
    case Parsed => l.loop.Parsing?
    case LockFan => l.loop.FanWait? && NoWriter(s, i)
    case Skip(v) => l.loop.FanOut? && v in l.loop.pending && v < |s.watchers| && s.watchers[v].cancelled
    case Check(v) => l.loop.FanOut? && v in l.loop.pending && v < |s.watchers| && !s.watchers[v].cancelled
    case Send => l.loop.Offering? && l.loop.v < |s.watchers|
    case UnlockFan => l.loop.FanOut? && l.loop.pending == {}
    case CloseConn(_) => l.loop.Closing?
    case LockReset => l.loop.ResetWait? && GlobalFree(s)
    case Reset => l.loop.Resetting?
  }

  // Offering to a cancelled watch: the fan-out passes it by, listener.go:329-334.
  ghost function DoSkip(x: Watcher, n: nat): Watcher {
    x.(log := x.log.(offered := x.log.offered + [n], skipped := x.log.skipped + [n]))
  }

  // The non-blocking send, listener.go:336-340.
  ghost function DoSend(x: Watcher, n: nat): Watcher {
    if |x.receiver| < BUFFER then
      x.(receiver := x.receiver + [n], log := x.log.(offered := x.log.offered + [n]))
    else
      x.(log := x.log.(offered := x.log.offered + [n], overflow := x.log.overflow + [n]))
  }

  ghost function DoSkipAt(s: State, i: nat, v: nat, n: nat, pending: set<nat>): State
    requires i < |s.insts| && v < |s.watchers|
  {
    SetLoop(SetW(s, v, DoSkip(s.watchers[v], n)), i, FanOut(n, pending - {v}))
  }

  ghost function DoSendAt(s: State, i: nat, v: nat, n: nat, pending: set<nat>): State
    requires i < |s.insts| && v < |s.watchers|
  {
    if s.watchers[v].receiverClosed then Crash(s)
    else SetLoop(SetW(s, v, DoSend(s.watchers[v], n)), i, FanOut(n, pending))
  }

  ghost function DoNotify(s: State, i: nat): State
    requires i < |s.insts|
  {
    SetLoop(s, i, Parsing(s.notified)).(notified := s.notified + 1)
  }

  ghost function DoReset(s: State, i: nat): State
    requires i < |s.insts|
  {
    SetLoop(s, i, Stopped).(instance := None, onceDone := false)
  }

  ghost function LApply(s: State, i: nat, a: LAct): State
    requires LEnabled(s, i, a)
  {
    var l := s.insts[i];
    match a
    case SeeCancelled => SetLoop(s, i, Closing)
    case SeeNoConn => SetLoop(s, i, DropWaitMu)
    case Notify => DoNotify(s, i)
    case NotifyFails => SetLoop(s, i, if l.cancelled then Closing else DropWaitMu)
    case LockDrop => SetLoop(s, i, DropConn)
    case DropDone => SetI(s, i, l.(conn := false, loop := Sleeping))
    case Wake => SetLoop(s, i, ConnWaitMu)
    case LockConnect => SetLoop(s, i, Connecting)
    case ConnectDone(ok) => SetI(s, i, l.(conn := ok, loop := Top))
    case ParseFails => SetLoop(s, i, Top)
    case Parsed => SetLoop(s, i, FanWait(l.loop.n))
    case LockFan => SetLoop(s, i, FanOut(l.loop.n, l.subs.Values))
    case Skip(v) => DoSkipAt(s, i, v, l.loop.n, l.loop.pending)
    case Check(v) => SetLoop(s, i, Offering(l.loop.n, l.loop.pending - {v}, v))
    case Send => DoSendAt(s, i, l.loop.v, l.loop.n, l.loop.pending)
    case UnlockFan => SetLoop(s, i, Top)
    case CloseConn(ok) => SetLoop(s, i, if ok || !l.conn then ResetWait else Stopped)
    case LockReset => SetLoop(s, i, Resetting)
    case Reset => DoReset(s, i)
  }

  // ---- Cleanup steps -------------------------------------------------------------------------

  datatype CAct = Tick | Quit | LockPass | Pick(v: nat) | LockSubRead | Judge | Evict | UnlockPass

  ghost predicate CEnabled(s: State, i: nat, a: CAct) {
    i < |s.insts| &&
    var l := s.insts[i];
    match a
    case Tick => l.cleanup.Idle? && !l.loop.Unstarted? && !l.loop.Failed?
    case Quit => l.cleanup.Idle? && !l.loop.Unstarted? && !l.loop.Failed? && l.cancelled
    case LockPass => l.cleanup.PassWait? && NoWriter(s, i)
    case Pick(v) => l.cleanup.Pass? && v in l.cleanup.pending
    case LockSubRead => l.cleanup.SubWait? && SubFreeForRead(s, l.cleanup.v)
    case Judge => l.cleanup.SubRead? && l.cleanup.v < |s.watchers|
    case Evict => l.cleanup.Evicting? && l.cleanup.v < |s.watchers|
    case UnlockPass => l.cleanup.Pass? && l.cleanup.pending == {}
  }

  /** Age beyond the maximum lifetime, or idle beyond the timeout. */
  predicate Expired(c: Config, now: nat, createdAt: nat, lastActivity: nat) {
    now - createdAt > c.maxLifetime || now - lastActivity > c.idleTimeout
  }

  // The stamps are read under the entry's lock, which is released before an expired entry is cancelled.
  ghost function Judged(c: Config, x: Watcher, now: nat, pending: set<nat>, v: nat): CPc {
    if Expired(c, now, x.createdAt, x.lastActivity) then Evicting(now, pending, v) else Pass(now, pending)
  }

  ghost function DoEvict(s: State, i: nat, now: nat, pending: set<nat>, v: nat): State
    requires i < |s.insts| && v < |s.watchers|
  {
    SetCleanup(Cancel(s, v), i, Pass(now, pending))
  }

  ghost function CApply(c: Config, s: State, i: nat, a: CAct): State
    requires CEnabled(s, i, a)
  {
    var l := s.insts[i];
    match a
    case Tick => SetCleanup(s, i, PassWait(s.clock))
    case Quit => SetCleanup(s, i, CleanupDone)
    case LockPass => SetCleanup(s, i, Pass(l.cleanup.now, l.subs.Values))
    case Pick(v) => SetCleanup(s, i, SubWait(l.cleanup.now, l.cleanup.pending - {v}, v))
    case LockSubRead => SetCleanup(s, i, SubRead(l.cleanup.now, l.cleanup.pending, l.cleanup.v))
    case Judge => SetCleanup(s, i, Judged(c, s.watchers[l.cleanup.v], l.cleanup.now, l.cleanup.pending, l.cleanup.v))
    case Evict => DoEvict(s, i, l.cleanup.now, l.cleanup.pending, l.cleanup.v)
    case UnlockPass => SetCleanup(s, i, Idle)
  }

  // ---- The whole system ----------------------------------------------------------------------

  datatype Action =
    | Clock
    | Arrive(id: string, accepts: iset<nat>)    // a client opens a watch
    | Leave(w: nat)                             // the client's own context ends
    | Read(w: nat)                              // the client reads one event
    | OfWatch(w: nat, wa: WAct)
    | OfLoop(i: nat, la: LAct)
    | OfCleanup(i: nat, ca: CAct)

  ghost predicate Enabled(s: State, a: Action) {
    !s.panicked &&
    match a
    case Clock => true
    case Arrive(_, _) => true
    case Leave(w) => w < |s.watchers|
    case Read(w) => w < |s.watchers| && s.watchers[w].result != []
    case OfWatch(w, wa) => WEnabled(s, w, wa)
    case OfLoop(i, la) => LEnabled(s, i, la)
    case OfCleanup(i, ca) => CEnabled(s, i, ca)
  }

  ghost function DoTick(s: State): State {
    s.(clock := s.clock + 1)
  }

  ghost function NewWatcher(id: string, accepts: iset<nat>): Watcher {
    Watcher(id, accepts, RegWaitGlobal, false, None, [], false, [], false, 0, 0, EMPTY_LOG)
  }

  ghost function Apply(c: Config, s: State, a: Action): State
    requires Enabled(s, a)
  {
    match a
    case Clock => DoTick(s)
    case Arrive(id, accepts) => s.(watchers := s.watchers + [NewWatcher(id, accepts)])
    case Leave(w) => Cancel(s, w)
    case Read(w) =>
      var x := s.watchers[w];
      SetW(s, w, x.(result := x.result[1..], log := x.log.(read := x.log.read + [x.result[0]])))
    case OfWatch(w, wa) => WApply(c, s, w, wa)
    case OfLoop(i, la) => LApply(s, i, la)
    case OfCleanup(i, ca) => CApply(c, s, i, ca)
  }

  ghost predicate Follows(c: Config, run: seq<State>, acts: seq<Action>, k: nat)
    requires k < |acts| && |run| == |acts| + 1
  {
    Enabled(run[k], acts[k]) && run[k + 1] == Apply(c, run[k], acts[k])
  }

  /** A run: consecutive states of the system, from an initial one. */
  ghost predicate Run(c: Config, run: seq<State>, acts: seq<Action>) {
    && |run| == |acts| + 1
    && Init(run[0])
    && (forall k | 0 <= k < |acts| :: Follows(c, run, acts, k))
  }
}

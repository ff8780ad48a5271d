/**
 The life of a watch and of its listener, as one run: a delivery and its stamp, eviction by a cleanup pass once the
 watch has been idle for too long, the teardown, the end of the loop, and a new listener for the next client. And a
 second run in which the connection is lost and comes back. So every stage does go on to the next.
*/
module WatchLife {
  import opened Prelude
  import opened WatchProtocol
  import opened WatchWitness

  // The run goes on from s to t in these steps.
  ghost predicate Path(c: Config, s: State, acts: seq<Action>, t: State)
    decreases |acts|
  {
    if acts == [] then s == t else Enabled(s, acts[0]) && Path(c, Apply(c, s, acts[0]), acts[1..], t)
  }

  lemma {:induction false} FollowPath(c: Config, run: seq<State>, acts: seq<Action>, more: seq<Action>, t: State)
      returns (r: seq<State>, b: seq<Action>)
    requires Run(c, run, acts) && Path(c, run[|run| - 1], more, t)
    ensures Run(c, r, b) && |r| >= |run| && (forall k | 0 <= k < |run| :: r[k] == run[k]) && r[|r| - 1] == t
    ensures more != [] ==> |r| > |run|
    decreases |more|
  {
    if more == [] {
      r, b := run, acts;
    } else {
      var s := Apply(c, run[|run| - 1], more[0]);
      r, b := Step(c, run, acts, more[0], s);
      r, b := FollowPath(c, r, b, more[1..], t);
    }
  }

  lemma OneStep(c: Config, s: State, a: Action, t: State)
    requires Goes(c, s, a, t)
    ensures Path(c, s, [a], t)
  {
    assert [a][1..] == [];
  }

  lemma {:induction false} Joined(c: Config, s: State, acts: seq<Action>, t: State, more: seq<Action>, u: State)
    requires Path(c, s, acts, t) && Path(c, t, more, u)
    ensures Path(c, s, acts + more, u)
    decreases |acts|
  {
    if acts == [] {
      assert acts + more == more;
    } else {
      assert (acts + more)[0] == acts[0] && (acts + more)[1..] == acts[1..] + more;
      Joined(c, Apply(c, s, acts[0]), acts[1..], t, more, u);
    }
  }

  lemma Then(c: Config, s: State, acts: seq<Action>, t: State, a: Action, u: State) returns (more: seq<Action>)
    requires Path(c, s, acts, t) && Goes(c, t, a, u)
    ensures Path(c, s, more, u)
  {
    OneStep(c, t, a, u);
    Joined(c, s, acts, t, [a], u);
    more := acts + [a];
  }

  // ---- The stages ------------------------------------------------------------------------------------------

  const READ: Log := DELIVERED.(read := [0])

  // The only watch and the only instance at a time of the clock.
  ghost function At(clock: nat, w: Watcher, l: Inst): State {
    State(clock, 1, Some(0), true, [l], [w], false)
  }

  ghost function Client(id: string, pc: WPc, last: nat): Watcher {
    Watcher(id, iset{0}, pc, false, Some(0), [], false, [], false, 0, last, READ)
  }

  ghost function Evicted(id: string, pc: WPc, resultClosed: bool, receiverClosed: bool): Watcher {
    Watcher(id, iset{0}, pc, true, Some(0), [], receiverClosed, [], resultClosed, 0, 1, READ)
  }

  ghost function Serving(id: string, loop: LPc, cleanup: CPc): Inst {
    Inst(map[id := 0], false, true, loop, cleanup)
  }

  ghost function Emptied(loop: LPc, conn: bool): Inst {
    Inst(map[], true, conn, loop, Idle)
  }

  lemma StampsFirst(c: Config, id: string)
    ensures Goes(c, Handling(id, ActWaitGlobal, [], [], READ), OfLoop(0, UnlockFan), At(0, Client(id, ActWaitGlobal, 0), Serving(id, Top, Idle)))
    ensures Goes(c, At(0, Client(id, ActWaitGlobal, 0), Serving(id, Top, Idle)), OfWatch(0, LockGlobal), At(0, Client(id, ActReadPtr, 0), Serving(id, Top, Idle)))
    ensures Goes(c, At(0, Client(id, ActReadPtr, 0), Serving(id, Top, Idle)), OfWatch(0, ReadPtr), At(0, Client(id, ActWaitMu(0), 0), Serving(id, Top, Idle)))
  {
  }

  lemma StampsSecond(c: Config, id: string)
    ensures Goes(c, At(0, Client(id, ActWaitMu(0), 0), Serving(id, Top, Idle)), OfWatch(0, LockMu), At(0, Client(id, ActLookup(0), 0), Serving(id, Top, Idle)))
    ensures Goes(c, At(0, Client(id, ActLookup(0), 0), Serving(id, Top, Idle)), OfWatch(0, LookupSub), At(0, Client(id, ActWaitSub(0), 0), Serving(id, Top, Idle)))
  {
  }

  lemma StampsThird(c: Config, id: string)
    ensures Goes(c, At(0, Client(id, ActWaitSub(0), 0), Serving(id, Top, Idle)), OfWatch(0, LockSub), At(0, Client(id, ActStamp(0), 0), Serving(id, Top, Idle)))
    ensures Goes(c, At(0, Client(id, ActStamp(0), 0), Serving(id, Top, Idle)), Clock, At(1, Client(id, ActStamp(0), 0), Serving(id, Top, Idle)))
    ensures Goes(c, At(1, Client(id, ActStamp(0), 0), Serving(id, Top, Idle)), OfWatch(0, Stamp), At(1, Client(id, Watching, 1), Serving(id, Top, Idle)))
  {
  }

  // From the delivery to the stamp.
  lemma Stamps(c: Config, id: string) returns (acts: seq<Action>)
    ensures Path(c, Handling(id, ActWaitGlobal, [], [], READ), acts, At(1, Client(id, Watching, 1), Serving(id, Top, Idle)))
  {
    var s, l := Handling(id, ActWaitGlobal, [], [], READ), Serving(id, Top, Idle);
    StampsFirst(c, id);
    StampsSecond(c, id);
    StampsThird(c, id);
    acts := Then(c, s, [], s, OfLoop(0, UnlockFan), At(0, Client(id, ActWaitGlobal, 0), l));
    acts := Then(c, s, acts, At(0, Client(id, ActWaitGlobal, 0), l), OfWatch(0, LockGlobal), At(0, Client(id, ActReadPtr, 0), l));
    acts := Then(c, s, acts, At(0, Client(id, ActReadPtr, 0), l), OfWatch(0, ReadPtr), At(0, Client(id, ActWaitMu(0), 0), l));
    acts := Then(c, s, acts, At(0, Client(id, ActWaitMu(0), 0), l), OfWatch(0, LockMu), At(0, Client(id, ActLookup(0), 0), l));
    acts := Then(c, s, acts, At(0, Client(id, ActLookup(0), 0), l), OfWatch(0, LookupSub), At(0, Client(id, ActWaitSub(0), 0), l));
    acts := Then(c, s, acts, At(0, Client(id, ActWaitSub(0), 0), l), OfWatch(0, LockSub), At(0, Client(id, ActStamp(0), 0), l));
    acts := Then(c, s, acts, At(0, Client(id, ActStamp(0), 0), l), Clock, At(1, Client(id, ActStamp(0), 0), l));
    acts := Then(c, s, acts, At(1, Client(id, ActStamp(0), 0), l), OfWatch(0, Stamp), At(1, Client(id, Watching, 1), l));
  }

  lemma {:induction false} Waits(c: Config, id: string, n: nat) returns (acts: seq<Action>)
    ensures Path(c, At(1, Client(id, Watching, 1), Serving(id, Top, Idle)), acts, At(1 + n, Client(id, Watching, 1), Serving(id, Top, Idle)))
  {
    acts := [];
    if n > 0 {
      acts := Waits(c, id, n - 1);
      acts := Then(c, At(1, Client(id, Watching, 1), Serving(id, Top, Idle)), acts, At(n, Client(id, Watching, 1), Serving(id, Top, Idle)),
                   Clock, At(1 + n, Client(id, Watching, 1), Serving(id, Top, Idle)));
    }
  }

  lemma PassBegins(c: Config, id: string, t: nat)
    ensures Goes(c, At(t, Client(id, Watching, 1), Serving(id, Top, Idle)), OfCleanup(0, Tick), At(t, Client(id, Watching, 1), Serving(id, Top, PassWait(t))))
    ensures Goes(c, At(t, Client(id, Watching, 1), Serving(id, Top, PassWait(t))), OfCleanup(0, LockPass), At(t, Client(id, Watching, 1), Serving(id, Top, Pass(t, {0}))))
    ensures Goes(c, At(t, Client(id, Watching, 1), Serving(id, Top, Pass(t, {0}))), OfCleanup(0, Pick(0)), At(t, Client(id, Watching, 1), Serving(id, Top, SubWait(t, {}, 0))))
  {
    var subs: map<string, nat> := map[id := 0];
    assert subs[id] in subs.Values && subs.Values == {0};
    assert {0 as nat} - {0} == {};
  }

  lemma PassReads(c: Config, id: string, t: nat)
    requires t > 1 + c.idleTimeout
    ensures Goes(c, At(t, Client(id, Watching, 1), Serving(id, Top, SubWait(t, {}, 0))), OfCleanup(0, LockSubRead), At(t, Client(id, Watching, 1), Serving(id, Top, SubRead(t, {}, 0))))
    ensures Goes(c, At(t, Client(id, Watching, 1), Serving(id, Top, SubRead(t, {}, 0))), OfCleanup(0, Judge), At(t, Client(id, Watching, 1), Serving(id, Top, Evicting(t, {}, 0))))
  {
  }

  lemma PassEnds(c: Config, id: string, t: nat)
    ensures Goes(c, At(t, Client(id, Watching, 1), Serving(id, Top, Evicting(t, {}, 0))), OfCleanup(0, Evict), At(t, Evicted(id, Watching, false, false), Serving(id, Top, Pass(t, {}))))
    ensures Goes(c, At(t, Evicted(id, Watching, false, false), Serving(id, Top, Pass(t, {}))), OfCleanup(0, UnlockPass), At(t, Evicted(id, Watching, false, false), Serving(id, Top, Idle)))
  {
  }

  // From the tick of the cleanup to its release: the idle watch has been cancelled.
  lemma Evicts(c: Config, id: string, t: nat) returns (acts: seq<Action>)
    requires t > 1 + c.idleTimeout
    ensures Path(c, At(t, Client(id, Watching, 1), Serving(id, Top, Idle)), acts, At(t, Evicted(id, Watching, false, false), Serving(id, Top, Idle)))
  {
    var x := Client(id, Watching, 1);
    var s := At(t, x, Serving(id, Top, Idle));
    PassBegins(c, id, t);
    PassReads(c, id, t);
    PassEnds(c, id, t);
    acts := Then(c, s, [], s, OfCleanup(0, Tick), At(t, x, Serving(id, Top, PassWait(t))));
    acts := Then(c, s, acts, At(t, x, Serving(id, Top, PassWait(t))), OfCleanup(0, LockPass), At(t, x, Serving(id, Top, Pass(t, {0}))));
    acts := Then(c, s, acts, At(t, x, Serving(id, Top, Pass(t, {0}))), OfCleanup(0, Pick(0)), At(t, x, Serving(id, Top, SubWait(t, {}, 0))));
    acts := Then(c, s, acts, At(t, x, Serving(id, Top, SubWait(t, {}, 0))), OfCleanup(0, LockSubRead), At(t, x, Serving(id, Top, SubRead(t, {}, 0))));
    acts := Then(c, s, acts, At(t, x, Serving(id, Top, SubRead(t, {}, 0))), OfCleanup(0, Judge), At(t, x, Serving(id, Top, Evicting(t, {}, 0))));
    acts := Then(c, s, acts, At(t, x, Serving(id, Top, Evicting(t, {}, 0))), OfCleanup(0, Evict),
                 At(t, Evicted(id, Watching, false, false), Serving(id, Top, Pass(t, {}))));
    acts := Then(c, s, acts, At(t, Evicted(id, Watching, false, false), Serving(id, Top, Pass(t, {}))), OfCleanup(0, UnlockPass),
                 At(t, Evicted(id, Watching, false, false), Serving(id, Top, Idle)));
  }

  lemma LeavesFirst(c: Config, id: string, t: nat)
    ensures Goes(c, At(t, Evicted(id, Watching, false, false), Serving(id, Top, Idle)), OfWatch(0, SeeDone), At(t, Evicted(id, UnWaitGlobal, false, false), Serving(id, Top, Idle)))
    ensures Goes(c, At(t, Evicted(id, UnWaitGlobal, false, false), Serving(id, Top, Idle)), OfWatch(0, LockGlobal), At(t, Evicted(id, UnReadPtr, false, false), Serving(id, Top, Idle)))
    ensures Goes(c, At(t, Evicted(id, UnReadPtr, false, false), Serving(id, Top, Idle)), OfWatch(0, ReadPtr), At(t, Evicted(id, UnWaitMu(0), false, false), Serving(id, Top, Idle)))
  {
  }

  lemma LeavesSecond(c: Config, id: string, t: nat)
    ensures Goes(c, At(t, Evicted(id, UnWaitMu(0), false, false), Serving(id, Top, Idle)), OfWatch(0, LockMu), At(t, Evicted(id, UnDelete(0), false, false), Serving(id, Top, Idle)))
    ensures Goes(c, At(t, Evicted(id, UnDelete(0), false, false), Serving(id, Top, Idle)), OfWatch(0, Delete), At(t, Evicted(id, UnUnlock(0), false, false), Emptied(Top, true)))
  {
    assert map[id := 0 as nat] - {id} == map[];
  }

  lemma LeavesThird(c: Config, id: string, t: nat)
    ensures Goes(c, At(t, Evicted(id, UnUnlock(0), false, false), Emptied(Top, true)), OfWatch(0, UnlockUnregister), At(t, Evicted(id, CloseResult, false, false), Emptied(Top, true)))
    ensures Goes(c, At(t, Evicted(id, CloseResult, false, false), Emptied(Top, true)), OfWatch(0, DoClose), At(t, Evicted(id, CloseReceiver, true, false), Emptied(Top, true)))
    ensures Goes(c, At(t, Evicted(id, CloseReceiver, true, false), Emptied(Top, true)), OfWatch(0, DoClose), At(t, Evicted(id, Finished, true, true), Emptied(Top, true)))
  {
  }

  // The teardown of the cancelled watch: it unregisters, which cancels the listener, and closes its channels.
  lemma Leaves(c: Config, id: string, t: nat) returns (acts: seq<Action>)
    ensures Path(c, At(t, Evicted(id, Watching, false, false), Serving(id, Top, Idle)), acts, At(t, Evicted(id, Finished, true, true), Emptied(Top, true)))
  {
    var l := Serving(id, Top, Idle);
    var s := At(t, Evicted(id, Watching, false, false), l);
    LeavesFirst(c, id, t);
    LeavesSecond(c, id, t);
    LeavesThird(c, id, t);
    acts := Then(c, s, [], s, OfWatch(0, SeeDone), At(t, Evicted(id, UnWaitGlobal, false, false), l));
    acts := Then(c, s, acts, At(t, Evicted(id, UnWaitGlobal, false, false), l), OfWatch(0, LockGlobal), At(t, Evicted(id, UnReadPtr, false, false), l));
    acts := Then(c, s, acts, At(t, Evicted(id, UnReadPtr, false, false), l), OfWatch(0, ReadPtr), At(t, Evicted(id, UnWaitMu(0), false, false), l));
    acts := Then(c, s, acts, At(t, Evicted(id, UnWaitMu(0), false, false), l), OfWatch(0, LockMu), At(t, Evicted(id, UnDelete(0), false, false), l));
    acts := Then(c, s, acts, At(t, Evicted(id, UnDelete(0), false, false), l), OfWatch(0, Delete), At(t, Evicted(id, UnUnlock(0), false, false), Emptied(Top, true)));
    acts := Then(c, s, acts, At(t, Evicted(id, UnUnlock(0), false, false), Emptied(Top, true)), OfWatch(0, UnlockUnregister),
                 At(t, Evicted(id, CloseResult, false, false), Emptied(Top, true)));
    acts := Then(c, s, acts, At(t, Evicted(id, CloseResult, false, false), Emptied(Top, true)), OfWatch(0, DoClose),
                 At(t, Evicted(id, CloseReceiver, true, false), Emptied(Top, true)));
    acts := Then(c, s, acts, At(t, Evicted(id, CloseReceiver, true, false), Emptied(Top, true)), OfWatch(0, DoClose),
                 At(t, Evicted(id, Finished, true, true), Emptied(Top, true)));
  }

  // The singleton has been cleared; the next client may have arrived.
  ghost function Cleared(t: nat, id: string, cleanup: CPc, next: seq<Watcher>): State {
    State(t, 1, None, false, [Emptied(Stopped, true).(cleanup := cleanup)], [Evicted(id, Finished, true, true)] + next, false)
  }

  // And has been given a listener of its own.
  ghost function Renewed(t: nat, id: string, next: Watcher): State {
    State(t, 1, Some(1), true, [Emptied(Stopped, true).(cleanup := CleanupDone), NEW], [Evicted(id, Finished, true, true), next], false)
  }

  lemma LoopEnds(c: Config, id: string, t: nat)
    ensures Goes(c, At(t, Evicted(id, Finished, true, true), Emptied(Top, true)), OfLoop(0, SeeCancelled), At(t, Evicted(id, Finished, true, true), Emptied(Closing, true)))
    ensures Goes(c, At(t, Evicted(id, Finished, true, true), Emptied(Closing, true)), OfLoop(0, CloseConn(true)), At(t, Evicted(id, Finished, true, true), Emptied(ResetWait, true)))
    ensures Goes(c, At(t, Evicted(id, Finished, true, true), Emptied(ResetWait, true)), OfLoop(0, LockReset), At(t, Evicted(id, Finished, true, true), Emptied(Resetting, true)))
  {
  }

  lemma SingletonCleared(c: Config, id: string, t: nat)
    ensures Goes(c, At(t, Evicted(id, Finished, true, true), Emptied(Resetting, true)), OfLoop(0, Reset), Cleared(t, id, Idle, []))
    ensures Goes(c, Cleared(t, id, Idle, []), OfCleanup(0, Quit), Cleared(t, id, CleanupDone, []))
  {
  }

  lemma NextArrives(c: Config, id: string, next: string, t: nat)
    ensures Goes(c, Cleared(t, id, CleanupDone, []), Arrive(next, iset{0}), Cleared(t, id, CleanupDone, [Open(next, RegWaitGlobal)]))
    ensures Goes(c, Cleared(t, id, CleanupDone, [Open(next, RegWaitGlobal)]), OfWatch(1, LockGlobal), Cleared(t, id, CleanupDone, [Open(next, RegOnce)]))
    ensures Goes(c, Cleared(t, id, CleanupDone, [Open(next, RegOnce)]), OfWatch(1, EnterOnce), Renewed(t, id, Open(next, StartWaitMu(1))))
  {
    var x := Evicted(id, Finished, true, true);
    assert [x] + [Open(next, RegWaitGlobal)] == [x, Open(next, RegWaitGlobal)];
    assert [x] + [Open(next, RegOnce)] == [x, Open(next, RegOnce)];
  }

  // The loop sees that its listener is cancelled and clears the singleton, and the next client makes a new listener.
  lemma Renews(c: Config, id: string, next: string, t: nat) returns (acts: seq<Action>)
    ensures Path(c, At(t, Evicted(id, Finished, true, true), Emptied(Top, true)), acts, Renewed(t, id, Open(next, StartWaitMu(1))))
  {
    var x := Evicted(id, Finished, true, true);
    var s := At(t, x, Emptied(Top, true));
    LoopEnds(c, id, t);
    SingletonCleared(c, id, t);
    NextArrives(c, id, next, t);
    acts := Then(c, s, [], s, OfLoop(0, SeeCancelled), At(t, x, Emptied(Closing, true)));
    acts := Then(c, s, acts, At(t, x, Emptied(Closing, true)), OfLoop(0, CloseConn(true)), At(t, x, Emptied(ResetWait, true)));
    acts := Then(c, s, acts, At(t, x, Emptied(ResetWait, true)), OfLoop(0, LockReset), At(t, x, Emptied(Resetting, true)));
    acts := Then(c, s, acts, At(t, x, Emptied(Resetting, true)), OfLoop(0, Reset), Cleared(t, id, Idle, []));
    acts := Then(c, s, acts, Cleared(t, id, Idle, []), OfCleanup(0, Quit), Cleared(t, id, CleanupDone, []));
    acts := Then(c, s, acts, Cleared(t, id, CleanupDone, []), Arrive(next, iset{0}), Cleared(t, id, CleanupDone, [Open(next, RegWaitGlobal)]));
    acts := Then(c, s, acts, Cleared(t, id, CleanupDone, [Open(next, RegWaitGlobal)]), OfWatch(1, LockGlobal),
                 Cleared(t, id, CleanupDone, [Open(next, RegOnce)]));
    acts := Then(c, s, acts, Cleared(t, id, CleanupDone, [Open(next, RegOnce)]), OfWatch(1, EnterOnce), Renewed(t, id, Open(next, StartWaitMu(1))));
  }

  lemma UntilStamped(c: Config, id: string) returns (run: seq<State>, acts: seq<Action>)
    requires c.maxActive > 0
    ensures Run(c, run, acts) && run[|run| - 1] == At(1, Client(id, Watching, 1), Serving(id, Top, Idle))
  {
    var k;
    run, acts, k := DeliveryIsReachable(c, id);
    var path := Stamps(c, id);
    run, acts := FollowPath(c, run, acts, path, At(1, Client(id, Watching, 1), Serving(id, Top, Idle)));
  }

  lemma UntilEvicted(c: Config, id: string) returns (run: seq<State>, acts: seq<Action>, stamped: nat)
    requires c.maxActive > 0
    ensures Run(c, run, acts) && stamped < |run| - 1 && run[stamped] == At(1, Client(id, Watching, 1), Serving(id, Top, Idle))
    ensures run[|run| - 1] == At(2 + c.idleTimeout, Evicted(id, Watching, false, false), Serving(id, Top, Idle))
  {
    var t := 2 + c.idleTimeout;
    run, acts := UntilStamped(c, id);
    stamped := |run| - 1;
    var path := Waits(c, id, 1 + c.idleTimeout);
    var more := Evicts(c, id, t);
    Joined(c, run[stamped], path, At(t, Client(id, Watching, 1), Serving(id, Top, Idle)), more,
           At(t, Evicted(id, Watching, false, false), Serving(id, Top, Idle)));
    run, acts := FollowPath(c, run, acts, path + more, At(t, Evicted(id, Watching, false, false), Serving(id, Top, Idle)));
    assert run[stamped] != run[|run| - 1];
  }

  /**
   For every configuration that admits a watch some run stamps it after a delivery, evicts it when the idle timeout has
   passed since, sees it close its channels and the listener end, and gives the next client a listener of its own.
  */
  lemma WholeLife(c: Config, id: string, next: string) returns (run: seq<State>, acts: seq<Action>, stamped: nat, evicted: nat)
    requires c.maxActive > 0
    ensures Run(c, run, acts) && stamped < evicted < |run|
    ensures run[stamped] == At(1, Client(id, Watching, 1), Serving(id, Top, Idle))
    ensures run[evicted] == At(2 + c.idleTimeout, Evicted(id, Watching, false, false), Serving(id, Top, Idle))
    ensures run[|run| - 1] == Renewed(2 + c.idleTimeout, id, Open(next, StartWaitMu(1)))
  {
    var t := 2 + c.idleTimeout;
    run, acts, stamped := UntilEvicted(c, id);
    evicted := |run| - 1;
    var path := Leaves(c, id, t);
    var more := Renews(c, id, next, t);
    Joined(c, run[evicted], path, At(t, Evicted(id, Finished, true, true), Emptied(Top, true)), more,
           Renewed(t, id, Open(next, StartWaitMu(1))));
    run, acts := FollowPath(c, run, acts, path + more, Renewed(t, id, Open(next, StartWaitMu(1))));
  }

  // ---- Losing the connection -------------------------------------------------------------------------------

  // The registered watch idles while the loop, with or without a connection, is at pc.
  ghost function Waiting(id: string, loop: LPc, conn: bool, notified: nat): State {
    Alone(Served(id, Watching, [], [], EMPTY_LOG), Inst(map[id := 0], false, conn, loop, Idle), notified)
  }

  lemma Drops(c: Config, id: string, conn: bool)
    ensures Goes(c, Waiting(id, DropWaitMu, conn, 0), OfLoop(0, LockDrop), Waiting(id, DropConn, conn, 0))
    ensures Goes(c, Waiting(id, DropConn, conn, 0), OfLoop(0, DropDone), Waiting(id, Sleeping, false, 0))
  {
  }

  lemma Retries(c: Config, id: string, ok: bool)
    ensures Goes(c, Waiting(id, Sleeping, false, 0), OfLoop(0, Wake), Waiting(id, ConnWaitMu, false, 0))
    ensures Goes(c, Waiting(id, ConnWaitMu, false, 0), OfLoop(0, LockConnect), Waiting(id, Connecting, false, 0))
    ensures Goes(c, Waiting(id, Connecting, false, 0), OfLoop(0, ConnectDone(ok)), Waiting(id, Top, ok, 0))
  {
  }

  lemma Loses(c: Config, id: string)
    ensures Goes(c, Waiting(id, Top, true, 0), OfLoop(0, NotifyFails), Waiting(id, DropWaitMu, true, 0))
    ensures Goes(c, Waiting(id, Top, false, 0), OfLoop(0, SeeNoConn), Waiting(id, DropWaitMu, false, 0))
  {
  }

  lemma Skims(c: Config, id: string)
    ensures Goes(c, Waiting(id, Top, true, 0), OfLoop(0, Notify), Waiting(id, Parsing(0), true, 1))
    ensures Goes(c, Waiting(id, Parsing(0), true, 1), OfLoop(0, ParseFails), Waiting(id, Top, true, 1))
  {
  }

  // One round of the reconnection, from the drop to the outcome.
  lemma Round(c: Config, id: string, conn: bool, ok: bool) returns (acts: seq<Action>)
    ensures Path(c, Waiting(id, DropWaitMu, conn, 0), acts, Waiting(id, Top, ok, 0))
  {
    var s := Waiting(id, DropWaitMu, conn, 0);
    Drops(c, id, conn);
    Retries(c, id, ok);
    acts := Then(c, s, [], s, OfLoop(0, LockDrop), Waiting(id, DropConn, conn, 0));
    acts := Then(c, s, acts, Waiting(id, DropConn, conn, 0), OfLoop(0, DropDone), Waiting(id, Sleeping, false, 0));
    acts := Then(c, s, acts, Waiting(id, Sleeping, false, 0), OfLoop(0, Wake), Waiting(id, ConnWaitMu, false, 0));
    acts := Then(c, s, acts, Waiting(id, ConnWaitMu, false, 0), OfLoop(0, LockConnect), Waiting(id, Connecting, false, 0));
    acts := Then(c, s, acts, Waiting(id, Connecting, false, 0), OfLoop(0, ConnectDone(ok)), Waiting(id, Top, ok, 0));
  }

  // Lost, tried in vain, tried again: connected, and the next notification arrives, though it cannot be read.
  lemma Reconnects(c: Config, id: string) returns (acts: seq<Action>)
    ensures Path(c, Waiting(id, Top, true, 0), acts, Waiting(id, Top, true, 1))
  {
    var s := Waiting(id, Top, true, 0);
    Loses(c, id);
    Skims(c, id);
    var first := Round(c, id, true, false);
    var second := Round(c, id, false, true);
    acts := Then(c, s, [], s, OfLoop(0, NotifyFails), Waiting(id, DropWaitMu, true, 0));
    Joined(c, s, acts, Waiting(id, DropWaitMu, true, 0), first, Waiting(id, Top, false, 0));
    acts := Then(c, s, acts + first, Waiting(id, Top, false, 0), OfLoop(0, SeeNoConn), Waiting(id, DropWaitMu, false, 0));
    Joined(c, s, acts, Waiting(id, DropWaitMu, false, 0), second, Waiting(id, Top, true, 0));
    acts := Then(c, s, acts + second, Waiting(id, Top, true, 0), OfLoop(0, Notify), Waiting(id, Parsing(0), true, 1));
    acts := Then(c, s, acts, Waiting(id, Parsing(0), true, 1), OfLoop(0, ParseFails), Waiting(id, Top, true, 1));
  }

  /**
   Some run loses the connection under a registered watch, fails to connect, connects again and receives a
   notification; the watch keeps its place throughout.
  */
  lemma ConnectionComesBack(c: Config, id: string) returns (run: seq<State>, acts: seq<Action>)
    requires c.maxActive > 0
    ensures Run(c, run, acts) && run[|run| - 1] == Waiting(id, Top, true, 1)
  {
    run, acts := Registers(c, id);
    var path := Reconnects(c, id);
    assert run[|run| - 1] == Waiting(id, Top, true, 0);
    run, acts := FollowPath(c, run, acts, path, Waiting(id, Top, true, 1));
  }
}

/**
 A run in which a notification goes all the way: a client opens a watch, the listener starts, a notification is
 fanned out, filtered, authorised, delivered and read. So the statements about all runs do not hold for want of one.
*/
module WatchWitness {
  import opened Prelude
  import opened WatchProtocol

  ghost predicate Goes(c: Config, s: State, a: Action, t: State) {
    Enabled(s, a) && Apply(c, s, a) == t
  }

  // One more step of the run, which ends in t.
  lemma Step(c: Config, run: seq<State>, acts: seq<Action>, a: Action, t: State) returns (r: seq<State>, b: seq<Action>)
    requires Run(c, run, acts) && Goes(c, run[|run| - 1], a, t)
    ensures Run(c, r, b) && r == run + [t]
  {
    r, b := run + [t], acts + [a];
    forall k | 0 <= k < |b| ensures Follows(c, r, b, k) {
      if k < |acts| {
        assert Follows(c, run, acts, k);
      }
    }
  }

  // The watch, alone with its listener.
  ghost function Alone(w: Watcher, l: Inst, notified: nat): State {
    State(0, notified, Some(0), true, [l], [w], false)
  }

  ghost function Open(id: string, pc: WPc): Watcher {
    NewWatcher(id, iset{0}).(pc := pc)
  }

  // Registered, and with this much of its log written.
  ghost function Served(id: string, pc: WPc, receiver: seq<nat>, result: seq<nat>, log: Log): Watcher {
    Watcher(id, iset{0}, pc, false, Some(0), receiver, false, result, false, 0, 0, log)
  }

  ghost function Looping(id: string, loop: LPc): Inst {
    Inst(map[id := 0], false, true, loop, Idle)
  }

  const NO_WATCH: State := State(0, 0, None, false, [], [], false)
  const NEW: Inst := Inst(map[], false, false, Unstarted, Idle)
  const STARTED: Inst := Inst(map[], false, true, Top, Idle)

  // The watch has been opened and has no listener yet.
  ghost function Unserved(id: string, pc: WPc): State {
    NO_WATCH.(watchers := [Open(id, pc)])
  }

  lemma Opens(c: Config, id: string)
    ensures Goes(c, NO_WATCH, Arrive(id, iset{0}), Unserved(id, RegWaitGlobal))
    ensures Goes(c, Unserved(id, RegWaitGlobal), OfWatch(0, LockGlobal), Unserved(id, RegOnce))
    ensures Goes(c, Unserved(id, RegOnce), OfWatch(0, EnterOnce), Alone(Open(id, StartWaitMu(0)), NEW, 0))
  {
  }

  lemma Connects(c: Config, id: string)
    ensures Goes(c, Alone(Open(id, StartWaitMu(0)), NEW, 0), OfWatch(0, LockMu), Alone(Open(id, Starting(0)), NEW, 0))
    ensures Goes(c, Alone(Open(id, Starting(0)), NEW, 0), OfWatch(0, StartDone(true)), Alone(Open(id, RegWaitMu(0)), STARTED, 0))
  {
  }

  lemma Inserts(c: Config, id: string)
    requires c.maxActive > 0
    ensures Goes(c, Alone(Open(id, RegWaitMu(0)), STARTED, 0), OfWatch(0, LockMu), Alone(Open(id, RegInsert(0)), STARTED, 0))
    ensures Goes(c, Alone(Open(id, RegInsert(0)), STARTED, 0), OfWatch(0, Insert),
                 Alone(Served(id, RegUnlock(0), [], [], EMPTY_LOG), Looping(id, Top), 0))
    ensures Goes(c, Alone(Served(id, RegUnlock(0), [], [], EMPTY_LOG), Looping(id, Top), 0), OfWatch(0, UnlockRegister),
                 Alone(Served(id, RegLeave(false), [], [], EMPTY_LOG), Looping(id, Top), 0))
    ensures Goes(c, Alone(Served(id, RegLeave(false), [], [], EMPTY_LOG), Looping(id, Top), 0), OfWatch(0, LeaveRegister),
                 Fanning(id, Top, 0))
  {
  }

  // The watch idles while the loop is at pc.
  ghost function Fanning(id: string, loop: LPc, notified: nat): State {
    Alone(Served(id, Watching, [], [], EMPTY_LOG), Looping(id, loop), notified)
  }

  // The loop is at the end of its fan-out while the watch handles the event.
  ghost function Handling(id: string, pc: WPc, receiver: seq<nat>, result: seq<nat>, log: Log): State {
    Alone(Served(id, pc, receiver, result, log), Looping(id, FanOut(0, {})), 1)
  }

  lemma Notices(c: Config, id: string)
    ensures Goes(c, Fanning(id, Top, 0), OfLoop(0, Notify), Fanning(id, Parsing(0), 1))
    ensures Goes(c, Fanning(id, Parsing(0), 1), OfLoop(0, Parsed), Fanning(id, FanWait(0), 1))
  {
  }

  lemma Begins(c: Config, id: string)
    ensures Goes(c, Fanning(id, FanWait(0), 1), OfLoop(0, LockFan), Fanning(id, FanOut(0, {0}), 1))
  {
    var subs: map<string, nat> := map[id := 0];
    assert subs[id] in subs.Values;
    assert subs.Values == {0};
  }

  const OFFERED: Log := EMPTY_LOG.(offered := [0])
  const TAKEN: Log := OFFERED.(taken := [0])
  const GRANTED: Log := TAKEN.(granted := {0})
  const DELIVERED: Log := GRANTED.(delivered := [0])

  lemma Sends(c: Config, id: string)
    ensures Goes(c, Fanning(id, FanOut(0, {0}), 1), OfLoop(0, Check(0)), Fanning(id, Offering(0, {}, 0), 1))
    ensures Goes(c, Fanning(id, Offering(0, {}, 0), 1), OfLoop(0, Send), Handling(id, Watching, [0], [], OFFERED))
  {
    var x := Served(id, Watching, [], [], EMPTY_LOG);
    assert {0 as nat} - {0} == {};
    assert [] + [0 as nat] == [0];
    assert DoSend(x, 0) == Served(id, Watching, [0], [], OFFERED);
  }

  lemma Takes(c: Config, id: string)
    ensures Goes(c, Handling(id, Watching, [0], [], OFFERED), OfWatch(0, Receive), Handling(id, Filtering(0), [], [], TAKEN))
    ensures Goes(c, Handling(id, Filtering(0), [], [], TAKEN), OfWatch(0, Filter), Handling(id, Authorising(0), [], [], TAKEN))
  {
    assert [0 as nat][1..] == [] && [] + [0 as nat] == [0];
  }

  lemma Passes(c: Config, id: string)
    ensures Goes(c, Handling(id, Authorising(0), [], [], TAKEN), OfWatch(0, Authorise(true)), Handling(id, Sending(0), [], [], GRANTED))
    ensures Goes(c, Handling(id, Sending(0), [], [], GRANTED), OfWatch(0, Deliver), Handling(id, ActWaitGlobal, [], [0], DELIVERED))
    ensures Goes(c, Handling(id, ActWaitGlobal, [], [0], DELIVERED), Read(0),
                 Handling(id, ActWaitGlobal, [], [], DELIVERED.(read := [0])))
  {
    assert [0 as nat][1..] == [] && [] + [0 as nat] == [0] && {} + {0 as nat} == {0};
  }

  lemma Registers(c: Config, id: string) returns (run: seq<State>, acts: seq<Action>)
    requires c.maxActive > 0
    ensures Run(c, run, acts) && run[|run| - 1] == Fanning(id, Top, 0)
  {
    Opens(c, id);
    Connects(c, id);
    Inserts(c, id);
    run, acts := [NO_WATCH], [];
    run, acts := Step(c, run, acts, Arrive(id, iset{0}), Unserved(id, RegWaitGlobal));
    run, acts := Step(c, run, acts, OfWatch(0, LockGlobal), Unserved(id, RegOnce));
    run, acts := Step(c, run, acts, OfWatch(0, EnterOnce), Alone(Open(id, StartWaitMu(0)), NEW, 0));
    run, acts := Step(c, run, acts, OfWatch(0, LockMu), Alone(Open(id, Starting(0)), NEW, 0));
    run, acts := Step(c, run, acts, OfWatch(0, StartDone(true)), Alone(Open(id, RegWaitMu(0)), STARTED, 0));
    run, acts := Step(c, run, acts, OfWatch(0, LockMu), Alone(Open(id, RegInsert(0)), STARTED, 0));
    run, acts := Step(c, run, acts, OfWatch(0, Insert), Alone(Served(id, RegUnlock(0), [], [], EMPTY_LOG), Looping(id, Top), 0));
    run, acts := Step(c, run, acts, OfWatch(0, UnlockRegister), Alone(Served(id, RegLeave(false), [], [], EMPTY_LOG), Looping(id, Top), 0));
    run, acts := Step(c, run, acts, OfWatch(0, LeaveRegister), Fanning(id, Top, 0));
  }

  lemma Offers(c: Config, id: string) returns (run: seq<State>, acts: seq<Action>)
    requires c.maxActive > 0
    ensures Run(c, run, acts) && |run| > 1
    ensures run[|run| - 2] == Fanning(id, Offering(0, {}, 0), 1)
    ensures run[|run| - 1] == Handling(id, Watching, [0], [], OFFERED)
  {
    Notices(c, id);
    Begins(c, id);
    Sends(c, id);
    run, acts := Registers(c, id);
    run, acts := Step(c, run, acts, OfLoop(0, Notify), Fanning(id, Parsing(0), 1));
    run, acts := Step(c, run, acts, OfLoop(0, Parsed), Fanning(id, FanWait(0), 1));
    run, acts := Step(c, run, acts, OfLoop(0, LockFan), Fanning(id, FanOut(0, {0}), 1));
    run, acts := Step(c, run, acts, OfLoop(0, Check(0)), Fanning(id, Offering(0, {}, 0), 1));
    run, acts := Step(c, run, acts, OfLoop(0, Send), Handling(id, Watching, [0], [], OFFERED));
  }

  /** For every configuration that admits a watch, some run reaches a send and ends with the event in the client's hands. */
  lemma DeliveryIsReachable(c: Config, id: string) returns (run: seq<State>, acts: seq<Action>, k: nat)
    requires c.maxActive > 0
    ensures Run(c, run, acts) && k < |run|
    ensures |run[k].insts| == 1 && run[k].insts[0].loop == Offering(0, {}, 0)
    ensures var s := run[|run| - 1]; |s.watchers| == 1 && s.watchers[0].id == id && s.watchers[0].log.read == [0]
    ensures run[|run| - 1] == Handling(id, ActWaitGlobal, [], [], DELIVERED.(read := [0]))
  {
    Takes(c, id);
    Passes(c, id);
    run, acts := Offers(c, id);
    k := |run| - 2;
    run, acts := Step(c, run, acts, OfWatch(0, Receive), Handling(id, Filtering(0), [], [], TAKEN));
    run, acts := Step(c, run, acts, OfWatch(0, Filter), Handling(id, Authorising(0), [], [], TAKEN));
    run, acts := Step(c, run, acts, OfWatch(0, Authorise(true)), Handling(id, Sending(0), [], [], GRANTED));
    run, acts := Step(c, run, acts, OfWatch(0, Deliver), Handling(id, ActWaitGlobal, [], [0], DELIVERED));
    run, acts := Step(c, run, acts, Read(0), Handling(id, ActWaitGlobal, [], [], DELIVERED.(read := [0])));
  }
}

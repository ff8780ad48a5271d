/**
 The listener's operations as classes (Listener) are steps of the protocol (WatchProtocol): whenever an object shows
 the state of an instance, a method leaves it showing the state after the corresponding steps, taken without
 interruption.
*/
module ListenerSteps {
  import opened Prelude
  import opened WatchProtocol
  import opened WatchSafety
  import L = Listener

  // ---- An object shows an instance -------------------------------------------------------------------------

  // What a Subscription object and its channel hold.
  datatype Contents = Contents(id: string, createdAt: nat, lastActivity: nat, done: bool, queue: seq<nat>, closed: bool)

  ghost function OfObject(sub: L.Subscription): Contents
    reads sub, sub.channel
  {
    Contents(sub.id, sub.createdAt, sub.lastActivity, sub.done, sub.channel.queue, sub.channel.closed)
  }

  ghost function OfWatcher(x: Watcher): Contents {
    Contents(x.id, x.createdAt, x.lastActivity, x.cancelled, x.receiver, x.receiverClosed)
  }

  ghost function OfListener(l: L.Listener): map<string, Contents>
    reads l, l.subscriptions.Values, l.Channels()
  {
    map id | id in l.subscriptions :: OfObject(l.subscriptions[id])
  }

  ghost function OfInst(s: State, i: nat): map<string, Contents>
    requires i < |s.insts|
  {
    var subs := s.insts[i].subs;
    map id | id in subs && subs[id] < |s.watchers| :: OfWatcher(s.watchers[subs[id]])
  }

  ghost predicate Shows(l: L.Listener, s: State, i: nat)
    reads l, l.subscriptions.Values, l.Channels()
  {
    i < |s.insts| && OfListener(l) == OfInst(s, i) && l.cancelled == s.insts[i].cancelled
  }

  // ---- What the methods do to the contents -----------------------------------------------------------------

  ghost function Fanned(m: map<string, Contents>, e: nat): map<string, Contents> {
    map id | id in m :: m[id].(queue := L.Offer(m[id].done, m[id].queue, e))
  }

  ghost function Touched(m: map<string, Contents>, id: string, now: nat): map<string, Contents> {
    if id in m then m[id := m[id].(lastActivity := now)] else m
  }

  lemma ListenerContents(l: L.Listener, m: map<string, Contents>)
    requires m.Keys == l.subscriptions.Keys && forall k | k in m :: m[k] == OfObject(l.subscriptions[k])
    ensures OfListener(l) == m
  {
  }

  lemma SameSize<X, Y>(m: map<string, X>, n: map<string, Y>)
    requires m.Keys == n.Keys
    ensures |m| == |n|
  {
    assert |m| == |m.Keys| && |n| == |n.Keys|;
  }

  method ForwardContents(l: L.Listener, e: nat)
    requires l.Valid()
    modifies l.Channels()`queue
    ensures l.Valid() && OfListener(l) == Fanned(old(OfListener(l)), e)
  {
    l.Forward(e);
  }

  method TouchContents(l: L.Listener, id: string, now: nat)
    requires l.Valid()
    modifies l.subscriptions.Values`lastActivity
    ensures l.Valid() && OfListener(l) == Touched(old(OfListener(l)), id, now)
  {
    l.Touch(id, now);
  }

  method RemoveContents(l: L.Listener, id: string)
    requires l.Valid()
    modifies l`subscriptions, l`cancelled, l.subscriptions.Values`done
    ensures l.Valid() && OfListener(l) == old(OfListener(l)) - {id} && l.cancelled == (old(l.cancelled) || OfListener(l) == map[])
  {
    l.Remove(id);
    assert OfListener(l).Keys == l.subscriptions.Keys;
    assert l.subscriptions == map[] <==> l.subscriptions.Keys == {};
  }

  method AddContents(l: L.Listener, channel: L.Channel, id: string, now: nat, done: bool, maxActive: nat)
      returns (sub: Option<L.Subscription>)
    requires l.Valid() && !channel.closed && channel !in l.Channels()
    modifies l`subscriptions
    ensures l.Valid() && (sub.Some? <==> |old(OfListener(l))| < maxActive)
    ensures OfListener(l) == if sub.None? then old(OfListener(l))
                             else old(OfListener(l))[id := Contents(id, now, now, done, channel.queue, channel.closed)]
  {
    ghost var before := OfListener(l);
    SameSize(l.subscriptions, before);
    sub := l.Add(id, channel, done, now, maxActive);
    if sub.Some? {
      ListenerContents(l, before[id := Contents(id, now, now, done, channel.queue, channel.closed)]);
    } else {
      ListenerContents(l, before);
    }
  }

  // ---- A fan-out without interruption ----------------------------------------------------------------------

  /** The loop of instance i takes the steps `acts` one after another, from s to t. */
  ghost predicate LoopRun(s: State, i: nat, acts: seq<LAct>, t: State)
    decreases |acts|
  {
    if acts == [] then s == t
    else LEnabled(s, i, acts[0]) && LoopRun(LApply(s, i, acts[0]), i, acts[1..], t)
  }

  lemma {:induction false} Longer(s: State, i: nat, acts: seq<LAct>, t: State, a: LAct)
    requires LoopRun(s, i, acts, t) && LEnabled(t, i, a)
    ensures LoopRun(s, i, acts + [a], LApply(t, i, a))
    decreases |acts|
  {
    if acts == [] {
      assert (acts + [a])[1..] == [];
    } else {
      assert (acts + [a])[0] == acts[0] && (acts + [a])[1..] == acts[1..] + [a];
      Longer(LApply(s, i, acts[0]), i, acts[1..], t, a);
    }
  }

  // The watch after the fan-out of n has passed it, or before.
  ghost predicate OfferedTo(x: Watcher, y: Watcher, n: nat, passed: bool) {
    && y.receiver == (if passed then L.Offer(x.cancelled, x.receiver, n) else x.receiver)
    && y == x.(receiver := y.receiver, log := y.log)
  }

  // The fan-out of n from s has passed the watches outside `pending`.
  ghost predicate FannedTo(s: State, t: State, i: nat, n: nat, pending: set<nat>)
    requires i < |s.insts|
  {
    && |t.watchers| == |s.watchers| && |t.insts| == |s.insts|
    && t.insts[i] == s.insts[i].(loop := FanOut(n, pending))
    && pending <= s.insts[i].subs.Values
    && forall v | 0 <= v < |s.watchers| ::
         OfferedTo(s.watchers[v], t.watchers[v], n, v in s.insts[i].subs.Values - pending)
  }

  lemma SkipsOne(s: State, t: State, i: nat, n: nat, pending: set<nat>, v: nat)
    requires i < |s.insts| && FannedTo(s, t, i, n, pending) && v in pending && v < |s.watchers| && t.watchers[v].cancelled
    ensures LEnabled(t, i, Skip(v)) && FannedTo(s, LApply(t, i, Skip(v)), i, n, pending - {v})
  {
    var u := LApply(t, i, Skip(v));
    forall w | 0 <= w < |s.watchers|
      ensures OfferedTo(s.watchers[w], u.watchers[w], n, w in s.insts[i].subs.Values - (pending - {v})) {
      assert OfferedTo(s.watchers[w], t.watchers[w], n, w in s.insts[i].subs.Values - pending);
    }
  }

  lemma SendsOne(s: State, t: State, i: nat, n: nat, pending: set<nat>, v: nat)
    requires i < |s.insts| && FannedTo(s, t, i, n, pending) && v in pending && v < |s.watchers|
    requires !t.watchers[v].cancelled && !t.watchers[v].receiverClosed && |t.watchers[v].receiver| <= BUFFER
    ensures LEnabled(t, i, Check(v)) && LEnabled(LApply(t, i, Check(v)), i, Send)
    ensures FannedTo(s, LApply(LApply(t, i, Check(v)), i, Send), i, n, pending - {v})
  {
    var u := LApply(LApply(t, i, Check(v)), i, Send);
    forall w | 0 <= w < |s.watchers|
      ensures OfferedTo(s.watchers[w], u.watchers[w], n, w in s.insts[i].subs.Values - (pending - {v})) {
      assert OfferedTo(s.watchers[w], t.watchers[w], n, w in s.insts[i].subs.Values - pending);
    }
  }

  lemma PassesLive(c: Config, s: State, t: State, i: nat, n: nat, pending: set<nat>, v: nat) returns (u: State)
    requires Inv(c, t) && i < |s.insts| && FannedTo(s, t, i, n, pending) && v in pending
    requires v < |t.watchers| && !t.watchers[v].cancelled
    ensures LoopRun(t, i, [Check(v), Send], u) && Inv(c, u) && FannedTo(s, u, i, n, pending - {v})
  {
    var m := LApply(t, i, Check(v));
    LoopStep(c, t, i, Check(v));
    OfferedIsOpen(c, m, i);
    SendsOne(s, t, i, n, pending, v);
    LoopStep(c, m, i, Send);
    u := LApply(m, i, Send);
    assert [Check(v), Send][1..] == [Send] && [Send][1..] == [];
    assert LoopRun(m, i, [Send], u);
  }

  lemma PassesCancelled(c: Config, s: State, t: State, i: nat, n: nat, pending: set<nat>, v: nat) returns (u: State)
    requires Inv(c, t) && i < |s.insts| && FannedTo(s, t, i, n, pending) && v in pending
    requires v < |t.watchers| && t.watchers[v].cancelled
    ensures LoopRun(t, i, [Skip(v)], u) && Inv(c, u) && FannedTo(s, u, i, n, pending - {v})
  {
    SkipsOne(s, t, i, n, pending, v);
    LoopStep(c, t, i, Skip(v));
    u := LApply(t, i, Skip(v));
    assert [Skip(v)][1..] == [];
  }

  // The next pending watch: it can be passed, by one step or by two.
  lemma PassesOne(c: Config, s: State, t: State, i: nat, n: nat, pending: set<nat>, v: nat) returns (acts: seq<LAct>, u: State)
    requires Inv(c, t) && i < |s.insts| && FannedTo(s, t, i, n, pending) && v in pending
    ensures LoopRun(t, i, acts, u) && Inv(c, u) && FannedTo(s, u, i, n, pending - {v})
  {
    assert InstOk(c, t, i);
    if t.watchers[v].cancelled {
      u := PassesCancelled(c, s, t, i, n, pending, v);
      acts := [Skip(v)];
    } else {
      u := PassesLive(c, s, t, i, n, pending, v);
      acts := [Check(v), Send];
    }
  }

  lemma {:induction false} Joined(s: State, i: nat, acts: seq<LAct>, t: State, more: seq<LAct>, u: State)
    requires LoopRun(s, i, acts, t) && LoopRun(t, i, more, u)
    ensures LoopRun(s, i, acts + more, u)
    decreases |acts|
  {
    if acts == [] {
      assert acts + more == more;
    } else {
      assert (acts + more)[0] == acts[0] && (acts + more)[1..] == acts[1..] + more;
      Joined(LApply(s, i, acts[0]), i, acts[1..], t, more, u);
    }
  }

  lemma {:induction false} PassesAll(c: Config, s: State, t: State, i: nat, n: nat, pending: set<nat>) returns (acts: seq<LAct>, u: State)
    requires Inv(c, t) && i < |s.insts| && FannedTo(s, t, i, n, pending)
    ensures LoopRun(t, i, acts, u) && Inv(c, u) && FannedTo(s, u, i, n, {})
    decreases |pending|
  {
    if pending == {} {
      acts, u := [], t;
    } else {
      var v :| v in pending;
      var first, m := PassesOne(c, s, t, i, n, pending, v);
      var rest;
      rest, u := PassesAll(c, s, m, i, n, pending - {v});
      acts := first + rest;
      Joined(t, i, first, m, rest, u);
    }
  }

  // From the lock to its release.
  lemma FansOut(c: Config, s: State, i: nat, n: nat) returns (acts: seq<LAct>, u: State)
    requires Inv(c, s) && i < |s.insts| && s.insts[i].loop == FanWait(n) && LEnabled(s, i, LockFan)
    ensures LoopRun(s, i, acts, u) && Inv(c, u)
    ensures |u.watchers| == |s.watchers| && i < |u.insts| && u.insts[i] == s.insts[i].(loop := Top)
    ensures forall v | 0 <= v < |s.watchers| :: OfferedTo(s.watchers[v], u.watchers[v], n, v in s.insts[i].subs.Values)
  {
    var t := LApply(s, i, LockFan);
    LoopStep(c, s, i, LockFan);
    var subs := s.insts[i].subs.Values;
    assert InstOk(c, s, i) && subs - subs == {};
    assert FannedTo(s, t, i, n, subs);
    assert LoopRun(s, i, [LockFan], t) by { assert [LockFan][1..] == []; }
    var passes, m := PassesAll(c, s, t, i, n, subs);
    Joined(s, i, [LockFan], t, passes, m);
    Longer(s, i, [LockFan] + passes, m, UnlockFan);
    LoopStep(c, m, i, UnlockFan);
    acts, u := [LockFan] + passes + [UnlockFan], LApply(m, i, UnlockFan);
    assert subs - {} == subs;
    forall v | 0 <= v < |s.watchers| ensures OfferedTo(s.watchers[v], u.watchers[v], n, v in subs) {
      assert OfferedTo(s.watchers[v], m.watchers[v], n, v in subs - {});
    }
  }

  // Every entry is filed under its watch's ID.
  ghost predicate Entries(s: State, i: nat) {
    && i < |s.insts|
    && forall id | id in s.insts[i].subs :: s.insts[i].subs[id] < |s.watchers| && s.watchers[s.insts[i].subs[id]].id == id
  }

  lemma InvEntries(c: Config, s: State, i: nat)
    requires Inv(c, s) && i < |s.insts|
    ensures Entries(s, i)
  {
    assert InstOk(c, s, i);
  }

  lemma InstContents(s: State, i: nat, m: map<string, Contents>)
    requires Entries(s, i) && m.Keys == s.insts[i].subs.Keys
    requires forall k | k in m :: m[k] == OfWatcher(s.watchers[s.insts[i].subs[k]])
    ensures OfInst(s, i) == m
  {
    assert OfInst(s, i).Keys == m.Keys;
  }

  lemma FannedContents(s: State, t: State, i: nat, n: nat)
    requires Entries(s, i) && |t.watchers| == |s.watchers| && i < |t.insts| && t.insts[i].subs == s.insts[i].subs
    requires forall v | 0 <= v < |s.watchers| :: OfferedTo(s.watchers[v], t.watchers[v], n, v in s.insts[i].subs.Values)
    ensures OfInst(t, i) == Fanned(OfInst(s, i), n)
  {
    var subs := s.insts[i].subs;
    forall k | k in subs ensures OfWatcher(t.watchers[subs[k]]) == Fanned(OfInst(s, i), n)[k] && t.watchers[subs[k]].id == k {
      assert OfferedTo(s.watchers[subs[k]], t.watchers[subs[k]], n, true) by { assert subs[k] in subs.Values; }
    }
    InstContents(t, i, Fanned(OfInst(s, i), n));
  }

  lemma FanOutContents(c: Config, s: State, i: nat, n: nat) returns (acts: seq<LAct>, t: State)
    requires Inv(c, s) && i < |s.insts| && s.insts[i].loop == FanWait(n) && LEnabled(s, i, LockFan)
    ensures LoopRun(s, i, acts, t) && Inv(c, t) && i < |t.insts| && t.insts[i] == s.insts[i].(loop := Top)
    ensures OfInst(t, i) == Fanned(OfInst(s, i), n)
  {
    acts, t := FansOut(c, s, i, n);
    InvEntries(c, s, i);
    FannedContents(s, t, i, n);
  }

  /** Forward is a whole fan-out, from the lock to its release. */
  method ForwardSteps(c: Config, l: L.Listener, e: nat, ghost s: State, ghost i: nat) returns (ghost acts: seq<LAct>, ghost t: State)
    requires l.Valid() && Inv(c, s) && Shows(l, s, i) && s.insts[i].loop == FanWait(e) && LEnabled(s, i, LockFan)
    modifies l.Channels()`queue
    ensures l.Valid() && LoopRun(s, i, acts, t) && Inv(c, t) && Shows(l, t, i) && t.insts[i].loop == Top
  {
    acts, t := FanOutContents(c, s, i, e);
    ForwardContents(l, e);
  }

  // ---- The operations of one step --------------------------------------------------------------------------

  lemma StampContents(s: State, i: nat, w: nat, id: string)
    requires Entries(s, i) && id in s.insts[i].subs && w < |s.watchers|
    ensures var t := DoStamp(s, w, s.insts[i].subs[id]); t.insts == s.insts && OfInst(t, i) == Touched(OfInst(s, i), id, s.clock)
  {
    var t := DoStamp(s, w, s.insts[i].subs[id]);
    var subs := s.insts[i].subs;
    InstContents(s, i, OfInst(s, i));
    forall k | k in subs ensures OfWatcher(t.watchers[subs[k]]) == Touched(OfInst(s, i), id, s.clock)[k] && t.watchers[subs[k]].id == k {
      assert s.watchers[subs[k]].id == k;
    }
    InstContents(t, i, Touched(OfInst(s, i), id, s.clock));
  }

  /** Touch is the Stamp step for the entry that the ID names. */
  method TouchStep(c: Config, l: L.Listener, ghost s: State, ghost i: nat, ghost w: nat, id: string, now: nat)
    requires l.Valid() && Inv(c, s) && Shows(l, s, i) && s.clock == now && id in s.insts[i].subs
    requires w < |s.watchers| && s.watchers[w].pc == ActStamp(s.insts[i].subs[id])
    modifies l.subscriptions.Values`lastActivity
    ensures l.Valid() && s.insts[i].subs[id] < |s.watchers| && Shows(l, DoStamp(s, w, s.insts[i].subs[id]), i)
  {
    InvEntries(c, s, i);
    StampContents(s, i, w, id);
    TouchContents(l, id, now);
  }

  lemma DeleteContents(s: State, i: nat, w: nat)
    requires Entries(s, i) && w < |s.watchers|
    ensures i < |DoDelete(s, w, i).insts| && OfInst(DoDelete(s, w, i), i) == OfInst(s, i) - {s.watchers[w].id}
    ensures DoDelete(s, w, i).insts[i].cancelled == (s.insts[i].cancelled || OfInst(DoDelete(s, w, i), i) == map[])
  {
    var t := DoDelete(s, w, i);
    var subs := s.insts[i].subs - {s.watchers[w].id};
    assert t.insts[i].subs == subs;
    InstContents(s, i, OfInst(s, i));
    forall k | k in subs ensures OfWatcher(t.watchers[subs[k]]) == OfInst(s, i)[k] && t.watchers[subs[k]].id == k {
      assert s.watchers[subs[k]].id == k;
    }
    InstContents(t, i, OfInst(s, i) - {s.watchers[w].id});
    assert OfInst(t, i).Keys == subs.Keys;
    assert subs == map[] <==> subs.Keys == {};
  }

  /** Remove is the Delete step of the watch that leaves. */
  method RemoveStep(c: Config, l: L.Listener, ghost s: State, ghost i: nat, ghost w: nat, id: string)
    requires l.Valid() && Inv(c, s) && Shows(l, s, i)
    requires w < |s.watchers| && s.watchers[w].pc == UnDelete(i) && s.watchers[w].id == id && WEnabled(s, w, Delete)
    modifies l`subscriptions, l`cancelled, l.subscriptions.Values`done
    ensures l.Valid() && Shows(l, DoDelete(s, w, i), i)
  {
    InvEntries(c, s, i);
    DeleteContents(s, i, w);
    RemoveContents(l, id);
  }

  lemma InsertContents(c: Config, s: State, i: nat, w: nat)
    requires Entries(s, i) && w < |s.watchers| && w !in s.insts[i].subs.Values && |s.insts[i].subs| < c.maxActive
    ensures OfInst(DoInsert(c, s, w, i), i) ==
            OfInst(s, i)[s.watchers[w].id := OfWatcher(s.watchers[w]).(createdAt := s.clock, lastActivity := s.clock)]
  {
    var t := DoInsert(c, s, w, i);
    var subs := s.insts[i].subs;
    var entry := OfWatcher(s.watchers[w]).(createdAt := s.clock, lastActivity := s.clock);
    InstContents(s, i, OfInst(s, i));
    forall k | k in subs && k != s.watchers[w].id ensures t.watchers[subs[k]] == s.watchers[subs[k]] {
      assert subs[k] in subs.Values;
    }
    InstContents(t, i, OfInst(s, i)[s.watchers[w].id := entry]);
  }

  lemma RejectContents(c: Config, s: State, i: nat, w: nat)
    requires Entries(s, i) && w < |s.watchers| && |s.insts[i].subs| >= c.maxActive
    ensures OfInst(DoInsert(c, s, w, i), i) == OfInst(s, i)
  {
    var t := DoInsert(c, s, w, i);
    InstContents(s, i, OfInst(s, i));
    InstContents(t, i, OfInst(s, i));
  }

  lemma NotYetListed(c: Config, s: State, i: nat, w: nat)
    requires Inv(c, s) && i < |s.insts| && w < |s.watchers| && s.watchers[w].pc == RegInsert(i)
    ensures Entries(s, i) && w !in s.insts[i].subs.Values
  {
    assert InstOk(c, s, i) && WatchOk(s, s.watchers[w]);
  }

  /** Add is the Insert step of the watch that registers. */
  method AddStep(c: Config, l: L.Listener, channel: L.Channel, ghost s: State, ghost i: nat, ghost w: nat, id: string,
                 now: nat, done: bool) returns (sub: Option<L.Subscription>)
    requires l.Valid() && Inv(c, s) && Shows(l, s, i) && w < |s.watchers| && s.watchers[w].pc == RegInsert(i) && s.clock == now
    requires OfWatcher(s.watchers[w]).(createdAt := now, lastActivity := now) == Contents(id, now, now, done, channel.queue, channel.closed)
    requires !channel.closed && channel !in l.Channels()
    modifies l`subscriptions
    ensures l.Valid() && Shows(l, DoInsert(c, s, w, i), i)
    ensures sub.None? <==> DoInsert(c, s, w, i).watchers[w].pc == RegReject(i)
  {
    NotYetListed(c, s, i, w);
    InstContents(s, i, OfInst(s, i));
    SameSize(OfInst(s, i), s.insts[i].subs);
    if |s.insts[i].subs| < c.maxActive {
      InsertContents(c, s, i, w);
    } else {
      RejectContents(c, s, i, w);
    }
    sub := AddContents(l, channel, id, now, done, c.maxActive);
  }
}

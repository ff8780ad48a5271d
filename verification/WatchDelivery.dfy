/**
 What a client receives: an in-order, duplicate-free part of the notifications fanned out to it, each of
 which passed the filters and a permission check. And what the listener owes: every entry that is in the
 map when a fan-out ends was offered the notification.
*/
module WatchDelivery {
  import opened Prelude
  import opened WatchProtocol
  import opened WatchSafety
  import opened WatchRuns

  // ---- One watch ----------------------------------------------------------------------------------

  // Order: what was taken comes before what still waits, in the order of the fan-outs.
  ghost predicate OrderOk(x: Watcher) {
    var g := x.log;
    && Increasing(g.offered) && Increasing(Received(x)) && Increasing(g.delivered)
    && (forall n | n in Received(x) :: n in g.offered)
    && (forall n | n in g.delivered :: n in g.taken)
    && (Hand(x.pc) != [] ==> |g.taken| > 0 && Hand(x.pc) == [g.taken[|g.taken| - 1]] && AllBelow(g.delivered, Hand(x.pc)[0]))
    && g.delivered == g.read + x.result
  }

  ghost predicate ChecksOk(x: Watcher) {
    && (forall n | n in x.log.delivered :: n in x.accepts && n in x.log.granted)
    && (x.pc.Authorising? || x.pc.Sending? ==> x.pc.n in x.accepts)
    && (x.pc.Sending? ==> x.pc.n in x.log.granted)
  }

  ghost predicate DeliveryOk(x: Watcher) {
    OrderOk(x) && ChecksOk(x) && (x.home.None? ==> x.log.offered == [])
  }

  lemma TakingKeepsOrder(x: Watcher)
    requires OrderOk(x) && x.pc.Watching? && x.receiver != []
    ensures OrderOk(DoReceive(x))
  {
    var y := DoReceive(x);
    ReceiveKeepsOrder(x);
    var r := Received(x);
    assert r[|x.log.taken|] == x.receiver[0];
    forall n | n in x.log.delivered ensures n < x.receiver[0] && n in y.log.taken {
      assert n in x.log.taken;
      var k :| 0 <= k < |x.log.taken| && x.log.taken[k] == n;
      assert r[k] == n && r[k] < r[|x.log.taken|];
    }
  }

  lemma DeliveringKeepsOrder(x: Watcher)
    requires OrderOk(x) && x.pc.Sending?
    ensures OrderOk(DoDeliver(x, x.pc.n))
  {
    var y := DoDeliver(x, x.pc.n);
    assert Received(y) == Received(x);
    assert x.log.read + (x.result + [x.pc.n]) == (x.log.read + x.result) + [x.pc.n];
    forall i, j | 0 <= i < j < |y.log.delivered| ensures y.log.delivered[i] < y.log.delivered[j] {
      if j == |x.log.delivered| {
        assert x.log.delivered[i] in x.log.delivered;
      }
    }
  }

  lemma TakingKeepsDelivery(x: Watcher)
    requires DeliveryOk(x) && x.pc.Watching? && x.receiver != []
    ensures DeliveryOk(DoReceive(x))
  {
    TakingKeepsOrder(x);
    ReceiveKeepsOrder(x);
  }

  lemma FilteringKeepsDelivery(x: Watcher)
    requires DeliveryOk(x) && x.pc.Filtering?
    ensures DeliveryOk(DoFilter(x, x.pc.n))
  {
    assert Received(DoFilter(x, x.pc.n)) == Received(x);
  }

  lemma AuthorisingKeepsDelivery(x: Watcher, granted: bool)
    requires DeliveryOk(x) && x.pc.Authorising?
    ensures DeliveryOk(DoAuthorise(x, x.pc.n, granted))
  {
    assert Received(DoAuthorise(x, x.pc.n, granted)) == Received(x);
  }

  lemma DeliveringKeepsDelivery(x: Watcher)
    requires DeliveryOk(x) && x.pc.Sending?
    ensures DeliveryOk(DoDeliver(x, x.pc.n))
  {
    DeliveringKeepsOrder(x);
  }

  lemma DroppingKeepsDelivery(x: Watcher)
    requires DeliveryOk(x) && x.pc.Sending?
    ensures DeliveryOk(DoDropFull(x, x.pc.n)) && DeliveryOk(DoAbandon(x, x.pc.n))
  {
    assert Received(DoDropFull(x, x.pc.n)) == Received(x) && Received(DoAbandon(x, x.pc.n)) == Received(x);
  }

  lemma MovingKeepsDelivery(x: Watcher, a: WAct)
    requires DeliveryOk(x) && CanMove(x, a)
    ensures DeliveryOk(Moved(x, a))
  {
    if a.Receive? {
      TakingKeepsDelivery(x);
    } else if a.Filter? {
      FilteringKeepsDelivery(x);
    } else if a.Authorise? {
      AuthorisingKeepsDelivery(x, a.granted);
    } else if a.Deliver? {
      DeliveringKeepsDelivery(x);
    } else {
      DroppingKeepsDelivery(x);
    }
  }

  lemma OfferingKeepsDelivery(x: Watcher, n: nat)
    requires DeliveryOk(x) && AllBelow(x.log.offered, n) && x.home.Some?
    ensures DeliveryOk(DoSkip(x, n)) && DeliveryOk(DoSend(x, n))
  {
    IncreasingAppend(x.log.offered, n);
    assert Received(DoSkip(x, n)) == Received(x);
    var y := DoSend(x, n);
    if |x.receiver| < BUFFER {
      assert Received(y) == Received(x) + [n];
      IncreasingAppend(Received(x), n);
    } else {
      assert Received(y) == Received(x);
    }
  }

  lemma ReadingKeepsDelivery(x: Watcher)
    requires DeliveryOk(x) && x.result != []
    ensures DeliveryOk(x.(result := x.result[1..], log := x.log.(read := x.log.read + [x.result[0]])))
  {
    assert x.log.read + x.result == (x.log.read + [x.result[0]]) + x.result[1..];
  }

  // ---- All watches and the loops that offer to them ------------------------------------------------

  // Before instance i offers notification n to one of its watches, the watch was offered only earlier ones.
  ghost predicate OfferOk(s: State, i: nat, w: nat)
    requires i < |s.insts| && w < |s.watchers|
  {
    var l := s.insts[i].loop;
    var offered := s.watchers[w].log.offered;
    s.watchers[w].home == Some(i) ==>
      && (l.Parsing? || l.FanWait? ==> AllBelow(offered, l.n))
      && (l.FanOut? || l.Offering? ==> AllBelow(offered, l.n + 1))
      && (l.FanOut? && w in l.pending ==> AllBelow(offered, l.n))
      && (l.Offering? && (w in l.pending || w == l.v) ==> AllBelow(offered, l.n))
  }

  // During a fan-out, every entry that is no longer pending has been offered the notification.
  ghost predicate FannedOk(s: State, i: nat)
    requires i < |s.insts|
  {
    var l := s.insts[i].loop;
    && (Carrying(l) ==> l.n < s.notified)
    && (l.FanOut? ==> forall w | w in s.insts[i].subs.Values - l.pending :: w < |s.watchers| && l.n in s.watchers[w].log.offered)
    && (l.Offering? ==> l.v !in l.pending &&
                        forall w | w in s.insts[i].subs.Values - l.pending - {l.v} ::
                          w < |s.watchers| && l.n in s.watchers[w].log.offered)
  }

  ghost predicate WatchDeliveryOk(s: State, x: Watcher) {
    DeliveryOk(x) && AllBelow(x.log.offered, s.notified)
  }

  ghost predicate DInv(s: State) {
    && (forall w | 0 <= w < |s.watchers| :: WatchDeliveryOk(s, s.watchers[w]))
    && (forall i, w | 0 <= i < |s.insts| && 0 <= w < |s.watchers| :: OfferOk(s, i, w))
    && (forall i | 0 <= i < |s.insts| :: FannedOk(s, i))
  }

  // Nothing is offered in the step: the logs of offers stay, and so do the fan-outs in progress.
  ghost predicate NoOffer(s: State, t: State) {
    && |t.watchers| == |s.watchers| && |t.insts| >= |s.insts| && t.notified == s.notified
    && (forall w | 0 <= w < |s.watchers| ::
          var x := s.watchers[w]; var y := t.watchers[w];
          x.log.offered == y.log.offered && (y.home == x.home || x.home.None?))
    && (forall i | 0 <= i < |t.insts| && Carrying(t.insts[i].loop) :: i < |s.insts| && t.insts[i].loop == s.insts[i].loop)
    && (forall i | 0 <= i < |t.insts| && LReads(t.insts[i].loop) :: i < |s.insts| && t.insts[i].subs == s.insts[i].subs)
  }

  lemma NoOfferKeeps(s: State, t: State)
    requires DInv(s) && NoOffer(s, t)
    requires forall w | 0 <= w < |t.watchers| :: DeliveryOk(t.watchers[w])
    ensures DInv(t)
  {
    forall w | 0 <= w < |t.watchers| ensures WatchDeliveryOk(t, t.watchers[w]) {
      assert WatchDeliveryOk(s, s.watchers[w]);
    }
    forall i, w | 0 <= i < |t.insts| && 0 <= w < |t.watchers| ensures OfferOk(t, i, w) {
      assert WatchDeliveryOk(s, s.watchers[w]);
      assert i < |s.insts| ==> OfferOk(s, i, w);
    }
    forall i | 0 <= i < |t.insts| ensures FannedOk(t, i) {
      assert i < |s.insts| ==> FannedOk(s, i);
    }
  }

  lemma QuietKeepsDelivery(x: Watcher, y: Watcher)
    requires DeliveryOk(x) && Quiet(x, y) && Evolves(x, y)
    ensures DeliveryOk(y)
  {
    assert Received(y) == Received(x);
  }

  // A fan-out holds the read lock, so the map it works on does not change under it.
  lemma WatchKeepsMapInFanOut(c: Config, s: State, w: nat, a: WAct, i: nat)
    requires Inv(c, s) && WEnabled(s, w, a) && i < |s.insts| && LReads(s.insts[i].loop)
    ensures i < |WApply(c, s, w, a).insts| && WApply(c, s, w, a).insts[i].subs == s.insts[i].subs
  {
    assert MuWL(s, i, w);
  }

  lemma QuietWatchOffersNothing(c: Config, s: State, w: nat, a: WAct)
    requires Inv(c, s) && WEnabled(s, w, a) && !MovesEvent(a)
    ensures NoOffer(s, WApply(c, s, w, a))
  {
    var t := WApply(c, s, w, a);
    OthersStayAside(c, s, w, a);
    forall i | 0 <= i < |t.insts| && LReads(t.insts[i].loop) ensures i < |s.insts| && t.insts[i].subs == s.insts[i].subs {
      WatchKeepsMapInFanOut(c, s, w, a, i);
    }
    forall v | 0 <= v < |s.watchers| ensures
        var x := s.watchers[v]; var y := t.watchers[v]; x.log.offered == y.log.offered && (y.home == x.home || x.home.None?) {
      assert Quiet(s.watchers[v], t.watchers[v]) && Evolves(s.watchers[v], t.watchers[v]);
    }
  }

  lemma AllQuietKeepDelivery(s: State, t: State)
    requires DInv(s) && AllQuiet(s, t) && AllEvolve(s, t)
    ensures forall v | 0 <= v < |t.watchers| :: DeliveryOk(t.watchers[v])
  {
    forall v | 0 <= v < |t.watchers| ensures DeliveryOk(t.watchers[v]) {
      assert WatchDeliveryOk(s, s.watchers[v]);
      QuietKeepsDelivery(s.watchers[v], t.watchers[v]);
    }
  }

  lemma QuietWatchStep(c: Config, s: State, w: nat, a: WAct)
    requires Inv(c, s) && DInv(s) && WEnabled(s, w, a) && !MovesEvent(a)
    ensures DInv(WApply(c, s, w, a))
  {
    OthersStayAside(c, s, w, a);
    AllQuietKeepDelivery(s, WApply(c, s, w, a));
    QuietWatchOffersNothing(c, s, w, a);
    NoOfferKeeps(s, WApply(c, s, w, a));
  }

  lemma MovingKeepsAll(s: State, w: nat, a: WAct)
    requires DInv(s) && w < |s.watchers| && CanMove(s.watchers[w], a)
    ensures DInv(SetW(s, w, Moved(s.watchers[w], a)))
  {
    var t := SetW(s, w, Moved(s.watchers[w], a));
    assert WatchDeliveryOk(s, s.watchers[w]);
    MovingKeepsDelivery(s.watchers[w], a);
    forall v | 0 <= v < |t.watchers| ensures DeliveryOk(t.watchers[v]) {
      assert WatchDeliveryOk(s, s.watchers[v]);
    }
    NoOfferKeeps(s, t);
  }

  lemma MovingWatchStep(c: Config, s: State, w: nat, a: WAct)
    requires Inv(c, s) && DInv(s) && WEnabled(s, w, a) && MovesEvent(a)
    ensures DInv(WApply(c, s, w, a))
  {
    MoversStayAlone(c, s, w, a);
    WatchStep(c, s, w, a);
    MovingKeepsAll(s, w, a);
  }

  // Instance i, which is fanning out n, offers it to watch v.
  ghost predicate CanOffer(s: State, i: nat, v: nat, n: nat, pending: set<nat>) {
    && i < |s.insts| && v < |s.watchers|
    && s.watchers[v].home == Some(i) && AllBelow(s.watchers[v].log.offered, n)
    && ((s.insts[i].loop == FanOut(n, pending + {v}) && v !in pending) || s.insts[i].loop == Offering(n, pending, v))
  }

  ghost function Offered(s: State, i: nat, v: nat, y: Watcher, n: nat, pending: set<nat>): State
    requires i < |s.insts| && v < |s.watchers|
  {
    SetLoop(SetW(s, v, y), i, FanOut(n, pending))
  }

  lemma OfferKeepsOffers(s: State, i: nat, v: nat, y: Watcher, n: nat, pending: set<nat>)
    requires DInv(s) && CanOffer(s, i, v, n, pending)
    requires y.home == s.watchers[v].home && y.log.offered == s.watchers[v].log.offered + [n]
    ensures var t := Offered(s, i, v, y, n, pending);
      forall j, w | 0 <= j < |t.insts| && 0 <= w < |t.watchers| :: OfferOk(t, j, w)
  {
    var t := Offered(s, i, v, y, n, pending);
    assert FannedOk(s, i);
    forall j, w | 0 <= j < |t.insts| && 0 <= w < |t.watchers| ensures OfferOk(t, j, w) {
      assert OfferOk(s, j, w);
    }
  }

  lemma OfferKeepsFanOuts(s: State, i: nat, v: nat, y: Watcher, n: nat, pending: set<nat>)
    requires DInv(s) && CanOffer(s, i, v, n, pending)
    requires y.log.offered == s.watchers[v].log.offered + [n]
    ensures var t := Offered(s, i, v, y, n, pending); forall j | 0 <= j < |t.insts| :: FannedOk(t, j)
  {
    var t := Offered(s, i, v, y, n, pending);
    assert y.log.offered[|y.log.offered| - 1] == n;
    assert n in y.log.offered && forall m | m in s.watchers[v].log.offered :: m in y.log.offered;
    assert FannedOk(s, i);
    forall w | w in s.insts[i].subs.Values - pending ensures w < |t.watchers| && n in t.watchers[w].log.offered {
      if w != v {
        assert w in s.insts[i].subs.Values - (pending + {v}) && w in s.insts[i].subs.Values - pending - {v};
      }
    }
    forall j | 0 <= j < |t.insts| ensures FannedOk(t, j) {
      assert FannedOk(s, j);
    }
  }

  lemma OffersTo(s: State, i: nat, v: nat, y: Watcher, n: nat, pending: set<nat>)
    requires DInv(s) && CanOffer(s, i, v, n, pending)
    requires y == DoSkip(s.watchers[v], n) || y == DoSend(s.watchers[v], n)
    ensures DInv(Offered(s, i, v, y, n, pending))
  {
    var t := Offered(s, i, v, y, n, pending);
    assert WatchDeliveryOk(s, s.watchers[v]) && FannedOk(s, i);
    OfferingKeepsDelivery(s.watchers[v], n);
    forall w | 0 <= w < |t.watchers| ensures WatchDeliveryOk(t, t.watchers[w]) {
      assert WatchDeliveryOk(s, s.watchers[w]);
    }
    OfferKeepsOffers(s, i, v, y, n, pending);
    OfferKeepsFanOuts(s, i, v, y, n, pending);
  }

  // The watch behind a pending entry is at home in this instance.
  lemma PendingAtHome(c: Config, s: State, i: nat, v: nat)
    requires Inv(c, s) && i < |s.insts| && v in s.insts[i].subs.Values
    ensures v < |s.watchers| && s.watchers[v].home == Some(i)
  {
    assert InstOk(c, s, i);
  }

  lemma OfferStep(c: Config, s: State, i: nat, a: LAct)
    requires Inv(c, s) && DInv(s) && LEnabled(s, i, a) && (a.Skip? || a.Send?)
    ensures DInv(LApply(s, i, a))
  {
    var l := s.insts[i].loop;
    var v := if a.Skip? then a.v else l.v;
    assert InstOk(c, s, i);
    PendingAtHome(c, s, i, v);
    assert OfferOk(s, i, v) && FannedOk(s, i);
    if a.Skip? {
      assert l.pending == (l.pending - {v}) + {v};
      OffersTo(s, i, v, DoSkip(s.watchers[v], l.n), l.n, l.pending - {v});
    } else {
      OfferedIsOpen(c, s, i);
      OffersTo(s, i, v, DoSend(s.watchers[v], l.n), l.n, l.pending);
    }
  }

  // A step of the loop that passes its notification on without offering it, or has none.
  lemma LoopCarries(s: State, i: nat, l: Inst, notified: nat)
    requires DInv(s) && i < |s.insts| && l.subs == s.insts[i].subs && s.notified <= notified
    requires forall w | 0 <= w < |s.watchers| :: OfferOk(SetI(s, i, l).(notified := notified), i, w)
    requires FannedOk(SetI(s, i, l).(notified := notified), i)
    ensures DInv(SetI(s, i, l).(notified := notified))
  {
    var t := SetI(s, i, l).(notified := notified);
    forall w | 0 <= w < |t.watchers| ensures WatchDeliveryOk(t, t.watchers[w]) {
      assert WatchDeliveryOk(s, s.watchers[w]);
    }
    forall j, w | 0 <= j < |t.insts| && 0 <= w < |t.watchers| ensures OfferOk(t, j, w) {
      assert OfferOk(s, j, w);
    }
    forall j | 0 <= j < |t.insts| ensures FannedOk(t, j) {
      assert FannedOk(s, j);
    }
  }

  lemma PassingFanned(s: State, i: nat, a: LAct)
    requires DInv(s) && LEnabled(s, i, a) && (a.Notify? || a.Parsed? || a.LockFan? || a.Check?)
    ensures FannedOk(LApply(s, i, a), i)
  {
    var subs := s.insts[i].subs.Values;
    assert FannedOk(s, i);
    if a.LockFan? {
      assert subs - subs == {};
    } else if a.Check? {
      var pending := s.insts[i].loop.pending;
      forall w | w in subs - (pending - {a.v}) - {a.v} ensures w < |s.watchers| && s.insts[i].loop.n in s.watchers[w].log.offered {
        assert w in subs - pending;
      }
    }
  }

  lemma PassingStep(c: Config, s: State, i: nat, a: LAct)
    requires Inv(c, s) && DInv(s) && LEnabled(s, i, a) && (a.Notify? || a.Parsed? || a.LockFan? || a.Check?)
    ensures DInv(LApply(s, i, a))
  {
    var t := LApply(s, i, a);
    forall w | 0 <= w < |s.watchers| ensures OfferOk(t, i, w) {
      assert OfferOk(s, i, w) && WatchDeliveryOk(s, s.watchers[w]);
      if a.LockFan? && s.watchers[w].home == Some(i) {
        assert AllBelow(s.watchers[w].log.offered, s.insts[i].loop.n);
      }
    }
    PassingFanned(s, i, a);
    assert t == SetI(s, i, t.insts[i]).(notified := t.notified);
    LoopCarries(s, i, t.insts[i], t.notified);
  }

  lemma IdleLoopStep(c: Config, s: State, i: nat, a: LAct)
    requires Inv(c, s) && DInv(s) && LEnabled(s, i, a)
    requires !a.Skip? && !a.Send? && !a.Notify? && !a.Parsed? && !a.LockFan? && !a.Check?
    ensures DInv(LApply(s, i, a))
  {
    var t := LApply(s, i, a);
    forall v | 0 <= v < |t.watchers| ensures DeliveryOk(t.watchers[v]) {
      assert WatchDeliveryOk(s, s.watchers[v]);
    }
    assert t.watchers == s.watchers && !Carrying(t.insts[i].loop);
    NoOfferKeeps(s, t);
  }

  lemma CleanupStepDelivers(c: Config, s: State, i: nat, a: CAct)
    requires Inv(c, s) && DInv(s) && CEnabled(s, i, a)
    ensures DInv(CApply(c, s, i, a))
  {
    CleanupStaysAside(c, s, i, a);
    AllQuietKeepDelivery(s, CApply(c, s, i, a));
    CleanupOffersNothing(c, s, i, a);
    NoOfferKeeps(s, CApply(c, s, i, a));
  }

  lemma CleanupOffersNothing(c: Config, s: State, i: nat, a: CAct)
    requires CEnabled(s, i, a)
    ensures NoOffer(s, CApply(c, s, i, a))
  {
  }

  lemma ClientStep(c: Config, s: State, a: Action)
    requires Inv(c, s) && DInv(s) && Enabled(s, a) && (a.Clock? || a.Leave? || a.Read?)
    ensures DInv(Apply(c, s, a))
  {
    var t := Apply(c, s, a);
    forall v | 0 <= v < |t.watchers| ensures DeliveryOk(t.watchers[v]) {
      assert WatchDeliveryOk(s, s.watchers[v]);
      if a.Read? && v == a.w {
        ReadingKeepsDelivery(s.watchers[v]);
      } else {
        QuietKeepsDelivery(s.watchers[v], t.watchers[v]);
      }
    }
    NoOfferKeeps(s, t);
  }

  lemma ArriveStep(c: Config, s: State, id: string, accepts: iset<nat>)
    requires Inv(c, s) && DInv(s)
    ensures DInv(s.(watchers := s.watchers + [NewWatcher(id, accepts)]))
  {
    var t := s.(watchers := s.watchers + [NewWatcher(id, accepts)]);
    forall w | 0 <= w < |t.watchers| ensures WatchDeliveryOk(t, t.watchers[w]) {
      assert w < |s.watchers| ==> WatchDeliveryOk(s, s.watchers[w]);
    }
    forall j, w | 0 <= j < |t.insts| && 0 <= w < |t.watchers| ensures OfferOk(t, j, w) {
      assert w < |s.watchers| ==> OfferOk(s, j, w);
    }
    forall j | 0 <= j < |t.insts| ensures FannedOk(t, j) {
      assert FannedOk(s, j);
    }
  }

  lemma StepDelivers(c: Config, s: State, a: Action)
    requires Inv(c, s) && DInv(s) && Enabled(s, a)
    ensures DInv(Apply(c, s, a))
  {
    match a
    case Arrive(id, accepts) => ArriveStep(c, s, id, accepts);
    case OfWatch(w, wa) =>
      if MovesEvent(wa) {
        MovingWatchStep(c, s, w, wa);
      } else {
        QuietWatchStep(c, s, w, wa);
      }
    case OfLoop(i, la) =>
      if la.Skip? || la.Send? {
        OfferStep(c, s, i, la);
      } else if la.Notify? || la.Parsed? || la.LockFan? || la.Check? {
        PassingStep(c, s, i, la);
      } else {
        IdleLoopStep(c, s, i, la);
      }
    case OfCleanup(i, ca) => CleanupStepDelivers(c, s, i, ca);
    case _ => ClientStep(c, s, a);
  }

  lemma {:induction false} RunDelivers(c: Config, run: seq<State>, acts: seq<Action>, k: nat)
    requires Run(c, run, acts) && k < |run|
    ensures DInv(run[k])
  {
    if k > 0 {
      RunDelivers(c, run, acts, k - 1);
      RunKeeps(c, run, acts, k - 1);
      assert Follows(c, run, acts, k - 1);
      StepDelivers(c, run[k - 1], acts[k - 1]);
    }
  }

  // ---- What this means for the client --------------------------------------------------------------

  /**
   What the client has read, followed by what still waits for it, is an in-order and duplicate-free
   part of the notifications offered to the watch, and every event in it passed the filters and a
   permission check.
  */
  lemma ClientSeesOrderedPart(c: Config, run: seq<State>, acts: seq<Action>, k: nat, w: nat)
    requires Run(c, run, acts) && k < |run| && w < |run[k].watchers|
    ensures var x := run[k].watchers[w]; var seen := x.log.read + x.result;
      && Increasing(x.log.offered) && Increasing(seen)
      && forall n | n in seen :: n in x.log.offered && n in x.accepts && n in x.log.granted
  {
    RunDelivers(c, run, acts, k);
    assert WatchDeliveryOk(run[k], run[k].watchers[w]);
    var x := run[k].watchers[w];
    forall n | n in x.log.read + x.result ensures n in x.log.offered {
      assert n in x.log.delivered && n in Received(x);
    }
  }

  /** When a fan-out ends, every subscription in the map has been offered the notification. */
  lemma FanOutReachesAll(c: Config, run: seq<State>, acts: seq<Action>, k: nat, i: nat, n: nat)
    requires Run(c, run, acts) && k < |acts| && acts[k] == OfLoop(i, UnlockFan)
    requires i < |run[k].insts| && run[k].insts[i].loop == FanOut(n, {})
    ensures var s := run[k];
      forall w | w in s.insts[i].subs.Values :: w < |s.watchers| && n in s.watchers[w].log.offered
  {
    RunDelivers(c, run, acts, k);
    assert Follows(c, run, acts, k);
    var l := run[k].insts[i];
    assert FannedOk(run[k], i);
    assert l.subs.Values - l.loop.pending == l.subs.Values;
  }

  lemma WatchOffersNothing(c: Config, s: State, v: nat, a: WAct, w: nat)
    requires Inv(c, s) && WEnabled(s, v, a) && w < |s.watchers|
    ensures w < |WApply(c, s, v, a).watchers| && WApply(c, s, v, a).watchers[w].log.offered == s.watchers[w].log.offered
  {
    if MovesEvent(a) {
      MoversStayAlone(c, s, v, a);
    } else {
      OthersStayAside(c, s, v, a);
      assert Quiet(s.watchers[w], WApply(c, s, v, a).watchers[w]);
    }
  }

  lemma LoopOffersToEntries(c: Config, s: State, i: nat, a: LAct, w: nat)
    requires Inv(c, s) && LEnabled(s, i, a) && w < |s.watchers|
    ensures |LApply(s, i, a).watchers| == |s.watchers|
    ensures LApply(s, i, a).watchers[w].log.offered != s.watchers[w].log.offered ==> w in s.insts[i].subs.Values
  {
    assert InstOk(c, s, i);
  }

  /** A watch is offered something only by an instance whose map holds its entry at that moment. */
  lemma OfferedWhileRegistered(c: Config, run: seq<State>, acts: seq<Action>, k: nat, w: nat)
    requires Run(c, run, acts) && k < |acts| && w < |run[k].watchers| && w < |run[k + 1].watchers|
    requires run[k + 1].watchers[w].log.offered != run[k].watchers[w].log.offered
    ensures acts[k].OfLoop? && acts[k].i < |run[k].insts| && w in run[k].insts[acts[k].i].subs.Values
  {
    RunKeeps(c, run, acts, k);
    assert Follows(c, run, acts, k);
    match acts[k]
    case OfWatch(v, a) => WatchOffersNothing(c, run[k], v, a, w);
    case OfLoop(i, a) => LoopOffersToEntries(c, run[k], i, a, w);
    case OfCleanup(i, a) => CleanupStaysAside(c, run[k], i, a);
    case _ =>
  }
}

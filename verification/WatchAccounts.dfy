/**
 The account of every watch: each notification offered to it is read, queued, in hand, or dropped, each at
 exactly one of these places, and a dropped one for the reason under which it is recorded.
*/
module WatchAccounts {
  import opened Prelude
  import opened WatchProtocol
  import opened WatchSafety
  import opened WatchRuns
  import opened WatchDelivery

  // ---- One watch ----------------------------------------------------------------------------------------

  // On the listener's side: skipped because cancelled, dropped because the receiver was full, or sent.
  ghost predicate OffersAccounted(x: Watcher) {
    var g := x.log;
    multiset(g.offered) == multiset(g.skipped) + multiset(g.overflow) + multiset(g.taken) + multiset(x.receiver)
  }

  // On the watch's side: what it took is where its steps have put it.
  ghost predicate TakenAccounted(x: Watcher) {
    var g := x.log;
    multiset(g.taken) == multiset(g.filtered) + multiset(g.denied) + multiset(g.delivered) + multiset(g.resultFull)
                         + multiset(g.abandoned) + multiset(Hand(x.pc))
  }

  // What the watch has decided about the events it took.
  ghost predicate VerdictsOk(x: Watcher) {
    var g := x.log;
    && (forall n | n in g.filtered :: n !in x.accepts)
    && (forall n | n in g.denied || n in g.resultFull || n in g.abandoned :: n in x.accepts)
    && (forall n | n in g.resultFull || n in g.abandoned :: n in g.granted)
    && (forall n | n in g.granted :: n in g.delivered || n in g.resultFull || n in g.abandoned || (x.pc.Sending? && n == x.pc.n))
    && (x.pc.Authorising? || x.pc.Sending? ==> x.pc.n in x.accepts)
    && (x.pc.Sending? ==> x.pc.n in g.granted)
    && (g.skipped != [] || g.abandoned != [] ==> x.cancelled)
  }

  ghost predicate AccountOk(x: Watcher) {
    OffersAccounted(x) && TakenAccounted(x) && VerdictsOk(x)
  }

  lemma MovingKeepsOffers(x: Watcher, a: WAct)
    requires OffersAccounted(x) && CanMove(x, a)
    ensures OffersAccounted(Moved(x, a))
  {
    if a.Receive? {
      assert x.receiver == [x.receiver[0]] + x.receiver[1..];
    }
  }

  lemma TakingKeepsTaken(x: Watcher)
    requires TakenAccounted(x) && x.pc.Watching? && x.receiver != []
    ensures TakenAccounted(DoReceive(x))
  {
  }

  lemma FilteringKeepsTaken(x: Watcher)
    requires TakenAccounted(x) && x.pc.Filtering?
    ensures TakenAccounted(DoFilter(x, x.pc.n))
  {
    assert Hand(x.pc) == [x.pc.n];
  }

  lemma AuthorisingKeepsTaken(x: Watcher, granted: bool)
    requires TakenAccounted(x) && x.pc.Authorising?
    ensures TakenAccounted(DoAuthorise(x, x.pc.n, granted))
  {
    assert Hand(x.pc) == [x.pc.n];
  }

  lemma SendingKeepsTaken(x: Watcher, a: WAct)
    requires TakenAccounted(x) && CanMove(x, a) && x.pc.Sending?
    ensures TakenAccounted(Moved(x, a))
  {
    assert Hand(x.pc) == [x.pc.n];
  }

  lemma MovingKeepsTaken(x: Watcher, a: WAct)
    requires TakenAccounted(x) && CanMove(x, a)
    ensures TakenAccounted(Moved(x, a))
  {
    if a.Receive? {
      TakingKeepsTaken(x);
    } else if a.Filter? {
      FilteringKeepsTaken(x);
    } else if a.Authorise? {
      AuthorisingKeepsTaken(x, a.granted);
    } else {
      SendingKeepsTaken(x, a);
    }
  }

  lemma TakingKeepsVerdicts(x: Watcher)
    requires VerdictsOk(x) && x.pc.Watching? && x.receiver != []
    ensures VerdictsOk(DoReceive(x))
  {
  }

  lemma FilteringKeepsVerdicts(x: Watcher)
    requires VerdictsOk(x) && x.pc.Filtering?
    ensures VerdictsOk(DoFilter(x, x.pc.n))
  {
  }

  lemma AuthorisingKeepsVerdicts(x: Watcher, granted: bool)
    requires VerdictsOk(x) && x.pc.Authorising?
    ensures VerdictsOk(DoAuthorise(x, x.pc.n, granted))
  {
  }

  lemma DeliveringKeepsVerdicts(x: Watcher)
    requires VerdictsOk(x) && x.pc.Sending?
    ensures VerdictsOk(DoDeliver(x, x.pc.n))
  {
    assert DoDeliver(x, x.pc.n).log.delivered[|x.log.delivered|] == x.pc.n;
  }

  lemma DroppingKeepsVerdicts(x: Watcher)
    requires VerdictsOk(x) && x.pc.Sending?
    ensures VerdictsOk(DoDropFull(x, x.pc.n))
  {
    assert DoDropFull(x, x.pc.n).log.resultFull[|x.log.resultFull|] == x.pc.n;
  }

  lemma AbandoningKeepsVerdicts(x: Watcher)
    requires VerdictsOk(x) && x.pc.Sending? && x.cancelled
    ensures VerdictsOk(DoAbandon(x, x.pc.n))
  {
    assert DoAbandon(x, x.pc.n).log.abandoned[|x.log.abandoned|] == x.pc.n;
  }

  lemma MovingKeepsVerdicts(x: Watcher, a: WAct)
    requires VerdictsOk(x) && CanMove(x, a) && (a.AbandonSend? ==> x.cancelled)
    ensures VerdictsOk(Moved(x, a))
  {
    if a.Receive? {
      TakingKeepsVerdicts(x);
    } else if a.Filter? {
      FilteringKeepsVerdicts(x);
    } else if a.Authorise? {
      AuthorisingKeepsVerdicts(x, a.granted);
    } else if a.Deliver? {
      DeliveringKeepsVerdicts(x);
    } else if a.DropFull? {
      DroppingKeepsVerdicts(x);
    } else {
      AbandoningKeepsVerdicts(x);
    }
  }

  lemma MovingKeepsAccount(x: Watcher, a: WAct)
    requires AccountOk(x) && CanMove(x, a) && (a.AbandonSend? ==> x.cancelled)
    ensures AccountOk(Moved(x, a))
  {
    MovingKeepsOffers(x, a);
    MovingKeepsTaken(x, a);
    MovingKeepsVerdicts(x, a);
  }

  lemma SendingKeepsOffers(x: Watcher, n: nat)
    requires OffersAccounted(x)
    ensures OffersAccounted(DoSend(x, n))
  {
  }

  // An offer touches nothing but the receiver, the log of offers and the drops on the listener's side.
  ghost predicate OnlyOffered(x: Watcher, y: Watcher) {
    && y.pc == x.pc && y.accepts == x.accepts && y.cancelled == x.cancelled
    && y.log == x.log.(offered := y.log.offered, overflow := y.log.overflow, skipped := y.log.skipped)
    && (y.log.skipped == x.log.skipped || x.cancelled)
  }

  lemma OfferKeepsTheRest(x: Watcher, y: Watcher)
    requires TakenAccounted(x) && VerdictsOk(x) && OnlyOffered(x, y)
    ensures TakenAccounted(y) && VerdictsOk(y)
  {
  }

  lemma SendingOnlyOffers(x: Watcher, n: nat)
    ensures OnlyOffered(x, DoSend(x, n))
  {
  }

  lemma SendingKeepsAccount(x: Watcher, n: nat)
    requires AccountOk(x)
    ensures AccountOk(DoSend(x, n))
  {
    SendingKeepsOffers(x, n);
    SendingOnlyOffers(x, n);
    OfferKeepsTheRest(x, DoSend(x, n));
  }

  lemma SkippingKeepsAccount(x: Watcher, n: nat)
    requires AccountOk(x) && x.cancelled
    ensures AccountOk(DoSkip(x, n))
  {
    OfferKeepsTheRest(x, DoSkip(x, n));
  }

  lemma QuietKeepsAccount(x: Watcher, y: Watcher)
    requires AccountOk(x) && Quiet(x, y)
    ensures AccountOk(y)
  {
  }

  lemma ReadingKeepsAccount(x: Watcher)
    requires AccountOk(x) && x.result != []
    ensures AccountOk(x.(result := x.result[1..], log := x.log.(read := x.log.read + [x.result[0]])))
  {
  }

  // ---- All watches --------------------------------------------------------------------------------------

  ghost predicate AllAccounted(s: State) {
    forall w | 0 <= w < |s.watchers| :: AccountOk(s.watchers[w])
  }

  lemma QuietStepAccounts(s: State, t: State)
    requires AllAccounted(s) && AllQuiet(s, t)
    ensures AllAccounted(t)
  {
    forall w | 0 <= w < |t.watchers| ensures AccountOk(t.watchers[w]) {
      QuietKeepsAccount(s.watchers[w], t.watchers[w]);
    }
  }

  lemma OneWatchAccounts(s: State, w: nat, y: Watcher)
    requires AllAccounted(s) && w < |s.watchers| && AccountOk(y)
    ensures AllAccounted(SetW(s, w, y))
  {
  }

  lemma WatchStepAccounts(c: Config, s: State, w: nat, a: WAct)
    requires Inv(c, s) && AllAccounted(s) && WEnabled(s, w, a)
    ensures AllAccounted(WApply(c, s, w, a))
  {
    if MovesEvent(a) {
      MoversStayAlone(c, s, w, a);
      MovingKeepsAccount(s.watchers[w], a);
      OneWatchAccounts(s, w, Moved(s.watchers[w], a));
    } else {
      OthersStayAside(c, s, w, a);
      QuietStepAccounts(s, WApply(c, s, w, a));
    }
  }

  lemma SkipAccounts(s: State, i: nat, v: nat, n: nat, pending: set<nat>)
    requires AllAccounted(s) && i < |s.insts| && v < |s.watchers| && s.watchers[v].cancelled
    ensures AllAccounted(DoSkipAt(s, i, v, n, pending))
  {
    SkippingKeepsAccount(s.watchers[v], n);
    OneWatchAccounts(s, v, DoSkip(s.watchers[v], n));
  }

  lemma SendAccounts(s: State, i: nat, v: nat, n: nat, pending: set<nat>)
    requires AllAccounted(s) && i < |s.insts| && v < |s.watchers|
    ensures AllAccounted(DoSendAt(s, i, v, n, pending))
  {
    SendingKeepsAccount(s.watchers[v], n);
    OneWatchAccounts(s, v, DoSend(s.watchers[v], n));
  }

  lemma LoopStepAccounts(s: State, i: nat, a: LAct)
    requires AllAccounted(s) && LEnabled(s, i, a)
    ensures AllAccounted(LApply(s, i, a))
  {
    var l := s.insts[i].loop;
    if a.Skip? {
      SkipAccounts(s, i, a.v, l.n, l.pending);
    } else if a.Send? {
      SendAccounts(s, i, l.v, l.n, l.pending);
    } else {
      LoopLeavesWatches(s, i, a);
    }
  }

  lemma StepAccounts(c: Config, s: State, a: Action)
    requires Inv(c, s) && AllAccounted(s) && Enabled(s, a)
    ensures AllAccounted(Apply(c, s, a))
  {
    match a
    case OfWatch(w, wa) => WatchStepAccounts(c, s, w, wa);
    case OfLoop(i, la) => LoopStepAccounts(s, i, la);
    case OfCleanup(i, ca) =>
      CleanupStaysAside(c, s, i, ca);
      QuietStepAccounts(s, CApply(c, s, i, ca));
    case Leave(w) =>
      CancelAside(s, w);
      QuietStepAccounts(s, Cancel(s, w));
    case Read(w) => ReadingKeepsAccount(s.watchers[w]);
    case _ =>
  }

  lemma {:induction false} RunAccounts(c: Config, run: seq<State>, acts: seq<Action>, k: nat)
    requires Run(c, run, acts) && k < |run|
    ensures AllAccounted(run[k])
  {
    if k > 0 {
      RunAccounts(c, run, acts, k - 1);
      RunKeeps(c, run, acts, k - 1);
      assert Follows(c, run, acts, k - 1);
      StepAccounts(c, run[k - 1], acts[k - 1]);
    }
  }

  // ---- What this means ----------------------------------------------------------------------------------

  // A sequence in strictly increasing order has each element once.
  lemma {:induction false} IncreasingHasNoRepeats(s: seq<nat>)
    requires Increasing(s)
    ensures forall n :: multiset(s)[n] <= 1
  {
    if s != [] {
      var init, last := s[..|s| - 1], s[|s| - 1];
      assert s == init + [last];
      IncreasingHasNoRepeats(init);
      assert last !in init;
    }
  }

  /**
   Every notification offered to a watch is at exactly one place: read by the client, queued for it, in hand,
   queued in the receiver, or dropped under one recorded reason.
  */
  lemma NothingIsLost(c: Config, run: seq<State>, acts: seq<Action>, k: nat, w: nat)
    requires Run(c, run, acts) && k < |run| && w < |run[k].watchers|
    ensures var x := run[k].watchers[w]; var g := x.log;
      multiset(g.offered) ==
        multiset(g.read) + multiset(x.result) + multiset(Hand(x.pc)) + multiset(x.receiver)
        + multiset(g.skipped) + multiset(g.overflow) + multiset(g.filtered) + multiset(g.denied)
        + multiset(g.resultFull) + multiset(g.abandoned)
    ensures forall n :: multiset(run[k].watchers[w].log.offered)[n] <= 1
  {
    RunAccounts(c, run, acts, k);
    RunDelivers(c, run, acts, k);
    var x := run[k].watchers[w];
    assert AccountOk(x) && WatchDeliveryOk(run[k], x);
    IncreasingHasNoRepeats(x.log.offered);
  }

  /**
   A dropped notification has the reason under which it is recorded: the filters do not accept a filtered one; a
   denied one passed the filters and was never granted; one that did not fit the result, or was abandoned, passed
   both; and only a cancelled watch is skipped or abandons.
  */
  lemma DropsHaveTheirReason(c: Config, run: seq<State>, acts: seq<Action>, k: nat, w: nat)
    requires Run(c, run, acts) && k < |run| && w < |run[k].watchers|
    ensures var x := run[k].watchers[w]; var g := x.log;
      && (forall n | n in g.filtered :: n !in x.accepts)
      && (forall n | n in g.denied :: n in x.accepts && n !in g.granted)
      && (forall n | n in g.resultFull || n in g.abandoned :: n in x.accepts && n in g.granted)
      && (g.skipped != [] || g.abandoned != [] ==> x.cancelled)
  {
    RunAccounts(c, run, acts, k);
    RunDelivers(c, run, acts, k);
    var x := run[k].watchers[w];
    var g := x.log;
    assert AccountOk(x) && WatchDeliveryOk(run[k], x);
    assert Increasing(g.taken) by {
      forall i, j | 0 <= i < j < |g.taken| ensures g.taken[i] < g.taken[j] {
        assert Received(x)[i] == g.taken[i] && Received(x)[j] == g.taken[j];
      }
    }
    IncreasingHasNoRepeats(g.taken);
    forall n | n in g.denied ensures n !in g.granted {
      assert multiset(g.denied)[n] >= 1;
      assert multiset(g.taken)[n] == multiset(g.filtered)[n] + multiset(g.denied)[n] + multiset(g.delivered)[n]
        + multiset(g.resultFull)[n] + multiset(g.abandoned)[n] + multiset(Hand(x.pc))[n];
      assert n !in g.delivered && n !in g.resultFull && n !in g.abandoned && n !in Hand(x.pc);
    }
  }

  /** The two full-buffer reasons are recorded only by a step that finds the buffer full. */
  lemma FullMeansFull(c: Config, run: seq<State>, acts: seq<Action>, k: nat, w: nat)
    requires Run(c, run, acts) && k < |acts| && w < |run[k].watchers| && w < |run[k + 1].watchers|
    ensures var x, y := run[k].watchers[w], run[k + 1].watchers[w];
      && (y.log.overflow != x.log.overflow ==> |x.receiver| == 100 && !x.receiverClosed)
      && (y.log.resultFull != x.log.resultFull ==> |x.result| == 100 && !x.cancelled)
  {
    RunKeeps(c, run, acts, k);
    assert Follows(c, run, acts, k);
    assert WatchOk(run[k], run[k].watchers[w]);
    match acts[k]
    case OfWatch(v, a) => WatchFillsResult(c, run[k], v, a, w);
    case OfLoop(i, a) => LoopOverflows(c, run[k], i, a, w);
    case OfCleanup(i, a) =>
      CleanupStaysAside(c, run[k], i, a);
      assert Quiet(run[k].watchers[w], run[k + 1].watchers[w]);
    case _ =>
  }

  lemma WatchFillsResult(c: Config, s: State, v: nat, a: WAct, w: nat)
    requires Inv(c, s) && WEnabled(s, v, a) && w < |s.watchers| && w < |WApply(c, s, v, a).watchers|
    ensures var x, y := s.watchers[w], WApply(c, s, v, a).watchers[w];
      && y.log.overflow == x.log.overflow
      && (y.log.resultFull != x.log.resultFull ==> |x.result| >= BUFFER && !x.cancelled)
  {
    if MovesEvent(a) {
      MoversStayAlone(c, s, v, a);
    } else {
      OthersStayAside(c, s, v, a);
      assert Quiet(s.watchers[w], WApply(c, s, v, a).watchers[w]);
    }
  }

  lemma LoopOverflows(c: Config, s: State, i: nat, a: LAct, w: nat)
    requires Inv(c, s) && LEnabled(s, i, a) && w < |s.watchers| && w < |LApply(s, i, a).watchers|
    ensures var x, y := s.watchers[w], LApply(s, i, a).watchers[w];
      && (y.log.overflow != x.log.overflow ==> |x.receiver| >= BUFFER && !x.receiverClosed)
      && y.log.resultFull == x.log.resultFull
  {
    if a.Send? {
      OfferedIsOpen(c, s, i);
    }
    if !a.Skip? && !a.Send? {
      LoopLeavesWatches(s, i, a);
    }
  }
}

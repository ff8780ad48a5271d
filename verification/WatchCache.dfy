/**
 The permission cache of a watching user (pkg/rbac/watchCache.go): any number of concurrent checks, each
 a lookup under the read lock, a call to the API when that misses, and a store under the write lock; and
 how old the grant behind a positive answer can be.
*/
module WatchCache {
  import opened Prelude

  datatype Key = Key(verb: string, group: string, kind: string, namespace: string)

  // A cached answer, with the instants at which the call that obtained it started and was decided.
  datatype Entry = Entry(allowed: bool, updatedAt: int, started: int, decided: int)

  /** The access review at an instant; None is an error, which counts as a denial. */
  type Api = (Key, int) -> Option<bool>

  predicate Allows(api: Api, key: Key, t: int) {
    api(key, t) == Some(true)
  }

  /** Only a review that succeeds and says yes allows; an error denies. */
  lemma ErrorsDeny(api: Api, key: Key, t: int)
    ensures api(key, t).None? ==> !Allows(api, key, t)
    ensures api(key, t).Some? ==> (Allows(api, key, t) <==> api(key, t).value)
  {
  }

  // ---- The two critical sections -----------------------------------------------------------------------------

  function Lookup(permissions: map<Key, Entry>, key: Key, ttl: int, now: int): Option<bool> {
    if key in permissions && now - permissions[key].updatedAt < ttl then Some(permissions[key].allowed) else None
  }

  function Store(permissions: map<Key, Entry>, key: Key, allowed: bool, started: int, decided: int, now: int): map<Key, Entry> {
    permissions[key := Entry(allowed, now, started, decided)]
  }

  class UserWatchData {
    const ttl: int
    var permissions: map<Key, Entry>

    constructor (ttl: int)
      ensures this.ttl == ttl && permissions == map[]
    {
      this.ttl, permissions := ttl, map[];
    }

    method Cached(key: Key, now: int) returns (answer: Option<bool>)
      ensures answer == Lookup(permissions, key, ttl, now)
    {
      if key in permissions {
        var entry := permissions[key];
        if now - entry.updatedAt < ttl {
          return Some(entry.allowed);
        }
      }
      return None;
    }

    /**
     One check without interference: it looks at `now`, calls at `now` if it must, the API decides at
     `decided`, and the answer is stored at `stored`.
    */
    method CheckPermissionAndCache(key: Key, api: Api, now: int, decided: int, stored: int) returns (allowed: bool)
      requires now <= decided <= stored
      modifies this
      ensures old(Lookup(permissions, key, ttl, now)).Some? ==>
        permissions == old(permissions) && allowed == old(Lookup(permissions, key, ttl, now)).value
      ensures old(Lookup(permissions, key, ttl, now)).None? ==>
        && permissions == Store(old(permissions), key, allowed, now, decided, stored)
        && (allowed <==> api(key, decided) == Some(true))
    {
      var cached := Cached(key, now);
      if cached.Some? {
        return cached.value;
      }
      var result := api(key, decided);
      allowed := match result case None => false case Some(b) => b;
      permissions := permissions[key := Entry(allowed, stored, now, decided)];
    }
  }

  // ---- Concurrent checks -------------------------------------------------------------------------------------

  // Where a thread is in its check. `Answered` keeps the answer, the instant of the decision to return it,
  // and the entry it rests on.
  datatype Phase =
    | Idle
    | Called(key: Key, started: int)
    | Decided(key: Key, started: int, decided: int, allowed: bool)
    | Answered(key: Key, answer: bool, at: int, basis: Entry)

  datatype State = State(now: int, permissions: map<Key, Entry>, threads: map<nat, Phase>)

  datatype Action =
    | Tick(d: nat)               // time passes
    | Check(t: nat, key: Key)    // the lookup, under the read lock, with its reading of the clock
    | Decide(t: nat)             // the API decides
    | Finish(t: nat)             // the store, under the write lock, with its reading of the clock

  function PhaseOf(s: State, t: nat): Phase {
    if t in s.threads then s.threads[t] else Idle
  }

  predicate Enabled(s: State, a: Action) {
    match a
    case Tick(_) => true
    case Check(t, _) => PhaseOf(s, t).Idle? || PhaseOf(s, t).Answered?
    case Decide(t) => PhaseOf(s, t).Called?
    case Finish(t) => PhaseOf(s, t).Decided?
  }

  function Apply(s: State, ttl: int, api: Api, a: Action): State
    requires Enabled(s, a)
  {
    match a
    case Tick(d) => s.(now := s.now + d)
    case Check(t, key) =>
      if Lookup(s.permissions, key, ttl, s.now).Some? then
        s.(threads := s.threads[t := Answered(key, s.permissions[key].allowed, s.now, s.permissions[key])])
      else s.(threads := s.threads[t := Called(key, s.now)])
    case Decide(t) =>
      var p := s.threads[t];
      s.(threads := s.threads[t := Decided(p.key, p.started, s.now, Allows(api, p.key, s.now))])
    case Finish(t) =>
      var p := s.threads[t];
      var after := Store(s.permissions, p.key, p.allowed, p.started, p.decided, s.now);
      s.(permissions := after, threads := s.threads[t := Answered(p.key, p.allowed, s.now, after[p.key])])
  }

  const START := State(0, map[], map[])

  /** The actions lead from the start to the last state of the run. */
  ghost predicate Run(run: seq<State>, actions: seq<Action>, ttl: int, api: Api) {
    && |run| == |actions| + 1
    && run[0] == START
    && forall k | 0 <= k < |actions| :: Step(run, actions, ttl, api, k)
  }

  ghost predicate Step(run: seq<State>, actions: seq<Action>, ttl: int, api: Api, k: nat)
    requires |run| == |actions| + 1 && k < |actions|
  {
    Enabled(run[k], actions[k]) && run[k + 1] == Apply(run[k], ttl, api, actions[k])
  }

  // ---- Freshness ---------------------------------------------------------------------------------------------

  /** A positive entry was allowed by the API during the call that stored it. */
  predicate Sound(e: Entry, key: Key, api: Api, now: int) {
    e.started <= e.decided <= e.updatedAt <= now && (e.allowed ==> Allows(api, key, e.decided))
  }

  predicate SoundPhase(p: Phase, ttl: int, api: Api, now: int) {
    match p
    case Idle => true
    case Called(_, started) => started <= now
    case Decided(key, started, decided, allowed) => started <= decided <= now && (allowed ==> Allows(api, key, decided))
    case Answered(key, answer, at, basis) =>
      && at <= now && Sound(basis, key, api, at) && answer == basis.allowed
      && (at - basis.updatedAt < ttl || at == basis.updatedAt)
  }

  ghost predicate Inv(s: State, ttl: int, api: Api) {
    && (forall key | key in s.permissions :: Sound(s.permissions[key], key, api, s.now))
    && (forall t | t in s.threads :: SoundPhase(s.threads[t], ttl, api, s.now))
  }

  lemma StepKeeps(s: State, ttl: int, api: Api, a: Action)
    requires Inv(s, ttl, api) && Enabled(s, a)
    ensures Inv(Apply(s, ttl, api, a), ttl, api)
  {
    var s' := Apply(s, ttl, api, a);
    forall key | key in s'.permissions ensures Sound(s'.permissions[key], key, api, s'.now) {
      if key in s.permissions {
        assert Sound(s.permissions[key], key, api, s.now);
      }
      if a.Finish? {
        assert SoundPhase(s.threads[a.t], ttl, api, s.now);
      }
    }
    forall t | t in s'.threads ensures SoundPhase(s'.threads[t], ttl, api, s'.now) {
      if t in s.threads {
        assert SoundPhase(s.threads[t], ttl, api, s.now);
      }
      if a.Check? && a.key in s.permissions {
        assert Sound(s.permissions[a.key], a.key, api, s.now);
      }
    }
  }

  lemma {:induction false} RunKeeps(run: seq<State>, actions: seq<Action>, ttl: int, api: Api, k: nat)
    requires Run(run, actions, ttl, api) && k < |run|
    ensures Inv(run[k], ttl, api)
  {
    if k > 0 {
      RunKeeps(run, actions, ttl, api, k - 1);
      assert Step(run, actions, ttl, api, k - 1);
      StepKeeps(run[k - 1], ttl, api, actions[k - 1]);
    }
  }

  /**
   In any run, a positive answer was granted by the API at an instant less than the time-to-live plus the
   duration of the call that obtained it before the answer (an answer fresh from its own call: no more than
   that duration), whatever other calls stored or overwrote meanwhile.
  */
  lemma AnswersAreFresh(run: seq<State>, actions: seq<Action>, ttl: int, api: Api, k: nat, t: nat)
    requires Run(run, actions, ttl, api) && k < |run|
    requires PhaseOf(run[k], t).Answered? && PhaseOf(run[k], t).answer
    ensures var p := PhaseOf(run[k], t);
      && Allows(api, p.key, p.basis.decided)
      && p.basis.started <= p.basis.decided <= p.at
      && (p.at - p.basis.decided < ttl + (p.basis.updatedAt - p.basis.started)
          || p.at - p.basis.decided <= p.basis.updatedAt - p.basis.started)
  {
    RunKeeps(run, actions, ttl, api, k);
    assert SoundPhase(run[k].threads[t], ttl, api, run[k].now);
  }

  /** After a revocation no positive answer outlives the time-to-live and the longest call. */
  lemma RevocationTakesEffect(run: seq<State>, actions: seq<Action>, ttl: int, api: Api, k: nat, t: nat, revoked: int,
                              longest: int)
    requires Run(run, actions, ttl, api) && k < |run| && ttl >= 1
    requires PhaseOf(run[k], t).Answered?
    requires forall i | i >= revoked :: !Allows(api, PhaseOf(run[k], t).key, i)
    requires PhaseOf(run[k], t).basis.updatedAt - PhaseOf(run[k], t).basis.started <= longest
    requires PhaseOf(run[k], t).at >= revoked + ttl + longest
    ensures !PhaseOf(run[k], t).answer
  {
    if PhaseOf(run[k], t).answer {
      AnswersAreFresh(run, actions, ttl, api, k, t);
    }
  }

  /**
   The bound is tight: for every time-to-live and every call duration there is a run in which a positive
   answer is one instant short of it.
  */
  lemma BoundIsTight(ttl: int, duration: nat, key: Key, api: Api) returns (run: seq<State>, actions: seq<Action>)
    requires ttl >= 1 && Allows(api, key, 0)
    ensures Run(run, actions, ttl, api)
    ensures var p := PhaseOf(run[|run| - 1], 2);
      && p.Answered? && p.answer && p.basis.updatedAt - p.basis.started == duration
      && p.at - p.basis.decided == ttl + duration - 1
  {
    actions := [Check(1, key), Decide(1), Tick(duration), Finish(1), Tick(ttl - 1), Check(2, key)];
    var s1 := Apply(START, ttl, api, actions[0]);
    var s2 := Apply(s1, ttl, api, actions[1]);
    var s3 := Apply(s2, ttl, api, actions[2]);
    var s4 := Apply(s3, ttl, api, actions[3]);
    var s5 := Apply(s4, ttl, api, actions[4]);
    var s6 := Apply(s5, ttl, api, actions[5]);
    run := [START, s1, s2, s3, s4, s5, s6];
    forall k | 0 <= k < |actions| ensures Step(run, actions, ttl, api, k) {
    }
  }

  /**
   A slower call can replace a later grant by an earlier one: the entry's stamp moves forward while the
   instant it rests on moves back.
  */
  lemma SlowCallOverwrites(ttl: int, key: Key, api: Api, delay: nat) returns (run: seq<State>, actions: seq<Action>)
    requires ttl >= 1 && delay >= 1
    ensures Run(run, actions, ttl, api) && |run| >= 2
    ensures var before, after := run[|run| - 2].permissions, run[|run| - 1].permissions;
      && key in before && key in after
      && after[key].updatedAt == before[key].updatedAt && after[key].decided == before[key].decided - delay
  {
    actions := [Check(1, key), Check(2, key), Decide(1), Tick(delay), Decide(2), Finish(2), Finish(1)];
    var s1 := Apply(START, ttl, api, actions[0]);
    var s2 := Apply(s1, ttl, api, actions[1]);
    var s3 := Apply(s2, ttl, api, actions[2]);
    var s4 := Apply(s3, ttl, api, actions[3]);
    var s5 := Apply(s4, ttl, api, actions[4]);
    var s6 := Apply(s5, ttl, api, actions[5]);
    var s7 := Apply(s6, ttl, api, actions[6]);
    run := [START, s1, s2, s3, s4, s5, s6, s7];
    forall k | 0 <= k < |actions| ensures Step(run, actions, ttl, api, k) {
    }
  }
}

/**
 The age of the permissions from which CheckUserHasAccess and GetUserData answer (pkg/rbac/userData.go,
 pkg/rbac/cacheMetadata.go). A step system: requests look up the user's record, which is made anew once it has
 expired, and then use the permission cache of the record they were handed, in any interleaving.
*/
module PermissionCache {
  import opened Prelude
  import opened FineGrained

  const ERROR_TTL := 10000

  // ---- The permission cache of one record ------------------------------------------------------------------

  // The outcome of asking the API for the permissions.
  datatype Fetch = Listed(ps: seq<Permission>) | ListFailed | ConvertFailed

  // `fetchedAt` is history: when the permissions in the cache were read. The program keeps only the stamp.
  datatype Cache = Cache(permissions: seq<Permission>, failed: bool, updatedAt: int, fetchedAt: int)

  const EMPTY: Cache := Cache([], false, 0, 0)

  /** The time-to-live in force. */
  function Ttl(ttl: int, s: Cache): int {
    if s.failed then ERROR_TTL else ttl
  }

  predicate NeedsFetch(ttl: int, s: Cache, now: int) {
    s.permissions == [] || now >= s.updatedAt + Ttl(ttl, s)
  }

  // A success replaces the permissions and leaves the error; a failed list leaves the permissions and stamps.
  function AfterFetch(s: Cache, now: int, fetch: Fetch): Cache {
    match fetch
    case Listed(ps) => Cache(ps, s.failed, now, now)
    case ListFailed => s.(failed := true, updatedAt := now)
    case ConvertFailed => s
  }

  function AfterUse(ttl: int, s: Cache, now: int, fetch: Fetch): Cache {
    if NeedsFetch(ttl, s, now) then AfterFetch(s, now, fetch) else s
  }

  /** The use goes on to the permissions; otherwise it is refused because of the error. */
  predicate Answers(ttl: int, s: Cache, now: int, fetch: Fetch) {
    NeedsFetch(ttl, s, now) ==> fetch.Listed?
  }

  // ---- The records of a user -------------------------------------------------------------------------------

  // The times-to-live of the permission cache and of the record's other three caches.
  datatype Config = Config(ttl: int, recordTtl: int)

  // A record: when it was begun, the first of the stamps of its other caches, and whether all three were stamped.
  datatype Record = Record(begun: int, firstStamp: Option<int>, complete: bool, asked: bool, cache: Cache)

  // A request holds record i, which it looked up at that time.
  datatype Handed = Handed(i: nat, at: int)

  // The last record is the one in the users map; `building` is the request that holds usersLock.
  datatype State = State(clock: int, records: seq<Record>, building: bool, handed: set<Handed>)

  ghost predicate Init(s: State) {
    s.records == [] && !s.building && s.handed == {}
  }

  /** The record's other caches are all stamped, and the oldest stamp is within the record's time-to-live. */
  ghost predicate Valid(c: Config, r: Record, now: int) {
    r.complete && r.firstStamp.Some? && now < r.firstStamp.value + c.recordTtl
  }

  datatype Action =
    | Advance
    | Look                                     // GetUserDataCache up to the decision
    | BuildAsk(fetch: Fetch)                   // getUserPermissions while the record is made
    | FirstStamp
    | Finish(complete: bool, returned: bool)   // the end of GetUserDataCache
    | UseRecord(h: Handed, fetch: Fetch)       // CheckUserHasAccess, or the refresh in GetUserData

  ghost function Last(s: State): Record
    requires s.records != []
  {
    s.records[|s.records| - 1]
  }

  ghost predicate Enabled(s: State, a: Action) {
    match a
    case Advance => true
    case Look => !s.building
    case BuildAsk(_) => s.building && s.records != [] && !Last(s).asked && Last(s).firstStamp.None?
    case FirstStamp => s.building && s.records != [] && Last(s).firstStamp.None?
    case Finish(complete, returned) =>
      s.building && s.records != [] && (complete ==> Last(s).firstStamp.Some? && returned)
    case UseRecord(h, _) => h in s.handed && h.i < |s.records|
  }

  ghost function SetRecord(s: State, i: nat, r: Record): State
    requires i < |s.records|
  {
    s.(records := s.records[i := r])
  }

  ghost function DoLook(c: Config, s: State): State {
    if s.records != [] && Valid(c, Last(s), s.clock) then s.(handed := s.handed + {Handed(|s.records| - 1, s.clock)})
    else s.(records := s.records + [Record(s.clock, None, false, false, EMPTY)], building := true)
  }

  ghost function DoFinish(s: State, complete: bool, returned: bool): State
    requires s.records != []
  {
    var i := |s.records| - 1;
    SetRecord(s, i, s.records[i].(complete := complete)).(
      building := false, handed := s.handed + if returned then {Handed(i, s.records[i].begun)} else {})
  }

  ghost function Apply(c: Config, s: State, a: Action): State
    requires Enabled(s, a)
  {
    match a
    case Advance => s.(clock := s.clock + 1)
    case Look => DoLook(c, s)
    case BuildAsk(fetch) => SetRecord(s, |s.records| - 1, Last(s).(asked := true, cache := AfterFetch(Last(s).cache, s.clock, fetch)))
    case FirstStamp => SetRecord(s, |s.records| - 1, Last(s).(firstStamp := Some(s.clock)))
    case Finish(complete, returned) => DoFinish(s, complete, returned)
    case UseRecord(h, fetch) =>
      SetRecord(s, h.i, s.records[h.i].(cache := AfterUse(c.ttl, s.records[h.i].cache, s.clock, fetch)))
  }

  ghost predicate Follows(c: Config, run: seq<State>, acts: seq<Action>, k: nat)
    requires k < |acts| && |run| == |acts| + 1
  {
    Enabled(run[k], acts[k]) && run[k + 1] == Apply(c, run[k], acts[k])
  }

  ghost predicate Run(c: Config, run: seq<State>, acts: seq<Action>) {
    && |run| == |acts| + 1
    && Init(run[0])
    && (forall k | 0 <= k < |acts| :: Follows(c, run, acts, k))
  }

  // ---- What a step does to a record ------------------------------------------------------------------------

  /** What the API answers for record i in this step; None if it is not asked. */
  ghost function Asked(c: Config, s: State, a: Action, i: nat): Option<Fetch>
    requires Enabled(s, a)
  {
    match a
    case BuildAsk(fetch) => if i == |s.records| - 1 then Some(fetch) else None
    case UseRecord(h, fetch) => if i == h.i && NeedsFetch(c.ttl, s.records[i].cache, s.clock) then Some(fetch) else None
    case _ => None
  }

  ghost predicate FailsAt(c: Config, run: seq<State>, acts: seq<Action>, k: nat, i: nat)
    requires Run(c, run, acts) && k < |acts|
  {
    assert Follows(c, run, acts, k);
    Asked(c, run[k], acts[k], i) == Some(ListFailed)
  }

  ghost predicate ListsAt(c: Config, run: seq<State>, acts: seq<Action>, k: nat, i: nat, ps: seq<Permission>)
    requires Run(c, run, acts) && k < |acts|
  {
    assert Follows(c, run, acts, k);
    Asked(c, run[k], acts[k], i) == Some(Listed(ps))
  }

  ghost predicate Lists(c: Config, run: seq<State>, acts: seq<Action>, k: nat, i: nat)
    requires Run(c, run, acts) && k < |acts|
  {
    exists ps :: ListsAt(c, run, acts, k, i, ps)
  }

  lemma RecordStep(c: Config, s: State, a: Action, i: nat)
    requires Enabled(s, a) && i < |Apply(c, s, a).records|
    ensures i >= |s.records| ==> Apply(c, s, a).records[i] == Record(s.clock, None, false, false, EMPTY)
    ensures i < |s.records| ==>
      && Apply(c, s, a).records[i].begun == s.records[i].begun
      && Apply(c, s, a).records[i].cache ==
         match Asked(c, s, a, i) case None => s.records[i].cache case Some(f) => AfterFetch(s.records[i].cache, s.clock, f)
    ensures |s.records| <= |Apply(c, s, a).records| && s.clock <= Apply(c, s, a).clock
  {
  }

  lemma {:induction false} TimePasses(c: Config, run: seq<State>, acts: seq<Action>, j: nat, k: nat)
    requires Run(c, run, acts) && j <= k < |run|
    ensures run[j].clock <= run[k].clock && |run[j].records| <= |run[k].records|
  {
    if j < k {
      TimePasses(c, run, acts, j, k - 1);
      assert Follows(c, run, acts, k - 1);
    }
  }

  // ---- The error and the stamp of a record -----------------------------------------------------------------

  /** A record's error is set exactly if a list call for this record has failed: only a new record is free of it. */
  lemma {:induction false} FailedSinceMade(c: Config, run: seq<State>, acts: seq<Action>, k: nat, i: nat)
    requires Run(c, run, acts) && k < |run| && i < |run[k].records|
    ensures run[k].records[i].cache.failed <==> exists m | 0 <= m < k :: FailsAt(c, run, acts, m, i)
  {
    if k > 0 {
      assert Follows(c, run, acts, k - 1);
      RecordStep(c, run[k - 1], acts[k - 1], i);
      if i < |run[k - 1].records| {
        FailedSinceMade(c, run, acts, k - 1, i);
        var before := run[k - 1].records[i].cache.failed;
        assert before ==> exists m | 0 <= m < k :: FailsAt(c, run, acts, m, i);
        assert run[k].records[i].cache.failed == (before || FailsAt(c, run, acts, k - 1, i));
      } else {
        NothingBefore(c, run, acts, k, i);
      }
    }
  }

  // A record is not asked for before it is made.
  lemma NothingBefore(c: Config, run: seq<State>, acts: seq<Action>, k: nat, i: nat)
    requires Run(c, run, acts) && 0 < k < |run| && |run[k - 1].records| <= i
    ensures forall m | 0 <= m < k :: !FailsAt(c, run, acts, m, i) && !Lists(c, run, acts, m, i)
  {
    forall m | 0 <= m < k ensures !FailsAt(c, run, acts, m, i) && !Lists(c, run, acts, m, i) {
      assert Follows(c, run, acts, m);
      TimePasses(c, run, acts, m, k - 1);
    }
  }

  // Step l was the last before k in which the API gave the permissions of record i.
  ghost predicate LastListing(c: Config, run: seq<State>, acts: seq<Action>, k: nat, i: nat, l: nat, ps: seq<Permission>)
    requires Run(c, run, acts) && k < |run|
  {
    l < k && ListsAt(c, run, acts, l, i, ps) && forall m | l < m < k :: !Lists(c, run, acts, m, i)
  }

  // Step f was the last after l and before k in which a list call for record i failed.
  ghost predicate LastFailure(c: Config, run: seq<State>, acts: seq<Action>, k: nat, i: nat, l: nat, f: nat)
    requires Run(c, run, acts) && k < |run|
  {
    l < f < k && FailsAt(c, run, acts, f, i) && forall m | f < m < k :: !FailsAt(c, run, acts, m, i)
  }

  // No list call for record i failed between steps l and k.
  ghost predicate NoFailure(c: Config, run: seq<State>, acts: seq<Action>, k: nat, i: nat, l: nat)
    requires Run(c, run, acts) && k < |run|
  {
    forall m | l < m < k :: !FailsAt(c, run, acts, m, i)
  }

  // The stamp of record i's cache at k, which was last filled in step l.
  ghost predicate StampedBy(c: Config, run: seq<State>, acts: seq<Action>, k: nat, i: nat, l: nat, stamp: int)
    requires Run(c, run, acts) && k < |run| && l < |run|
  {
    && (NoFailure(c, run, acts, k, i, l) ==> stamp == run[l].clock)
    && (forall f: nat | LastFailure(c, run, acts, k, i, l, f) :: stamp == run[f].clock)
  }

  lemma NoFetchKeepsStamp(c: Config, run: seq<State>, acts: seq<Action>, k: nat, i: nat, l: nat, stamp: int)
    requires Run(c, run, acts) && l < k < |acts| && StampedBy(c, run, acts, k, i, l, stamp) && !FailsAt(c, run, acts, k, i)
    ensures StampedBy(c, run, acts, k + 1, i, l, stamp)
  {
    if NoFailure(c, run, acts, k + 1, i, l) {
      assert NoFailure(c, run, acts, k, i, l);
    }
    forall f: nat | LastFailure(c, run, acts, k + 1, i, l, f) ensures stamp == run[f].clock {
      assert f < k && LastFailure(c, run, acts, k, i, l, f);
    }
  }

  lemma FailureStamps(c: Config, run: seq<State>, acts: seq<Action>, k: nat, i: nat, l: nat)
    requires Run(c, run, acts) && l < k < |acts| && FailsAt(c, run, acts, k, i)
    ensures StampedBy(c, run, acts, k + 1, i, l, run[k].clock)
  {
    forall f: nat | LastFailure(c, run, acts, k + 1, i, l, f) ensures run[f].clock == run[k].clock {
      assert f >= k;
    }
  }

  // What is in the cache of record i, and when and how it came there.
  ghost predicate FilledBy(c: Config, run: seq<State>, acts: seq<Action>, k: nat, i: nat, l: nat)
    requires Run(c, run, acts) && k < |run|
  {
    && i < |run[k].records| && l < |run| && LastListing(c, run, acts, k, i, l, run[k].records[i].cache.permissions)
    && run[k].records[i].begun <= run[l].clock && run[k].records[i].cache.fetchedAt == run[l].clock
    && StampedBy(c, run, acts, k, i, l, run[k].records[i].cache.updatedAt)
  }

  lemma ListingFills(c: Config, run: seq<State>, acts: seq<Action>, k: nat, i: nat)
    requires Run(c, run, acts) && k < |acts| && Lists(c, run, acts, k, i)
    ensures FilledBy(c, run, acts, k + 1, i, k)
  {
    assert Follows(c, run, acts, k);
    var ps :| ListsAt(c, run, acts, k, i, ps);
    RecordStep(c, run[k], acts[k], i);
    BegunBefore(c, run, acts, k, i);
    assert ListsAt(c, run, acts, k, i, run[k + 1].records[i].cache.permissions);
  }

  lemma StillFilled(c: Config, run: seq<State>, acts: seq<Action>, k: nat, i: nat, l: nat)
    requires Run(c, run, acts) && k < |acts| && FilledBy(c, run, acts, k, i, l) && !Lists(c, run, acts, k, i)
    ensures FilledBy(c, run, acts, k + 1, i, l)
  {
    assert Follows(c, run, acts, k);
    RecordStep(c, run[k], acts[k], i);
    var asked := Asked(c, run[k], acts[k], i);
    assert asked.Some? && asked.value.Listed? ==> ListsAt(c, run, acts, k, i, asked.value.ps);
    if FailsAt(c, run, acts, k, i) {
      FailureStamps(c, run, acts, k, i, l);
    } else {
      NoFetchKeepsStamp(c, run, acts, k, i, l, run[k].records[i].cache.updatedAt);
    }
  }

  // Permissions that this step did not list were there before.
  lemma NotListed(c: Config, run: seq<State>, acts: seq<Action>, k: nat, i: nat)
    requires Run(c, run, acts) && k < |acts| && !Lists(c, run, acts, k, i)
    requires i < |run[k + 1].records| && run[k + 1].records[i].cache.permissions != []
    ensures i < |run[k].records| && run[k].records[i].cache.permissions != []
  {
    assert Follows(c, run, acts, k);
    RecordStep(c, run[k], acts[k], i);
    var asked := Asked(c, run[k], acts[k], i);
    assert asked.Some? && asked.value.Listed? ==> ListsAt(c, run, acts, k, i, asked.value.ps);
  }

  /**
   Permissions in a record come from the last listing for this record, made since the record was begun; the stamp is
   that of the listing or of the last failure since.
  */
  lemma {:induction false} Stamped(c: Config, run: seq<State>, acts: seq<Action>, k: nat, i: nat) returns (l: nat)
    requires Run(c, run, acts) && k < |run| && i < |run[k].records| && run[k].records[i].cache.permissions != []
    ensures FilledBy(c, run, acts, k, i, l)
  {
    if Lists(c, run, acts, k - 1, i) {
      ListingFills(c, run, acts, k - 1, i);
      l := k - 1;
    } else {
      NotListed(c, run, acts, k - 1, i);
      l := Stamped(c, run, acts, k - 1, i);
      StillFilled(c, run, acts, k - 1, i, l);
    }
  }

  lemma {:induction false} BegunBefore(c: Config, run: seq<State>, acts: seq<Action>, k: nat, i: nat)
    requires Run(c, run, acts) && k < |run| && i < |run[k].records|
    ensures run[k].records[i].begun <= run[k].clock
  {
    assert k > 0;
    assert Follows(c, run, acts, k - 1);
    RecordStep(c, run[k - 1], acts[k - 1], i);
    if i < |run[k - 1].records| {
      BegunBefore(c, run, acts, k - 1, i);
    }
  }

  lemma {:induction false} LastFailureExists(c: Config, run: seq<State>, acts: seq<Action>, k: nat, i: nat, l: nat) returns (f: nat)
    requires Run(c, run, acts) && l < k < |run| && !NoFailure(c, run, acts, k, i, l)
    ensures LastFailure(c, run, acts, k, i, l, f)
  {
    if FailsAt(c, run, acts, k - 1, i) {
      f := k - 1;
    } else {
      f := LastFailureExists(c, run, acts, k - 1, i, l);
    }
  }

  /** A record's permissions are never stamped before they were read, nor after the present. */
  lemma StampAfterFetch(c: Config, run: seq<State>, acts: seq<Action>, k: nat, i: nat)
    requires Run(c, run, acts) && k < |run| && i < |run[k].records| && run[k].records[i].cache.permissions != []
    ensures var r := run[k].records[i]; r.begun <= r.cache.fetchedAt <= r.cache.updatedAt <= run[k].clock
  {
    var l := Stamped(c, run, acts, k, i);
    TimePasses(c, run, acts, l, k);
    if !NoFailure(c, run, acts, k, i, l) {
      var f := LastFailureExists(c, run, acts, k, i, l);
      TimePasses(c, run, acts, l, f);
      TimePasses(c, run, acts, f, k);
    }
  }

  // ---- Stale answers ---------------------------------------------------------------------------------------

  /** Step k is a use of h's record that goes on to its permissions, and there are some. */
  ghost predicate AnswersAt(c: Config, run: seq<State>, acts: seq<Action>, k: nat, h: Handed)
    requires Run(c, run, acts) && k < |acts|
  {
    assert Follows(c, run, acts, k);
    && acts[k].UseRecord? && acts[k].h == h
    && Answers(c.ttl, run[k].records[h.i].cache, run[k].clock, acts[k].fetch)
    && run[k + 1].records[h.i].cache.permissions != []
  }

  /**
   An answer rests on the last listing l for its record, and that is younger than the time-to-live in force, unless
   a list call for this record has failed since l and l is at least the error time-to-live old. That is the exact
   condition, and then the answer is within the error time-to-live of the last such failure.
  */
  lemma StaleIff(c: Config, run: seq<State>, acts: seq<Action>, k: nat, h: Handed) returns (l: nat)
    requires Run(c, run, acts) && k < |acts| && AnswersAt(c, run, acts, k, h)
    ensures FilledBy(c, run, acts, k + 1, h.i, l)
    ensures var now, read, t := run[k].clock, run[l].clock, Ttl(c.ttl, run[k + 1].records[h.i].cache);
      now > read && now >= read + t <==> !NoFailure(c, run, acts, k + 1, h.i, l) && now >= read + ERROR_TTL
    ensures forall f: nat | LastFailure(c, run, acts, k + 1, h.i, l, f) :: run[k].clock < run[f].clock + ERROR_TTL
  {
    assert Follows(c, run, acts, k);
    l := Stamped(c, run, acts, k + 1, h.i);
    TimePasses(c, run, acts, l, k);
    FailedSinceMade(c, run, acts, k + 1, h.i);
    if !NoFailure(c, run, acts, k + 1, h.i, l) {
      var f := LastFailureExists(c, run, acts, k + 1, h.i, l);
    }
  }

  /** The same as a guard on the record before the use: a stale answer is one from a stamp later than the fetch. */
  lemma StaleIffRestamped(c: Config, run: seq<State>, acts: seq<Action>, k: nat, i: nat)
    requires Run(c, run, acts) && k < |run| && i < |run[k].records|
    requires !NeedsFetch(c.ttl, run[k].records[i].cache, run[k].clock)
    ensures var s, now := run[k].records[i].cache, run[k].clock;
      now >= s.fetchedAt + Ttl(c.ttl, s) <==> s.failed && s.fetchedAt < s.updatedAt && now >= s.fetchedAt + ERROR_TTL
  {
    var l := Stamped(c, run, acts, k, i);
    StampAfterFetch(c, run, acts, k, i);
    FailedSinceMade(c, run, acts, k, i);
    if !NoFailure(c, run, acts, k, i, l) {
      var f := LastFailureExists(c, run, acts, k, i, l);
    }
  }

  /** While no list call for a record fails, its answers are no older than the configured time-to-live. */
  lemma FreshWithoutFailure(c: Config, run: seq<State>, acts: seq<Action>, k: nat, h: Handed) returns (l: nat)
    requires Run(c, run, acts) && k < |acts| && AnswersAt(c, run, acts, k, h)
    requires forall m | 0 <= m <= k :: !FailsAt(c, run, acts, m, h.i)
    ensures FilledBy(c, run, acts, k + 1, h.i, l)
    ensures run[k].clock == run[l].clock || run[k].clock < run[l].clock + c.ttl
  {
    l := StaleIff(c, run, acts, k, h);
    FailedSinceMade(c, run, acts, k + 1, h.i);
    TimePasses(c, run, acts, l, k);
  }

  /**
   Every failed list opens the window of its record again: whatever the age of the permissions, a use after the
   failure answers from them without asking exactly until the error time-to-live is over.
  */
  lemma FailureReopens(s: Cache, ttl: int, failedAt: int, now: int)
    requires s.permissions != []
    ensures var t := AfterFetch(s, failedAt, ListFailed);
      t.permissions == s.permissions && (!NeedsFetch(ttl, t, now) <==> now < failedAt + 10000)
  {
  }

  // ---- The record bounds the age ---------------------------------------------------------------------------

  ghost predicate StampsOk(s: State, r: Record) {
    r.begun <= s.clock && (r.complete ==> r.firstStamp.Some?) && (r.firstStamp.Some? ==> r.begun <= r.firstStamp.value <= s.clock)
  }

  // A request holds a record that it made itself, or one that was valid when it looked.
  ghost predicate HandedOk(c: Config, s: State, h: Handed) {
    && h.i < |s.records| && h.at <= s.clock
    && (s.building ==> h.i < |s.records| - 1)
    && (s.records[h.i].begun == h.at || Valid(c, s.records[h.i], h.at))
  }

  ghost predicate Inv(c: Config, s: State) {
    && (forall i | 0 <= i < |s.records| :: StampsOk(s, s.records[i]))
    && (forall h | h in s.handed :: HandedOk(c, s, h))
    && (s.building ==> s.records != [] && !Last(s).complete)
  }

  lemma StepKeeps(c: Config, s: State, a: Action)
    requires Inv(c, s) && Enabled(s, a)
    ensures Inv(c, Apply(c, s, a))
  {
    var t := Apply(c, s, a);
    forall i | 0 <= i < |t.records| ensures StampsOk(t, t.records[i]) {
      assert i < |s.records| ==> StampsOk(s, s.records[i]);
    }
    forall h | h in t.handed ensures HandedOk(c, t, h) {
      assert h in s.handed ==> HandedOk(c, s, h);
    }
  }

  lemma {:induction false} RunKeeps(c: Config, run: seq<State>, acts: seq<Action>, k: nat)
    requires Run(c, run, acts) && k < |run|
    ensures Inv(c, run[k])
  {
    if k > 0 {
      RunKeeps(c, run, acts, k - 1);
      assert Follows(c, run, acts, k - 1);
      StepKeeps(c, run[k - 1], acts[k - 1]);
    }
  }

  /**
   Every answer rests on permissions read for the record in use. A request that made the record answers from
   permissions read since it looked; any other from permissions younger than the record's time-to-live, the time the
   record took to its first stamp, and the time since the request looked, together.
  */
  lemma AnswerAge(c: Config, run: seq<State>, acts: seq<Action>, k: nat, h: Handed)
    requires Run(c, run, acts) && k < |acts| && AnswersAt(c, run, acts, k, h)
    ensures h.i < |run[k + 1].records|
    ensures var r := run[k + 1].records[h.i]; var age := run[k].clock - r.cache.fetchedAt;
      && r.begun <= r.cache.fetchedAt
      && if h.at == r.begun then age <= run[k].clock - h.at
         else r.firstStamp.Some? && age < c.recordTtl + (r.firstStamp.value - r.begun) + (run[k].clock - h.at)
  {
    assert Follows(c, run, acts, k);
    RunKeeps(c, run, acts, k + 1);
    StampAfterFetch(c, run, acts, k + 1, h.i);
    assert HandedOk(c, run[k + 1], h);
  }

  // ---- Every age below the bound occurs --------------------------------------------------------------------

  ghost predicate Goes(c: Config, s: State, a: Action, t: State) {
    Enabled(s, a) && Apply(c, s, a) == t
  }

  // One more step of the run, which ends in t.
  lemma Step(c: Config, run: seq<State>, acts: seq<Action>, a: Action, t: State) returns (r: seq<State>, b: seq<Action>)
    requires Run(c, run, acts) && Goes(c, run[|run| - 1], a, t)
    ensures Run(c, r, b) && r == run + [t] && b == acts + [a]
  {
    r, b := run + [t], acts + [a];
    forall k | 0 <= k < |b| ensures Follows(c, r, b, k) {
      if k < |acts| {
        assert Follows(c, run, acts, k);
      }
    }
  }

  lemma {:induction false} Wait(c: Config, run: seq<State>, acts: seq<Action>, n: nat) returns (r: seq<State>, b: seq<Action>)
    requires Run(c, run, acts)
    ensures Run(c, r, b) && r[|r| - 1] == run[|run| - 1].(clock := run[|run| - 1].clock + n)
  {
    r, b := run, acts;
    if n > 0 {
      r, b := Wait(c, run, acts, n - 1);
      r, b := Step(c, r, b, Advance, run[|run| - 1].(clock := run[|run| - 1].clock + n));
    }
  }

  // The only record, begun at 0 with permissions ps.
  ghost function Built(ps: seq<Permission>, stamp: Option<int>, complete: bool): Record {
    Record(0, stamp, complete, true, Cache(ps, false, 0, 0))
  }

  lemma Builds(c: Config, ps: seq<Permission>, build: nat) returns (run: seq<State>, acts: seq<Action>)
    ensures Run(c, run, acts)
    ensures run[|run| - 1] == State(build, [Built(ps, Some(build), true)], false, {Handed(0, 0)})
  {
    var begun := Record(0, None, false, false, EMPTY);
    run, acts := [State(0, [], false, {})], [];
    run, acts := Step(c, run, acts, Look, State(0, [begun], true, {}));
    run, acts := Step(c, run, acts, BuildAsk(Listed(ps)), State(0, [Built(ps, None, false)], true, {}));
    run, acts := Wait(c, run, acts, build);
    run, acts := Step(c, run, acts, FirstStamp, State(build, [Built(ps, Some(build), false)], true, {}));
    run, acts := Step(c, run, acts, Finish(true, true), State(build, [Built(ps, Some(build), true)], false, {Handed(0, 0)}));
  }

  lemma Looks(c: Config, ps: seq<Permission>, build: nat, look: nat, hold: nat) returns (run: seq<State>, acts: seq<Action>)
    requires build <= look < build + c.recordTtl
    ensures Run(c, run, acts)
    ensures run[|run| - 1] == State(look + hold, [Built(ps, Some(build), true)], false, {Handed(0, 0), Handed(0, look)})
  {
    var rs := [Built(ps, Some(build), true)];
    run, acts := Builds(c, ps, build);
    run, acts := Wait(c, run, acts, look - build);
    assert {Handed(0, 0)} + {Handed(0, look)} == {Handed(0, 0), Handed(0, look)};
    run, acts := Step(c, run, acts, Look, State(look, rs, false, {Handed(0, 0), Handed(0, look)}));
    run, acts := Wait(c, run, acts, hold);
  }

  /**
   Every age that AnswerAge admits occurs: for any time to build the record, any time before its end at which a
   request looks, and any time since, a run answers from permissions of that age, whatever the configured
   time-to-live, after a list call that failed if they are past it.
  */
  lemma AgeIsReached(c: Config, ps: seq<Permission>, build: nat, look: nat, hold: nat)
    returns (run: seq<State>, acts: seq<Action>, k: nat)
    requires ps != [] && build <= look < build + c.recordTtl
    ensures Run(c, run, acts) && k < |acts| && AnswersAt(c, run, acts, k, Handed(0, look)) && |run[k + 1].records| == 1
    ensures var r := run[k + 1].records[0];
      && r.begun == 0 && r.firstStamp == Some(build) && r.cache.permissions == ps
      && run[k].clock - r.cache.fetchedAt == look + hold
      && (look + hold >= c.ttl ==> r.cache.failed && r.cache.updatedAt == look + hold)
  {
    var h, now := Handed(0, look), look + hold;
    var before := Built(ps, Some(build), true);
    var after := before.(cache := AfterUse(c.ttl, before.cache, now, ListFailed));
    var handed := {Handed(0, 0), h};
    run, acts := Looks(c, ps, build, look, hold);
    run, acts := Step(c, run, acts, UseRecord(h, ListFailed), State(now, [after], false, handed));
    k := |acts|;
    run, acts := Step(c, run, acts, UseRecord(h, ConvertFailed), State(now, [after], false, handed));
    assert acts[k] == UseRecord(h, ConvertFailed) && run[k].records == [after] && run[k + 1].records == [after];
  }
}

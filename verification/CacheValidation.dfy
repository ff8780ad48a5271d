/**
 Keeping the users' managed clusters in step with the shared list (pkg/rbac/cacheValidation.go): the
 deletion of a cluster takes two stages under two locks, while reviews read the shared list and write to
 the users' records.
*/
module CacheValidation {
  import opened Prelude

  // ---- The handlers, one at a time ---------------------------------------------------------------------------

  // What a handler touches of a user: the namespaces with an entry, and the managed clusters.
  datatype User = User(namespaces: set<string>, managedClusters: set<string>)

  class Cache {
    var namespaces: seq<string>
    var managedClusters: set<string>
    var disabledClusters: set<string>
    var users: map<string, User>
    var nsUpdatedAt: int
    var mcUpdatedAt: int
    var dcUpdatedAt: int

    constructor (namespaces: seq<string>, managedClusters: set<string>, disabledClusters: set<string>, users: map<string, User>)
      ensures this.namespaces == namespaces && this.managedClusters == managedClusters
      ensures this.disabledClusters == disabledClusters && this.users == users
    {
      this.namespaces, this.managedClusters, this.disabledClusters, this.users := namespaces, managedClusters, disabledClusters, users;
      nsUpdatedAt, mcUpdatedAt, dcUpdatedAt := 0, 0, 0;
    }

    /** Every user's managed clusters are shared ones, or the star. */
    ghost predicate WithinShared()
      reads this
    {
      forall u | u in users :: users[u].managedClusters <= managedClusters + {"*"}
    }

    // getSSRRforNamespace for every user: `grants` says whose rules grant something in the namespace, `permits`
    // whose rules make it a managed cluster if the shared list knows it.
    method ReviewUsers(name: string, grants: set<string>, permits: set<string>)
      modifies this`users
      ensures users == map u | u in old(users) :: Reviewed(old(users)[u], name, u in grants, u in permits, managedClusters)
    {
      var rest := users.Keys;
      while rest != {}
        invariant rest <= users.Keys && users.Keys == old(users).Keys
        invariant forall u | u in users :: users[u] ==
                    if u in rest then old(users)[u] else Reviewed(old(users)[u], name, u in grants, u in permits, managedClusters)
      {
        var u :| u in rest;
        var user := users[u];
        if u in grants {
          user := user.(namespaces := user.namespaces + {name});
        }
        if u in permits && name in managedClusters {
          user := user.(managedClusters := user.managedClusters + {name});
        }
        users := users[u := user];
        rest := rest - {u};
      }
    }

    method NamespaceAdded(name: string, grants: set<string>, permits: set<string>, now: int)
      modifies this
      ensures namespaces == old(namespaces) + [name] && nsUpdatedAt == now
      ensures users == map u | u in old(users) :: Reviewed(old(users)[u], name, u in grants, u in permits, managedClusters)
      ensures managedClusters == old(managedClusters) && disabledClusters == old(disabledClusters)
      ensures mcUpdatedAt == old(mcUpdatedAt) && dcUpdatedAt == old(dcUpdatedAt)
      ensures old(WithinShared()) ==> WithinShared()
      ensures forall u, c | u in users && c in users[u].managedClusters && c !in old(users)[u].managedClusters ::
                c == name && u in permits && name in managedClusters
      ensures forall u | u in users && u in permits && name in managedClusters :: name in users[u].managedClusters
      ensures forall u | u in users :: old(users)[u].managedClusters <= users[u].managedClusters
      ensures forall u, n | u in users :: n in users[u].namespaces <==> n in old(users)[u].namespaces || (n == name && u in grants)
    {
      namespaces := namespaces + [name];
      nsUpdatedAt := now;
      ReviewUsers(name, grants, permits);
    }

    method NamespaceDeleted(name: string, now: int)
      modifies this
      ensures namespaces == Without(old(namespaces), name) && nsUpdatedAt == now
      ensures users == map u | u in old(users) ::
                User(old(users)[u].namespaces - {name}, old(users)[u].managedClusters - {name})
      ensures managedClusters == old(managedClusters) && disabledClusters == old(disabledClusters)
      ensures mcUpdatedAt == old(mcUpdatedAt) && dcUpdatedAt == old(dcUpdatedAt)
      ensures old(WithinShared()) ==> WithinShared()
    {
      var newNamespaces := RemoveAll(namespaces, name);
      namespaces := newNamespaces;
      nsUpdatedAt := now;
      var rest := users.Keys;
      while rest != {}
        invariant rest <= users.Keys && users.Keys == old(users).Keys
        invariant forall u | u in users :: users[u] ==
                    if u in rest then old(users)[u]
                    else User(old(users)[u].namespaces - {name}, old(users)[u].managedClusters - {name})
        invariant namespaces == newNamespaces && nsUpdatedAt == now
        invariant managedClusters == old(managedClusters) && disabledClusters == old(disabledClusters)
        invariant mcUpdatedAt == old(mcUpdatedAt) && dcUpdatedAt == old(dcUpdatedAt)
      {
        var u :| u in rest;
        users := users[u := User(users[u].namespaces - {name}, users[u].managedClusters - {name})];
        rest := rest - {u};
      }
    }

    method ManagedClusterAdded(name: string, grants: set<string>, permits: set<string>, now: int)
      modifies this
      ensures managedClusters == old(managedClusters) + {name} && mcUpdatedAt == now
      ensures users == map u | u in old(users) :: Reviewed(old(users)[u], name, u in grants, u in permits, managedClusters)
      ensures forall u | u in users && u in permits :: name in users[u].managedClusters
      ensures forall u, c | u in users && c in users[u].managedClusters && c !in old(users)[u].managedClusters ::
                c == name && u in permits
      ensures old(WithinShared()) ==> WithinShared()
      ensures namespaces == old(namespaces) && disabledClusters == old(disabledClusters)
      ensures nsUpdatedAt == old(nsUpdatedAt) && dcUpdatedAt == old(dcUpdatedAt)
    {
      managedClusters := managedClusters + {name};
      mcUpdatedAt := now;
      ReviewUsers(name, grants, permits);
    }

    method ManagedClusterDeleted(name: string, now: int)
      modifies this
      ensures managedClusters == old(managedClusters) - {name} && disabledClusters == old(disabledClusters) - {name}
      ensures users == map u | u in old(users) :: User(old(users)[u].namespaces, old(users)[u].managedClusters - {name})
      ensures mcUpdatedAt == now && dcUpdatedAt == now
      ensures old(WithinShared()) ==> WithinShared()
      ensures namespaces == old(namespaces) && nsUpdatedAt == old(nsUpdatedAt)
    {
      managedClusters := managedClusters - {name};
      mcUpdatedAt := now;
      var rest := users.Keys;
      while rest != {}
        invariant rest <= users.Keys && users.Keys == old(users).Keys
        invariant forall u | u in users :: users[u] ==
                    if u in rest then old(users)[u] else User(old(users)[u].namespaces, old(users)[u].managedClusters - {name})
        invariant managedClusters == old(managedClusters) - {name} && disabledClusters == old(disabledClusters)
        invariant mcUpdatedAt == now && namespaces == old(namespaces) && nsUpdatedAt == old(nsUpdatedAt)
      {
        var u :| u in rest;
        users := users[u := User(users[u].namespaces, users[u].managedClusters - {name})];
        rest := rest - {u};
      }
      disabledClusters := disabledClusters - {name};
      dcUpdatedAt := now;
    }
  }

  function Reviewed(user: User, name: string, grants: bool, permits: bool, known: set<string>): User {
    User(user.namespaces + (if grants then {name} else {}),
         user.managedClusters + if permits && name in known then {name} else {})
  }

  function Without(s: seq<string>, x: string): seq<string> {
    if s == [] then [] else Without(s[..|s| - 1], x) + if s[|s| - 1] != x then [s[|s| - 1]] else []
  }

  /** The deleted name is gone, and the others keep their number and order: it distributes over concatenation. */
  lemma {:induction false} WithoutMeans(s: seq<string>, t: seq<string>, x: string)
    ensures x !in Without(s, x) && (x !in s ==> Without(s, x) == s)
    ensures Without(s + t, x) == Without(s, x) + Without(t, x)
    ensures Without([x], x) == [] && forall y | y != x :: Without([y], x) == [y]
  {
    WithoutAppends(s, t, x);
    WithoutDrops(s, x);
    assert Without([], x) == [];
    forall y: string ensures [y][..0] == [] {
    }
  }

  lemma {:induction false} WithoutAppends(s: seq<string>, t: seq<string>, x: string)
    ensures Without(s + t, x) == Without(s, x) + Without(t, x)
  {
    if t == [] {
      assert s + t == s;
    } else {
      assert (s + t)[..|s + t| - 1] == s + t[..|t| - 1];
      WithoutAppends(s, t[..|t| - 1], x);
    }
  }

  lemma {:induction false} WithoutDrops(s: seq<string>, x: string)
    ensures x !in Without(s, x) && (x !in s ==> Without(s, x) == s)
  {
    if s != [] {
      WithoutDrops(s[..|s| - 1], x);
      assert s == s[..|s| - 1] + [s[|s| - 1]];
    }
  }

  method RemoveAll(s: seq<string>, x: string) returns (r: seq<string>)
    ensures r == Without(s, x)
  {
    r := [];
    for i := 0 to |s|
      invariant r == Without(s[..i], x)
    {
      assert s[..i + 1][..i] == s[..i];
      if s[i] != x {
        r := r + [s[i]];
      }
    }
    assert s[..|s|] == s;
  }

  // ---- The handlers, interleaved -----------------------------------------------------------------------------

  // Where a thread is. `Deleting` has removed the cluster from the shared list; `Purging` then holds usersLock
  // and removes it user by user; `Processing` holds usersLock and runs reviews, whose pending writes are those
  // that have found their cluster in the shared list.
  datatype Phase =
    | Idle
    | Deleting(cluster: string)
    | Purging(cluster: string, done: set<string>)
    | Processing(pending: set<(string, string)>)

  datatype State = State(shared: set<string>, users: map<string, set<string>>, lock: Option<nat>, threads: map<nat, Phase>)

  datatype Action =
    | AddShared(cluster: string)                       // managedClusterAdded, first stage
    | DeleteShared(t: nat, cluster: string)            // managedClusterDeleted, first stage
    | LockToPurge(t: nat)
    | Purge(t: nat, user: string)
    | FinishPurge(t: nat)
    | LockToProcess(t: nat)
    | NewUser(t: nat, user: string)                    // GetUserDataCache replaces the record
    | AllAccess(t: nat, user: string)                  // userHasAllAccess
    | Look(t: nat, user: string, cluster: string)      // updateUserManagedClusterList reads the shared list
    | Write(t: nat, user: string, cluster: string)     // and then writes the user's record
    | Drop(t: nat, user: string, cluster: string)      // namespaceDeleted
    | FinishProcess(t: nat)

  function PhaseOf(s: State, t: nat): Phase {
    if t in s.threads then s.threads[t] else Idle
  }

  // With `guarded`, rule processing runs under usersLock, as in the source; without, it does not.
  predicate Enabled(s: State, guarded: bool, a: Action) {
    match a
    case AddShared(_) => true
    case DeleteShared(t, _) => PhaseOf(s, t).Idle?
    case LockToPurge(t) => PhaseOf(s, t).Deleting? && s.lock.None?
    case Purge(t, u) => PhaseOf(s, t).Purging? && u in s.users
    case FinishPurge(t) => PhaseOf(s, t).Purging? && s.users.Keys <= s.threads[t].done
    case LockToProcess(t) => PhaseOf(s, t).Idle? && (guarded ==> s.lock.None?)
    case NewUser(t, _) => PhaseOf(s, t).Processing?
    case AllAccess(t, u) => PhaseOf(s, t).Processing? && u in s.users
    case Look(t, u, _) => PhaseOf(s, t).Processing? && u in s.users
    case Write(t, u, c) => PhaseOf(s, t).Processing? && u in s.users && (u, c) in s.threads[t].pending
    case Drop(t, u, _) => PhaseOf(s, t).Processing? && u in s.users
    case FinishProcess(t) => PhaseOf(s, t).Processing? && s.threads[t].pending == {}
  }

  function Apply(s: State, guarded: bool, a: Action): State
    requires Enabled(s, guarded, a)
  {
    match a
    case AddShared(c) => s.(shared := s.shared + {c})
    case DeleteShared(t, c) => s.(shared := s.shared - {c}, threads := s.threads[t := Deleting(c)])
    case LockToPurge(t) => s.(lock := Some(t), threads := s.threads[t := Purging(s.threads[t].cluster, {})])
    case Purge(t, u) =>
      var p := s.threads[t];
      s.(users := s.users[u := s.users[u] - {p.cluster}], threads := s.threads[t := Purging(p.cluster, p.done + {u})])
    case FinishPurge(t) => s.(lock := None, threads := s.threads[t := Idle])
    case LockToProcess(t) => s.(lock := if guarded then Some(t) else s.lock, threads := s.threads[t := Processing({})])
    case NewUser(t, u) => s.(users := s.users[u := {}])
    case AllAccess(t, u) => s.(users := s.users[u := {"*"}])
    case Look(t, u, c) =>
      if c in s.shared then s.(threads := s.threads[t := Processing(s.threads[t].pending + {(u, c)})]) else s
    case Write(t, u, c) =>
      s.(users := s.users[u := s.users[u] + {c}], threads := s.threads[t := Processing(s.threads[t].pending - {(u, c)})])
    case Drop(t, u, c) => s.(users := s.users[u := s.users[u] - {c}])
    case FinishProcess(t) => s.(lock := if guarded then None else s.lock, threads := s.threads[t := Idle])
  }

  /** A review of one user: a shared cluster ends up with the user and nowhere else, an unknown one does not. */
  lemma ReviewGives(s: State, t: nat, u: string, c: string)
    requires PhaseOf(s, t).Processing? && u in s.users && (u, c) !in s.threads[t].pending
    ensures c !in s.shared ==> Apply(s, true, Look(t, u, c)) == s
    ensures c in s.shared ==>
      var looked := Apply(s, true, Look(t, u, c));
      && Enabled(looked, true, Write(t, u, c))
      && Apply(looked, true, Write(t, u, c)) == s.(users := s.users[u := s.users[u] + {c}])
  {
    if c in s.shared {
      var pending := s.threads[t].pending;
      assert pending + {(u, c)} - {(u, c)} == pending;
      assert s.threads[t := Processing(pending)] == s.threads;
    }
  }

  /** A deletion reaches every user: when its lock is released no user holds the cluster, unless it is shared again. */
  lemma PurgeReachesAll(s: State, t: nat, c: string, u: string)
    requires Inv(s) && Enabled(s, true, FinishPurge(t)) && s.threads[t].cluster == c && u in s.users && c != "*"
    requires c !in s.shared && forall t' | t' != t :: !Deletes(PhaseOf(s, t'), c)
    ensures c !in Apply(s, true, FinishPurge(t)).users[u]
  {
    var s' := Apply(s, true, FinishPurge(t));
    UsersStayOk(s, FinishPurge(t), u);
    forall t' ensures !Deletes(PhaseOf(s', t'), c) {
      if t' != t {
        OthersKeepPhase(s, true, FinishPurge(t), t');
      }
    }
    assert !Accounted(s', c);
  }

  /** A user with access to everything ends up with the star alone, and a new record with nothing. */
  lemma RecordStarts(s: State, t: nat, u: string)
    requires PhaseOf(s, t).Processing?
    ensures Apply(s, true, NewUser(t, u)).users == s.users[u := {}]
    ensures u in s.users ==> Enabled(s, true, AllAccess(t, u)) && Apply(s, true, AllAccess(t, u)).users == s.users[u := {"*"}]
    ensures u in s.users ==> forall c :: Enabled(s, true, Drop(t, u, c))
  {
  }

  /** Dropping a deleted namespace takes it from the user, and leaves the user's other clusters. */
  lemma DropTakes(s: State, t: nat, u: string, c: string)
    requires Enabled(s, true, Drop(t, u, c))
    ensures forall d :: d in Apply(s, true, Drop(t, u, c)).users[u] <==> d in s.users[u] && d != c
  {
  }

  ghost predicate Run(run: seq<State>, actions: seq<Action>, guarded: bool) {
    && |run| == |actions| + 1
    && Initial(run[0])
    && forall k | 0 <= k < |actions| :: Step(run, actions, guarded, k)
  }

  ghost predicate Step(run: seq<State>, actions: seq<Action>, guarded: bool, k: nat)
    requires |run| == |actions| + 1 && k < |actions|
  {
    Next(run[k], guarded, actions[k], run[k + 1])
  }

  ghost predicate Next(s: State, guarded: bool, a: Action, s': State) {
    Enabled(s, guarded, a) && s' == Apply(s, guarded, a)
  }

  /** A refresh of the shared list is over: no users, or only users within it, and no thread under way. */
  ghost predicate Initial(s: State) {
    && s.lock.None? && s.threads == map[]
    && forall u, c | u in s.users && c in s.users[u] :: c == "*" || c in s.shared
  }

  // ---- The invariant -----------------------------------------------------------------------------------------

  /** The thread has taken the cluster off the shared list and has not yet finished with the users. */
  predicate Deletes(p: Phase, c: string) {
    (p.Deleting? || p.Purging?) && p.cluster == c
  }

  ghost predicate MidDeletion(s: State, c: string) {
    exists t :: Deletes(PhaseOf(s, t), c)
  }

  ghost predicate Accounted(s: State, c: string) {
    c in s.shared || MidDeletion(s, c)
  }

  predicate Holds(p: Phase) {
    p.Purging? || p.Processing?
  }

  ghost predicate ThreadOk(s: State, t: nat) {
    var p := PhaseOf(s, t);
    && (Holds(p) <==> s.lock == Some(t))
    && (p.Processing? ==> forall e | e in p.pending :: Accounted(s, e.1))
    && (p.Purging? ==> forall u | u in p.done && u in s.users :: p.cluster !in s.users[u])
  }

  ghost predicate UserOk(s: State, u: string)
    requires u in s.users
  {
    forall c | c in s.users[u] :: c == "*" || Accounted(s, c)
  }

  ghost predicate Inv(s: State) {
    (forall t :: ThreadOk(s, t)) && (forall u | u in s.users :: UserOk(s, u))
  }

  // A step changes the phase of at most one thread, and what it accounts for.
  lemma OthersKeepPhase(s: State, guarded: bool, a: Action, t: nat)
    requires Enabled(s, guarded, a) && (a.AddShared? || a.t != t)
    ensures PhaseOf(Apply(s, guarded, a), t) == PhaseOf(s, t)
  {
  }

  lemma StaysAccounted(s: State, a: Action, c: string)
    requires Inv(s) && Enabled(s, true, a) && Accounted(s, c)
    requires a.FinishPurge? ==> s.threads[a.t].cluster != c
    ensures Accounted(Apply(s, true, a), c)
  {
    var s' := Apply(s, true, a);
    if c in s.shared {
      if a.DeleteShared? && a.cluster == c {
        assert Deletes(PhaseOf(s', a.t), c);
      }
    } else {
      var t :| Deletes(PhaseOf(s, t), c);
      if a.AddShared? || a.t != t {
        OthersKeepPhase(s, true, a, t);
      }
      assert Deletes(PhaseOf(s', t), c);
    }
  }

  // The users step of the invariant.
  lemma UsersStayOk(s: State, a: Action, u: string)
    requires Inv(s) && Enabled(s, true, a) && u in Apply(s, true, a).users
    ensures UserOk(Apply(s, true, a), u)
  {
    var s' := Apply(s, true, a);
    forall c | c in s'.users[u] && c != "*" ensures Accounted(s', c) {
      assert ThreadOk(s, if a.AddShared? then 0 else a.t);
      if u in s.users && c in s.users[u] {
        assert UserOk(s, u);
        if a.FinishPurge? {
          assert u in s.threads[a.t].done;
        }
        StaysAccounted(s, a, c);
      } else {
        assert a.Write? && (u, c) in s.threads[a.t].pending;
        assert Accounted(s, (u, c).1);
        StaysAccounted(s, a, c);
      }
    }
  }

  // The threads step of the invariant, for the thread that moves.
  lemma MoverStaysOk(s: State, a: Action)
    requires Inv(s) && Enabled(s, true, a) && !a.AddShared?
    ensures ThreadOk(Apply(s, true, a), a.t)
  {
    var s' := Apply(s, true, a);
    var p, p' := PhaseOf(s, a.t), PhaseOf(s', a.t);
    assert ThreadOk(s, a.t);
    if p'.Processing? {
      forall e | e in p'.pending ensures Accounted(s', e.1) {
        assert p.Processing?;
        assert e in p.pending || (a.Look? && e == (a.user, a.cluster) && a.cluster in s.shared);
        StaysAccounted(s, a, e.1);
      }
    }
  }

  // And for a thread that does not: only the holder writes to the users.
  lemma OtherStaysOk(s: State, a: Action, t: nat)
    requires Inv(s) && Enabled(s, true, a) && (a.AddShared? || a.t != t)
    ensures ThreadOk(Apply(s, true, a), t)
  {
    var s' := Apply(s, true, a);
    var p := PhaseOf(s, t);
    OthersKeepPhase(s, true, a, t);
    assert ThreadOk(s, t);
    if !a.AddShared? {
      assert ThreadOk(s, a.t);
    }
    if p.Processing? {
      forall e | e in p.pending ensures Accounted(s', e.1) {
        StaysAccounted(s, a, e.1);
      }
    }
  }

  lemma StepKeeps(s: State, a: Action)
    requires Inv(s) && Enabled(s, true, a)
    ensures Inv(Apply(s, true, a))
  {
    var s' := Apply(s, true, a);
    forall t: nat ensures ThreadOk(s', t) {
      if !a.AddShared? && a.t == t {
        MoverStaysOk(s, a);
      } else {
        OtherStaysOk(s, a, t);
      }
    }
    forall u | u in s'.users ensures UserOk(s', u) {
      UsersStayOk(s, a, u);
    }
  }

  lemma {:induction false} RunKeeps(run: seq<State>, actions: seq<Action>, k: nat)
    requires Run(run, actions, true) && k < |run|
    ensures Inv(run[k])
  {
    if k > 0 {
      RunKeeps(run, actions, k - 1);
      assert Step(run, actions, true, k - 1);
      StepKeeps(run[k - 1], actions[k - 1]);
    }
  }

  /**
   In every interleaving of additions, deletions, reviews and user refreshes, each user's managed clusters
   are shared managed clusters, "*", or a cluster whose deletion is between its two stages.
  */
  lemma UsersStayWithinShared(run: seq<State>, actions: seq<Action>, k: nat, u: string, c: string)
    requires Run(run, actions, true) && k < |run|
    requires u in run[k].users && c in run[k].users[u]
    ensures c == "*" || c in run[k].shared || MidDeletion(run[k], c)
  {
    RunKeeps(run, actions, k);
    assert UserOk(run[k], u);
  }

  /** The source's handlers of one resource run on one thread: then at most one cluster can be mid-deletion. */
  lemma OneDeleterOneCluster(run: seq<State>, actions: seq<Action>, deleter: nat, k: nat, u: string, c: string)
    requires Run(run, actions, true) && k < |run|
    requires forall i | 0 <= i < |actions| :: actions[i].DeleteShared? ==> actions[i].t == deleter
    requires u in run[k].users && c in run[k].users[u]
    ensures c == "*" || c in run[k].shared || Deletes(PhaseOf(run[k], deleter), c)
  {
    UsersStayWithinShared(run, actions, k, u, c);
    if MidDeletion(run[k], c) {
      var t :| Deletes(PhaseOf(run[k], t), c);
      OnlyDeleterDeletes(run, actions, deleter, k, t);
    }
  }

  lemma {:induction false} OnlyDeleterDeletes(run: seq<State>, actions: seq<Action>, deleter: nat, k: nat, t: nat)
    requires Run(run, actions, true) && k < |run|
    requires forall i | 0 <= i < |actions| :: actions[i].DeleteShared? ==> actions[i].t == deleter
    requires PhaseOf(run[k], t).Deleting? || PhaseOf(run[k], t).Purging?
    ensures t == deleter
  {
    if k > 0 {
      assert Step(run, actions, true, k - 1);
      var a := actions[k - 1];
      if a.AddShared? || a.t != t {
        OthersKeepPhase(run[k - 1], true, a, t);
      }
      if !a.DeleteShared? || a.t != t {
        OnlyDeleterDeletes(run, actions, deleter, k - 1, t);
      }
    }
  }

  /** Once no deletion is under way, every user is within the shared list. */
  lemma QuiescentWithinShared(run: seq<State>, actions: seq<Action>, k: nat, u: string, c: string)
    requires Run(run, actions, true) && k < |run|
    requires u in run[k].users && c in run[k].users[u] && c != "*"
    requires forall t :: t in run[k].threads ==> run[k].threads[t].Idle? || run[k].threads[t].Processing?
    ensures c in run[k].shared
  {
    UsersStayWithinShared(run, actions, k, u, c);
  }

  /**
   The lock is what makes it so: were rule processing not under usersLock, a review that has read the shared
   list could write the cluster back after its deletion has finished, and nothing would remove it.
  */
  lemma UnguardedReviewBreaksIt(u: string, c: string) returns (run: seq<State>, actions: seq<Action>)
    requires c != "*"
    ensures Run(run, actions, false)
    ensures var s := run[|run| - 1]; u in s.users && c in s.users[u] && c !in s.shared && forall t :: PhaseOf(s, t).Idle?
  {
    actions := [LockToProcess(1), Look(1, u, c), DeleteShared(2, c), LockToPurge(2), Purge(2, u), FinishPurge(2),
                Write(1, u, c), FinishProcess(1)];
    var s0 := State({c}, map[u := {}], None, map[]);
    var s1, s2, s3 := ReviewReads(u, c, s0);
    var s4, s5, s6 := DeletionFinishes(u, c, s3);
    var s7, s8 := ReviewWrites(u, c, s6);
    run := [s0, s1, s2, s3, s4, s5, s6, s7, s8];
    forall k | 0 <= k < |actions| ensures Step(run, actions, false, k) {
    }
  }

  lemma ReviewReads(u: string, c: string, s0: State) returns (s1: State, s2: State, s3: State)
    requires s0 == State({c}, map[u := {}], None, map[])
    ensures Next(s0, false, LockToProcess(1), s1) && Next(s1, false, Look(1, u, c), s2) && Next(s2, false, DeleteShared(2, c), s3)
    ensures s3.shared == {} && s3.users == map[u := {}] && s3.lock == None
    ensures s3.threads == map[1 := Processing({(u, c)}), 2 := Deleting(c)]
  {
    s1 := Apply(s0, false, LockToProcess(1));
    s2 := Apply(s1, false, Look(1, u, c));
    s3 := Apply(s2, false, DeleteShared(2, c));
    assert {} + {(u, c)} == {(u, c)} && {c} - {c} == {};
  }

  lemma DeletionFinishes(u: string, c: string, s3: State) returns (s4: State, s5: State, s6: State)
    requires s3.shared == {} && s3.users == map[u := {}] && s3.lock == None
    requires s3.threads == map[1 := Processing({(u, c)}), 2 := Deleting(c)]
    ensures Next(s3, false, LockToPurge(2), s4) && Next(s4, false, Purge(2, u), s5) && Next(s5, false, FinishPurge(2), s6)
    ensures s6.shared == {} && s6.users.Keys == {u} && s6.threads == map[1 := Processing({(u, c)}), 2 := Idle]
  {
    s4 := Apply(s3, false, LockToPurge(2));
    s5 := Apply(s4, false, Purge(2, u));
    assert s5.users.Keys == {u};
    s6 := Apply(s5, false, FinishPurge(2));
  }

  lemma ReviewWrites(u: string, c: string, s6: State) returns (s7: State, s8: State)
    requires s6.shared == {} && s6.users.Keys == {u} && s6.threads == map[1 := Processing({(u, c)}), 2 := Idle]
    ensures Next(s6, false, Write(1, u, c), s7) && Next(s7, false, FinishProcess(1), s8)
    ensures s8.shared == {} && u in s8.users && c in s8.users[u] && s8.threads == map[1 := Idle, 2 := Idle]
  {
    s7 := Apply(s6, false, Write(1, u, c));
    assert {(u, c)} - {(u, c)} == {};
    s8 := Apply(s7, false, FinishProcess(1));
  }
}

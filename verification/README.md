# Verification of the search API's access, watch and query logic

A Dafny project that models the parts of the search API where state, concurrency or translation make the
behaviour hard to see from one function, and proves what they keep. `dafny verify dfyconfig.toml` covers all
files.

| files | subject |
|---|---|
| `WatchProtocol`, `WatchSafety`, `WatchRuns`, `WatchDelivery`, `WatchAccounts`, `WatchCleanup`, `WatchActivity`, `WatchEnds`, `WatchFailures`, `WatchLocks`, `WatchWitness`, `WatchLife`, `Listener`, `ListenerSteps` | the watch fan-out: one step system with any number of watches and listener instances, its inductive invariant, what holds of every run, where each notification ends up, the cleanup pass and what keeps a watch from it, how a watch ends, the stranded singleton, lock order and progress, runs that show every stage; the listener's operations as classes, and which steps they are |
| `FineGrained`, `FineGrainedNamespaces`, `FineGrainedMeaning`, `FineGrainedRepeats`, `FineGrainedRaces`, `FineGrainedAccess`, `PermissionCache` | the compilation of fine-grained permissions to a WHERE clause, against their direct meaning and against the direct evaluator; its edits of the cached rules over repeated queries and as a concurrent reader sees them; the age of the permissions in use |
| `BasicRbac`, `RbacClause`, `NamespaceRules` | the clause for the hub and for managed clusters; the rules of a namespace review, which produce its input |
| `Relations`, `RelatedItems`, `RelationLinks` | the level-bounded recursive relationship query, the bookkeeping on its rows, and both together |
| `Wildcard`, `Operators`, `OperatorLaws`, `FilterAgreement`, `FilterLaws` | filter values: operators, wildcards, what is printed and how it reads back, the two implementations of the same filter, and what its operators mean |
| `WatchCache`, `CacheValidation` | age of a cached permission under concurrent checks; the two-stage deletion of a managed cluster |
| `FederatedMerge` | merging hub responses in any order of arrival |
| `Sql`, `Sorting`, `Prelude` | expressions with three-valued logic and the query builder's empty lists; sorting; small vocabulary |

How the model reads the program:

- A WHERE clause is an expression tree with an evaluator over rows. The query builder renders an expression
  list without expressions as nothing, so an empty list is neither true nor false inside And and Or: it is
  dropped (`Sql.DropEmpty`). A clause that is empty as a whole selects every row (`Sql.Selects`).
- The watch system is split where threads can interleave: reading the singleton, taking a lock, changing the
  map, releasing; the Done check, the send, the next subscriber. Go's closed-channel panics are states.
- Goroutines of the watch cache and of the cache handlers are step systems as well. Where the source updates
  an object or a slice in place and interleaving is not the point, the model is a class, an array or a loop.
- Map iteration picks any remaining key, so no result depends on an order the runtime does not promise. Keys that
  the source sorts are sorted.
- Clocks, the access-review API, database answers and JSON text are parameters. An access review that fails
  counts as a denial, as in the source.

Where the code does not do what one would expect, the model keeps the code and a lemma gives the exact
condition, with a concrete input:

- `slices.Delete` with the fixed end index 1 panics when the first `""` of a rule's groups is at index 2 or
  later; and because the edit happens in the cached array, a rule can be served once and panic on the next
  query, or on a later one (`FineGrained.RulesPanicIff`, `FineGrainedRepeats.NextQueryPanicsIffTurns`,
  `FineGrainedRepeats.ServesForeverIff`, `FineGrained.SecondQueryPanics`). The wear is that of one listing: a fresh
  one replaces the array. The edit takes no lock, so a concurrent check can miss a group that the rule has, but
  never sees one it has not (`FineGrainedRaces.MissesIff`, `FineGrainedRaces.SeesNoMore`).
- A permission with bindings but no usable list rule grants everything at its locations; one with rules but
  no binding grants them everywhere; no binding of a known scope grants every Namespace object
  (`FineGrainedAccess.ExactIff`, `FineGrainedNamespaces.NamespacesExactIff`).
- The hub clause means the grants exactly if the all-access form of cluster-scoped resources and that of
  namespaces occur together (`BasicRbac.HubAgreesIff`).
- Within one record of a user nothing clears the error of the permission cache, and every failed list stamps it
  anew: an answer rests on permissions older than the time-to-live in force exactly if a list call for the record has
  failed since they were read and they are at least the error time-to-live old. Only the record's own end bounds the
  age: it is below the time-to-live of the user's other caches, plus the time to build the record and to use it, and
  every such age occurs (`PermissionCache.StaleIff`, `PermissionCache.FailedSinceMade`,
  `PermissionCache.AnswerAge`, `PermissionCache.AgeIsReached`).
- A first connection that fails, or a connection that fails to close, leaves a listener without a loop in the
  singleton for good: no watch is ever offered anything again (`WatchFailures.StrandedIff`,
  `WatchFailures.StrandedForever`).
- A review of a namespace that already has an entry can duplicate resources, and so does a shared list that
  names a namespace twice, as namespaceAdded can make it (`NamespaceRules.NoDuplicatesIff`,
  `NamespaceRules.ListedOnceIff`).
- A response with more results than the first one is an index panic, and the first related list is taken as
  it is, repeated kinds included (`FederatedMerge.PanicsIff`, `FederatedMerge.OneEntryPerKindIff`).
- The watch's wildcard stops at newlines, the search's LIKE gives meaning to `%`, `_` and backslash
  (`Wildcard.WildcardOnAllValues`, `Wildcard.LikeAgreesIff`, `FilterAgreement.SingleValueAgreesIff`). As functions,
  the two filters also differ on a filter without values, which the watch resolver refuses before the event filter
  could see it (`FilterAgreement.EmptyFilterDiffers`).

## Model

| member | source | states |
|---|---|---|
| WatchSafety.StepKeeps | pkg/database/listener.go:61-159 | every step of every thread keeps the invariant: locks exclude, the singleton and its once-flag agree, an instance that can still send holds no watch that is about to close |
| WatchSafety.RunKeeps | pkg/database/listener.go:61-439 | the invariant holds in every state of every run, with any number of watches and instances |
| WatchSafety.OfferedIsOpen | pkg/database/listener.go:319-341 | a fan-out about to send has an open receiver in front of it |
| WatchRuns.NeverCrashes | pkg/database/listener.go:266-272 | no run sends on or closes a closed channel, or uses a missing listener, even with shared subscription IDs |
| WatchRuns.SendsToOpenChannel | pkg/database/listener.go:326-340 | when a fan-out is about to send, the watch still has its map entry and its receiver is open |
| WatchRuns.ClosedIffFinished | pkg/resolver/watchSubscription.go:387-393 | a receiver is closed exactly from the end of its own watch on |
| WatchRuns.ClosedAtMostOnce | pkg/database/listener.go:417-421 | of two steps of a run that close the same receiver, both are the same step |
| WatchRuns.OneCurrentInstance | pkg/database/listener.go:218-232 | at most one instance can still send or reset, and the singleton points to it |
| WatchRuns.ReplacedAfterExit | pkg/database/listener.go:218-232 | the singleton leaves an instance only by the last step of that instance's own loop |
| WatchRuns.WithinCapacity | pkg/database/listener.go:84-89 | no instance ever holds more than the configured number of subscriptions |
| WatchRuns.QueuesBounded | pkg/resolver/watchSubscription.go:355-356 | both queues of a watch hold at most 100 events |
| WatchRuns.StampsNeverDecrease | pkg/database/listener.go:141-159 | over any stretch of a run the activity stamp never decreases, never precedes the creation stamp, and the registration is permanent; WatchActivity says when it moves |
| WatchActivity.DeliveryIsStamped | pkg/resolver/watchSubscription.go:425-429 | a watch that has delivered an event and waits for the next has been stamped since, while its home is the singleton and holds it |
| WatchActivity.ActiveIsNotEvicted | pkg/database/listener.go:394-413 | from there on no cleanup pass cancels it at a time within the idle timeout of that delivery and the maximum lifetime of its registration |
| WatchRuns.NothingAfterCancel | pkg/database/listener.go:326-334 | once a watch is cancelled and no fan-out is between its Done check and its send, nothing is enqueued to it again |
| WatchDelivery.StepDelivers | pkg/resolver/watchSubscription.go:396-440 | every step keeps the order of all watches' events, their checks, and every fan-out's account of whom it has offered |
| WatchDelivery.ClientSeesOrderedPart | pkg/resolver/watchSubscription.go:396-429 | what the client reads and still awaits is an in-order, duplicate-free part of what was fanned out to the watch, each event past the filters and a permission check |
| WatchDelivery.FanOutReachesAll | pkg/database/listener.go:322-341 | when a fan-out ends, every entry of the map has been offered the notification |
| WatchDelivery.OfferedWhileRegistered | pkg/database/listener.go:322-341 | a watch is offered something only by an instance whose map holds its entry at that moment |
| WatchAccounts.NothingIsLost | pkg/resolver/watchSubscription.go:396-440 | every notification offered to a watch is at exactly one place: read, queued for the client, in hand, in the receiver, or dropped under one of six recorded reasons |
| WatchAccounts.DropsHaveTheirReason | pkg/resolver/watchSubscription.go:396-440 | a filtered event is outside the filters; a denied one inside and never granted; one that did not fit or was abandoned passed both; only a cancelled watch is skipped or abandons |
| WatchAccounts.FullMeansFull | pkg/database/listener.go:336-340 | the two full-buffer drops are recorded only by a step that finds the buffer full |
| WatchCleanup.PassCancelsExpired | pkg/database/listener.go:390-415 | when an interleaved pass releases the map, every entry expired at the pass's time is cancelled, whatever was stamped or cancelled meanwhile |
| WatchCleanup.CleanupCancelsOnlyExpired | pkg/database/listener.go:394-413 | a cleanup cancels only entries of its own map that it had just read as expired |
| WatchCleanup.PassIsOfItsTick | pkg/database/listener.go:390-393 | the time a pass compares with is that of the clock at its own tick |
| WatchEnds.LeavesOnlyWhenCancelled | pkg/resolver/watchSubscription.go:387-440 | a watch unregisters and closes its channels only once it is cancelled, and abandons at most one event, on its way out |
| WatchEnds.OnlyRestingThreadsRest | pkg/database/listener.go:234-389 | a thread that waits for no lock can step unless it is at rest; a watch in its select loop can step iff it is cancelled or has an event |
| WatchFailures.StrandedForever | pkg/database/listener.go:65-77 | once the singleton points to an instance without a loop it stays so in every run, and no watch, old or new, is offered anything from then on |
| WatchFailures.StrandedIff | pkg/database/listener.go:171-226 | a step strands the singleton iff it is a failed first connection or a connection that fails to close |
| WatchFailures.ConnectedIff | pkg/database/listener.go:345-369 | an instance has a connection iff its last attempt succeeded and the connection was not dropped since |
| WatchWitness.DeliveryIsReachable | pkg/database/listener.go:319-341 | for every configuration that admits a watch, some run reaches a send and ends with the event read by the client |
| WatchLife.WholeLife | pkg/database/listener.go:61-439 | for every such configuration some run stamps the watch after a delivery, evicts it once it has been idle for too long, sees it close its channels and the listener end, and gives the next client a new listener |
| WatchLife.ConnectionComesBack | pkg/database/listener.go:234-369 | some run loses the connection under a registered watch, fails to connect, connects again and receives a notification |
| WatchLocks.AcquiresInOrder | pkg/database/listener.go:43-159 | the lock order behind the three results that follow: listenerMu, listener.mu, sub.mu, and never two of one kind |
| WatchLocks.LocksExclude | pkg/database/listener.go:61-108 | on every run, while one thread writes under listenerMu, a listener.mu or a sub.mu no other thread holds it |
| WatchLocks.NoCircularWait | pkg/database/listener.go:344-415 | no chain of threads blocked by each other returns to its start; none is longer than seven |
| WatchLocks.NoDeadlock | pkg/database/listener.go:61-439 | on every run a thread that waits for a lock leads, blocker by blocker, to a thread that can step |
| Listener.Listener.Start | pkg/database/listener.go:162-180 | fails only without a connection; however often it is called, success means one listen goroutine and failure none |
| Listener.Listener.Add | pkg/database/listener.go:81-107 | rejects exactly at capacity; otherwise the map gains the new subscription under its ID, stamped now |
| Listener.Listener.Remove | pkg/database/listener.go:119-135 | removes and cancels the entry under the ID, leaves the others, and cancels the listener when none is left |
| Listener.Listener.Touch | pkg/database/listener.go:150-158 | stamps the activity of the entry under the ID and of no other |
| Listener.Listener.Forward | pkg/database/listener.go:322-341 | every receiver ends as it was, or with the event appended if its subscription is live and its buffer has room |
| Listener.Listener.CloseExpired | pkg/database/listener.go:390-415 | a pass without interference cancels exactly the entries past their lifetime or idle for too long; under interference, WatchCleanup |
| Listener.Listener.EndWatch | pkg/resolver/watchSubscription.go:388-393 | unregistering before closing leaves no entry with a closed receiver |
| Listener.Package.RegisterSubscription | pkg/database/listener.go:61-108 | creates and starts the listener on first use only, and adds the entry iff there is room |
| ListenerSteps.ForwardSteps | pkg/database/listener.go:319-341 | the class method is a whole fan-out of the step system, from the lock to its release: an object that shows an instance shows it afterwards |
| ListenerSteps.AddStep | pkg/database/listener.go:81-107 | Add is the Insert step of the registering watch, and rejects exactly when that step does |
| ListenerSteps.RemoveStep | pkg/database/listener.go:119-135 | Remove is the Delete step of the leaving watch |
| ListenerSteps.TouchStep | pkg/database/listener.go:150-158 | Touch is the Stamp step of the entry |
| Sql.AndMeans | pkg/resolver/search_test.go:740 | a conjunction is that of its non-empty parts, and empty iff all of them are |
| Sql.OrMeans | pkg/resolver/rbacFineGrainedHelper_test.go:293 | a disjunction is that of its non-empty parts, and empty iff all of them are |
| Sql.TestsMean | pkg/resolver/rbacHelper.go:215-228 | the single tests on a row, with a comparison that meets NULL unknown |
| FineGrained.MatchClusterAndNamespaces | pkg/resolver/rbacFineGrainedHelper.go:45-71 | the loop over bindings builds the location clause: one part per namespaced binding, one list for the rest |
| FineGrained.LocationMeans | pkg/resolver/rbacFineGrainedHelper.go:41-44 | the location clause selects exactly the rows that some binding covers, and is empty iff there is no binding |
| FineGrained.DeleteOne | pkg/resolver/rbacFineGrainedHelper.go:108 | slices.Delete(s, i, 1) on a cached array: panics from index 2, keeps at 1, shifts in place at 0 |
| FineGrained.GroupExpression | pkg/resolver/rbacFineGrainedHelper.go:104-120 | the apigroup part of one rule, or the panic, and the edit it leaves in the shared array |
| FineGrained.MatchApiGroupAndKind | pkg/resolver/rbacFineGrainedHelper.go:85-153 | the loop over rules with its continue, early return and panic, and the rules as it leaves them |
| FineGrained.RulesMean | pkg/resolver/rbacFineGrainedHelper.go:73-84 | the rules clause selects exactly the rows that some rule allows to list; it is empty iff no rule contributes |
| FineGrained.RulesPanicIff | pkg/resolver/rbacFineGrainedHelper.go:87-109 | the loop panics exactly when it reaches a rule whose first "" is at index 2 or later |
| FineGrained.EditKeepsGroups | pkg/resolver/rbacFineGrainedHelper.go:107-108 | the in-place edit keeps a rule's groups, so its direct meaning does not change |
| FineGrained.NextQueryPanicsIff | pkg/resolver/rbacFineGrainedHelper.go:107-108 | a rule served without panic makes the next query panic iff its groups were "" and then at least two names |
| FineGrained.SecondQueryPanics | pkg/resolver/rbacFineGrainedHelper.go:107-108 | a concrete rule that is served once and panics on the second query |
| FineGrainedRepeats.NextQueryPanicsIffTurns | pkg/resolver/rbacFineGrainedHelper.go:87-109 | a permission list served once panics on the next query iff some rule not behind a match-all rule has "" and then at least two names |
| FineGrainedRepeats.ServesForeverIff | pkg/resolver/rbacFineGrainedHelper.go:87-109 | a permission list serves every number of queries iff no such rule has "" somewhere and two names in a row behind the "" in front |
| FineGrainedRaces.SeenIff | pkg/resolver/rbacFineGrainedHelper.go:104-109 | a goroutine that reads the groups while "" is deleted from their front can see exactly the element-wise mixtures of before and after |
| FineGrainedRaces.SeesNoMore | pkg/rbac/userData.go:621-626 | such a reader never sees a group that the rule does not have |
| FineGrainedRaces.MissesIff | pkg/rbac/userData.go:621-626 | it can miss a group that the rule has iff the group does not follow itself |
| FineGrainedRaces.AppsMissed | pkg/resolver/rbacFineGrainedHelper.go:104-109 | a concrete rule whose "apps" a concurrent check does not find |
| FineGrainedRaces.EditIsShift | pkg/resolver/rbacFineGrainedHelper.go:108 | the deletion, once complete, leaves what FineGrained.EditKeepsGroups and FineGrainedRepeats take it to leave |
| FineGrainedNamespaces.FoldBindings | pkg/resolver/rbacFineGrainedHelper.go:167-192 | despite continue, delete and break, whole clusters are those with a cluster-scope binding or a namespace-scope "*", the others hold the union of listed names, and the two are disjoint |
| FineGrainedNamespaces.FoldIgnoresOrder | pkg/resolver/rbacFineGrainedHelper.go:167-192 | permission lists with the same bindings, in any order and number, end in the same collections |
| FineGrainedNamespaces.MatchNamespaces | pkg/resolver/rbacFineGrainedHelper.go:162-206 | the clause selects the covered Namespace objects, or all of them if no binding has a known scope |
| FineGrainedNamespaces.NamespacesExactIff | pkg/resolver/rbacFineGrainedHelper.go:155-206 | the clause agrees with "some binding covers the Namespace object" on every row iff some binding has scope cluster or namespace |
| FineGrainedMeaning.MatchFineGrainedRbac | pkg/resolver/rbacFineGrainedHelper.go:23-39 | panics iff some permission's rules do; otherwise selects what some permission's part grants and the Namespace objects, for every list |
| FineGrainedAccess.ExactIff | pkg/resolver/rbacFineGrainedHelper.go:26-31 | a permission's part means "covered and allowed" on every row iff neither side of its conjunction is dropped while the other can match |
| FineGrainedAccess.SubresourceRuleGrantsCluster | pkg/resolver/rbacFineGrainedHelper.go:122-145 | a permission that lists only a subresource grants every row of its cluster |
| FineGrainedAccess.UnboundRuleGrantsEverywhere | pkg/resolver/rbacFineGrainedHelper.go:26-31 | rules without a binding grant their kinds in every cluster |
| FineGrainedAccess.ClauseIsPermissions | pkg/resolver/rbacFineGrainedHelper.go:16-39 | where every permission has a binding and a list expression and some binding a known scope, the clause selects exactly the permitted rows and the covered Namespaces |
| FineGrainedAccess.SearchPermissions | pkg/rbac/userData.go:605-629 | the nested loops with their early exits answer yes iff some permission covers the location and allows the verb |
| FineGrainedAccess.UserDataCache.GetUserPermissions | pkg/rbac/userData.go:557-587 | a success replaces the permissions, a failed list only stamps the cache, a failed conversion changes nothing |
| FineGrainedAccess.UserDataCache.CheckUserHasAccess | pkg/rbac/userData.go:592-630 | admins pass; otherwise a refresh when empty or expired, denial when it fails, else the search's answer |
| FineGrainedAccess.LocationAgreesIff | pkg/rbac/userData.go:607-616 | a binding's location means the same to the clause and to the direct evaluator on every row iff its wildcard stands alone and no name is empty |
| FineGrainedAccess.PermitsIsHasAccess | pkg/rbac/userData.go:605-629 | with such bindings, what the permissions say of a row is the direct evaluator's answer for the verb list |
| FineGrainedAccess.ClauseIsHasAccess | pkg/rbac/userData.go:605-629 | on such lists the compiled clause selects a row iff CheckUserHasAccess says yes to listing it, or it is a covered Namespace |
| FineGrainedAccess.UserDataCache.GetUserData | pkg/rbac/userData.go:225-243 | a search gets the permissions after the same use of the cache as a check, or an error |
| PermissionCache.FailedSinceMade | pkg/rbac/userData.go:98-119 | in every run a record's error is set iff a list call for this record has failed: it starts clear and only a new record is clear again |
| PermissionCache.Stamped | pkg/rbac/userData.go:557-587 | permissions in a record are those of the last listing for it, made since the record was begun, and the stamp is its time or that of the last failure since |
| PermissionCache.StampAfterFetch | pkg/rbac/userData.go:557-587 | in every run a record's permissions were read since it was begun and no later than the stamp, and the stamp is not in the future |
| PermissionCache.StaleIff | pkg/rbac/cacheMetadata.go:20-34 | in every run an answer rests on the last listing for its record; it is out of the time-to-live in force iff a list for this record failed since and the listing is at least the error time-to-live old; then the answer is within the error time-to-live of the last failure |
| PermissionCache.StaleIffRestamped | pkg/rbac/cacheMetadata.go:20-34 | the same as a guard on the record before the use: the error is set and the stamp is later than the fetch |
| PermissionCache.FreshWithoutFailure | pkg/rbac/cacheMetadata.go:20-34 | as long as no list call for a record fails, its answers rest on permissions read in the same use or younger than the configured time-to-live |
| PermissionCache.FailureReopens | pkg/rbac/userData.go:558-566 | each failed list opens the window again, from the same permissions, for exactly the error time-to-live |
| PermissionCache.AnswerAge | pkg/rbac/userData.go:98-119 | in every run an answer rests on permissions of the record in use: read since the request looked, if it made the record, or else younger than the record's time-to-live, the time to its first stamp and the time since the request looked, together |
| PermissionCache.AgeIsReached | pkg/rbac/userData.go:98-119 | every age within that bound occurs, for every time-to-live, build time and holding time, past the configured time-to-live after a failed list |
| FineGrainedAccess.UserCache.GetUserDataCache | pkg/rbac/userData.go:98-152 | a record whose three other caches are valid is returned as it is; otherwise a new one takes its place, without the old permissions and error |
| FineGrainedAccess.UserDataCache.LivesMeans | pkg/rbac/userData.go:250-253 | a record lives as long as each of its three other caches is stamped and within the user's time-to-live |
| FineGrainedAccess.StaleAfterFailure | pkg/rbac/userData.go:558-566 | on the objects, the concrete calls behind the exact condition PermissionCache.StaleIff: a denial, then a yes from permissions of any age that the record lives to |
| FineGrainedAccess.DeniedAfterRecord | pkg/rbac/userData.go:98-119 | once the record has expired its permissions are gone: while the API gives none the check says no |
| BasicRbac.MatchApigroupKind | pkg/resolver/rbacHelper.go:47-84 | the clause of a resource list selects the rows that match one of them, and is empty iff "*" of "*" is listed |
| BasicRbac.MatchClusterScopedResources | pkg/resolver/rbacHelper.go:90-107 | selects rows without namespace that a cluster-scoped grant matches; empty exactly in the all-access form |
| BasicRbac.ConsolidateNsResources | pkg/resolver/rbacHelper.go:167-186 | groups every namespace under the encoding of its list and nothing else; fails iff some list does not encode |
| BasicRbac.MatchNamespacedResources | pkg/resolver/rbacHelper.go:114-161 | grouped or not, whatever fails to encode or decode, selects the rows that their own namespace grants |
| BasicRbac.MatchHubClusterRbac | pkg/resolver/rbacHelper.go:195-209 | what the hub clause selects, in every combination of all-access forms and empty grants |
| BasicRbac.HubAgreesIff | pkg/resolver/rbacHelper.go:195-209 | the hub clause means the grants on every row iff the two all-access forms occur together |
| BasicRbac.AllClusterScopedShowsNamespaced | pkg/resolver/rbacHelper.go:96-125 | all cluster-scoped resources and no namespaced grant: namespaced hub rows are shown |
| BasicRbac.MatchManagedCluster | pkg/resolver/rbacHelper.go:215-228 | selects the rows of permitted clusters; "*" alone means every cluster but the hub |
| BasicRbac.ManagedMeans | pkg/resolver/rbacHelper.go:215-228 | named clusters permit exactly their rows; the star alone permits every row not of the hub, and none while the hub is unknown |
| BasicRbac.BasicClause | pkg/resolver/rbacHelper.go:36-40 | a row is selected iff it is in a permitted managed cluster or the hub clause selects it; without one all-access form alone, iff it is permitted or granted |
| RbacClause.BuildRbacWhereClause | pkg/resolver/rbacHelper.go:18-41 | the four modes: everything for admins; fine-grained and hub; hub alone; managed clusters and hub |
| RbacClause.ModesMean | pkg/resolver/rbacHelper.go:18-41 | what counts in each mode, and what does not |
| NamespaceRules.RefreshManagedClusters | pkg/rbac/userData.go:330-341 | after a refresh the managed clusters are exactly the reviewed namespaces that are known managed clusters and whose rules give everything or create cluster views, whatever they were before |
| NamespaceRules.RefreshFilesNamespaced | pkg/rbac/sharedData.go:480-511 | an entry other than the lone wildcard holds no resource that discovery or the fixed list calls cluster-scoped, and no subresource |
| NamespaceRules.GrantsMean | pkg/rbac/userData.go:365-396 | a resource is granted iff some rule lists, names its group and kind, and is not limited to resource names |
| NamespaceRules.ViewsMean | pkg/rbac/userData.go:410-420 | cluster views are created iff some rule names the verb, the group and the resource, each or the star |
| NamespaceRules.SortedByKind | pkg/rbac/userData.go:422-433 | the entries are ordered by kind first and by group within a kind |
| NamespaceRules.UserDataCache.GetSSRRforNamespace | pkg/rbac/userData.go:344-434 | from any earlier entry: the wildcard alone, or the old entry and each granted resource once, sorted; the managed cluster iff known and a rule qualifies; other entries unchanged |
| NamespaceRules.FreshReviewIsListing | pkg/rbac/userData.go:363-433 | without an earlier entry the result is a sorted, duplicate-free listing of exactly the granted namespaced resources |
| NamespaceRules.SameRulesGrantSame | pkg/rbac/userData.go:365-421 | reordering rules, verbs, groups or resources changes neither the grants nor the managed-cluster rule |
| NamespaceRules.UserDataCache.GetNamespacedResources | pkg/rbac/userData.go:437-480 | a refresh ends, in whatever order its goroutines take the lock, with each entry and managed cluster decided by the namespace's own review and by how often the shared list names it |
| NamespaceRules.RefreshIgnoresOrder | pkg/rbac/userData.go:459-469 | two refreshes with the same rules up to order, completing in any order, end in the same record |
| NamespaceRules.NoEmptyEntry | pkg/rbac/userData.go:392-395 | a refresh stores no empty resource list |
| NamespaceRules.ListedOnceIff | pkg/rbac/userData.go:456-469 | in a refresh an entry has no duplicates iff it is the wildcard or the shared list names its namespace once; then it lists exactly the grants |
| NamespaceRules.NoDuplicatesIff | pkg/rbac/userData.go:363-395 | with an earlier entry the result has no duplicates iff the entry had none and holds nothing that is granted |
| Relations.SearchGraph | pkg/resolver/related.go:98-126 | the recursive query stops and holds exactly the walks of at most one edge more than the level |
| Relations.RelationsQuery | pkg/resolver/related.go:70-146 | for every edge set, search and level, the rows are the related ones (shortest walk per uid, kind and path, where consecutive edges share an end and later ones have no Node or Channel end) and the resources of searched cluster pseudo-nodes |
| Relations.JoinsMeans | pkg/resolver/related.go:109-110 | the join condition holds of two edges iff some uid is an end of both |
| Relations.ReversingKeepsReached | pkg/resolver/related.go:98-126 | reversing every edge leaves what a search reaches as it is |
| Relations.RelatedUids | pkg/resolver/related.go:70-136 | without cluster pseudo-nodes in the search: exactly the uids outside it that some edge of a bounded walk names |
| Relations.OneLevelEach | pkg/resolver/related.go:90-93 | one level for each uid, kind and path |
| Relations.PathMeetsSearch | pkg/resolver/related.go:77-78 | the path of a graph row always meets the search |
| RelatedItems.UpdateResultMap | pkg/resolver/related.go:378-400 | links a result to the first search uid of the path, once |
| RelatedItems.ScanRows | pkg/resolver/related.go:267-287 | files each uid under the kind of its first row and links results as their rows say; rows that fail to scan are skipped |
| RelatedItems.FilingIsPartition | pkg/resolver/related.go:279-284 | every scanned uid is filed once, under one kind |
| RelatedItems.RelatedToMeans | pkg/resolver/related.go:378-400 | a result's links are duplicate-free, inside the search, and one per row path that meets it |
| RelatedItems.LinkedIff | pkg/resolver/related.go:378-400 | a result has a link iff some row path of it meets the search |
| RelatedItems.SearchResult.FilterRelatedUIDs | pkg/resolver/related.go:313-346 | without a filter, a sorted and duplicate-free listing of all filed uids; with one, for each filter the sorted uids of the first kind in sorted order that folds to it |
| RelatedItems.FilteredUids | pkg/resolver/related.go:327-341 | with filters the uids are those of the first kind, in sorted order, that folds to some filter |
| RelatedItems.SearchRelatedResultKindItems | pkg/resolver/related.go:348-368 | one result per kind holding its items in order with their links; the counts sum to the items |
| RelatedItems.SearchResult.GetRelationResolvers | pkg/resolver/related.go:242-310 | the whole resolution: the uids fetched are all scanned ones, and the results carry the links of the rows |
| RelationLinks.LinkedIffWalked | pkg/resolver/related.go:267-287 | a result is linked to the search iff one of its rows comes from a walk and not only from a searched cluster |
| RelationLinks.EveryResultLinked | pkg/resolver/related.go:242-310 | without cluster pseudo-nodes in the search every fetched item is outside it, named on a bounded walk, and has a non-empty list of links into it |
| RelationLinks.ClusterResultUnlinked | pkg/resolver/related.go:128-136 | a searched cluster's resource without edges is a result without a link |
| Wildcard.MatchesWildcardMeans | pkg/resolver/watchSubscription.go:110-119 | for every pattern and value, backslashes included, the built regular expression is the wildcard on one line |
| Wildcard.MatchesWildcardOnOneLine | pkg/resolver/watchSubscription.go:108-119 | on values without newlines it is the plain wildcard |
| Wildcard.WildcardOnAllValues | pkg/resolver/watchSubscription.go:108-119 | it is the plain wildcard on all values iff the pattern has no star |
| Wildcard.LikeIsGlob | pkg/resolver/searchHelper.go:65-69 | for patterns free of %, _ and backslash the LIKE rewrite is the plain wildcard |
| Wildcard.LikeAgreesIff | pkg/resolver/searchHelper.go:65-69 | the LIKE rewrite is the plain wildcard on all values iff the pattern is free of %, _ and backslash |
| Wildcard.LikeAgreesOnOneLineIff | pkg/resolver/searchHelper.go:65-69 | the same for patterns and values on one line |
| Operators.ParsesIff | pkg/resolver/searchHelper.go:31-45 | operator and operand are extracted iff the operator is the longest listed one in front and the operand the rest, or "=" and the whole value when none is in front |
| Operators.GetOperatorFromString | pkg/resolver/searchHelper.go:31-45 | the loop over prefixes, with its early exit, ends in the operator and operand that Operators.ParsesIff singles out |
| Operators.ReparseIff | pkg/resolver/searchHelper.go:31-45 | an operator and a text parse back to themselves iff the text does not extend the operator |
| Operators.OperandDoesNotExtend | pkg/resolver/searchHelper.go:31-45 | what extraction leaves never extends the operator it took |
| Operators.CompareValues | pkg/resolver/searchHelper.go:81-90 | some value contains some of the given texts |
| Operators.DecodeObject | pkg/resolver/searchHelper.go:386-409 | each value becomes its operator and rewritten operand; fails iff some label is malformed and nothing is partial |
| OperatorLaws.LabelReadsBack | pkg/resolver/searchHelper.go:392-397 | an exact label is printed as an object whose two quoted strings are the key and then the value |
| OperatorLaws.PartialLabelReadsBack | pkg/resolver/searchHelper.go:185-189 | a partial label splits at ':' into the key and then the value, as the query takes it apart |
| OperatorLaws.OtherLabels | pkg/resolver/searchHelper.go:391-408 | an exact label is malformed iff it is not key=value with one '='; a partial one is then the text before the first '=' |
| OperatorLaws.SplitIff | pkg/resolver/searchHelper.go:391 | splitting gives the parts free of the separator that join to the text, and no others |
| OperatorLaws.ElementReadsBack | pkg/resolver/searchHelper.go:412-424 | an exact array value is printed as an array with one quoted element; all other operands stay |
| Operators.DecodePropertyTypes | pkg/resolver/searchHelper.go:426-437 | whenever it succeeds, every printed value parses back to its original operator and its rewritten operand |
| Operators.ExtractOperator | pkg/resolver/searchHelper.go:48-59 | every entry of the map is extended by the operands of its key, in order, and no other entry appears |
| Operators.GroupingConserves | pkg/resolver/searchHelper.go:242-251 | each value is at exactly one place, under its own key, with the order kept inside the key |
| Operators.GetPartialMatchFilter | pkg/resolver/searchHelper.go:63-78 | the values are rewritten in place to LIKE patterns and grouped under the key of their data type |
| Operators.GetOperatorIfDateFilter | pkg/resolver/searchHelper.go:255-285 | dates are grouped with ">" for "=", and an unknown unit as the empty text |
| OperatorLaws.DateIsFiled | pkg/resolver/searchHelper.go:255-285 | a date unit is filed with the instant one unit back, under ">" unless another operator stands in front |
| OperatorLaws.OtherDates | pkg/resolver/searchHelper.go:255-285 | without an operator a date is compared with ">", and a text that is no unit becomes the empty one |
| OperatorLaws.ExactValueIsFiled | pkg/resolver/searchHelper.go:472-485 | an exact value is filed under its operator, with "@>" for objects and arrays |
| OperatorLaws.PartialValueIsFiled | pkg/resolver/searchHelper.go:63-78 | a value with a star is filed with its LIKE text under a key that tells objects, arrays and the rest apart |
| Operators.MatchOperatorToProperty | pkg/resolver/searchHelper.go:472-485 | which of the four groupings the values of a property get |
| FilterAgreement.WhereClauseFilter | pkg/resolver/search.go:465-540 | the clauses follow from the filters in order: none for a filter without values, 1 = 0 and stop for an unknown property, failure on a failed refresh or bad label |
| FilterLaws.KeywordLikeMeans | pkg/resolver/search.go:471-478 | the LIKE text of a keyword asks for it anywhere in the value, if it holds no character that LIKE treats specially |
| FilterLaws.OneFilterBuilds | pkg/resolver/search.go:481-536 | what one filter adds to the WHERE list: nothing, 1 = 0, its clause, or a failure |
| FilterLaws.UnknownStops | pkg/resolver/search.go:490-515 | a property that no refresh knows ends the list with 1 = 0, and a failed refresh fails, whatever filters follow |
| FilterLaws.MalformedMeans | pkg/resolver/searchHelper.go:391-406 | a value is malformed only as an exact label that is not key=value with one '=' |
| FilterAgreement.EventMatchesAllFilters | pkg/resolver/watchSubscription.go:123-251 | accepts iff all keywords occur and every filter has a matching value; new data before old, nothing without data |
| FilterLaws.NegationIsComplement | pkg/resolver/watchSubscription.go:30-47 | on a property other than kind, "=" asks for the text and "!=" or "!" for anything else |
| FilterLaws.KindNegationIsComplement | pkg/resolver/watchSubscription.go:228-236 | for kind the same, up to case |
| FilterLaws.ComparisonTakesValueFirst | pkg/resolver/watchSubscription.go:49-62 | the other operators compare the event's value, on the left, with the text |
| FilterLaws.BareTextIsEquality | pkg/resolver/watchSubscription.go:22-47 | a text without an operator in front is an equality |
| FilterLaws.StarNeedsEquality | pkg/resolver/watchSubscription.go:212-225 | a star is a wildcard after "=" only; after any other operator the value matches nothing |
| FilterLaws.NegatedFilter | pkg/resolver/watchSubscription.go:123-251 | with one filter p: != x and no keywords an event is accepted iff it has p and its value is not x |
| FilterLaws.NegatedKind | pkg/resolver/watchSubscription.go:123-251 | with one filter kind: != x a deleted row is accepted iff its old data has a kind that does not fold to x |
| FilterLaws.ValuesWidenFiltersNarrow | pkg/resolver/watchSubscription.go:141-251 | more values of a filter accept more, more filters and keywords accept less |
| FilterLaws.KeywordMeans | pkg/resolver/watchSubscription.go:141-167 | a keyword matches iff, in lower case, it occurs inside some value of the event |
| FilterAgreement.FilterAgrees | pkg/resolver/searchHelper.go:92-187 | one filter of equality values on a string property: the clause holds of a row iff the event filter accepts its data |
| FilterAgreement.SearchAgreesWithWatch | pkg/resolver/search.go:481-536 | any number of such filters and values: the WHERE clause selects exactly the rows whose data the event filter accepts |
| FilterAgreement.SingleValueAgreesIff | pkg/resolver/watchSubscription.go:205-242 | for one equality value the two sides agree on newline-free properties iff the value has no star or is free of %, _ and backslash |
| FilterAgreement.EmptyFilterDiffers | pkg/resolver/search.go:484-487 | a filter without values: ignored by the search, rejecting in the watch |
| FilterAgreement.UnderscoreDiffers | pkg/resolver/searchHelper.go:65-69 | a star beside an underscore: LIKE takes a value that the watch rejects |
| WatchCache.UserWatchData.CheckPermissionAndCache | pkg/rbac/watchCache.go:117-152 | a live entry answers and nothing changes; otherwise the API's answer, an error denying, is returned and stored |
| WatchCache.ErrorsDeny | pkg/rbac/watchCache.go:96-114 | only a review that succeeds and says yes allows; an error denies |
| WatchCache.StepKeeps | pkg/rbac/watchCache.go:117-152 | every step of every concurrent check keeps positive entries backed by a grant made during the call that stored them |
| WatchCache.AnswersAreFresh | pkg/rbac/watchCache.go:117-152 | in every run a positive answer was granted less than the time-to-live plus the duration of its own call before |
| WatchCache.RevocationTakesEffect | pkg/rbac/watchCache.go:117-152 | no positive answer outlives a revocation by the time-to-live and the longest call |
| WatchCache.BoundIsTight | pkg/rbac/watchCache.go:127-148 | for every time-to-live and call duration some run comes within one instant of that bound |
| WatchCache.SlowCallOverwrites | pkg/rbac/watchCache.go:139-148 | a slower call can replace an entry resting on a later grant by one resting on an earlier grant |
| CacheValidation.Cache.NamespaceAdded | pkg/rbac/cacheValidation.go:132-155 | the namespace is listed and stamped; a user gains its entry iff the rules grant something and the cluster iff they permit it and it is shared; users stay within the shared list |
| CacheValidation.Cache.NamespaceDeleted | pkg/rbac/cacheValidation.go:158-179 | the namespace goes from the list and from every user's entries and managed clusters; users stay within the shared list |
| CacheValidation.WithoutMeans | pkg/rbac/cacheValidation.go:163-168 | the deleted name is gone from the list and the others keep their number and order |
| CacheValidation.Cache.ManagedClusterAdded | pkg/rbac/cacheValidation.go:181-202 | the cluster is shared before the reviews, so every user whose rules permit it gets it |
| CacheValidation.Cache.ManagedClusterDeleted | pkg/rbac/cacheValidation.go:204-223 | the cluster goes from the shared list, from every user and from the disabled clusters |
| CacheValidation.StepKeeps | pkg/rbac/cacheValidation.go:132-223 | every step of every interleaving keeps each user's clusters, and each pending write, shared or mid-deletion |
| CacheValidation.ReviewGives | pkg/rbac/userData.go:330-341 | a review of one user gives a shared cluster to that user and changes nothing else, and does nothing for an unknown one |
| CacheValidation.PurgeReachesAll | pkg/rbac/cacheValidation.go:211-216 | when a deletion releases its lock no user holds the cluster, unless it is shared again or still being deleted |
| CacheValidation.DropTakes | pkg/rbac/cacheValidation.go:172-178 | dropping a deleted namespace takes it from the user and leaves the user's other clusters |
| CacheValidation.RecordStarts | pkg/rbac/userData.go:104-119 | a new record starts with no cluster, and one with access to everything ends with the star alone |
| CacheValidation.UsersStayWithinShared | pkg/rbac/cacheValidation.go:181-223 | in every run each user's managed clusters are shared ones, "*", or a cluster between the two stages of its deletion |
| CacheValidation.OneDeleterOneCluster | pkg/rbac/cacheValidation.go:45-55 | with deletions on one thread, only the cluster that thread is deleting |
| CacheValidation.QuiescentWithinShared | pkg/rbac/cacheValidation.go:204-216 | with no deletion under way every user is within the shared list |
| CacheValidation.UnguardedReviewBreaksIt | pkg/rbac/userData.go:96-97 | were rule processing not under usersLock, a deleted cluster could stay with a user for good |
| FederatedMerge.Data.MergeSearchSchema | pkg/federated/mergeResponses.go:9-28 | appends the new properties in order, each once, with managedHub in front when it is missing; list and shadow set stay equal |
| FederatedMerge.Data.MergeSearchComplete | pkg/federated/mergeResponses.go:30-54 | appends the new values in order, each once; list and shadow set stay equal |
| FederatedMerge.AddNewIsUnion | pkg/federated/mergeResponses.go:22-27 | the merged list has no duplicates iff the old one had none, keeps it in front, and holds exactly old and new values |
| FederatedMerge.SchemaMeans | pkg/federated/mergeResponses.go:18-21 | every merged schema offers managedHub, in front if it is the first and did not have it |
| FederatedMerge.Data.MergeSearchResults | pkg/federated/mergeResponses.go:56-89 | one response added result by result; fails exactly when it has more results than the first |
| FederatedMerge.AppendRelatedResults | pkg/federated/mergeResponses.go:103-131 | the first list as it is, later entries folded into the first of their kind or appended |
| FederatedMerge.MergeAdds | pkg/federated/mergeResponses.go:65-88 | merging a result adds its count, its tagged items, and per kind its count and items |
| FederatedMerge.MeasuresAre | pkg/federated/mergeResponses.go:65-88 | what the quantities measure: the count, copies of an item, and both for one related kind |
| FederatedMerge.PanicsIff | pkg/federated/mergeResponses.go:61-67 | a run panics iff some response has more results than the first |
| FederatedMerge.MergedIsSum | pkg/federated/mergeResponses.go:56-89 | every quantity of every merged result is the sum over the responses, items tagged by their hub |
| FederatedMerge.ArrivalOrderIrrelevant | pkg/federated/mergeResponses.go:56-89 | responses of equal length in any two orders agree on every such quantity |
| FederatedMerge.OneEntryPerKindIff | pkg/federated/mergeResponses.go:103-131 | exactly one related entry per kind named iff the first non-empty related list repeats no kind |
| FederatedMerge.RepeatedKindDependsOnOrder | pkg/federated/mergeResponses.go:106-108 | a hub that repeats a kind: the shape of the result depends on who comes first |

## Left out

- StopPostgresListener: it is called at process shutdown and swaps the singleton while the old loop may run, so the safety of the channels is stated for runs without it.
- Liveness of a registration that attaches to a listener whose last entry was just removed: such a watch may never be served; only safety is claimed.
- When the cleanup ticks: a pass may begin at any time, so nothing is claimed about how soon an expired watch is cancelled.
- Lock order in the rbac cache: namespaceDeleted and GetUserDataCache take nsCache.lock and usersLock in opposite orders, so no absence of deadlock is claimed there.
- The choice of the permission check for an event (eventMatchesRbac): in the watch system its answer is any yes or no, recorded with the event.
- Query text, the rendering of expressions, JSON decoding, and rows whose apigroup property is present and empty or whose kind is a subresource: the indexer stores neither.
- FineGrained.RulesMean: is stated for rows with a whole-resource kind_plural, which every indexed row has.
- BasicRbac.MatchApigroupKind: requires a non-empty list; for an empty one the source returns a nil expression, which the query builder cannot render, and NamespaceRules.NoEmptyEntry shows that a refresh stores none.
- FineGrainedMeaning.MatchFineGrainedRbac: states, as BuildRbacWhereClause does, what the clause selects rather than its exact tree, because the runtime's map order decides the tree.
- The fine-grained clause in CheckUserHasAccess for verbs other than list: the compiled clause exists for list only.
- The resources join and the RBAC clause around the relations query, limits, and the choice of the level.
- FilterAgreement.GetWhereClauseExpression: renders equality on ordinary string properties; comparisons, negations, numbers, timestamps, labels, kind, cluster and managedHub are combined differently by the two sides by design, and only their grouping by operator is modelled (Operators).
- FilterAgreement.EventMatchesAllFilters: takes event data whose values are strings; label filters, which read a nested object, and the formatting of other types are not modelled.
- PermissionCache.StaleIff: takes a list call, and the check for it, as an instant; requests interleave between the lookup of the record and the use of it.
- FineGrainedRaces.SeenIff: one deletion at a time, one string at a time; two concurrent deletions and a torn string are not modelled.
- ListenerSteps: CloseExpired is not related to the steps of a pass; WatchCleanup states over runs what a pass does.
- Invalid UTF-8 and the collation of LIKE and of text comparison.
- CacheValidation.Cache.NamespaceAdded: shows of a review only which users gain an entry and a managed cluster; the entry itself is the subject of NamespaceRules.
- A refresh of the shared list of managed clusters is the starting point of a run in CacheValidation, not a step of it.
- Impersonation clients, token reviews, HTTP transport, WebSocket handshake, configuration, logging and metrics.
- searchComplete, searchSchema, messages and formatting helpers: members that would add little.

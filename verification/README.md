# Failover coordination: a verified model

Clusters that share a DynamoDB table use it to agree on which of them owns a
FailoverGroup. This project models how they do so and proves what holds in every
interleaving of their operations.

| file | what it models |
|---|---|
| `Records.dfy` | the rows of a group, what a read keeps of them, and the conditions of the writes |
| `Protocol.dfy` | lock, configuration, failover and failback as a machine in which every store access and clock reading is one step |
| `ProtocolInvariants.dfy`, `ProtocolTheorems.dfy` | what every run of that machine keeps |
| `ProtocolValidation.dfy` | what an operation has seen and taken by the time it moves ownership, what it records, and that it gives its lease back |
| `StatusRows.dfy`, `StatusHistory.dfy` | which status rows say PRIMARY, whoever writes them, and where every row comes from |
| `ProtocolRuns.dfy` | runs of the machine in which something goes wrong |
| `OperationsManager.dfy` | the operations themselves, run on the table while others use it |
| `ConfigWriters.dfy` | every writer of the CONFIG row, including the unconditional one and deletion |
| `RetryClient.dfy`, `RetryOutcomes.dfy`, `RetryJitter.dfy` | the client that repeats accesses, with the guarded writes it repeats, what comes of them, and its waits |
| `ServiceCache.dfy`, `CacheService.dfy` | the in-memory cache in front of the table, as a machine and as callers use it |
| `ClusterView.dfy`, `RolePasses.dfy` | the view each cluster derives, and the roles it writes pass after pass |
| `StalePeers.dfy`, `AutoFailover.dfy`, `TriggerRuns.dfy` | the removal of stale peers, the automatic trigger, and when it goes off in runs |
| `Workflow.dfy`, `WorkflowOrder.dfy`, `WorkflowEffects.dfy`, `WorkflowRun.dfy`, `WorkflowFailures.dfy`, `WorkflowCompletion.dfy`, `WorkflowEngine.dfy` | the failover workflows, their order, their effects, the promises of the two modes and when they fail, what success means, and the engine |
| `Keys.dfy`, `GroupTable.dfy` | row and cache keys, batched deletions and reads |

How the machines are built. A machine is a total function from a state and an event
to a state; an event that is not possible changes nothing. A theorem about a run
holds for every sequence of events, so for every interleaving. An access to the store
has one of three fates: done and acknowledged, done but reported as failed, or not
done. A read that is not consistent (`IsLocked`) may return any past row. In
`OperationsManager.dfy` the operations are methods on a shared table: before each of
its own accesses a method lets other callers act, through a contract that says only
that the table stays one the machine can reach.

A workflow's lease is an operation of its own in the machine (`Lock`): it goes straight
to `AcquireLock`, keeps its token and may release it at any moment, any number of times.

Assumptions. The clocks of the clusters agree, and stored times use one UTC offset,
so that comparing the strings of section 5.1 of RFC 3339 orders them as times. Lease
tokens are unique; a token is identified with the caller that drew it. The local clock
counts nanoseconds and stored times keep whole seconds. Versions do not overflow. The
row that a run of the protocol starts from, if there is one, may be any, suspended or
not; its version is counted as 2. A status row that a transaction creates is read with health OK, which is what
`GetClusterStatus` fills in. Task effects are those in the comments of
`internal/controller/failover/failover_stages.go`, since the task bodies only log. A
failover workflow starts with the source's volumes primary and its workloads running,
the target's volumes secondary and its workloads scaled down, and Flux told to leave the
target's workloads alone. A cluster that reads the configuration has a name that is not
empty, as the service makes sure of; that stored rows name two different clusters rests
on it.

What was found where the code departs from its comments:

- A suspension, and any writer that raises the version itself, succeeds only if exactly
  one commit slipped in between, and then undoes it (`PutSucceedsIff`,
  `DoubleRaiseUndoesACommit`, `SuspensionRevertsAFailover`). An update through a cached
  record that was refused n times before succeeds only if n commits slipped in
  (`SharedUpdateSucceedsIff`, `SecondUpdateUndoesACommit`).
- A failback goes to a previous owner that some earlier row of the same owner recorded.
  It is the one in the row it replaces exactly if the last move since its decision left
  that cluster by a failover (`FailbackFollowsTheRowIff`, `FailbackPassesTheRowBy`).
- While a workflow holds its lease, the lease of the failover that it runs at its end is
  refused like anyone else's (`LiveLeaseRefusesOthers`).
- A status write decided on an earlier read leaves a second PRIMARY row, exactly under
  the condition of `MislabelledIff` (`LateSyncMislabels`, `FailedHeartbeatMislabels`).
- An invalidation does not keep an older value from coming back into the cache
  (`AnInvalidatedValueReturns`; it does exactly under the condition of
  `UpdateIsVisibleIff`), and a refused update shows through it
  (`RefusedUpdateShowsThrough`, `HitIsExactIffNotRaised`).
- A write that took effect can be reported as failed, exactly if an acknowledgement was
  lost (`EffectReportedAsFailure`, `EffectIsUnreportedIff`). A transfer of ownership that
  meets its own effect in this way forces a second write over it (`ConfigWriters.dfy`).
- Up to the fifth retry the client's waits never shrink exactly if its multiplier makes
  up for the jitters of the second and the third, which happens between 1.358 and 1.3591
  (`FiveWaitsGrowIff`, `ThirdWaitThreshold`); however many retries there are, 1 + sin(1)/2
  is enough, which is under 1.421 (`AllWaitsGrow`). The client's own multiplier is 2.
- Waits for the other cluster give up and report success. In consistency mode the target's
  part, on a cluster of its own, then breaks the promise, and no other part does; in uptime
  mode the source's part does, and no other (`ConsistencyAsCodedIff`, `UptimeAsCodedIff`,
  with the runs `GivingUpBreaksConsistency` and `GivingUpBreaksUptime`). The adapter's
  single list keeps both promises.
- The wait for the source's pods asks whether pods run and not whether the workloads are
  scaled down. If Flux restores one before it is told not to, the wait can finish, and the
  workload ends up running on both clusters (`FluxMakesBothRun`). Runs in which no wait
  finishes so keep the workloads apart (`NeverBothPrimary`), and any run in which one does
  can go on until both run, by the same engine if it has the whole list and otherwise by
  one with the target's part (`EarlyFinishLetsBothRun`).
- A failover that fails after it took the lock leaves the lock to expire
  (`NothingChangesWithoutTheLock`), although the comment at
  `internal/controller/failover/auto_failover.go:213-222` says that it is released.
- A silent primary is failed over by every check of another cluster that shows its row
  (`SilentPrimaryIsFailedOver`), but its row is removed as stale after five minutes, and from
  then on by none (`RemovedPrimaryIsNotFailedOver`, `SilentPrimaryIsForgotten`).
- A cluster that has never read an owner, and whose status names nobody, writes PRIMARY for
  itself; after a read that was kept a failed one never makes it do so (`PeriodicPasses`).
- Whoever rewrites the row for another reason than a failover loses the reference to the last
  one (`RowNamesItsFailover`).
- A group without status rows, or whose reads all fail, is shown the rows of every other
  group by the scan that follows (`GroupTable.Table.GetAllClusterStatuses`), so that a
  pass can remove the fresh row of a cluster for the old row of its namesake
  (`ScanRemovesAPunctualPeer`, `PunctualPeerIsMissingIff`).
- A pass that judges a row it fetched earlier can remove a fresh row, for every report
  interval and every delay beyond the bound (`StalePeers.BoundIsSharp`).
- The automatic trigger asks whether an unhealthy primary has been so for long, and the
  answer is always no: only an old heartbeat triggers a failover (`CheckGroupNeedsFailover`).

## Model

| member | source | states |
|---|---|---|
| ProtocolTheorems.OwnershipIsALinearChain | internal/controller/dynamodb/operations_manager.go:101-243 | in every run each commit of the CONFIG row adds one to the version; each move starts at the owner the commit before it left and changes nothing but the owners, the version and the last failover; a rewrite keeps the owners and loses timeouts and metadata; the row is the last commit |
| ProtocolTheorems.VersionsCountCommits | internal/controller/dynamodb/state_manager.go:286-353 | each version is committed at most once: a commit's version is its place in the chain |
| ProtocolTheorems.NothingIsOverwrittenUnseen | internal/controller/dynamodb/operations_manager.go:837-856 | a record whose version the row still has is the row as read: no update is lost, even when the lease expired in between |
| ProtocolTheorems.OneOperationMovesOnce | internal/controller/dynamodb/operations_manager.go:32-98 | one operation moves ownership at most once, along the route it decided on, and exactly once if it reports success |
| ProtocolTheorems.FailbackReturnsToARecordedOwner | internal/controller/dynamodb/operations_manager.go:246-313 | a failback moves ownership from an owner to a previous owner that an earlier row of that owner recorded |
| ProtocolTheorems.FailbackFollowsTheRowIff | internal/controller/dynamodb/operations_manager.go:246-459 | in every run a failback goes to the previous owner that the row it replaces names if and only if the last move since its decision, if any, was a failover away from that cluster |
| ProtocolValidation.EveryMoveWasChecked | internal/controller/dynamodb/operations_manager.go:32-98 | in every run whoever moved ownership had seen a lock that was gone or expired, a group that was not suspended and, unless forced, a healthy target, and had taken a lease |
| ProtocolValidation.RowNamesItsFailover | internal/controller/dynamodb/operations_manager.go:795-859 | in every run a move, and the rewrite that records it, carry the reference of the operation that made them; any other rewrite carries none |
| ProtocolRuns.FailbackPassesTheRowBy | internal/controller/dynamodb/operations_manager.go:246-459 | a run from the start in which the row names one cluster and the failback goes to another |
| ProtocolValidation.HistoryNamesMoves | internal/controller/dynamodb/operations_manager.go:795-859 | in every run a history row names the two clusters of a move that was made, under the second in which its operation started |
| ProtocolTheorems.LeaseMutualExclusion | internal/controller/dynamodb/operations_manager.go:531-597 | at most one issued and unreturned token is unexpired, and the LOCK row carries it, whatever stale rows the pre-reads return, for the leases of failovers, failbacks and workflows |
| ProtocolTheorems.OnlyItsTokenDeletesALock | internal/controller/dynamodb/operations_manager.go:600-639 | a LOCK row leaves the table only by a release of its own token, or under a new lease after it has expired, although tokens are released late and more than once |
| ProtocolTheorems.LiveLeaseRefusesOthers | internal/workflow/tasks_completion.go:120-131 | while a lease is live the lease put of every other operation is refused, that of a workflow's own failover included |
| ProtocolValidation.LiveLeaseIsSeen | internal/controller/dynamodb/operations_manager.go:642-700 | while a lease is live, an operation that is shown the LOCK row as it is goes no further |
| ProtocolTheorems.LateReleaseIsHarmless | internal/workflow/tasks_completion.go:139-150 | in every run, once a lease has been returned, or has given way to another one, no later LOCK row carries its token, and no further release of it, nor any other step of its caller, changes the lock |
| ProtocolRuns.ExpiredLeaseIsReplaced | internal/workflow/tasks_completion.go:139-150 | a run from the start in which a holder is still to release its lease while another caller's live lease is on the LOCK row |
| ProtocolValidation.EveryLeaseIsGivenBack | internal/controller/dynamodb/operations_manager.go:32-98 | in every run, however a failover or a failback ends, it has tried to release the lease that it had |
| ProtocolTheorems.LeaseRecovers | internal/controller/dynamodb/operations_manager.go:531-597 | an uncontended AcquireLock that starts 601 s or more after the last put of the lock succeeds, whichever past row IsLocked is shown |
| ProtocolRuns.LeaseRecoveryIsSharp | internal/controller/dynamodb/operations_manager.go:531-597 | a run in which an uncontended AcquireLock that starts one nanosecond earlier is refused |
| ProtocolTheorems.OneReaderCreates | internal/controller/dynamodb/state_manager.go:131-158 | default creation fills an empty row with exactly the default attributes and never replaces one, so of concurrent first readers exactly one creates it |
| ProtocolTheorems.PrimaryIsUnique | internal/controller/dynamodb/operations_manager.go:165-203 | while no status row is written later than it was decided, at most one is PRIMARY, and it is the owner's |
| StatusRows.MislabelledIff | internal/controller/dynamodb/state_manager.go:1265-1292 | in every run, with synchronisations, heartbeats, views, tasks and removals in any number of steps, a row is PRIMARY without being the owner's exactly when its cluster is not the owner and the last event to put it wrote a PRIMARY row decided earlier |
| StatusHistory.RowIsTold | internal/controller/dynamodb/operations_manager.go:165-203 | in every run every status row is what the events say: its health the last written or reported for it, its state the last written or the label of the last move from or to its cluster |
| StatusHistory.OperationsKeepHealth | internal/controller/dynamodb/operations_manager.go:165-203 | in every run no step of an operation changes the health of a row, and a row that it creates is OK |
| StatusHistory.MovesLabelRows | internal/controller/dynamodb/operations_manager.go:381-418 | in every run a move leaves PRIMARY on the target, FAILOVER or FAILBACK on the source as its operation says, and every other row alone |
| ProtocolRuns.LateSyncMislabels | internal/controller/dynamodb/state_manager.go:1265-1292 | a run in which a synchronisation that overlaps a failover leaves two PRIMARY rows |
| StatusRows.FailedHeartbeatMislabels | internal/controller/dynamodb/volume_state.go:89-197 | a run in which a heartbeat that fails to read makes a second PRIMARY row |
| ProtocolInvariants.StepKeepsInv | internal/controller/dynamodb/operations_manager.go:32-98 | every step of every operation keeps the chain, the callers' knowledge, the moves, the lease and the unique PRIMARY |
| Operations.Store.AcquireLock | internal/controller/dynamodb/operations_manager.go:531-597 | among other callers: a lease or an error, as the machine's steps give it; alone on a free lock it succeeds and changes the LOCK row only |
| Operations.Store.ReleaseLock | internal/controller/dynamodb/operations_manager.go:600-639 | deletes the LOCK row only if it carries the token, and changes nothing else |
| Operations.Store.IsLocked | internal/controller/dynamodb/operations_manager.go:642-700 | says locked exactly if the row it was shown, present or past, is there and not past its expiry, and changes nothing |
| Operations.Store.GetGroupConfig | internal/controller/dynamodb/state_manager.go:104-169 | among other callers: returns what a read keeps of the row that is there, or the record it has just created, which is then the row, or an error |
| Operations.Store.ValidatePreconditions | internal/controller/dynamodb/operations_manager.go:462-503 | alone on a free lock it succeeds exactly when the group is not suspended and the target is healthy or its check is skipped |
| Operations.Store.ExecuteFailover | internal/controller/dynamodb/operations_manager.go:32-98 | success means exactly one commit moved ownership along its route; alone it goes through exactly when admitted, with the whole table afterwards |
| Operations.Store.ExecuteFailback | internal/controller/dynamodb/operations_manager.go:246-313 | the same for a failback to the recorded previous owner |
| Operations.Store.RecordFailoverEvent | internal/controller/dynamodb/operations_manager.go:795-859 | never fails the operation; alone it adds the history row and rewrites the CONFIG row as it was read |
| Operations.Store.UpdateGroupConfig | internal/controller/dynamodb/state_manager.go:276-367 | among other callers: a put whose version does not match is refused and changes nothing; success means the row is the record with the version raised by one |
| Operations.Store.FailoverAndBack | internal/controller/dynamodb/operations_manager.go:246-313 | run on a store of one's own, with any time passing, failover, failback and another failback: the first two succeed, restore the owner, empty the previous owner, raise the version by four, leave no LOCK row and one history row for each second in which one of them started; the third is refused |
| Operations.RoundTripForgets | internal/controller/dynamodb/state_manager.go:257-263 | the rewrites lose metadata and timeouts: the rest of the row is kept exactly when there were none to lose |
| ConfigWriters.StoredRowIsOk | internal/controller/dynamodb/operations_manager.go:703-792 | whoever writes, forced writes, deletions and writes whose acknowledgement is lost included, a stored row names two different clusters and has version 2 or more |
| ConfigWriters.CreationNeverOverwrites | internal/controller/dynamodb/state_manager.go:131-158 | hence default creation changes the row exactly when there is none |
| ConfigWriters.PutSucceedsIff | internal/controller/dynamodb/state_manager.go:286-353 | a put whose writer raised the version itself some number of times goes through if and only if that many commits happened since its read |
| ConfigWriters.SharedUpdateSucceedsIff | internal/controller/dynamodb/manager.go:264-279 | an update through a shared record goes through if and only if as many commits happened since its read as updates raised it before, and then puts the owners of that read back |
| ConfigWriters.DoubleRaiseUndoesACommit | internal/controller/dynamodb/operations_manager.go:506-528 | a suspension that goes through puts back the owners of its read over the commit it has not seen |
| ConfigWriters.SuspensionRevertsAFailover | internal/controller/dynamodb/operations_manager.go:506-528 | a run in which a suspension hands the group back to the cluster a failover took it from |
| ConfigWriters.ConfigStore.UpdateSuspension | internal/controller/dynamodb/operations_manager.go:506-528 | undisturbed it is always refused |
| ConfigWriters.ConfigStore.TransferOwnership | internal/controller/dynamodb/operations_manager.go:703-792 | undisturbed it changes the owner through the unconditional write, three versions on |
| ConfigWriters.ConfigStore.RemoveVolumeState | internal/controller/dynamodb/volume_state.go:201-216 | undisturbed it goes through, and re-creates a row that was deleted |
| ConfigWriters.WritersAlone | internal/controller/dynamodb/operations_manager.go:703-792 | each writer of the machine, by itself, leaves the row that its method leaves |
| ConfigWriters.TransferMeetsItself | internal/controller/dynamodb/operations_manager.go:703-792 | a transfer whose put took effect and lost its acknowledgement puts the same owners again, one version on |
| ConfigWriters.ForcedAfterDeletion | internal/controller/dynamodb/operations_manager.go:755-775 | the forced write makes up a row with nothing but owners and version if there is none |
| ConfigWriters.RewriteKeepsRowIff | internal/controller/dynamodb/state_manager.go:172-263 | reading a row and putting it back keeps it exactly when it has nothing a read drops |
| RetryClient.AtMostOneEffect | internal/controller/dynamodb/retry_client.go:148-198 | any number of attempts of one version-guarded write or transaction takes effect at most once, between any guarded writes of others, and exactly once if it reports success |
| RetryClient.EffectReportedAsFailure | internal/controller/dynamodb/retry_client.go:148-198 | a lost acknowledgement can turn the one effect into a reported failure |
| RetryClient.EffectIsUnreportedIff | internal/controller/dynamodb/retry_client.go:148-198 | for all scripts, the write took effect and success was not reported if and only if some attempt met a row that allowed it and lost its acknowledgement |
| RetryClient.RetriesAreBounded | internal/controller/dynamodb/retry_client.go:148-198 | at most MaxRetries + 1 calls, and total sleep of at most MaxRetries times the largest backoff |
| RetryClient.RetryOperation | internal/controller/dynamodb/retry_client.go:148-198 | the loop gives the row, verdict, calls, sleep and effects of the recursion the lemmas are about |
| RetryOutcomes.OperationEndsIff | internal/controller/dynamodb/retry_client.go:73-198 | for every script, configuration and row: with which verdict, and after which attempt, an operation ends, from the fates, errors and guards of the attempts alone |
| RetryOutcomes.TransientErrorsDoNotMatter | internal/controller/dynamodb/retry_client.go:38-103 | the default client goes on after exactly the four listed types and the errors that say they are temporary, up to five times; then an acknowledged write that is allowed succeeds, and anything else is final |
| RetryOutcomes.UndisturbedWrite | internal/controller/dynamodb/retry_client.go:148-198 | with nobody else about, it then succeeds exactly if the row allows it, and leaves the row that its caller asked for |
| RetryOutcomes.OperationSleeps | internal/controller/dynamodb/retry_client.go:148-198 | it sleeps exactly the backoffs before its attempts, and the part of the one during which it is cancelled |
| RetryOutcomes.DefaultWait | internal/controller/dynamodb/retry_client.go:38-145 | the default client waits 100 ms doubled once per attempt, give or take a fifth |
| RetryOutcomes.LongestWait | internal/controller/dynamodb/retry_client.go:131-145 | and never more than five seconds |
| RetryClient.BackoffGrows | internal/controller/dynamodb/retry_client.go:131-145 | with a multiplier of at least 1.5 a later attempt never waits less, for all jitters from 0.8 to 1.2 |
| RetryClient.NextWaitIsNoLessIff | internal/controller/dynamodb/retry_client.go:131-145 | of two consecutive attempts the later waits no less, for every initial and largest backoff, if and only if the multiplier makes up for their jitters |
| RetryJitter.FiveWaitsGrowIff | internal/controller/dynamodb/retry_client.go:131-145 | with the jitters of the source none of three to five retries waits less than an earlier one, for every initial and largest backoff, if and only if the multiplier makes up for the jitters of the second and the third |
| RetryJitter.ThirdWaitThreshold | internal/controller/dynamodb/retry_client.go:131-145 | the least such multiplier lies between 1.358 and 1.3591 |
| RetryJitter.WaitsGrowIff | internal/controller/dynamodb/retry_client.go:131-145 | of any number of retries none waits less than an earlier one, for every initial and largest backoff, if and only if the multiplier makes up for the jitters of each two in a row |
| RetryJitter.AllWaitsGrow | internal/controller/dynamodb/retry_client.go:131-145 | with a multiplier of at least 1 + sin(1)/2 no retry waits less than an earlier one, however many there are |
| ServiceCache.HitsAreLessThanATtlOld | internal/controller/dynamodb/manager.go:227-261 | the record of a hit was fetched from a table that held it less than one TTL earlier, in every interleaving of gets, updates, bypassing writers and cleanups |
| ServiceCache.HitIsExactIffNotRaised | internal/controller/dynamodb/manager.go:227-279 | what a hit returns is that value with its version raised once for every update that was given the record, so it is exact if and only if there was none |
| ServiceCache.AnInvalidatedValueReturns | internal/controller/dynamodb/manager.go:264-279 | the bound is sharp, also long after an update through the cache: a fetch that overlaps it brings the older value back |
| ServiceCache.UpdateIsVisibleIff | internal/controller/dynamodb/manager.go:264-279 | after an invalidation every get that starts and ends before the next write returns the table's value if and only if no fetch under way carries another value that would still be fresh |
| ServiceCache.SettledAfterATtl | internal/controller/dynamodb/manager.go:227-261 | once a property of the value has held for one TTL, every get that starts returns a value with it, by hit or by miss |
| ServiceCache.CleanupRemovesIff | internal/controller/dynamodb/manager.go:182-209 | a cleanup removes exactly the entries that had expired before the clock it captured, and changes no other |
| ServiceCache.CleanupChangesNoGet | internal/controller/dynamodb/manager.go:182-209 | a run and the same run without its cleanups give every get the same outcome |
| CacheService.DynamoDBService.GetGroupConfig | internal/controller/dynamodb/manager.go:227-261 | a hit returns the cached object itself, a miss a fresh one that it caches; both are the machine's undisturbed get |
| CacheService.DynamoDBService.UpdateGroupConfig | internal/controller/dynamodb/manager.go:264-279 | raises the version of the caller's record whatever happens, and drops the cached one only if the put went through |
| CacheService.DynamoDBService.CleanupExpiredEntries | internal/controller/dynamodb/manager.go:182-209 | each of the three caches keeps exactly the entries that have not expired, unchanged |
| CacheService.RefusedUpdateShowsThrough | internal/controller/dynamodb/manager.go:264-279 | after a refused update of a cached record the next hit returns its version raised by one, while the table is unchanged |
| CacheService.SecondUpdateUndoesACommit | internal/controller/dynamodb/manager.go:264-279 | the second try through the cache then succeeds over a commit that was not seen, and puts the old owners back |
| ClusterView.RolesConverge | internal/controller/failovergroup/manager.go:571-580 | once the owner has been the same for one TTL, any pass whose config read starts then, hit or miss, writes PRIMARY exactly on the owner |
| ClusterView.SettledReadIsTheOwner | internal/controller/failovergroup/manager.go:623-660 | such a read returns the owner |
| RolePasses.PeriodicPasses | internal/controller/failovergroup/manager.go:600-660 | in every sequence of passes, with reads and updates that fail, a role that is written is that of the owner in the last read that was kept; without one, PRIMARY exactly if the status named this cluster at first, or nobody |
| RolePasses.OneWritesPrimary | internal/controller/failovergroup/manager.go:571-580 | of two clusters whose last reads agree on the owner at most one writes PRIMARY, and it is the owner |
| ClusterView.Manager.SyncPass | internal/controller/failovergroup/manager.go:571-580 | the role a pass writes is that of the owner it read, or failing that of its status |
| ClusterView.Manager.UpdateLocalStatus | internal/controller/failovergroup/manager.go:600-825 | the list shows the rows and this cluster once each, PRIMARY exactly on the active cluster; it is left alone exactly when it is already a permutation of the new one; the health is the primary's |
| ClusterView.Manager.BuildClusters | internal/controller/failovergroup/manager.go:681-739 | whatever order the rows are visited in, the names are distinct and cover this cluster and every row, and every other cluster becomes known once |
| ClusterView.Manager.ClustersChanged | internal/controller/failovergroup/manager.go:741-759 | reports a change if and only if the old list is not a permutation of the new one |
| ClusterView.Manager.TrackKnownCluster | internal/controller/failovergroup/manager.go:1051-1067 | a name is added once, at the end, and no other list changes |
| ClusterView.UnchangedIffPermutation | internal/controller/failovergroup/manager.go:741-759 | comparing by name in a map finds no change exactly on permutations, even if the old list repeats names |
| ClusterView.OrderDoesNotMatter | internal/controller/failovergroup/manager.go:790-798 | PRIMARY stands exactly on the active cluster, and the health is that of its row, OK for this cluster itself and UNKNOWN if it is not listed, in whatever order |
| ClusterView.AllViewsAreOne | internal/controller/failovergroup/manager.go:681-739 | any two lists built from the same rows are permutations of each other |
| AutoFailover.CheckGroupNeedsFailover | internal/controller/failover/auto_failover.go:60-98 | with one primary a target is chosen if and only if the primary's heartbeat is too old and some standby is healthy |
| AutoFailover.ChosenTargetIsAdmissible | internal/controller/failover/auto_failover.go:101-118 | on a status built by updateLocalStatus any chosen target is not the active cluster and passes validation without force |
| AutoFailover.TriggerOnAView | internal/controller/failover/auto_failover.go:60-148 | on such a status the decision is that of the heartbeat and the health in the rows alone, whatever their order |
| TriggerRuns.TriggerIff | internal/controller/failover/auto_failover.go:60-148 | at any time after a pass built the list: it goes off exactly if the primary has a row whose heartbeat is older than the limit, five minutes if the timeout does not parse |
| TriggerRuns.PunctualPrimaryIsKept | internal/controller/failover/auto_failover.go:131-148 | in every run a primary whose report interval, with the age of the list and one second, is within the limit is never given a target |
| TriggerRuns.SilentPrimaryIsFailedOver | internal/controller/failover/auto_failover.go:131-148 | in every run a primary that has been silent for longer than the limit is given a target by every check on another cluster whose list has its row |
| TriggerRuns.TriggerBoundIsSharp | internal/controller/failover/auto_failover.go:131-148 | for every interval, delay and limit: one nanosecond beyond the bound a primary that is on time is failed over |
| TriggerRuns.RemovedPrimaryIsNotFailedOver | internal/controller/failovergroup/manager.go:1095-1171 | once a primary's row has been removed, no check of a list fetched then ever goes off |
| TriggerRuns.SilentPrimaryIsForgotten | internal/controller/failovergroup/manager.go:1095-1171 | a run in which the row of a silent primary is removed as soon as five minutes have passed |
| AutoFailover.ValidateFailover | internal/workflow/tasks.go:228-268 | accepts exactly the listed targets that are healthy standbys of an active primary, with the relaxations of force |
| StalePeers.PunctualPeerIsMissingIff | internal/controller/failovergroup/manager.go:1095-1171 | in every run of passes over any groups: if P, the age of a peer's timestamp, plus the delay from fetch to check plus one second is at most five minutes, the peer has no row exactly when since its last report a pass removed it that was shown another group's or a past row under its name and found that one stale |
| StalePeers.PunctualPeerStays | internal/controller/failovergroup/manager.go:1095-1171 | so it is never removed where fetches show the group's own rows |
| StalePeers.ScanRemovesAPunctualPeer | internal/controller/dynamodb/state_manager.go:1028-1060 | a run in which the scan shows a namesake's old row and a peer that has just reported is removed |
| StalePeers.BoundIsSharp | internal/controller/failovergroup/manager.go:1095-1171 | for every report interval of at least a nanosecond and every delay beyond the bound there is a run in which a peer that is on time is removed, although its row is fresh by then |
| StalePeers.Statuses.CleanupStaleClusterStatuses | internal/controller/failovergroup/manager.go:1095-1171 | requests the removal of exactly the other clusters' rows that are older than five minutes, and never touches its own |
| Workflow.Factory.CreateConsistencyModeWorkflow | internal/workflow/factory.go:90-185 | the workflow is the cluster's part of the adapter's consistency list, in the same order |
| Workflow.Factory.CreateUptimeModeWorkflow | internal/workflow/factory.go:188-273 | the same for the uptime list, with the switch of the traffic enabled on the target |
| WorkflowOrder.AdapterIsOrdered | internal/workflow/adapter.go:158-229 | in both lists every task comes after what it needs, the marks before the waits that may give up |
| WorkflowOrder.ProjectionIsOrdered | internal/workflow/factory.go:90-273 | any cluster's part of an ordered list is ordered if the waits block as documented; with the waits as coded every part is but the target's in consistency mode and the source's in uptime mode |
| WorkflowRun.NeverBothPrimary | internal/workflow/factory.go:90-185 | consistency: in every interleaving of any number of engines that run the adapter's list or reliable parts of it, with any task failing in part, no volume is primary on both clusters; and if no wait for the source's pods finishes while a workload of the source is scaled up, target workloads never run while source workloads run |
| WorkflowRun.AlwaysAvailable | internal/workflow/adapter.go:195-229 | uptime: in every state of every such run one cluster has all volumes primary, all workloads running and traffic directed to it |
| WorkflowFailures.ConsistencyAsCodedIff | internal/workflow/tasks_additional.go:99-144 | with the waits as coded, every run of the adapter's consistency list and of given parts of it keeps the volumes apart if and only if the target's part alone is not among them or there are no volumes; in the runs in which no wait finishes early, so for the workloads |
| WorkflowFailures.UptimeAsCodedIff | internal/workflow/tasks_additional.go:506-519 | with the waits as coded, every run of the adapter's uptime list and of given parts of it keeps the group available if and only if the source's part alone is not among them |
| WorkflowFailures.GivingUpBreaksConsistency | internal/workflow/tasks_additional.go:99-144 | with the wait as coded, the target's part alone makes a volume primary on both clusters |
| WorkflowFailures.GivingUpBreaksUptime | internal/workflow/tasks_additional.go:506-519 | with the wait as coded, the source's part alone leaves the group without traffic |
| WorkflowFailures.EarlyFinishLetsBothRun | internal/controller/failover/failover_stages.go:90-110 | any run in which a wait for the source's pods finishes while a workload is scaled up can be continued until it runs on both clusters, if the engine runs the whole list or the target's part may be started |
| WorkflowRun.FluxKeepsOutIsNeverEarly | internal/controller/failover/failover_stages.go:90-110 | no wait finishes early in a run in which Flux never scales up a workload of the source that was scaled down |
| WorkflowFailures.FluxMakesBothRun | internal/controller/failover/failover_stages.go:90-110 | a run in which Flux restores a workload between the scale-down and the annotation, the wait for its pods still succeeds, and in the end the workload runs on both clusters |
| WorkflowEngine.Engine.Execute | internal/workflow/engine.go:53-160 | runs the tasks in order, one step each, and none after a failure; succeeds exactly when all are finished |
| WorkflowEngine.Engine.ProcessFailover | internal/workflow/adapter.go:60-155 | the run is one of the machine with the list of its mode; it ends as SUCCESS exactly when every task was finished, otherwise as FAILED; on SUCCESS, in either mode and whatever other engines do, the target serves and has the traffic, the source has neither traffic nor a primary volume, the global state names the target, the history is recorded and the lock is released |
| WorkflowCompletion.FailoverCanSucceed | internal/workflow/adapter.go:158-229 | from every state that a run can reach, in both modes and with either kind of wait, a failover that starts then can finish, and has then failed over |
| WorkflowCompletion.MarksAreEarned | internal/workflow/tasks_completion.go:47-130 | in every run the global state names the target, the history is recorded, the data is verified and each mark is set exactly if some engine has carried out the task for it |
| WorkflowCompletion.NothingChangesWithoutTheLock | internal/workflow/engine.go:53-160 | in every run of any lists of both modes and their parts, an engine changes the clusters only while it has the lock; one that is through has released it, and one that failed in between has not |
| WorkflowEngine.WaitForVolumesReadyForPromotion | internal/workflow/tasks_additional.go:99-144 | always reports ready, after at most four polls, and sets the shared flag itself if no task has |
| Keys.RowKeyInjective | internal/controller/dynamodb/manager.go:411-423 | row keys are injective in operator, namespace, name and kind, for any operator, while namespace and name have no separator |
| Keys.CacheKeysInjective | internal/controller/dynamodb/manager.go:212-224 | cache keys are injective in namespace, name and cluster while namespace and name have no colon, and no two of the three caches have a key in common |
| Keys.SeparatorsCollide | internal/controller/dynamodb/manager.go:212-224 | the conditions are needed: with separators two groups share rows and cache entries |
| Keys.WritesStayInTheirPartition | internal/controller/dynamodb/manager.go:411-423 | no put or deletion of one group's row changes a row of another group |
| GroupTable.QueriedKinds | internal/controller/dynamodb/state_manager.go:403-616 | the queries by prefix find exactly the status rows, or the history, of their group |
| GroupTable.InExactlyOneBatch | internal/controller/dynamodb/state_manager.go:437-507 | every listed record is in exactly one batch |
| GroupTable.Table.DeleteAll | internal/controller/dynamodb/state_manager.go:403-616 | the batches of at most 25 cover the listed records in order; gone are exactly the records that an answered batch did not leave undone; success, if and only if every batch was processed whole, means no such record is left; nothing else is touched |
| GroupTable.Table.BatchGet | internal/controller/dynamodb/state_manager.go:904-1024 | the batches of at most 100 request each listed cluster once, and the result holds exactly the rows of the answered batches |
| GroupTable.Table.GetAllClusterStatuses | internal/controller/dynamodb/state_manager.go:856-1147 | if some batch is answered the result is the group's own rows; if none is, it is the rows of every group in the table |

## Left out

- Construction of clients, configuration, table creation, logging, delays and sleeps.
- The wrappers around deployments, volume replications and other resources: only their documented effect appears, in the workflow model.
- JSON and condition expressions: guards are predicates and writes are map updates. Query paging is not part of this model; a query lists everything.
- Records in the protocol machine are values; sharing of one record object between callers appears only in the service cache, where the cache gives out its own object.
- The caches of cluster statuses and group states run the same steps as that of the configurations and share its theorems; a group state, which is read from several rows, counts as one value there. Only the cleanup is modelled for all three separately.
- The machine of the protocol has no `UpdateSuspension`, `UpdateGroupState` or `transferOwnership`: that nothing but the moves changes the owners rests on it. These writers are in `ConfigWriters.dfy`.
- Deletion of a group is an event of `ConfigWriters.dfy` and of no other machine; the release on deletion, which passes the holder's name as a token, is left out with it.
- ProtocolTheorems.PrimaryIsUnique: speaks of runs without status writes that were decided earlier; `StatusRows.MislabelledIff` says what such writes do.
- A target without a status row: `ValidateFailoverPreconditions` dereferences it without a check, and the model lets the validation fail instead.
- The two forms in which the last failover is stored, text and map, are one reference with a name and a time.
- In `ConfigWriters.dfy` any transfer that was not acknowledged may go on to the forced write; in the code only one that was refused does, so the machine has more runs than the code.
- RetryClient.AtMostOneEffect: the unconditional write and deletion are excluded from the writes of others; with them an old version can come back.
- Backoff milliseconds are real before they are cut off. In `RetryClient.dfy` the jitter is any number from 0.8 to 1.2; in `RetryJitter.dfy` it is 0.8 + 0.4 |sin(attempt)|, for a sine that lies between the partial sums of its series and, in `AllWaitsGrow`, has the sine of a difference.
- What a caller changes in a cached record besides its version: no caller of the service in the repository changes anything else.
- A status that is stored keeps of its sync flag, in `RolePasses.dfy`, only whether it is "Synced". The registration of a cluster that has no row is left out there.
- The flag that a wait sets when it gives up is the context's own; the machine of the workflows keeps only the mark that both clusters share.
- The branches that skip the lock when an error text names its holder, and the forced bypass of the lock task.
- The health branch of the automatic trigger, which never fires, and the creation of the failover resource.
- Crashes of pods that nobody asked for: in the workflow model running workloads stop only after they are scaled down.

# Models of the codesamplex server, its activity tracker and its deployment supervisors

The parts of codesamplex that run concurrently, that may be interrupted at any instant, or that keep bounded state by
hand, written as Dafny models with their guarantees proved.

Protocols are step systems: a `State`, a `Step` for each lock region, atomic map operation, file operation or signal, a
function that applies one step (a step that is not enabled changes nothing), an invariant that every step keeps, and
theorems about every run. Code that changes fields, lists, maps or counters in place is a class whose methods are proved
against functions of the old state; the theorems are about those functions. `requires` clauses say what callers owe.

| component | modules |
|---|---|
| request coalescing | `Singleflight`, `SingleflightSafety`, `SingleflightAnswers` |
| package-load admission | `AdmissionClock`, `AdmissionGate`, `AdmissionOutcomes` |
| snapshot payload cache and readers | `SnapshotRows`, `SnapshotCache` |
| activity tracker | `ActivityStore`, `ActivityTracker`, `ActivityProtocol`, `ActivityConservation`, `ActivityRefinement`, `ActivityLosses`, `ActivityProgress` |
| deployment supervisor | `Supervisor`, `SupervisorSafety`, `SupervisorCommit`, `PhaseBudget`, `RepairRange` |
| owner-lock release | `LockRelease`, `LockReleaseSafety` |
| resource governor, boot lane | `Governor`, `BootSchedule` |
| bounded caches | `BoundedCache`, `SampleArtifactCache`, `FailureClusterCache` |
| Rust use trees | `UseTree` |
| failure-ledger census | `KeysetWalk` |
| access-log aggregation | `AccessLog`, `AccessReport`, `AccessConsistency` |

`dafny verify dfyconfig.toml` checks all of it.

Three things one might expect do not hold of the code; each has its input and its exact condition.

- A caller who joins a load and leaves does not always leave the load running: a call is abandoned if and only if its only
  joined caller departs before it has finished (`SingleflightSafety.AbandonedExactlyByTheLastDeparture`). A refresh that
  `Start` began has no waiters of its own, so one visitor who joins it and leaves takes it down
  (`SingleflightSafety.JoinedRefreshCanBeAbandoned`).
- A deployment whose phase is `committed` need not conclude `success`
  (`SupervisorSafety.CommittedCanConcludeFailure`): the record is `committed` with `failure` if and only if an exception
  struck between the two halves of the committing save, no save reached the file before the handler looked, and the
  handler's own save completed (`SupervisorCommit.CommittedFailureExactlyWhenInterrupted`). The phase, not the
  conclusion, is the commit marker; once either record is written it is never changed
  (`SupervisorSafety.TerminalRecordEndsEverything`).
- A composite payload key need not name one row. Two package URLs can share a key if and only if one of them, with the
  separator appended, is a prefix of the other (`SnapshotRows.KeysMeetIffClash`); for every such pair the payload cache
  mixes loads (`SnapshotCache.ClashMixesLoads`), and for every set without such a pair it is coherent. Package URLs
  without the separator are such a set (`SnapshotRows.ClashNeedsASeparator`).

Where a comment and the code differ, the code is modelled: the boot schedule's comment calls the Builder start at the
end unconditional, but a shutdown returns before it; `BootSchedule.BuilderStartsLast` says exactly when it starts.

## Model

| member | source | states |
|---|---|---|
| `Singleflight.SharedCall.AddWaiter` | cmd/csx-server/webstore.go:276-284 | joining succeeds exactly for a call that is neither abandoned nor finished, and then counts one waiter more |
| `Singleflight.SharedCall.ReleaseWaiter` | cmd/csx-server/webstore.go:317-323 | the last waiter of an unfinished call abandons and cancels it; nobody else's departure does |
| `Singleflight.SharedCall.Finish` | cmd/csx-server/webstore.go:325-333 | the given result is published, the load cancelled and `done` closed, once |
| `SingleflightSafety.StepKeeps` | cmd/csx-server/webstore.go:184-333 | each lock region and map operation of `Start`, `Do`, `wait` and the loader keeps the group's invariant, in any interleaving |
| `SingleflightSafety.OneLiveLoadPerKey` | cmd/csx-server/webstore.go:184-273 | in every run at most one non-abandoned load function executes per key, it is the mapped one, and a finished call is never mapped |
| `SingleflightSafety.OnlyDeadCallsAreUnmapped` | cmd/csx-server/webstore.go:207-271 | a mapping is only ever deleted for an abandoned call or by that call's own returned loader, so no successor falls to a stale delete |
| `SingleflightSafety.WaitersAreTheJoinedCallers` | cmd/csx-server/webstore.go:276-333 | the waiter count is the number of callers joined now, abandonment means zero waiters, and `done` has been closed exactly as often as the call finished |
| `SingleflightSafety.DepartureNeverCancelsAnAwaitedLoad` | cmd/csx-server/webstore.go:289-323 | while a caller is joined, its call is cancelled only by having finished |
| `SingleflightSafety.RetryMeetsAnotherCall` | cmd/csx-server/webstore.go:247-265 | a caller turned away by a dead call never meets that call again |
| `SingleflightSafety.ReturnedValueWasPublished` | cmd/csx-server/webstore.go:289-315 | a returned value is the published result of a finished call for the caller's own key |
| `SingleflightSafety.RunIsLater` | cmd/csx-server/webstore.go:276-333 | over any continuation abandonment and its zero waiters last for ever, a result is never replaced, and an unmapped call is never mapped again |
| `SingleflightSafety.AbandonedExactlyByTheLastDeparture` | cmd/csx-server/webstore.go:289-323 | at every point of every run a step abandons a live call if and only if it takes away the only joined caller, its context done, before the call has finished |
| `SingleflightSafety.JoinedRefreshCanBeAbandoned` | cmd/csx-server/webstore.go:200-206 | the input for which that bites: a refresh begun with no waiters, joined and left by one visitor |
| `SingleflightAnswers.ResultIsWhatTheLoadReturned` | cmd/csx-server/webstore.go:207-226 | in every run a finished call's result is what its load function returned, at the step at which it returned |
| `SingleflightAnswers.LoadReturnsOnce` | cmd/csx-server/webstore.go:231-240 | a call's load function returns at one step of a run |
| `SingleflightAnswers.ReturnedValueWasLoaded` | cmd/csx-server/webstore.go:289-315 | in every run the value a caller returns is what the load function of a call for its own key returned |
| `SingleflightAnswers.CanceledMeansOwnContext` | cmd/csx-server/webstore.go:243-315 | in every run a caller is answered with a cancellation only when its own context is done |
| `SingleflightAnswers.HeldBackAfterAFailedRefresh` | cmd/csx-server/webstore.go:207-223 | in every run a key is held back exactly while the last refresh of it that ended had failed |
| `SingleflightAnswers.RefreshBeginsExactlyWhen` | cmd/csx-server/webstore.go:184-206 | a refresh begins exactly when its key is idle and not held back or ready again, as a mapped call with no waiters |
| `SingleflightAnswers.LoaderFinishes` | cmd/csx-server/webstore.go:207-226 | a loader publishes what its load function returned or returns now, closes `done` once and leaves its key free, by its own steps alone |
| `SingleflightAnswers.JoinedCallerReturns` | cmd/csx-server/webstore.go:242-315 | from every reachable state a joined caller with a live context comes back with exactly what its call's load function returned or returns now, by finitely many steps of that loader and its own |
| `SingleflightAnswers.ArrivingCallerReturns` | cmd/csx-server/webstore.go:242-274 | whatever is under way, a caller that arrives and is left alone joins or begins a call and comes back with a loaded value |
| `AdmissionClock.SharedClock.Begin` | cmd/csx-server/dbclass.go:260-267 | one waiter more, the episode opened by the first; handed instants in order, the clock goes on tracking the history |
| `AdmissionClock.SharedClock.End` | cmd/csx-server/dbclass.go:269-276 | one waiter less, the episode charged by the last; handed instants in order, the clock goes on tracking the history |
| `AdmissionClock.SharedClock.Spent` | cmd/csx-server/dbclass.go:279-286 | the charge, an open episode included; for instants in order it is the size of the union of the request's wait intervals |
| `AdmissionClock.SpentIsTheUnion` | cmd/csx-server/dbclass.go:248-286 | three numbers suffice: for any overlapping and serial history the reading is the measure of the union |
| `AdmissionGate.GateTimeStaysWithinAllowance` | cmd/csx-server/webstore.go:520-565 | in every run each request's union of waits is what its clock says and never exceeds its allowance |
| `AdmissionGate.AtMostFourSlots` | cmd/csx-server/webstore.go:527-565 | in every run never more than four slots are held |
| `AdmissionOutcomes.AdmitTakesAFreeSlot` | cmd/csx-server/webstore.go:545-550 | in every run a waiting visitor gets a slot and holds it if and only if fewer than four are held; otherwise nothing changes |
| `AdmissionOutcomes.FinishFreesOneSlot` | cmd/csx-server/webstore.go:549-550 | a holder who is done gives exactly one slot back |
| `AdmissionOutcomes.WaitsEndAsTheyShould` | cmd/csx-server/webstore.go:551-564 | a visitor whose context ends leaves; one whose timer fires is refused, and not before its deadline |
| `AdmissionOutcomes.RefusedOnlyWhenTheAllowanceIsSpent` | cmd/csx-server/webstore.go:531-541 | in every run an interactive visitor is refused only at an instant at which its request's union of waits equals the whole allowance |
| `AdmissionOutcomes.NoClockRefusedAfterItsWait` | cmd/csx-server/webstore.go:529-530 | a read with no clock is refused only when its timer fires, exactly its wait after it asked |
| `AdmissionGate.RefusedAtOnceIffAllowanceIsSpent` | cmd/csx-server/webstore.go:527-541 | a visitor is refused without waiting exactly when the whole allowance has been stood at the gate |
| `AdmissionGate.ConcurrentWaitersShareOneDeadline` | cmd/csx-server/webstore.go:527-565 | all concurrent waiters of one request have the same deadline |
| `AdmissionGate.EveryBeginHasOneEnd` | cmd/csx-server/webstore.go:540-565 | a wait is open exactly while its visitor waits, and once closed no step changes it |
| `SnapshotRows.SnapshotFromRows` | cmd/csx-server/snapshot_payload_cache.go:96-103 | the search finds the first matching row's payload, or nothing exactly when no row matches |
| `SnapshotRows.GroupRows` | cmd/csx-server/snapshot_payload_cache.go:45-49 | each package URL gets exactly its own rows, in order |
| `SnapshotRows.KeysMeetIffClash` | cmd/csx-server/snapshot_payload_cache.go:70-74 | two package URLs can share a composite key if and only if one is, with the separator appended, a prefix of the other |
| `SnapshotRows.ClashNeedsASeparator` | cmd/csx-server/snapshot_payload_cache.go:70-74 | package URLs without the separator never clash |
| `SnapshotRows.KeyIsInjective` | cmd/csx-server/snapshot_payload_cache.go:70-74 | among package URLs that do not clash a composite key names one package URL and one symbol |
| `SnapshotRows.GroupAnswersAlike` | cmd/csx-server/snapshot_payload_cache.go:45-49 | a package URL's own rows answer as the whole load does |
| `SnapshotCache.Cache.Evict` | cmd/csx-server/snapshot_payload_cache.go:30-43 | payloads, stamp, list element and size of one package URL go together and nothing else changes |
| `SnapshotCache.Cache.EvictFor` | cmd/csx-server/snapshot_payload_cache.go:66-68 | the loop drops the shortest least-recently-stored prefix that makes room |
| `SnapshotCache.Cache.CachePurl` | cmd/csx-server/snapshot_payload_cache.go:55-78 | one package URL's load replaces the previous one as a whole, or is not retained when it is too large |
| `SnapshotCache.Cache.CacheRows` | cmd/csx-server/snapshot_payload_cache.go:45-79 | a completed load becomes the one answer for every package URL it was asked about |
| `SnapshotCache.Cache.ReplaceCorpus` | cmd/csx-server/snapshot_payload_cache.go:83-94 | the corpus takes over and every per-package payload and stamp goes with it |
| `SnapshotCache.BuildIndex` | cmd/csx-server/snapshot_payload_cache.go:83-88 | the corpus index points at the one row of each key and lists every row |
| `SnapshotCache.Cache.FromLoadedPurl` | cmd/csx-server/webstore.go:1078-1098 | a loaded package URL answers from its one load while that is fresh, absence included, and demands a reload otherwise |
| `SnapshotCache.Cache.Read` | cmd/csx-server/webstore.go:854-962 | the reader answers from the corpus or from one fresh complete load, or demands a reload |
| `SnapshotCache.ClashMixesLoads` | cmd/csx-server/snapshot_payload_cache.go:30-78 | for every clashing pair there are symbols at which a load of the second answers for the first and evicting the second takes a payload of the first |
| `SnapshotCache.LoadAnswersAtOnce` | cmd/csx-server/snapshot_payload_cache.go:55-78 | a completed load that fits answers for its package URL from then on, absence included, while it is fresh |
| `SnapshotCache.RetainedIsTheLatestLoad` | cmd/csx-server/snapshot_payload_cache.go:45-94 | after any history what is retained for a package URL is the load completed last for it |
| `SnapshotCache.AnswersComeFromOneCompleteLoad` | cmd/csx-server/webstore.go:854-1098 | after any history of loads, evictions and corpus replacements every answer is that of one single complete load, and absence is answered only when that load lacked the symbol |
| `ActivityTracker.Coalesce` | internal/activity/activity.go:592-605 | the coalesced map says of each identity exactly what the batch says, owner bits joined |
| `ActivityTracker.Tracker.MustWrite` | internal/activity/activity.go:629-641 | a bucket needs a write unless its epoch's memory holds it with the owner bit it carries |
| `ActivityTracker.Tracker.Remember` | internal/activity/activity.go:643-665 | the memory after the rows, epoch rollovers and size cap included, and it stays sound |
| `ActivityTracker.Tracker.CountAtRisk` | internal/activity/activity.go:586-591 | the observations that a failed write would lose |
| `ActivityTracker.Tracker.SelectRows` | internal/activity/activity.go:606-611 | exactly the coalesced buckets that need a write, in any map order |
| `ActivityTracker.Tracker.FlushBatch` | internal/activity/activity.go:581-624 | a successful flush leaves the store as if every observation had been written by itself; a failing one may have written any of the rows it sent, each in full, and counts what it may have lost |
| `ActivityTracker.Tracker.MarkOwner` | internal/activity/activity.go:380-394 | both buckets are stored with the owner bit before they are remembered; a failing call may have stored either and remembers nothing |
| `ActivityStore.SelectionWritesEverything` | internal/activity/activity.go:581-624 | writing a selection that leaves out only covered buckets equals writing every bucket of the batch |
| `ActivityStore.NoWriteMeansCovered` | internal/activity/activity.go:629-641 | what a sound memory suppresses is already in the store with at least that owner bit |
| `ActivityStore.RememberedAllIsSound` | internal/activity/activity.go:643-665 | remembering covered rows keeps every remembered bucket covered and the size cap kept |
| `ActivityStore.RememberedIsNotWrittenAgain` | internal/activity/activity.go:629-665 | a remembered bucket needs no further write if and only if its epoch is not past and the memory had room for it |
| `ActivityStore.RememberedRowsAreNotWrittenAgain` | internal/activity/activity.go:629-665 | rows of one current epoch a kind that fit below the cap are all known after being remembered |
| `ActivityConservation.StepKeeps` | internal/activity/activity.go:310-665 | every step of handlers, shutdown, worker and owner marking keeps the tracker's invariant |
| `ActivityConservation.EveryObservationIsAccountedFor` | internal/activity/activity.go:310-344 | at every point of every run an observation that left the gate is pending, covered by the store or counted as dropped, and both counters are exactly those populations |
| `ActivityLosses.SendEnqueuesExactlyWithRoom` | internal/activity/activity.go:332-338 | an observation is enqueued if and only if the queue has room, and is otherwise on its way to be counted as dropped |
| `ActivityLosses.LostExactlyWhen` | internal/activity/activity.go:332-338 | in every run an observation is lost if and only if its send met a full queue and the drop was counted, or a failing write struck its batch after the flush had found one of its buckets to need a write |
| `ActivityLosses.QueueAndBatchAreBounded` | internal/activity/activity.go:545-579 | in every run the queue stays within its size and the staged batch within the batch size |
| `ActivityLosses.SentRowsAreSuppressed` | internal/activity/activity.go:606-641 | what a successful flush sent is known from then on: within the cap and the current epoch its rows need no further write |
| `ActivityProgress.WorkerSettlesEverything` | internal/activity/activity.go:511-624 | from every point of every run the worker's own steps, the store answering, lead to nothing queued or staged, everything outside the gate stored or counted as dropped, and to done if the stop was signaled |
| `ActivityConservation.NothingEntersAClosedGate` | internal/activity/activity.go:346-376 | after the gate closes nothing is admitted and the queue only loses its head |
| `ActivityConservation.ShutdownLosesNothingSilently` | internal/activity/activity.go:511-579 | when `done` closes, queue and batch are empty, pending is zero, and every admitted observation is stored or counted as dropped |
| `ActivityConservation.RememberedIsStored` | internal/activity/activity.go:626-665 | in every run everything remembered is in the store with at least that owner bit, within the size cap |
| `ActivityRefinement.CoalescedWritesRefineIndividualWrites` | internal/activity/activity.go:581-665 | at every point of every interleaved run, rollovers, owner marks, failing calls and the cap included, the store is what writing individually everything that was said leaves: each settled observation's buckets, each mark, and the rows failing calls got through |
| `ActivityRefinement.StoreIsWhatWasSaid` | internal/activity/activity.go:581-665 | everything that was said can be listed, and the store of every run is that list written bucket by bucket |
| `ActivityRefinement.CleanRunStoresEveryObservation` | internal/activity/activity.go:511-624 | a run shut down with nothing lost, no mark and no failing call has stored exactly what writing every admitted observation by itself would have |
| `ActivityLosses.UntroubledRunStoresEveryObservation` | internal/activity/activity.go:511-624 | so has every run in which no send met a full queue, no call failed and no owner was marked: nothing is lost in it |
| `SupervisorSafety.StepKeeps` | deploy/lightsail/offline-migration.py:443-465 | every step of `run`, `finalize`, their saves, exceptions, signals and kills keeps the supervisor's invariant |
| `SupervisorSafety.RecordIsEarned` | deploy/lightsail/offline-migration.py:869-974 | a record is written on the whole trail of one process, actions and passed phases in order: `committed` on all of acceptance, a rolled-back record on cleanup and both scripts, one of rolling back or of its failure on cleanup, and a success only with `committed` |
| `SupervisorSafety.CommittedSwitchedServers` | deploy/lightsail/offline-migration.py:968-974 | a committed record means that one process stopped the old server, then started the new one and its proxy |
| `SupervisorSafety.RolledBackRanBothScripts` | deploy/lightsail/offline-migration.py:1069-1082 | a rolled-back record means that one process ran the server's rollback script and then the proxy's |
| `SupervisorSafety.ProxyIsRestoredAfterAFailedServerScript` | deploy/lightsail/offline-migration.py:1070-1080 | after a server script that failed at any point the proxy script is still run, and the rollback is then recorded as failed |
| `SupervisorSafety.TerminalRecordEndsEverything` | deploy/lightsail/offline-migration.py:1052-1118 | after a terminal record no process acts on the host, and every later record, the file and any live memory repeat it exactly: a committed deployment is never stopped or rolled back and a durable success never becomes a failure |
| `SupervisorSafety.RollbackFollowsCleanup` | deploy/lightsail/offline-migration.py:1064-1077 | a rollback script runs only after recovery cleanup returned without error in the same process |
| `SupervisorSafety.IntentPrecedesStop` | deploy/lightsail/offline-migration.py:596-607 | the quiescing record is durable before the server is stopped |
| `SupervisorSafety.IntentPrecedesEveryChange` | deploy/lightsail/offline-migration.py:600-637 | before a process stops or starts a server, starts the helper or runs a rollback script, the phase that announces it is durable |
| `SupervisorSafety.StoppedIsNeverPreflight` | deploy/lightsail/offline-migration.py:596-601 | once the server was stopped no reader of the record can take it for a failed preflight |
| `SupervisorSafety.ZeroExitIsRecorded` | deploy/lightsail/offline-migration.py:1085-1118 | exit code zero follows a terminal record, for `run` the durable success itself |
| `SupervisorSafety.FailedExitIsRecorded` | deploy/lightsail/offline-migration.py:1116-1118 | a nonzero exit follows at once on the same process's record of a failure |
| `SupervisorSafety.UndisturbedRunCommits` | deploy/lightsail/offline-migration.py:968-974 | left alone from any unsettled record, `run` ends with a durable success |
| `SupervisorSafety.UndisturbedFinalizeSettles` | deploy/lightsail/offline-migration.py:1052-1082 | from any interrupted point one undisturbed `finalize` keeps a terminal record or rolls back, degraded exactly when cleanup was |
| `SupervisorSafety.CommittedCanConcludeFailure` | deploy/lightsail/offline-migration.py:443-445 | a run that ends with phase committed and conclusion failure |
| `SupervisorCommit.CommittedFailureExactlyWhenInterrupted` | deploy/lightsail/offline-migration.py:878-882 | the record is committed with failure if and only if an exception struck a `run` between noting and saving its commit, no save had reached the file when its handler looked, and the handler's save completed |
| `PhaseBudget.Host.Run` | deploy/lightsail/offline-migration.py:447-492 | one mutable deadline, narrowed and restored, does what lexically nested deadlines do, on success and on exceptions |
| `PhaseBudget.Host.RunCommand` | deploy/lightsail/offline-migration.py:467-492 | a command is refused once a deadline passed and is otherwise allowed the smaller of its limit and what is left |
| `PhaseBudget.Host.ExecutePhase` | deploy/lightsail/offline-migration.py:447-465 | the previous deadline is back on every way out and the timing record tells whether the phase passed |
| `PhaseBudget.BudgetsNest` | deploy/lightsail/offline-migration.py:447-492 | for any nesting, retries and exceptions included, each command starts before every enclosing deadline and is allowed exactly until its own limit or the nearest of them, and a pass came before all of them |
| `PhaseBudget.CommandRunsUnlessExpired` | deploy/lightsail/offline-migration.py:470-492 | a command is refused if and only if an enclosing deadline has passed; otherwise it runs once and succeeds exactly when it is good and ends in time |
| `PhaseBudget.PhasePassesExactlyWhen` | deploy/lightsail/offline-migration.py:453-465 | a phase passes if and only if no deadline had passed at its start, its body succeeded and none has at its end, and its record says so |
| `PhaseBudget.CleanupCannotReduceTheReserves` | deploy/lightsail/offline-migration.py:1058-1077 | a cleanup that fails or times out blocks both scripts; after one that passes each script has its full seconds, and recovery stays inside the sum |
| `RepairRange.IndexByCount` | deploy/lightsail/offline-migration.py:346-351 | the index lists for every count exactly the entries reviewed for it |
| `RepairRange.Cross` | deploy/lightsail/offline-migration.py:364-369 | the one entry of each crossed count, or nothing exactly when some count has none or several |
| `RepairRange.RequiresRepair` | deploy/lightsail/offline-migration.py:327-373 | repair is skipped if and only if the ledger stood still or moved forward, from a baseline that is a head where one is reviewed, over counts each reviewed once as safe, to a head |
| `RepairRange.SkipComposes` | deploy/lightsail/offline-migration.py:327-373 | skipping from a to c through a reviewed head strictly between is skipping to it and from it |
| `RepairRange.SkipIsTransitive` | deploy/lightsail/offline-migration.py:327-373 | two skipped moves are one skipped move |
| `RepairRange.SkippedCountsAreReviewedOnce` | deploy/lightsail/offline-migration.py:364-373 | every count a skipped move crosses has exactly one entry, explicitly marked safe |
| `RepairRange.SkipIsAntisymmetric` | deploy/lightsail/offline-migration.py:335-343 | no two different ledgers skip to one another |
| `LockReleaseSafety.StepKeeps` | deploy/lightsail/reconcile-host.py:271-470 | every step of an attempt, every kill, power loss, write-back and other deployment keeps the invariant of the visible and the durable layer |
| `LockReleaseSafety.NeverBothNames` | deploy/lightsail/reconcile-host.py:282-297 | this owner's lock and archive never both exist, nor neither, in what processes see and in what a power loss leaves |
| `LockReleaseSafety.ArchiveIsBoundToItsRenamer` | deploy/lightsail/reconcile-host.py:415-453 | wherever the archive is visible, some earlier rename made it for an attempt whose binding and prepared artifact the surviving, complete receipt carries, killed or not |
| `LockReleaseSafety.DurableArchiveHoldsItsReceipt` | deploy/lightsail/reconcile-host.py:403-453 | an archive on disk holds, after any power loss, a readable receipt bound to the request of an attempt that renamed the lock |
| `LockReleaseSafety.DurableReceiptIsForever` | deploy/lightsail/reconcile-host.py:418-441 | a receipt whose entry reached the disk is never replaced, removed or cut below what was synced |
| `LockReleaseSafety.OnlyPowerLossRemoves` | deploy/lightsail/reconcile-host.py:430-438 | before that, over any continuation in which the power holds, a receipt is never removed, replaced or shortened |
| `LockReleaseSafety.ReleasesAgree` | deploy/lightsail/reconcile-host.py:403-470 | all successful releases were asked for and returned one and the same receipt, each bound to its request, and the archive with it is on disk from then on |
| `LockReleaseSafety.VerifyOnlyChangesNothing` | deploy/lightsail/reconcile-host.py:455-470 | over any steps of requests that only verify, the lock, the archive, the receipt and the releases stay as they are |
| `LockReleaseSafety.VerifyOnlyIsToldTheOwnership` | deploy/lightsail/reconcile-host.py:455-470 | left alone, such a request is told exactly what the owner proof says and is refused exactly when that refuses |
| `LockReleaseSafety.ReceiptWasIssued` | deploy/lightsail/reconcile-host.py:422-438 | in every run a receipt was issued, in full, by a release request whose prepared artifact is of its own run, when there was none |
| `LockReleaseSafety.OwnershipProvedExactlyWhen` | deploy/lightsail/reconcile-host.py:282-297 | in every run the owner proof succeeds exactly when no other owner holds the lock and what receipt there is can be read and is bound to the request; it tells the directory's name and that receipt |
| `LockReleaseSafety.TornReceiptRefusesEveryone` | deploy/lightsail/reconcile-host.py:271-297 | a torn receipt makes every later attempt refuse, for ever once its entry is on disk and until a power loss otherwise |
| `LockReleaseSafety.RetryCompletes` | deploy/lightsail/reconcile-host.py:415-470 | however earlier attempts ended, a successful owner proof lets an undisturbed release archive the lock durably and return the surviving receipt |
| `Governor.Decide` | cmd/csx-server/governor.go:93-124 | interactive pressure pauses both producers, host steal the Builder alone, and nothing pauses otherwise |
| `Governor.PoolStatsWindow` | cmd/csx-server/governor.go:135-155 | the window: per class every counter's gain, the newer limit and occupancy |
| `Governor.WindowCounts` | cmd/csx-server/governor.go:135-162 | any counter of any class shows its change between the samples, never below zero, absent classes as zero |
| `Governor.Governor.TickOnce` | cmd/csx-server/governor.go:333-347 | a tick differences, decides and moves both levers as the step function says |
| `Governor.Governor.ApplyDecision` | cmd/csx-server/governor.go:385-419 | the Farm ceiling is zero or the start, a pause always leaves a resume owed, and only a resume that succeeded settles it |
| `Governor.ResumeIsOwed` | cmd/csx-server/governor.go:333-419 | in every run a resume is owed while the Builder may be paused by anyone, and the Farm ceiling is its start, or zero for interactive pressure only |
| `Governor.CleanTickRestoresBoth` | cmd/csx-server/governor.go:385-419 | from any point of any run one clean tick with a successful resume restores both producers |
| `Governor.FarmIsShedForInteractivePressureOnly` | cmd/csx-server/governor.go:93-124 | a tick sheds Farm if and only if an interactive class refused a tenth of its attempts since the previous sample |
| `Governor.BuilderIsPausedExactlyWhen` | cmd/csx-server/governor.go:93-124 | the Builder is paused for interactive pressure or a host steal of a fifth, and for nothing else |
| `Governor.ConfirmedCallsTakeEffect` | cmd/csx-server/governor.go:398-417 | a confirmed pause or resume is in force, an unconfirmed resume stays owed, and with nothing owed no call is made |
| `Governor.WindowsTelescope` | cmd/csx-server/governor.go:126-162 | over any run each event after the first sample falls in exactly one window if and only if its counter never moved backwards |
| `BootSchedule.BootTimeline.Mark` | cmd/csx-server/bootschedule.go:199-208 | the first setting of a mark stays |
| `BootSchedule.BootTimeline.RunStep` | cmd/csx-server/bootschedule.go:237-306 | one step is recorded under its budget with its outcome; a negative budget records without running |
| `BootSchedule.BootSchedule.Run` | cmd/csx-server/bootschedule.go:390-424 | the lane, its end mark and the Builder decision, in that order, once |
| `BootSchedule.LaneEndsWithinTotal` | cmd/csx-server/bootschedule.go:390-410 | with steps that heed their deadlines the lane ends within a positive total, beside the time it takes between steps |
| `BootSchedule.EveryStepIsRecordedOnce` | cmd/csx-server/bootschedule.go:237-410 | the steps reached are recorded once and in order, under exactly the smaller of their own budget and what is left, skipped exactly when the total is spent, and each of the four outcomes is recorded exactly when its error, deadline and shutdown say so; without shutdown all are reached |
| `BootSchedule.BesideIsWhatIsLive` | cmd/csx-server/bootschedule.go:218-229 | a record names the serving lane and the Builder exactly when their marks are set |
| `BootSchedule.MarksAreSetOnceInOrder` | cmd/csx-server/bootschedule.go:199-208 | over any sequence of operations a mark is set at the instant it happens and never moves, and their order is the order in time |
| `BootSchedule.BuilderStartsLast` | cmd/csx-server/bootschedule.go:410-424 | the Builder starts exactly when deferred, all steps reached and no shutdown; then after the maintenance-done mark, and no step ran beside it |
| `BoundedCache.MakeRoomDropsTheShortestPrefix` | cmd/csx-server/sample_artifact_cache.go:59-61 | eviction drops the shortest least-recently-used prefix that makes room, and there always is one |
| `BoundedCache.TouchKeeps` | cmd/csx-server/sample_artifact_cache.go:37-46 | a load changes no entry, only the order |
| `BoundedCache.PutKeeps` | cmd/csx-server/sample_artifact_cache.go:48-64 | a stored item that fits is found at once, one that does not is not kept, and no other entry changes its value |
| `BoundedCache.LookupIsTheLastStoredValue` | cmd/csx-server/sample_artifact_cache.go:37-64 | after any history both limits hold, keys are distinct, and a lookup answers with the last stored value or nothing |
| `BoundedCache.EvictionIsLeastRecentlyUsed` | cmd/csx-server/sample_artifact_cache.go:37-64 | after any history the list is ordered by last use |
| `SampleArtifactCache.ComputeSize` | cmd/csx-server/sample_artifact_cache.go:26-35 | the size is the sum over the identifier, the file names and the source files |
| `SampleArtifactCache.Cache.Load` | cmd/csx-server/sample_artifact_cache.go:37-46 | a hit returns the stored value and makes it the most recent, a miss changes nothing |
| `SampleArtifactCache.Cache.Store` | cmd/csx-server/sample_artifact_cache.go:48-64 | the new value replaces the old one within both limits, or is not kept when it alone is too large |
| `SampleArtifactCache.Cache.EvictFor` | cmd/csx-server/sample_artifact_cache.go:59-61 | the loop ends and never reaches for the front of an empty list |
| `SampleArtifactCache.Cache.Remove` | cmd/csx-server/sample_artifact_cache.go:72-80 | list, map and byte counter lose the element together |
| `FailureClusterCache.SaturatedSize` | cmd/csx-server/failure_cluster_cache.go:50-62 | the saturating sum is exact unless both it and the true size exceed the limit |
| `FailureClusterCache.Cache.LoadPage` | cmd/csx-server/failure_cluster_cache.go:24-36 | a hit returns the page and makes it the most recent, a miss changes nothing |
| `FailureClusterCache.Cache.EvictPage` | cmd/csx-server/failure_cluster_cache.go:38-48 | payload, map entry, list element and size go together |
| `FailureClusterCache.Cache.CachePage` | cmd/csx-server/failure_cluster_cache.go:50-81 | the page replaces its predecessor within both limits, or is not kept when it is too large |
| `UseTree.SplitTopLevel` | adapters/rust/symbols.go:176-193 | the loop cuts at the commas outside braces |
| `UseTree.SplitLosesNothing` | adapters/rust/symbols.go:176-193 | the pieces joined by commas are the text |
| `UseTree.SplitCutsEverywhere` | adapters/rust/symbols.go:176-193 | no piece holds another cut |
| `UseTree.RoundTrip` | adapters/rust/symbols.go:145-173 | expanding the printed form of any use tree, with nested groups, aliases, globs, blanks and trailing commas, gives exactly its leaf paths in order with aliases removed |
| `KeysetWalk.NextPage` | deploy/lightsail/collect-failure-ledger.py:131-141 | a page after the cursor is the next rows in key order, adds up to the fold so far, and moves the cursor |
| `KeysetWalk.Walk` | deploy/lightsail/collect-failure-ledger.py:143-182 | the walk ends, measures if and only if the key is indexed, every row readable, every bound kept and the time enough, and then its totals are one fold over the whole table |
| `KeysetWalk.CensusCountsEveryRowOnce` | deploy/lightsail/collect-failure-ledger.py:151-169 | the fold counts every row once, and current, unbalanced and modern rows and the observations exactly by the rows that are in each, over as many pages as the rows need |
| `AccessLog.Added` | internal/admin/accesslog.go:591-616 | one request adds one to exactly the bands it belongs to |
| `AccessLog.DayAdded` | internal/admin/accesslog.go:486-495 | one request adds to the total, its route and its activity group, and nowhere else |
| `AccessLog.GroupsByRouteAndMethod` | internal/admin/accesslog.go:559-589 | posting to a submission route contributes, searching, shards, registry and reading samples consume, and everything else coordinates |
| `AccessLog.RoutesHaveTheirOwnRows` | internal/admin/accesslog.go:550-557 | different routes have different rows |
| `AccessLog.Merged` | internal/admin/accesslog.go:702-713 | merging adds counter by counter |
| `AccessLog.Aggregate.AddLine` | internal/admin/accesslog.go:469-503 | a readable line is counted or passed over, an unreadable one refused, and the aggregate stays that of the lines so far |
| `AccessLog.ParseLog` | internal/admin/accesslog.go:406-430 | every counter of a parsed file is the number of its lines that the counter stands for |
| `AccessReport.MergeFile` | internal/admin/accesslog.go:648-664 | each date of a file reaches its day and the overall counters once, in any map order |
| `AccessReport.Combine` | internal/admin/accesslog.go:618-673 | each day's counters are the sums over the files and the overall ones the sums over the days |
| `AccessReport.CombinationIsReport` | internal/admin/accesslog.go:618-673 | every counter of the combined report is a count of lines over all files |
| `AccessReport.ExtremesAreExact` | internal/admin/accesslog.go:496-501 | the oldest and newest events are the least and the greatest instants of the counted lines |
| `AccessReport.SplittingIntoFilesIsInvisible` | internal/admin/accesslog.go:406-673 | any split of the lines into files gives the report of one pass over all of them |
| `AccessConsistency.BandsPartition` | internal/admin/accesslog.go:591-616 | a request is in one method band and one status band, and 429 lies inside 4xx |
| `AccessConsistency.ReportIsConsistent` | internal/admin/accesslog.go:559-673 | in every day and overall, in every band, the total is the sum over routes and over groups, and method bands and status bands partition the requests |
| `AccessConsistency.OverallCountsEveryLineOnce` | internal/admin/accesslog.go:618-664 | no counted line falls outside the report's days or in two of them |

## Left out

- HTTP handlers, SQL text, Docker, SSH, curl and GitHub calls: only their success, failure or timeout is kept.
- The 15-second timeout of a detached load and the retry series behind `Start`: a load may return at any time, and whether a retry is ready is an input.
- Admission waits: time is an integer, a timer fires no later than its deadline, and reading the charge and starting the wait are one step; the union law is for instants handed to the clock in order, which two reads of one request that race between their clock reading and `begin` can break by the length of that race.
- SnapshotCache.Cache.Read: several lock regions of the reader are one step.
- Retry lanes, their series and the corpus stamp of the snapshot readers; the order in which concurrent loads complete is the history's, so a slower older load may be the one retained.
- SnapshotCache.Cache.CacheRows: requires one row per package URL and symbol, which the table's primary key gives (internal/serverstore/migrations/0001_init.sql:95-100), and package URLs that do not clash, without which coherence is false (`SnapshotCache.ClashMixesLoads`); so do `CachePurl`, `ReplaceCorpus`, `BuildIndex` and `Read`.
- Activity identities are abstract: address derivation, hashing, `SeenAt` and the pruning of the store are not modelled; the store is an upsert that joins owner bits, and a failing call may have written any of its rows.
- Supervisor processes run one at a time and are killed, not the machine: `atomic_json` does not sync, so a power loss is outside `SupervisorSafety.StepKeeps`. A `run` begun over a terminal record is not modelled: the unit begins `run` once.
- SupervisorSafety.RecordIsEarned: the proofs inside a phase (image, ledger, index and health checks) are its outcome only.
- PhaseBudget.Host.Run: real-valued time; the delay of starting a process is a parameter, so a command may end later than its allowed end by that delay and by the five seconds of reaping.
- RepairRange.RequiresRepair: numbers of other Python types that compare equal to an integer count are not distinguished from malformed evidence.
- SupervisorSafety.IntentPrecedesEveryChange: the actions of helper cleanup and of recovery cleanup are announced by no phase of their own in the source.
- LockReleaseSafety.DurableArchiveHoldsItsReceipt: the owner file is not a file of the model; the directory's identity stands for it, since the owner writes it before any attempt and a rename carries it along.
- Owner-lock release: symbolic links, permissions and snapshots of unrelated files are refusals that may happen at any step; the live probes are one step that passes or refuses.
- Governor.Decide: the refusal ratio is an exact quotient, not a floating-point one; log lines and their suppression are not modelled.
- BootSchedule.BootTimeline.RunStep: pool counters and detail strings of a phase are not modelled.
- KeysetWalk.Walk: a reply that is not the query's own answer is not modelled, and of the extended detail only the pass and fail sums are.
- AccessLog.ParseLog: JSON, gzip and timestamp parsing, the size limits that cut a file short, and the reader's five-minute and per-file caches.
- UseTree.RoundTrip: the whitespace normalization before expansion is not modelled; trees may carry any blanks around items, before a brace and around `as`.
- Everything else in the repository: web pages, registries, adapters for other languages, chart views, command classification and the validators.

# vci, verified

A Dafny model of the parts of vci where several processes share durable state, or where one side of a
transfer must be able to trust what the other side sent.

**Coordinator run protocol.** Build requests fan out to target runs, one per machine. Admission, dispatch,
workers, abort callers and reapers act on run records, leases, results and slot claims. `Protocol.dfy` models
them as one transition system: each section under `run.lock` or `scheduler.lock` is a step, each unlocked read
is a step of its own, and an actor that stops is one that takes no further step. `Run` folds any sequence of
actions, so every interleaving and every crash is some `actions`. `ProtocolCore` proves the structure all
steps keep; the `*Safety` and `LiveBuild` modules prove the theorems for every reachable state. `StateDir`,
`Scheduler`, `ReaperPass`, `AdmissionOps` and `Lifecycle` hold the same operations as they are coded, in place
with loops. `PassSteps`, `AbortSteps` and `AdmissionSteps` prove that the protocol's separate steps, when nothing
comes between them, add up to exactly those loops; `Outcomes` follows a worker left alone to the verdict its command
earned.

**Worker bundle cache and delta transfer.** `Commits` has commit graphs and bundles; `BundleCache` the cache
with both evictors, `CacheEffects` what each operation leaves, `EvictorAgreement` when the evictors agree;
`CacheSafety` what holds over any sequence of cache operations; `Reconstruction` the worker side and `Staging` the
coordinator side of every route a build's history can take.

**Wire formats.** `Codec` is the nested submission archive; `ShellLine` the command line sent over ssh with a
reader for it that follows section 2.2 of POSIX.1-2017 Shell Command Language.

Time is an integer number of seconds on one shared clock that never goes back. Lease owners and run ids are
fresh. What a command, a network call, `git apply` or a file copy yields is an input.

Seven promises turn out not to hold as one would first state them, and the model says where the line is:

- "The reaper marks only dead workers lost" fails exactly when the lease file is unexpired at the moment of the
  mark (`LeaseSafety.MarkHitsLiveWorkerExactly`), which a reaper that loaded the run as staging can run into
  (`StagingRace.LiveWorkerMarkedLost`); for a run loaded as running or committing it cannot happen to a worker that
  started it (`LeaseSafety.ReaperMarksOnlyDeadWorkers`).
- "A finished build request stays finished" fails exactly for a submission's stale save of it
  (`ParentSafety.OnlyLateRewriteRevives`), and such a save can come after an abort
  (`LateSave.AbortedRequestRevived`).
- "A terminal target never changes again" fails exactly for a target that an open admission is still creating
  (`TerminalFreeze.FrozenExactly`): an abort can end it before its request is saved, and the rollback then removes it
  (`TerminalFreeze.AbortedTargetRolledBack`).
- "A running run has a claim" fails, and exactly the releases of `ClaimLoss.ClaimLostExactly` can take the claim, an
  abort for one (`ClaimLoss.RunningWithoutClaim`).
- "A run launches at most once" fails exactly when its machine still has room (`AdmissionOps.RelaunchedExactly`,
  `AdmissionOps.RelaunchedAtCapacityTwo`). What holds everywhere is single execution
  (`LeaseSafety.AtMostOneExecution`).
- "An interrupted admission leaves no broken hit" fails exactly when the admission was overwriting the bundle of an
  entry that already was a hit; cut off at any other point it is harmless (`CacheSafety.CutOffAdmission`). Such a
  hit serves exactly a work directory that already held the base (`Staging.HitExactly`); in a fresh one staging falls
  back (`Staging.StageOrReconstruct`).
- "The two evictors agree" holds exactly when last use and modification time order the free entries alike, without
  ties (`EvictorAgreement.EvictorsAgreeExactly`), and a cache hit refreshes only the modification time
  (`EvictorAgreement.TouchSeparatesEvictors`). Among entries of equal age the specification allows either evictor any
  choice, as an unstable sort does; the rescanning one in fact takes the first in name order, so on some ties the
  code may agree where the specification does not require it.

Three comments say more than the code does, and the model follows the code. The comment on `writeClaim`
(internal/scheduler/claims.go:181-183) says an existing claim is not overwritten, but the final rename replaces
it; the comment on `DispatchPending` (internal/app/fanout.go:185-189) relies on that to launch a run at most
once. The comment on `entryMeta` (internal/cli/internal.go:389-392) describes another choice among entries with
unreadable metadata than the selection loop makes; the model's entries have readable metadata.

Check everything with `dafny verify dfyconfig.toml`.

## Model

| member | source | states |
|---|---|---|
| `StateDirectory.StateDir.Mutate` | internal/store/store.go:309-337 | succeeds exactly for a known run whose change is accepted and which is not terminal unless unchanged; only that record changes |
| `StateDirectory.StateDir.Transition` | internal/store/store.go:339-347 | the table's edge is taken, except out of a terminal state, lost to aborted included |
| `StateDirectory.StateDir.RequestCancellation` | internal/store/store.go:349-373 | a first request is stamped, a second changes nothing, succeeded, failed and aborted runs refuse |
| `StateDirectory.StateDir.PublishResult` | internal/store/store.go:411-439 | a result is written only for a known live run that has none |
| `StateDirectory.StateDir.Claim` | internal/store/store.go:455-477 | a lease is taken exactly when none exists or it is at or past its expiry |
| `StateDirectory.StateDir.Renew` | internal/store/store.go:479-503 | only the owner extends a lease, and only before it expires |
| `StateDirectory.StateDir.Release` | internal/store/store.go:505-523 | only the owner removes a lease |
| `StateDirectory.StateDir.HasLiveBuild` | internal/store/store.go:131-157 | the early-exit loop names a live target's request, and nothing exactly when no target is live |
| `StateDirectory.StateDir.LoadQueuedChildren` | internal/store/store.go:81-108 | every queued target exactly once |
| `StateDirectory.StateDir.LoadChildren` | internal/store/store.go:110-125 | the targets of a request in stored order, missing ones skipped |
| `StateDirectory.LoadedAt` | internal/store/store.go:110-125 | each target that is there loads, at the position given by how many listed before it are there, and no other record loads |
| `StateDirectory.AggregateState` | internal/store/store.go:164-192 | the counting loop computes the declarative aggregate; succeeded exactly when every target succeeded or was unavailable and there is one, flagged exactly when all were unavailable |
| `Records.AggregateMeans` | internal/store/store.go:164-192 | aggregating exactly while a target is live or there is none, failed only if one failed, was lost or was aborted, succeeded exactly when each succeeded or was unavailable |
| `RunModel.TransitionTable` | internal/model/model.go:65-99 | the table by rank: a live run stays, advances one rank or ends, and for each end the rank it needs; the one edge out of a terminal state is lost to aborted |
| `Chooser.BeforeIsStrictTotalOrder` | internal/scheduler/scheduler.go:54-69 | comparing load ratios by cross-multiplication, then names, is irreflexive, asymmetric, transitive and total on distinct machines |
| `Chooser.ComputeMachineSnapshots` | internal/scheduler/scheduler.go:54-69 | one snapshot per machine with its effective capacity and load, strictly in that order |
| `Chooser.ChooseSlot` | internal/scheduler/scheduler.go:106-122 | a free candidate whose quotient of claims and capacity, as real numbers, is least, and among equal quotients the first by name; none exactly when every candidate is full |
| `Chooser.ChoiceIsLeastLoaded` | internal/scheduler/scheduler.go:54-69 | what the comparison by cross-multiplication picks is least by that quotient, then by the first differing character or the proper prefix |
| `Chooser.FewestAmongEquals` | internal/scheduler/scheduler.go:106-122 | among machines of equal capacity no free candidate has fewer claims than the chosen one |
| `Sorting.NameLessExactly` | internal/scheduler/scheduler.go:66-66 | the name order is by first differing character, a proper prefix first |
| `Chooser.ChoiceIsUnique` | internal/scheduler/scheduler.go:106-122 | no iteration order of the inventory changes the choice |
| `Chooser.EffectiveCapacity` | internal/config/config.go:118-123 | a configured capacity of at least one counts as it is, any other as one |
| `Scheduler.ReapClaims` | internal/scheduler/claims.go:150-179 | keeps exactly the claims of recorded non-terminal runs and counts the rest |
| `Scheduler.CountActiveByMachine` | internal/scheduler/claims.go:134-148 | the loop's counts are the numbers of claims per machine |
| `Scheduler.Reserve` | internal/scheduler/scheduler.go:172-204 | sweeps, then claims exactly when the machine is known and below its capacity |
| `Scheduler.ReserveAndPublish` | internal/scheduler/scheduler.go:128-166 | sweeps, claims the chosen machine and publishes on it; when the publish step fails the claim is taken back and whatever it wrote stays |
| `Scheduler.PublishedOnLeastLoaded` | internal/scheduler/scheduler.go:128-166 | the machine published on is the least loaded free candidate by the claims that survive the sweep |
| `Scheduler.PublishIsAnOp` | internal/scheduler/scheduler.go:128-166 | whatever the publish step does, the section is one of the operations the capacity result covers |
| `Scheduler.ReleaseSlot` | internal/scheduler/scheduler.go:210-233 | removes exactly that claim; a missing one is no error |
| `Scheduler.CapacityNeverExceeded` | internal/scheduler/scheduler.go:128-204 | over any sequence of scheduler sections by any processes, each seeing any records, no machine holds more claims than its capacity, replaced claims included |
| `SlotSafety.CapacityInEveryRun` | internal/scheduler/scheduler.go:172-204 | the same in every reachable state of the protocol |
| `ClaimLoss.ClaimLostExactly` | internal/app/build.go:462-471 | a step takes a live run's claim if and only if it is the release of a leaving worker, an abort, a reaper that found the run queued or a dispatcher whose launch failed |
| `ClaimLoss.RunningWithoutClaim` | internal/app/lifecycle.go:31-41 | a run of the protocol in which a worker executes under a good lease and an abort has released the run's claim |
| `ProtocolCore.StepKeeps` | internal/app/build.go:138-185 | every step of every actor keeps the registry's structure and nothing an actor remembers becomes false |
| `ProtocolCore.TargetMovesForward` | internal/model/model.go:65-99 | over any run every target's rank never falls and its state changes at most as often as the rank rises, so at most four times; it leaves the record only by the rollback of the admission creating it, for good |
| `LeaseSafety.AtMostOneExecution` | internal/app/build.go:449-527 | however many workers are launched for a run, at most one that keeps within its lease ever starts the command |
| `LeaseSafety.LeaseChangesHands` | internal/store/store.go:455-523 | a lease goes away only by its owner's release and changes only by its owner's renewal before expiry or a claim at or past it |
| `LeaseSafety.DeadLeaseStaysDead` | internal/app/lifecycle.go:115-132 | a started worker whose lease is over never gets it back, whatever happens next |
| `LeaseSafety.RenewedExactly` | internal/app/lifecycle.go:115-132 | a renewal sets the lease to thirty minutes from now if and only if the worker owns it and it is unexpired; otherwise nothing changes and the worker knows it is lost |
| `LeaseSafety.ReaperMarksOnlyDeadWorkers` | internal/reaper/reaper.go:79-125 | when a run loaded as running or committing is about to be marked lost, no worker that started it holds an unexpired lease or can ever renew one, though the lease was read without the lock |
| `LeaseSafety.MarkHitsLiveWorkerExactly` | internal/reaper/reaper.go:79-125 | in every reachable state a reaper about to mark a run takes it from a live worker if and only if the lease file is unexpired then; a started live worker is hit only when the run was loaded as staging; the mark goes through unless the run is terminal |
| `StagingRace.LiveWorkerMarkedLost` | internal/reaper/reaper.go:102-121 | a run of the protocol in which a run loaded as staging has started under a good lease and the next step marks it lost |
| `ResultSafety.RecordedOutcomeHasItsResult` | internal/app/build.go:597-626 | in every reachable state a target recorded succeeded, failed or unavailable has a result with that state, and a result once written never changes or goes away |
| `Outcomes.SuccessMeansZero` | internal/app/build.go:597-626 | in every reachable state a result that says succeeded has exit code zero, and a target recorded succeeded has such a result |
| `Outcomes.GreenBuild` | internal/reaper/reaper.go:194-228 | in every reachable state all targets of a succeeded request are unavailable or succeeded with exit code zero; those of a failed one are terminal and one failed, was lost or was aborted |
| `Outcomes.WorkerFinishes` | internal/app/build.go:597-637 | from every reachable state a worker whose command has ended on a running run, left alone, ends it aborted exactly if cancelled, else unavailable or failed by its error, else succeeded exactly at exit code zero; the result is published with that state and code, its lease and the slot are gone, nothing else changes |
| `Outcomes.WorkerRunsThrough` | internal/app/build.go:449-637 | from every reachable state a new worker on a reserved, uncancelled, unleased queued target, left alone, promotes it, leases it for thirty minutes, starts it and ends it with what its command earned |
| `Outcomes.TurnedAway` | internal/app/build.go:445-461 | a new worker changes nothing when its run is gone, holds no slot or is neither queued nor staging |
| `Outcomes.FindsItLeased` | internal/app/build.go:462-472 | a worker that meets an unexpired lease leaves record and lease, and frees the slot |
| `Outcomes.StopsBeforeStart` | internal/app/build.go:494-521 | a run found cancelled before its command ends aborted without a result, and lease and slot are given up |
| `Outcomes.FailsToPopulate` | internal/app/build.go:500-513 | a work directory that cannot be filled ends the run lost, or aborted when it was cancelled meanwhile and the failure was not the final rename |
| `Outcomes.LostLeaves` | internal/app/lifecycle.go:115-132 | a worker whose renewal failed records and publishes nothing, and gives up lease and slot |
| `ResultSafety.TerminalTargetIsFrozen` | internal/store/store.go:309-347 | every later step of every actor leaves a terminal target's record and its result, present or absent, as they are while it is on record; only the rollback of an admission still creating it removes it |
| `TerminalFreeze.FrozenExactly` | internal/app/build.go:160-185 | in every reachable state a terminal target is frozen over every run if and only if no open admission is creating it |
| `TerminalFreeze.AbortedTargetRolledBack` | internal/app/lifecycle.go:25-43 | a run of the protocol in which an abort ends a target whose request is not saved yet and the failed save's rollback then removes it |
| `ResultSafety.CommittedTargetsAreSettled` | internal/app/build.go:138-185 | targets listed by a saved request can no longer be rolled back, so the freeze covers them |
| `LiveBuild.OneLiveBuild` | internal/app/fanout.go:265-275 | in every interleaving all live targets have one parent and are on different machines, although the busy scan is not a snapshot |
| `ParentSafety.RecordedVerdictIsTheAggregate` | internal/reaper/reaper.go:194-228 | in every reachable state a finished request is aborted, or all its targets are terminal and aggregate to its state, although they were read one by one |
| `ParentSafety.OnlyLateRewriteRevives` | internal/app/build.go:318-326 | a step changes a finished request if and only if it is a submission's stale save of that request |
| `ParentSafety.RewriteMeans` | internal/app/build.go:318-326 | in every reachable state that save queues the request anew with its targets and the new source, changes nothing else and happens once |
| `LateSave.AbortedRequestRevived` | internal/app/build.go:318-326 | a run of the protocol in which an abort completes and the stale save then puts the request back to queued |
| `ParentSafety.VerdictIsFinal` | internal/reaper/reaper.go:215-227 | once no submission holds a copy of it, a finished request is frozen for good |
| `SummaryReads.SummaryIsRight` | internal/app/fanout.go:79-130 | however the coordinator moves on while a summary reads the targets one by one, a verdict it reports holds of all targets for good, and a request finished when it was loaded is reported with its recorded state |
| `AbortSafety.AbortIsFinal` | internal/app/lifecycle.go:19-66 | after a build's abort every target is and stays terminal or under a cancellation request, and one whose workers had not judged otherwise never becomes succeeded, failed or unavailable |
| `AbortSafety.AbortKnowsItsBuild` | internal/app/lifecycle.go:31-41 | when an abort is done, all targets of the request it aborted are stopped |
| `AbortSafety.DoomedForever` | internal/app/lifecycle.go:140-142 | a cancelled target none of whose workers has a verdict of its own stays without an outcome over any run |
| `ReaperPass.ReapRun` | internal/reaper/reaper.go:57-125 | one run's decision by state, lease age and reservation age, with its record, claim and counters |
| `ReaperPass.ReapRuns` | internal/reaper/reaper.go:52-126 | the loop decides every run by what was there before the pass; the counters are the numbers of runs marked lost and aborted |
| `ReaperPass.SettleRequest` | internal/reaper/reaper.go:203-227 | a live request whose targets are all terminal gets their aggregate, any other record is left alone |
| `ReaperPass.AggregateParents` | internal/reaper/reaper.go:194-228 | the loop settles every request by the same records, in any order |
| `ReaperPass.RunPass` | internal/reaper/reaper.go:44-189 | records, claims and report after decisions, sweep and aggregation |
| `ReaperPass.NoSlotLeaks` | internal/reaper/reaper.go:52-126 | after a pass every claim of a target is under 60 seconds old on a queued or staging run, or backs a live run whose lease is within the 10-minute grace |
| `ReaperPass.MarkedLostExactly` | internal/reaper/reaper.go:79-125 | a pass marks a target lost if and only if it has begun, it has no lease that is unexpired or less than ten minutes past its expiry, and it is not a staging run without a lease reserved under a minute ago; other targets keep their record |
| `ReaperPass.KeptExactly` | internal/reaper/reaper.go:52-126 | a pass keeps a target's record and claim if and only if the run is queued or staging without a lease and reserved under a minute ago, has begun with a lease within the grace, or is queued with a lease and reserved under a minute ago |
| `ReaperPass.ClaimKeptExactly` | internal/reaper/reaper.go:57-178 | a target's claim survives a pass exactly when the run is queued and reserved under a minute ago, or has begun and is not marked |
| `ReaperPass.LoneRunExactly` | internal/reaper/reaper.go:67-125 | a run that is neither target nor request is aborted exactly when queued without a lease, and marked lost by the rule for targets |
| `ReaperPass.SettledExactly` | internal/reaper/reaper.go:203-227 | a live request is settled exactly when all its targets are terminal: failed if one failed, was lost or was aborted, else succeeded |
| `ReaperPass.RequestsSettled` | internal/reaper/reaper.go:194-228 | the same after a whole pass, by the targets as the pass leaves them |
| `SlotSafety.PassLeaksNoSlot` | internal/reaper/reaper.go:174-178 | the same from every reachable state |
| `SlotSafety.PassKeepsExactly` | internal/reaper/reaper.go:52-178 | from every reachable state a pass marks exactly the targets that neither may still start nor still run, and keeps exactly the claims of the others, with both grace windows in seconds |
| `PassSteps.PassDecidesAsSteps` | internal/reaper/reaper.go:52-126 | the reaper's separate steps for one run, uninterrupted, do exactly what the pass decides |
| `PassSteps.PassAsSteps` | internal/reaper/reaper.go:44-189 | from every reachable state a reaper's steps over all runs, the sweep and all requests, uninterrupted, end in exactly the records and claims of the pass coded as loops |
| `AdmissionOps.ValidateProjectMachines` | internal/config/config.go:336-348 | accepts exactly non-empty lists of known machines without a repeat |
| `AdmissionOps.RollbackRuns` | internal/app/build.go:179-185 | removes exactly the listed runs with their leases and results |
| `AdmissionOps.StageFanout` | internal/app/build.go:138-176 | whichever save fails, all records of the build exist or none does |
| `AdmissionOps.StagedBuild` | internal/app/build.go:138-176 | a staged build field by field: the request lists one queued target per machine, in order, and every earlier record is as it was |
| `AdmissionOps.AdmitAndStage` | internal/app/fanout.go:265-275 | refused exactly while a target is live, staged exactly when not refused and no save fails; afterwards the live targets are the new build's, one per machine |
| `AdmissionSteps.StagingAsSteps` | internal/app/build.go:138-176 | from every reachable state without a live target the admission's separate steps end in exactly the records of the staging loop |
| `AdmissionSteps.RollbackAsSteps` | internal/app/build.go:179-185 | after a failed save the rollback's steps leave the state as it was, whatever had been created |
| `AdmissionOps.DispatchPending` | internal/app/fanout.go:190-209 | whichever launches fail: launched runs were queued, did not fail and hold claims made now; every other waiting run has a full or unknown machine, or failed to launch and gave its slot back; no other live claim changes and capacity holds |
| `AdmissionOps.DispatchRun` | internal/app/fanout.go:201-208 | one run's turn: the slot is kept exactly when both reservation and launch succeed |
| `AdmissionOps.RelaunchedExactly` | internal/app/fanout.go:185-208 | a queued run already holding its slot is launched again if and only if its machine has room once swept and the launch succeeds; never at capacity one |
| `AdmissionOps.RelaunchedAtCapacityTwo` | internal/app/fanout.go:185-208 | at capacity two a run is launched, and launched again while it holds the only claim |
| `Lifecycle.AbortSingle` | internal/app/lifecycle.go:49-66 | judged by the loaded state, applied to the current one; the slot is freed at once only for queued and lost runs |
| `Lifecycle.CancelTargets` | internal/app/lifecycle.go:32-40 | the loop cancels exactly the live targets, frees their slots and leaves every listed target stopped |
| `Lifecycle.Abort` | internal/app/lifecycle.go:19-44 | a target's abort goes to its request; all targets stop and lose their slots, and the request ends aborted exactly when it was live; a run without targets is cancelled alone, its slot freed if it was queued or lost |
| `Lifecycle.AbortedBuild` | internal/app/lifecycle.go:19-66 | aborting a request or any of its targets: queued targets end at once, begun ones get a cancellation time unless they have one, terminal ones and all other records stay, the request ends exactly when live |
| `Lifecycle.AbortedClaims` | internal/app/lifecycle.go:31-41 | exactly the slots of its live targets are freed |
| `Lifecycle.AbortedAlone` | internal/app/lifecycle.go:49-66 | a run without targets ends and frees its slot if queued, is asked to stop if begun, frees its slot if lost, and refuses otherwise |
| `AbortSteps.AbortAsSteps` | internal/app/lifecycle.go:19-66 | from every reachable state an abort's separate steps, uninterrupted, end in exactly the records and claims of that loop |
| `BundleCache.EffectiveBundleCache` | internal/config/config.go:98-115 | a positive limit counts as it is, any other takes its default, so every effective limit is positive |
| `BundleCache.Cache.List` | internal/bundlecache/cache.go:198-231 | each complete entry once, with its size and last use, strictly in the order of bases |
| `BundleCache.Cache.WithinLimits` | internal/bundlecache/cache.go:270-285 | the summing loop decides both limits over the complete entries |
| `BundleCache.Cache.EvictLRU` | internal/bundlecache/cache.go:237-268 | drops claim-free complete entries only, none newer than a free survivor, none once the limits hold, and stops within both limits or with every complete entry claimed |
| `BundleCache.Cache.CountComplete` | internal/cli/internal.go:325-334 | number and bytes of the complete entries |
| `BundleCache.Cache.OldestFree` | internal/cli/internal.go:338-361 | a claim-free complete entry with the least modification time, none exactly when all are claimed |
| `BundleCache.Cache.EvictRescan` | internal/cli/internal.go:312-370 | terminates, and meets the same eviction specification by modification time |
| `BundleCache.Cache.ReapCache` | internal/cli/internal.go:199-293 | drops exactly partial entries and claim markers older than their cutoffs, then evicts; the counts are the numbers of entries and markers removed and of entries evicted |
| `BundleCache.Cache.Admit` | internal/cli/internal_reconstruct.go:193-218 | directory, bundle, metadata and marker in that order, cut off after any; completed, the entry is a hit with the new bundle and its old claims |
| `BundleCache.Cache.Acquire` | internal/cli/internal.go:148-171 | marks exactly a complete entry, refuses any other |
| `BundleCache.Cache.Unclaim` | internal/cli/internal.go:175-188 | removes exactly that marker; a missing one is no error |
| `CacheEffects.AcquireEffect` | internal/cli/internal.go:148-171 | acquiring a complete entry leaves a marker of now, so the entry is protected and no evictor may take it; earlier markers, contents and other entries stay; any other entry is refused unchanged |
| `CacheEffects.ReleaseEffect` | internal/cli/internal.go:175-188 | that marker is gone and all others stay; an entry whose only marker it was is free again |
| `CacheEffects.TouchEffect` | internal/cli/internal_reconstruct.go:151-154 | a hit moves the modification time and nothing else |
| `CacheEffects.AdmitEffect` | internal/cli/internal_reconstruct.go:193-218 | after each write of an admission, every field of the entry: size, last use and modification time from metadata on, the marker last, claims untouched |
| `CacheEffects.SweepEffect` | internal/cli/internal.go:199-293 | the maintenance sweep keeps exactly complete or young entries and young markers, with contents and ages |
| `CacheEffects.StepMeasured` | internal/cli/internal_reconstruct.go:193-218 | recorded sizes stay the real bundle sizes over every cache operation that admits measured bundles and does not stop between a hit's bundle and its metadata |
| `CacheEffects.NewestGoesLast` | internal/cli/internal_reconstruct.go:176-187 | a newly admitted entry is evicted only when no free entry remains |
| `BundleCache.EvictionIsUnique` | internal/bundlecache/cache.go:237-268 | with distinct ages the specification leaves exactly one result |
| `EvictorAgreement.EvictorsAgreeExactly` | internal/cli/internal.go:312-370 | for every limit the rescanning and the sort-once evictor leave the same entries if and only if last use and modification time order the free entries alike, without ties |
| `EvictorAgreement.AgreeExactly` | internal/bundlecache/cache.go:237-268 | the same for any two recency keys |
| `EvictorAgreement.EvictionExists` | internal/bundlecache/cache.go:233-236 | whatever the key and the limits, some set of entries meets the eviction specification |
| `EvictorAgreement.TouchSeparatesEvictors` | internal/cli/internal_reconstruct.go:151-154 | after a hit refreshes only the modification time they remove different entries |
| `CacheSafety.ClaimProtects` | internal/cli/internal.go:148-293 | from the acquisition of a complete entry on, over any operations, the entry stays complete until the claim is released or passes the claim cutoff |
| `CacheSafety.RunSound` | internal/cli/internal_reconstruct.go:176-218 | over any operations that admit covering bundles every complete entry carries everything reachable from its base |
| `CacheSafety.CutOffAdmission` | internal/bundlecache/cache.go:107-132 | an admission cut off after any of its writes leaves every hit sound if and only if it was not writing the bundle of an entry that already was a hit, and makes no new hit before the marker |
| `Commits.RevList` | internal/source/bundle.go:53-53 | the walk computes exactly the commits reachable through parents |
| `Commits.Checkout.Base` | internal/source/identity.go:28-36 | the first parent, none for a root commit |
| `Commits.Checkout.CreateBundle` | internal/source/bundle.go:30-90 | the range head minus have with its boundary; empty exactly when nothing is missing, an error exactly for unknown commits; refs as before on every path |
| `Reconstruction.DeltaSuffices` | internal/source/bundle.go:20-30 | for every graph a whole repository holding have can import the delta, then holds everything reachable from the head, and nothing reachable from have was sent |
| `Reconstruction.EmptyRangeSuffices` | internal/source/bundle.go:31-33 | when the range is empty the worker already holds everything |
| `Reconstruction.FullBundleCoversParent` | internal/app/remote.go:467-475 | the full bundle of a commit covers the cache key, its first parent |
| `Reconstruction.Worker.Reconstruct` | internal/cli/internal_reconstruct.go:125-187 | with any cache, torn hits included, succeeds exactly when the imports yield the head and the changes apply; then the work directory holds everything reachable from it; a sound cache stays sound |
| `Reconstruction.Worker.AdmitPayload` | internal/cli/internal_reconstruct.go:176-185 | admission then eviction; a sound cache stays sound when the bundle covers its key |
| `Staging.WorkerPayload` | internal/app/remote.go:328-362 | the delta, or no bundle when nothing is missing; fails exactly for a base the source does not know |
| `Staging.NoSeedPayload` | internal/app/remote.go:383-417 | the whole history and its size |
| `Staging.StageNoSeedReconstruct` | internal/app/remote.go:463-525 | with any cache, and another process evicting by any limits while the claim is held, a success means the head's whole history arrived; it succeeds if and only if the changes apply and a hit's bundle leaves its base in the work directory, so always with a sound cache and never with a torn hit in a fresh directory; exact cache effect and warning per route, recorded sizes stay true |
| `Staging.CacheAfterMeans` | internal/app/remote.go:475-524 | entry by entry: a miss stays one unless the transfer succeeds and its size is between threshold and limit, then it is a hit with the whole history, its size and its time, or already evicted; a hit stays, becomes more recent and loses the claim |
| `Staging.ClaimedHitArrives` | internal/app/remote.go:488-501 | whatever other processes do to the cache after the claim is acquired and while it lasts, cached bundle plus delta give everything reachable from the head |
| `Staging.HitExactly` | internal/cli/internal_reconstruct.go:143-168 | whatever the cached bundle and the work directory hold, cached bundle plus delta yield the head if and only if the cached bundle leaves the base there |
| `Staging.WhenHitsServe` | internal/app/remote.go:488-501 | a sound cache always serves; a torn hit serves exactly a work directory that already held the base |
| `Staging.StageOrReconstruct` | internal/app/remote.go:539-574 | which of the four outcomes and which warning, exactly and with any cache, by seed, excluded paths, changes and what the source knows; every reconstruction route leaves the worker holding everything reachable from the submitted head; a torn hit in a fresh directory falls back, and the fallback clears the work directory |
| `Codec.PackageLC` | internal/source/localchanges.go:158-194 | patch first when not empty, then files by path, masked modes, links without content |
| `Codec.ArchiveShape` | internal/source/localchanges.go:153-194 | the archive itself: the patch first unless empty, then each file exactly once under f/ with its nine mode bits and either link or content, in byte order of paths when they are distinct |
| `Codec.UnpackageLC` | internal/source/localchanges.go:196-230 | accepts exactly archives whose members are the patch or under f/ |
| `Codec.RoundTrip` | internal/source/localchanges.go:153-230 | unpackaging packaged changes gives their canonical form |
| `Codec.PackingIsDeterministic` | internal/source/localchanges.go:153-157 | with distinct paths the archive does not depend on the order of the files |
| `Codec.Repackaging` | internal/app/build.go:327-335 | with distinct paths repackaging the canonical form gives the identical archive |
| `Codec.PackageSubmission` | internal/source/submission.go:34-65 | identity, bundle when not empty, nested changes |
| `Codec.SubmissionShape` | internal/source/submission.go:34-65 | the members by name, mode and content: meta.json, bundle unless empty, lc.tar |
| `Codec.UnpackageSubmission` | internal/source/submission.go:69-116 | refuses unknown members and undecodable identity or changes |
| `Codec.SubmissionRoundTrip` | internal/source/submission.go:34-116 | every submission comes back with its changes in canonical form |
| `Codec.ResubmissionIsIdentical` | internal/app/build.go:327-335 | with distinct paths what the coordinator stores and would send again is the archive the client sent |
| `ShellLine.BuildRemoteCommand` | internal/app/remote.go:308-319 | the shell reads the line as vci, the name and the arguments, empty ones and embedded quotes included, if and only if none holds NUL |
| `ShellLine.ReadQuoted` | internal/app/remote.go:317-319 | quoted text reads back as itself in any surrounding word |

## Left out

- ssh, scp, tar, docker, tart and process spawning: foreign calls; their outcomes are inputs.
- File-system bytes, JSON, TOML and tar encodings, fsync and temp-file renames: a write is an atomic map update, an archive a sequence of entries.
- Corrupt or unreadable run, lease, claim and metadata files: the code mostly skips them; the model has none.
- The Windows lock variants, which take no lock.
- Command-line parsing, envelopes, error classification, polling, setup commands and version reporting: plumbing that would add only easy members.
- Validators for names, URLs, images, globs and paths: pattern checks resting on library matchers.
- Git's working tree after checkout, patch application and submodules: only commit reachability is proved.
- Manifests, blobs, snapshots, artifact collection, retention and remote cleanup: file-tree walking that no proved property depends on.
- A summary's counters, warnings and error context, log tailing and size-limited writers: small, and would add only easy members.
- Runs without a build request: they appear as claim holders in the capacity results, in the reaper pass and in `Lifecycle`, not in the interleaving proofs.
- Configuration changes while builds run: capacities are fixed in the capacity results.
- `bundlecache.ReapStale`: the same cutoffs as the maintenance pass, written as ages, over all projects.
- Cache entries with unreadable or half-written metadata.
- StateDirectory.StateDir.RequestCancellation: does not stamp the execution file of a running command, which only tells observers that termination was requested; a failure to write that file is not modelled.
- Network failures during staging: `applies` and `uploads` stand for the outcomes the routes depend on; any other failure falls back the same way.
- Scheduler.ReserveAndPublish: the refusal of a timestamp more than a minute in the future is not modelled.
- Commits.Checkout.CreateBundle: the bundle's size is an input, because Git decides how it packs.
- Codec.PackageLC: with repeated paths the order of equal paths is one of those the library sort may produce.

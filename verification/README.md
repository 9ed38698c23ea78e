# Backup agent: the durable work engine

The agent runs backups and repository maintenance on a server, keeps a journal of its work in an embedded
database, and reports to a control plane. This project models the parts that must survive crashes, failed
saves, lost answers and any interleaving, and proves what they keep.

- `Daemon*.dfy`: the daemon. One method is one critical section under the daemon's lock. Backups, maintenance,
  replica syncs, replication and agent updates share one journal and one set of busy repositories; every save may
  fail, and a crash leaves only the disk. The state between two sections is the predicate `DaemonSteps.Sound`, and
  `Daemons.Promises` spells out what it means.
- `SnapshotSets.dfy`, `Restic.dfy`, `Retention.dfy`, `PlanReplay.dfy`, `RetentionRecovery.dfy`, `MaintenanceRuns.dfy`:
  the retention engine over Restic repositories. A repository is a list of tagged snapshots, `forget` removes any
  subset of what it is given, exit codes are arbitrary, and every call and every save is on a trace.
- `MaintenanceState.dfy`: what the daemon remembers about a repository between runs.
- `Reporter.dfy`, `KeyOrder.dfy`, `Bucket.dfy`, `StateDatabase.dfy`: delivery of events and logs, and the database.
- `Updater.dfy`: the helper that installs one package version and puts the previous one back.
- `DeflatePipeline.dfy`, `ParallelDeflate.dfy`, `PartUpload.dfy`, `BoundedOutput.dfy`, `ProgressOutput.dfy`: the stream
  writers, whose result must not depend on how a stream is cut into writes or on the order of the goroutines.

What nobody in the program decides (answers, exit codes, failures, crashes, schedules) is an argument of the
methods or a sequence of `Fate` values that is the same for all of a run and otherwise arbitrary.

## Assumptions

- The repositories of a job never change, a replica belongs to one primary and is no primary itself.
- Run ids are fresh; a cancellation names the run of another command. The control plane does not send a command
  again once it was started, never uses an id for something else, and has at most one update outstanding; an
  update's result appears only after its request was handed over.
- The dispatching goroutine does one thing at a time, and only the scheduling goroutine gives occurrences out.
- A stream that is uploaded in parts is shorter than 2^63 bytes.
- Only the helper changes the installed package, and a package operation that reports success has done its work.
- Restic names every snapshot of a repository differently and lists a repository exactly when it exits with 0 and
  well-formed output; nothing else removes snapshots during a run.
- For plans replayed on replicas: a snapshot has at most one run tag, copies keep their tags, and the snapshots of
  a proof carry its run tag.
- A database transaction happens entirely or not at all. A file is replaced or removed at once.

## Where the code falls short

These are results about the code as it is; each has a member below that shows or delimits it.

- Without a tail, `boundedOutput` neither keeps nor counts a later write that would still fit
  (`BoundedOutputs.UntailedConservesExactlyWhen`), and what it keeps depends on the cutting into writes
  (`BoundedOutputs.UntailedDependsOnWrites`) unless nothing fits or everything does
  (`BoundedOutputs.UntailedIgnoresCuttingExactlyWhen`).
- A queue of events that is not in order comes back from the database in another order
  (`StateDatabases.ReloadEqualsSaveExactlyWhen`); all queues the reporter builds are in order.
- A backup target whose maximum is so large that the check of its URLs wraps around is accepted with too few of them
  (`PartUploads.AcceptedHasUrlsExactlyWhen`), and an archive well within the maximum then fails
  (`PartUploads.WrappingFails`).
- An event that was given up is without a trace after a crash exactly when the journal had been saved without it and
  the gap version raised for it had not (`Reporters.CommandReport.Crash`, with a run in `Reporters.ForgettingRun`).
- A received cancellation has no run kind, and loading the journal makes it one of a backup
  (`StateDatabases.CancellationBecomesBackup`); loading leaves a command alone exactly when its fields are set or have
  nothing to be filled from (`StateDatabases.NormalizeKeepsExactlyWhen`).
- An inspection runs while its command still waits, so a crash before its result is saved has it run again
  (`Daemons.InspectedTwice`). Nothing else is launched twice (`DaemonHistories.AtMostOnce`).
- A cancellation that was queued while a backup still ran may close it again after it finished. That empties its
  result, and its replicas are then taken off by any listing (`Daemons.ReclosedAsksForNothing`); such commands are
  on record, and nothing else gets off (`Daemons.Daemon.FinishWithoutExecution`, `Daemons.Promises`).
- While the update request is still there, the result file may say "complete" with the previous version back
  (`Updaters.ResultCanBeOutdated`); once the request is gone it is right (`Updaters.SettledResult`).
- Version numbers from the largest machine word on are all taken for that word, so a newer version may compare as
  equal (`Updaters.HugeVersionsCompareEqual`); a version is compared rightly with every other exactly when all its
  numbers are smaller (`Updaters.ComparesExactlyWhen`).
- An id protects another snapshot than its own when a copy of it is listed later in the same repository
  (`SnapshotSets.ProtectsItself`, `SnapshotSets.ProtectsCopyInstead`).
- A retry or a replica replays a plan by runs, so a snapshot that is protected on its own beside a candidate of the
  same run is forgotten (`PlanReplays.RetryCanForgetProtected`); a replay is safe exactly when no run is split that
  way (`PlanReplays.ReplaySparesExactlyWhen`).
- Naming recovery points by run id skips the protection check (`PlanReplays.NamedRunsSpareExactlyWhen`).
- A recovered retention run that removed nothing cannot say why its last forget failed
  (`RetentionRecovery.VerdictsDifferExactlyWhen`).
- Closing a deflater a second time reports success exactly when no goroutine failed, so the answer is wrong exactly
  when the first call's own write was the failure (`ParallelDeflaters.ParallelDeflater.CloseTwice`, with a run in
  `ParallelDeflaters.FailureThenSuccess`).
- A good backup gets its replicas pending exactly when its own goroutine ends it
  (`Daemons.ReplicasPendingExactlyWhen`); one whose outcome is reconstructed after a restart is closed as finished and
  nothing of it is copied (`Daemons.UnreplicatedBackup`).
- The repository's README says that destructive retention is refused while an outcome is unresolved. The block is
  raised for the primary, by the result of the whole run, and that is unresolved exactly when the primary's is
  (`MaintenanceRuns.ExecuteMaintenanceRepositories`): an unresolved outcome on a replica of a complete primary blocks
  nothing (`MaintenanceRuns.UnresolvedReplica`), and all unresolved outcomes of a job block exactly when it has no
  replicas (`MaintenanceRuns.UnresolvedBlocksExactlyWhen`).
- A retention run whose answer cannot be read although Restic exited with 0 counts as complete without its plan
  being carried out (`MaintenanceRuns.ExecuteRepositoryMaintenance`); its replicas then choose for themselves.

## Model

| member | source | states |
|---|---|---|
| Daemons.Promises | agent/commands.go:369-490 | In every state between critical sections: at most two backups and one maintenance run; no repository has two holders; nothing runs while an update is handed over; no pending replica for a job under maintenance; no command is launched twice unless it is an inspection, and no occurrence is; every replica a finished backup owed its snapshots is still pending, or a listing of it has shown all of them, whether or not the command is still in the journal; only a command that a queued cancellation closed again after it had finished is let off with less |
| Daemons.Daemon.constructor | agent/daemon.go:156-180 | A daemon without journal, claims and goroutines is in such a state |
| Daemons.Daemon.Receive | agent/commands.go:62-128 | A command is durable before it counts as received, exactly when its saves go through; a redelivery changes nothing, a failed save takes it back, and an update becomes the one everything waits for; a cancellation comes under the run id of another command |
| Daemons.Daemon.Acknowledge | agent/commands.go:185-202 | Only the acknowledgement of one command changes, whether the save succeeds or not |
| Daemons.Daemon.DiscardExpired | agent/commands.go:300-328 | Exactly an unacknowledged manual command that expired is dropped, durably or not at all; nothing waits for it any more if it was the update, even where saving just that fails and the caller is told so |
| Daemons.Daemon.StartOperation | agent/commands.go:369-490 | A waiting run starts exactly when no update waits, nothing makes it wait, and its saves go through. Only two active backups or a busy primary make a backup wait; only an active maintenance run, a busy repository of the job, its being copied, or a pending replica of it make maintenance wait. It is launched only once it is durably running; a failed save leaves everything as it was |
| Daemons.Daemon.LaunchRun | agent/commands.go:473-487 | Launching takes exactly the repositories of the run, enters it in the table of active runs and logs one launch |
| Daemons.Daemon.FinishOperation | agent/commands.go:594-684 | The end of a run frees exactly what it held, although it also deletes replicas that a backup never took; it leaves all replicas pending exactly after a good backup with snapshots |
| Daemons.Daemon.FinishWithoutExecution | agent/commands.go:751-808 | Closing a command without running it keeps all promises even when it is running or finished by then; when it was finished, its result is emptied and that is on record |
| Daemons.Daemon.Reconcile | agent/commands.go:1267-1330 | Only a command left running is closed, with the reconstructed result, and nothing becomes pending or owed |
| Daemons.ReplicasPendingExactlyWhen | agent/commands.go:621-628 | Of the two ends of a good backup with snapshots and replicas, only that by its own goroutine makes its replicas pending; the reconstructed one has the same result and owes nothing |
| Daemons.UnreplicatedBackup | agent/commands.go:1313-1325 | A run in which a backup is interrupted by a crash, closed as finished with its snapshots, and has nothing pending |
| Daemons.Daemon.StartInspection | agent/commands.go:223-232 | An inspection begins exactly when its command is waiting and no update is, and is logged as launched while the command goes on waiting |
| Daemons.Daemon.FinishInspection | agent/commands.go:236-244 | Its result closes the command if that is still there |
| Daemons.InspectedTwice | agent/commands.go:231-245 | A run with a crash in which one command is inspected twice |
| Daemons.FindCancelled | agent/commands.go:814-821 | Found is a waiting manual run of this run id, and none only when there is none |
| Daemons.Daemon.DropCancellation | agent/commands.go:204-216 | The cancellation leaves the journal, and nothing else does |
| Daemons.Daemon.ForgetReported | agent/commands.go:1006-1024 | A command leaves the journal exactly when it is reported and no replica of it is pending |
| Daemons.Daemon.Schedule | agent/scheduler.go:165-254 | The occurrence that was looked up is claimed durably for a fresh run, exactly when the save goes through: a command for its job and of its kind, waiting unless it overlaps; otherwise nothing changes |
| Daemons.Daemon.LookUp | agent/scheduler.go:164-171 | The scheduler goes on with an occurrence exactly when nobody has claimed it; until it has decided, nobody else claims it |
| Daemons.Daemon.SkipOccurrence | agent/scheduler.go:172-195 | Passing over the occurrence that was looked up overwrites whatever claim there is, and still takes none back |
| Daemons.Daemon.ReleaseNextDeferred | agent/scheduler.go:315-356 | The deferred maintenance that nothing goes before is released, durably or not at all, never while an update waits, and none only when there is none or the save fails |
| Daemons.Daemon.ChooseCatchUpBackup | agent/scheduler.go:388-404 | Of the backups of a job that wait for maintenance the earliest is chosen, and none only when there is none or an update waits |
| Daemons.NextDeferred | agent/scheduler.go:322-346 | In whatever order the journal is gone over, the command found is of the most important kind and the earliest of these, and none is found only when there is none |
| Daemons.MostImportantFirst | agent/scheduler.go:373-386 | Inventories go before retention, that before checks of the metadata, these before checks of the data, these before prunes, and the earlier before the later |
| Daemons.NextCatchUp | agent/scheduler.go:394-402 | The waiting backup found is the earliest, and none is found only when there is none |
| Daemons.Daemon.StartReplicaSync | agent/replica_sync.go:10-59 | A replica sync takes the primary and its target only when both are free and the job is not being copied, and only once it is durably running; an unknown replica closes the command |
| Daemons.Daemon.FinishReplicaSync | agent/replica_sync.go:117-136 | The end of a sync frees exactly its two repositories and its job |
| Daemons.Daemon.StartReplication | agent/replication.go:41-59 | Copying of a job begins exactly when no update waits and the job is not being copied |
| Daemons.Daemon.ChooseBatch | agent/replication.go:139-164 | The batch is exactly the finished commands of the job that wait for this replica and are due, and none is chosen only when nothing is due for any |
| Daemons.Daemon.TakeRepositories | agent/replication.go:76-86 | The copy takes primary and replica exactly when both are free, and gives up otherwise |
| Daemons.Daemon.FinishCopy | agent/replication.go:97-101 | Both repositories are free again, whatever came of the copy |
| Daemons.Daemon.ReadInventory | agent/replication.go:103-129 | The copy counts as complete exactly when it succeeded and the listing shows every snapshot of the whole batch, one by one |
| Daemons.Daemon.FinishBatch | agent/replication.go:199-246 | After a complete batch none of its commands with a result has this key pending, and every other key stays; each key taken off has the listing that allowed it on record; after any other batch nothing is less pending |
| Daemons.ReclosedAsksForNothing | agent/replication.go:103-129 | After a command was closed again, whatever the listing shows counts as complete for it |
| Daemons.Daemon.LeaveReplication | agent/replication.go:61-69 | A copying goroutine that is done holds nothing and only releases its job |
| Daemons.Daemon.StartUpdate | agent/commands.go:1162-1181 | An update starts exactly when it is waiting, no run is active, no repository busy, nothing is being copied, and its save goes through; otherwise nothing changes |
| Daemons.Daemon.HandOver | agent/commands.go:1182-1206 | The update is with the helper exactly when the request could be written; otherwise it waits again |
| Daemons.Daemon.ConsumeResult | agent/commands.go:1215-1265 | Only the result of the active update is taken; it closes the command and ends the waiting |
| Daemons.Daemon.Restart | agent/commands.go:1065-1127 | A crash at any moment leaves the disk and the helper; the restarted daemon waits for a handed-over update again |
| Daemons.Daemon.Save | agent/state_db.go:102-168 | The disk takes over the whole journal, or nothing; claims are only ever added |
| Daemons.FindPending | agent/commands.go:686-693 | Found exactly when some command with a result of the job has a replica pending |
| Daemons.FitsNow | agent/commands.go:398-418 | True exactly when capacity and all repositories are there and, for maintenance, nothing of the job is pending or being copied |
| Daemons.WaitsUnlessFits | agent/commands.go:398-418 | What makes a run wait, in terms of the runs that are active and of single repositories, is exactly what keeps it from fitting |
| Daemons.ThirdBackupWaits | agent/commands.go:398-399 | A run in which two backups of different primaries are active at once, and a third has to wait although its primary is free |
| Daemons.NextBatch | agent/replication.go:144-163 | Chooses a replica for which something is due, unless nothing is |
| Daemons.FindUpdate | agent/commands.go:1069-1095 | Finds an unfinished update in a journal exactly when there is one |
| DaemonStates.ActiveCounts | agent/maintenance_state.go:8-19 | The loop counts the active backups and the active maintenance runs |
| DaemonStates.OneHolder | agent/commands.go:410-418 | Two different holders hold disjoint sets of repositories, all of them marked busy |
| DaemonStates.HoldsPrimaryToo | agent/commands.go:400-409 | Whoever holds a replica holds its primary |
| DaemonStates.TakeByRun | agent/commands.go:473-477 | A run may take repositories that nobody holds |
| DaemonStates.FreeByRun | agent/commands.go:608-614 | Freeing the primary and all replicas of a finished run frees only what the run held |
| DaemonStates.TakeByStream | agent/replication.go:80-86 | A copying goroutine that holds nothing may take what nobody holds |
| DaemonStates.FreeByStream | agent/replication.go:98-101 | It frees only what it held |
| DaemonStates.StartWithinCapacity | agent/commands.go:398-399 | A start below the limits stays within two backups and one maintenance run |
| DaemonStates.FinishWithinCapacity | agent/commands.go:609-610 | An end keeps the limits and the table of active runs right |
| DaemonHistories.AtMostOnce | agent/commands.go:379-489 | Two launches of the same command are inspections, and no scheduled occurrence is launched twice |
| DaemonHistories.LogLaunch | agent/commands.go:464-482 | A launch may be logged when its command is durably no longer waiting and its occurrence is claimed by its run |
| DaemonHistories.LogInspection | agent/commands.go:231-232 | An inspection may be logged while its command waits, and then again |
| DaemonHistories.WaitingHasNoThread | agent/commands.go:379-383 | A command that is still waiting was never launched and has no goroutine |
| DaemonHistories.NothingRunsWhileHanded | agent/commands.go:375-378 | Without a waiting update nothing is with the helper, and while something is, no goroutine exists |
| DaemonSteps.ClaimsStand | agent/state_db.go:155-162 | Whatever is saved, an existing claim keeps its value |
| DaemonSteps.SaveSound | agent/state_db.go:102-168 | Saving, or failing to, keeps everything that holds between critical sections |
| DaemonSteps.EditSound | agent/commands.go:751-808 | So does every change to one command that neither re-opens a launched one nor touches what is pending or the result of a finished one |
| DaemonSteps.CloseSound | agent/commands.go:751-808 | So does closing a command with an empty result, whatever state it is in |
| DaemonSteps.AddSound | agent/commands.go:93-107 | So does a new command under a fresh run id, or a cancellation under that of another |
| DaemonSteps.ScheduleSound | agent/scheduler.go:239-246 | So does the durable command for the occurrence that was looked up |
| DaemonSteps.SkipSound | agent/state_db.go:185-203 | So does overwriting the claim of the occurrence that was looked up |
| DaemonSteps.InspectSound | agent/commands.go:231-232 | So does the beginning of an inspection |
| DaemonSteps.RemoveSound | agent/commands.go:1008-1010 | So does forgetting a command that owes no replica |
| DaemonSteps.LaunchSound | agent/commands.go:443-487 | So does launching a run that is durably running and fits in |
| DaemonSteps.FinishSound | agent/commands.go:608-671 | So does the end of a run, whatever became of its command meanwhile |
| DaemonSteps.SyncSound | agent/replica_sync.go:40-56 | So does the start of a replica sync |
| DaemonSteps.StreamEndSound | agent/replica_sync.go:117-120 | So does the end of a copying goroutine |
| DaemonSteps.StreamMoveSound | agent/replication.go:71-75 | So does any step of a copying goroutine that takes and frees nothing |
| DaemonSteps.CopyStartSound | agent/replication.go:80-86 | So does taking two free repositories for a copy |
| DaemonSteps.CopyEndSound | agent/replication.go:98-101 | So does giving them back |
| DaemonSteps.PaySound | agent/replication.go:233-235 | So does removing a key after a listing that shows every snapshot of the result |
| DaemonSteps.HandSound | agent/commands.go:1166-1181 | With no active run and no copying job there is no goroutine at all when the update is handed over |
| DaemonSteps.HandedSound | agent/commands.go:1187-1196 | Handing the update over is its one launch |
| DaemonSteps.ConsumeSound | agent/commands.go:1245-1262 | The result ends the waiting without breaking any promise |
| DaemonSteps.RestartSound | agent/commands.go:1065-1127 | The state rebuilt from the disk after a crash at any moment is sound, with the same launches and claims |
| DaemonReplications.GentleEdit | agent/commands.go:751-808 | A change that leaves what is pending and the result of what is finished keeps every debt to a replica accounted for |
| DaemonReplications.CloseReplicating | agent/commands.go:751-808 | Closing a command with an empty result keeps every debt accounted for, noting those that it excuses |
| DaemonReplications.FinishBackup | agent/commands.go:621-628 | A finished backup owes each replica the snapshots of its result, and no maintenance run of its job exists then |
| DaemonReplications.StartReplicatingRun | agent/commands.go:401-409 | Maintenance that starts with nothing of its job pending has nothing of its job pending as long as it runs |
| DaemonReplications.PendingBatch | agent/replication.go:144-162 | A batch chosen from what is pending consists of launched, finished commands without goroutine |
| DaemonReplications.PayOne | agent/replication.go:233-235 | A key that leaves the pending list leaves behind the listing that shows every snapshot that was owed |
| DaemonReplications.PendingIsFinished | agent/commands.go:621-628 | Only a launched and finished command with a result of its own job has replicas pending |
| MaintenanceStates.MaintenanceBook.Prepare | agent/maintenance_state.go:21-70 | While an unresolved outcome is not lifted, every maintenance run of the repository is told of it; the run gets the newest proof of a complete backup; the data check gets the part whose turn it is; prune is due exactly after the interval |
| MaintenanceStates.MaintenanceBook.RecordOutcome | agent/maintenance_state.go:72-112 | An unresolved outcome blocks the repository, and no other does, durably when the save succeeds; a complete listing of the whole repository lifts the block, and nothing else does, no check, prune, retention run or backup; a good data check moves on to the next part; only a completed backup with snapshots replaces the proof |
| MaintenanceStates.MaintenanceBook.AcceptConfig | agent/maintenance_state.go:136-169 | The loop over the jobs of a configuration has the effect of accepting its enabled jobs one after the other, and keeps every block that it does not lift |
| MaintenanceStates.MaintenanceBook.Save | agent/maintenance_state.go:110-111 | The durable copy is the whole record with what it remembers, or stays what it was |
| MaintenanceStates.MaintenanceBook.Crash | agent/maintenance_state.go:110-111 | After a crash every block that was durably recorded still stands |
| MaintenanceStates.ReactRemembers | agent/maintenance_state.go:84-94 | No event makes the record forget a block that the event does not lift |
| MaintenanceStates.OutcomeIsKept | agent/maintenance_state.go:154-162 | Over any history, a block stays while no listing and no configuration with unresolved runs has come after it, however many configurations without do |
| MaintenanceStates.LaterConfigLifts | agent/maintenance_state.go:154-162 | A confirmed block stays over any number of configurations without unresolved runs exactly as long as none of them is strictly later |
| MaintenanceStates.NewerProofOrders | agent/maintenance_state.go:114-125 | Being the newer proof is a strict order, total on proofs of different runs: the later one is newer, and of two at one time that of the greater run |
| MaintenanceStates.AcceptedKeepsProof | agent/maintenance_state.go:149-152 | After a configuration the proof is at least as new as before and as that of every enabled job of the repository |
| MaintenanceStates.PartsRotate | agent/maintenance_state.go:96-104 | After so many checks from a part the next one is that many further, modulo the number of parts |
| MaintenanceStates.EveryPartIsChecked | agent/maintenance_state.go:50-61 | As many good checks as there are parts read every part, from wherever they start, and end where they began |
| SnapshotSets.SnapshotIdsForRunIds | agent/maintenance.go:557-573 | The list is exactly the snapshots tagged with one of the runs, none twice |
| SnapshotSets.ExpandDatabaseRunCandidates | agent/maintenance.go:531-555 | The list is exactly the snapshots that share a run tag with an anchor, be the tag well-formed or not |
| SnapshotSets.ExpandedIsWholeRuns | agent/maintenance.go:531-555 | These are at least the whole runs of the anchors, and exactly them when every run tag is well-formed |
| SnapshotSets.ExpandedListed | agent/maintenance.go:531-555 | Expanding by the listing: what shares a run tag with an anchor |
| SnapshotSets.RunIdsForSnapshots | agent/maintenance.go:575-597 | The list is exactly the runs that well-formed tags of the given snapshots name, none twice |
| SnapshotSets.RepositorySnapshotIds | agent/maintenance.go:488-506 | Each id is translated to the last snapshot listed under it or as a copy of it, or stays |
| SnapshotSets.WithoutProtected | agent/maintenance.go:754-762 | What remains is the set difference, without new duplicates |
| SnapshotSets.IntersectsProtected | agent/maintenance.go:764-771 | True exactly when some value is protected |
| SnapshotSets.SnapshotIds | agent/maintenance.go:466-473 | The list has each element of the set once |
| SnapshotSets.UniqueIds | agent/maintenance.go:475-486 | The list has each of the values once |
| SnapshotSets.CountPresent | agent/maintenance.go:367-372 | The count is the number of candidates that the repository still has |
| SnapshotSets.ProtectsItself | agent/maintenance.go:488-506 | A listed snapshot is protected by its own id exactly when no copy of it is listed after it |
| SnapshotSets.ProtectsCopyInstead | agent/maintenance.go:488-506 | Two snapshots for which the id of the first protects only the second |
| SnapshotSets.LocalIdSource | agent/maintenance.go:488-506 | A translated id that is in the repository is the id itself or that of a copy of it |
| SnapshotSets.LocalIdIsLastNamed | agent/maintenance.go:488-506 | An id means the last snapshot listed under it or as a copy of it, and itself when there is none |
| SnapshotSets.OfRunsMembers | agent/maintenance.go:563-571 | Membership in the snapshots of some runs, in terms of the listing |
| SnapshotSets.RunsOfMembers | agent/maintenance.go:578-589 | Membership in the runs of some snapshots, in terms of the listing |
| ResticRepositories.Repository.Run | agent/maintenance.go:91-104 | An operation is run once, or once more, now clearing stale locks, exactly when a later call of the attempt finds the repository locked; only forget changes snapshots, and only those it is given |
| ResticRepositories.Repository.Persist | agent/maintenance_repositories.go:20-29 | A plan of the primary is kept in mind even when saving it fails |
| ResticRepositories.OrderlyAppend | agent/maintenance.go:319-354 | A trace stays in write-ahead order when what is forgotten was announced in a saved plan and what is pruned was due |
| ResticRepositories.AfterRun | agent/maintenance.go:91-104 | The same for a whole call with its possible repetition, with what it asked to forget |
| RetentionEngine.ProtectedStays | agent/maintenance.go:217-228 | While nothing protected is removed, exactly the same snapshots are protected |
| ResticRepositories.PruneBecomesDue | agent/maintenance.go:420-430 | A saved start of the prune after a listing without candidates makes the prune due |
| RetentionEngine.ExecuteForget | agent/maintenance.go:195-397 | Whatever Restic answers: only the chosen snapshots are ever given to forget, all of them unless a call failed, and none when something protected is not listed; a run that makes its own plan has it saved before the first forget, never asks for a listed snapshot that is to be kept, and prunes only after a saved start and a listing without candidates; by policy it chooses what Restic proposes less what is protected; counts and verdict are those of the final listing, and a run that ends without counting says exactly why |
| RetentionEngine.ForgetBatches | agent/maintenance.go:343-354 | Batches of a hundred ask for every candidate unless one fails, and for nothing else |
| RetentionEngine.Remove | agent/maintenance.go:336-366 | After forgetting and listing, the counts are those of what is left; only without a listing the outcome is unresolved, with the candidates as evidence; everything was asked for unless a call failed |
| RetentionEngine.CarryOut | agent/maintenance.go:319-397 | The same for an empty choice, where only the second half is left to do |
| RetentionEngine.Judge | agent/maintenance.go:367-396 | Complete, partial or failed by what is left of the candidates, and the failure of the last forget only when nothing was removed |
| RetentionEngine.FinishRetention | agent/maintenance.go:399-454 | Prune is reported complete exactly when it exited with 0 and that was saved; a run that is not combined is left as it is; every failure of the second half takes the success away |
| RetentionEngine.ProtectedIds | agent/maintenance.go:217-228 | Protected are the proof by its run or else by its ids, the protected snapshots and the snapshots of protected runs |
| RetentionEngine.ProtectedIsKept | agent/maintenance.go:217-228 | By the listing: protected are exactly the snapshots with a tag of a protected run or of the run of the proof, the last one listed under or as a copy of a protected id, the same for the ids of the proof where nothing has its run, and such ids that nothing goes by |
| RetentionEngine.KeptExactly | agent/maintenance.go:217-228 | Where ids are distinct, a listed snapshot is protected exactly when it is to be kept |
| RetentionEngine.NothingMissed | agent/maintenance.go:229-238 | All that is protected is listed exactly when no protected id goes without a snapshot |
| RetentionEngine.SparesKept | agent/maintenance.go:217-228 | Whatever spares what is protected spares every snapshot that is to be kept |
| RetentionEngine.EmptyPolicyListed | agent/maintenance.go:277-307 | With an empty policy a snapshot is given up exactly when it is not to be kept and, for databases, shares a run tag with an anchor |
| RetentionEngine.TargetsListed | agent/maintenance.go:251-276 | Named snapshots mean those that are there, and for databases what shares a run tag with them |
| RetentionEngine.RefusedListed | agent/maintenance.go:251-276 | They are refused exactly when one of these is to be kept |
| RetentionEngine.ExitsMean | agent/maintenance.go:631-656 | An exit is reported as success exactly when it is 0, and otherwise by its code or its cancellation |
| RetentionEngine.TargetCandidates | agent/maintenance.go:251-276 | Named snapshots are refused exactly when one of them, or for databases one of their runs, is protected; otherwise they are those present, with their runs |
| RetentionEngine.PolicyCandidates | agent/maintenance.go:277-307 | By policy nothing protected is chosen whatever Restic proposes, and an empty policy chooses all the rest |
| RetentionEngine.FreshCandidates | agent/maintenance.go:248-307 | The three ways to choose, each with its own promise; named snapshots are refused exactly when one is protected |
| RetentionEngine.PlanAfresh | agent/maintenance.go:248-334 | What is chosen is saved as the plan before anything is forgotten; otherwise the run ends and says exactly why |
| RetentionEngine.MakePlan | agent/maintenance.go:308-318 | The plan lists exactly what was chosen, what is protected, and the runs of both |
| RetentionEngine.PlannedCandidates | agent/maintenance.go:240-247 | A plan that names runs means the snapshots of these runs here, one that does not means its snapshots |
| RetentionEngine.SettledBalances | agent/maintenance.go:773-781 | Removed and retained add up to considered, and no count is negative |
| RetentionEngine.LiveCounts | agent/maintenance.go:336-375 | Counting before and after a forget gives the settled counts, when only candidates can have gone |
| RetentionEngine.ReconciledCounts | agent/commands.go:1366-1374 | Counting only afterwards gives the same |
| PlanReplays.ReplaySparesExactlyWhen | agent/maintenance.go:240-247 | Replaying a plan by runs spares the protected snapshots exactly when no run has both a protected snapshot and a candidate |
| PlanReplays.WholeRunsWhenClosed | agent/maintenance.go:217-247 | That is so when protection covers whole runs |
| PlanReplays.ProtectedByRunsIsClosed | agent/maintenance.go:226-228 | Protection by runs covers whole runs when a snapshot has one run |
| PlanReplays.RetryCanForgetProtected | agent/maintenance.go:240-247 | Three snapshots and a plan whose replay forgets a protected snapshot |
| PlanReplays.NamedRunsSpareExactlyWhen | agent/maintenance.go:249-250 | Naming runs spares the protected snapshots exactly when none of them belongs to a named run |
| PlanReplays.TransportSpares | agent/maintenance_repositories.go:54-70 | The plan of the primary, replayed on a replica, forgets nothing that the replica protects |
| PlanReplays.ReplicaSnapshotSpared | agent/maintenance_repositories.go:54-70 | A protected snapshot of the replica belongs to no run of a candidate on the primary |
| RetentionRecovery.ReconciledMaintenance | agent/commands.go:1332-1407 | Recovery asks for one listing and changes nothing; whenever that can be read, its counts and verdict are those of the saved plan and the listing, but a prune of a combined plan that was started and not completed leaves the outcome unresolved |
| RetentionRecovery.VerdictsDifferExactlyWhen | agent/commands.go:1391-1404 | The recovered verdict differs from the live one exactly when nothing was removed and the forget was cancelled or failed with a code of its own |
| RetentionRecovery.RecoveryAgrees | agent/commands.go:1366-1404 | A run that chooses for itself and does not prune, and its recovery, report the same counts and evidence, and the same verdict but for that case |
| MaintenanceRuns.ExecuteMaintenance | agent/maintenance.go:47-193 | With a plan of another kind, an unresolved run or no proof nothing is called; only retention ever forgets; every other kind calls its own operation and is reported by that answer |
| MaintenanceRuns.Check | agent/maintenance.go:149-186 | A check is corrupt exactly when it found errors or exited in a way that nothing else explains, and otherwise reported by its exit |
| MaintenanceRuns.ExecuteRepositoryMaintenance | agent/maintenance_repositories.go:93-137 | The result is the report of the last attempt, which follows only attempts that failed by a lock, a deadline or without a name; a check, prune or inventory is complete exactly when its own operation came last with exit 0 and, for a check, without errors; over all attempts a run that chooses for itself spares everything that was protected at the start, the primary if protection covers whole runs, a replica in any case; a given plan forgets at most what it means here; prune is complete only as saved; a complete retention run has carried out its plan and counted, exactly unless some answer with exit 0 was unreadable |
| MaintenanceRuns.CompleteEndsWell | agent/maintenance.go:126-193 | A check, prune or inventory is reported complete exactly when the last thing that happened is that operation with exit 0, and for a check without errors found |
| MaintenanceRuns.CompleteIsFinished | agent/maintenance.go:367-396 | An attempt that counts as complete has nothing left of its plan, or ended on an unreadable answer |
| MaintenanceRuns.ChoiceSpares | agent/maintenance_repositories.go:110-122 | One more attempt that chooses anew spares what was protected at the start |
| MaintenanceRuns.AttemptSpares | agent/maintenance_repositories.go:110-122 | One more attempt, choosing or replaying, spares the protected snapshots too |
| MaintenanceRuns.ReplaySpared | agent/maintenance_repositories.go:110-122 | A retry that replays the plan reaches no snapshot protected at the start |
| MaintenanceRuns.RunReplica | agent/maintenance_repositories.go:60-70 | The result is the report of the last attempt on the replica itself; with a finished plan it is asked to forget at most what that means there; without one it chooses for itself and spares, over all attempts, what it protects |
| MaintenanceRuns.RunReplicas | agent/maintenance_repositories.go:54-81 | The loop covers every replica once, and the summary is complete or pruned exactly when all are |
| MaintenanceRuns.ReplicaSpared | agent/maintenance_repositories.go:60-70 | Where the primary chose for itself over whole runs, a replay of its plan takes from no replica a snapshot that it protects |
| MaintenanceRuns.SparedKept | agent/maintenance.go:308-318 | A primary that chose for itself has spared every listed snapshot that is to be kept, and the plan it saved protects exactly those |
| MaintenanceRuns.ExecuteMaintenanceRepositories | agent/maintenance_repositories.go:9-91 | Every result is the report of the last attempt on its own repository, and a check, prune or inventory reported complete has ended well there; replicas are touched only after the primary counts as complete, which means that its plan is carried out exactly unless an answer with exit 0 was unreadable; over all attempts no repository is asked to forget a listed snapshot that is to be kept, whether it replays the plan or chooses for itself, and the plan protects exactly the snapshots to keep; with an unresolved run no repository is called; success means success everywhere, and the result is unresolved exactly when that of the primary is |
| MaintenanceRuns.UnresolvedReplica | agent/maintenance_state.go:72-112 | A replica is left unresolved under a complete primary, and the next retention run is not held back |
| MaintenanceRuns.UnresolvedBlocksExactlyWhen | agent/maintenance_repositories.go:82-90 | Every unresolved outcome makes the whole run unresolved exactly when the job has no replicas |
| Reporters.CommandReport.FlushCommand | agent/commands.go:858-1024 | Exactly what the control plane rejects and may be given up is given up, under a gap version raised in this pass; when the entry is gone, every event it ever queued is known to the control plane, or covered by the gap version, or was forgotten in an earlier crash, and the control plane has the whole log, its chunk count and, unless a schedule asked for the command, a result of it; a pass that goes well completes the log and reports the result, and leaves the entry only if something is still to be done |
| Reporters.CommandReport.FlushEvents | agent/commands.go:876-920 | One batch is submitted; rejected events that end a run, list snapshots or end a replication are queued still, exactly the others are given up, under the raised gap version; which of the two records is saved depends on the saves alone |
| Reporters.CommandReport.Merge | agent/commands.go:896-912 | What must be kept goes back in front of what arrived meanwhile, what is given up is covered by the raised gap version, and both records are saved, the journal first, or an error is returned |
| Reporters.MergeConserves | agent/commands.go:882-898 | An event of the queue is still queued, was accepted or known, or was given up as one that may be |
| Reporters.MergeKeepsOrder | agent/commands.go:898 | The queue stays strictly increasing and gains nothing |
| Reporters.GivenUpIsGone | agent/commands.go:882-898 | What is given up is not in the merged queue |
| Reporters.AnswersSorted | agent/commands.go:882-898 | Of the rejected events those that end a run, list snapshots or end a replication are in the merged queue, and exactly the others are given up |
| Reporters.SortAnswers | agent/commands.go:882-895 | The rejected events are split into those that are kept and those that are not |
| Reporters.CommandReport.AppendEvent | agent/commands.go:444-453 | Another goroutine may append an event with the next number at any time |
| Reporters.CommandReport.FlushLog | agent/commands.go:922-970 | The upload resumes at the first chunk not known to be stored, and ends with the completion, while others append and save between the requests |
| Reporters.CommandReport.FlushChunk | agent/commands.go:928-945 | One round uploads one chunk and moves on by one only when that is saved, or stops |
| Reporters.CommandReport.UploadChunk | agent/commands.go:927-941 | One more chunk at its own offset is held |
| Reporters.AllChunksAreTheLog | agent/commands.go:927-955 | Holding ceil(length / 256 KiB) chunks is holding the log |
| Reporters.AssembledPrefix | agent/commands.go:927-934 | The first n chunks are the first n * 256 KiB of the log |
| Reporters.CommandReport.FlushResult | agent/commands.go:972-1004 | The result is marked reported only after the control plane has stored it |
| Reporters.CommandReport.Conclude | agent/commands.go:616-637 | A command that ends, or is closed again, has a result that counts as reported only when a schedule asked for it |
| Reporters.CommandReport.FlushRest | agent/commands.go:922-1012 | Log, result and removal: the entry goes only with everything delivered |
| Reporters.CommandReport.Remove | agent/commands.go:1006-1012 | Only an entry with nothing left to deliver is removed |
| Reporters.CommandReport.RemovedIsDelivered | agent/commands.go:1006-1012 | Then every event was delivered, is covered by the gap version or was forgotten in a crash, the log is complete, and the control plane has a result unless a schedule asked for the command |
| Reporters.CommandReport.Crash | agent/commands.go:896-912 | A crash goes back to the saved journal and gap version; an event that was ever saved is then neither queued nor known nor covered exactly when the journal was saved without it and the saved gap version is below the one raised for it |
| Reporters.ForgettingRun | agent/commands.go:896-912 | A run in which a rejected event leaves no trace: the journal is saved, the state is not, and the process dies |
| StateDatabases.StateDatabase.SaveCommandJournal | agent/state_db.go:102-168 | A save succeeds exactly when the disk has room and identities and claims agree; then the buckets hold exactly this journal, else nothing changes |
| StateDatabases.StateDatabase.LoadCommandJournal | agent/state_db.go:63-100 | Loading succeeds exactly when every run is identified and referenced, and gives each command back with the events under its id, normalised |
| StateDatabases.SaveAndReload | agent/state_db.go:63-168 | After a save every command is loaded again, each as it was exactly when its queue was in order and nothing in it was left to fill in; a queue in order always comes back |
| StateDatabases.ReloadEqualsSaveExactlyWhen | agent/state_db.go:132-150 | A queue comes back as it was exactly when it was in order of sequence number and id |
| StateDatabases.KeysSortAsSequences | agent/state_db.go:146 | The zero-padded keys of one command sort as its sequence numbers and ids do |
| StateDatabases.PrefixIdentifies | agent/state_db.go:85-97 | The scan for one id picks exactly the keys of that id |
| StateDatabases.PutEventsScan | agent/state_db.go:85-97 | Storing the events of one command is invisible to the scan for another |
| StateDatabases.StoreClaim | agent/state_db.go:155-162 | A stored claim is that of its run, and a claim of another run makes the journal unsavable |
| StateDatabases.NormalizeKeepsExactlyWhen | agent/journal.go:67-103 | Normalising leaves a command alone exactly when each field is set or has nothing to be filled from, and is done after once |
| StateDatabases.LoadingFillsIn | agent/journal.go:67-97 | What each empty field of a loaded command and of its events is filled with |
| StateDatabases.CancellationBecomesBackup | agent/journal.go:74-79 | A cancellation as it is journaled, which loading gives the run kind of a backup |
| StateDatabases.ReloadIsInOrder | agent/state_db.go:85-97 | Whatever queue was saved, it comes back in order |
| StateDatabases.ReportedQueueIsInOrder | agent/commands.go:444-453 | The queues that the reporter builds are in order |
| EventBuckets.Scan | agent/state_db.go:86-92 | The cursor loop returns exactly the entries under the prefix, in order |
| KeyOrder.PaddedOrder | agent/state_db.go:146 | Twenty zero-padded digits sort as the numbers they stand for |
| Updaters.Host.Run | updater/updater.go:30-135 | Every run, wherever it dies, keeps all results honest; when it reports success the request is gone and answered; once the request of a begun installation is gone, the target is installed and reported, or the version from before is installed, or going back to it failed, or the installed version could not be read; a newer target whose installation and agent go well ends up installed |
| Updaters.Host.RunLocked | updater/updater.go:52-135 | The same run, in its branches by the saved phase and the version that is read |
| Updaters.Host.Serve | updater/updater.go:30-135 | Over any sequence of requests, deaths and restarts each request is still there or has a result |
| Updaters.Host.WriteTerminal | updater/updater.go:199-215 | The request is removed only after its result was written |
| Updaters.Host.Rollback | updater/updater.go:137-153 | The rollback is recorded before the package is touched, and a result of it says what is installed |
| Updaters.Host.ResumeRollback | updater/updater.go:155-170 | A rollback that was interrupted ends in a rollback, never in a completed update |
| Updaters.Host.FinishRollback | updater/updater.go:146-152 | A successful rollback is reported only with the previous version installed and its agent ready |
| Updaters.Host.Judge | updater/updater.go:130-134 | The new version is kept exactly when its own agent reports in time |
| Updaters.Host.Install | updater/updater.go:104-123 | The version to go back to is recorded before the package is touched, and that only when the target and the way back are available |
| Updaters.Host.Upgrade | updater/updater.go:123-134 | A failed installation that changed the package is rolled back: it is reported as failed only with the version from before in place, or when the version cannot be read |
| Updaters.Host.Fail | updater/updater.go:193-197 | A failure without installation is reported with the version that was read, if it could be read |
| Updaters.Host.WaitForReadiness | updater/updater.go:172-191 | Only a report of this very command, run and version counts |
| Updaters.CompareVersions | updater/updater.go:224-238 | The loop compares the three numbers in order |
| Updaters.ComparesExactlyWhen | updater/updater.go:224-238 | The comparison of a version with every other is the order of versions exactly when all its numbers are below the largest machine word |
| Updaters.HugeVersionsCompareEqual | updater/updater.go:224-238 | Two versions with numbers past the machine word, one newer, that compare as equal |
| Updaters.SettledResult | updater/updater.go:199-215 | Once the request is gone, "complete" means the target is installed, a successful rollback the version recorded before the first installation, a failed installation that version too unless it cannot be read; and every begun installation has ended in one of four ways |
| Updaters.ResultCanBeOutdated | updater/updater.go:206-211 | Two runs after which the result file says "complete" and the previous version is installed |
| Updaters.OutdatedIsTouched | updater/updater.go:206-211 | That is possible only while the request is there and a later run has changed the package |
| Updaters.PostSound | updater/updater.go:206-208 | An honest result keeps all others honest, and a run that began to roll back never completes afterwards |
| DeflatePipelines.StepKeeps | restic/parallel_deflate.go:130-158 | Every step of every goroutine keeps each job in one place, the output equal to the streams of the jobs consumed so far, and uses up some of the work |
| DeflatePipelines.NextStep | restic/parallel_deflate.go:130-158 | While a job is not consumed some goroutine can go on: the channels cannot deadlock |
| DeflatePipelines.WriteFaithful | restic/parallel_deflate.go:144-157 | The writer appends the stream of exactly the next job, or nothing more after a failure |
| DeflatePipelines.SendOrderedKeeps | restic/parallel_deflate.go:122-123 | Sending the result channel gives the job the next place in the output |
| DeflatePipelines.SendJobKeeps | restic/parallel_deflate.go:122-124 | Sending the job afterwards keeps the pipeline right |
| ParallelDeflaters.InflateStreams | restic/parallel_deflate.go:117-128 | Decoding the streams of dispatched chunks gives the chunks back, each behind the last 32 KiB of all before it |
| ParallelDeflaters.InflateOutput | restic/parallel_deflate.go:102-114 | With the final block the whole output decodes to the whole input |
| ParallelDeflaters.LosslessIsPossible | restic/parallel_deflate.go:160-177 | What is assumed of the codec can be met |
| ParallelDeflaters.DispatchKeeps | restic/parallel_deflate.go:117-128 | A dispatched chunk has the end of all input before it as dictionary |
| ParallelDeflaters.ParallelDeflater.Dispatch | restic/parallel_deflate.go:117-128 | Both sends end, and the chunk is the next job with the current window |
| ParallelDeflaters.ParallelDeflater.Write | restic/parallel_deflate.go:57-77 | Everything accepted is in the chunks, however the input is cut, and a short write means a failure |
| ParallelDeflaters.ParallelDeflater.Close | restic/parallel_deflate.go:79-113 | The first call succeeds exactly when no goroutine failed and the output took the ending, and exactly when the output is complete: the streams of all chunks in order with the final block, or one stream of a small entry, which decodes to exactly what was accepted; a later call answers for the goroutines alone and changes nothing |
| ParallelDeflaters.ParallelDeflater.CloseTwice | restic/parallel_deflate.go:79-113 | The second answer is success over an incomplete output exactly when no goroutine failed and the write of the first call did |
| ParallelDeflaters.FailureThenSuccess | restic/parallel_deflate.go:80-94 | A run in which the first call fails, the second succeeds, and nothing was written |
| DeflatePipelines.NoStep | restic/parallel_deflate.go:130-158 | Once all results are consumed no goroutine does anything more |
| PartUploads.Uploader.Write | partupload/uploader.go:124-165 | The bytes counted are exactly those that are in the parts and the current buffer, and a validated target whose check did not wrap around never runs out of URLs; a write fails only for a stream that is too long, does not begin as an archive, or has no URL left, or for trouble with the uploads |
| PartUploads.Uploader.Close | partupload/uploader.go:167-191 | Success means the parts are the accepted bytes, which begin as an archive does, all but the last full, ceil(total / part size) of them, each with an etag and stored as submitted; failure means that nothing or less than a signature was written, that the URLs are used up, or trouble with the uploads |
| PartUploads.Uploader.AcceptOne | partupload/uploader.go:139-162 | One round takes as much as fits and submits a full part |
| PartUploads.Uploader.Submit | partupload/uploader.go:244-293 | A part is handed over unchanged, or the uploader has failed; for want of a URL only when all of them are used, and never on a validated target whose check did not wrap around |
| PartUploads.Uploader.Spawn | partupload/uploader.go:258-290 | A started upload owns its buffer |
| PartUploads.Uploader.TakeBuffer | partupload/uploader.go:351-358 | The new buffer is empty and not being sent |
| PartUploads.Uploader.ReturnBuffer | partupload/uploader.go:270-285 | Returning a buffer never blocks |
| PartUploads.Uploader.FinishStream | partupload/uploader.go:167-185 | The last part is submitted, and an archive too short or without signature is refused, each for its own reason |
| PartUploads.Uploader.SubmitLast | partupload/uploader.go:170-185 | What is left is submitted unless nothing or less than a signature was written |
| PartUploads.Uploader.Parts | partupload/uploader.go:203-213 | The parts are numbered from 1 with their etags |
| PartUploads.CountOfParts | partupload/uploader.go:39-63 | Cutting a stream gives ceil(total / part size) parts |
| PartUploads.MakingBuffer | partupload/uploader.go:351-358 | At most one buffer more than the concurrency is ever made |
| PartUploads.ReturningBuffer | partupload/uploader.go:270-285 | There is always room for a buffer that comes back |
| PartUploads.EnoughUrls | partupload/uploader.go:39-47 | A validated target whose check did not wrap around has a URL for every part that still fits under its maximum |
| PartUploads.AcceptedHasUrlsExactlyWhen | partupload/uploader.go:39-47 | A validated target has ceil(maximum / part size) URLs exactly when the sum in its check is a machine word |
| PartUploads.WrappingIsAccepted | partupload/uploader.go:39-47 | A target of one URL for 2^63 - 1 bytes that is accepted, and whose second part has no URL |
| PartUploads.WrappingFails | partupload/uploader.go:244-256 | On that target an archive of one part and one byte always fails |
| PartUploads.AllAnswered | partupload/uploader.go:186-190 | With no upload left and no failure every part has its etag and is stored as submitted |
| BoundedOutputs.BoundedOutput.Write | restic/runner.go:458-496 | However the stream is cut, in tail mode what is held is its beginning and its end |
| BoundedOutputs.BoundedOutput.String | restic/runner.go:498-500 | The text is what is held, beginning before end |
| BoundedOutputs.TailModeConserves | restic/runner.go:462-481 | In tail mode retained and dropped bytes add up to the stream, within the limit |
| BoundedOutputs.UntailedConservesExactlyWhen | restic/runner.go:483-495 | Without a tail they add up exactly when no later write would still have fitted |
| BoundedOutputs.UntailedDependsOnWrites | restic/runner.go:483-495 | Two cuttings of one stream that leave different bytes |
| BoundedOutputs.UntailedIgnoresCuttingExactlyWhen | restic/runner.go:483-495 | All cuttings of a stream keep the same bytes exactly when the limit is not positive or the whole stream fits |
| ProgressOutputs.ProgressOutput.Write | restic/progress.go:33-66 | However the stream is cut, what is reported is exactly its finished lines of at most 64 KiB, in order |
| ProgressOutputs.LinesPartition | restic/progress.go:33-66 | Lines and the unfinished rest are the stream cut at its newlines |
| ProgressOutputs.ShortKeeps | restic/progress.go:42-45 | Reported are the short lines as often as they occur, and no others |

## Left out

- The HTTP client, protocol versions, the pusher, enrollment, the command line, init systems and package-manager commands: plumbing over libraries.
- Restic, bolt, compress/flate, JSON and cron themselves; cron is the choice of occurrences that are due.
- Decoding and validation of configurations, job snapshots and repositories, and the fields of events beyond their order and kind.
- Order inside sorted id lists: the sets and the absence of duplicates are modelled, sorting is not.
- Which minutes a schedule is due in, and which occurrences overlap or are queued already: any choice is allowed.
- Event queues and logs inside the daemon's state machine; the reporter has its own model of one command.
- The order in which the daemon cancels runs when the disk is full; a cancelled run ends like any other.
- File ownership, fsync, reserve files, log rotation, activity counters and run logs beyond their upload.
- Retired generations, and commands of a generation that is no longer current.
- Liveness: that a stuck update, a state file of an earlier request or a failing save is ever resolved.
- What an inspection finds; its launch and its end are modelled.
- Daemons.Daemon.FinishWithoutExecution: is not called for an update, because an update has no job and every caller goes by the job or the kind.
- Daemons.Daemon.Restart: takes the waiting update from the journal alone, because at most one is unfinished there and the saved runtime state only chooses among several.
- Daemons.Daemon.Receive: does not compare the contents of a redelivered command, which only decides whether an error is reported.
- Daemons.Daemon.StartOperation: is not told what a run that is chosen in one section and started in another was chosen for, because only its state at the start matters.
- Daemons.Daemon.ForgetReported: whether everything was reported is an argument, because the queues are in the reporter's model.
- RetentionEngine.ExecuteForget: does not promise write-ahead across attempts, because a plan stays in mind after its save failed.
- MaintenanceRuns.UnresolvedReplica: starts from the results of the repositories, because which of them Restic leaves unresolved is not decided by the program.
- Reporters.CommandReport.FlushCommand: does not model the checksum of the log, because it is compared and never computed from.
- ParallelDeflaters.ParallelDeflater.Write: is not called after Close, where the channels are closed.
- PartUploads.Uploader.Close: does not model the checksum of the archive.
- Updaters.Host.Run: takes the fixed readiness deadline as a number of polls, and has one helper at a time, as the lock file ensures.

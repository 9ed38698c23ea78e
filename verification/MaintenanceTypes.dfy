/** agent/types.go, config.go and maintenance.go: the records that maintenance runs work with. */
module MaintenanceTypes {
  import opened Options

  /** Snapshot, run, job and repository ids are only ever compared. */
  type Id = nat

  datatype RunKind = Backup | Forget | Prune | SnapshotInventory | CheckMetadata | CheckData

  /** The latest backup that is known to be complete. */
  datatype Proof = Proof(run: Id, finishedAt: nat, snapshots: seq<Id>)

  datatype Retention = Retention(
    policyEmpty: bool, latest: Option<Proof>, hasUnresolved: bool, protectedSnapshots: seq<Id>, protectedRuns: seq<Id>)

  datatype Job = Job(
    id: Id, repository: Id, replicas: seq<Id>, enabled: bool, database: bool,
    afterBackup: bool, pruneInterval: nat, dataParts: nat, retention: Retention)

  datatype Plan = Plan(
    kind: RunKind, candidates: seq<Id>, protected: seq<Id>, candidateRuns: seq<Id>, protectedRuns: seq<Id>,
    dataPart: nat, dataTotal: nat, combined: bool, forgetPlanned: bool, pruneAfter: bool, pruneStarted: bool, pruneCompleted: bool)

  const EMPTY_PLAN := Plan(Forget, [], [], [], [], 0, 0, false, false, false, false, false)

  datatype Status = Complete | Partial | Failed | Skipped | CancelledRun | Unresolved

  datatype Code = Success | UnresolvedRunsPresent | RecoveryPointUnavailable | RecoveryPointProtected | ExecutionFailed
                | SnapshotRemovalIncomplete | OutcomeUnresolved | RepositoryMissing | RepositoryLocked
                | AuthenticationFailed | TimedOut | Cancelled | RepositoryCorrupt | OperationsIncomplete

  /** A list of snapshots sent along as evidence: everything in the repository, or only the candidates. */
  datatype Evidence = Evidence(wholeRepository: bool, ids: set<Id>)

  datatype PruneState = NotCombined | NotDue | Pending | PruneFailed | PruneTimedOut | PruneCancelled | PruneUnresolved | PruneDone

  /** The counts are `uint64` conversions of these numbers in the source, so none may be negative. */
  datatype Statistics = Statistics(considered: int, removed: int, retained: int, protected: int)

  datatype Result = Result(
    run: Id, kind: RunKind, status: Status, code: Code, snapshots: seq<Id>, finishedAt: nat,
    evidence: Option<Evidence>, statistics: Option<Statistics>, pruneState: PruneState, pruneCompleted: bool)
}

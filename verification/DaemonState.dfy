/**
 * agent/commands.go, replication.go, replica_sync.go and scheduler.go: the records the daemon works
 * with, and who holds which repository. One job's shape never changes, and the ids of its replicas
 * belong to its primary.
 */
module DaemonStates {
  import Cardinality
  import opened MaintenanceTypes
  import opened Options

  datatype CommandKind = BackupCommand | MaintenanceCommand | SyncCommand | InspectCommand | UpdateCommand | CancelCommand

  datatype CommandState = Received | Running | Finished

  /** A job, a kind of run and a minute: what is to be started at most once. */
  datatype Occurrence = Occurrence(job: Id, kind: RunKind, minute: nat)

  /** What the database knows about an occurrence: the run it went to, or that it was passed over. */
  datatype Claim = RunClaim(run: Id) | Gap

  datatype Outcome = Outcome(job: Id, snapshots: set<Id>)

  datatype Command = Command(
    kind: CommandKind, run: Id, job: Id, key: Id, occurrence: Option<Occurrence>,
    state: CommandState, acknowledged: bool,
    waiting: bool, deferral: Option<nat>, catchUp: bool, // maintenance that waits for a backup, until when; a backup that waits for maintenance
    result: Option<Outcome>, pending: set<Id>)

  /** The repositories of a job; replicas are found by key, and some may still be in setup. */
  datatype JobShape = JobShape(primary: Id, replicas: map<Id, Id>, setups: map<Id, Id>)

  /** A goroutine that executes a backup or a maintenance run. */
  datatype RunThread = RunThread(command: Id, job: Id, backup: bool)

  /** A goroutine that copies a job's snapshots: for a command, or for what is pending. */
  datatype Stream =
    | Sync(command: Id, target: Id)
    | Choosing
    | Chosen(key: Id, target: Id, batch: set<Id>)
    | Copying(key: Id, target: Id, batch: set<Id>)
    | Copied(key: Id, batch: set<Id>, ok: bool)
    | Verified(key: Id, batch: set<Id>, inventory: set<Id>, complete: bool)
    | Leaving

  datatype Holder = RunHolder(run: Id) | StreamHolder(job: Id)

  type Shapes = Id -> JobShape

  function Replicas(shapes: Shapes, job: Id): set<Id> {
    shapes(job).replicas.Values + shapes(job).setups.Values
  }

  /** A replica belongs to one primary and is not itself a primary. */
  ghost predicate Fixed(shapes: Shapes, owner: Id -> Id) {
    && (forall job: Id, replica | replica in Replicas(shapes, job) :: owner(replica) == shapes(job).primary)
    && (forall job: Id, other: Id :: shapes(other).primary !in Replicas(shapes, job))
  }

  function HeldByRun(shapes: Shapes, thread: RunThread): set<Id> {
    {shapes(thread.job).primary} + if thread.backup then {} else shapes(thread.job).replicas.Values
  }

  function HeldByStream(shapes: Shapes, job: Id, stream: Stream): set<Id> {
    match stream
    case Sync(_, target) => {shapes(job).primary, target}
    case Copying(_, target, _) => {shapes(job).primary, target}
    case _ => {}
  }

  predicate TargetOk(shapes: Shapes, job: Id, stream: Stream) {
    match stream
    case Sync(_, target) => target in Replicas(shapes, job)
    case Chosen(key, target, _) => key in shapes(job).replicas && shapes(job).replicas[key] == target
    case Copying(key, target, _) => key in shapes(job).replicas && shapes(job).replicas[key] == target
    case _ => true
  }

  function Held(shapes: Shapes, runs: map<Id, RunThread>, streams: map<Id, Stream>, holder: Holder): set<Id> {
    match holder
    case RunHolder(run) => if run in runs then HeldByRun(shapes, runs[run]) else {}
    case StreamHolder(job) => if job in streams then HeldByStream(shapes, job, streams[job]) else {}
  }

  /** The busy set is exactly what the goroutines hold, and nobody holds what another does. */
  ghost predicate Exclusive(shapes: Shapes, repositories: set<Id>, holders: map<Id, Holder>, runs: map<Id, RunThread>, streams: map<Id, Stream>) {
    && repositories == holders.Keys
    && (forall repository | repository in holders :: repository in Held(shapes, runs, streams, holders[repository]))
    && (forall holder: Holder, repository | repository in Held(shapes, runs, streams, holder) ::
          repository in holders && holders[repository] == holder)
    && (forall job | job in streams :: TargetOk(shapes, job, streams[job]))
  }

  /** At most one holder for every repository. */
  lemma OneHolder(shapes: Shapes, repositories: set<Id>, holders: map<Id, Holder>, runs: map<Id, RunThread>, streams: map<Id, Stream>, a: Holder, b: Holder)
    requires Exclusive(shapes, repositories, holders, runs, streams) && a != b
    ensures Held(shapes, runs, streams, a) * Held(shapes, runs, streams, b) == {}
    ensures Held(shapes, runs, streams, a) <= repositories
  {
    hide Held, TargetOk;
    forall repository | repository in Held(shapes, runs, streams, a) ensures repository !in Held(shapes, runs, streams, b) {
      assert holders[repository] == a;
    }
  }

  /** Whoever holds a replica holds its primary. */
  lemma HoldsPrimaryToo(shapes: Shapes, owner: Id -> Id, repositories: set<Id>, holders: map<Id, Holder>, runs: map<Id, RunThread>, streams: map<Id, Stream>, job: Id, replica: Id)
    requires Fixed(shapes, owner) && Exclusive(shapes, repositories, holders, runs, streams)
    requires replica in Replicas(shapes, job) && replica in repositories
    ensures shapes(job).primary in Held(shapes, runs, streams, holders[replica])
  {
    assert owner(replica) == shapes(job).primary;
    match holders[replica]
    case RunHolder(run) =>
      assert replica in HeldByRun(shapes, runs[run]);
      var mine := runs[run].job;
      assert replica != shapes(mine).primary;
      assert replica in Replicas(shapes, mine);
    case StreamHolder(mine) =>
      assert TargetOk(shapes, mine, streams[mine]);
      assert replica != shapes(mine).primary;
      assert replica in Replicas(shapes, mine);
  }

  function Give(holders: map<Id, Holder>, repositories: set<Id>, holder: Holder): map<Id, Holder> {
    map repository | repository in holders.Keys + repositories :: if repository in repositories then holder else holders[repository]
  }

  lemma GiveKeys(holders: map<Id, Holder>, repositories: set<Id>, holder: Holder)
    ensures Give(holders, repositories, holder).Keys == holders.Keys + repositories
  {
  }

  lemma TakeByRun(shapes: Shapes, repositories: set<Id>, holders: map<Id, Holder>, runs: map<Id, RunThread>, streams: map<Id, Stream>, run: Id, thread: RunThread)
    requires Exclusive(shapes, repositories, holders, runs, streams) && run !in runs
    requires HeldByRun(shapes, thread) * repositories == {}
    ensures Exclusive(shapes, repositories + HeldByRun(shapes, thread), Give(holders, HeldByRun(shapes, thread), RunHolder(run)), runs[run := thread], streams)
  {
    var after := runs[run := thread];
    assert Held(shapes, after, streams, RunHolder(run)) == HeldByRun(shapes, thread);
    assert Held(shapes, runs, streams, RunHolder(run)) == {};
    forall other: Holder | other != RunHolder(run) ensures Held(shapes, after, streams, other) == Held(shapes, runs, streams, other) {
    }
    TakeHolder(shapes, repositories, holders, runs, streams, RunHolder(run), after, streams, HeldByRun(shapes, thread));
  }

  /** A holder that held nothing takes what nobody holds. */
  lemma TakeHolder(shapes: Shapes, repositories: set<Id>, holders: map<Id, Holder>, runs: map<Id, RunThread>, streams: map<Id, Stream>,
                   taker: Holder, runsAfter: map<Id, RunThread>, streamsAfter: map<Id, Stream>, taken: set<Id>)
    requires Exclusive(shapes, repositories, holders, runs, streams) && taken * repositories == {}
    requires Held(shapes, runs, streams, taker) == {} && Held(shapes, runsAfter, streamsAfter, taker) == taken
    requires forall other: Holder | other != taker :: Held(shapes, runsAfter, streamsAfter, other) == Held(shapes, runs, streams, other)
    requires forall job | job in streamsAfter :: TargetOk(shapes, job, streamsAfter[job])
    ensures Exclusive(shapes, repositories + taken, Give(holders, taken, taker), runsAfter, streamsAfter)
  {
    hide Held, TargetOk;
    var given := Give(holders, taken, taker);
    GiveKeys(holders, taken, taker);
    forall holder: Holder, repository | repository in Held(shapes, runsAfter, streamsAfter, holder)
      ensures repository in given && given[repository] == holder
    {
      if holder != taker {
        assert repository in Held(shapes, runs, streams, holder);
        assert repository in repositories;
      }
    }
    forall repository | repository in given ensures repository in Held(shapes, runsAfter, streamsAfter, given[repository]) {
      if repository !in taken {
        assert repository in Held(shapes, runs, streams, holders[repository]);
        assert holders[repository] != taker;
      }
    }
  }

  /** A finishing run frees everything of its job: what it held, and replicas that then nobody can hold. */
  lemma FreeByRun(shapes: Shapes, owner: Id -> Id, repositories: set<Id>, holders: map<Id, Holder>, runs: map<Id, RunThread>, streams: map<Id, Stream>, run: Id)
    requires Fixed(shapes, owner) && Exclusive(shapes, repositories, holders, runs, streams) && run in runs
    ensures var freed := {shapes(runs[run].job).primary} + shapes(runs[run].job).replicas.Values;
            repositories - freed == repositories - HeldByRun(shapes, runs[run]) &&
            Exclusive(shapes, repositories - freed, holders - freed, runs - {run}, streams)
  {
    var job, freed, after := runs[run].job, {shapes(runs[run].job).primary} + shapes(runs[run].job).replicas.Values, runs - {run};
    OnlyOwn(shapes, owner, repositories, holders, runs, streams, run, freed);
    forall other: Holder | other != RunHolder(run) ensures Held(shapes, after, streams, other) == Held(shapes, runs, streams, other) {
    }
    assert Held(shapes, after, streams, RunHolder(run)) == {};
    hide Exclusive, HeldByRun;
    FreeHolder(shapes, repositories, holders, runs, streams, RunHolder(run), after, streams, freed);
  }

  lemma OnlyOwn(shapes: Shapes, owner: Id -> Id, repositories: set<Id>, holders: map<Id, Holder>, runs: map<Id, RunThread>, streams: map<Id, Stream>, run: Id, freed: set<Id>)
    requires Fixed(shapes, owner) && Exclusive(shapes, repositories, holders, runs, streams) && run in runs
    requires freed == {shapes(runs[run].job).primary} + shapes(runs[run].job).replicas.Values
    ensures repositories * freed == HeldByRun(shapes, runs[run]) == Held(shapes, runs, streams, RunHolder(run))
  {
    var job := runs[run].job;
    var primary := shapes(job).primary;
    assert primary in Held(shapes, runs, streams, RunHolder(run));
    forall repository | repository in repositories * freed ensures repository in Held(shapes, runs, streams, RunHolder(run)) {
      if repository != primary {
        HoldsPrimaryToo(shapes, owner, repositories, holders, runs, streams, job, repository);
        SameHolder(shapes, repositories, holders, runs, streams, primary, RunHolder(run), holders[repository]);
        assert repository in Held(shapes, runs, streams, holders[repository]);
      }
    }
    forall repository | repository in HeldByRun(shapes, runs[run]) ensures repository in repositories * freed {
      assert repository in Held(shapes, runs, streams, RunHolder(run));
    }
  }

  lemma SameHolder(shapes: Shapes, repositories: set<Id>, holders: map<Id, Holder>, runs: map<Id, RunThread>, streams: map<Id, Stream>, repository: Id, a: Holder, b: Holder)
    requires Exclusive(shapes, repositories, holders, runs, streams)
    requires repository in Held(shapes, runs, streams, a) && repository in Held(shapes, runs, streams, b)
    ensures a == b
  {
    assert holders[repository] == a;
  }

  /** Removing a holder and just what it held keeps all others. */
  lemma FreeHolder(shapes: Shapes, repositories: set<Id>, holders: map<Id, Holder>, runs: map<Id, RunThread>, streams: map<Id, Stream>,
                   gone: Holder, runsAfter: map<Id, RunThread>, streamsAfter: map<Id, Stream>, freed: set<Id>)
    requires Exclusive(shapes, repositories, holders, runs, streams)
    requires Held(shapes, runsAfter, streamsAfter, gone) == {}
    requires forall other: Holder | other != gone :: Held(shapes, runsAfter, streamsAfter, other) == Held(shapes, runs, streams, other)
    requires repositories * freed == Held(shapes, runs, streams, gone)
    requires forall job | job in streamsAfter :: TargetOk(shapes, job, streamsAfter[job])
    ensures Exclusive(shapes, repositories - freed, holders - freed, runsAfter, streamsAfter)
  {
    hide Held, TargetOk;
    var left := holders - freed;
    forall repository | repository in left ensures repository in Held(shapes, runsAfter, streamsAfter, left[repository]) {
      assert repository in Held(shapes, runs, streams, holders[repository]);
      assert repository !in repositories * freed;
    }
    forall holder: Holder, repository | repository in Held(shapes, runsAfter, streamsAfter, holder)
      ensures repository in left && left[repository] == holder
    {
      assert holder != gone && repository in Held(shapes, runs, streams, holder);
      assert repository !in Held(shapes, runs, streams, gone);
    }
  }

  lemma TakeByStream(shapes: Shapes, repositories: set<Id>, holders: map<Id, Holder>, runs: map<Id, RunThread>, streams: map<Id, Stream>, job: Id, stream: Stream)
    requires Exclusive(shapes, repositories, holders, runs, streams)
    requires job in streams ==> HeldByStream(shapes, job, streams[job]) == {}
    requires HeldByStream(shapes, job, stream) * repositories == {} && TargetOk(shapes, job, stream)
    ensures Exclusive(shapes, repositories + HeldByStream(shapes, job, stream), Give(holders, HeldByStream(shapes, job, stream), StreamHolder(job)), runs, streams[job := stream])
  {
    var after := streams[job := stream];
    assert Held(shapes, runs, after, StreamHolder(job)) == HeldByStream(shapes, job, stream);
    assert Held(shapes, runs, streams, StreamHolder(job)) == {};
    forall other: Holder | other != StreamHolder(job) ensures Held(shapes, runs, after, other) == Held(shapes, runs, streams, other) {
    }
    TakeHolder(shapes, repositories, holders, runs, streams, StreamHolder(job), runs, after, HeldByStream(shapes, job, stream));
  }

  lemma FreeByStream(shapes: Shapes, repositories: set<Id>, holders: map<Id, Holder>, runs: map<Id, RunThread>, streams: map<Id, Stream>, job: Id, after: map<Id, Stream>)
    requires Exclusive(shapes, repositories, holders, runs, streams) && job in streams
    requires after == streams - {job} || exists stream :: after == streams[job := stream] && HeldByStream(shapes, job, stream) == {} && TargetOk(shapes, job, stream)
    ensures var freed := HeldByStream(shapes, job, streams[job]);
            Exclusive(shapes, repositories - freed, holders - freed, runs, after)
  {
    var freed := HeldByStream(shapes, job, streams[job]);
    assert freed == Held(shapes, runs, streams, StreamHolder(job));
    FreeHolder(shapes, repositories, holders, runs, streams, StreamHolder(job), runs, after, freed);
  }

  /** A step of a stream that neither takes nor frees anything. */
  lemma MoveStream(shapes: Shapes, repositories: set<Id>, holders: map<Id, Holder>, runs: map<Id, RunThread>, streams: map<Id, Stream>, job: Id, stream: Stream)
    requires Exclusive(shapes, repositories, holders, runs, streams)
    requires job in streams ==> HeldByStream(shapes, job, streams[job]) == {}
    requires HeldByStream(shapes, job, stream) == {} && TargetOk(shapes, job, stream)
    ensures Exclusive(shapes, repositories, holders, runs, streams[job := stream])
  {
    var after := streams[job := stream];
    forall holder: Holder ensures Held(shapes, runs, after, holder) == Held(shapes, runs, streams, holder) {
    }
  }

  function BackupRuns(kinds: map<Id, bool>): set<Id> {
    set run | run in kinds && kinds[run]
  }

  function MaintenanceRuns(kinds: map<Id, bool>): set<Id> {
    set run | run in kinds && !kinds[run]
  }

  /** The table of active runs is right, and within capacity. */
  ghost predicate WithinCapacity(kinds: map<Id, bool>, runs: map<Id, RunThread>) {
    && kinds.Keys == runs.Keys
    && (forall run | run in runs :: kinds[run] == runs[run].backup)
    && |BackupRuns(kinds)| <= 2 && |MaintenanceRuns(kinds)| <= 1
  }

  lemma StartWithinCapacity(kinds: map<Id, bool>, runs: map<Id, RunThread>, run: Id, thread: RunThread)
    requires WithinCapacity(kinds, runs) && run !in runs
    requires if thread.backup then |BackupRuns(kinds)| < 2 else |MaintenanceRuns(kinds)| < 1
    ensures WithinCapacity(kinds[run := thread.backup], runs[run := thread])
  {
    OneMoreRun(kinds, run, thread.backup);
    hide BackupRuns, MaintenanceRuns;
  }

  lemma FinishWithinCapacity(kinds: map<Id, bool>, runs: map<Id, RunThread>, run: Id)
    requires WithinCapacity(kinds, runs) && run in runs
    ensures WithinCapacity(kinds - {run}, runs - {run})
  {
    FewerRuns(kinds, run);
    hide BackupRuns, MaintenanceRuns;
    Cardinality.SubsetSize(BackupRuns(kinds - {run}), BackupRuns(kinds));
    Cardinality.SubsetSize(MaintenanceRuns(kinds - {run}), MaintenanceRuns(kinds));
  }

  lemma FewerRuns(kinds: map<Id, bool>, run: Id)
    ensures BackupRuns(kinds - {run}) <= BackupRuns(kinds) && MaintenanceRuns(kinds - {run}) <= MaintenanceRuns(kinds)
  {
  }

  /** The loop over the table of active runs. */
  method ActiveCounts(kinds: map<Id, bool>) returns (backups: nat, maintenance: nat)
    ensures backups == |BackupRuns(kinds)| && maintenance == |MaintenanceRuns(kinds)|
  {
    backups, maintenance := 0, 0;
    var rest := kinds.Keys;
    ghost var seen: map<Id, bool> := map[];
    while rest != {}
      invariant rest <= kinds.Keys && seen.Keys == kinds.Keys - rest
      invariant forall run | run in seen :: seen[run] == kinds[run]
      invariant backups == |BackupRuns(seen)| && maintenance == |MaintenanceRuns(seen)|
      decreases rest
    {
      var run :| run in rest;
      OneMoreRun(seen, run, kinds[run]);
      if kinds[run] {
        backups := backups + 1;
      } else {
        maintenance := maintenance + 1;
      }
      seen := seen[run := kinds[run]];
      rest := rest - {run};
    }
    assert seen == kinds;
  }

  lemma OneMoreRun(kinds: map<Id, bool>, run: Id, backup: bool)
    requires run !in kinds
    ensures |BackupRuns(kinds[run := backup])| == |BackupRuns(kinds)| + if backup then 1 else 0
    ensures |MaintenanceRuns(kinds[run := backup])| == |MaintenanceRuns(kinds)| + if backup then 0 else 1
  {
    hide BackupRuns, MaintenanceRuns;
    var after := kinds[run := backup];
    RunSets(kinds, run, backup);
    if backup {
      assert BackupRuns(after) == BackupRuns(kinds) + {run};
    } else {
      assert MaintenanceRuns(after) == MaintenanceRuns(kinds) + {run};
    }
  }

  lemma RunSets(kinds: map<Id, bool>, run: Id, backup: bool)
    requires run !in kinds
    ensures run !in BackupRuns(kinds) && run !in MaintenanceRuns(kinds)
    ensures BackupRuns(kinds[run := backup]) == BackupRuns(kinds) + if backup then {run} else {}
    ensures MaintenanceRuns(kinds[run := backup]) == MaintenanceRuns(kinds) + if backup then {} else {run}
  {
  }
}

/**
 * agent/maintenance.go `executeMaintenance` and agent/maintenance_repositories.go: one attempt, the
 * attempts on one repository, and the whole run over the primary and its replicas.
 */
module MaintenanceRuns {
  import opened Cardinality
  import opened MaintenanceStates
  import opened MaintenanceTypes
  import opened Options
  import opened PlanReplays
  import opened ResticRepositories
  import opened RetentionEngine
  import opened SnapshotSets

  /** Retention and prune are held back while some run's outcome is unknown. */
  predicate HeldBack(kind: RunKind, job: Job) {
    (kind.Forget? || kind.Prune?) && job.retention.hasUnresolved
  }

  predicate ProofAvailable(job: Job) {
    job.retention.latest.Some? && |job.retention.latest.value.snapshots| > 0
  }

  function StartResult(run: Id, kind: RunKind): Result {
    Result(run, kind, Failed, ExecutionFailed, [], 0, None, None, NotCombined, false)
  }

  function ProofOf(job: Job): Proof
    requires job.retention.latest.Some?
  {
    job.retention.latest.value
  }

  /** The saved plan belongs to another kind of run. */
  predicate Mismatched(kind: RunKind, plan: Option<Plan>) {
    plan.Some? && plan.value.kind != kind
  }

  /** How a check is reported: errors found, or an exit that has no other explanation, mean a corrupt repository. */
  function CheckResult(base: Result, response: Response): Result {
    if response.errors > 0 || (response.exit !in {0, 10, 11, 12} && !response.cancelled) then base.(status := Failed, code := RepositoryCorrupt)
    else MaintenanceResult(base, response)
  }

  function InventoryResult(base: Result, response: Response): Result {
    if response.listing.None? then MaintenanceResult(base, response)
    else base.(evidence := Some(Evidence(true, Ids(response.listing.value))), status := Complete, code := Success)
  }

  /** One operation was run, and the result is its report. */
  ghost predicate Reports(before: seq<Action>, after: seq<Action>, kind: RunKind, base: Result, plan: Option<Plan>, result: Result) {
    exists response: Response ::
      match kind
      case Prune => Extends(before, after, PruneRepository, response) && result == MaintenanceResult(base, response)
      case SnapshotInventory =>
        Extends(before, after, Snapshots, response) && result == InventoryResult(base, response) && (response.listing.Some? ==> response.exit == 0)
      case CheckMetadata => Extends(before, after, CheckRepository, response) && result == CheckResult(base, response)
      case CheckData => plan.Some? && Extends(before, after, CheckDataPart(plan.value.dataPart, plan.value.dataTotal), response) && result == CheckResult(base, response)
      case _ => false
  }

  /** What an attempt reports. */
  ghost predicate AttemptReported(before: seq<Action>, after: seq<Action>, records: seq<Record>, left: seq<Record>, kind: RunKind, job: Job, base: Result, plan: Option<Plan>,
                                  targets: seq<Id>, targetRuns: seq<Id>, chosen: set<Id>, failure: Option<Response>, result: Result)
  {
    if Mismatched(kind, plan) then result == base && after == before
    else if HeldBack(kind, job) then result == base.(status := Skipped, code := UnresolvedRunsPresent) && after == before
    else if kind.Forget? then
      if !ProofAvailable(job) then result == base.(status := Skipped, code := RecoveryPointUnavailable) && after == before
      else
        var protected := Protected(records, job.retention, ProofOf(job));
        if chosen == {} && result.statistics.None?
        then EarlyEnd(result, base, after, |before|, records, job, protected, targets, targetRuns, Planned(plan))
        else
          && Reported(result, base, chosen, Ids(left), |protected|, plan.Some? && plan.value.combined, failure)
          && (result.statistics.Some? && chosen * Ids(left) == {} ==>
                PruneTold(result, plan.Some? && plan.value.combined, plan.Some? && plan.value.pruneAfter))
    else if kind.Backup? || (kind.CheckData? && plan.None?) then result == base && after == before
    else Reports(before, after, kind, base, plan, result)
  }

  /** What the attempt on a retention run did to a repository, in the terms of `ExecuteForget`. */
  ghost predicate ForgetAttempt(before: seq<Record>, after: seq<Record>, given: Option<Plan>, current: Option<Plan>,
                                job: Job, targets: seq<Id>, targetRuns: seq<Id>, chosen: set<Id>, primary: bool)
    requires job.retention.latest.Some?
  {
    var protected := Protected(before, job.retention, ProofOf(job));
    && Part(after, before) && (chosen == {} ==> after == before)
    && Ids(before) - chosen <= Ids(after)
    && (chosen != {} ==> protected <= Ids(before))
    && (chosen != {} && Planned(given) ==> chosen == Replayed(before, given.value))
    && (chosen != {} && !Planned(given) ==> Chosen(chosen, before, job, protected, targets, targetRuns))
    && (!Planned(given) ==> current == given || PlannedFor(current, before, job, ProofOf(job), targets, targetRuns))
    && (!Planned(given) && chosen != {} && primary ==> PlannedFor(current, before, job, ProofOf(job), targets, targetRuns))
    && (Planned(given) ==> Keeps(given, current, given.value))
  }

  /** Nothing is left of what the plan gives up. */
  ghost predicate CarriedOut(plan: Option<Plan>, records: seq<Record>) {
    plan.Some? && (Elements(plan.value.candidates) * Ids(records) == {} || Replayed(records, plan.value) * Ids(records) == {})
  }

  /** What stands behind a complete retention run: it was carried out, and counted, or some answer with exit 0 was unreadable. */
  ghost predicate Finished(result: Result, base: Result, current: Option<Plan>, records: seq<Record>, trace: seq<Action>, from: nat) {
    && (result.statistics.Some? ==> CarriedOut(current, records))
    && (result.statistics.None? <==> Unreadable(trace, from, base, result))
  }

  lemma CompleteIsFinished(result: Result, base: Result, before: seq<Record>, after: seq<Record>, trace: seq<Action>, from: nat,
                           given: Option<Plan>, current: Option<Plan>, job: Job, targets: seq<Id>, targetRuns: seq<Id>,
                           chosen: set<Id>, failure: Option<Response>, primary: bool)
    requires job.retention.latest.Some? && base.statistics.None? && base.status.Failed? && (failure.Some? ==> failure.value.exit != 0)
    requires Part(after, before)
    requires Planned(given) ==> Keeps(given, current, given.value)
    requires (chosen != {} || result.statistics.Some?) && Planned(given) ==> chosen == Replayed(before, given.value)
    requires !Planned(given) && (chosen != {} || result.statistics.Some?) && primary ==>
               current.Some? && PlanFor(current.value, before, Protected(before, job.retention, ProofOf(job)), chosen)
    requires chosen != {} || result.statistics.Some? ==>
               Reported(result, base, chosen, Ids(after), |Protected(before, job.retention, ProofOf(job))|, given.Some? && given.value.combined, failure)
    requires chosen == {} && result.statistics.None? ==>
               EarlyEnd(result, base, trace, from, before, job, Protected(before, job.retention, ProofOf(job)), targets, targetRuns, Planned(given))
    ensures result.status.Complete? && primary ==> Finished(result, base, current, after, trace, from)
  {
    hide Protected, Elements, Ids, OfRuns, Part, RunsOf, Settled, Refused, Unsaved;
    if result.status.Complete? && primary && result.statistics.Some? {
      assert chosen * Ids(after) == {};
      if Planned(given) && given.value.candidateRuns != [] {
        PartOfRuns(after, before, Elements(given.value.candidateRuns));
        assert Replayed(after, current.value) * Ids(after) == {};
      }
    }
  }

  /** One attempt. */
  method ExecuteMaintenance(repo: Repository, run: Id, kind: RunKind, job: Job, targets: seq<Id>, targetRuns: seq<Id>)
    returns (result: Result, ghost chosen: set<Id>, ghost failure: Option<Response>)
    requires repo.Valid() && (repo.current.Some? ==> Distinct(repo.current.value.candidates))
    modifies repo`clock, repo`records, repo`trace, repo`prepared, repo`current
    ensures repo.Valid() && old(repo.trace) <= repo.trace
    ensures !repo.primary ==> repo.current == old(repo.current)
    ensures Asked(repo.trace, |old(repo.trace)|) <= chosen
    ensures !kind.Forget? || !ProofAvailable(job) ==> chosen == {} && repo.records == old(repo.records) && repo.current == old(repo.current)
    ensures kind.Forget? && ProofAvailable(job) ==>
              ForgetAttempt(old(repo.records), repo.records, old(repo.current), repo.current, job, targets, targetRuns, chosen, repo.primary)
    ensures kind.Forget? && !Planned(old(repo.current)) ==> Orderly(repo.trace, |old(repo.trace)|)
    ensures result.pruneCompleted ==> kind.Forget? && PruneRecorded(repo.trace, |old(repo.trace)|) && result.status.Complete?
    ensures kind.Forget? && result.status.Complete? && repo.primary ==>
              Finished(result, StartResult(run, kind), repo.current, repo.records, repo.trace, |old(repo.trace)|)
    ensures AttemptReported(old(repo.trace), repo.trace, old(repo.records), repo.records, kind, job, StartResult(run, kind), old(repo.current),
                            targets, targetRuns, chosen, failure, result)
  {
    hide Elements, Ids, DistinctIds, Orderly, Asked, Extends, PruneRecorded, Protected, Chosen, Replayed, PlannedFor, Part, Reported, Distinct, EarlyEnd, Finished, Unreadable;
    chosen, failure := {}, None;
    result := StartResult(run, kind);
    repo.prepared := false;
    OrderlyStart(repo.trace);
    PartItself(repo.records);
    if repo.current.Some? && repo.current.value.kind != kind {
      return;
    }
    if kind.Forget? {
      if job.retention.hasUnresolved {
        result := result.(status := Skipped, code := UnresolvedRunsPresent);
      } else if !ProofAvailable(job) {
        result := result.(status := Skipped, code := RecoveryPointUnavailable);
      } else {
        ghost var base, given := result, repo.current;
        result, chosen, failure := ExecuteForget(repo, result, job, job.retention.latest.value, targets, targetRuns, repo.current);
        CompleteIsFinished(result, base, old(repo.records), repo.records, repo.trace, |old(repo.trace)|, given, repo.current, job, targets, targetRuns, chosen, failure, repo.primary);
      }
    } else if kind.SnapshotInventory? {
      var response := repo.Run(Snapshots);
      AfterRun(old(repo.trace), repo.trace, |old(repo.trace)|, Snapshots, response, false);
      if response.listing.None? {
        result := MaintenanceResult(result, response);
      } else {
        var inventory := Inventory(response.listing.value);
        result := result.(evidence := Some(Evidence(true, inventory)), status := Complete, code := Success);
      }
    } else if kind.Prune? {
      if job.retention.hasUnresolved {
        result := result.(status := Skipped, code := UnresolvedRunsPresent);
      } else {
        var response := repo.Run(PruneRepository);
        AfterRun(old(repo.trace), repo.trace, |old(repo.trace)|, PruneRepository, response, false);
        result := MaintenanceResult(result, response);
      }
    } else if kind.CheckMetadata? || kind.CheckData? {
      result := Check(repo, result, kind);
    }
  }

  method Check(repo: Repository, base: Result, kind: RunKind) returns (result: Result)
    requires repo.Valid() && (kind.CheckMetadata? || kind.CheckData?)
    modifies repo`clock, repo`records, repo`trace, repo`prepared
    ensures repo.Valid() && repo.records == old(repo.records) && old(repo.trace) <= repo.trace
    ensures Asked(repo.trace, |old(repo.trace)|) == {}
    ensures result.pruneCompleted == base.pruneCompleted
    ensures if kind.CheckData? && repo.current.None? then result == base && repo.trace == old(repo.trace)
            else Reports(old(repo.trace), repo.trace, kind, base, repo.current, result)
  {
    hide Elements, Ids, DistinctIds, Orderly, Asked, Extends;
    var operation := CheckRepository;
    OrderlyStart(repo.trace);
    if kind.CheckData? {
      if repo.current.None? {
        return base;
      }
      operation := CheckDataPart(repo.current.value.dataPart, repo.current.value.dataTotal);
    }
    var response := repo.Run(operation);
    AfterRun(old(repo.trace), repo.trace, |old(repo.trace)|, operation, response, false);
    var errors := response.errors;
    if response.exit !in {0, 10, 11, 12} && !response.cancelled && errors == 0 {
      errors := 1;
    }
    if errors > 0 {
      result := base.(status := Failed, code := RepositoryCorrupt);
    } else {
      result := MaintenanceResult(base, response);
    }
  }

  /** One attempt: how it found things, and what it chose and met if it was retention. */
  datatype Attempt = Attempt(trace: seq<Action>, records: seq<Record>, plan: Option<Plan>, chosen: set<Id>, failure: Option<Response>)

  /** The result is the report of that attempt, which was the last thing that happened. */
  ghost predicate ReportOf(last: Attempt, trace: seq<Action>, left: seq<Record>, run: Id, kind: RunKind, job: Job, targets: seq<Id>, targetRuns: seq<Id>, result: Result) {
    last.trace <= trace &&
    AttemptReported(last.trace, trace, last.records, left, kind, job, StartResult(run, kind), last.plan, targets, targetRuns, last.chosen, last.failure, result)
  }

  /** The last thing that happened is the operation that such a run is for, with exit 0 and, for a check, no errors found. */
  predicate EndsWell(trace: seq<Action>, from: nat, kind: RunKind) {
    from < |trace| && trace[|trace| - 1].Ran? && trace[|trace| - 1].response.exit == 0 &&
    var last := trace[|trace| - 1];
    match kind
    case CheckMetadata => last.request.operation.CheckRepository? && last.response.errors == 0
    case CheckData => last.request.operation.CheckDataPart? && last.response.errors == 0
    case Prune => last.request.operation.PruneRepository?
    case SnapshotInventory => last.request.operation.Snapshots?
    case _ => false
  }

  predicate Single(kind: RunKind) {
    kind.CheckMetadata? || kind.CheckData? || kind.Prune? || kind.SnapshotInventory?
  }

  /** Such a run is reported complete exactly when it ends well. */
  lemma CompleteEndsWell(last: Attempt, trace: seq<Action>, left: seq<Record>, run: Id, kind: RunKind, job: Job, targets: seq<Id>, targetRuns: seq<Id>, result: Result)
    requires ReportOf(last, trace, left, run, kind, job, targets, targetRuns, result)
    ensures Single(kind) ==> (result.status.Complete? <==> EndsWell(trace, |last.trace|, kind))
    ensures !kind.Forget? ==> result.run == run && result.kind == kind
  {
    if Single(kind) && Reports(last.trace, trace, kind, StartResult(run, kind), last.plan, result) {
      var response: Response :|
        match kind
        case Prune => Extends(last.trace, trace, PruneRepository, response) && result == MaintenanceResult(StartResult(run, kind), response)
        case SnapshotInventory =>
          Extends(last.trace, trace, Snapshots, response) && result == InventoryResult(StartResult(run, kind), response) && (response.listing.Some? ==> response.exit == 0)
        case CheckMetadata => Extends(last.trace, trace, CheckRepository, response) && result == CheckResult(StartResult(run, kind), response)
        case CheckData => last.plan.Some? && Extends(last.trace, trace, CheckDataPart(last.plan.value.dataPart, last.plan.value.dataTotal), response) && result == CheckResult(StartResult(run, kind), response)
        case _ => false;
      EndOf(last.trace, trace, response);
    }
    hide Protected, EarlyEnd, Reported, Ids;
  }

  /** What was run last is at the end of the trace. */
  lemma EndOf(before: seq<Action>, after: seq<Action>, response: Response)
    ensures forall operation | Extends(before, after, operation, response) ::
              |before| < |after| && after[|after| - 1].Ran? && after[|after| - 1].response == response && after[|after| - 1].request.operation == operation
  {
  }

  lemma EndsWellEarlier(trace: seq<Action>, from: nat, later: nat, kind: RunKind)
    requires from <= later
    ensures EndsWell(trace, later, kind) ==> EndsWell(trace, from, kind)
  {
  }

  /** Every one of these attempts failed in a way that is worth another attempt, and nobody cancelled the wait for that. */
  ghost predicate Retried(reports: seq<Result>, cancelled: nat -> bool) {
    forall k: nat | k < |reports| :: reports[k].status.Failed? && reports[k].code in {RepositoryLocked, TimedOut, ExecutionFailed} && !cancelled(k + 1)
  }

  lemma NoneRetried(cancelled: nat -> bool)
    ensures Retried([], cancelled)
  {
  }

  lemma RetriedMore(reports: seq<Result>, result: Result, cancelled: nat -> bool)
    requires Retried(reports, cancelled) && Retryable(result) && !cancelled(|reports| + 1)
    ensures Retried(reports + [result], cancelled)
  {
  }

  predicate Retryable(result: Result) {
    result.status.Failed? && (result.code.RepositoryLocked? || result.code.TimedOut? || result.code.ExecutionFailed?)
  }

  /** Where all attempts so far have left a run that chooses for itself. */
  ghost predicate Spared(first: seq<Record>, now: seq<Record>, current: Option<Plan>, asked: set<Id>, job: Job, targets: seq<Id>)
    requires job.retention.latest.Some?
  {
    var protected := Protected(first, job.retention, ProofOf(job));
    && Part(now, first)
    && asked * protected == {}
    && protected * Ids(first) <= Ids(now)
    && ((now == first && !Planned(current)) || PlannedFor(current, first, job, ProofOf(job), targets, []))
  }

  /** Where all attempts so far have left a run that chooses anew each time. */
  ghost predicate SparedEach(first: seq<Record>, now: seq<Record>, asked: set<Id>, job: Job)
    requires job.retention.latest.Some?
  {
    var protected := Protected(first, job.retention, ProofOf(job));
    && Part(now, first)
    && asked * protected == {}
    && (now == first || protected <= Ids(now))
  }

  /** Choosing anew spares what was protected at the start, since all of that is still there and still protected. */
  lemma ChoiceSpares(first: seq<Record>, before: seq<Record>, after: seq<Record>, given: Option<Plan>, current: Option<Plan>,
                     asked: set<Id>, job: Job, targets: seq<Id>, chosen: set<Id>, more: set<Id>)
    requires job.retention.latest.Some? && !Planned(given) && SparedEach(first, before, asked, job)
    requires ForgetAttempt(before, after, given, current, job, targets, [], chosen, false) && more <= chosen
    ensures SparedEach(first, after, asked + more, job)
  {
    hide Chosen, Protected, PlanFor, Ids, Part, Planned;
    var protected := Protected(first, job.retention, ProofOf(job));
    PartOf(after, before, first);
    if chosen != {} {
      if before != first {
        ProtectedStays(first, before, job.retention, ProofOf(job));
      }
      ChosenSpares(chosen, before, job, protected, targets);
      assert (asked + more) * protected == {};
      Survives(protected, chosen, Ids(before), Ids(after));
    } else {
      assert asked + more == asked;
    }
  }

  /** One more attempt, be it the choosing one or one that replays the plan, spares the protected snapshots too. */
  lemma AttemptSpares(first: seq<Record>, before: seq<Record>, after: seq<Record>, given: Option<Plan>, current: Option<Plan>,
                      asked: set<Id>, job: Job, targets: seq<Id>, chosen: set<Id>, more: set<Id>)
    requires job.retention.latest.Some? && Closed(first, Protected(first, job.retention, ProofOf(job)))
    requires Spared(first, before, given, asked, job, targets)
    requires ForgetAttempt(before, after, given, current, job, targets, [], chosen, true) && more <= chosen
    ensures Spared(first, after, current, asked + more, job, targets)
  {
    hide Chosen, Protected, PlanFor, Closed, Ids, Part;
    var protected := Protected(first, job.retention, ProofOf(job));
    PartOf(after, before, first);
    if PlannedFor(given, first, job, ProofOf(job), targets, []) {
      PlannedNow(given, first, job, targets);
      PlannedKept(given.value, current, first, job, ProofOf(job), targets, []);
      ReplaySpared(first, before, given.value, job, targets);
    } else if chosen != {} {
      ChosenSpares(chosen, first, job, protected, targets);
    }
    assert chosen * protected == {};
    assert (asked + more) * protected == {};
    Survives(protected * Ids(first), chosen, Ids(before), Ids(after));
  }

  lemma Survives(kept: set<Id>, chosen: set<Id>, before: set<Id>, after: set<Id>)
    requires kept <= before && before - chosen <= after && chosen * kept == {}
    ensures kept <= after
  {
    forall id | id in kept ensures id in after {
      assert id !in chosen * kept;
    }
  }

  lemma PlannedNow(current: Option<Plan>, first: seq<Record>, job: Job, targets: seq<Id>)
    requires job.retention.latest.Some?
    requires PlannedFor(current, first, job, ProofOf(job), targets, [])
    ensures Planned(current)
  {
  }

  /** A replayed plan only reaches snapshots of runs that had no protected snapshot when it was made. */
  lemma ReplaySpared(first: seq<Record>, now: seq<Record>, plan: Plan, job: Job, targets: seq<Id>)
    requires job.retention.latest.Some? && Closed(first, Protected(first, job.retention, ProofOf(job)))
    requires PlannedFor(Some(plan), first, job, ProofOf(job), targets, []) && Part(now, first)
    ensures Replayed(now, plan) * Protected(first, job.retention, ProofOf(job)) == {}
  {
    hide Closed, Protected, OfRuns, RunsOf, Part;
    var protected, chosen := Protected(first, job.retention, ProofOf(job)), Elements(plan.candidates);
    ChosenSpares(chosen, first, job, protected, targets);
    if plan.candidateRuns != [] {
      WholeRunsWhenClosed(first, protected, chosen);
      ReplaySparesExactlyWhen(first, plan, protected, chosen);
      PartOfRuns(now, first, Elements(plan.candidateRuns));
    }
  }

  /** The wide reading of a plan that is there from the start: what any attempt may forget in this repository. */
  lemma ReplayWithin(first: seq<Record>, now: seq<Record>, plan: Plan)
    requires Part(now, first)
    ensures Replayed(now, plan) <= Replayed(first, plan)
  {
    if plan.candidateRuns != [] {
      PartOfRuns(now, first, Elements(plan.candidateRuns));
    }
  }

  lemma StartSpared(records: seq<Record>, current: Option<Plan>, job: Job, targets: seq<Id>)
    requires job.retention.latest.Some? && !Planned(current)
    ensures Spared(records, records, current, {}, job, targets)
  {
    PartItself(records);
  }

  lemma SparedPlan(first: seq<Record>, now: seq<Record>, current: Option<Plan>, asked: set<Id>, job: Job, targets: seq<Id>)
    requires job.retention.latest.Some? && Spared(first, now, current, asked, job, targets)
    ensures Planned(current) ==> PlannedFor(current, first, job, ProofOf(job), targets, [])
  {
  }

  lemma KeepsReplay(given: Option<Plan>, current: Option<Plan>, records: seq<Record>)
    requires given.Some? && Keeps(given, current, given.value)
    ensures current.Some? && Replayed(records, current.value) == Replayed(records, given.value)
    ensures current.value.candidates == given.value.candidates && Planned(current) == Planned(given)
  {
  }

  /**
   * All attempts on one repository. A run that chooses for itself spares, over all its attempts, every
   * snapshot that was protected at the start, if protection covers whole runs; a run that was given a plan
   * forgets at most what the plan means in this repository.
   */
  method ExecuteRepositoryMaintenance(repo: Repository, run: Id, kind: RunKind, job: Job, targets: seq<Id>, targetRuns: seq<Id>, delays: nat, cancelled: nat -> bool)
    returns (result: Result, attempts: nat, ghost last: Attempt, ghost reports: seq<Result>)
    requires repo.Valid() && (repo.current.Some? ==> Distinct(repo.current.value.candidates))
    modifies repo`clock, repo`records, repo`trace, repo`prepared, repo`current
    ensures repo.Valid() && old(repo.trace) <= repo.trace
    ensures !repo.primary ==> repo.current == old(repo.current)
    ensures 1 <= attempts <= delays + 1
    ensures HeldBack(kind, job) ==> repo.trace == old(repo.trace) && result.status in {Skipped, Failed}
    ensures old(repo.trace) <= last.trace && ReportOf(last, repo.trace, repo.records, run, kind, job, targets, targetRuns, result)
    ensures !kind.Forget? ==> last.plan == old(repo.current)
    ensures |reports| == attempts && reports[attempts - 1] == result
    ensures Retried(reports[..attempts - 1], cancelled)
    ensures result.status.Failed? && result.code in {RepositoryLocked, TimedOut, ExecutionFailed} ==> attempts == delays + 1 || cancelled(attempts)
    ensures Single(kind) ==> (result.status.Complete? <==> EndsWell(repo.trace, |last.trace|, kind))
    ensures !kind.Forget? || !ProofAvailable(job) ==> Asked(repo.trace, |old(repo.trace)|) == {} && repo.records == old(repo.records)
    ensures kind.Forget? && ProofAvailable(job) && !Planned(old(repo.current)) && repo.primary && targetRuns == [] &&
            Closed(old(repo.records), Protected(old(repo.records), job.retention, ProofOf(job))) ==>
              Spared(old(repo.records), repo.records, repo.current, Asked(repo.trace, |old(repo.trace)|), job, targets)
    ensures kind.Forget? && ProofAvailable(job) && !Planned(old(repo.current)) && !repo.primary && targetRuns == [] ==>
              SparedEach(old(repo.records), repo.records, Asked(repo.trace, |old(repo.trace)|), job)
    ensures kind.Forget? && result.status.Complete? && repo.primary ==>
              Finished(result, StartResult(run, kind), repo.current, repo.records, repo.trace, |old(repo.trace)|)
    ensures old(repo.current).Some? && Planned(old(repo.current)) ==> Asked(repo.trace, |old(repo.trace)|) <= Replayed(old(repo.records), old(repo.current).value)
    ensures result.pruneCompleted ==> kind.Forget? && PruneRecorded(repo.trace, |old(repo.trace)|) && result.status.Complete?
  {
    hide DistinctIds, Orderly, Asked, PruneRecorded, Protected, Replayed, Spared, SparedEach, Finished, Closed, ForgetAttempt, Planned, AttemptReported, EndsWell,
         Retried, Underway, Distinct, HeldBack, ProofAvailable;
    ghost var begun, first, start := repo.trace, repo.records, repo.current;
    attempts, reports := 0, [];
    last := Attempt(repo.trace, repo.records, repo.current, {}, None);
    NoneRetried(cancelled);
    UnderwayStart(first, start, begun, kind, job, targets, targetRuns, repo.primary);
    while true
      invariant repo.Valid() && attempts <= delays && |reports| == attempts && Retried(reports, cancelled)
      invariant Underway(first, start, begun, repo.trace, repo.records, repo.current, kind, job, targets, targetRuns, repo.primary)
      modifies repo`clock, repo`records, repo`trace, repo`prepared, repo`current
      decreases delays - attempts
    {
      UnderwayPlan(first, start, begun, repo.trace, repo.records, repo.current, kind, job, targets, targetRuns, repo.primary);
      attempts := attempts + 1;
      ghost var before, was, plan := repo.trace, repo.records, repo.current;
      ghost var chosen;
      ghost var failure;
      result, chosen, failure := ExecuteMaintenance(repo, run, kind, job, targets, targetRuns);
      last := Attempt(before, was, plan, chosen, failure);
      ghost var earlier := reports;
      reports := reports + [result];
      assert reports[..attempts - 1] == earlier;
      HeldReported(before, repo.trace, was, repo.records, kind, job, StartResult(run, kind), plan, targets, targetRuns, chosen, failure, result);
      UnderwayStep(first, start, begun, before, was, plan, repo.trace, repo.records, repo.current, kind, job, targets, targetRuns, repo.primary, chosen);
      LaterPrune(repo.trace, |begun|, |before|);
      LaterFinished(result, StartResult(run, kind), repo.current, repo.records, repo.trace, |begun|, |before|);
      if !Retryable(result) || attempts > delays || cancelled(attempts) {
        CompleteEndsWell(last, repo.trace, repo.records, run, kind, job, targets, targetRuns, result);
        break;
      }
      RetriedMore(earlier, result, cancelled);
    }
    UnderwayEnd(first, start, begun, repo.trace, repo.records, repo.current, kind, job, targets, targetRuns, repo.primary);
  }

  /** A primary that chooses for itself, over whole runs. */
  predicate ChoosesOnce(first: seq<Record>, start: Option<Plan>, kind: RunKind, job: Job, targetRuns: seq<Id>, primary: bool) {
    kind.Forget? && ProofAvailable(job) && !Planned(start) && primary && targetRuns == [] && Closed(first, Protected(first, job.retention, ProofOf(job)))
  }

  /** A replica that chooses for itself does so in every attempt. */
  predicate ChoosesAnew(start: Option<Plan>, kind: RunKind, job: Job, targetRuns: seq<Id>, primary: bool) {
    kind.Forget? && ProofAvailable(job) && !Planned(start) && !primary && targetRuns == []
  }

  /** Where the attempts so far have left a repository that had these records and this plan when the trace had got to `begun`. */
  ghost predicate Underway(first: seq<Record>, start: Option<Plan>, begun: seq<Action>, trace: seq<Action>, now: seq<Record>, current: Option<Plan>,
                           kind: RunKind, job: Job, targets: seq<Id>, targetRuns: seq<Id>, primary: bool)
  {
    var asked := Asked(trace, |begun|);
    && begun <= trace && (HeldBack(kind, job) ==> trace == begun)
    && (!primary || !kind.Forget? ==> current == start) && (current.Some? ==> Distinct(current.value.candidates))
    && (!kind.Forget? || !ProofAvailable(job) ==> asked == {} && now == first && current == start)
    && Part(now, first)
    && (ChoosesOnce(first, start, kind, job, targetRuns, primary) ==> Spared(first, now, current, asked, job, targets))
    && (ChoosesAnew(start, kind, job, targetRuns, primary) ==> SparedEach(first, now, asked, job))
    && Replaying(first, start, current, asked)
  }

  lemma UnderwayStart(first: seq<Record>, start: Option<Plan>, begun: seq<Action>,
                      kind: RunKind, job: Job, targets: seq<Id>, targetRuns: seq<Id>, primary: bool)
    requires start.Some? ==> Distinct(start.value.candidates)
    ensures Underway(first, start, begun, begun, first, start, kind, job, targets, targetRuns, primary)
  {
    hide Protected, Spared, SparedEach, Closed, Asked, Planned, Part, Replaying;
    OrderlyStart(begun);
    PartItself(first);
    if ChoosesOnce(first, start, kind, job, targetRuns, primary) {
      StartSpared(first, start, job, targets);
    }
    if ChoosesAnew(start, kind, job, targetRuns, primary) {
      StartSparedEach(first, job);
    }
    StartReplaying(first, start);
  }

  lemma UnderwayPlan(first: seq<Record>, start: Option<Plan>, begun: seq<Action>, trace: seq<Action>, now: seq<Record>, current: Option<Plan>,
                     kind: RunKind, job: Job, targets: seq<Id>, targetRuns: seq<Id>, primary: bool)
    requires Underway(first, start, begun, trace, now, current, kind, job, targets, targetRuns, primary)
    ensures begun <= trace && (current.Some? ==> Distinct(current.value.candidates)) && (!kind.Forget? ==> current == start)
  {
  }

  lemma UnderwayStep(first: seq<Record>, start: Option<Plan>, begun: seq<Action>, before: seq<Action>, was: seq<Record>, plan: Option<Plan>,
                     trace: seq<Action>, now: seq<Record>, current: Option<Plan>,
                     kind: RunKind, job: Job, targets: seq<Id>, targetRuns: seq<Id>, primary: bool, chosen: set<Id>)
    requires Underway(first, start, begun, before, was, plan, kind, job, targets, targetRuns, primary)
    requires before <= trace && (HeldBack(kind, job) ==> trace == before) && (!primary ==> current == plan) && Asked(trace, |before|) <= chosen
    requires !kind.Forget? || !ProofAvailable(job) ==> chosen == {} && now == was && current == plan
    requires kind.Forget? && ProofAvailable(job) ==> ForgetAttempt(was, now, plan, current, job, targets, targetRuns, chosen, primary)
    ensures Underway(first, start, begun, trace, now, current, kind, job, targets, targetRuns, primary)
  {
    hide Protected, Spared, SparedEach, Closed, Asked, Planned, Part, Replaying, ForgetAttempt, Distinct;
    AskedSplit(before, trace, |begun|);
    if kind.Forget? && ProofAvailable(job) {
      var asked, more := Asked(before, |begun|), Asked(trace, |before|);
      AttemptFacts(first, was, now, start, plan, current, job, targets, targetRuns, chosen, primary, asked, more);
      if ChoosesOnce(first, start, kind, job, targetRuns, primary) {
        AttemptSpares(first, was, now, plan, current, asked, job, targets, chosen, more);
      }
      if ChoosesAnew(start, kind, job, targetRuns, primary) {
        ChoiceSpares(first, was, now, plan, current, asked, job, targets, chosen, more);
      }
    } else {
      assert Asked(trace, |begun|) == Asked(before, |begun|);
    }
  }

  lemma UnderwayEnd(first: seq<Record>, start: Option<Plan>, begun: seq<Action>, trace: seq<Action>, now: seq<Record>, current: Option<Plan>,
                    kind: RunKind, job: Job, targets: seq<Id>, targetRuns: seq<Id>, primary: bool)
    requires Underway(first, start, begun, trace, now, current, kind, job, targets, targetRuns, primary)
    ensures begun <= trace && (HeldBack(kind, job) ==> trace == begun) && (!primary ==> current == start)
    ensures !kind.Forget? || !ProofAvailable(job) ==> Asked(trace, |begun|) == {} && now == first
    ensures ChoosesOnce(first, start, kind, job, targetRuns, primary) ==> Spared(first, now, current, Asked(trace, |begun|), job, targets)
    ensures ChoosesAnew(start, kind, job, targetRuns, primary) ==> SparedEach(first, now, Asked(trace, |begun|), job)
    ensures start.Some? && Planned(start) ==> Asked(trace, |begun|) <= Replayed(first, start.value)
  {
    DoneReplaying(first, start, current, Asked(trace, |begun|));
    hide Protected, Spared, SparedEach, Closed, Asked, Planned, Part, Replaying, Replayed;
  }

  /** A plan that was there from the start is the plan throughout. */
  ghost predicate Replaying(first: seq<Record>, start: Option<Plan>, current: Option<Plan>, asked: set<Id>) {
    Planned(start) ==>
      && Planned(current)
      && Replayed(first, current.value) == Replayed(first, start.value)
      && asked <= Replayed(first, start.value)
  }

  lemma StartReplaying(first: seq<Record>, start: Option<Plan>)
    ensures Replaying(first, start, start, {})
  {
  }

  lemma DoneReplaying(first: seq<Record>, start: Option<Plan>, current: Option<Plan>, asked: set<Id>)
    requires Replaying(first, start, current, asked)
    ensures Planned(start) ==> asked <= Replayed(first, start.value)
  {
  }

  /** What the loop keeps, apart from what is spared. */
  lemma AttemptFacts(first: seq<Record>, before: seq<Record>, after: seq<Record>, start: Option<Plan>, given: Option<Plan>, current: Option<Plan>,
                     job: Job, targets: seq<Id>, targetRuns: seq<Id>, chosen: set<Id>, primary: bool, asked: set<Id>, more: set<Id>)
    requires Replaying(first, start, given, asked) && more <= chosen
    requires job.retention.latest.Some? && ForgetAttempt(before, after, given, current, job, targets, targetRuns, chosen, primary)
    requires Part(before, first) && (given.Some? ==> Distinct(given.value.candidates))
    ensures Part(after, first)
    ensures current.Some? ==> Distinct(current.value.candidates)
    ensures Replaying(first, start, current, asked + more)
  {
    hide Chosen, Protected, Part, Replayed, Elements;
    PartOf(after, before, first);
    if Planned(given) {
      ReplayWithin(first, before, given.value);
      KeepsReplay(given, current, first);
    }
  }

  lemma HeldReported(before: seq<Action>, after: seq<Action>, records: seq<Record>, left: seq<Record>, kind: RunKind, job: Job, base: Result, plan: Option<Plan>,
                     targets: seq<Id>, targetRuns: seq<Id>, chosen: set<Id>, failure: Option<Response>, result: Result)
    requires AttemptReported(before, after, records, left, kind, job, base, plan, targets, targetRuns, chosen, failure, result)
    requires base.status.Failed?
    ensures HeldBack(kind, job) ==> after == before && result.status in {Skipped, Failed}
  {
    hide Protected, EarlyEnd, Reported, Reports, Ids;
  }

  lemma StartSparedEach(records: seq<Record>, job: Job)
    requires job.retention.latest.Some?
    ensures SparedEach(records, records, {}, job)
  {
    PartItself(records);
  }

  lemma LaterFinished(result: Result, base: Result, current: Option<Plan>, records: seq<Record>, trace: seq<Action>, from: nat, later: nat)
    requires from <= later && base.statistics.None?
    ensures Finished(result, base, current, records, trace, later) ==> Finished(result, base, current, records, trace, from)
  {
    hide CarriedOut;
  }

  lemma LaterPrune(trace: seq<Action>, from: nat, later: nat)
    requires from <= later
    ensures PruneRecorded(trace, later) ==> PruneRecorded(trace, from)
  {
  }

  /** What is assumed of a replica: copies keep their tags, a snapshot has one run, the proof's snapshots carry its run. */
  ghost predicate Replicates(primary: seq<Record>, replica: seq<Record>, proof: Proof) {
    OneRunEach(replica) && TagsAgree(primary, replica) && ProofTagged(replica, proof)
  }

  /** The replica gets the plan without its snapshot ids, which mean nothing there. */
  function ReplicaPlan(plan: Option<Plan>): Option<Plan> {
    if plan.Some? then Some(ForReplica(plan.value)) else None
  }

  /** A replica that is given no finished plan chooses for itself. */
  predicate OwnChoice(kind: RunKind, job: Job, plan: Option<Plan>, targetRuns: seq<Id>) {
    kind.Forget? && ProofAvailable(job) && targetRuns == [] && !(plan.Some? && plan.value.forgetPlanned)
  }

  /** The job as it is run on a replica. */
  function Alone(job: Job): Job {
    job.(replicas := [])
  }

  method RunReplica(repo: Repository, run: Id, kind: RunKind, job: Job, targets: seq<Id>, targetRuns: seq<Id>, delays: nat, cancelled: nat -> bool, plan: Option<Plan>)
    returns (result: Result, ghost last: Attempt)
    requires repo.Valid() && !repo.primary
    modifies repo
    ensures repo.Valid() && old(repo.trace) <= repo.trace
    ensures HeldBack(kind, job) ==> repo.trace == old(repo.trace)
    ensures plan.Some? && plan.value.forgetPlanned ==>
              Asked(repo.trace, |old(repo.trace)|) <= Replayed(old(repo.records), ForReplica(plan.value))
    ensures OwnChoice(kind, job, plan, targetRuns) ==> SparedEach(old(repo.records), repo.records, Asked(repo.trace, |old(repo.trace)|), job)
    ensures old(repo.trace) <= last.trace && ReportOf(last, repo.trace, repo.records, run, kind, Alone(job), targets, targetRuns, result)
    ensures Single(kind) ==> (result.status.Complete? <==> EndsWell(repo.trace, |last.trace|, kind))
    ensures result.pruneCompleted ==> PruneRecorded(repo.trace, |old(repo.trace)|)
  {
    hide Asked, Replayed, PruneRecorded, Spared, DistinctIds, Protected, Part, ReportOf, EndsWell;
    repo.current := ReplicaPlan(plan);
    var attempts;
    ghost var reports;
    result, attempts, last, reports := ExecuteRepositoryMaintenance(repo, run, kind, Alone(job), targets, targetRuns, delays, cancelled);
  }

  /** The primary's own plan, replayed on a replica, spares what the replica protects. */
  lemma ReplicaSpared(primary: seq<Record>, replica: seq<Record>, current: Option<Plan>, job: Job, targets: seq<Id>, asked: set<Id>)
    requires job.retention.latest.Some? && DistinctIds(replica)
    requires Closed(primary, Protected(primary, job.retention, ProofOf(job)))
    requires PlannedFor(current, primary, job, ProofOf(job), targets, []) && Replicates(primary, replica, ProofOf(job))
    requires asked <= Replayed(replica, ForReplica(current.value))
    ensures asked * Protected(replica, job.retention, ProofOf(job)) == {}
  {
    hide Closed, Protected, Chosen, Replayed, DistinctIds, TagsAgree, ProofTagged, OneRunEach;
    var protected, chosen := Protected(primary, job.retention, ProofOf(job)), Elements(current.value.candidates);
    ChosenSpares(chosen, primary, job, protected, targets);
    WholeRunsWhenClosed(primary, protected, chosen);
    TransportSpares(primary, replica, job, ProofOf(job), current.value, targets);
  }

  /** What a finished replica shows. */
  ghost predicate ReplicaDone(before: seq<Action>, after: seq<Action>, records: seq<Record>, plan: Option<Plan>, held: bool, spares: Option<Retention>, result: Result) {
    && before <= after
    && (held ==> after == before)
    && (plan.Some? && plan.value.forgetPlanned ==> Asked(after, |before|) <= Replayed(records, ForReplica(plan.value)))
    && (spares.Some? && spares.value.latest.Some? ==> Asked(after, |before|) * Protected(records, spares.value, spares.value.latest.value) == {})
    && (result.pruneCompleted ==> PruneRecorded(after, |before|))
  }

  /** The result of a replica is the report of its own last attempt, and a single operation is complete exactly when it ended well. */
  ghost predicate ReplicaTold(before: seq<Action>, after: seq<Action>, left: seq<Record>, run: Id, kind: RunKind, job: Job, targets: seq<Id>,
                              targetRuns: seq<Id>, result: Result)
  {
    exists last: Attempt :: before <= last.trace && ReportOf(last, after, left, run, kind, Alone(job), targets, targetRuns, result) &&
                            (Single(kind) ==> (result.status.Complete? <==> EndsWell(after, |last.trace|, kind)))
  }

  lemma ReplicaTells(before: seq<Action>, after: seq<Action>, left: seq<Record>, run: Id, kind: RunKind, job: Job, targets: seq<Id>,
                     targetRuns: seq<Id>, result: Result, last: Attempt)
    requires before <= last.trace && ReportOf(last, after, left, run, kind, Alone(job), targets, targetRuns, result)
    requires Single(kind) ==> (result.status.Complete? <==> EndsWell(after, |last.trace|, kind))
    ensures ReplicaTold(before, after, left, run, kind, job, targets, targetRuns, result)
  {
    hide ReportOf, EndsWell;
  }

  /** A replica that is reported complete was run, and well. */
  lemma ToldComplete(before: seq<Action>, after: seq<Action>, left: seq<Record>, run: Id, kind: RunKind, job: Job, targets: seq<Id>,
                     targetRuns: seq<Id>, result: Result)
    requires ReplicaTold(before, after, left, run, kind, job, targets, targetRuns, result)
    ensures Single(kind) && result.status.Complete? ==> EndsWell(after, |before|, kind)
  {
    hide ReportOf;
  }

  /** What a replica that chooses for itself has to spare. */
  function Sparing(kind: RunKind, job: Job, plan: Option<Plan>, targetRuns: seq<Id>): Option<Retention> {
    if OwnChoice(kind, job, plan, targetRuns) then Some(job.retention) else None
  }

  predicate AllComplete(results: seq<Result>) {
    forall i | 0 <= i < |results| :: results[i].status.Complete?
  }

  predicate AllPruned(results: seq<Result>) {
    forall i | 0 <= i < |results| :: results[i].pruneCompleted
  }

  /** The result of the whole run: the primary's, qualified when a replica is behind. */
  function Summary(results: seq<Result>): Result
    requires results != []
  {
    var first := results[0].(pruneCompleted := AllPruned(results));
    if results[0].status.Complete? && !AllComplete(results) then first.(status := Partial, code := OperationsIncomplete) else first
  }

  /** A run that is about to choose for itself, over whole runs. */
  predicate Choosing(kind: RunKind, job: Job, current: Option<Plan>, targetRuns: seq<Id>, records: seq<Record>) {
    kind.Forget? && ProofAvailable(job) && !Planned(current) && targetRuns == [] &&
    Closed(records, Protected(records, job.retention, ProofOf(job)))
  }

  /** The primary's plan on every replica in turn. */
  method RunReplicas(replicas: seq<Repository>, run: Id, kind: RunKind, job: Job, targets: seq<Id>, targetRuns: seq<Id>, delays: nat,
                     cancelled: (nat, nat) -> bool, plan: Option<Plan>, first: Result)
    returns (results: seq<Result>, allComplete: bool, pruneCompleted: bool)
    requires forall i | 0 <= i < |replicas| :: replicas[i].Valid() && !replicas[i].primary
    requires forall i, j | 0 <= i < j < |replicas| :: replicas[i] != replicas[j]
    modifies replicas
    ensures |results| == 1 + |replicas| && results[0] == first
    ensures allComplete == AllComplete(results) && pruneCompleted == AllPruned(results)
    ensures forall j | 0 <= j < |replicas| ::
              ReplicaDone(old(replicas[j].trace), replicas[j].trace, old(replicas[j].records), plan, HeldBack(kind, job),
                          Sparing(kind, job, plan, targetRuns), results[j + 1])
    ensures forall j | 0 <= j < |replicas| ::
              ReplicaTold(old(replicas[j].trace), replicas[j].trace, replicas[j].records, run, kind, job, targets, targetRuns, results[j + 1])
  {
    hide ReplicaTold, ReportOf, EndsWell, Asked, Protected, Part, Sparing, OwnChoice, SparedEach, PruneRecorded, DistinctIds, ReplicaDone, AllComplete, AllPruned;
    results := [first];
    OneResult(first);
    allComplete, pruneCompleted := first.status.Complete?, first.pruneCompleted;
    for i := 0 to |replicas|
      invariant |results| == 1 + i && results[0] == first
      invariant allComplete == AllComplete(results) && pruneCompleted == AllPruned(results)
      invariant forall j | i <= j < |replicas| ::
                  replicas[j].Valid() && replicas[j].trace == old(replicas[j].trace) && replicas[j].records == old(replicas[j].records)
      invariant forall j | 0 <= j < i ::
                  ReplicaDone(old(replicas[j].trace), replicas[j].trace, old(replicas[j].records), plan, HeldBack(kind, job),
                              Sparing(kind, job, plan, targetRuns), results[j + 1])
      invariant forall j | 0 <= j < i ::
                  ReplicaTold(old(replicas[j].trace), replicas[j].trace, replicas[j].records, run, kind, job, targets, targetRuns, results[j + 1])
      modifies replicas
    {
      var child;
      ghost var last;
      child, last := RunReplica(replicas[i], run, kind, job, targets, targetRuns, delays, (k: nat) => cancelled(i + 1, k), plan);
      ReplicaTells(old(replicas[i].trace), replicas[i].trace, replicas[i].records, run, kind, job, targets, targetRuns, child, last);
      DoneNow(old(replicas[i].trace), replicas[i].trace, old(replicas[i].records), replicas[i].records, kind, job, plan, targetRuns, child);
      MoreResults(results, child);
      results := results + [child];
      allComplete := allComplete && child.status.Complete?;
      pruneCompleted := pruneCompleted && child.pruneCompleted;
    }
  }

  /**
   * The whole run. Replicas are only touched once the primary's run counts as complete, that is, once its
   * plan is carried out or one of its answers was unreadable although the exit was 0. They replay the
   * primary's plan, or choose for themselves when there is none; if protection covers whole runs, no
   * repository loses a snapshot that it protects. Success means success everywhere.
   */
  method ExecuteMaintenanceRepositories(primary: Repository, replicas: seq<Repository>, run: Id, kind: RunKind, job: Job,
                                        targets: seq<Id>, targetRuns: seq<Id>, delays: nat, cancelled: (nat, nat) -> bool)
    returns (result: Result, results: seq<Result>, ghost last: Attempt)
    requires primary.Valid() && primary.primary && (primary.current.Some? ==> Distinct(primary.current.value.candidates))
    requires forall i | 0 <= i < |replicas| :: replicas[i].Valid() && !replicas[i].primary && replicas[i] != primary
    requires forall i, j | 0 <= i < j < |replicas| :: replicas[i] != replicas[j]
    modifies primary, replicas
    ensures |results| == 1 || |results| == 1 + |replicas|
    ensures kind.Forget? && !results[0].status.Complete? ==> |results| == 1 && forall i | 0 <= i < |replicas| :: replicas[i].trace == old(replicas[i].trace)
    ensures old(primary.trace) <= last.trace && ReportOf(last, primary.trace, primary.records, run, kind, job, targets, targetRuns, results[0])
    ensures forall j | 0 < j < |results| ::
              ReplicaTold(old(replicas[j - 1].trace), replicas[j - 1].trace, replicas[j - 1].records, run, kind, job, targets, targetRuns, results[j])
    ensures Single(kind) && results[0].status.Complete? ==> EndsWell(primary.trace, |old(primary.trace)|, kind)
    ensures Single(kind) ==> forall j | 0 < j < |results| && results[j].status.Complete? ::
                               EndsWell(replicas[j - 1].trace, |old(replicas[j - 1].trace)|, kind)
    ensures Choosing(kind, job, old(primary.current), targetRuns, old(primary.records)) ==>
              KeepsAll(old(primary.records), job.retention, ProofOf(job), Asked(primary.trace, |old(primary.trace)|))
    ensures Choosing(kind, job, old(primary.current), targetRuns, old(primary.records)) && Planned(primary.current) ==>
              forall i | 0 <= i < |old(primary.records)| ::
                old(primary.records)[i].id in primary.current.value.protected <==> Kept(old(primary.records), job.retention, ProofOf(job), i)
    ensures OwnChoice(kind, job, primary.current, targetRuns) ==>
              forall j | 0 <= j < |replicas| ::
                KeepsAll(old(replicas[j].records), job.retention, ProofOf(job), Asked(replicas[j].trace, |old(replicas[j].trace)|))
    ensures Choosing(kind, job, old(primary.current), targetRuns, old(primary.records)) ==>
              forall j | 0 <= j < |replicas| && Replicates(old(primary.records), old(replicas[j].records), ProofOf(job)) ::
                KeepsAll(old(replicas[j].records), job.retention, ProofOf(job), Asked(replicas[j].trace, |old(replicas[j].trace)|))
    ensures result == Summary(results)
    ensures result.status.Unresolved? <==> results[0].status.Unresolved?
    ensures kind.Forget? && results[0].status.Complete? ==>
              Finished(results[0], StartResult(run, kind), primary.current, primary.records, primary.trace, |old(primary.trace)|)
    ensures result.status.Complete? <==> |results| == 1 + |replicas| && AllComplete(results)
    ensures result.pruneCompleted ==> |results| == 1 + |replicas| && AllPruned(results) && PruneRecorded(primary.trace, |old(primary.trace)|)
    ensures HeldBack(kind, job) ==> primary.trace == old(primary.trace) && forall i | 0 <= i < |replicas| :: replicas[i].trace == old(replicas[i].trace)
    ensures Choosing(kind, job, old(primary.current), targetRuns, old(primary.records)) ==>
              Spared(old(primary.records), primary.records, primary.current, Asked(primary.trace, |old(primary.trace)|), job, targets)
    ensures OwnChoice(kind, job, primary.current, targetRuns) ==>
              forall i | 0 <= i < |replicas| ::
                Asked(replicas[i].trace, |old(replicas[i].trace)|) * Protected(old(replicas[i].records), job.retention, ProofOf(job)) == {}
    ensures Choosing(kind, job, old(primary.current), targetRuns, old(primary.records)) ==>
              forall i | 0 <= i < |replicas| && Replicates(old(primary.records), old(replicas[i].records), ProofOf(job)) ::
                Asked(replicas[i].trace, |old(replicas[i].trace)|) * Protected(old(replicas[i].records), job.retention, ProofOf(job)) == {}
  {
    hide ReplicaTold, ReportOf, EndsWell, Kept, KeepsAll;
    hide Asked, Spared, SparedEach, Finished, OwnChoice, Sparing, Protected, PruneRecorded, DistinctIds, Replicates, ReplicaDone, Closed, Planned, Distinct, AllComplete, AllPruned, PlannedFor;
    ghost var held := HeldBack(kind, job);
    ghost var choosing := Choosing(kind, job, primary.current, targetRuns, primary.records);
    var attempts;
    ghost var reports;
    result, attempts, last, reports := ExecuteRepositoryMaintenance(primary, run, kind, job, targets, targetRuns, delays, (k: nat) => cancelled(0, k));
    EndsWellEarlier(primary.trace, |old(primary.trace)|, |last.trace|, kind);
    var plan := primary.current;
    if choosing {
      SparedPlan(old(primary.records), primary.records, plan, Asked(primary.trace, |old(primary.trace)|), job, targets);
      SparedKept(old(primary.records), primary.records, plan, Asked(primary.trace, |old(primary.trace)|), job, targets);
    }
    OwnOrPlanned(kind, job, plan, targetRuns);
    if kind.Forget? && !result.status.Complete? {
      results := [result];
      OneResult(result);
      forall i | 0 <= i < |replicas|
        ensures Asked(replicas[i].trace, |old(replicas[i].trace)|) == {}
        ensures job.retention.latest.Some? ==>
                  KeepsAll(old(replicas[i].records), job.retention, ProofOf(job), Asked(replicas[i].trace, |old(replicas[i].trace)|))
      {
        OrderlyStart(replicas[i].trace);
        if job.retention.latest.Some? {
          AllKept(old(replicas[i].records), job.retention, ProofOf(job), {});
        }
      }
      return;
    }
    var allComplete, pruneCompleted;
    results, allComplete, pruneCompleted := RunReplicas(replicas, run, kind, job, targets, targetRuns, delays, cancelled, plan, result);
    forall j | 0 < j < |results| ensures Single(kind) && results[j].status.Complete? ==> EndsWell(replicas[j - 1].trace, |old(replicas[j - 1].trace)|, kind) {
      ToldComplete(old(replicas[j - 1].trace), replicas[j - 1].trace, replicas[j - 1].records, run, kind, job, targets, targetRuns, results[j]);
    }
    result := result.(pruneCompleted := pruneCompleted);
    if !allComplete && result.status.Complete? {
      result := result.(status := Partial, code := OperationsIncomplete);
    }
    PrimaryToo(results);
    if held {
      forall i | 0 <= i < |replicas| ensures replicas[i].trace == old(replicas[i].trace) {
        HeldReplica(old(replicas[i].trace), replicas[i].trace, old(replicas[i].records), plan, Sparing(kind, job, plan, targetRuns), results[i + 1]);
      }
    }
    if OwnChoice(kind, job, plan, targetRuns) {
      forall i | 0 <= i < |replicas|
        ensures Asked(replicas[i].trace, |old(replicas[i].trace)|) * Protected(old(replicas[i].records), job.retention, ProofOf(job)) == {}
        ensures KeepsAll(old(replicas[i].records), job.retention, ProofOf(job), Asked(replicas[i].trace, |old(replicas[i].trace)|))
      {
        OwnReplica(old(replicas[i].trace), replicas[i].trace, old(replicas[i].records), kind, job, plan, targetRuns, held, results[i + 1]);
        AllKept(old(replicas[i].records), job.retention, ProofOf(job), Asked(replicas[i].trace, |old(replicas[i].trace)|));
      }
    } else if choosing {
      forall i | 0 <= i < |replicas| && Replicates(old(primary.records), old(replicas[i].records), ProofOf(job))
        ensures Asked(replicas[i].trace, |old(replicas[i].trace)|) * Protected(old(replicas[i].records), job.retention, ProofOf(job)) == {}
        ensures KeepsAll(old(replicas[i].records), job.retention, ProofOf(job), Asked(replicas[i].trace, |old(replicas[i].trace)|))
      {
        DoneReplica(old(replicas[i].trace), replicas[i].trace, old(replicas[i].records), plan, held, Sparing(kind, job, plan, targetRuns), results[i + 1],
                    old(primary.records), job, targets);
        AllKept(old(replicas[i].records), job.retention, ProofOf(job), Asked(replicas[i].trace, |old(replicas[i].trace)|));
      }
    }
  }

  /** Nothing that the listing says is to be kept was asked for. */
  ghost predicate KeepsAll(records: seq<Record>, retention: Retention, proof: Proof, asked: set<Id>) {
    forall i | 0 <= i < |records| && Kept(records, retention, proof, i) :: records[i].id !in asked
  }

  lemma AllKept(records: seq<Record>, retention: Retention, proof: Proof, asked: set<Id>)
    requires asked * Protected(records, retention, proof) == {}
    ensures KeepsAll(records, retention, proof, asked)
  {
    SparesKept(records, retention, proof, asked);
    hide Protected, Kept;
  }

  /** What a primary that chose for itself has spared, and that its plan says so. */
  lemma SparedKept(first: seq<Record>, now: seq<Record>, current: Option<Plan>, asked: set<Id>, job: Job, targets: seq<Id>)
    requires job.retention.latest.Some? && Spared(first, now, current, asked, job, targets) && DistinctIds(first)
    ensures KeepsAll(first, job.retention, ProofOf(job), asked)
    ensures Planned(current) ==>
              forall i | 0 <= i < |first| :: first[i].id in current.value.protected <==> Kept(first, job.retention, ProofOf(job), i)
  {
    AllKept(first, job.retention, ProofOf(job), asked);
    KeptExactly(first, job.retention, ProofOf(job));
    hide Protected, Kept, Chosen, Part;
  }

  /** For an unknown outcome anywhere to block the primary's repository, it must be the primary's. */
  lemma UnresolvedBlocksExactlyWhen(replicas: nat)
    ensures (forall results: seq<Result> | |results| == 1 + replicas && AnyUnresolved(results) :: Summary(results).status.Unresolved?)
            <==> replicas == 0
  {
    if replicas > 0 {
      var primary := StartResult(0, Forget).(status := Complete, code := Success);
      var replica := StartResult(0, Forget).(status := Unresolved, code := OutcomeUnresolved);
      var results := seq(1 + replicas, i => if i == 0 then primary else replica);
      assert results[1].status.Unresolved? && Summary(results).status.Partial?;
    }
  }

  ghost predicate AnyUnresolved(results: seq<Result>) {
    exists i :: 0 <= i < |results| && results[i].status.Unresolved?
  }

  /** An unknown outcome on a replica of a complete primary: the next retention run is not refused for it. */
  method UnresolvedReplica(job: Job, primary: Result, replica: Result, now: nat)
    returns (book: MaintenanceBook, result: Result, retention: Retention)
    requires job.dataParts >= 1 && !job.retention.hasUnresolved
    requires primary.kind.Forget? && primary.status.Complete? && replica.status.Unresolved?
    ensures result == Summary([primary, replica]) && AnyUnresolved([primary, replica])
    ensures book.Valid() && book.history == [] && !HeldBack(Forget, job.(retention := retention))
  {
    book := new MaintenanceBook();
    var results := [primary, replica];
    assert results[1].status.Unresolved?;
    assert results[0].status.Complete?;
    result := Summary(results);
    book.RecordOutcome(job, result, true);
    var plan;
    retention, plan := book.Prepare(job, Forget, false, None, now);
  }

  lemma OneResult(result: Result)
    ensures AllComplete([result]) == result.status.Complete? && AllPruned([result]) == result.pruneCompleted
  {
    assert [result][0] == result;
  }

  lemma MoreResults(results: seq<Result>, child: Result)
    ensures AllComplete(results + [child]) == (AllComplete(results) && child.status.Complete?)
    ensures AllPruned(results + [child]) == (AllPruned(results) && child.pruneCompleted)
  {
    var more := results + [child];
    assert forall i | 0 <= i < |results| :: more[i] == results[i];
    assert more[|results|] == child;
  }

  lemma PrimaryToo(results: seq<Result>)
    requires |results| > 0
    ensures AllComplete(results) ==> results[0].status.Complete?
    ensures AllPruned(results) ==> results[0].pruneCompleted
  {
  }

  lemma DoneNow(before: seq<Action>, after: seq<Action>, records: seq<Record>, now: seq<Record>, kind: RunKind, job: Job, plan: Option<Plan>,
                targetRuns: seq<Id>, result: Result)
    requires before <= after && (HeldBack(kind, job) ==> after == before)
    requires OwnChoice(kind, job, plan, targetRuns) ==> SparedEach(records, now, Asked(after, |before|), job)
    requires plan.Some? && plan.value.forgetPlanned ==> Asked(after, |before|) <= Replayed(records, ForReplica(plan.value))
    requires result.pruneCompleted ==> PruneRecorded(after, |before|)
    ensures ReplicaDone(before, after, records, plan, HeldBack(kind, job), Sparing(kind, job, plan, targetRuns), result)
  {
    hide Asked, Protected, Part, Replayed, PruneRecorded;
  }

  lemma OwnOrPlanned(kind: RunKind, job: Job, plan: Option<Plan>, targetRuns: seq<Id>)
    ensures OwnChoice(kind, job, plan, targetRuns) ==> job.retention.latest.Some?
    ensures kind.Forget? && ProofAvailable(job) && targetRuns == [] ==> OwnChoice(kind, job, plan, targetRuns) || Planned(plan)
  {
  }

  lemma OwnReplica(before: seq<Action>, after: seq<Action>, records: seq<Record>, kind: RunKind, job: Job, plan: Option<Plan>, targetRuns: seq<Id>,
                   held: bool, result: Result)
    requires OwnChoice(kind, job, plan, targetRuns)
    requires ReplicaDone(before, after, records, plan, held, Sparing(kind, job, plan, targetRuns), result)
    ensures Asked(after, |before|) * Protected(records, job.retention, ProofOf(job)) == {}
  {
    hide Asked, Protected;
  }

  lemma HeldReplica(before: seq<Action>, after: seq<Action>, records: seq<Record>, plan: Option<Plan>, spares: Option<Retention>, result: Result)
    requires ReplicaDone(before, after, records, plan, true, spares, result)
    ensures after == before
  {
  }

  lemma DoneReplica(before: seq<Action>, after: seq<Action>, records: seq<Record>, plan: Option<Plan>, held: bool, spares: Option<Retention>, result: Result,
                    primary: seq<Record>, job: Job, targets: seq<Id>)
    requires ReplicaDone(before, after, records, plan, held, spares, result)
    requires job.retention.latest.Some? && DistinctIds(records)
    requires Closed(primary, Protected(primary, job.retention, ProofOf(job)))
    requires PlannedFor(plan, primary, job, ProofOf(job), targets, []) && Replicates(primary, records, ProofOf(job))
    ensures Asked(after, |before|) * Protected(records, job.retention, ProofOf(job)) == {}
  {
    hide Closed, Protected, Chosen, Replayed, DistinctIds, Replicates, PruneRecorded, Asked;
    ReplicaSpared(primary, records, plan, job, targets, Asked(after, |before|));
  }
}

/**
 * agent/commands.go `reconciledMaintenance`: after a restart, the outcome of an interrupted retention
 * run is read off the repository and the saved plan, without running anything again.
 */
module RetentionRecovery {
  import opened Cardinality
  import opened MaintenanceTypes
  import opened Options
  import opened ResticRepositories
  import opened RetentionEngine
  import opened SnapshotSets

  /** How far the prune of a combined run is known to have come. */
  function RecoveredPrune(plan: Plan): PruneState {
    if !plan.combined then NotCombined
    else if plan.pruneCompleted then PruneDone
    else if plan.pruneStarted then PruneUnresolved
    else if plan.pruneAfter then Pending
    else NotDue
  }

  predicate Recoverable(kind: RunKind, saved: Option<Plan>) {
    kind.Forget? && saved.Some? && (saved.value.candidates != [] || saved.value.forgetPlanned)
  }

  /** Only a listing is asked for; the verdict and the counts are those that belong to what it shows. */
  method ReconciledMaintenance(repo: Repository, run: Id, kind: RunKind, saved: Option<Plan>) returns (result: Result)
    requires repo.Valid() && (saved.Some? ==> Distinct(saved.value.candidates))
    modifies repo`clock, repo`records, repo`trace
    ensures repo.Valid() && repo.records == old(repo.records)
    ensures if kind.Forget? && saved.Some? && (saved.value.candidates != [] || saved.value.forgetPlanned)
            then exists response: Response :: repo.trace == old(repo.trace) + [Ran(Request(Snapshots, false), response)] &&
                                              (result.statistics.Some? <==> response.listing.Some?)
            else repo.trace == old(repo.trace) && result.statistics.None?
    ensures result.kind == kind && result.run == run
    ensures result.statistics.Some? && saved.value.combined && saved.value.pruneStarted && !saved.value.pruneCompleted ==>
              result.status.Unresolved? && result.code.OutcomeUnresolved?
    ensures result.statistics.Some? && !(saved.value.combined && saved.value.pruneStarted && !saved.value.pruneCompleted) ==>
              && (result.status.Complete? <==> Elements(saved.value.candidates) * Ids(repo.records) == {})
              && (result.status.Partial? <==> Elements(saved.value.candidates) * Ids(repo.records) != {} && Elements(saved.value.candidates) - Ids(repo.records) != {})
              && (result.status.Complete? || result.status.Partial? || result.status.Failed?)
    ensures result.pruneCompleted <==> result.statistics.Some? && saved.value.combined && saved.value.pruneCompleted
    ensures result.statistics.Some? ==>
              && (result.pruneState.NotCombined? <==> !saved.value.combined)
              && (result.pruneState.Pending? <==> saved.value.combined && !saved.value.pruneCompleted && !saved.value.pruneStarted && saved.value.pruneAfter)
              && (result.pruneState.NotDue? <==> saved.value.combined && !saved.value.pruneCompleted && !saved.value.pruneStarted && !saved.value.pruneAfter)
    ensures result.statistics.Some? ==> Recoverable(kind, saved)
    ensures result.statistics.None? ==> result.status.Unresolved? && result.code.OutcomeUnresolved? && !result.pruneCompleted
    ensures result.statistics.Some? ==>
              && result.statistics == Some(Settled(Elements(saved.value.candidates), Ids(repo.records), |saved.value.protected|))
              && result.evidence == Some(Evidence(true, Ids(repo.records)))
              && result.pruneState == RecoveredPrune(saved.value)
              && result.pruneCompleted == result.pruneState.PruneDone?
              && (result.status, result.code) ==
                   if result.pruneState.PruneUnresolved? then (Unresolved, OutcomeUnresolved)
                   else Verdict(Elements(saved.value.candidates), Ids(repo.records))
  {
    hide Elements, Ids, DistinctIds, Distinct, Settled;
    result := Result(run, kind, Unresolved, OutcomeUnresolved, [], 0, None, None, NotCombined, false);
    if !kind.Forget? || saved.None? || (|saved.value.candidates| == 0 && !saved.value.forgetPlanned) {
      return;
    }
    var plan := saved.value;
    var response := repo.Execute(Request(Snapshots, false));
    if response.listing.None? {
      result := result.(evidence := Some(Evidence(false, Elements(plan.candidates))));
      return;
    }
    var inventory := Inventory(response.listing.value);
    var remaining := CountPresent(plan.candidates, inventory);
    var removed := |plan.candidates| - remaining;
    CandidateCount(plan.candidates);
    ReconciledCounts(Elements(plan.candidates), inventory, |plan.protected|);
    RemainingMeans(Elements(plan.candidates), inventory);
    var statistics := MaintenanceStatistics(|inventory| + removed, |plan.candidates|, remaining, |plan.protected|);
    result := result.(evidence := Some(Evidence(true, inventory)), statistics := Some(statistics));
    if plan.combined {
      if plan.pruneCompleted {
        result := result.(pruneState := PruneDone, pruneCompleted := true);
      } else if plan.pruneStarted {
        return result.(pruneState := PruneUnresolved);
      } else if plan.pruneAfter {
        result := result.(pruneState := Pending);
      } else {
        result := result.(pruneState := NotDue);
      }
    }
    if remaining == 0 {
      result := result.(status := Complete, code := Success);
    } else if removed > 0 {
      result := result.(status := Partial, code := SnapshotRemovalIncomplete);
    } else {
      result := result.(status := Failed, code := ExecutionFailed);
    }
  }

  /** A forget failed in a way that has a name, and nothing was removed. */
  predicate FailedByName(chosen: set<Id>, after: set<Id>, failure: Option<Response>) {
    chosen * after != {} && chosen - after == {} && failure.Some? && (failure.value.cancelled || failure.value.exit in {10, 11, 12})
  }

  /** The two verdicts differ exactly then: the recovered run does not know how its last forget failed. */
  lemma VerdictsDifferExactlyWhen(base: Result, chosen: set<Id>, after: set<Id>, failure: Option<Response>)
    requires failure.Some? ==> failure.value.exit != 0
    ensures LiveVerdict(base, chosen, after, failure) != Verdict(chosen, after) <==> FailedByName(chosen, after, failure)
  {
  }

  /**
   * A run that chooses for itself and does not prune, and the recovery of it from the plan it saved,
   * report the same counts whenever both could list the repository, and the same outcome unless the run
   * removed nothing and knows a reason that the plan does not hold.
   */
  method RecoveryAgrees(repo: Repository, run: Id, job: Job, proof: Proof, targets: seq<Id>, targetRuns: seq<Id>, base: Result)
    returns (live: Result, recovered: Result, ghost chosen: set<Id>, ghost failure: Option<Response>)
    requires repo.Valid() && repo.primary && repo.current.None?
    requires base.statistics.None? && base.pruneState.NotCombined? && !base.pruneCompleted
    modifies repo
    ensures live.statistics.Some? && recovered.statistics.Some? ==>
              && recovered.statistics == live.statistics && recovered.evidence == live.evidence
              && ((recovered.status, recovered.code) == (live.status, live.code) <==> !FailedByName(chosen, Ids(repo.records), failure))
  {
    hide Elements, Ids, DistinctIds, Orderly, Asked, Protected, Chosen, PlannedFor, PruneRecorded, Part, Settled, Verdict, LiveVerdict, FailedByName;
    live, chosen, failure := ExecuteForget(repo, base, job, proof, targets, targetRuns, None);
    PlanDistinct(repo.current, old(repo.records), job, proof, targets, targetRuns);
    recovered := ReconciledMaintenance(repo, run, Forget, repo.current);
    VerdictsDifferExactlyWhen(base, chosen, Ids(repo.records), failure);
    if live.statistics.Some? {
      assert Reported(live, base, chosen, Ids(repo.records), |Protected(old(repo.records), job.retention, proof)|, false, failure);
    }
  }

  lemma PlanDistinct(current: Option<Plan>, records: seq<Record>, job: Job, proof: Proof, targets: seq<Id>, targetRuns: seq<Id>)
    requires current.None? || PlannedFor(current, records, job, proof, targets, targetRuns)
    ensures current.Some? ==> Distinct(current.value.candidates)
  {
  }
}

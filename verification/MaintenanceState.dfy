/**
 * agent/maintenance_state.go: what the daemon remembers about each repository between maintenance
 * runs, above all that some run ended with an unknown outcome, which blocks retention and prune.
 */
module MaintenanceStates {
  import opened Options
  import opened MaintenanceTypes

  datatype Runtime = Runtime(
    latest: Option<Proof>, unresolved: bool, confirmed: bool, atRevision: nat,
    dataParts: nat, nextPart: nat, lastPrune: Option<nat>)

  const BLANK := Runtime(None, false, false, 0, 0, 0, None)

  /** Reading a missing entry of the map gives the zero record. */
  function At(state: map<Id, Runtime>, repository: Id): Runtime {
    if repository in state then state[repository] else BLANK
  }

  predicate NewerProof(candidate: Option<Proof>, current: Option<Proof>) {
    candidate.Some? &&
    (current.None? ||
     if candidate.value.finishedAt != current.value.finishedAt then candidate.value.finishedAt > current.value.finishedAt
     else candidate.value.run > current.value.run)
  }

  /** Being newer is a strict order, total on proofs of different runs: the newest of many does not depend on their order. */
  lemma NewerProofOrders(a: Option<Proof>, b: Option<Proof>, c: Option<Proof>)
    ensures !NewerProof(a, a)
    ensures NewerProof(a, b) ==> !NewerProof(b, a)
    ensures NewerProof(a, b) && NewerProof(b, c) ==> NewerProof(a, c)
    ensures !NewerProof(a, b) && !NewerProof(b, c) ==> !NewerProof(a, c)
    ensures a.Some? && b.Some? && a.value.run != b.value.run ==> NewerProof(a, b) || NewerProof(b, a)
    ensures a.Some? && b.Some? && a.value.finishedAt > b.value.finishedAt ==> NewerProof(a, b)
    ensures a.Some? && b.Some? && a.value.finishedAt == b.value.finishedAt && a.value.run > b.value.run ==> NewerProof(a, b)
    ensures a.Some? && b.None? ==> NewerProof(a, b)
  {
  }

  function Newest(a: Option<Proof>, b: Option<Proof>): Option<Proof> {
    if NewerProof(a, b) then a else b
  }

  /** What happened to a repository, as far as unresolved runs are concerned. */
  datatype Event =
    | UnresolvedRun(repository: Id)
    | CleanInventory(repository: Id)
    | ConfigSaid(repository: Id, revision: nat, unresolved: bool)

  /**
   * What may lift the block that the event at `from` put on a repository: a complete listing of it, or a
   * configuration that knows about unresolved runs followed by a strictly later one that knows of none.
   */
  ghost predicate Lifted(history: seq<Event>, from: nat, repository: Id) {
    || (exists k :: from < k < |history| && history[k] == CleanInventory(repository))
    || (exists j, k :: from < j < k < |history| && LiftedByConfigs(history[j], history[k], repository))
  }

  predicate LiftedByConfigs(earlier: Event, later: Event, repository: Id) {
    && earlier.ConfigSaid? && earlier.repository == repository && earlier.unresolved
    && later.ConfigSaid? && later.repository == repository && !later.unresolved
    && later.revision > earlier.revision
  }

  /** Some run left an unknown outcome and nothing has lifted that since. */
  ghost predicate Blocked(history: seq<Event>, repository: Id) {
    exists i :: 0 <= i < |history| && history[i] == UnresolvedRun(repository) && !Lifted(history, i, repository)
  }

  /** The record of a repository remembers every block, and knows which configuration confirmed it. */
  ghost predicate Remembers(history: seq<Event>, repository: Id, runtime: Runtime) {
    forall i | 0 <= i < |history| && history[i] == UnresolvedRun(repository) && !Lifted(history, i, repository) ::
      runtime.unresolved && (runtime.confirmed ==> ConfirmedAfter(history, i, repository, runtime.atRevision))
  }

  ghost predicate ConfirmedAfter(history: seq<Event>, from: nat, repository: Id, revision: nat) {
    exists j :: from < j < |history| && history[j] == ConfigSaid(repository, revision, true)
  }

  ghost predicate AllRemembered(history: seq<Event>, state: map<Id, Runtime>) {
    forall repository: Id :: Remembers(history, repository, At(state, repository))
  }

  /** What an event makes of the record of its repository. */
  function React(runtime: Runtime, event: Event, revision: nat): Runtime {
    match event
    case UnresolvedRun(_) => runtime.(unresolved := true, confirmed := false, atRevision := revision)
    case CleanInventory(_) => runtime.(unresolved := false, confirmed := false, atRevision := 0)
    case ConfigSaid(_, said, unresolved) =>
      if unresolved then runtime.(unresolved := true, confirmed := true, atRevision := said)
      else if runtime.unresolved && runtime.confirmed && said > runtime.atRevision then runtime.(unresolved := false, confirmed := false, atRevision := 0)
      else runtime
  }

  lemma LiftedStays(history: seq<Event>, event: Event, from: nat, repository: Id)
    requires Lifted(history, from, repository)
    ensures Lifted(history + [event], from, repository)
  {
    var after := history + [event];
    if k :| from < k < |history| && history[k] == CleanInventory(repository) {
      assert after[k] == CleanInventory(repository);
    } else {
      var j, k :| from < j < k < |history| && LiftedByConfigs(history[j], history[k], repository);
      assert LiftedByConfigs(after[j], after[k], repository);
    }
  }

  /** An event on another repository changes nothing here. */
  lemma RemembersOthers(history: seq<Event>, event: Event, repository: Id, runtime: Runtime)
    requires Remembers(history, repository, runtime) && event.repository != repository
    ensures Remembers(history + [event], repository, runtime)
  {
    var after := history + [event];
    forall i | 0 <= i < |after| && after[i] == UnresolvedRun(repository) && !Lifted(after, i, repository)
      ensures runtime.unresolved && (runtime.confirmed ==> ConfirmedAfter(after, i, repository, runtime.atRevision))
    {
      RemembersOne(history, event, repository, runtime, i);
    }
  }

  /** A block that the new event does not lift was there before, and its confirmation still is. */
  lemma RemembersOne(history: seq<Event>, event: Event, repository: Id, runtime: Runtime, i: nat)
    requires Remembers(history, repository, runtime)
    requires i < |history| && history[i] == UnresolvedRun(repository) && !Lifted(history + [event], i, repository)
    ensures !Lifted(history, i, repository) && runtime.unresolved
    ensures runtime.confirmed ==> ConfirmedAfter(history + [event], i, repository, runtime.atRevision)
  {
    if Lifted(history, i, repository) {
      LiftedStays(history, event, i, repository);
    }
    if runtime.confirmed {
      var j :| i < j < |history| && history[j] == ConfigSaid(repository, runtime.atRevision, true);
      assert (history + [event])[j] == ConfigSaid(repository, runtime.atRevision, true);
    }
  }

  /** The reaction to an event keeps every block in mind that the event does not lift. */
  lemma ReactRemembers(history: seq<Event>, event: Event, runtime: Runtime, revision: nat)
    requires Remembers(history, event.repository, runtime)
    ensures Remembers(history + [event], event.repository, React(runtime, event, revision))
  {
    var after, next, repository := history + [event], React(runtime, event, revision), event.repository;
    assert after[|history|] == event;
    forall i | 0 <= i < |after| && after[i] == UnresolvedRun(repository) && !Lifted(after, i, repository)
      ensures next.unresolved && (next.confirmed ==> ConfirmedAfter(after, i, repository, next.atRevision))
    {
      if i < |history| {
        assert history[i] == after[i];
        RemembersOne(history, event, repository, runtime, i);
        if event.ConfigSaid? && !event.unresolved && runtime.confirmed && event.revision > runtime.atRevision {
          var j :| i < j < |after| && after[j] == ConfigSaid(repository, runtime.atRevision, true);
          assert LiftedByConfigs(after[j], after[|history|], repository);
        }
      }
    }
  }

  lemma AllRemember(history: seq<Event>, event: Event, state: map<Id, Runtime>, next: Runtime, revision: nat)
    requires AllRemembered(history, state)
    requires SameBlock(next, React(At(state, event.repository), event, revision))
    ensures AllRemembered(history + [event], state[event.repository := next])
  {
    var after, changed := history + [event], state[event.repository := next];
    forall repository: Id ensures Remembers(after, repository, At(changed, repository)) {
      if repository == event.repository {
        ReactRemembers(history, event, At(state, repository), revision);
      } else {
        RemembersOthers(history, event, repository, At(state, repository));
      }
    }
  }

  predicate SameBlock(a: Runtime, b: Runtime) {
    a.unresolved == b.unresolved && a.confirmed == b.confirmed && a.atRevision == b.atRevision
  }

  /** Raising the block, or leaving it alone, forgets nothing. */
  lemma RaiseRemembers(history: seq<Event>, state: map<Id, Runtime>, repository: Id, next: Runtime)
    requires AllRemembered(history, state)
    requires At(state, repository).unresolved ==> next.unresolved
    requires next.confirmed == At(state, repository).confirmed && next.atRevision == At(state, repository).atRevision
    ensures AllRemembered(history, state[repository := next])
  {
    var changed := state[repository := next];
    forall other: Id ensures Remembers(history, other, At(changed, other)) {
      assert Remembers(history, other, At(state, other));
    }
  }

  /** However many configurations know of no unresolved run: without one that knew of some, and without a listing, the block stays. */
  lemma OutcomeIsKept(history: seq<Event>, repository: Id, runtime: Runtime, from: nat)
    requires Remembers(history, repository, runtime) && from < |history| && history[from] == UnresolvedRun(repository)
    requires forall k | from < k < |history| && history[k].repository == repository ::
               history[k].UnresolvedRun? || (history[k].ConfigSaid? && !history[k].unresolved)
    ensures runtime.unresolved && Blocked(history, repository)
  {
    forall j, k | from < j < k < |history| ensures !LiftedByConfigs(history[j], history[k], repository) {
    }
    assert !Lifted(history, from, repository);
  }

  /** The record after configurations of these revisions that know of no unresolved run. */
  function AfterConfigs(runtime: Runtime, repository: Id, said: seq<nat>, revision: nat): Runtime {
    if said == [] then runtime
    else React(AfterConfigs(runtime, repository, said[..|said| - 1], revision), ConfigSaid(repository, said[|said| - 1], false), revision)
  }

  /** A block that a configuration confirmed stays exactly as long as none of the following ones is strictly later. */
  lemma {:induction false} LaterConfigLifts(runtime: Runtime, repository: Id, confirmed: nat, said: seq<nat>, revision: nat)
    ensures var blocked := React(runtime, ConfigSaid(repository, confirmed, true), revision);
            var after := AfterConfigs(blocked, repository, said, revision);
            (after.unresolved <==> forall i | 0 <= i < |said| :: said[i] <= confirmed) && (after.unresolved ==> after == blocked)
  {
    if said != [] {
      var n := |said| - 1;
      LaterConfigLifts(runtime, repository, confirmed, said[..n], revision);
      assert forall i | 0 <= i < n :: said[..n][i] == said[i];
    }
  }

  /** The part of the repository data that the next check reads. */
  function NextPart(runtime: Runtime, parts: nat): nat {
    if runtime.dataParts == parts && 1 <= runtime.nextPart <= parts then runtime.nextPart else 1
  }

  function PartAfter(part: nat, parts: nat, checks: nat): nat
    requires parts >= 1
  {
    if checks == 0 then part else Following(PartAfter(part, parts, checks - 1), parts)
  }

  function Following(part: nat, parts: nat): nat
    requires parts >= 1
  {
    part % parts + 1
  }

  lemma FollowingCounts(part: nat, parts: nat)
    requires 1 <= part <= parts
    ensures Following(part, parts) == if part == parts then 1 else part + 1
  {
  }

  lemma {:induction false} PartsRotate(part: nat, parts: nat, checks: nat)
    requires 1 <= part <= parts
    ensures 1 <= PartAfter(part, parts, checks) <= parts
    ensures checks <= parts - part ==> PartAfter(part, parts, checks) == part + checks
    ensures parts - part < checks <= parts ==> PartAfter(part, parts, checks) == part + checks - parts
  {
    hide Following;
    if checks > 0 {
      PartsRotate(part, parts, checks - 1);
      FollowingCounts(PartAfter(part, parts, checks - 1), parts);
    }
  }

  /** As many successful checks as there are parts read every part once, wherever they start. */
  lemma EveryPartIsChecked(part: nat, parts: nat, wanted: nat) returns (check: nat)
    requires 1 <= part <= parts && 1 <= wanted <= parts
    ensures check < parts && PartAfter(part, parts, check) == wanted
    ensures PartAfter(part, parts, parts) == part
  {
    check := if wanted >= part then wanted - part else wanted + parts - part;
    PartsRotate(part, parts, check);
    PartsRotate(part, parts, parts);
  }

  /** One enabled job of an accepted configuration. */
  function AcceptJob(runtime: Runtime, revision: nat, job: Job): Runtime {
    var reacted := React(runtime.(latest := Newest(job.retention.latest, runtime.latest)),
                         ConfigSaid(job.repository, revision, job.retention.hasUnresolved), revision);
    if reacted.dataParts != 0 && reacted.dataParts != job.dataParts then reacted.(dataParts := job.dataParts, nextPart := 1) else reacted
  }

  function Accepted(state: map<Id, Runtime>, revision: nat, jobs: seq<Job>): map<Id, Runtime> {
    if jobs == [] then state
    else
      var before, job := Accepted(state, revision, jobs[..|jobs| - 1]), jobs[|jobs| - 1];
      if job.enabled then before[job.repository := AcceptJob(At(before, job.repository), revision, job)] else before
  }

  function Said(revision: nat, jobs: seq<Job>): seq<Event> {
    if jobs == [] then []
    else
      var job := jobs[|jobs| - 1];
      Said(revision, jobs[..|jobs| - 1]) + if job.enabled then [ConfigSaid(job.repository, revision, job.retention.hasUnresolved)] else []
  }

  /** A configuration never takes back a newer proof of a complete backup, from any repository. */
  lemma {:induction false} AcceptedKeepsProof(state: map<Id, Runtime>, revision: nat, jobs: seq<Job>, repository: Id)
    ensures !NewerProof(At(state, repository).latest, At(Accepted(state, revision, jobs), repository).latest)
    ensures forall i | 0 <= i < |jobs| && jobs[i].enabled && jobs[i].repository == repository ::
              !NewerProof(jobs[i].retention.latest, At(Accepted(state, revision, jobs), repository).latest)
  {
    if jobs == [] {
      NewerProofOrders(At(state, repository).latest, None, None);
    } else {
      var rest, job := jobs[..|jobs| - 1], jobs[|jobs| - 1];
      var before := At(Accepted(state, revision, rest), repository).latest;
      var after := At(Accepted(state, revision, jobs), repository).latest;
      AcceptedKeepsProof(state, revision, rest, repository);
      assert after == before || after == Newest(job.retention.latest, before);
      forall i | 0 <= i < |jobs| && jobs[i].enabled && jobs[i].repository == repository
        ensures !NewerProof(jobs[i].retention.latest, after)
      {
        if i < |rest| {
          assert rest[i] == jobs[i];
        }
      }
    }
  }

  class MaintenanceBook {
    var state: map<Id, Runtime>
    var saved: map<Id, Runtime> // the copy in the runtime state on disk
    var revision: nat           // of the configuration in use
    ghost var history: seq<Event>
    ghost var savedHistory: seq<Event> // what had happened when that copy was written

    ghost predicate Valid()
      reads this
    {
      AllRemembered(history, state) && AllRemembered(savedHistory, saved)
    }

    constructor ()
      ensures Valid() && history == savedHistory == [] && state == map[]
    {
      state, saved, revision := map[], map[], 0;
      history, savedHistory := [], [];
    }

    /** Any of the places that write the runtime state. */
    method Save(ok: bool)
      requires Valid()
      modifies this`saved, this`savedHistory
      ensures Valid() && (ok ==> saved == state && savedHistory == history)
      ensures !ok ==> saved == old(saved) && savedHistory == old(savedHistory)
    {
      if ok {
        saved, savedHistory := state, history;
      }
    }

    method Crash()
      requires Valid()
      modifies this`state, this`history
      ensures Valid() && state == saved && history == savedHistory
    {
      state, history := saved, savedHistory;
    }

    /**
     * Before a maintenance run: while a block is not lifted the run is told of it, and it is given the
     * newest proof of a complete backup that the daemon or the configuration has.
     */
    method Prepare(job: Job, kind: RunKind, targeted: bool, journaled: Option<Plan>, now: nat)
      returns (retention: Retention, plan: Option<Plan>)
      requires Valid() && job.dataParts >= 1
      modifies this`state
      ensures Valid()
      ensures Blocked(history, job.repository) ==> retention.hasUnresolved
      ensures retention.hasUnresolved <==> job.retention.hasUnresolved || At(old(state), job.repository).unresolved
      ensures At(state, job.repository).unresolved <==> retention.hasUnresolved
      ensures retention == job.retention.(latest := retention.latest, hasUnresolved := retention.hasUnresolved)
      ensures retention.latest == At(state, job.repository).latest == Newest(job.retention.latest, At(old(state), job.repository).latest)
      ensures journaled.Some? ==> plan == journaled
      ensures journaled.None? && kind.CheckData? ==>
                plan == Some(EMPTY_PLAN.(kind := CheckData, dataPart := NextPart(At(old(state), job.repository), job.dataParts), dataTotal := job.dataParts)) &&
                NextPart(At(state, job.repository), job.dataParts) == plan.value.dataPart
      ensures journaled.None? && kind.Forget? && !targeted && job.afterBackup ==>
                plan == Some(EMPTY_PLAN.(combined := true, pruneAfter := PruneDue(At(old(state), job.repository).lastPrune, job.pruneInterval, now)))
      ensures journaled.None? && kind.Forget? && !targeted && job.afterBackup ==>
                (plan.value.pruneAfter <==> At(old(state), job.repository).lastPrune.None? ||
                                            now >= At(old(state), job.repository).lastPrune.value + job.pruneInterval)
      ensures journaled.None? && kind.CheckData? && At(old(state), job.repository).dataParts == job.dataParts &&
              1 <= At(old(state), job.repository).nextPart <= job.dataParts ==>
                plan.value.dataPart == At(old(state), job.repository).nextPart
      ensures journaled.None? && !kind.CheckData? && !(kind.Forget? && !targeted && job.afterBackup) ==> plan.None?
      ensures forall other | other != job.repository :: At(state, other) == At(old(state), other)
    {
      hide AllRemembered;
      var runtime := At(state, job.repository);
      if NewerProof(job.retention.latest, runtime.latest) {
        runtime := runtime.(latest := job.retention.latest);
      }
      retention := job.retention;
      if runtime.latest.Some? {
        retention := retention.(latest := runtime.latest);
      }
      retention := retention.(hasUnresolved := retention.hasUnresolved || runtime.unresolved);
      plan := journaled;
      if kind.Forget? && !targeted && job.afterBackup && plan.None? {
        var pruneDue := true;
        if runtime.lastPrune.Some? {
          pruneDue := !(now < runtime.lastPrune.value + job.pruneInterval);
        }
        plan := Some(EMPTY_PLAN.(combined := true, pruneAfter := pruneDue));
      }
      if kind.CheckData? && plan.None? {
        if runtime.dataParts != job.dataParts {
          runtime := runtime.(dataParts := job.dataParts, nextPart := 1);
        }
        if runtime.nextPart < 1 || runtime.nextPart > job.dataParts {
          runtime := runtime.(nextPart := 1);
        }
        plan := Some(EMPTY_PLAN.(kind := CheckData, dataPart := runtime.nextPart, dataTotal := job.dataParts));
      }
      if retention.hasUnresolved {
        runtime := runtime.(unresolved := true);
      }
      BlockIsRemembered(history, state, job.repository);
      RaiseRemembers(history, state, job.repository, runtime);
      state := state[job.repository := runtime];
    }

    /** After a run: an unknown outcome blocks the repository, a complete listing of it lifts the block. */
    method RecordOutcome(job: Job, result: Result, saves: bool)
      requires Valid() && job.dataParts >= 1
      modifies this`state, this`history, this`saved, this`savedHistory
      ensures Valid()
      ensures result.status.Unresolved? ==> Blocked(history, job.repository) && (saves ==> Blocked(savedHistory, job.repository))
      ensures result.status.Unresolved? ==> history == old(history) + [UnresolvedRun(job.repository)]
      ensures result.kind.SnapshotInventory? && result.status.Complete? && result.code.Success? && result.evidence.Some? && result.evidence.value.wholeRepository ==>
                !At(state, job.repository).unresolved
      ensures !result.status.Unresolved? && !result.kind.SnapshotInventory? ==> SameBlock(At(state, job.repository), At(old(state), job.repository))
      ensures result.kind.SnapshotInventory? && !result.status.Unresolved? &&
              (!result.status.Complete? || !result.code.Success? || result.evidence.None? || !result.evidence.value.wholeRepository) ==>
                SameBlock(At(state, job.repository), At(old(state), job.repository))
      ensures Lists(result) ==> !At(state, job.repository).unresolved
      ensures !result.status.Unresolved? && !Lists(result) ==> SameBlock(At(state, job.repository), At(old(state), job.repository)) && history == old(history)
      ensures result.kind.CheckData? && result.status.Complete? && result.code.Success? ==>
                NextPart(At(state, job.repository), job.dataParts) == Following(NextPart(At(old(state), job.repository), job.dataParts), job.dataParts)
      ensures At(state, job.repository).latest ==
                if result.kind.Backup? && result.status.Complete? && |result.snapshots| > 0 then Some(Proof(result.run, result.finishedAt, result.snapshots))
                else At(old(state), job.repository).latest
      ensures At(state, job.repository).lastPrune ==
                if result.kind.Forget? && result.pruneCompleted then Some(result.finishedAt) else At(old(state), job.repository).lastPrune
      ensures forall other | other != job.repository :: At(state, other) == At(old(state), other)
    {
      hide AllRemembered, Blocked;
      var runtime := At(state, job.repository);
      if result.kind.Backup? && result.status.Complete? && |result.snapshots| > 0 {
        runtime := runtime.(latest := Some(Proof(result.run, result.finishedAt, result.snapshots)));
      }
      ghost var event: Option<Event> := None;
      if result.status.Unresolved? {
        runtime := runtime.(unresolved := true, confirmed := false, atRevision := revision);
        event := Some(UnresolvedRun(job.repository));
      }
      if Lists(result) {
        runtime := runtime.(unresolved := false, confirmed := false, atRevision := 0);
        event := Some(CleanInventory(job.repository));
      }
      if result.kind.CheckData? && result.status.Complete? && result.code.Success? {
        var part := 1;
        if runtime.dataParts == job.dataParts && runtime.nextPart >= 1 && runtime.nextPart <= job.dataParts {
          part := runtime.nextPart;
        }
        runtime := runtime.(dataParts := job.dataParts, nextPart := part % job.dataParts + 1);
      }
      if result.kind.Forget? && result.pruneCompleted {
        runtime := runtime.(lastPrune := Some(result.finishedAt));
      }
      if event.Some? {
        AllRemember(history, event.value, state, runtime, revision);
        NewBlock(history, event.value);
        history := history + [event.value];
      } else {
        RaiseRemembers(history, state, job.repository, runtime);
      }
      state := state[job.repository := runtime];
      Save(saves);
    }

    /** A new configuration is the only other thing that may lift a block. */
    method AcceptConfig(newRevision: nat, jobs: seq<Job>)
      requires Valid()
      modifies this`state, this`history, this`revision
      ensures Valid()
      ensures state == Accepted(old(state), newRevision, jobs) && history == old(history) + Said(newRevision, jobs)
      ensures revision == newRevision
    {
      hide AllRemembered;
      for index := 0 to |jobs|
        invariant AllRemembered(history, state) && AllRemembered(savedHistory, saved)
        invariant state == Accepted(old(state), newRevision, jobs[..index])
        invariant history == old(history) + Said(newRevision, jobs[..index])
        modifies this`state, this`history
      {
        var job := jobs[index];
        assert jobs[..index + 1][..index] == jobs[..index];
        if job.enabled {
          var runtime := At(state, job.repository);
          if NewerProof(job.retention.latest, runtime.latest) {
            runtime := runtime.(latest := job.retention.latest);
          }
          if job.retention.hasUnresolved {
            runtime := runtime.(unresolved := true, confirmed := true, atRevision := newRevision);
          } else if runtime.unresolved && runtime.confirmed && newRevision > runtime.atRevision {
            runtime := runtime.(unresolved := false, confirmed := false, atRevision := 0);
          }
          if runtime.dataParts != 0 && runtime.dataParts != job.dataParts {
            runtime := runtime.(dataParts := job.dataParts, nextPart := 1);
          }
          AllRemember(history, ConfigSaid(job.repository, newRevision, job.retention.hasUnresolved), state, runtime, newRevision);
          history := history + [ConfigSaid(job.repository, newRevision, job.retention.hasUnresolved)];
          state := state[job.repository := runtime];
        }
      }
      assert jobs[..|jobs|] == jobs;
      revision := newRevision;
    }
  }

  /** A finished inventory that listed the whole repository. */
  predicate Lists(result: Result) {
    result.kind.SnapshotInventory? && result.status.Complete? && result.code.Success? &&
    result.evidence.Some? && result.evidence.value.wholeRepository
  }

  predicate PruneDue(lastPrune: Option<nat>, interval: nat, now: nat) {
    lastPrune.Some? ==> now >= lastPrune.value + interval
  }

  lemma BlockIsRemembered(history: seq<Event>, state: map<Id, Runtime>, repository: Id)
    requires AllRemembered(history, state)
    ensures Blocked(history, repository) ==> At(state, repository).unresolved
  {
    assert Remembers(history, repository, At(state, repository));
  }

  lemma NewBlock(history: seq<Event>, event: Event)
    ensures event.UnresolvedRun? ==> Blocked(history + [event], event.repository)
  {
    if event.UnresolvedRun? {
      assert (history + [event])[|history|] == event;
    }
  }
}

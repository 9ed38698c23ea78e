/**
 * agent/maintenance.go: the retention engine. One call lists the repository, protects the recovery
 * points, saves a plan, forgets in batches, lists again, and prunes when the run combines both.
 */
module RetentionEngine {
  import opened Cardinality
  import opened MaintenanceTypes
  import opened Options
  import opened ResticRepositories
  import opened SnapshotSets

  const BATCH: nat := 100

  function ResultCode(exit: nat): Code {
    match exit
    case 10 => RepositoryMissing
    case 11 => RepositoryLocked
    case 12 => AuthenticationFailed
    case _ => ExecutionFailed
  }

  /** How a Restic exit is reported. */
  function MaintenanceResult(base: Result, response: Response): Result {
    if response.exit == 0 then base.(status := Complete, code := Success)
    else if response.cancelled then
      if response.deadline then base.(status := Failed, code := TimedOut) else base.(status := CancelledRun, code := Cancelled)
    else base.(status := Failed, code := ResultCode(response.exit))
  }

  /** What an exit says: success is 0 and nothing else. */
  lemma ExitsMean(base: Result, response: Response)
    ensures var result := MaintenanceResult(base, response);
            && (result.status.Complete? <==> response.exit == 0)
            && (response.exit != 0 && response.cancelled && !response.deadline ==> result.status.CancelledRun?)
            && (response.exit != 0 && response.cancelled && response.deadline ==> result.status.Failed? && result.code.TimedOut?)
            && (response.exit != 0 && !response.cancelled ==> result.status.Failed?)
            && (response.exit == 10 && !response.cancelled ==> result.code.RepositoryMissing?)
            && (response.exit == 11 && !response.cancelled ==> result.code.RepositoryLocked?)
            && (response.exit == 12 && !response.cancelled ==> result.code.AuthenticationFailed?)
            && (response.exit !in {0, 10, 11, 12} && !response.cancelled ==> result.code.ExecutionFailed?)
  {
  }

  /** The snapshots of the latest complete backup, by its run or, where that run has none, by their ids. */
  function ProofIds(records: seq<Record>, proof: Proof): set<Id> {
    var own := OfRuns(records, {proof.run});
    if own != {} then own else LocalIds(records, proof.snapshots)
  }

  /** What this repository must keep. */
  function Protected(records: seq<Record>, retention: Retention, proof: Proof): set<Id> {
    ProofIds(records, proof) + LocalIds(records, retention.protectedSnapshots) + OfRuns(records, Elements(retention.protectedRuns))
  }

  predicate RunOf(record: Record, runs: seq<Id>) {
    exists run :: run in runs && RunTag(run) in record.tags
  }

  /**
   * What the repository must keep, by its listing: a snapshot of a protected run or of the proof's run; what a
   * protected id means here; and where nothing has the proof's run, what an id of the proof means.
   */
  ghost predicate Kept(records: seq<Record>, retention: Retention, proof: Proof, i: nat)
    requires i < |records|
  {
    || RunOf(records[i], retention.protectedRuns)
    || RunTag(proof.run) in records[i].tags
    || (exists id :: id in retention.protectedSnapshots && LastNamed(records, id, i))
    || ((forall j | 0 <= j < |records| :: RunTag(proof.run) !in records[j].tags) &&
        exists id :: id in proof.snapshots && LastNamed(records, id, i))
  }

  /** An id that is protected although the listing has nothing of that name. */
  ghost predicate Missed(records: seq<Record>, retention: Retention, proof: Proof, id: Id) {
    && (forall i | 0 <= i < |records| :: !Names(records[i], id))
    && (id in retention.protectedSnapshots ||
        (id in proof.snapshots && forall j | 0 <= j < |records| :: RunTag(proof.run) !in records[j].tags))
  }

  lemma RunListed(records: seq<Record>, runs: seq<Id>)
    ensures forall i | 0 <= i < |records| && RunOf(records[i], runs) :: records[i].id in OfRuns(records, Elements(runs))
    ensures forall id | id in OfRuns(records, Elements(runs)) :: exists i :: 0 <= i < |records| && records[i].id == id && RunOf(records[i], runs)
  {
    hide OfRuns, RunTags;
    forall i | 0 <= i < |records| ensures OfRun(records[i], Elements(runs)) <==> RunOf(records[i], runs) {
      if OfRun(records[i], Elements(runs)) {
        var run :| run in RunTags(records[i].tags) * Elements(runs);
        RunTagsMembers(records[i].tags, run);
      }
      if run :| run in runs && RunTag(run) in records[i].tags {
        RunTagsMembers(records[i].tags, run);
        assert run in RunTags(records[i].tags) * Elements(runs);
      }
    }
    forall i | 0 <= i < |records| && RunOf(records[i], runs) ensures records[i].id in OfRuns(records, Elements(runs)) {
      OfRunsMembers(records, Elements(runs), records[i].id);
    }
    forall id | id in OfRuns(records, Elements(runs)) ensures exists i :: 0 <= i < |records| && records[i].id == id && RunOf(records[i], runs) {
      OfRunsMembers(records, Elements(runs), id);
    }
  }

  lemma IdsListed(records: seq<Record>, ids: seq<Id>)
    ensures forall i, id | 0 <= i < |records| && id in ids && LastNamed(records, id, i) :: records[i].id in LocalIds(records, ids)
    ensures forall local | local in LocalIds(records, ids) ::
              || (exists i, id :: 0 <= i < |records| && records[i].id == local && id in ids && LastNamed(records, id, i))
              || (local in ids && forall i | 0 <= i < |records| :: !Names(records[i], local))
    ensures forall id | id in ids && (forall i | 0 <= i < |records| :: !Names(records[i], id)) :: id in LocalIds(records, ids)
  {
    hide Names, LocalId;
    forall id | id in ids && (forall i | 0 <= i < |records| :: !Names(records[i], id)) ensures id in LocalIds(records, ids) {
      LocalIdIsLastNamed(records, id);
    }
    hide LastNamed;
    forall i, id | 0 <= i < |records| && id in ids && LastNamed(records, id, i) ensures records[i].id in LocalIds(records, ids) {
      LocalIdIsLastNamed(records, id);
    }
    forall local | local in LocalIds(records, ids)
      ensures || (exists i, id :: 0 <= i < |records| && records[i].id == local && id in ids && LastNamed(records, id, i))
              || (local in ids && forall i | 0 <= i < |records| :: !Names(records[i], local))
    {
      var id :| id in ids && local == LocalId(records, id);
      LocalIdIsLastNamed(records, id);
      if i :| 0 <= i < |records| && LastNamed(records, id, i) {
        assert records[i].id == local;
      }
    }
  }

  /** Protected are exactly the snapshots to keep, and ids that nothing in the listing goes by. */
  lemma ProtectedIsKept(records: seq<Record>, retention: Retention, proof: Proof)
    ensures forall i | 0 <= i < |records| && Kept(records, retention, proof, i) :: records[i].id in Protected(records, retention, proof)
    ensures forall id | id in Protected(records, retention, proof) ::
              (exists i :: 0 <= i < |records| && records[i].id == id && Kept(records, retention, proof, i)) || Missed(records, retention, proof, id)
    ensures forall id | Missed(records, retention, proof, id) :: id in Protected(records, retention, proof)
  {
    hide OfRuns, LocalIds, LastNamed, Names;
    RunListed(records, [proof.run]);
    RunListed(records, retention.protectedRuns);
    IdsListed(records, retention.protectedSnapshots);
    IdsListed(records, proof.snapshots);
    assert Elements([proof.run]) == {proof.run};
    forall i | 0 <= i < |records| ensures RunOf(records[i], [proof.run]) <==> RunTag(proof.run) in records[i].tags {
      assert proof.run in [proof.run];
    }
    ProofListed(records, proof);
  }

  lemma ProofListed(records: seq<Record>, proof: Proof)
    ensures OfRuns(records, {proof.run}) == {} <==> forall j | 0 <= j < |records| :: RunTag(proof.run) !in records[j].tags
  {
    hide OfRuns;
    RunListed(records, [proof.run]);
    assert Elements([proof.run]) == {proof.run};
    if OfRuns(records, {proof.run}) != {} {
      var id :| id in OfRuns(records, {proof.run});
      var i :| 0 <= i < |records| && records[i].id == id && RunOf(records[i], [proof.run]);
      assert RunTag(proof.run) in records[i].tags;
    }
    if j :| 0 <= j < |records| && RunTag(proof.run) in records[j].tags {
      assert proof.run in [proof.run] && RunOf(records[j], [proof.run]);
    }
  }

  /** When all that is protected is listed, nothing was missed, and the other way round. */
  lemma NothingMissed(records: seq<Record>, retention: Retention, proof: Proof)
    ensures Protected(records, retention, proof) <= Ids(records) <==> forall id :: !Missed(records, retention, proof, id)
  {
    ProtectedIsKept(records, retention, proof);
    hide Kept, Protected;
    if id :| Missed(records, retention, proof, id) {
      IdsMembers(records, id);
      assert id in Protected(records, retention, proof) && id !in Ids(records);
    } else {
      forall id | id in Protected(records, retention, proof) ensures id in Ids(records) {
        IdsMembers(records, id);
      }
    }
  }

  /** Whatever spares what is protected spares every snapshot to keep. */
  lemma SparesKept(records: seq<Record>, retention: Retention, proof: Proof, asked: set<Id>)
    requires asked * Protected(records, retention, proof) == {}
    ensures forall i | 0 <= i < |records| && Kept(records, retention, proof, i) :: records[i].id !in asked
  {
    ProtectedIsKept(records, retention, proof);
    hide Kept, Protected;
    forall i | 0 <= i < |records| && Kept(records, retention, proof, i) ensures records[i].id !in asked {
      assert records[i].id !in asked * Protected(records, retention, proof);
    }
  }

  /** Where snapshots have names of their own, a listed one is protected exactly when it is to be kept. */
  lemma KeptExactly(records: seq<Record>, retention: Retention, proof: Proof)
    requires DistinctIds(records)
    ensures forall i | 0 <= i < |records| :: records[i].id in Protected(records, retention, proof) <==> Kept(records, retention, proof, i)
  {
    ProtectedIsKept(records, retention, proof);
    hide Kept, Protected;
    forall i | 0 <= i < |records| && records[i].id in Protected(records, retention, proof) ensures Kept(records, retention, proof, i) {
      assert Names(records[i], records[i].id);
      var j :| 0 <= j < |records| && records[j].id == records[i].id && Kept(records, retention, proof, j);
      assert i == j;
    }
  }

  /** Nothing protected was removed, so all of it is protected still, and nothing else. */
  lemma ProtectedStays(first: seq<Record>, now: seq<Record>, retention: Retention, proof: Proof)
    requires Part(now, first) && Protected(first, retention, proof) <= Ids(now)
    ensures Protected(now, retention, proof) == Protected(first, retention, proof)
  {
    var gone: set<Id> :| now == Without(first, gone);
    WithoutIds(first, gone);
    assert Protected(first, retention, proof) * gone == {};
    WithoutOfRuns(first, gone, {proof.run});
    WithoutOfRuns(first, gone, Elements(retention.protectedRuns));
    LocalIdsStay(first, gone, retention.protectedSnapshots);
    if OfRuns(first, {proof.run}) == {} {
      LocalIdsStay(first, gone, proof.snapshots);
    }
  }

  lemma LocalIdsStay(records: seq<Record>, gone: set<Id>, ids: seq<Id>)
    requires LocalIds(records, ids) * gone == {}
    ensures LocalIds(Without(records, gone), ids) == LocalIds(records, ids)
  {
    forall id | id in ids ensures LocalId(Without(records, gone), id) == LocalId(records, id) {
      var local := LocalId(records, id);
      assert local in LocalIds(records, ids);
      assert local in LocalIds(records, ids) * gone <==> local in gone;
      WithoutLocalId(records, gone, id);
    }
  }

  predicate Planned(plan: Option<Plan>) {
    plan.Some? && (plan.value.forgetPlanned || plan.value.candidates != [] || plan.value.protected != [])
  }

  /** What an existing plan forgets in this repository: the snapshots of its runs, if it names any. */
  function Replayed(records: seq<Record>, plan: Plan): set<Id> {
    if plan.candidateRuns != [] then OfRuns(records, Elements(plan.candidateRuns)) else Elements(plan.candidates)
  }

  /** A plan made for this repository. */
  ghost predicate PlanFor(plan: Plan, records: seq<Record>, protected: set<Id>, chosen: set<Id>) {
    && plan.kind.Forget? && plan.forgetPlanned
    && Elements(plan.candidates) == chosen && Distinct(plan.candidates)
    && Elements(plan.protected) == protected && |plan.protected| == |protected|
    && Elements(plan.candidateRuns) == RunsOf(records, chosen)
  }

  /** The plan as it was, up to how far the prune has come, is what the run has in mind. */
  predicate Keeps(before: Option<Plan>, current: Option<Plan>, plan: Plan) {
    current == before ||
    (current.Some? && current.value == plan.(pruneStarted := current.value.pruneStarted, pruneCompleted := current.value.pruneCompleted))
  }

  /** The counts that belong to candidates and the snapshots that are left. */
  function Settled(chosen: set<Id>, after: set<Id>, protected: nat): Statistics {
    Statistics(|after + chosen|, |chosen - after|, |after|, protected)
  }

  /** Everything considered is either removed or retained. */
  lemma SettledBalances(chosen: set<Id>, after: set<Id>, protected: nat)
    ensures var s := Settled(chosen, after, protected);
            s.removed + s.retained == s.considered && s.removed >= 0 && s.retained >= 0
  {
    assert after + chosen == after + (chosen - after);
  }

  function Verdict(chosen: set<Id>, after: set<Id>): (Status, Code) {
    if chosen * after == {} then (Complete, Success)
    else if chosen - after != {} then (Partial, SnapshotRemovalIncomplete)
    else (Failed, ExecutionFailed)
  }

  /** A run that removed nothing reports why its last forget failed. */
  function LiveVerdict(base: Result, chosen: set<Id>, after: set<Id>, failure: Option<Response>): (Status, Code) {
    if chosen * after != {} && chosen - after == {} && failure.Some? then
      (MaintenanceResult(base, failure.value).status, MaintenanceResult(base, failure.value).code)
    else Verdict(chosen, after)
  }

  method MaintenanceStatistics(inventory: int, candidates: int, remaining: int, protected: int) returns (statistics: Statistics)
    ensures statistics == Statistics(inventory, candidates - remaining, inventory - candidates + remaining, protected)
  {
    statistics := Statistics(inventory, candidates - remaining, inventory - candidates + remaining, protected);
  }

  /** Counting once before and once after gives the settled counts, when only candidates can have gone. */
  lemma LiveCounts(chosen: set<Id>, before: set<Id>, after: set<Id>, protected: nat)
    requires after <= before <= after + chosen
    ensures |before| + |chosen - before| == |after + chosen|
    ensures Statistics(|before| + |chosen - before|, |chosen| - |chosen * after|,
                       |before| + |chosen - before| - |chosen| + |chosen * after|, protected) == Settled(chosen, after, protected)
  {
    assert before + (chosen - before) == after + chosen;
    assert after + chosen == after + (chosen - after);
    assert chosen == (chosen - after) + (chosen * after);
  }

  /** So does counting only afterwards. */
  lemma ReconciledCounts(chosen: set<Id>, after: set<Id>, protected: nat)
    ensures Statistics(|after| + (|chosen| - |chosen * after|), |chosen| - |chosen * after|,
                       |after| + (|chosen| - |chosen * after|) - |chosen| + |chosen * after|, protected) == Settled(chosen, after, protected)
  {
    assert after + chosen == after + (chosen - after);
    assert chosen == (chosen - after) + (chosen * after);
  }

  method Inventory(records: seq<Record>) returns (inventory: set<Id>)
    ensures inventory == Ids(records)
  {
    inventory := {};
    for i := 0 to |records|
      invariant inventory == Ids(records[..i])
    {
      PrefixAppend(records, i);
      inventory := inventory + {records[i].id};
    }
    assert records[..|records|] == records;
  }

  method ProtectedIds(records: seq<Record>, retention: Retention, proof: Proof) returns (protected: set<Id>)
    ensures protected == Protected(records, retention, proof)
  {
    hide Elements, OfRuns, LocalIds;
    var proofIds := SnapshotIdsForRunIds(records, [proof.run]);
    OneElement(proof.run);
    NoElements([]);
    if |proofIds| == 0 {
      NoElements(proofIds);
      proofIds := RepositorySnapshotIds(records, proof.snapshots);
    } else {
      InElements(proofIds, proofIds[0]);
    }
    protected := AddAll({}, proofIds);
    var more := RepositorySnapshotIds(records, retention.protectedSnapshots);
    protected := AddAll(protected, more);
    more := SnapshotIdsForRunIds(records, retention.protectedRuns);
    protected := AddAll(protected, more);
  }

  lemma OneElement(x: Id)
    ensures Elements([x]) == {x}
  {
  }

  method AddAll(before: set<Id>, values: seq<Id>) returns (result: set<Id>)
    ensures result == before + Elements(values)
  {
    result := before;
    for i := 0 to |values|
      invariant result == before + Elements(values[..i])
    {
      AppendElements(values[..i], values[i]);
      assert values[..i + 1] == values[..i] + [values[i]];
      result := result + {values[i]};
    }
    assert values[..|values|] == values;
  }

  /** Snapshots, or for databases the anchors that stand for their whole run. */
  method AllOrAnchors(records: seq<Record>, database: bool) returns (result: seq<Id>)
    requires DistinctIds(records)
    ensures Elements(result) == if database then Anchors(records) else Ids(records)
    ensures Distinct(result)
  {
    result := [];
    for i := 0 to |records|
      invariant Elements(result) == (if database then Anchors(records[..i]) else Ids(records[..i])) && Distinct(result)
    {
      PrefixAppend(records, i);
      if !database || AnchorTag in records[i].tags {
        AppendElements(result, records[i].id);
        NotYet(records, i);
        AnchorsWithin(records[..i]);
        InElements(result, records[i].id);
        AppendDistinct(result, records[i].id);
        result := result + [records[i].id];
      }
    }
    assert records[..|records|] == records;
  }

  function Anchors(records: seq<Record>): set<Id> {
    if records == [] then {}
    else
      var last := records[|records| - 1];
      Anchors(records[..|records| - 1]) + if AnchorTag in last.tags then {last.id} else {}
  }

  lemma {:induction false} AnchorsListed(records: seq<Record>, id: Id)
    ensures id in Anchors(records) <==> exists i :: 0 <= i < |records| && records[i].id == id && AnchorTag in records[i].tags
  {
    if records != [] {
      var n := |records| - 1;
      AnchorsListed(records[..n], id);
      if id in Anchors(records[..n]) {
        var i :| 0 <= i < n && records[..n][i].id == id && AnchorTag in records[..n][i].tags;
        assert records[i].id == id && AnchorTag in records[i].tags;
      }
      if i :| 0 <= i < |records| && records[i].id == id && AnchorTag in records[i].tags {
        assert i < n ==> records[..n][i] == records[i];
      }
    }
  }

  lemma AnchorsWithin(records: seq<Record>)
    ensures Anchors(records) <= Ids(records)
  {
    if records != [] {
      AnchorsWithin(records[..|records| - 1]);
    }
  }

  /** The snapshots that were asked for, with their whole runs for databases, as far as they are there. */
  function TargetSet(records: seq<Record>, targets: set<Id>, database: bool): set<Id> {
    (if database then Expanded(records, targets) else targets) * Ids(records)
  }

  /** Something that was asked for is protected, or for databases something of its runs. */
  predicate Refused(records: seq<Record>, targets: set<Id>, database: bool, protected: set<Id>) {
    targets * protected != {} || (database && Expanded(records, targets) * protected != {})
  }

  method TargetCandidates(records: seq<Record>, inventory: set<Id>, protected: set<Id>, targets: seq<Id>, database: bool)
    returns (candidates: seq<Id>, refused: bool)
    requires inventory == Ids(records)
    ensures refused <==> Refused(records, Elements(targets), database, protected)
    ensures !refused ==> Elements(candidates) == TargetSet(records, Elements(targets), database) &&
                         Elements(candidates) * protected == {} && Distinct(candidates)
  {
    hide Elements, Expanded, Ids;
    candidates := targets;
    refused := IntersectsProtected(candidates, protected);
    if refused {
      return;
    }
    if database {
      candidates := ExpandDatabaseRunCandidates(records, candidates);
    }
    refused := IntersectsProtected(candidates, protected);
    if refused {
      return;
    }
    var present := {};
    NoElements(candidates[..0]);
    for i := 0 to |candidates|
      invariant present == Elements(candidates[..i]) * inventory
    {
      AppendElements(candidates[..i], candidates[i]);
      assert candidates[..i + 1] == candidates[..i] + [candidates[i]];
      if candidates[i] in inventory {
        present := present + {candidates[i]};
      }
    }
    assert candidates[..|candidates|] == candidates;
    candidates := SnapshotIds(present);
  }

  /** What an empty policy gives up: everything, or every run that has an anchor. */
  function EverythingBut(records: seq<Record>, database: bool, protected: set<Id>): set<Id> {
    (if database then Expanded(records, Anchors(records)) else Ids(records)) - protected
  }

  /** The run ended because an answer of Restic could not be used, and is reported as that answer. */
  ghost predicate Unreadable(trace: seq<Action>, from: nat, base: Result, result: Result) {
    exists i :: from <= i < |trace| && trace[i].Ran? && trace[i].response.listing.None? && trace[i].response.plan.None? &&
                result == MaintenanceResult(base, trace[i].response)
  }

  lemma UnreadableNow(trace: seq<Action>, from: nat, base: Result)
    requires from < |trace| && trace[|trace| - 1].Ran? && trace[|trace| - 1].response.listing.None? && trace[|trace| - 1].response.plan.None?
    ensures Unreadable(trace, from, base, MaintenanceResult(base, trace[|trace| - 1].response))
  {
  }

  lemma UnreadableEarlier(trace: seq<Action>, from: nat, later: nat, base: Result, result: Result)
    requires Unreadable(trace, later, base, result) && from <= later
    ensures Unreadable(trace, from, base, result)
  {
  }

  /** Retention by policy; Restic itself decides what a policy gives up, and may name anything. */
  method PolicyCandidates(repo: Repository, job: Job, records: seq<Record>, protected: set<Id>, base: Result, ghost from: nat, ghost unplanned: bool)
    returns (candidates: seq<Id>, stopped: Option<Result>)
    requires repo.Valid() && DistinctIds(records) && from <= |repo.trace|
    requires unplanned ==> Orderly(repo.trace, from)
    modifies repo`clock, repo`records, repo`trace, repo`prepared
    ensures repo.Valid() && repo.records == old(repo.records) && old(repo.trace) <= repo.trace
    ensures unplanned ==> Orderly(repo.trace, from)
    ensures Asked(repo.trace, from) == Asked(old(repo.trace), from)
    ensures Cleared(old(repo.trace), from, |old(repo.trace)|, {}) ==> Cleared(repo.trace, from, |repo.trace|, {})
    ensures stopped.None? ==> Elements(candidates) * protected == {} && Distinct(candidates)
    ensures job.retention.policyEmpty ==> stopped.None? && Elements(candidates) == EverythingBut(records, job.database, protected)
    ensures stopped.Some? ==> Unreadable(repo.trace, |old(repo.trace)|, base, stopped.value)
    ensures !job.retention.policyEmpty && stopped.None? ==>
              ByPolicy(repo.trace, |old(repo.trace)|, records, job.database, protected, Elements(candidates))
  {
    hide Elements, Expanded, Ids, Anchors, DistinctIds, Orderly, Asked, Extends, Cleared, ByPolicy;
    stopped := None;
    if job.retention.policyEmpty {
      candidates := AllOrAnchors(records, job.database);
    } else {
      var response := repo.Run(ForgetPlan(job.database));
      AfterRun(old(repo.trace), repo.trace, from, ForgetPlan(job.database), response, unplanned);
      if Cleared(old(repo.trace), from, |old(repo.trace)|, {}) {
        ClearedAfterRun(old(repo.trace), repo.trace, from, ForgetPlan(job.database), response, {});
      }
      if response.plan.None? {
        UnreadableNow(repo.trace, |old(repo.trace)|, base);
        return [], Some(MaintenanceResult(base, response));
      }
      candidates := UniqueIds(response.plan.value);
    }
    if job.database {
      candidates := ExpandDatabaseRunCandidates(records, candidates);
    }
    candidates := WithoutProtected(candidates, protected);
    if !job.retention.policyEmpty {
      ByPolicyNow(repo.trace, |old(repo.trace)|, records, job.database, protected, Elements(candidates));
    }
  }

  /** That answer of `forget`. */
  predicate Failing(action: Action, response: Response) {
    IsForget(action) && action.response == response
  }

  /** A listing of what is left could not be read. */
  predicate Unlisted(trace: seq<Action>) {
    trace != [] && var last := trace[|trace| - 1]; last.Ran? && last.request.operation.Snapshots? && last.response.listing.None?
  }

  /** How the second half of a combined run is told, once nothing is left to remove. */
  predicate PruneTold(result: Result, combined: bool, due: bool) {
    if !combined then result.pruneState.NotCombined? && !result.pruneCompleted && result.status.Complete?
    else if !due then result.pruneState.NotDue? && !result.pruneCompleted && result.status.Complete?
    else if result.pruneCompleted then result.pruneState.PruneDone? && result.status.Complete?
    else result.pruneState in {PruneFailed, PruneTimedOut, PruneCancelled, PruneUnresolved} && !result.status.Complete?
  }

  /** Restic's own proposal, with whole groups for databases, less what is protected. */
  ghost predicate ByPolicy(trace: seq<Action>, from: nat, records: seq<Record>, database: bool, protected: set<Id>, chosen: set<Id>) {
    exists i :: from <= i < |trace| && trace[i].Ran? && trace[i].response.plan.Some? &&
                chosen == (if database then Expanded(records, Elements(trace[i].response.plan.value)) else Elements(trace[i].response.plan.value)) - protected
  }

  lemma ByPolicyNow(trace: seq<Action>, from: nat, records: seq<Record>, database: bool, protected: set<Id>, chosen: set<Id>)
    requires from < |trace| && trace[|trace| - 1].Ran? && trace[|trace| - 1].response.plan.Some?
    requires var proposed := Elements(trace[|trace| - 1].response.plan.value);
             chosen == (if database then Expanded(records, proposed) else proposed) - protected
    ensures ByPolicy(trace, from, records, database, protected, chosen)
  {
  }

  lemma ByPolicyStays(trace: seq<Action>, after: seq<Action>, from: nat, later: nat, records: seq<Record>, database: bool, protected: set<Id>, chosen: set<Id>)
    requires trace <= after && from <= later
    ensures ByPolicy(trace, later, records, database, protected, chosen) ==> ByPolicy(after, from, records, database, protected, chosen)
  {
    hide Expanded, Elements;
    if ByPolicy(trace, later, records, database, protected, chosen) {
      var i :| later <= i < |trace| && trace[i].Ran? && trace[i].response.plan.Some? &&
               chosen == (if database then Expanded(records, Elements(trace[i].response.plan.value)) else Elements(trace[i].response.plan.value)) - protected;
      assert after[i] == trace[i];
    }
  }

  /** Hands all candidates to `forget`, a hundred at a time, and stops at the first failure. */
  method ForgetBatches(repo: Repository, candidates: seq<Id>, ghost from: nat, ghost unplanned: bool) returns (failure: Option<Response>)
    requires repo.Valid() && from <= |repo.trace|
    requires unplanned ==> Orderly(repo.trace, from) && Announced(repo.trace, from, |repo.trace|, Elements(candidates))
    modifies repo`clock, repo`records, repo`trace, repo`prepared
    ensures repo.Valid() && from <= |repo.trace| && old(repo.trace) <= repo.trace
    ensures unplanned ==> Orderly(repo.trace, from)
    ensures Asked(repo.trace, from) <= Asked(old(repo.trace), from) + Elements(candidates)
    ensures failure.None? ==> Asked(repo.trace, from) == Asked(old(repo.trace), from) + Elements(candidates)
    ensures failure.Some? ==> failure.value.exit != 0 && |repo.trace| > |old(repo.trace)| && Failing(repo.trace[|repo.trace| - 1], failure.value)
    ensures Ids(old(repo.records)) - Elements(candidates) <= Ids(repo.records) <= Ids(old(repo.records))
    ensures Part(repo.records, old(repo.records))
  {
    hide Part, Elements, Ids, DistinctIds, Orderly, Asked, Announced, Extends;
    failure := None;
    var offset := 0;
    PartItself(repo.records);
    NoElements(candidates[..0]);
    while offset < |candidates|
      invariant repo.Valid() && offset <= |candidates| && from <= |repo.trace| && old(repo.trace) <= repo.trace
      invariant unplanned ==> Orderly(repo.trace, from) && Announced(repo.trace, from, |repo.trace|, Elements(candidates))
      invariant Asked(repo.trace, from) == Asked(old(repo.trace), from) + Elements(candidates[..offset])
      invariant Part(repo.records, old(repo.records))
      invariant Ids(old(repo.records)) - Elements(candidates) <= Ids(repo.records) <= Ids(old(repo.records))
      modifies repo`clock, repo`records, repo`trace, repo`prepared
    {
      var end := if offset + BATCH < |candidates| then offset + BATCH else |candidates|;
      var batch := candidates[offset..end];
      ghost var before := repo.trace;
      BatchElements(candidates, offset, end);
      if unplanned {
        AnnouncedPart(before, from, Elements(candidates), Elements(batch));
      }
      ghost var was := repo.records;
      var response := repo.Run(ForgetIds(batch));
      PartOf(repo.records, was, old(repo.records));
      AfterRun(before, repo.trace, from, ForgetIds(batch), response, unplanned);
      if unplanned {
        AnnouncedAfterRun(before, repo.trace, from, ForgetIds(batch), response, Elements(candidates));
      }
      if response.exit != 0 {
        return Some(response);
      }
      offset := end;
    }
    assert candidates[..offset] == candidates;
  }

  lemma BatchElements(candidates: seq<Id>, offset: nat, end: nat)
    requires offset <= end <= |candidates|
    ensures Elements(candidates[..offset]) + Elements(candidates[offset..end]) == Elements(candidates[..end])
    ensures Elements(candidates[offset..end]) <= Elements(candidates) && Elements(candidates[..end]) <= Elements(candidates)
  {
    assert candidates[..end] == candidates[..offset] + candidates[offset..end];
  }

  /** The run really pruned, and that is durable. */
  ghost predicate PruneRecorded(trace: seq<Action>, from: nat) {
    && from + 2 <= |trace|
    && trace[|trace| - 1].Persisted? && trace[|trace| - 1].ok && trace[|trace| - 1].plan.pruneCompleted
    && IsPrune(trace[|trace| - 2]) && trace[|trace| - 2].response.exit == 0
  }

  /** The second half of a combined run. */
  method FinishRetention(repo: Repository, base: Result, plan: Plan, ghost from: nat, ghost unplanned: bool) returns (result: Result)
    requires repo.Valid() && from <= |repo.trace| && !base.pruneCompleted
    requires unplanned ==> Orderly(repo.trace, from) && Cleared(repo.trace, from, |repo.trace|, Elements(plan.candidates))
    modifies repo`clock, repo`records, repo`trace, repo`prepared, repo`current
    ensures repo.Valid() && repo.records == old(repo.records) && from <= |repo.trace| && old(repo.trace) <= repo.trace
    ensures unplanned ==> Orderly(repo.trace, from)
    ensures Asked(repo.trace, from) == Asked(old(repo.trace), from)
    ensures result.pruneCompleted <==> result.pruneState.PruneDone?
    ensures result.pruneCompleted ==> PruneRecorded(repo.trace, from) && result.status == base.status
    ensures result.statistics == base.statistics && result.evidence == base.evidence
    ensures !plan.combined ==> result == base.(pruneState := NotCombined) && repo.trace == old(repo.trace) && repo.current == old(repo.current)
    ensures plan.combined && !plan.pruneAfter ==> result == base.(pruneState := NotDue) && repo.trace == old(repo.trace)
    ensures Keeps(old(repo.current), repo.current, plan)
    ensures !repo.primary ==> repo.current == old(repo.current)
    ensures plan.combined && plan.pruneAfter && !result.pruneCompleted ==>
              result.pruneState in {PruneFailed, PruneTimedOut, PruneCancelled, PruneUnresolved} && result.status != Complete
  {
    hide Orderly, Cleared, Asked, Extends, Elements, DistinctIds;
    if !plan.combined {
      return base.(pruneState := NotCombined);
    }
    if !plan.pruneAfter {
      return base.(pruneState := NotDue);
    }
    var updated := plan.(pruneStarted := true);
    ghost var before := repo.trace;
    var ok := repo.Persist(updated);
    AfterPersist(before, updated, ok, from, unplanned);
    if !ok {
      return base.(status := Failed, code := ExecutionFailed, pruneState := PruneFailed);
    }
    if unplanned {
      PruneBecomesDue(before, updated, from);
    }
    before := repo.trace;
    var response := repo.Run(PruneRepository);
    AfterRun(before, repo.trace, from, PruneRepository, response, unplanned);
    if response.exit != 0 {
      return MaintenanceResult(base, response).(pruneState := PruneStatus(response));
    }
    updated := updated.(pruneCompleted := true);
    before := repo.trace;
    ok := repo.Persist(updated);
    AfterPersist(before, updated, ok, from, unplanned);
    if !ok {
      return base.(status := Unresolved, code := OutcomeUnresolved, pruneState := PruneUnresolved);
    }
    result := base.(pruneCompleted := true, pruneState := PruneDone);
  }

  function PruneStatus(response: Response): PruneState {
    if !response.cancelled then PruneFailed else if response.deadline then PruneTimedOut else PruneCancelled
  }

  method CountMissing(candidates: seq<Id>, inventory: set<Id>) returns (count: nat)
    requires Distinct(candidates)
    ensures count == |Elements(candidates) - inventory|
  {
    hide Elements;
    count := 0;
    NoElements(candidates[..0]);
    for i := 0 to |candidates|
      invariant count == |Elements(candidates[..i]) - inventory|
    {
      AppendElements(candidates[..i], candidates[i]);
      InElements(candidates[..i], candidates[i]);
      assert candidates[..i + 1] == candidates[..i] + [candidates[i]];
      MissingOneMore(Elements(candidates[..i]), candidates[i], inventory);
      if candidates[i] !in inventory {
        count := count + 1;
      }
    }
    assert candidates[..|candidates|] == candidates;
  }

  lemma MissingOneMore(seen: set<Id>, x: Id, inventory: set<Id>)
    requires x !in seen
    ensures |seen + {x} - inventory| == |seen - inventory| + if x in inventory then 0 else 1
  {
    if x in inventory {
      assert seen + {x} - inventory == seen - inventory;
    } else {
      assert seen + {x} - inventory == seen - inventory + {x};
    }
  }

  /** How a run over these candidates is reported, given what is left of the repository. */
  ghost predicate Reported(result: Result, base: Result, chosen: set<Id>, after: set<Id>, protected: nat, combined: bool, failure: Option<Response>) {
    && (result.statistics.Some? ==> result.statistics == Some(Settled(chosen, after, protected)))
    && (result.statistics.Some? && (!combined || chosen * after != {}) ==> (result.status, result.code) == LiveVerdict(base, chosen, after, failure))
    && (result.statistics.Some? ==> result.evidence == Some(Evidence(true, after)))
    && (result.statistics.Some? && chosen * after != {} ==> result.pruneState.NotCombined? && !result.pruneCompleted)
    && (result.statistics.None? ==> result.status.Unresolved? && result.code.OutcomeUnresolved? && result.evidence == Some(Evidence(false, chosen)))
  }

  ghost predicate ForgetFailed(trace: seq<Action>, from: nat, response: Response) {
    exists i :: from <= i < |trace| && Failing(trace[i], response)
  }

  lemma ForgetFailedAt(trace: seq<Action>, from: nat, at: int, response: Response)
    requires from <= at < |trace| && Failing(trace[at], response)
    ensures ForgetFailed(trace, from, response)
  {
  }

  lemma ForgetFailedEarlier(trace: seq<Action>, from: nat, later: nat, response: Response)
    requires from <= later && ForgetFailed(trace, later, response)
    ensures ForgetFailed(trace, from, response)
  {
  }

  /** With nothing to forget only the second half is left to do. */
  method CarryOut(repo: Repository, base: Result, candidates: seq<Id>, plan: Plan, inventory: set<Id>, protected: nat, ghost from: nat, ghost unplanned: bool)
    returns (result: Result, ghost failure: Option<Response>)
    requires repo.Valid() && from <= |repo.trace| && base.statistics.None? && base.pruneState.NotCombined? && !base.pruneCompleted
    requires inventory == Ids(repo.records) && Distinct(candidates)
    requires unplanned ==> plan.candidates == candidates
    requires unplanned ==> Orderly(repo.trace, from) && Announced(repo.trace, from, |repo.trace|, Elements(candidates))
    requires unplanned ==> Cleared(repo.trace, from, |repo.trace|, {})
    modifies repo`clock, repo`records, repo`trace, repo`prepared, repo`current
    ensures repo.Valid() && from <= |repo.trace| && old(repo.trace) <= repo.trace
    ensures unplanned ==> Orderly(repo.trace, from)
    ensures Asked(repo.trace, from) <= Asked(old(repo.trace), from) + Elements(candidates)
    ensures Ids(old(repo.records)) - Elements(candidates) <= Ids(repo.records) <= Ids(old(repo.records))
    ensures Part(repo.records, old(repo.records)) && (candidates == [] ==> repo.records == old(repo.records))
    ensures Reported(result, base, Elements(candidates), Ids(repo.records), protected, plan.combined, failure)
    ensures result.pruneCompleted ==> PruneRecorded(repo.trace, from) && result.status.Complete?
    ensures Keeps(old(repo.current), repo.current, plan)
    ensures !repo.primary ==> repo.current == old(repo.current)
    ensures failure.Some? ==> failure.value.exit != 0 && ForgetFailed(repo.trace, |old(repo.trace)|, failure.value)
    ensures failure.None? ==> Asked(repo.trace, from) == Asked(old(repo.trace), from) + Elements(candidates)
    ensures result.statistics.None? ==> candidates != [] && Unlisted(repo.trace)
    ensures result.statistics.Some? && Elements(candidates) * Ids(repo.records) == {} ==> PruneTold(result, plan.combined, plan.pruneAfter)
  {
    hide Part, Elements, Ids, DistinctIds, Orderly, Asked, Announced, Extends, Cleared, Reported, PruneRecorded, Distinct, Settled, PruneTold;
    failure := None;
    PartItself(repo.records);
    if |candidates| == 0 {
      NoElements(candidates);
      result := base.(evidence := Some(Evidence(true, inventory)), status := Complete, code := Success,
                      statistics := Some(Statistics(|inventory|, 0, |inventory|, protected)));
      EmptySettled(inventory, protected);
      result := FinishRetention(repo, result, plan, from, unplanned);
      FinishedReported(result, base, {}, inventory, protected, plan.combined, failure);
      FinishedTold(result, plan.combined, plan.pruneAfter);
    } else {
      result, failure := Remove(repo, base, candidates, plan, inventory, protected, from, unplanned);
    }
  }

  /** Forgets the candidates, looks what is left, and reports it. */
  method Remove(repo: Repository, base: Result, candidates: seq<Id>, plan: Plan, inventory: set<Id>, protected: nat, ghost from: nat, ghost unplanned: bool)
    returns (result: Result, ghost failure: Option<Response>)
    requires repo.Valid() && from <= |repo.trace| && base.statistics.None? && base.pruneState.NotCombined? && !base.pruneCompleted
    requires inventory == Ids(repo.records) && Distinct(candidates)
    requires unplanned ==> plan.candidates == candidates
    requires unplanned ==> Orderly(repo.trace, from) && Announced(repo.trace, from, |repo.trace|, Elements(candidates))
    modifies repo`clock, repo`records, repo`trace, repo`prepared, repo`current
    ensures repo.Valid() && from <= |repo.trace| && old(repo.trace) <= repo.trace
    ensures unplanned ==> Orderly(repo.trace, from)
    ensures Asked(repo.trace, from) <= Asked(old(repo.trace), from) + Elements(candidates)
    ensures Ids(old(repo.records)) - Elements(candidates) <= Ids(repo.records) <= Ids(old(repo.records))
    ensures Part(repo.records, old(repo.records))
    ensures Reported(result, base, Elements(candidates), Ids(repo.records), protected, plan.combined, failure)
    ensures result.pruneCompleted ==> PruneRecorded(repo.trace, from) && result.status.Complete?
    ensures Keeps(old(repo.current), repo.current, plan)
    ensures !repo.primary ==> repo.current == old(repo.current)
    ensures failure.Some? ==> failure.value.exit != 0 && ForgetFailed(repo.trace, |old(repo.trace)|, failure.value)
    ensures failure.None? ==> Asked(repo.trace, from) == Asked(old(repo.trace), from) + Elements(candidates)
    ensures result.statistics.None? ==> Unlisted(repo.trace)
    ensures result.statistics.Some? && Elements(candidates) * Ids(repo.records) == {} ==> PruneTold(result, plan.combined, plan.pruneAfter)
  {
    hide Part, Elements, Ids, DistinctIds, Orderly, Asked, Announced, Extends, Cleared, Reported, PruneRecorded, Distinct, Settled, PruneTold;
    var missing := CountMissing(candidates, inventory);
    var considered := |inventory| + missing;
    var failed := ForgetBatches(repo, candidates, from, unplanned);
    failure := failed;
    ghost var before := repo.trace;
    var response := repo.Run(Snapshots);
    AfterRun(before, repo.trace, from, Snapshots, response, unplanned);
    if response.listing.None? {
      result := base.(evidence := Some(Evidence(false, Elements(candidates))), status := Unresolved, code := OutcomeUnresolved);
      UnlistedReported(base, Elements(candidates), Ids(repo.records), protected, plan.combined, failure);
      if failure.Some? {
        ForgetFailedAt(repo.trace, |old(repo.trace)|, |before| - 1, failure.value);
      }
      return;
    }
    var after := Inventory(response.listing.value);
    LiveCounts(Elements(candidates), inventory, after, protected);
    result := Judge(repo, base, candidates, plan, considered, after, protected, failed, from, unplanned);
    if failure.Some? {
      ForgetFailedAt(repo.trace, |old(repo.trace)|, |before| - 1, failure.value);
    }
  }

  /** The verdict on a listed run. */
  method Judge(repo: Repository, base: Result, candidates: seq<Id>, plan: Plan, considered: nat, after: set<Id>, protected: nat, failed: Option<Response>,
               ghost from: nat, ghost unplanned: bool)
    returns (result: Result)
    requires repo.Valid() && from < |repo.trace| && base.statistics.None? && base.pruneState.NotCombined? && !base.pruneCompleted
    requires Distinct(candidates)
    requires after == Ids(repo.records)
    requires repo.trace[|repo.trace| - 1].Ran? && repo.trace[|repo.trace| - 1].response.listing == Some(repo.records)
    requires Statistics(considered, |Elements(candidates)| - |Elements(candidates) * after|,
                        considered - |Elements(candidates)| + |Elements(candidates) * after|, protected) == Settled(Elements(candidates), after, protected)
    requires unplanned ==> plan.candidates == candidates && Orderly(repo.trace, from)
    modifies repo`clock, repo`records, repo`trace, repo`prepared, repo`current
    ensures repo.Valid() && from <= |repo.trace| && old(repo.trace) <= repo.trace && repo.records == old(repo.records)
    ensures unplanned ==> Orderly(repo.trace, from)
    ensures Asked(repo.trace, from) == Asked(old(repo.trace), from)
    ensures Reported(result, base, Elements(candidates), after, protected, plan.combined, failed) && result.statistics.Some?
    ensures Elements(candidates) * after == {} ==> PruneTold(result, plan.combined, plan.pruneAfter)
    ensures result.pruneCompleted ==> PruneRecorded(repo.trace, from) && result.status.Complete?
    ensures Keeps(old(repo.current), repo.current, plan)
    ensures !repo.primary ==> repo.current == old(repo.current)
  {
    hide Elements, Ids, DistinctIds, Orderly, Asked, Announced, Extends, Cleared, Reported, PruneRecorded, Distinct, Settled, LiveVerdict;
    var remaining := CountPresent(candidates, after);
    var removed := |candidates| - remaining;
    CandidateCount(candidates);
    var statistics := MaintenanceStatistics(considered, |candidates|, remaining, protected);
    result := base.(evidence := Some(Evidence(true, after)), statistics := Some(statistics));
    ListedReported(base, Elements(candidates), after, protected, plan.combined, failed);
    RemainingMeans(Elements(candidates), after);
    VerdictCases(base, Elements(candidates), after, failed);
    if remaining == 0 {
      if unplanned {
        ClearedNow(repo.trace, from, Elements(candidates));
      }
      result := FinishRetention(repo, result.(status := Complete, code := Success), plan, from, unplanned);
      FinishedReported(result, base, Elements(candidates), after, protected, plan.combined, failed);
    } else if removed > 0 {
      result := result.(status := Partial, code := SnapshotRemovalIncomplete);
    } else if failed.Some? {
      result := MaintenanceResult(result, failed.value);
    } else {
      result := result.(status := Failed, code := ExecutionFailed);
    }
  }

  lemma VerdictCases(base: Result, chosen: set<Id>, after: set<Id>, failure: Option<Response>)
    ensures LiveVerdict(base, chosen, after, failure) ==
            if chosen * after == {} then (Complete, Success)
            else if chosen - after != {} then (Partial, SnapshotRemovalIncomplete)
            else if failure.Some? then (MaintenanceResult(base, failure.value).status, MaintenanceResult(base, failure.value).code)
            else (Failed, ExecutionFailed)
  {
  }

  lemma CandidateCount(candidates: seq<Id>)
    requires Distinct(candidates)
    ensures |Elements(candidates)| == |candidates|
  {
    DistinctSize(candidates);
  }

  lemma RemainingMeans(chosen: set<Id>, after: set<Id>)
    ensures |chosen * after| == 0 <==> chosen * after == {}
    ensures |chosen| - |chosen * after| > 0 <==> chosen - after != {}
  {
    assert chosen == (chosen - after) + (chosen * after);
  }

  lemma UnlistedReported(base: Result, chosen: set<Id>, after: set<Id>, protected: nat, combined: bool, failure: Option<Response>)
    requires base.statistics.None?
    ensures Reported(base.(evidence := Some(Evidence(false, chosen)), status := Unresolved, code := OutcomeUnresolved), base, chosen, after, protected, combined, failure)
  {
  }

  /** A listed run is reported by its verdict. */
  lemma ListedReported(base: Result, chosen: set<Id>, after: set<Id>, protected: nat, combined: bool, failure: Option<Response>)
    requires base.pruneState.NotCombined? && !base.pruneCompleted
    ensures var verdict := LiveVerdict(base, chosen, after, failure);
            var counted := base.(evidence := Some(Evidence(true, after)), statistics := Some(Settled(chosen, after, protected)));
            && Reported(counted.(status := verdict.0, code := verdict.1), base, chosen, after, protected, combined, failure)
            && (failure.Some? && chosen * after != {} && chosen - after == {} ==>
                  MaintenanceResult(counted, failure.value) == counted.(status := verdict.0, code := verdict.1))
  {
  }

  lemma FinishedReported(result: Result, base: Result, chosen: set<Id>, after: set<Id>, protected: nat, combined: bool, failure: Option<Response>)
    requires chosen * after == {}
    requires result.statistics == Some(Settled(chosen, after, protected)) && result.evidence == Some(Evidence(true, after))
    requires !combined ==> result.status.Complete? && result.code.Success?
    ensures Reported(result, base, chosen, after, protected, combined, failure)
  {
  }

  /** What a run of its own choosing gives up. */
  ghost predicate Chosen(chosen: set<Id>, records: seq<Record>, job: Job, protected: set<Id>, targets: seq<Id>, targetRuns: seq<Id>) {
    if targetRuns != [] then chosen == OfRuns(records, Elements(targetRuns))
    else
      && chosen * protected == {}
      && (targets != [] ==> chosen == TargetSet(records, Elements(targets), job.database))
      && (targets == [] && job.retention.policyEmpty ==> chosen == EverythingBut(records, job.database, protected))
  }

  method PlannedCandidates(records: seq<Record>, plan: Plan) returns (candidates: seq<Id>)
    requires DistinctIds(records) && Distinct(plan.candidates)
    ensures Elements(candidates) == Replayed(records, plan) && Distinct(candidates)
  {
    if |plan.candidateRuns| > 0 {
      candidates := SnapshotIdsForRunIds(records, plan.candidateRuns);
    } else {
      candidates := plan.candidates;
    }
  }

  function SkippedAs(base: Result, inventory: set<Id>, code: Code): Result {
    base.(evidence := Some(Evidence(true, inventory)), status := Skipped, code := code)
  }

  /** Why a run ended without counting anything. */
  ghost predicate EarlyEnd(result: Result, base: Result, trace: seq<Action>, from: nat, records: seq<Record>, job: Job, protected: set<Id>, targets: seq<Id>, targetRuns: seq<Id>, planned: bool) {
    || Unreadable(trace, from, base, result)
    || (!(protected <= Ids(records)) && result == SkippedAs(base, Ids(records), RecoveryPointUnavailable))
    || (protected <= Ids(records) && !planned && targetRuns == [] && targets != [] && Refused(records, Elements(targets), job.database, protected) &&
        result == SkippedAs(base, Ids(records), RecoveryPointProtected))
    || (!planned && result == base.(status := Failed, code := ExecutionFailed) && Unsaved(trace, from))
  }

  ghost predicate Unsaved(trace: seq<Action>, from: nat) {
    exists i :: from <= i < |trace| && trace[i].Persisted? && !trace[i].ok
  }

  method FreshCandidates(repo: Repository, job: Job, records: seq<Record>, inventory: set<Id>, protected: set<Id>,
                         targets: seq<Id>, targetRuns: seq<Id>, base: Result, ghost from: nat)
    returns (candidates: seq<Id>, stopped: Option<Result>)
    requires repo.Valid() && DistinctIds(records) && from <= |repo.trace| && inventory == Ids(records)
    requires Orderly(repo.trace, from) && Cleared(repo.trace, from, |repo.trace|, {})
    modifies repo`clock, repo`records, repo`trace, repo`prepared
    ensures repo.Valid() && repo.records == old(repo.records) && old(repo.trace) <= repo.trace
    ensures Orderly(repo.trace, from) && Cleared(repo.trace, from, |repo.trace|, {})
    ensures Asked(repo.trace, from) == Asked(old(repo.trace), from)
    ensures stopped.None? ==> Chosen(Elements(candidates), records, job, protected, targets, targetRuns) && Distinct(candidates)
    ensures stopped.Some? ==> stopped.value.statistics == base.statistics && stopped.value.pruneCompleted == base.pruneCompleted
    ensures targetRuns == [] && targets != [] ==> (stopped.Some? <==> Refused(records, Elements(targets), job.database, protected))
    ensures targetRuns == [] && targets != [] && stopped.Some? ==> stopped.value == SkippedAs(base, inventory, RecoveryPointProtected)
    ensures targetRuns == [] && targets == [] && stopped.Some? ==> Unreadable(repo.trace, |old(repo.trace)|, base, stopped.value)
    ensures targetRuns != [] ==> stopped.None?
    ensures targetRuns == [] && targets == [] && !job.retention.policyEmpty && stopped.None? ==>
              ByPolicy(repo.trace, |old(repo.trace)|, records, job.database, protected, Elements(candidates))
  {
    hide ByPolicy, Elements, Ids, DistinctIds, Orderly, Asked, Extends, Cleared, Expanded, Anchors, TargetSet, EverythingBut;
    stopped := None;
    if |targetRuns| > 0 {
      candidates := SnapshotIdsForRunIds(records, targetRuns);
    } else if |targets| > 0 {
      var refused;
      candidates, refused := TargetCandidates(records, inventory, protected, targets, job.database);
      if refused {
        stopped := Some(SkippedAs(base, inventory, RecoveryPointProtected));
      }
    } else {
      candidates, stopped := PolicyCandidates(repo, job, records, protected, base, from, true);
    }
  }

  method MakePlan(records: seq<Record>, candidates: seq<Id>, protected: set<Id>, proof: Proof, job: Job, given: Option<Plan>)
    returns (plan: Plan)
    requires Distinct(candidates)
    ensures PlanFor(plan, records, protected, Elements(candidates)) && plan.candidates == candidates
    ensures Elements(plan.protectedRuns) == Elements([proof.run] + job.retention.protectedRuns)
    ensures !plan.pruneStarted && !plan.pruneCompleted
    ensures plan.combined == (given.Some? && given.value.combined) && plan.pruneAfter == (given.Some? && given.value.pruneAfter)
  {
    var protectedIds := SnapshotIds(protected);
    var candidateRuns := RunIdsForSnapshots(records, candidates);
    var protectedRuns := UniqueIds([proof.run] + job.retention.protectedRuns);
    plan := EMPTY_PLAN.(candidates := candidates, protected := protectedIds, candidateRuns := candidateRuns,
                        protectedRuns := protectedRuns, forgetPlanned := true);
    if given.Some? {
      plan := plan.(combined := given.value.combined, pruneAfter := given.value.pruneAfter);
    }
  }

  lemma SamePlan(plan: Plan, current: Option<Plan>, records: seq<Record>, protected: set<Id>, chosen: set<Id>)
    requires PlanFor(plan, records, protected, chosen) && Keeps(Some(plan), current, plan)
    ensures current.Some? && PlanFor(current.value, records, protected, chosen) && current.value.combined == plan.combined
  {
  }

  /** The plan in mind was made for these snapshots and chooses as a run of its own does. */
  ghost predicate PlannedFor(current: Option<Plan>, records: seq<Record>, job: Job, proof: Proof, targets: seq<Id>, targetRuns: seq<Id>) {
    && current.Some?
    && PlanFor(current.value, records, Protected(records, job.retention, proof), Elements(current.value.candidates))
    && Chosen(Elements(current.value.candidates), records, job, Protected(records, job.retention, proof), targets, targetRuns)
    && Protected(records, job.retention, proof) <= Ids(records)
  }

  lemma PlannedIs(plan: Plan, records: seq<Record>, job: Job, proof: Proof, candidates: seq<Id>, targets: seq<Id>, targetRuns: seq<Id>)
    requires plan.candidates == candidates && Protected(records, job.retention, proof) <= Ids(records)
    requires PlanFor(plan, records, Protected(records, job.retention, proof), Elements(candidates))
    requires Chosen(Elements(candidates), records, job, Protected(records, job.retention, proof), targets, targetRuns)
    ensures PlannedFor(Some(plan), records, job, proof, targets, targetRuns)
  {
  }

  lemma PlannedKept(plan: Plan, current: Option<Plan>, records: seq<Record>, job: Job, proof: Proof, targets: seq<Id>, targetRuns: seq<Id>)
    requires PlannedFor(Some(plan), records, job, proof, targets, targetRuns) && Keeps(Some(plan), current, plan)
    ensures PlannedFor(current, records, job, proof, targets, targetRuns)
  {
  }

  /**
   * An empty policy without targets, by the listing: a snapshot is given up exactly when it is not to be kept
   * and, for databases, shares a run tag with an anchor.
   */
  lemma EmptyPolicyListed(records: seq<Record>, job: Job, proof: Proof, chosen: set<Id>, i: nat)
    requires DistinctIds(records) && i < |records| && job.retention.policyEmpty
    requires Chosen(chosen, records, job, Protected(records, job.retention, proof), [], [])
    ensures records[i].id in chosen <==>
            !Kept(records, job.retention, proof, i) &&
            (job.database ==> exists j :: 0 <= j < |records| && AnchorTag in records[j].tags && Grouped(records[i], records[j]))
  {
    hide Anchors, Expanded, Protected, Kept, Grouped;
    var id := records[i].id;
    KeptExactly(records, job.retention, proof);
    ExpandedListed(records, Anchors(records), id);
    IdsMembers(records, id);
    forall j | 0 <= j < |records| ensures records[j].id in Anchors(records) <==> AnchorTag in records[j].tags {
      AnchorsListed(records, records[j].id);
    }
  }

  /** Named snapshots, by the listing: those that are there, and for databases what shares a run tag with them. */
  lemma TargetsListed(records: seq<Record>, job: Job, proof: Proof, chosen: set<Id>, targets: seq<Id>, i: nat)
    requires DistinctIds(records) && i < |records| && targets != []
    requires Chosen(chosen, records, job, Protected(records, job.retention, proof), targets, [])
    ensures records[i].id in chosen <==>
            if job.database then exists j :: 0 <= j < |records| && records[j].id in targets && Grouped(records[i], records[j]) else records[i].id in targets
    ensures chosen <= Ids(records)
  {
    hide Expanded, Protected, Grouped;
    ExpandedListed(records, Elements(targets), records[i].id);
    IdsMembers(records, records[i].id);
  }

  /** They are refused exactly when one of them, or for databases a snapshot that shares a run tag with one, is to be kept. */
  lemma RefusedListed(records: seq<Record>, job: Job, proof: Proof, targets: seq<Id>)
    requires DistinctIds(records) && Protected(records, job.retention, proof) <= Ids(records)
    ensures Refused(records, Elements(targets), job.database, Protected(records, job.retention, proof)) <==>
            exists i :: 0 <= i < |records| && Kept(records, job.retention, proof, i) &&
                        (records[i].id in targets ||
                         (job.database && exists j :: 0 <= j < |records| && records[j].id in targets && Grouped(records[i], records[j])))
  {
    hide Expanded, Protected, Grouped, Kept, Ids;
    var protected := Protected(records, job.retention, proof);
    KeptExactly(records, job.retention, proof);
    if Refused(records, Elements(targets), job.database, protected) {
      var id :| id in protected && (id in Elements(targets) || (job.database && id in Expanded(records, Elements(targets))));
      IdsMembers(records, id);
      ExpandedListed(records, Elements(targets), id);
    }
    if i :| 0 <= i < |records| && Kept(records, job.retention, proof, i) &&
            (records[i].id in targets ||
             (job.database && exists j :: 0 <= j < |records| && records[j].id in targets && Grouped(records[i], records[j])))
    {
      ExpandedListed(records, Elements(targets), records[i].id);
      assert records[i].id in protected;
      if records[i].id in targets {
        assert records[i].id in Elements(targets) * protected;
      } else {
        assert records[i].id in Expanded(records, Elements(targets)) * protected;
      }
    }
  }

  lemma ChosenSpares(chosen: set<Id>, records: seq<Record>, job: Job, protected: set<Id>, targets: seq<Id>)
    requires Chosen(chosen, records, job, protected, targets, [])
    ensures chosen * protected == {}
  {
  }

  /** Chooses, makes a plan of it and saves that, or ends the run early. */
  method PlanAfresh(repo: Repository, job: Job, proof: Proof, records: seq<Record>, inventory: set<Id>, protected: set<Id>,
                    targets: seq<Id>, targetRuns: seq<Id>, base: Result, given: Option<Plan>, ghost from: nat)
    returns (candidates: seq<Id>, plan: Plan, stopped: Option<Result>)
    requires repo.Valid() && DistinctIds(records) && from <= |repo.trace| && inventory == Ids(records) && !Planned(given)
    requires protected == Protected(records, job.retention, proof) && protected <= inventory
    requires Orderly(repo.trace, from) && Cleared(repo.trace, from, |repo.trace|, {})
    modifies repo`clock, repo`records, repo`trace, repo`prepared, repo`current
    ensures repo.Valid() && repo.records == old(repo.records) && old(repo.trace) <= repo.trace
    ensures Orderly(repo.trace, from) && Asked(repo.trace, from) == Asked(old(repo.trace), from)
    ensures !repo.primary ==> repo.current == old(repo.current)
    ensures repo.current == old(repo.current) || PlannedFor(repo.current, records, job, proof, targets, targetRuns)
    ensures stopped.Some? ==> stopped.value.statistics == base.statistics && stopped.value.pruneCompleted == base.pruneCompleted
    ensures stopped.Some? ==> EarlyEnd(stopped.value, base, repo.trace, from, records, job, protected, targets, targetRuns, false)
    ensures stopped.None? ==>
              && PlanFor(plan, records, protected, Elements(candidates)) && plan.candidates == candidates && Distinct(candidates)
              && plan.combined == (given.Some? && given.value.combined)
              && Chosen(Elements(candidates), records, job, protected, targets, targetRuns)
              && PlannedFor(Some(plan), records, job, proof, targets, targetRuns) && (repo.primary ==> repo.current == Some(plan))
              && Announced(repo.trace, from, |repo.trace|, Elements(candidates)) && Cleared(repo.trace, from, |repo.trace|, {})
    ensures stopped.None? ==> plan.pruneAfter == (given.Some? && given.value.pruneAfter)
    ensures targetRuns == [] && targets == [] && !job.retention.policyEmpty && stopped.None? ==> ByPolicy(repo.trace, from, records, job.database, protected, Elements(candidates))
  {
    hide ByPolicy, Unreadable, Refused, Unsaved;
    hide Elements, Ids, DistinctIds, Orderly, Asked, Announced, Extends, Cleared, Distinct, Protected, Chosen, PlannedFor, TargetSet, EverythingBut,
         Expanded, OfRuns, RunsOf, MaintenanceResult;
    ghost var listed := repo.trace;
    candidates, stopped := FreshCandidates(repo, job, records, inventory, protected, targets, targetRuns, base, from);
    plan := EMPTY_PLAN;
    if stopped.Some? {
      if targets == [] {
        UnreadableEarlier(repo.trace, from, |listed|, base, stopped.value);
      }
      return;
    }
    plan := MakePlan(records, candidates, protected, proof, job, given);
    ghost var before := repo.trace;
    var ok := repo.Persist(plan);
    AfterPersist(before, plan, ok, from, true);
    ClearedStays(before, Persisted(plan, ok), from, |before|, {});
    PlannedIs(plan, records, job, proof, candidates, targets, targetRuns);
    ByPolicyStays(before, repo.trace, from, |listed|, records, job.database, protected, Elements(candidates));
    if !ok {
      stopped := Some(base.(status := Failed, code := ExecutionFailed));
      UnsavedNow(repo.trace, from);
    }
  }

  /**
   * The whole run. Whatever it is asked to do and whatever Restic answers: only `chosen` is ever given to
   * `forget`, nothing at all when a protected snapshot is missing; a run that makes its own plan saves it
   * first, and its choice, unless it was named run by run, spares everything protected.
   */
  method ExecuteForget(repo: Repository, base: Result, job: Job, proof: Proof, targets: seq<Id>, targetRuns: seq<Id>, given: Option<Plan>)
    returns (result: Result, ghost chosen: set<Id>, ghost failure: Option<Response>)
    requires repo.Valid() && base.statistics.None? && base.pruneState.NotCombined? && !base.pruneCompleted
    requires given.Some? ==> Distinct(given.value.candidates)
    modifies repo`clock, repo`records, repo`trace, repo`prepared, repo`current
    ensures repo.Valid() && old(repo.trace) <= repo.trace
    ensures !Planned(given) ==> Orderly(repo.trace, |old(repo.trace)|)
    ensures Asked(repo.trace, |old(repo.trace)|) <= chosen
    ensures Ids(old(repo.records)) - chosen <= Ids(repo.records) <= Ids(old(repo.records))
    ensures Part(repo.records, old(repo.records)) && (chosen == {} ==> repo.records == old(repo.records))
    ensures !repo.primary ==> repo.current == old(repo.current)
    ensures chosen != {} ==> Protected(old(repo.records), job.retention, proof) <= Ids(old(repo.records))
    ensures chosen != {} && !Planned(given) && targetRuns == [] ==>
              Protected(old(repo.records), job.retention, proof) <= Ids(repo.records)
    ensures Asked(repo.trace, |old(repo.trace)|) != {} ==> forall id :: !Missed(old(repo.records), job.retention, proof, id)
    ensures !Planned(given) && targetRuns == [] ==>
              forall i | 0 <= i < |old(repo.records)| && Kept(old(repo.records), job.retention, proof, i) ::
                old(repo.records)[i].id !in Asked(repo.trace, |old(repo.trace)|)
    ensures !Planned(given) ==> repo.current == old(repo.current) || PlannedFor(repo.current, old(repo.records), job, proof, targets, targetRuns)
    ensures Planned(given) ==> Keeps(old(repo.current), repo.current, given.value)
    ensures (chosen != {} || result.statistics.Some?) && Planned(given) ==> chosen == Replayed(old(repo.records), given.value)
    ensures (chosen != {} || result.statistics.Some?) && !Planned(given) ==>
              Chosen(chosen, old(repo.records), job, Protected(old(repo.records), job.retention, proof), targets, targetRuns)
    ensures !Planned(given) && (chosen != {} || result.statistics.Some?) && repo.primary ==>
              repo.current.Some? && PlanFor(repo.current.value, old(repo.records), Protected(old(repo.records), job.retention, proof), chosen) &&
              repo.current.value.combined == (given.Some? && given.value.combined)
    ensures chosen != {} || result.statistics.Some? ==>
              Reported(result, base, chosen, Ids(repo.records), |Protected(old(repo.records), job.retention, proof)|, given.Some? && given.value.combined, failure)
    ensures result.pruneCompleted ==> PruneRecorded(repo.trace, |old(repo.trace)|) && result.status.Complete?
    ensures failure.Some? ==> failure.value.exit != 0 && ForgetFailed(repo.trace, |old(repo.trace)|, failure.value)
    ensures failure.None? ==> Asked(repo.trace, |old(repo.trace)|) == chosen
    ensures (chosen != {} || result.statistics.Some?) && !Planned(given) && targetRuns == [] && targets == [] && !job.retention.policyEmpty ==>
              ByPolicy(repo.trace, |old(repo.trace)|, old(repo.records), job.database, Protected(old(repo.records), job.retention, proof), chosen)
    ensures chosen != {} && result.statistics.None? ==> Unlisted(repo.trace)
    ensures result.statistics.Some? && chosen * Ids(repo.records) == {} ==>
              PruneTold(result, given.Some? && given.value.combined, given.Some? && given.value.pruneAfter)
    ensures result.statistics.Some? && chosen * Ids(repo.records) != {} ==>
              !result.status.Complete? && (result.status.Partial? <==> chosen - Ids(repo.records) != {})
    ensures chosen == {} && result.statistics.None? ==>
              EarlyEnd(result, base, repo.trace, |old(repo.trace)|, old(repo.records), job, Protected(old(repo.records), job.retention, proof),
                       targets, targetRuns, Planned(given))
  {
    hide Unreadable, Refused, Unsaved, Kept, Missed, ByPolicy, PruneTold, ForgetFailed, Unlisted, LiveVerdict;
    hide Elements, Ids, DistinctIds, Orderly, Asked, Announced, Extends, Cleared, Reported, PruneRecorded, Distinct, Settled, Protected,
         Replayed, Chosen, PlanFor, PlannedFor, Part, TargetSet, EverythingBut, Expanded, OfRuns, RunsOf, MaintenanceResult;
    ghost var from := |repo.trace|;
    ghost var unplanned := !Planned(given);
    chosen, failure := {}, None;
    OrderlyStart(repo.trace);
    var response := repo.Run(Snapshots);
    AfterRun(old(repo.trace), repo.trace, from, Snapshots, response, unplanned);
    if response.listing.None? {
      result := MaintenanceResult(base, response);
      ResultFields(base, response);
      UnreadableNow(repo.trace, from, base);
      return;
    }
    ListsNothing(repo.trace[|repo.trace| - 1]);
    ClearedNow(repo.trace, from, {});
    var records := response.listing.value;
    var inventory := Inventory(records);
    var protected := ProtectedIds(records, job.retention, proof);
    NothingMissed(records, job.retention, proof);
    if !(protected <= inventory) {
      result := SkippedAs(base, inventory, RecoveryPointUnavailable);
      return;
    }
    var candidates: seq<Id>;
    var plan: Plan;
    if Planned(given) {
      plan := given.value;
      candidates := PlannedCandidates(records, plan);
    } else {
      var stopped;
      candidates, plan, stopped := PlanAfresh(repo, job, proof, records, inventory, protected, targets, targetRuns, base, given, from);
      if stopped.Some? {
        result := stopped.value;
        return;
      }
    }
    chosen := Elements(candidates);
    if candidates != [] {
      InElements(candidates, candidates[0]);
    }
    ghost var before := repo.trace;
    result, failure := CarryOut(repo, base, candidates, plan, inventory, |protected|, from, unplanned);
    LeftTold(result, base, chosen, Ids(repo.records), |protected|, plan.combined, failure);
    ByPolicyStays(before, repo.trace, from, from, records, job.database, protected, chosen);
    if failure.Some? {
      ForgetFailedEarlier(repo.trace, from, |before|, failure.value);
    }
    if unplanned && targetRuns == [] {
      ChosenSpares(chosen, records, job, protected, targets);
      SparesKept(records, job.retention, proof, chosen);
    }
    if unplanned && repo.primary {
      SamePlan(plan, repo.current, records, protected, chosen);
      PlannedKept(plan, repo.current, records, job, proof, targets, targetRuns);
    }
  }

  lemma FinishedTold(result: Result, combined: bool, due: bool)
    requires result.pruneCompleted <==> result.pruneState.PruneDone?
    requires !combined ==> result.pruneState.NotCombined? && result.status.Complete?
    requires combined && !due ==> result.pruneState.NotDue? && result.status.Complete?
    requires result.pruneCompleted ==> result.status.Complete?
    requires combined && due && !result.pruneCompleted ==>
               result.pruneState in {PruneFailed, PruneTimedOut, PruneCancelled, PruneUnresolved} && result.status != Complete
    ensures PruneTold(result, combined, due)
  {
  }

  /** A run that left something of its choice behind is not complete, and partial exactly when it removed something. */
  lemma LeftTold(result: Result, base: Result, chosen: set<Id>, after: set<Id>, protected: nat, combined: bool, failure: Option<Response>)
    requires Reported(result, base, chosen, after, protected, combined, failure) && (failure.Some? ==> failure.value.exit != 0)
    ensures result.statistics.Some? && chosen * after != {} ==> !result.status.Complete? && (result.status.Partial? <==> chosen - after != {})
  {
    VerdictCases(base, chosen, after, failure);
    hide LiveVerdict, Settled;
  }

  lemma UnsavedNow(trace: seq<Action>, from: nat)
    requires from < |trace| && trace[|trace| - 1].Persisted? && !trace[|trace| - 1].ok
    ensures Unsaved(trace, from)
  {
  }

  lemma ListsNothing(action: Action)
    ensures action.Ran? && action.response.listing.Some? ==> ListsNone(action, {})
  {
  }

  lemma ResultFields(base: Result, response: Response)
    ensures MaintenanceResult(base, response).statistics == base.statistics && MaintenanceResult(base, response).pruneCompleted == base.pruneCompleted
    ensures MaintenanceResult(base, response).evidence == base.evidence
  {
  }

  lemma EmptySettled(inventory: set<Id>, protected: nat)
    ensures Settled({}, inventory, protected) == Statistics(|inventory|, 0, |inventory|, protected)
  {
    assert inventory + {} == inventory;
    assert {} - inventory == {};
  }
}

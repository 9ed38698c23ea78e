/**
 * A retention plan outlives the listing it was made from: a retry replays it on the same repository and
 * the replicas replay it on theirs, both by run ids. These are the facts about what that forgets.
 */
module PlanReplays {
  import opened Cardinality
  import opened MaintenanceTypes
  import opened Options
  import opened ResticRepositories
  import opened RetentionEngine
  import opened SnapshotSets

  /** No run has both a snapshot to keep and a snapshot to give up. */
  predicate WholeRuns(records: seq<Record>, protected: set<Id>, chosen: set<Id>) {
    RunsOf(records, protected) * RunsOf(records, chosen) == {}
  }

  /** Whoever protects a snapshot protects all snapshots of its run. */
  predicate Closed(records: seq<Record>, protected: set<Id>) {
    OfRuns(records, RunsOf(records, protected)) <= protected
  }

  ghost predicate OneRunEach(records: seq<Record>) {
    forall i | 0 <= i < |records| :: OneRun(records[i])
  }

  ghost predicate OneRun(record: Record) {
    forall a, b | a in RunTags(record.tags) && b in RunTags(record.tags) :: a == b
  }

  lemma WholeRunsWhenClosed(records: seq<Record>, protected: set<Id>, chosen: set<Id>)
    requires Closed(records, protected) && chosen * protected == {}
    ensures WholeRuns(records, protected, chosen)
  {
    if run :| run in RunsOf(records, protected) * RunsOf(records, chosen) {
      RunsOfMembers(records, chosen, run);
      var i :| 0 <= i < |records| && records[i].id in chosen && run in RunTags(records[i].tags);
      assert OfRun(records[i], RunsOf(records, protected)) by {
        assert run in RunTags(records[i].tags) * RunsOf(records, protected);
      }
      OfRunsMembers(records, RunsOf(records, protected), records[i].id);
      assert records[i].id in chosen * protected;
    }
  }

  /** Protecting by runs alone protects whole runs, as long as a snapshot has one run. */
  lemma ProtectedByRunsIsClosed(records: seq<Record>, runs: set<Id>)
    requires OneRunEach(records) && DistinctIds(records)
    ensures Closed(records, OfRuns(records, runs))
  {
    var protected := OfRuns(records, runs);
    forall id | id in OfRuns(records, RunsOf(records, protected)) ensures id in protected {
      OfRunsMembers(records, RunsOf(records, protected), id);
      var i :| 0 <= i < |records| && records[i].id == id && OfRun(records[i], RunsOf(records, protected));
      var run :| run in RunTags(records[i].tags) * RunsOf(records, protected);
      RunsOfMembers(records, protected, run);
      var j :| 0 <= j < |records| && records[j].id in protected && run in RunTags(records[j].tags);
      OfRunsMembers(records, runs, records[j].id);
      var k :| 0 <= k < |records| && records[k].id == records[j].id && OfRun(records[k], runs);
      assert k == j;
      var named :| named in RunTags(records[j].tags) * runs;
      assert OneRun(records[j]) && named == run;
      assert run in RunTags(records[i].tags) * runs;
      OfRunsMembers(records, runs, id);
    }
  }

  /**
   * Replaying the plan on the repository it was made for spares the protected snapshots exactly when no
   * run is split between them and the candidates.
   */
  lemma ReplaySparesExactlyWhen(records: seq<Record>, plan: Plan, protected: set<Id>, chosen: set<Id>)
    requires PlanFor(plan, records, protected, chosen) && plan.candidateRuns != [] && protected <= Ids(records)
    ensures Replayed(records, plan) * protected == {} <==> WholeRuns(records, protected, chosen)
  {
    var runs := RunsOf(records, chosen);
    if id :| id in OfRuns(records, runs) * protected {
      OfRunsMembers(records, runs, id);
      var i :| 0 <= i < |records| && records[i].id == id && OfRun(records[i], runs);
      var run :| run in RunTags(records[i].tags) * runs;
      RunsOfMembers(records, protected, run);
      assert run in RunsOf(records, protected) * RunsOf(records, chosen);
    }
    if run :| run in RunsOf(records, protected) * RunsOf(records, chosen) {
      RunsOfMembers(records, protected, run);
      var i :| 0 <= i < |records| && records[i].id in protected && run in RunTags(records[i].tags);
      assert OfRun(records[i], runs) by {
        assert run in RunTags(records[i].tags) * runs;
      }
      OfRunsMembers(records, runs, records[i].id);
      assert records[i].id in OfRuns(records, runs) * protected;
    }
  }

  /** Two snapshots of run 7, of which the first is protected by its id, and the proof of run 8. */
  const SPLIT_RUN: seq<Record> := [Record(1, None, [RunTag(7)]), Record(2, None, [RunTag(7)]), Record(3, None, [RunTag(8)])]
  const SPLIT_JOB := Job(0, 0, [], true, false, false, 0, 1, Retention(false, None, false, [1], []))
  const SPLIT_PROOF := Proof(8, 0, [3])
  const SPLIT_PLAN := EMPTY_PLAN.(candidates := [2], protected := [1, 3], candidateRuns := [7], protectedRuns := [8], forgetPlanned := true)

  lemma SplitSets()
    ensures OfRuns(SPLIT_RUN, {8}) == {3} && OfRuns(SPLIT_RUN, {7}) == {1, 2} && OfRuns(SPLIT_RUN, {}) == {}
    ensures RunsOf(SPLIT_RUN, {2}) == {7} && Ids(SPLIT_RUN) == {1, 2, 3} && LocalId(SPLIT_RUN, 1) == 1
  {
    hide OfRuns, RunsOf, Ids, LocalId;
    var a, b, c := SPLIT_RUN[0], SPLIT_RUN[1], SPLIT_RUN[2];
    ThreeRecords(a, b, c, {8});
    ThreeRecords(a, b, c, {7});
    ThreeRecords(a, b, c, {});
    ThreeRecords(a, b, c, {2});
    ThreeLocal(a, b, c, 1);
    assert RunTags([RunTag(7)]) == {7} && RunTags([RunTag(8)]) == {8};
  }

  lemma SplitProtected()
    ensures Protected(SPLIT_RUN, SPLIT_JOB.retention, SPLIT_PROOF) == {1, 3}
  {
    hide OfRuns, LocalId;
    SplitSets();
    assert LocalIds(SPLIT_RUN, [1]) == {1};
    assert Elements([]) == {};
    assert {3} + {1} + {} == {1, 3};
  }

  lemma SplitPlan()
    ensures PlanFor(SPLIT_PLAN, SPLIT_RUN, {1, 3}, {2})
  {
    hide OfRuns, RunsOf, Ids, LocalId;
    SplitSets();
    assert Elements([2]) == {2} && Elements([1, 3]) == {1, 3} && Elements([7]) == {7};
    assert |{1, 3}| == 2;
  }

  lemma SplitOneRun()
    ensures DistinctIds(SPLIT_RUN) && OneRunEach(SPLIT_RUN)
  {
    assert RunTags([RunTag(7)]) == {7} && RunTags([RunTag(8)]) == {8};
  }

  /** A snapshot that is protected on its own, beside a candidate of the same run, is forgotten by a retry. */
  lemma RetryCanForgetProtected()
    ensures PlannedFor(Some(SPLIT_PLAN), SPLIT_RUN, SPLIT_JOB, SPLIT_PROOF, [], []) && DistinctIds(SPLIT_RUN) && OneRunEach(SPLIT_RUN)
    ensures 1 in SPLIT_JOB.retention.protectedSnapshots && 1 in Protected(SPLIT_RUN, SPLIT_JOB.retention, SPLIT_PROOF)
    ensures 1 !in SPLIT_PLAN.candidates && 1 in Replayed(SPLIT_RUN, SPLIT_PLAN)
  {
    hide OfRuns, RunsOf, Ids, LocalId, Protected, PlanFor, DistinctIds, OneRunEach;
    SplitSets();
    SplitProtected();
    SplitPlan();
    SplitOneRun();
    assert Elements([7]) == {7} && Elements([2]) == {2};
  }

  /** The set functions on three snapshots, written out; `set` is a set of runs for one and of ids for the other. */
  lemma ThreeRecords(a: Record, b: Record, c: Record, set_: set<Id>)
    ensures OfRuns([a, b, c], set_) ==
            (if OfRun(a, set_) then {a.id} else {}) + (if OfRun(b, set_) then {b.id} else {}) + (if OfRun(c, set_) then {c.id} else {})
    ensures RunsOf([a, b, c], set_) ==
            (if a.id in set_ then RunTags(a.tags) else {}) + (if b.id in set_ then RunTags(b.tags) else {}) + (if c.id in set_ then RunTags(c.tags) else {})
    ensures Ids([a, b, c]) == {a.id, b.id, c.id}
  {
    hide OfRuns, RunsOf, Ids, OfRun, RunTags;
    assert [] + [a] == [a] && [a] + [b] == [a, b] && [a, b] + [c] == [a, b, c];
    OneMoreRecord([], a, set_);
    OneMoreRecord([a], b, set_);
    OneMoreRecord([a, b], c, set_);
    EmptySets(set_);
  }

  lemma EmptySets(set_: set<Id>)
    ensures OfRuns([], set_) == {} && RunsOf([], set_) == {} && Ids([]) == {}
  {
  }

  lemma OneMoreRecord(records: seq<Record>, r: Record, set_: set<Id>)
    ensures OfRuns(records + [r], set_) == OfRuns(records, set_) + if OfRun(r, set_) then {r.id} else {}
    ensures RunsOf(records + [r], set_) == RunsOf(records, set_) + if r.id in set_ then RunTags(r.tags) else {}
    ensures Ids(records + [r]) == Ids(records) + {r.id}
  {
    assert (records + [r])[..|records|] == records;
  }

  lemma ThreeLocal(a: Record, b: Record, c: Record, id: Id)
    requires a.id == id && b.id != id && c.id != id && b.original.None? && c.original.None?
    ensures LocalId([a, b, c], id) == id
  {
    var all := [a, b, c];
    assert all[..2] == [a, b] && all[..2][..1] == [a];
    assert LocalId(all[..2], id) == LocalId(all[..2][..1], id);
  }

  /** Naming runs gives up all their snapshots; nothing is checked, so protection holds exactly when none of them is protected. */
  lemma NamedRunsSpareExactlyWhen(records: seq<Record>, protected: set<Id>, runs: set<Id>)
    requires protected <= Ids(records)
    ensures OfRuns(records, runs) * protected == {} <==> RunsOf(records, protected) * runs == {}
  {
    if id :| id in OfRuns(records, runs) * protected {
      OfRunsMembers(records, runs, id);
      var i :| 0 <= i < |records| && records[i].id == id && OfRun(records[i], runs);
      var run :| run in RunTags(records[i].tags) * runs;
      RunsOfMembers(records, protected, run);
      assert run in RunsOf(records, protected) * runs;
    }
    if run :| run in RunsOf(records, protected) * runs {
      RunsOfMembers(records, protected, run);
      var i :| 0 <= i < |records| && records[i].id in protected && run in RunTags(records[i].tags);
      assert OfRun(records[i], runs) by {
        assert run in RunTags(records[i].tags) * runs;
      }
      OfRunsMembers(records, runs, records[i].id);
      assert records[i].id in OfRuns(records, runs) * protected;
    }
  }

  /** Copying keeps tags: what stands for the same snapshot in both repositories has the same runs. */
  ghost predicate TagsAgree(primary: seq<Record>, replica: seq<Record>) {
    forall i, j, id | 0 <= i < |primary| && 0 <= j < |replica| && Names(primary[i], id) && Names(replica[j], id) ::
      RunTags(primary[i].tags) == RunTags(replica[j].tags)
  }

  /** The snapshots of the proof are tagged with its run. */
  ghost predicate ProofTagged(records: seq<Record>, proof: Proof) {
    forall i, id | 0 <= i < |records| && id in proof.snapshots && Names(records[i], id) :: proof.run in RunTags(records[i].tags)
  }

  /** What a replica is given of the primary's plan. */
  function ForReplica(plan: Plan): Plan {
    plan.(candidates := [], protected := [])
  }

  /** A run of the candidates is not a run that is protected as a whole. */
  lemma RunNotProtected(records: seq<Record>, protected: set<Id>, chosen: set<Id>, runs: set<Id>, run: Id)
    requires OfRuns(records, runs) <= protected && chosen * protected == {}
    requires run in RunsOf(records, chosen)
    ensures run !in runs
  {
    RunsOfMembers(records, chosen, run);
    var i :| 0 <= i < |records| && records[i].id in chosen && run in RunTags(records[i].tags);
    if run in runs {
      assert OfRun(records[i], runs) by {
        assert run in RunTags(records[i].tags) * runs;
      }
      OfRunsMembers(records, runs, records[i].id);
    }
  }

  /** Nor is it the run of the proof, even where the proof is known by its snapshots. */
  lemma RunNotProof(records: seq<Record>, retention: Retention, proof: Proof, chosen: set<Id>, run: Id)
    requires chosen * Protected(records, retention, proof) == {} && run in RunsOf(records, chosen)
    ensures run != proof.run
  {
    RunsOfMembers(records, chosen, run);
    var i :| 0 <= i < |records| && records[i].id in chosen && run in RunTags(records[i].tags);
    if run == proof.run {
      assert OfRun(records[i], {proof.run}) by {
        assert run in RunTags(records[i].tags) * {proof.run};
      }
      OfRunsMembers(records, {proof.run}, records[i].id);
    }
  }

  /** On the replica, a protected snapshot that is there is of no candidate run. */
  lemma ReplicaSnapshotSpared(primary: seq<Record>, replica: seq<Record>, retention: Retention, proof: Proof, chosen: set<Id>, id: Id, run: Id)
    requires var protected := Protected(primary, retention, proof);
             chosen * protected == {} && protected <= Ids(primary) && WholeRuns(primary, protected, chosen)
    requires DistinctIds(replica) && OneRunEach(replica) && TagsAgree(primary, replica) && ProofTagged(replica, proof)
    requires id in Protected(replica, retention, proof) && id in Ids(replica)
    requires run in RunsOf(primary, chosen)
    ensures forall i | 0 <= i < |replica| && replica[i].id == id :: run !in RunTags(replica[i].tags)
  {
    IdsMembers(replica, id);
    var i :| 0 <= i < |replica| && replica[i].id == id;
    if run in RunTags(replica[i].tags) {
      RunNotProof(primary, retention, proof, chosen, run);
      RunNotProtected(primary, Protected(primary, retention, proof), chosen, Elements(retention.protectedRuns), run);
      if id in LocalIds(replica, retention.protectedSnapshots) {
        ListedSnapshotSpared(primary, replica, retention, proof, chosen, id, i, run);
      } else if id in OfRuns(replica, Elements(retention.protectedRuns)) {
        OnlyRun(replica, Elements(retention.protectedRuns), i, run);
      } else if id in OfRuns(replica, {proof.run}) {
        OnlyRun(replica, {proof.run}, i, run);
      } else {
        ProofFallback(replica, proof, id);
      }
    }
  }

  lemma OnlyRun(records: seq<Record>, runs: set<Id>, i: nat, run: Id)
    requires DistinctIds(records) && OneRunEach(records) && i < |records|
    requires records[i].id in OfRuns(records, runs) && run in RunTags(records[i].tags)
    ensures run in runs
  {
    OfRunsMembers(records, runs, records[i].id);
    var k :| 0 <= k < |records| && records[k].id == records[i].id && OfRun(records[k], runs);
    assert k == i;
    var named :| named in RunTags(records[i].tags) * runs;
    assert OneRun(records[i]);
  }

  /** The proof is never known by its snapshots where these carry its run. */
  lemma ProofFallback(replica: seq<Record>, proof: Proof, id: Id)
    requires ProofTagged(replica, proof) && id in Ids(replica) && id in ProofIds(replica, proof)
    ensures id in OfRuns(replica, {proof.run})
  {
    if OfRuns(replica, {proof.run}) == {} {
      var named :| named in proof.snapshots && LocalId(replica, named) == id;
      var j := LocalIdSource(replica, named);
      assert OfRun(replica[j], {proof.run}) by {
        assert Names(replica[j], named);
        assert proof.run in RunTags(replica[j].tags) * {proof.run};
      }
      OfRunsMembers(replica, {proof.run}, replica[j].id);
    }
  }

  lemma ListedSnapshotSpared(primary: seq<Record>, replica: seq<Record>, retention: Retention, proof: Proof, chosen: set<Id>, id: Id, i: nat, run: Id)
    requires var protected := Protected(primary, retention, proof);
             protected <= Ids(primary) && WholeRuns(primary, protected, chosen)
    requires DistinctIds(replica) && TagsAgree(primary, replica)
    requires id in LocalIds(replica, retention.protectedSnapshots) && i < |replica| && replica[i].id == id
    requires run in RunsOf(primary, chosen)
    ensures run !in RunTags(replica[i].tags)
  {
    var named :| named in retention.protectedSnapshots && LocalId(replica, named) == id;
    IdsMembers(replica, id);
    var j := LocalIdSource(replica, named);
    assert j == i;
    var local := LocalId(primary, named);
    assert local in LocalIds(primary, retention.protectedSnapshots);
    assert local in Protected(primary, retention, proof);
    var k := LocalIdSource(primary, named);
    assert Names(primary[k], named) && Names(replica[i], named);
    assert RunTags(primary[k].tags) == RunTags(replica[i].tags);
    if run in RunTags(replica[i].tags) {
      RunsOfMembers(primary, Protected(primary, retention, proof), run);
    }
  }

  /**
   * The plan made for the primary, replayed on a replica, forgets nothing that the replica protects,
   * although the replica's own ids, and the copies it happens to hold, were never looked at.
   */
  lemma TransportSpares(primary: seq<Record>, replica: seq<Record>, job: Job, proof: Proof, plan: Plan, targets: seq<Id>)
    requires PlannedFor(Some(plan), primary, job, proof, targets, [])
    requires WholeRuns(primary, Protected(primary, job.retention, proof), Elements(plan.candidates))
    requires DistinctIds(replica) && OneRunEach(replica) && TagsAgree(primary, replica) && ProofTagged(replica, proof)
    ensures Replayed(replica, ForReplica(plan)) * Protected(replica, job.retention, proof) == {}
  {
    var chosen, runs := Elements(plan.candidates), Elements(plan.candidateRuns);
    ChosenSpares(chosen, primary, job, Protected(primary, job.retention, proof), targets);
    if plan.candidateRuns != [] {
      if id :| id in OfRuns(replica, runs) * Protected(replica, job.retention, proof) {
        OfRunsMembers(replica, runs, id);
        var i :| 0 <= i < |replica| && replica[i].id == id && OfRun(replica[i], runs);
        var run :| run in RunTags(replica[i].tags) * runs;
        IdsMembers(replica, id);
        ReplicaSnapshotSpared(primary, replica, job.retention, proof, chosen, id, run);
      }
    }
  }
}

/**
 * agent/replication.go and the replication parts of agent/commands.go: what a finished backup still
 * owes its replicas, and why retention waits for it.
 */
module DaemonReplications {
  import opened DaemonHistories
  import opened DaemonStates
  import opened MaintenanceTypes
  import opened Options

  /** A copy that was checked: the replica's listing after it. */
  datatype Copy = Copy(command: Id, key: Id, inventory: set<Id>)

  /** A replica that a finished backup was to be copied to; what is owed are the snapshots of its result. */
  datatype Debt = Debt(command: Id, key: Id)

  /** The copies that were checked, and the commands that a queued cancellation closed again after they had finished. */
  datatype Notes = Notes(copies: set<Copy>, reclosed: set<Id>)

  /** A replica of the backup is pending only after the backup, under its job, and as something owed. */
  ghost predicate PendingOk(journal: Journal, owed: map<Debt, set<Id>>) {
    forall id, key | id in journal && key in journal[id].pending ::
      Debt(id, key) in owed && journal[id].result.Some? && journal[id].result.value.job == journal[id].job
  }

  /** What was owed is still pending, or the replica's listing has shown all of it. */
  ghost predicate Paid(journal: Journal, owed: map<Debt, set<Id>>, verified: Notes, launched: set<Id>) {
    forall debt | debt in owed :: PaidOne(journal, debt, owed[debt], verified, launched)
  }

  ghost predicate PaidOne(journal: Journal, debt: Debt, snapshots: set<Id>, verified: Notes, launched: set<Id>) {
    && debt.command in launched
    && (debt.command in journal ==> journal[debt.command].state.Finished?)
    && (Outstanding(journal, debt, snapshots, verified) || Shown(debt, snapshots, verified))
  }

  /** Still pending, with the same snapshots in the result unless the command was closed again, which emptied it. */
  predicate Outstanding(journal: Journal, debt: Debt, snapshots: set<Id>, verified: Notes) {
    && debt.command in journal && debt.key in journal[debt.command].pending
    && journal[debt.command].result.Some?
    && (journal[debt.command].result.value.snapshots == snapshots || debt.command in verified.reclosed)
  }

  /** A listing has shown all that was owed; when the command was closed again, it was read but not asked for that much. */
  ghost predicate Shown(debt: Debt, snapshots: set<Id>, verified: Notes) {
    exists copy :: copy in verified.copies && ShownBy(copy, debt, snapshots, verified.reclosed)
  }

  predicate ShownBy(copy: Copy, debt: Debt, snapshots: set<Id>, reclosed: set<Id>) {
    copy.command == debt.command && copy.key == debt.key && (snapshots <= copy.inventory || debt.command in reclosed)
  }

  /** A backup owes nothing before it has finished. */
  ghost predicate NothingOwedYet(runs: map<Id, RunThread>, owed: map<Debt, set<Id>>) {
    forall run, debt | run in runs && debt in owed :: debt.command != runs[run].command
  }

  ghost predicate Owing(journal: Journal, owed: map<Debt, set<Id>>, verified: Notes, launched: set<Id>) {
    PendingOk(journal, owed) && Paid(journal, owed, verified, launched)
  }

  /** While maintenance of a job runs, no backup of it has a replica pending. */
  ghost predicate Retaining(journal: Journal, runs: map<Id, RunThread>) {
    forall run, id | run in runs && !runs[run].backup && id in journal :: !Pends(journal[id], runs[run].job)
  }

  predicate Pends(command: Command, job: Id) {
    command.result.Some? && command.result.value.job == job && command.pending != {}
  }

  predicate HasPending(journal: Journal, job: Id) {
    exists id :: id in journal && Pends(journal[id], job)
  }

  /** What a copying goroutine has in mind is still so when it comes back for it. */
  ghost predicate Batches(journal: Journal, streams: map<Id, Stream>, launched: set<Id>, runs: map<Id, RunThread>) {
    forall job | job in streams && !streams[job].Sync? && !streams[job].Choosing? && !streams[job].Leaving? ::
      BatchOk(journal, streams[job], launched, runs)
  }

  ghost predicate BatchOk(journal: Journal, stream: Stream, launched: set<Id>, runs: map<Id, RunThread>)
    requires !stream.Sync? && !stream.Choosing? && !stream.Leaving?
  {
    && (forall id | id in stream.batch :: id in launched && (id in journal ==> journal[id].state.Finished?))
    && (forall id, run | id in stream.batch && run in runs :: runs[run].command != id)
    && (stream.Verified? && stream.complete ==>
          forall id | id in stream.batch && id in journal && journal[id].result.Some? :: journal[id].result.value.snapshots <= stream.inventory)
  }

  /** A run works on the job of its command, and an update is not a run. */
  ghost predicate JobsMatch(journal: Journal, runs: map<Id, RunThread>) {
    forall run | run in runs && runs[run].command in journal ::
      Executes(runs[run], journal[runs[run].command])
  }

  predicate Executes(thread: RunThread, command: Command) {
    command.job == thread.job && (command.kind.BackupCommand? || command.kind.MaintenanceCommand?) && (thread.backup <==> command.kind.BackupCommand?)
  }

  /** Nor is an update something that copies to a replica. */
  ghost predicate SyncsMatch(journal: Journal, streams: map<Id, Stream>) {
    forall job | job in streams && streams[job].Sync? && streams[job].command in journal :: !journal[streams[job].command].kind.UpdateCommand?
  }

  /** Everything the journal, the debts and the goroutines have to do with each other. */
  ghost predicate Replicating(journal: Journal, owed: map<Debt, set<Id>>, verified: Notes, launched: set<Id>, runs: map<Id, RunThread>, streams: map<Id, Stream>) {
    && Owing(journal, owed, verified, launched)
    && NothingOwedYet(runs, owed)
    && Retaining(journal, runs)
    && Batches(journal, streams, launched, runs)
    && JobsMatch(journal, runs)
    && SyncsMatch(journal, streams)
  }

  /** A change that does not touch what is pending, nor the result of what is finished. */
  predicate Gentle(a: Command, b: Command) {
    && b.pending == a.pending && b.job == a.job && b.kind == a.kind
    && (a.state.Finished? ==> b.state.Finished? && b.result == a.result)
  }

  lemma GentleEdit(journal: Journal, owed: map<Debt, set<Id>>, verified: Notes, launched: set<Id>, runs: map<Id, RunThread>, streams: map<Id, Stream>,
                   id: Id, command: Command)
    requires Replicating(journal, owed, verified, launched, runs, streams)
    requires id in journal && Gentle(journal[id], command)
    ensures Replicating(journal[id := command], owed, verified, launched, runs, streams)
  {
    GentleOwing(journal, owed, verified, launched, id, command);
    GentleRetaining(journal, owed, verified, launched, runs, id, command);
    GentleBatches(journal, streams, launched, runs, id, command);
  }

  /** A pending replica belongs to a finished command. */
  lemma PendingIsFinished(journal: Journal, owed: map<Debt, set<Id>>, verified: Notes, launched: set<Id>, id: Id)
    requires Owing(journal, owed, verified, launched) && id in journal && journal[id].pending != {}
    ensures journal[id].state.Finished? && id in launched && journal[id].result.Some? && journal[id].result.value.job == journal[id].job
  {
    var key :| key in journal[id].pending;
    assert PaidOne(journal, Debt(id, key), owed[Debt(id, key)], verified, launched);
  }

  lemma GentleOwing(journal: Journal, owed: map<Debt, set<Id>>, verified: Notes, launched: set<Id>, id: Id, command: Command)
    requires Owing(journal, owed, verified, launched) && id in journal && Gentle(journal[id], command)
    ensures Owing(journal[id := command], owed, verified, launched)
  {
    var after := journal[id := command];
    forall other, key | other in after && key in after[other].pending
      ensures Debt(other, key) in owed && after[other].result.Some? && after[other].result.value.job == after[other].job
    {
      assert key in journal[other].pending;
      PendingIsFinished(journal, owed, verified, launched, other);
    }
    forall debt | debt in owed ensures PaidOne(after, debt, owed[debt], verified, launched) {
      assert PaidOne(journal, debt, owed[debt], verified, launched);
    }
  }

  lemma GentleRetaining(journal: Journal, owed: map<Debt, set<Id>>, verified: Notes, launched: set<Id>, runs: map<Id, RunThread>, id: Id, command: Command)
    requires Owing(journal, owed, verified, launched) && Retaining(journal, runs) && id in journal && Gentle(journal[id], command)
    ensures Retaining(journal[id := command], runs)
  {
    if command.pending != {} {
      PendingIsFinished(journal, owed, verified, launched, id);
    }
  }

  lemma GentleBatches(journal: Journal, streams: map<Id, Stream>, launched: set<Id>, runs: map<Id, RunThread>, id: Id, command: Command)
    requires Batches(journal, streams, launched, runs) && id in journal && Gentle(journal[id], command)
    ensures Batches(journal[id := command], streams, launched, runs)
  {
    forall job | job in streams && !streams[job].Sync? && !streams[job].Choosing? && !streams[job].Leaving?
      ensures BatchOk(journal[id := command], streams[job], launched, runs)
    {
      assert BatchOk(journal, streams[job], launched, runs);
    }
  }

  /** A command that is new, or owes nothing, may be added or go. */
  lemma AddReplicating(journal: Journal, owed: map<Debt, set<Id>>, verified: Notes, launched: set<Id>, runs: map<Id, RunThread>, streams: map<Id, Stream>,
                       id: Id, command: Command)
    requires Replicating(journal, owed, verified, launched, runs, streams)
    requires id !in journal && id !in launched && command.pending == {} && forall run | run in runs :: runs[run].command != id
    requires forall job | job in streams && streams[job].Sync? :: streams[job].command != id
    ensures Replicating(journal[id := command], owed, verified, launched, runs, streams)
  {
    var after := journal[id := command];
    forall debt | debt in owed ensures PaidOne(after, debt, owed[debt], verified, launched) {
      assert PaidOne(journal, debt, owed[debt], verified, launched);
    }
    forall job | job in streams && !streams[job].Sync? && !streams[job].Choosing? && !streams[job].Leaving?
      ensures BatchOk(after, streams[job], launched, runs)
    {
      assert BatchOk(journal, streams[job], launched, runs);
    }
  }

  lemma RemoveReplicating(journal: Journal, owed: map<Debt, set<Id>>, verified: Notes, launched: set<Id>, runs: map<Id, RunThread>, streams: map<Id, Stream>, id: Id)
    requires Replicating(journal, owed, verified, launched, runs, streams)
    requires id in journal ==> journal[id].pending == {}
    ensures Replicating(journal - {id}, owed, verified, launched, runs, streams)
  {
    var after := journal - {id};
    forall debt | debt in owed ensures PaidOne(after, debt, owed[debt], verified, launched) {
      assert PaidOne(journal, debt, owed[debt], verified, launched);
    }
    forall job | job in streams && !streams[job].Sync? && !streams[job].Choosing? && !streams[job].Leaving?
      ensures BatchOk(after, streams[job], launched, runs)
    {
      assert BatchOk(journal, streams[job], launched, runs);
    }
  }

  lemma LaunchOwing(journal: Journal, owed: map<Debt, set<Id>>, verified: Notes, launched: set<Id>, id: Id)
    requires Owing(journal, owed, verified, launched)
    ensures Owing(journal, owed, verified, launched + {id})
  {
    forall debt | debt in owed ensures PaidOne(journal, debt, owed[debt], verified, launched + {id}) {
      assert PaidOne(journal, debt, owed[debt], verified, launched);
    }
  }

  /** A command that was never launched owes nothing. */
  lemma LaunchReplicating(journal: Journal, owed: map<Debt, set<Id>>, verified: Notes, launched: set<Id>, runs: map<Id, RunThread>, streams: map<Id, Stream>, id: Id)
    requires Replicating(journal, owed, verified, launched, runs, streams) && id !in launched
    ensures Replicating(journal, owed, verified, launched + {id}, runs, streams)
    ensures forall debt | debt in owed :: debt.command != id
  {
    LaunchOwing(journal, owed, verified, launched, id);
    forall debt | debt in owed ensures debt.command != id {
      assert PaidOne(journal, debt, owed[debt], verified, launched);
    }
    forall job | job in streams && !streams[job].Sync? && !streams[job].Choosing? && !streams[job].Leaving?
      ensures BatchOk(journal, streams[job], launched + {id}, runs)
    {
      assert BatchOk(journal, streams[job], launched, runs);
    }
  }

  /** A run may start for a command that was just launched: a maintenance run only when nothing of its job is pending. */
  lemma StartReplicatingRun(journal: Journal, owed: map<Debt, set<Id>>, verified: Notes, launched: set<Id>, runs: map<Id, RunThread>, streams: map<Id, Stream>,
                            run: Id, thread: RunThread)
    requires Replicating(journal, owed, verified, launched, runs, streams) && thread.command !in launched
    requires !thread.backup ==> !HasPending(journal, thread.job)
    requires thread.command in journal ==> Executes(thread, journal[thread.command])
    ensures Replicating(journal, owed, verified, launched + {thread.command}, runs[run := thread], streams)
  {
    LaunchReplicating(journal, owed, verified, launched, runs, streams, thread.command);
    var after, more := runs[run := thread], launched + {thread.command};
    forall job | job in streams && !streams[job].Sync? && !streams[job].Choosing? && !streams[job].Leaving?
      ensures BatchOk(journal, streams[job], more, after)
    {
      assert BatchOk(journal, streams[job], launched, runs);
    }
  }

  lemma FinishReplicatingRun(journal: Journal, owed: map<Debt, set<Id>>, verified: Notes, launched: set<Id>, runs: map<Id, RunThread>, streams: map<Id, Stream>, run: Id)
    requires Replicating(journal, owed, verified, launched, runs, streams)
    ensures Replicating(journal, owed, verified, launched, runs - {run}, streams)
  {
    forall job | job in streams && !streams[job].Sync? && !streams[job].Choosing? && !streams[job].Leaving?
      ensures BatchOk(journal, streams[job], launched, runs - {run})
    {
      assert BatchOk(journal, streams[job], launched, runs);
    }
  }

  function Debts(id: Id, keys: set<Id>, snapshots: set<Id>): (debts: map<Debt, set<Id>>)
    ensures forall debt :: debt in debts <==> debt.command == id && debt.key in keys
    ensures forall debt | debt in debts :: debts[debt] == snapshots
  {
    map key | key in keys :: Debt(id, key) := snapshots
  }

  /** A run that ends has its say whatever its command was closed with before. */
  function Opened(verified: Notes, id: Id): Notes {
    verified.(reclosed := verified.reclosed - {id})
  }

  lemma OpenedOthers(debt: Debt, snapshots: set<Id>, verified: Notes, id: Id)
    requires debt.command != id
    ensures Shown(debt, snapshots, verified) ==> Shown(debt, snapshots, Opened(verified, id))
  {
    if Shown(debt, snapshots, verified) {
      var copy :| copy in verified.copies && ShownBy(copy, debt, snapshots, verified.reclosed);
      assert ShownBy(copy, debt, snapshots, Opened(verified, id).reclosed);
    }
  }

  /** A finished backup owes its replicas what it made; no maintenance of its job can be running then. */
  lemma FinishBackup(journal: Journal, owed: map<Debt, set<Id>>, verified: Notes, launched: set<Id>, runs: map<Id, RunThread>, streams: map<Id, Stream>,
                     run: Id, command: Command)
    requires Replicating(journal, owed, verified, launched, runs, streams)
    requires run in runs && runs[run].command in launched && runs[run].command in journal
    requires command.job == journal[runs[run].command].job && command.kind == journal[runs[run].command].kind && command.state.Finished?
    requires command.result.Some? && command.result.value.job == command.job
    requires forall other | other in runs && runs[other].command == runs[run].command :: other == run
    requires command.pending != {} ==> forall other | other in runs && !runs[other].backup :: runs[other].job != command.job
    requires command.pending == {} ==> journal[runs[run].command].pending == {}
    ensures var id := runs[run].command;
            Replicating(journal[id := command], owed + Debts(id, command.pending, command.result.value.snapshots), Opened(verified, id), launched, runs - {run}, streams)
  {
    var id, after, more, left := runs[run].command, journal[runs[run].command := command], owed + Debts(runs[run].command, command.pending, command.result.value.snapshots), runs - {run};
    assert forall key :: Debt(id, key) !in owed;
    forall debt | debt in more ensures PaidOne(after, debt, more[debt], Opened(verified, id), launched) {
      if debt in owed {
        assert PaidOne(journal, debt, owed[debt], verified, launched);
        assert debt.command != id;
        OpenedOthers(debt, owed[debt], verified, id);
      }
    }
    forall job | job in streams && !streams[job].Sync? && !streams[job].Choosing? && !streams[job].Leaving?
      ensures BatchOk(after, streams[job], launched, left)
    {
      assert BatchOk(journal, streams[job], launched, runs);
    }
  }

  /** Moving a copying goroutine on, with the batch it had or a batch of what is pending. */
  lemma MoveReplicating(journal: Journal, owed: map<Debt, set<Id>>, verified: Notes, launched: set<Id>, runs: map<Id, RunThread>, streams: map<Id, Stream>,
                        job: Id, stream: Stream)
    requires Replicating(journal, owed, verified, launched, runs, streams)
    requires stream.Sync? || stream.Choosing? || stream.Leaving? || BatchOk(journal, stream, launched, runs)
    requires stream.Sync? && stream.command in journal ==> !journal[stream.command].kind.UpdateCommand?
    ensures Replicating(journal, owed, verified, launched, runs, streams[job := stream])
    ensures Replicating(journal, owed, verified, launched, runs, streams - {job})
  {
  }

  lemma PendingBatch(journal: Journal, owed: map<Debt, set<Id>>, verified: Notes, launched: set<Id>, runs: map<Id, RunThread>, streams: map<Id, Stream>, stream: Stream)
    requires Replicating(journal, owed, verified, launched, runs, streams)
    requires stream.Chosen? && forall id | id in stream.batch :: id in journal && stream.key in journal[id].pending
    ensures BatchOk(journal, stream, launched, runs)
  {
    forall id | id in stream.batch
      ensures id in launched && journal[id].state.Finished? && forall run | run in runs :: runs[run].command != id
    {
      assert PaidOne(journal, Debt(id, stream.key), owed[Debt(id, stream.key)], verified, launched);
    }
  }

  /** One command of a verified batch: the key goes, and the listing that let it go is on record. */
  lemma PayOne(journal: Journal, owed: map<Debt, set<Id>>, verified: Notes, launched: set<Id>, runs: map<Id, RunThread>, streams: map<Id, Stream>,
               id: Id, key: Id, inventory: set<Id>)
    requires Replicating(journal, owed, verified, launched, runs, streams)
    requires id in journal && journal[id].result.Some? && journal[id].result.value.snapshots <= inventory
    ensures var command := journal[id].(pending := journal[id].pending - {key});
            Replicating(journal[id := command], owed, WithCopy(verified, Copy(id, key, inventory)), launched, runs, streams)
  {
    var command, copy := journal[id].(pending := journal[id].pending - {key}), Copy(id, key, inventory);
    var after, more := journal[id := command], WithCopy(verified, copy);
    MoreCopies(journal, owed, verified, more, launched);
    forall debt | debt in owed ensures PaidOne(after, debt, owed[debt], more, launched) {
      assert PaidOne(journal, debt, owed[debt], more, launched);
      if debt == Debt(id, key) && Outstanding(journal, debt, owed[debt], more) {
        assert ShownBy(copy, debt, owed[debt], more.reclosed);
      }
    }
    forall job | job in streams && !streams[job].Sync? && !streams[job].Choosing? && !streams[job].Leaving?
      ensures BatchOk(after, streams[job], launched, runs)
    {
      assert BatchOk(journal, streams[job], launched, runs);
    }
  }

  function WithCopy(verified: Notes, copy: Copy): Notes {
    verified.(copies := verified.copies + {copy})
  }

  /** A command is closed with an empty result, once more if it was finished: then its replicas are asked for nothing any more. */
  lemma CloseReplicating(journal: Journal, owed: map<Debt, set<Id>>, verified: Notes, launched: set<Id>, runs: map<Id, RunThread>, streams: map<Id, Stream>,
                         id: Id, command: Command)
    requires Replicating(journal, owed, verified, launched, runs, streams) && id in journal
    requires command == journal[id].(state := Finished, result := Some(Outcome(journal[id].job, {})))
    ensures Replicating(journal[id := command], owed, Reclosed(verified, id, journal[id]), launched, runs, streams)
  {
    var after, more := journal[id := command], Reclosed(verified, id, journal[id]);
    if journal[id].pending != {} {
      PendingIsFinished(journal, owed, verified, launched, id);
    }
    MoreCopies(journal, owed, verified, more, launched);
    forall debt | debt in owed ensures PaidOne(after, debt, owed[debt], more, launched) {
      assert PaidOne(journal, debt, owed[debt], more, launched);
    }
    forall job | job in streams && !streams[job].Sync? && !streams[job].Choosing? && !streams[job].Leaving?
      ensures BatchOk(after, streams[job], launched, runs)
    {
      assert BatchOk(journal, streams[job], launched, runs);
    }
  }

  /** Only what had finished is closed again. */
  function Reclosed(verified: Notes, id: Id, command: Command): Notes {
    if command.state.Finished? then verified.(reclosed := verified.reclosed + {id}) else verified
  }

  /** What is noted stays noted. */
  lemma MoreCopies(journal: Journal, owed: map<Debt, set<Id>>, verified: Notes, more: Notes, launched: set<Id>)
    requires Owing(journal, owed, verified, launched) && verified.copies <= more.copies && verified.reclosed <= more.reclosed
    ensures Owing(journal, owed, more, launched)
  {
    forall debt | debt in owed ensures PaidOne(journal, debt, owed[debt], more, launched) {
      assert PaidOne(journal, debt, owed[debt], verified, launched);
      if Shown(debt, owed[debt], verified) {
        var copy :| copy in verified.copies && ShownBy(copy, debt, owed[debt], verified.reclosed);
        assert ShownBy(copy, debt, owed[debt], more.reclosed);
      }
    }
  }

  /** After a crash the durable journal is the journal, with no goroutines. */
  lemma Restart(saved: Journal, owed: map<Debt, set<Id>>, verified: Notes, launched: set<Id>)
    requires Owing(saved, owed, verified, launched)
    ensures Replicating(saved, owed, verified, launched, map[], map[])
  {
  }
}

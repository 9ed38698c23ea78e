/**
 * agent/commands.go, scheduler.go, replication.go and replica_sync.go: the daemon. Every method is one
 * critical section under the daemon's lock, whoever enters it; between two of them anything else may
 * happen, and a crash may happen at any time and leave only what is on disk.
 */
module Daemons {
  import opened DaemonHistories
  import opened DaemonReplications
  import opened DaemonStates
  import opened DaemonSteps
  import opened MaintenanceTypes
  import opened Options

  class Daemon {
    const shapes: Shapes
    ghost const owners: Id -> Id // the primary that a replica belongs to
    var memory: Memory
    var disk: Disk
    ghost var past: Past

    ghost function View(): World
      reads this
    {
      World(memory, disk, past)
    }

    ghost predicate Valid()
      reads this
    {
      Fixed(shapes, owners) && Sound(shapes, View())
    }

    constructor (shapes: Shapes, ghost owners: Id -> Id)
      requires Fixed(shapes, owners)
      ensures Valid() && this.shapes == shapes && View() == EMPTY
    {
      this.shapes, this.owners := shapes, owners;
      memory, disk, past := EMPTY.memory, EMPTY.disk, EMPTY.past;
      new;
      EmptySound(shapes);
    }

    method Save(ok: bool) returns (done: bool)
      requires Valid()
      modifies this`disk, this`past
      ensures Valid() && View() == Saved(old(View()), ok) && done == Saves(old(View()), ok)
      ensures done ==> ok && disk.journal == memory.journal
      ensures Extended(old(disk).claims, disk.claims)
    {
      hide Fixed, Sound, Compatible, Extended;
      SaveSound(shapes, View(), ok);
      done := ok && Compatible(memory.journal, disk.claims);
      if done {
        disk := Disk(memory.journal, Claims(memory.journal, disk.claims));
        past := past.(savedOwed := past.owed, savedReclosed := past.verified.reclosed);
      }
    }

    method Edit(id: Id, command: Command)
      requires Valid() && MayEdit(View(), id, command)
      modifies this`memory
      ensures Valid() && View() == Edited(old(View()), id, command)
    {
      hide Fixed, Sound, MayEdit;
      EditSound(shapes, View(), id, command);
      memory := memory.(journal := memory.journal[id := command]);
    }

    method Add(id: Id, command: Command)
      requires Valid() && MayAdd(View(), id, command) && command.occurrence.None?
      modifies this`memory, this`past
      ensures Valid() && View() == Added(old(View()), id, command)
    {
      hide Fixed, Sound, MayAdd;
      AddSound(shapes, View(), id, command);
      past := Added(View(), id, command).past;
      memory := memory.(journal := memory.journal[id := command]);
    }

    method Remove(id: Id)
      requires Valid() && memory.update != Some(id)
      requires id in memory.journal ==> memory.journal[id].pending == {}
      modifies this`memory
      ensures Valid() && View() == Removed(old(View()), id)
    {
      hide Fixed, Sound;
      RemoveSound(shapes, View(), id);
      memory := memory.(journal := memory.journal - {id});
    }

    /** The control plane's acknowledgement has gone through. */
    method Acknowledge(id: Id, saves: bool)
      requires Valid()
      modifies this
      ensures Valid()
      ensures id in old(memory).journal ==>
                View() == Saved(Edited(old(View()), id, old(memory).journal[id].(acknowledged := true)), saves)
      ensures id !in old(memory).journal ==> View() == old(View())
    {
      hide Fixed, Sound, Saves, Extended;
      if id in memory.journal {
        Edit(id, memory.journal[id].(acknowledged := true));
        var done := Save(saves);
      }
    }

    /**
     * The command is closed without running; who queued that does not look at its state again. When it had
     * finished by then, its result is emptied, and that is noted: its replicas are asked for nothing any more.
     */
    method FinishWithoutExecution(id: Id, saves: bool)
      requires Valid()
      requires id in memory.journal ==> !memory.journal[id].kind.UpdateCommand? // an update has no job to be cancelled with
      modifies this
      ensures Valid()
      ensures id in old(memory).journal ==> View() == Saved(ClosedEmpty(old(View()), id), saves)
      ensures id in old(memory).journal ==>
                memory.journal[id].state.Finished? && memory.journal[id].result == Some(Outcome(old(memory).journal[id].job, {})) &&
                memory.journal[id].pending == old(memory).journal[id].pending && past.owed == old(past).owed &&
                past.verified.reclosed == old(past).verified.reclosed + if old(memory).journal[id].state.Finished? then {id} else {}
      ensures id !in old(memory).journal ==> View() == old(View())
    {
      hide Fixed, Sound, Saves, Extended;
      if id in memory.journal {
        CloseSound(shapes, View(), id);
        past := ClosedEmpty(View(), id).past;
        memory := memory.(journal := memory.journal[id := Closed(memory.journal[id], {})]);
        var done := Save(saves);
      }
    }

    /**
     * After a restart: the outcome of a run that was interrupted. A retry may find runs that are alive again.
     * Nothing becomes pending, whatever snapshots the run is found to have made.
     */
    method Reconcile(id: Id, snapshots: set<Id>, saves: bool)
      requires Valid()
      modifies this
      ensures Valid()
      ensures Interrupted(old(memory).journal, id) ==> View() == Saved(Edited(old(View()), id, Closed(old(memory).journal[id], snapshots)), saves)
      ensures id in old(memory).journal && old(memory).journal[id].state.Running? && !old(memory).journal[id].kind.UpdateCommand? ==>
                && memory.journal[id].state.Finished? && memory.journal[id].result == Some(Outcome(old(memory).journal[id].job, snapshots))
                && memory.journal[id].pending == {} && past.owed == old(past).owed
      ensures !Interrupted(old(memory).journal, id) ==> View() == old(View())
    {
      hide Fixed, Sound, Saves, Extended;
      if Interrupted(memory.journal, id) {
        RunningOwesNothing(shapes, View(), id);
        Edit(id, Closed(memory.journal[id], snapshots));
        var done := Save(saves);
      }
    }

    /** The deferred maintenance that comes next is released, to be started like any other command. */
    method ReleaseNextDeferred(job: Option<Id>, expiredOnly: bool, now: nat, saves: bool) returns (released: Option<Id>)
      requires Valid()
      modifies this
      ensures Valid()
      ensures released.Some? ==>
                && memory.update.None? && FirstDeferred(old(memory).journal, released.value, job, expiredOnly, now)
                && View() == Saved(Edited(old(View()), released.value, old(memory).journal[released.value].(waiting := false)), true)
      ensures released.Some? ==>
                && released.value in old(memory).journal && old(memory).journal[released.value].state.Received?
                && old(memory).journal[released.value].deferral.Some? && (job.Some? ==> old(memory).journal[released.value].job == job.value)
                && (expiredOnly ==> now >= old(memory).journal[released.value].deferral.value)
      ensures released.None? ==> View() == old(View())
      ensures released.None? && old(memory).update.None? && saves && Compatible(old(memory).journal, old(disk).claims) ==>
                forall id | id in old(memory).journal :: !Deferred(old(memory).journal[id], job, expiredOnly, now)
    {
      hide Fixed, Sound, Extended, Compatible, FirstDeferred, Deferred;
      if memory.update.Some? {
        return None;
      }
      released := NextDeferred(memory.journal, job, expiredOnly, now);
      if released.Some? {
        FirstIsDeferred(memory.journal, released.value, job, expiredOnly, now);
        CompatibleWaiting(memory.journal, disk.claims, released.value);
        var done := ReleaseDeferred(released.value, saves);
        if !done {
          released := None;
        }
      }
    }

    /** Releases one command, durably or not at all. */
    method ReleaseDeferred(id: Id, saves: bool) returns (released: bool)
      requires Valid()
      modifies this
      ensures Valid()
      ensures released ==>
                && memory.update.None? && id in old(memory).journal && old(memory).journal[id].state.Received?
                && View() == Saved(Edited(old(View()), id, old(memory).journal[id].(waiting := false)), true)
      ensures !released ==> View() == old(View())
      ensures !released && old(memory).update.None? && id in old(memory).journal && old(memory).journal[id].state.Received? ==>
                !Saves(Edited(old(View()), id, old(memory).journal[id].(waiting := false)), saves)
    {
      hide Fixed, Sound, Extended, Compatible;
      if memory.update.Some? || id !in memory.journal || !memory.journal[id].state.Received? {
        return false;
      }
      var before, journal := memory.journal[id], memory.journal;
      Edit(id, before.(waiting := false));
      released := Save(saves);
      if !released {
        Edit(id, before);
        assert memory.journal == journal;
      }
    }

    /**
     * A command from the control plane, which never sends again what was started, never uses an id for something
     * else and has at most one update outstanding. It is durable before it counts as received; a second copy of
     * it is ignored. A cancellation comes with the run id of the command it cancels, any other with a fresh one.
     */
    method Receive(id: Id, kind: CommandKind, job: Id, key: Id, run: Id, saves: bool, stateSaves: bool, undoSaves: bool) returns (received: bool)
      requires Valid()
      requires id !in memory.journal ==> id !in past.launched && NeverLaunched(past.launches, id) && (kind.CancelCommand? || run !in past.owner)
      requires id in disk.journal ==> disk.journal[id].kind == kind
      requires kind.UpdateCommand? ==> NoOtherUpdate(memory.journal, id) && NoOtherUpdate(disk.journal, id)
      modifies this
      ensures Valid() && Extended(old(disk).claims, disk.claims)
      ensures id in old(memory).journal ==> received && View() == old(View())
      ensures received && id !in old(memory).journal ==>
                && memory.journal == disk.journal == old(memory).journal[id := Arrived(kind, run, job, key)]
                && memory == old(memory).(journal := memory.journal, update := if kind.UpdateCommand? then Some(id) else old(memory).update)
      ensures received && id !in old(memory).journal ==>
                && memory.journal[id].kind == kind && memory.journal[id].run == run && memory.journal[id].job == job && memory.journal[id].key == key
                && memory.journal[id].state.Received? && !memory.journal[id].acknowledged && memory.journal[id].occurrence.None?
                && memory.journal[id].result.None? && memory.journal[id].pending == {} && !memory.journal[id].waiting
      ensures !received ==> memory == old(memory)
      ensures received <==> id in old(memory).journal || (Saves(Added(old(View()), id, Arrived(kind, run, job, key)), saves) && (kind.UpdateCommand? ==> stateSaves))
      ensures received && id !in old(memory).journal && !kind.UpdateCommand? ==> View() == Saved(Added(old(View()), id, Arrived(kind, run, job, key)), true)
    {
      hide Fixed, Sound, Saves, Extended, NoOtherUpdate, Compatible, Saved, Added;
      ExtendsItself(disk.claims);
      if id in memory.journal {
        return true;
      }
      NoUpdateYet(shapes, View(), id);
      var command, before := Arrived(kind, run, job, key), memory.journal;
      OpenMeansUpdate(command);
      received := Admit(id, command, saves);
      if received && kind.UpdateCommand? {
        if stateSaves {
          UpdateBegins(shapes, View(), id);
          memory := memory.(update := Some(id));
        } else {
          ghost var between := disk.claims;
          Withdraw(id, undoSaves);
          assert memory.journal == before;
          ExtendsOn(old(disk).claims, between, disk.claims);
          received := false;
        }
      }
    }

    /** A new command is in the journal once it is saved, and not at all otherwise. */
    method Admit(id: Id, command: Command, saves: bool) returns (admitted: bool)
      requires Valid() && MayAdd(View(), id, command) && command.occurrence.None? && memory.update != Some(id)
      modifies this
      ensures Valid() && Extended(old(disk).claims, disk.claims)
      ensures admitted == Saves(Added(old(View()), id, command), saves)
      ensures if admitted then View() == Saved(Added(old(View()), id, command), true) else memory == old(memory)
      ensures admitted ==> memory == old(memory).(journal := old(memory).journal[id := command]) && disk.journal == memory.journal
    {
      hide Fixed, Sound, Extended, Compatible, MayAdd;
      var before := memory.journal;
      ExtendsItself(disk.claims);
      NothingPendingYet(View(), id, command);
      Add(id, command);
      admitted := Save(saves);
      if !admitted {
        Remove(id);
        assert memory.journal == before;
      }
    }

    /** A command that was not received after all. */
    method Withdraw(id: Id, undoSaves: bool)
      requires Valid() && memory.update != Some(id) && id in memory.journal && memory.journal[id].pending == {}
      modifies this
      ensures Valid() && memory == old(memory).(journal := old(memory).journal - {id}) && Extended(old(disk).claims, disk.claims)
    {
      hide Fixed, Sound, Saves, Extended;
      ExtendsItself(disk.claims);
      Remove(id);
      if undoSaves {
        var undone := Save(true);
      }
    }

    /**
     * A manual command that expired before anybody acknowledged it is dropped, durably or not at all. When it
     * was the update, nothing waits for it any more, even if saving just that fails.
     */
    method DiscardExpired(id: Id, expired: bool, saves: bool, stateSaves: bool) returns (discarded: bool)
      requires Valid()
      modifies this
      ensures Valid()
      ensures if Droppable(old(memory).journal, id, expired) && Saves(Dropped(old(View()), id), saves)
              then View() == Saved(Dropped(old(View()), id), true)
              else View() == old(View())
      ensures discarded <==> Droppable(old(memory).journal, id, expired) && Saves(Dropped(old(View()), id), saves) &&
                             (old(memory).update == Some(id) ==> stateSaves)
      ensures discarded ==>
                && id in old(memory).journal && !old(memory).journal[id].acknowledged && old(memory).journal[id].occurrence.None? && expired
                && memory.journal == disk.journal == old(memory).journal - {id} && memory.update != Some(id)
      ensures id in old(memory).journal && !old(memory).journal[id].acknowledged && old(memory).journal[id].occurrence.None? && expired &&
              Saves(Dropped(old(View()), id), saves) ==>
                id !in memory.journal
    {
      hide Fixed, Sound, Extended, Compatible;
      if !Droppable(memory.journal, id, expired) {
        return false;
      }
      UnacknowledgedOwesNothing(shapes, View(), id);
      var before, wasUpdate := memory, memory.update == Some(id);
      if wasUpdate {
        UpdateEnds(shapes, View());
        memory := memory.(update := None);
      }
      Remove(id);
      discarded := Save(saves);
      if !discarded {
        memory := before;
      } else if wasUpdate {
        discarded := stateSaves;
      }
    }

    /** The cancellation has been passed on and leaves the journal. */
    method DropCancellation(id: Id, saves: bool)
      requires Valid()
      requires id in memory.journal ==> memory.journal[id].kind.CancelCommand? && memory.journal[id].state.Received?
      modifies this
      ensures Valid() && View() == Saved(Removed(old(View()), id), saves)
    {
      hide Fixed, Sound, Saves, Extended;
      if id in memory.journal {
        WaitingOwesNothing(shapes, View(), id);
      } else {
        NoUpdateYet(shapes, View(), id);
      }
      Remove(id);
      var done := Save(saves);
    }

    /** Inspects a source; the command goes on waiting meanwhile, so after a crash it is inspected again. */
    method StartInspection(id: Id) returns (started: bool)
      requires Valid() && memory.inspecting.None? // the dispatching goroutine does one thing at a time
      requires id in memory.journal ==> memory.journal[id].acknowledged && memory.journal[id].kind.InspectCommand?
      modifies this`memory, this`past
      ensures Valid()
      ensures started <==> old(memory).update.None? && id in old(memory).journal && old(memory).journal[id].state.Received?
      ensures View() == if started then InspectionStarted(old(View()), id) else old(View())
    {
      hide Fixed, Sound;
      if memory.update.Some? || id !in memory.journal || !memory.journal[id].state.Received? {
        return false;
      }
      InspectSound(shapes, View(), id);
      past := InspectionStarted(View(), id).past;
      memory := memory.(inspecting := Some(id));
      started := true;
    }

    /** The result of the inspection closes its command, whatever became of that meanwhile. */
    method FinishInspection(saves: bool)
      requires Valid() && memory.inspecting.Some?
      modifies this
      ensures Valid() && memory.inspecting.None?
      ensures var id := old(memory).inspecting.value;
              View() == if id in old(memory).journal then Saved(ClosedEmpty(InspectionEnded(old(View())), id), saves) else InspectionEnded(old(View()))
    {
      hide Fixed, Sound, Saves, Extended;
      var id := memory.inspecting.value;
      if id in memory.journal {
        InspectingFacts(shapes, View(), id);
      }
      InspectionEndSound(shapes, View());
      memory := memory.(inspecting := None);
      FinishWithoutExecution(id, saves);
    }

    /** What has been reported and owes no replica anything leaves the journal. */
    method ForgetReported(id: Id, reported: bool, saves: bool) returns (forgotten: bool)
      requires Valid()
      requires reported && id in memory.journal ==> memory.journal[id].state.Finished? // only a result is ever reported
      modifies this
      ensures Valid()
      ensures forgotten <==> reported && id in old(memory).journal && old(memory).journal[id].pending == {}
      ensures View() == if forgotten then Saved(Removed(old(View()), id), saves) else old(View())
    {
      hide Fixed, Sound, Saves, Extended;
      if id !in memory.journal || !reported || memory.journal[id].pending != {} {
        return false;
      }
      FinishedIsNotTheUpdate(shapes, View(), id);
      Remove(id);
      var done := Save(saves);
      forgotten := true;
    }

    /**
     * Starts a backup or maintenance run if it may run now. It runs only once it is durably running; a
     * save that fails puts it back, an event id that cannot be made leaves it as it is, never started.
     */
    method StartOperation(id: Id, pressed: bool, ulid: bool, stateSaves: bool, saves: bool) returns (started: bool)
      requires Valid()
      requires id in memory.journal ==> memory.journal[id].acknowledged && (memory.journal[id].kind.BackupCommand? || memory.journal[id].kind.MaintenanceCommand?)
      modifies this
      ensures Valid()
      ensures started <==>
                && !pressed && ulid && old(memory).update.None? && id in old(memory).journal && old(memory).journal[id].state.Received?
                && Fits(shapes, old(memory), ThreadOf(id, old(memory).journal[id]))
                && (old(memory).journal[id].kind.BackupCommand? || stateSaves)
                && Saves(Edited(old(View()), id, Marked(old(memory).journal[id])), saves)
      ensures !started && !pressed && ulid && old(memory).update.None? && id in old(memory).journal && old(memory).journal[id].state.Received? &&
              (old(memory).journal[id].kind.BackupCommand? || stateSaves) && Saves(Edited(old(View()), id, Marked(old(memory).journal[id])), saves) ==>
                MustWait(shapes, old(memory), old(memory).journal[id])
      ensures started ==> !MustWait(shapes, old(memory), old(memory).journal[id])
      ensures started ==> id !in old(past).launched
      ensures started ==> View() == Launched(shapes, Saved(Edited(old(View()), id, Marked(old(memory).journal[id])), true), id)
      ensures !started ==>
                View() == old(View()) || (!ulid && id in old(memory).journal && View() == Edited(old(View()), id, Marked(old(memory).journal[id])))
    {
      hide Fixed, Sound, Extended, Compatible, Launched, Fits, MayLaunch, MustWait;
      started := false;
      if pressed || memory.update.Some? || id !in memory.journal || !memory.journal[id].state.Received? {
        return;
      }
      var command, before := memory.journal[id], memory.journal;
      WaitsUnlessFits(shapes, View(), id);
      var fits := FitsNow(shapes, memory, ThreadOf(id, command));
      if !fits || (!command.kind.BackupCommand? && !stateSaves) {
        return;
      }
      WaitingNotLaunched(shapes, View(), id);
      Edit(id, Marked(command));
      if !ulid {
        return;
      }
      var done := Save(saves);
      if !done {
        Edit(id, command);
        assert memory.journal == before;
        return;
      }
      MarkedFits(shapes, old(memory), View(), id);
      LaunchRun(id);
      started := true;
    }

    /**
     * Maintenance or replication of the job has ended: the earliest backup that waited for it may start. This
     * only chooses it; it is started in a section of its own, like any other run, if it may run by then.
     */
    method ChooseCatchUpBackup(job: Id) returns (chosen: Option<Id>)
      requires Valid()
      ensures chosen.Some? ==> memory.update.None? && FirstCatchUp(memory.journal, chosen.value, job)
      ensures chosen.Some? ==> memory.journal[chosen.value].state.Received? && memory.journal[chosen.value].catchUp && memory.journal[chosen.value].job == job
      ensures chosen.Some? ==> memory.journal[chosen.value].acknowledged && memory.journal[chosen.value].kind.BackupCommand?
      ensures chosen.None? && memory.update.None? ==> forall id | id in memory.journal :: !CatchesUp(memory.journal[id], job)
    {
      hide Fixed, Sound;
      if memory.update.Some? {
        return None;
      }
      chosen := NextCatchUp(memory.journal, job);
      if chosen.Some? {
        CatchUpFacts(shapes, View(), chosen.value);
      }
    }

    method LaunchRun(id: Id)
      requires Valid() && id in memory.journal && MayLaunch(shapes, View(), id)
      modifies this`memory, this`past
      ensures Valid() && View() == Launched(shapes, old(View()), id)
    {
      hide Fixed, Sound, MayLaunch, HeldByRun, Give;
      LaunchSound(shapes, View(), id);
      past := Launched(shapes, View(), id).past;
      memory := Started(shapes, memory, memory.journal[id].run, ThreadOf(id, memory.journal[id]));
    }

    /**
     * A run is over, whatever the journal says about it by now. Its repositories become free, and a
     * backup that made snapshots leaves all replicas of its job pending.
     */
    method FinishOperation(run: Id, snapshots: set<Id>, good: bool, saves: bool)
      requires Valid() && run in memory.runs
      modifies this
      ensures Valid() && View() == Saved(FinishedRun(shapes, old(View()), run, snapshots, good), saves)
      ensures memory.repositories == old(memory).repositories - HeldByRun(shapes, old(memory).runs[run])
      ensures var thread := old(memory).runs[run];
              thread.command in old(memory).journal ==>
                && memory.journal[thread.command].state.Finished? && memory.journal[thread.command].result == Some(Outcome(thread.job, snapshots))
                && memory.journal[thread.command].pending ==
                     if thread.backup && good && snapshots != {} && shapes(thread.job).replicas != map[] then shapes(thread.job).replicas.Keys else {}
    {
      if memory.runs[run].command in memory.journal {
        FinishedPending(shapes, View(), run, snapshots, good);
      }
      hide Fixed, Sound, HeldByRun, Freed, Extended, Saves, FinishedCommand, Debts;
      FinishSound(shapes, owners, View(), run, snapshots, good);
      var thread := memory.runs[run];
      past := FinishedRun(shapes, View(), run, snapshots, good).past;
      memory := Stopped(shapes, memory, run);
      if thread.command in memory.journal {
        memory := memory.(journal := memory.journal[thread.command := FinishedCommand(memory.journal[thread.command], shapes, thread, snapshots, good)]);
      }
      var done := Save(saves);
    }

    /** The scheduler looks whether anything was decided about an occurrence that is due. */
    method LookUp(occurrence: Occurrence) returns (unclaimed: bool)
      requires Valid()
      modifies this`memory
      ensures Valid() && unclaimed == (occurrence !in disk.claims)
      ensures memory == old(memory).(looking := if unclaimed then Some(occurrence) else None)
    {
      hide Fixed, Sound;
      unclaimed := occurrence !in disk.claims;
      if unclaimed {
        LookSound(shapes, View(), occurrence);
      } else {
        LookedSound(shapes, View());
      }
      memory := memory.(looking := if unclaimed then Some(occurrence) else None);
    }

    /**
     * The occurrence that was looked up becomes a command under a fresh run id, durable with its claim before
     * anything is started for it. Nobody else can have claimed it since it was looked up.
     */
    method Schedule(occurrence: Occurrence, run: Id, deferral: Option<nat>, catchUp: bool, overlap: bool, saves: bool) returns (claimed: bool)
      requires Valid() && memory.looking == Some(occurrence) && (catchUp ==> occurrence.kind.Backup?)
      requires !(overlap && (deferral.Some? || catchUp)) // what may wait is not refused for an overlap
      requires run !in past.owner && run !in memory.journal && run !in disk.journal && run !in past.launched && NeverLaunched(past.launches, run)
      modifies this
      ensures Valid() && Extended(old(disk).claims, disk.claims)
      ensures claimed ==> occurrence !in old(disk).claims && occurrence in disk.claims && disk.claims[occurrence] == RunClaim(run)
      ensures claimed ==>
                memory == old(memory).(looking := None, journal := old(memory).journal[run := Due(occurrence, run, deferral, catchUp, overlap)])
      ensures claimed ==>
                && run in memory.journal && memory.journal[run].run == run && memory.journal[run].job == occurrence.job
                && memory.journal[run].occurrence == Some(occurrence) && memory.journal[run].acknowledged && memory.journal[run].pending == {}
                && (if occurrence.kind.Backup? then memory.journal[run].kind.BackupCommand? else memory.journal[run].kind.MaintenanceCommand?)
                && (if overlap then memory.journal[run].state.Finished? && memory.journal[run].result == Some(Outcome(occurrence.job, {}))
                    else memory.journal[run].state.Received? && memory.journal[run].result.None?)
                && (memory.journal[run].waiting <==> deferral.Some?) && memory.journal[run].deferral == deferral && memory.journal[run].catchUp == catchUp
      ensures claimed ==> disk.journal == memory.journal
      ensures claimed <==> Saves(Added(old(View()), run, Due(occurrence, run, deferral, catchUp, overlap)), saves)
      ensures !claimed ==> View() == old(View())
    {
      hide Fixed, Sound, Extended, Compatible;
      ExtendsItself(disk.claims);
      LookedFacts(shapes, View());
      var command := Due(occurrence, run, deferral, catchUp, overlap);
      var journal := memory.journal[run := command];
      claimed := saves && Compatible(journal, disk.claims);
      if claimed {
        ScheduleSound(shapes, View(), run, command);
        past := Scheduled(View(), run, command).past;
        memory := memory.(looking := None, journal := journal);
        disk := Disk(journal, Claims(journal, disk.claims));
        SavedIsClaimed(shapes, View(), run);
      }
    }

    /** The occurrence is passed over, because one is queued already or the disk is full: whatever its claim was, it is overwritten. */
    method SkipOccurrence(occurrence: Occurrence, ok: bool)
      requires Valid() && memory.looking == Some(occurrence)
      modifies this`memory, this`disk
      ensures Valid() && Extended(old(disk).claims, disk.claims)
      ensures View() == if ok then PassedOver(old(View()), occurrence) else old(View())
    {
      hide Fixed, Sound, Extended;
      ExtendsItself(disk.claims);
      if ok {
        SkipSound(shapes, View(), occurrence);
        memory := memory.(looking := None);
        disk := disk.(claims := disk.claims[occurrence := Gap]);
      }
    }

    /** Copies a job's snapshots to one replica because the control plane asks for it. */
    method StartReplicaSync(id: Id, saves: bool, closeSaves: bool) returns (started: bool)
      requires Valid()
      requires id in memory.journal ==> memory.journal[id].acknowledged && memory.journal[id].kind.SyncCommand?
      modifies this
      ensures Valid()
      ensures started ==> old(memory).update.None? && id in old(memory).journal && old(memory).journal[id].state.Received? && id !in old(past).launched
      ensures started ==> TargetOf(shapes, old(memory), id).Some? && old(memory).journal[id].job !in old(memory).replicating
      ensures started ==>
                var shape, key := shapes(old(memory).journal[id].job), old(memory).journal[id].key;
                TargetOf(shapes, old(memory), id).value ==
                  if key in shape.setups then shape.setups[key] else if key in shape.replicas then shape.replicas[key] else shape.primary
      ensures started ==> {shapes(old(memory).journal[id].job).primary, TargetOf(shapes, old(memory), id).value} * old(memory).repositories == {}
      ensures started ==> View() == SyncStarted(shapes, Saved(Edited(old(View()), id, Marked(old(memory).journal[id])), true), id, TargetOf(shapes, old(memory), id).value)
      ensures !started && old(memory).update.None? && id in old(memory).journal && old(memory).journal[id].state.Received? &&
              TargetOf(shapes, old(memory), id).Some? && Saves(Edited(old(View()), id, Marked(old(memory).journal[id])), saves) ==>
                || old(memory).journal[id].job in old(memory).replicating
                || shapes(old(memory).journal[id].job).primary in old(memory).repositories
                || TargetOf(shapes, old(memory), id).value in old(memory).repositories
      ensures !started && !(id in old(memory).journal && TargetOf(shapes, old(memory), id).None?) ==> View() == old(View())
      ensures !started && id in old(memory).journal && TargetOf(shapes, old(memory), id).None? ==>
                View() == old(View()) || View() == Saved(ClosedEmpty(old(View()), id), closeSaves)
    {
      hide Fixed, Sound, Extended, Compatible, SyncStarted, MaySync, Replicas;
      started := false;
      if memory.update.Some? || id !in memory.journal || !memory.journal[id].state.Received? {
        return;
      }
      var command, before := memory.journal[id], memory.journal;
      var found := ReplicaFor(shapes(command.job), command.key);
      if found.None? {
        FinishWithoutExecution(id, closeSaves);
        return;
      }
      var target := found.value;
      if command.job in memory.replicating || shapes(command.job).primary in memory.repositories || target in memory.repositories {
        return;
      }
      WaitingNotLaunched(shapes, View(), id);
      Edit(id, Marked(command));
      var done := Save(saves);
      if !done {
        Edit(id, command);
        assert memory.journal == before;
        return;
      }
      MaySyncNow(shapes, View(), id, target);
      SyncSound(shapes, View(), id, target);
      past := SyncStarted(shapes, View(), id, target).past;
      memory := SyncMemory(shapes, memory, id, target);
      SyncIs(shapes, World(old(memory).(journal := before[id := Marked(command)]), disk, old(past).(savedOwed := old(past).owed, savedReclosed := old(past).verified.reclosed)), id, target);
      started := true;
    }

    /** The end of that; a command closed in the meantime is closed again. */
    method FinishReplicaSync(job: Id, saves: bool)
      requires Valid() && job in memory.streams && memory.streams[job].Sync?
      modifies this
      ensures Valid() && job !in memory.streams && job !in memory.replicating
      ensures memory.repositories == old(memory).repositories - {shapes(job).primary, old(memory).streams[job].target}
      ensures memory.streams == old(memory).streams - {job} && memory.runs == old(memory).runs
      ensures memory.journal == if old(memory).streams[job].command in old(memory).journal
                                then old(memory).journal[old(memory).streams[job].command := Closed(old(memory).journal[old(memory).streams[job].command], {})]
                                else old(memory).journal
    {
      hide Fixed, Sound, Saves, Extended;
      var id, held := memory.streams[job].command, HeldByStream(shapes, job, memory.streams[job]);
      StreamEndSound(shapes, View(), job);
      memory := memory.(streams := memory.streams - {job}, replicating := memory.replicating - {job}, repositories := memory.repositories - held);
      past := past.(holders := past.holders - held);
      FinishWithoutExecution(id, saves);
    }

    /** Begins to copy what is pending of a job, unless that is being done. */
    method StartReplication(job: Id) returns (started: bool)
      requires Valid()
      modifies this`memory
      ensures Valid() && started == (old(memory).update.None? && job !in old(memory).replicating)
      ensures View() == if started then StreamMoved(old(View()), job, Choosing) else old(View())
    {
      hide Fixed, Sound;
      if memory.update.Some? || job in memory.replicating {
        return false;
      }
      NoStreamYet(shapes, View(), job);
      StreamMoveSound(shapes, View(), job, Choosing);
      memory := memory.(streams := memory.streams[job := Choosing], replicating := memory.replicating + {job});
      started := true;
    }

    /** The first replica for which something is due, with all that is. */
    method ChooseBatch(job: Id, due: set<Debt>) returns (stream: Stream)
      requires Valid() && job in memory.streams && memory.streams[job].Choosing?
      modifies this`memory
      ensures Valid() && View() == StreamMoved(old(View()), job, stream)
      ensures stream.Leaving? || (stream.Chosen? && ChosenFrom(memory.journal, shapes, job, due, stream))
      ensures stream.Leaving? ==> forall key | key in shapes(job).replicas :: Batch(memory.journal, job, key, due) == {}
      ensures stream.Chosen? ==> forall id ::
                id in stream.batch <==>
                id in memory.journal && memory.journal[id].state.Finished? && stream.key in memory.journal[id].pending &&
                memory.journal[id].result.Some? && memory.journal[id].result.value.job == job && Debt(id, stream.key) in due
    {
      hide Fixed, Sound;
      stream := NextBatch(memory.journal, shapes, job, due);
      ChosenIsOk(shapes, View(), job, due, stream);
      StreamMoveSound(shapes, View(), job, stream);
      memory := memory.(streams := memory.streams[job := stream], replicating := memory.replicating + {job});
    }

    /** Takes the primary and the replica, or gives up when one of them is busy. */
    method TakeRepositories(job: Id) returns (taken: bool)
      requires Valid() && job in memory.streams && memory.streams[job].Chosen?
      modifies this`memory, this`past
      ensures Valid()
      ensures taken <==> {shapes(job).primary, old(memory).streams[job].target} * old(memory).repositories == {}
      ensures View() == if taken then CopyStarted(shapes, old(View()), job) else StreamMoved(old(View()), job, Leaving)
    {
      hide Fixed, Sound, Give;
      var chosen := memory.streams[job];
      if shapes(job).primary in memory.repositories || chosen.target in memory.repositories {
        assert {shapes(job).primary, chosen.target} * memory.repositories != {} by {
          var busy := if shapes(job).primary in memory.repositories then shapes(job).primary else chosen.target;
          assert busy in {shapes(job).primary, chosen.target} * memory.repositories;
        }
        StreamMoveSound(shapes, View(), job, Leaving);
        memory := memory.(streams := memory.streams[job := Leaving], replicating := memory.replicating + {job});
        return false;
      }
      CopyStartSound(shapes, View(), job);
      past := CopyStarted(shapes, View(), job).past;
      memory := memory.(streams := memory.streams[job := Copying(chosen.key, chosen.target, chosen.batch)],
                        repositories := memory.repositories + {shapes(job).primary, chosen.target});
      taken := true;
    }

    /** The copy is over, well or not; both repositories are free again. */
    method FinishCopy(job: Id, ok: bool)
      requires Valid() && job in memory.streams && memory.streams[job].Copying?
      modifies this`memory, this`past
      ensures Valid() && View() == CopyEnded(shapes, old(View()), job, ok)
    {
      hide Fixed, Sound;
      var copying := memory.streams[job];
      CopyEndSound(shapes, View(), job, ok);
      past := CopyEnded(shapes, View(), job, ok).past;
      memory := memory.(streams := memory.streams[job := Copied(copying.key, copying.batch, ok)],
                        repositories := memory.repositories - {shapes(job).primary, copying.target});
    }

    /** Lists the replica after a good copy; it is complete only when it shows every snapshot of the whole batch. */
    method ReadInventory(job: Id, listing: Option<set<Id>>) returns (stream: Stream)
      requires Valid() && job in memory.streams && memory.streams[job].Copied?
      modifies this`memory
      ensures Valid() && View() == StreamMoved(old(View()), job, stream)
      ensures stream == Listed(old(memory).journal, old(memory).streams[job], listing)
      ensures var copied := old(memory).streams[job];
              stream.Verified? && stream.key == copied.key && stream.batch == copied.batch &&
              (copied.ok && listing.Some? ==>
                 stream.inventory == listing.value &&
                 (stream.complete <==> forall id, snapshot | id in copied.batch && id in memory.journal && memory.journal[id].result.Some? &&
                                         snapshot in memory.journal[id].result.value.snapshots :: snapshot in listing.value)) &&
              (!copied.ok ==> !stream.complete)
    {
      if listing.Some? {
        ShownOneByOne(memory.journal, memory.streams[job].batch, listing.value);
      }
      hide Fixed, Sound, ShowsAll;
      stream := Listed(memory.journal, memory.streams[job], listing);
      VerifiedIsOk(shapes, View(), job, stream);
      StreamMoveSound(shapes, View(), job, stream);
      memory := memory.(streams := memory.streams[job := stream], replicating := memory.replicating + {job});
    }

    /** After a verified batch its commands no longer wait for this replica; after any other they do. */
    method FinishBatch(job: Id, saves: bool)
      requires Valid() && job in memory.streams && memory.streams[job].Verified?
      modifies this
      ensures Valid()
      ensures var stream := old(memory).streams[job];
              && memory == old(memory).(journal := memory.journal, streams := old(memory).streams[job := if stream.complete then Choosing else Leaving])
              && BatchDone(old(memory).journal, memory.journal, stream.batch, stream.key, stream.complete)
              && (forall id | id in stream.batch && id in memory.journal && memory.journal[id].pending != old(memory).journal[id].pending ::
                    Copy(id, stream.key, stream.inventory) in past.verified.copies)
      ensures var stream := old(memory).streams[job];
              && (forall id | id in old(memory).journal :: id in memory.journal)
              && (stream.complete ==> forall id | id in stream.batch && id in memory.journal && memory.journal[id].result.Some? ::
                    stream.key !in memory.journal[id].pending)
              && (forall id, key | id in memory.journal && key != stream.key ::
                    key in memory.journal[id].pending <==> id in old(memory).journal && key in old(memory).journal[id].pending)
    {
      hide Fixed, Sound, Saves, Extended;
      var stream := memory.streams[job];
      if stream.complete {
        var rest := stream.batch;
        while rest != {}
          invariant Valid() && rest <= stream.batch && memory == old(memory).(journal := memory.journal)
          invariant BatchDone(old(memory).journal, memory.journal, stream.batch - rest, stream.key, stream.complete)
          invariant forall id | id in stream.batch && id in memory.journal && memory.journal[id].pending != old(memory).journal[id].pending ::
                      Copy(id, stream.key, stream.inventory) in past.verified.copies
          decreases rest
        {
          var id :| id in rest;
          if id in memory.journal && memory.journal[id].result.Some? && stream.key in memory.journal[id].pending {
            VerifiedShows(shapes, View(), job, id);
            PaySound(shapes, View(), id, stream.key, stream.inventory);
            past := past.(verified := WithCopy(past.verified, Copy(id, stream.key, stream.inventory)));
            memory := memory.(journal := memory.journal[id := memory.journal[id].(pending := memory.journal[id].pending - {stream.key})]);
          }
          rest := rest - {id};
        }
      }
      var next := if stream.complete then Choosing else Leaving;
      StreamMoveSound(shapes, View(), job, next);
      StreamIsReplicating(shapes, View(), job);
      memory := memory.(streams := memory.streams[job := next], replicating := memory.replicating + {job});
      var done := Save(saves);
    }

    /** The copying goroutine is done with the job. */
    method LeaveReplication(job: Id)
      requires Valid() && job in memory.streams && memory.streams[job].Leaving?
      modifies this`memory, this`past
      ensures Valid() && memory == old(memory).(streams := old(memory).streams - {job}, replicating := old(memory).replicating - {job})
    {
      hide Fixed, Sound;
      StreamEndSound(shapes, View(), job);
      past := StreamEnded(shapes, View(), job).past;
      memory := memory.(streams := memory.streams - {job}, replicating := memory.replicating - {job});
      assert memory.repositories - {} == memory.repositories;
    }

    /** The update starts only when nothing is active, busy or being copied, and durably. */
    method StartUpdate(id: Id, saves: bool) returns (started: bool)
      requires Valid()
      requires memory.inspecting.None? // the dispatching goroutine does one thing at a time
      requires id in memory.journal ==> memory.journal[id].kind.UpdateCommand? && memory.journal[id].acknowledged
      modifies this
      ensures Valid()
      ensures started ==> old(memory).kinds == map[] && old(memory).repositories == {} && old(memory).replicating == {} && old(memory).update == Some(id)
      ensures started <==>
                && id in old(memory).journal && old(memory).journal[id].state.Received? && old(memory).update.Some?
                && old(memory).kinds == map[] && old(memory).repositories == {} && old(memory).replicating == {}
                && Saves(Edited(old(View()), id, Marked(old(memory).journal[id])), saves)
      ensures started ==> View() == Handing(Saved(Edited(old(View()), id, Marked(old(memory).journal[id])), true), id)
      ensures !started ==> View() == old(View())
    {
      hide Fixed, Sound, Extended, Compatible;
      if id !in memory.journal || !memory.journal[id].state.Received? || memory.update.None? ||
         memory.kinds != map[] || memory.repositories != {} || memory.replicating != {}
      {
        return false;
      }
      var command, before := memory.journal[id], memory.journal;
      WaitingUpdate(shapes, View(), id);
      WaitingNotLaunched(shapes, View(), id);
      UpdateEditSound(shapes, View(), id, Running);
      memory := memory.(journal := memory.journal[id := Marked(command)]);
      var done := Save(saves);
      if !done {
        UpdateEditSound(shapes, View(), id, Received);
        memory := memory.(journal := memory.journal[id := command]);
        assert memory.journal == before;
        return false;
      }
      HandSound(shapes, View(), id);
      memory := memory.(handing := Some(id));
      started := true;
    }

    /** The request file is there, or could not be written and the command waits again. */
    method HandOver(ok: bool, saves: bool)
      requires Valid() && memory.handing.Some?
      modifies this
      ensures Valid() && memory.handing.None?
      ensures ok ==> past.handed == old(memory).handing && memory == old(memory).(handing := None) && disk == old(disk)
      ensures !ok ==> past.handed.None? && old(memory).handing.value in old(memory).journal
      ensures !ok ==> memory == TakenBack(old(memory)) && memory.journal[old(memory).handing.value].state.Received?
    {
      hide Fixed, Sound, Saves, Extended;
      var id := memory.handing.value;
      if ok {
        HandedSound(shapes, View());
        past := Handed(View()).past;
        memory := memory.(handing := None);
      } else {
        TakenBackSound(shapes, View());
        memory := memory.(handing := None);
        UpdateEditSound(shapes, View(), id, Received);
        memory := memory.(journal := memory.journal[id := memory.journal[id].(state := Received)]);
        var done := Save(saves);
      }
    }

    /** A result of the helper; there is none before a request was handed over. */
    method ConsumeResult(run: Id, saves: bool) returns (consumed: bool)
      requires Valid() && memory.handing.None?
      modifies this
      ensures Valid()
      ensures consumed ==> old(memory).update.Some? && old(memory).update.value in old(memory).journal && old(memory).journal[old(memory).update.value].run == run
      ensures !consumed && old(memory).update.Some? ==>
                old(memory).update.value in old(memory).journal && old(memory).journal[old(memory).update.value].run != run
      ensures consumed ==> memory.update.None? && past.handed.None? && old(memory).update.value in memory.journal && memory.journal[old(memory).update.value].state.Finished?
      ensures consumed ==> View() == Saved(Consumed(old(View()), old(memory).update.value), saves)
      ensures !consumed ==> View() == old(View())
    {
      hide Fixed, Sound, Saves, Extended;
      if memory.update.None? {
        return false;
      }
      var id := memory.update.value;
      UpdateIsThere(shapes, View(), id);
      if memory.journal[id].run != run {
        return false;
      }
      ConsumeSound(shapes, View(), id);
      past := past.(handed := None);
      memory := memory.(journal := memory.journal[id := Closed(memory.journal[id], {})], update := None);
      var done := Save(saves);
      consumed := true;
    }

    /** A crash and a restart, at any moment. */
    method Restart()
      requires Valid()
      modifies this`memory, this`past
      ensures Valid() && View() == Restarted(old(View()), memory.update)
      ensures Restores(disk.journal, memory.update)
      ensures past.handed.Some? ==> memory.update == past.handed
    {
      hide Fixed, Sound, Restores;
      var update := FindUpdate(disk.journal);
      RestartSound(shapes, View(), update);
      past := Restarted(View(), update).past;
      memory := EMPTY.memory.(journal := disk.journal, update := update);
      HandedIsTheUpdate(shapes, View());
    }
  }

  /** Left running; an update is not looked after here. */
  predicate Interrupted(journal: Journal, id: Id) {
    id in journal && journal[id].state.Running? && !journal[id].kind.UpdateCommand?
  }

  function Marked(command: Command): Command {
    command.(state := Running)
  }

  /** A command as the control plane sends it. */
  function Arrived(kind: CommandKind, run: Id, job: Id, key: Id): Command {
    Command(kind, run, job, key, None, Received, false, false, None, false, None, {})
  }

  /**
   * Why a run has to wait: for a backup, two others are active or its primary is busy; for maintenance, one is
   * active, or the primary or a replica is busy, or the job is being copied, or a replica of it is pending.
   */
  ghost predicate MustWait(shapes: Shapes, m: Memory, command: Command) {
    if command.kind.BackupCommand? then
      || (exists a, b :: a in m.runs && b in m.runs && a != b && m.runs[a].backup && m.runs[b].backup)
      || shapes(command.job).primary in m.repositories
    else
      || (exists run :: run in m.runs && !m.runs[run].backup)
      || shapes(command.job).primary in m.repositories
      || (exists key :: key in shapes(command.job).replicas && shapes(command.job).replicas[key] in m.repositories)
      || command.job in m.replicating
      || (exists id :: id in m.journal && m.journal[id].result.Some? && m.journal[id].result.value.job == command.job && m.journal[id].pending != {})
  }

  /** A run fits in exactly when nothing makes it wait. */
  lemma WaitsUnlessFits(shapes: Shapes, w: World, id: Id)
    requires Sound(shapes, w) && id in w.memory.journal
    requires w.memory.journal[id].kind.BackupCommand? || w.memory.journal[id].kind.MaintenanceCommand?
    ensures Fits(shapes, w.memory, ThreadOf(id, w.memory.journal[id])) <==> !MustWait(shapes, w.memory, w.memory.journal[id])
  {
    var m, command := w.memory, w.memory.journal[id];
    CapacityByRuns(m.kinds, m.runs);
    hide Sound, BackupRuns, MaintenanceRuns;
    var shape := shapes(command.job);
    assert HeldByRun(shapes, ThreadOf(id, command)) * m.repositories == {} <==>
           shape.primary !in m.repositories &&
           (command.kind.BackupCommand? || forall key | key in shape.replicas :: shape.replicas[key] !in m.repositories) by {
      var held := HeldByRun(shapes, ThreadOf(id, command));
      assert held == {shape.primary} + if command.kind.BackupCommand? then {} else shape.replicas.Values;
      if repository :| repository in held * m.repositories {
        assert repository == shape.primary || repository in shape.replicas.Values;
      }
      assert shape.primary in m.repositories ==> shape.primary in held * m.repositories;
      forall key | key in shape.replicas && shape.replicas[key] in m.repositories && !command.kind.BackupCommand?
        ensures shape.replicas[key] in held * m.repositories
      {
      }
    }
  }

  lemma CapacityByRuns(kinds: map<Id, bool>, runs: map<Id, RunThread>)
    requires WithinCapacity(kinds, runs)
    ensures |BackupRuns(kinds)| >= 2 <==> exists a, b :: a in runs && b in runs && a != b && runs[a].backup && runs[b].backup
    ensures |MaintenanceRuns(kinds)| >= 1 <==> exists run :: run in runs && !runs[run].backup
  {
    Cardinality.TwoMembers(BackupRuns(kinds));
    if a, b :| a in runs && b in runs && a != b && runs[a].backup && runs[b].backup {
      assert a in BackupRuns(kinds) && b in BackupRuns(kinds);
    }
    if a, b :| a in BackupRuns(kinds) && b in BackupRuns(kinds) && a != b {
      assert a in runs && b in runs && runs[a].backup && runs[b].backup;
    }
    if |MaintenanceRuns(kinds)| >= 1 {
      var run :| run in MaintenanceRuns(kinds);
      assert run in runs && !runs[run].backup;
    }
    if run :| run in runs && !runs[run].backup {
      assert run in MaintenanceRuns(kinds);
    }
  }

  /** A daemon that is durably where it is, with no update and nothing from a schedule. */
  ghost predicate Plain(w: World) {
    && w.memory.update.None? && w.memory.inspecting.None? && w.disk.claims == map[] && w.disk.journal == w.memory.journal
    && forall id | id in w.memory.journal :: w.memory.journal[id].occurrence.None?
  }

  /** A command that no schedule asked for, as far as its acknowledgement. */
  function Sent(kind: CommandKind, run: Id, job: Id): Command {
    Arrived(kind, run, job, 0).(acknowledged := true)
  }

  method Bring(daemon: Daemon, id: Id, kind: CommandKind, job: Id, run: Id)
    requires daemon.Valid() && Plain(daemon.View()) && (kind.InspectCommand? || kind.BackupCommand?)
    requires id !in daemon.memory.journal && id !in daemon.past.launched && NeverLaunched(daemon.past.launches, id) && run !in daemon.past.owner
    modifies daemon
    ensures daemon.Valid() && Plain(daemon.View())
    ensures daemon.memory == old(daemon.memory).(journal := old(daemon.memory).journal[id := Sent(kind, run, job)])
    ensures daemon.past == old(daemon.past).(owner := old(daemon.past).owner[run := id], savedOwed := daemon.past.owed, savedReclosed := daemon.past.verified.reclosed)
  {
    hide Fixed, Sound, Extended, Compatible, Claims;
    var journal := daemon.memory.journal;
    Unscheduled(journal[id := Arrived(kind, run, job, 0)]);
    var received := daemon.Receive(id, kind, job, 0, run, true, true, true);
    Unscheduled(journal[id := Sent(kind, run, job)]);
    assert daemon.memory.journal[id := Sent(kind, run, job)] == journal[id := Sent(kind, run, job)];
    daemon.Acknowledge(id, true);
  }

  method StartNow(daemon: Daemon, id: Id) returns (started: bool)
    requires daemon.Valid() && Plain(daemon.View()) && id in daemon.memory.journal
    requires daemon.memory.journal[id].kind.BackupCommand? && daemon.memory.journal[id].state.Received? && daemon.memory.journal[id].acknowledged
    modifies daemon
    ensures daemon.Valid() && Plain(daemon.View())
    ensures started <==> !MustWait(daemon.shapes, old(daemon.memory), old(daemon.memory).journal[id])
    ensures !started ==> daemon.View() == old(daemon.View())
    ensures started ==>
              var command := old(daemon.memory).journal[id];
              && daemon.memory == Started(daemon.shapes, old(daemon.memory).(journal := old(daemon.memory).journal[id := Marked(command)]),
                                          command.run, ThreadOf(id, command))
              && daemon.past.launches == old(daemon.past).launches + [LaunchOf(id, command)] && daemon.past.owner == old(daemon.past).owner
              && daemon.past.launched == old(daemon.past).launched + {id}
              && daemon.past.owed == daemon.past.savedOwed == old(daemon.past).owed
  {
    hide Fixed, Sound, Extended, Compatible, Claims, Fits, MustWait, HeldByRun, Give;
    Unscheduled(daemon.memory.journal[id := Marked(daemon.memory.journal[id])]);
    started := daemon.StartOperation(id, false, true, true, true);
  }

  /** Two backups of different primaries are active at once; a third has to wait although its primary is free. */
  method ThirdBackupWaits(shapes: Shapes, ghost owners: Id -> Id, a: Id, b: Id, c: Id) returns (daemon: Daemon, third: bool)
    requires Fixed(shapes, owners) && a != b && b != c && c != a
    requires shapes(a).primary != shapes(b).primary && shapes(b).primary != shapes(c).primary && shapes(c).primary != shapes(a).primary
    ensures fresh(daemon) && daemon.Valid() && !third
    ensures daemon.memory.runs == map[a := RunThread(a, a, true), b := RunThread(b, b, true)]
    ensures c in daemon.memory.journal && daemon.memory.journal[c].state.Received? && shapes(c).primary !in daemon.memory.repositories
  {
    hide Fixed, Sound, Plain;
    daemon := ThreeBackups(shapes, owners, a, b, c);
    var first := StartNow(daemon, a);
    assert first;
    var second := StartNow(daemon, b);
    assert second;
    assert a in daemon.memory.runs && b in daemon.memory.runs;
    third := StartNow(daemon, c);
  }

  method ThreeBackups(shapes: Shapes, ghost owners: Id -> Id, a: Id, b: Id, c: Id) returns (daemon: Daemon)
    requires Fixed(shapes, owners) && a != b && b != c && c != a
    ensures fresh(daemon) && daemon.Valid() && daemon.shapes == shapes && Plain(daemon.View())
    ensures daemon.memory == EMPTY.memory.(journal := map[a := Sent(BackupCommand, a, a), b := Sent(BackupCommand, b, b), c := Sent(BackupCommand, c, c)])
  {
    hide Fixed, Sound;
    daemon := new Daemon(shapes, owners);
    Bring(daemon, a, BackupCommand, a, a);
    Bring(daemon, b, BackupCommand, b, b);
    Bring(daemon, c, BackupCommand, c, c);
  }

  /** One command, which no schedule asked for, on a daemon that has nothing else. */
  method OneCommand(shapes: Shapes, ghost owners: Id -> Id, id: Id, kind: CommandKind, job: Id, run: Id) returns (daemon: Daemon)
    requires Fixed(shapes, owners) && (kind.InspectCommand? || kind.BackupCommand?)
    ensures fresh(daemon) && daemon.Valid() && daemon.shapes == shapes && Plain(daemon.View())
    ensures daemon.memory == EMPTY.memory.(journal := map[id := Sent(kind, run, job)])
    ensures daemon.past == EMPTY.past.(owner := map[run := id])
  {
    hide Fixed, Sound;
    daemon := new Daemon(shapes, owners);
    Bring(daemon, id, kind, job, run);
  }

  lemma Unscheduled(journal: Journal)
    requires forall id | id in journal :: journal[id].occurrence.None?
    ensures Compatible(journal, map[]) && Claims(journal, map[]) == map[]
  {
  }

  /** The one kind of command that is launched twice: a crash comes between the inspection and the save of its result. */
  method InspectedTwice(shapes: Shapes, ghost owners: Id -> Id, id: Id, job: Id, run: Id) returns (daemon: Daemon)
    requires Fixed(shapes, owners)
    ensures fresh(daemon) && daemon.Valid() && daemon.past.launches == [Launch(id, run, None, true), Launch(id, run, None, true)]
  {
    hide Fixed, Sound;
    daemon := OneCommand(shapes, owners, id, InspectCommand, job, run);
    var started := daemon.StartInspection(id);
    daemon.Restart();
    started := daemon.StartInspection(id);
  }

  /** A backup with snapshots and replicas that a crash interrupts: it is closed as finished, and nothing of it is copied. */
  method UnreplicatedBackup(shapes: Shapes, ghost owners: Id -> Id, id: Id, job: Id, run: Id, snapshots: set<Id>) returns (daemon: Daemon)
    requires Fixed(shapes, owners) && snapshots != {} && shapes(job).replicas != map[]
    ensures fresh(daemon) && daemon.Valid() && daemon.past.launches == [Launch(id, run, None, false)]
    ensures id in daemon.memory.journal && daemon.memory.journal[id].state.Finished? && daemon.memory.journal[id].result == Some(Outcome(job, snapshots))
    ensures daemon.memory.journal[id].pending == {} && daemon.past.owed == map[]
  {
    hide Fixed, Sound;
    daemon := OneBackup(shapes, owners, id, job, run);
    daemon.Restart();
    daemon.Reconcile(id, snapshots, true);
  }

  /** One backup on such a daemon, running. */
  method OneBackup(shapes: Shapes, ghost owners: Id -> Id, id: Id, job: Id, run: Id) returns (daemon: Daemon)
    requires Fixed(shapes, owners)
    ensures fresh(daemon) && daemon.Valid() && daemon.past.launches == [Launch(id, run, None, false)]
    ensures daemon.disk.journal == map[id := Marked(Sent(BackupCommand, run, job))]
    ensures daemon.past.owed == daemon.past.savedOwed == map[]
  {
    hide Fixed, Sound;
    daemon := OneCommand(shapes, owners, id, BackupCommand, job, run);
    var started := StartNow(daemon, id);
    assert started;
  }

  /** The waiting run that a cancellation names, when nothing of that run is active. */
  method FindCancelled(journal: Journal, run: Id) returns (id: Option<Id>)
    ensures id.Some? ==> id.value in journal && Cancels(journal[id.value], run)
    ensures id.None? ==> forall other | other in journal :: !Cancels(journal[other], run)
  {
    var rest := journal.Keys;
    while rest != {}
      invariant rest <= journal.Keys
      invariant forall other | other in journal && other !in rest :: !Cancels(journal[other], run)
      decreases rest
    {
      var next :| next in rest;
      if Cancels(journal[next], run) {
        return Some(next);
      }
      rest := rest - {next};
    }
    id := None;
  }

  predicate Cancels(command: Command, run: Id) {
    command.occurrence.None? && (command.kind.BackupCommand? || command.kind.MaintenanceCommand?) && command.run == run && command.state.Received?
  }

  /** A manual command that expired before anybody acknowledged it. */
  predicate Droppable(journal: Journal, id: Id, expired: bool) {
    id in journal && !journal[id].acknowledged && journal[id].occurrence.None? && expired
  }

  function Dropped(w: World, id: Id): World {
    Removed(WithUpdate(w, if w.memory.update == Some(id) then None else w.memory.update), id)
  }

  /** What a run leaves for its replicas: a good backup that made snapshots, all of them. */
  predicate LeavesPending(shapes: Shapes, thread: RunThread, snapshots: set<Id>, good: bool) {
    thread.backup && good && snapshots != {} && shapes(thread.job).replicas != map[]
  }

  lemma FinishedPending(shapes: Shapes, w: World, run: Id, snapshots: set<Id>, good: bool)
    requires Sound(shapes, w) && run in w.memory.runs && w.memory.runs[run].command in w.memory.journal
    ensures FinishedCommand(w.memory.journal[w.memory.runs[run].command], shapes, w.memory.runs[run], snapshots, good).pending ==
            if LeavesPending(shapes, w.memory.runs[run], snapshots, good) then shapes(w.memory.runs[run].job).replicas.Keys else {}
  {
    FinishedFacts(w.memory.journal, w.past.owed, w.past.verified, w.past.launched, w.memory.runs, w.memory.streams, run,
                  FinishedCommand(w.memory.journal[w.memory.runs[run].command], shapes, w.memory.runs[run], snapshots, good), shapes, snapshots, good);
  }

  /** What has not finished has nothing pending. */
  lemma RunningOwesNothing(shapes: Shapes, w: World, id: Id)
    requires Sound(shapes, w) && id in w.memory.journal && !w.memory.journal[id].state.Finished?
    ensures w.memory.journal[id].pending == {}
  {
    if w.memory.journal[id].pending != {} {
      PendingIsFinished(w.memory.journal, w.past.owed, w.past.verified, w.past.launched, id);
    }
  }

  lemma WaitingOwesNothing(shapes: Shapes, w: World, id: Id)
    requires Sound(shapes, w) && id in w.memory.journal && w.memory.journal[id].state.Received? && !w.memory.journal[id].kind.UpdateCommand?
    ensures w.memory.journal[id].pending == {} && w.memory.update != Some(id)
  {
    RunningOwesNothing(shapes, w, id);
  }

  /**
   * The two ends of a good backup with replicas: its replicas become pending exactly when its goroutine is
   * there to end it. One that a restart interrupted is closed with the same snapshots and owes nothing.
   */
  lemma ReplicasPendingExactlyWhen(shapes: Shapes, w: World, id: Id, snapshots: set<Id>)
    requires Sound(shapes, w) && Interrupted(w.memory.journal, id) && w.memory.journal[id].kind.BackupCommand?
    requires snapshots != {} && shapes(w.memory.journal[id].job).replicas != map[]
    ensures var run := w.memory.journal[id].run;
            var ended := if run in w.memory.runs then FinishedRun(shapes, w, run, snapshots, true)
                         else Edited(w, id, Closed(w.memory.journal[id], snapshots));
            && id in ended.memory.journal && ended.memory.journal[id].state.Finished?
            && ended.memory.journal[id].result == Some(Outcome(w.memory.journal[id].job, snapshots))
            && (ended.memory.journal[id].pending == shapes(w.memory.journal[id].job).replicas.Keys <==> run in w.memory.runs)
            && (run !in w.memory.runs ==> ended.memory.journal[id].pending == {} && ended.past.owed == w.past.owed)
  {
    var run := w.memory.journal[id].run;
    RunningOwesNothing(shapes, w, id);
    if run in w.memory.runs {
      RunOfCommand(shapes, w, id);
      FinishedPending(shapes, w, run, snapshots, true);
    }
    assert shapes(w.memory.journal[id].job).replicas.Keys != {};
  }

  lemma RunOfCommand(shapes: Shapes, w: World, id: Id)
    requires Sound(shapes, w) && id in w.memory.journal && w.memory.journal[id].kind.BackupCommand? && w.memory.journal[id].run in w.memory.runs
    ensures var thread := w.memory.runs[w.memory.journal[id].run]; thread.command == id && thread.backup && thread.job == w.memory.journal[id].job
  {
  }

  lemma LookedSound(shapes: Shapes, w: World)
    requires Sound(shapes, w)
    ensures Sound(shapes, w.(memory := w.memory.(looking := None)))
  {
    hide Core;
    UnlookedCore(shapes, w, None);
  }

  lemma LookedFacts(shapes: Shapes, w: World)
    requires Sound(shapes, w)
    ensures w.memory.looking.Some? ==> w.memory.looking.value !in w.disk.claims
  {
    hide Core;
  }

  lemma NothingPendingYet(w: World, id: Id, command: Command)
    requires MayAdd(w, id, command)
    ensures id !in w.memory.journal && command.pending == {}
  {
  }

  /** A command whose result was emptied asks no replica for anything: any listing takes its key off. */
  lemma ReclosedAsksForNothing(w: World, id: Id, key: Id, inventory: set<Id>)
    requires id in w.memory.journal
    ensures Listed(ClosedEmpty(w, id).memory.journal, Copied(key, {id}, true), Some(inventory)).complete
  {
  }

  lemma OpenMeansUpdate(command: Command)
    ensures OpenUpdate(command) ==> command.kind.UpdateCommand?
  {
  }

  lemma ExtendsOn(a: map<Occurrence, Claim>, b: map<Occurrence, Claim>, c: map<Occurrence, Claim>)
    requires Extended(a, b) && Extended(b, c)
    ensures Extended(a, c)
  {
  }

  lemma FinishedIsNotTheUpdate(shapes: Shapes, w: World, id: Id)
    requires Sound(shapes, w) && id in w.memory.journal && w.memory.journal[id].state.Finished?
    ensures w.memory.update != Some(id)
  {
  }

  /** Whether any command of the job still has a replica pending. */
  method FindPending(journal: Journal, job: Id) returns (found: bool)
    ensures found <==> HasPending(journal, job)
  {
    var rest := journal.Keys;
    while rest != {}
      invariant rest <= journal.Keys
      invariant forall id | id in journal && id !in rest :: !Pends(journal[id], job)
      decreases rest
    {
      var id :| id in rest;
      if Pends(journal[id], job) {
        return true;
      }
      rest := rest - {id};
    }
    found := false;
  }

  /** The capacity and the repositories are there, and maintenance waits for replication. */
  predicate Fits(shapes: Shapes, m: Memory, thread: RunThread) {
    && HeldByRun(shapes, thread) * m.repositories == {}
    && if thread.backup then |BackupRuns(m.kinds)| < 2
       else |MaintenanceRuns(m.kinds)| < 1 && thread.job !in m.replicating && !HasPending(m.journal, thread.job)
  }

  method FitsNow(shapes: Shapes, m: Memory, thread: RunThread) returns (fits: bool)
    ensures fits <==> Fits(shapes, m, thread)
  {
    hide HasPending, BackupRuns, MaintenanceRuns, HeldByRun;
    var backups, maintenance := ActiveCounts(m.kinds);
    var capacityReached := (thread.backup && backups >= 2) || (!thread.backup && maintenance >= 1);
    if !thread.backup {
      var pending := FindPending(m.journal, thread.job);
      if thread.job in m.replicating || pending {
        return false;
      }
    }
    fits := !capacityReached && HeldByRun(shapes, thread) * m.repositories == {};
  }

  /** What fitted still fits when the command is durably running. */
  lemma MarkedFits(shapes: Shapes, m: Memory, w: World, id: Id)
    requires id in m.journal && Fits(shapes, m, ThreadOf(id, m.journal[id])) && m.update.None? && id !in w.past.launched
    requires m.journal[id].acknowledged && (m.journal[id].kind.BackupCommand? || m.journal[id].kind.MaintenanceCommand?)
    requires w.memory == m.(journal := m.journal[id := Marked(m.journal[id])]) && w.disk.journal == w.memory.journal
    ensures MayLaunch(shapes, w, id)
  {
    hide HasPending, HeldByRun, BackupRuns, MaintenanceRuns;
    PendingElsewhere(m.journal, id, Marked(m.journal[id]), m.journal[id].job);
  }

  /** A scheduled command, or for an occurrence that overlaps with what is running, its refusal. */
  function Due(occurrence: Occurrence, run: Id, deferral: Option<nat>, catchUp: bool, overlap: bool): Command {
    Command(if occurrence.kind.Backup? then BackupCommand else MaintenanceCommand, run, occurrence.job, 0, Some(occurrence),
            if overlap then Finished else Received, true, deferral.Some?, deferral, catchUp,
            if overlap then Some(Outcome(occurrence.job, {})) else None, {})
  }

  function MaintenancePriority(kind: RunKind): nat {
    match kind
    case SnapshotInventory => 0
    case Forget => 1
    case CheckMetadata => 2
    case CheckData => 3
    case _ => 4
  }

  /** An inventory goes before retention, that before a check of the metadata, that before one of the data, and all before a prune. */
  lemma MostImportantFirst(a: Command, b: Command)
    requires a.occurrence.Some? && b.occurrence.Some?
    ensures var p, q := a.occurrence.value.kind, b.occurrence.value.kind;
            && (p.SnapshotInventory? && !q.SnapshotInventory? ==> GoesBefore(a, b))
            && (p.Forget? && (q.CheckMetadata? || q.CheckData? || q.Prune?) ==> GoesBefore(a, b) && !GoesBefore(b, a))
            && (p.CheckMetadata? && (q.CheckData? || q.Prune?) ==> GoesBefore(a, b) && !GoesBefore(b, a))
            && (p.CheckData? && q.Prune? ==> GoesBefore(a, b) && !GoesBefore(b, a))
            && (p == q ==> (GoesBefore(a, b) <==> a.occurrence.value.minute < b.occurrence.value.minute))
  {
  }

  /** Maintenance that was put off, for this job or any, and if asked for only what may wait no longer. */
  predicate Deferred(command: Command, job: Option<Id>, expiredOnly: bool, now: nat) {
    command.state.Received? && command.deferral.Some? && command.occurrence.Some? && (job.Some? ==> command.job == job.value) &&
    (expiredOnly ==> now >= command.deferral.value)
  }

  /** The more important kind first, then what was due earlier. */
  predicate GoesBefore(a: Command, b: Command)
    requires a.occurrence.Some? && b.occurrence.Some?
  {
    var p, q := MaintenancePriority(a.occurrence.value.kind), MaintenancePriority(b.occurrence.value.kind);
    p < q || (p == q && a.occurrence.value.minute < b.occurrence.value.minute)
  }

  predicate FirstDeferred(journal: Journal, id: Id, job: Option<Id>, expiredOnly: bool, now: nat) {
    && id in journal && Deferred(journal[id], job, expiredOnly, now)
    && forall other | other in journal && Deferred(journal[other], job, expiredOnly, now) :: !GoesBefore(journal[other], journal[id])
  }

  lemma FirstIsDeferred(journal: Journal, id: Id, job: Option<Id>, expiredOnly: bool, now: nat)
    requires FirstDeferred(journal, id, job, expiredOnly, now)
    ensures id in journal && journal[id].state.Received? && journal[id].deferral.Some? && (job.Some? ==> journal[id].job == job.value)
    ensures expiredOnly ==> now >= journal[id].deferral.value
  {
  }

  lemma CompatibleWaiting(journal: Journal, claims: map<Occurrence, Claim>, id: Id)
    requires id in journal
    ensures Compatible(journal, claims) ==> Compatible(journal[id := journal[id].(waiting := false)], claims)
  {
  }

  /** Going over the journal in any order finds a command that none goes before, if there is one to find. */
  method NextDeferred(journal: Journal, job: Option<Id>, expiredOnly: bool, now: nat) returns (id: Option<Id>)
    ensures id.Some? ==> FirstDeferred(journal, id.value, job, expiredOnly, now)
    ensures id.None? ==> forall other | other in journal :: !Deferred(journal[other], job, expiredOnly, now)
  {
    hide MaintenancePriority;
    id := None;
    var rest := journal.Keys;
    while rest != {}
      invariant rest <= journal.Keys
      invariant id.Some? ==> id.value in journal && Deferred(journal[id.value], job, expiredOnly, now)
      invariant forall other | other in journal && other !in rest && Deferred(journal[other], job, expiredOnly, now) ::
                  id.Some? && !GoesBefore(journal[other], journal[id.value])
      decreases rest
    {
      var next :| next in rest;
      if Deferred(journal[next], job, expiredOnly, now) && (id.None? || GoesBefore(journal[next], journal[id.value])) {
        id := Some(next);
      }
      rest := rest - {next};
    }
  }

  /** The backup of the job that waits for maintenance or replication to end, the earliest of them. */
  predicate FirstCatchUp(journal: Journal, id: Id, job: Id) {
    && id in journal && CatchesUp(journal[id], job)
    && forall other | other in journal && CatchesUp(journal[other], job) :: journal[id].occurrence.value.minute <= journal[other].occurrence.value.minute
  }

  predicate CatchesUp(command: Command, job: Id) {
    command.state.Received? && command.catchUp && command.job == job && command.occurrence.Some?
  }

  method NextCatchUp(journal: Journal, job: Id) returns (id: Option<Id>)
    ensures id.Some? ==> FirstCatchUp(journal, id.value, job)
    ensures id.None? ==> forall other | other in journal :: !CatchesUp(journal[other], job)
  {
    id := None;
    var rest := journal.Keys;
    while rest != {}
      invariant rest <= journal.Keys
      invariant id.Some? ==> id.value in journal && CatchesUp(journal[id.value], job)
      invariant forall other | other in journal && other !in rest && CatchesUp(journal[other], job) ::
                  id.Some? && journal[id.value].occurrence.value.minute <= journal[other].occurrence.value.minute
      decreases rest
    {
      var next :| next in rest;
      if CatchesUp(journal[next], job) && (id.None? || journal[next].occurrence.value.minute < journal[id.value].occurrence.value.minute) {
        id := Some(next);
      }
      rest := rest - {next};
    }
  }

  lemma SavedIsClaimed(shapes: Shapes, w: World, id: Id)
    requires Sound(shapes, w) && id in w.disk.journal && w.disk.journal[id].occurrence.Some?
    ensures w.disk.journal[id].occurrence.value in w.disk.claims
    ensures w.disk.claims[w.disk.journal[id].occurrence.value] == RunClaim(w.disk.journal[id].run)
  {
  }

  lemma FreshIsNotTheUpdate(shapes: Shapes, w: World, id: Id)
    requires Sound(shapes, w) && id in w.memory.journal && !w.memory.journal[id].kind.UpdateCommand?
    ensures w.memory.update != Some(id)
  {
  }

  /** A replica is looked for among those in setup first. */
  function ReplicaFor(shape: JobShape, key: Id): Option<Id> {
    if key in shape.setups then Some(shape.setups[key]) else if key in shape.replicas then Some(shape.replicas[key]) else None
  }

  function TargetOf(shapes: Shapes, m: Memory, id: Id): Option<Id>
    requires id in m.journal
  {
    ReplicaFor(shapes(m.journal[id].job), m.journal[id].key)
  }

  /** The update waits again. */
  function TakenBack(m: Memory): Memory
    requires m.handing.Some? && m.handing.value in m.journal
  {
    m.(handing := None, journal := m.journal[m.handing.value := m.journal[m.handing.value].(state := Received)])
  }

  lemma MaySyncNow(shapes: Shapes, w: World, id: Id, target: Id)
    requires var m := w.memory;
             && m.update.None? && id in m.journal && w.disk.journal == m.journal && id !in w.past.launched
             && m.journal[id].state.Running? && m.journal[id].acknowledged && m.journal[id].kind.SyncCommand?
             && m.journal[id].job !in m.replicating && ReplicaFor(shapes(m.journal[id].job), m.journal[id].key) == Some(target)
             && shapes(m.journal[id].job).primary !in m.repositories && target !in m.repositories
    ensures MaySync(shapes, w, id, target)
  {
  }

  function SyncMemory(shapes: Shapes, m: Memory, id: Id, target: Id): Memory
    requires id in m.journal
  {
    var job := m.journal[id].job;
    m.(streams := m.streams[job := Sync(id, target)], replicating := m.replicating + {job}, repositories := m.repositories + {shapes(job).primary, target})
  }

  lemma SyncIs(shapes: Shapes, w: World, id: Id, target: Id)
    requires id in w.memory.journal
    ensures SyncStarted(shapes, w, id, target).memory == SyncMemory(shapes, w.memory, id, target)
    ensures SyncStarted(shapes, w, id, target).disk == w.disk
  {
  }

  lemma NoStreamYet(shapes: Shapes, w: World, job: Id)
    requires Sound(shapes, w) && job !in w.memory.replicating
    ensures job !in w.memory.streams
  {
  }

  lemma StreamIsReplicating(shapes: Shapes, w: World, job: Id)
    requires Sound(shapes, w) && job in w.memory.streams
    ensures w.memory.replicating + {job} == w.memory.replicating
  {
  }

  /** The commands of a job that wait for this replica and whose time has come. */
  function Batch(journal: Journal, job: Id, key: Id, due: set<Debt>): set<Id> {
    set id | id in journal && journal[id].state.Finished? && Pends(journal[id], job) && key in journal[id].pending && Debt(id, key) in due
  }

  predicate ChosenFrom(journal: Journal, shapes: Shapes, job: Id, due: set<Debt>, stream: Stream)
    requires stream.Chosen?
  {
    && stream.key in shapes(job).replicas && stream.target == shapes(job).replicas[stream.key]
    && stream.batch == Batch(journal, job, stream.key, due) && stream.batch != {}
  }

  method NextBatch(journal: Journal, shapes: Shapes, job: Id, due: set<Debt>) returns (stream: Stream)
    ensures stream.Leaving? || (stream.Chosen? && ChosenFrom(journal, shapes, job, due, stream))
    ensures stream.Leaving? ==> forall key | key in shapes(job).replicas :: Batch(journal, job, key, due) == {}
  {
    hide Batch;
    var rest := shapes(job).replicas.Keys;
    while rest != {}
      invariant rest <= shapes(job).replicas.Keys
      invariant forall key | key in shapes(job).replicas && key !in rest :: Batch(journal, job, key, due) == {}
      decreases rest
    {
      var key :| key in rest;
      var batch := Batch(journal, job, key, due);
      if batch != {} {
        return Chosen(key, shapes(job).replicas[key], batch);
      }
      rest := rest - {key};
    }
    stream := Leaving;
  }

  lemma ChosenIsOk(shapes: Shapes, w: World, job: Id, due: set<Debt>, stream: Stream)
    requires Sound(shapes, w)
    requires stream.Leaving? || (stream.Chosen? && ChosenFrom(w.memory.journal, shapes, job, due, stream))
    ensures stream.Chosen? ==> BatchOk(w.memory.journal, stream, w.past.launched, w.memory.runs)
    ensures TargetOk(shapes, job, stream) && HeldByStream(shapes, job, stream) == {}
    ensures job in w.memory.streams ==> w.memory.replicating + {job} == w.memory.replicating
  {
    hide Exclusive, WithinCapacity, Tracked, Threads, Logged, Claimed, Draining, Owing, Replicating, BatchOk;
    if stream.Chosen? {
      PendingBatch(w.memory.journal, w.past.owed, w.past.verified, w.past.launched, w.memory.runs, w.memory.streams, stream);
    }
  }

  predicate ShowsAll(journal: Journal, batch: set<Id>, inventory: set<Id>) {
    forall id | id in batch && id in journal && journal[id].result.Some? :: journal[id].result.value.snapshots <= inventory
  }

  lemma ShownOneByOne(journal: Journal, batch: set<Id>, inventory: set<Id>)
    ensures ShowsAll(journal, batch, inventory) <==>
            forall id, snapshot | id in batch && id in journal && journal[id].result.Some? && snapshot in journal[id].result.value.snapshots ::
              snapshot in inventory
  {
  }

  function Listed(journal: Journal, copied: Stream, listing: Option<set<Id>>): Stream
    requires copied.Copied?
  {
    var inventory := if copied.ok && listing.Some? then listing.value else {};
    Verified(copied.key, copied.batch, inventory, copied.ok && ShowsAll(journal, copied.batch, inventory))
  }

  lemma VerifiedIsOk(shapes: Shapes, w: World, job: Id, stream: Stream)
    requires Sound(shapes, w) && job in w.memory.streams && w.memory.streams[job].Copied? && stream.Verified?
    requires stream.batch == w.memory.streams[job].batch
    requires stream.complete ==> ShowsAll(w.memory.journal, stream.batch, stream.inventory)
    ensures BatchOk(w.memory.journal, stream, w.past.launched, w.memory.runs)
    ensures w.memory.replicating + {job} == w.memory.replicating
  {
    hide Exclusive, WithinCapacity, Tracked, Threads, Logged, Claimed, Draining, Owing;
    assert BatchOk(w.memory.journal, w.memory.streams[job], w.past.launched, w.memory.runs);
  }

  lemma VerifiedShows(shapes: Shapes, w: World, job: Id, id: Id)
    requires Sound(shapes, w) && job in w.memory.streams && w.memory.streams[job].Verified? && w.memory.streams[job].complete
    requires id in w.memory.streams[job].batch && id in w.memory.journal && w.memory.journal[id].result.Some?
    ensures w.memory.journal[id].result.value.snapshots <= w.memory.streams[job].inventory
  {
    hide Exclusive, WithinCapacity, Tracked, Threads, Logged, Claimed, Draining, Owing;
    assert BatchOk(w.memory.journal, w.memory.streams[job], w.past.launched, w.memory.runs);
  }

  /** What a finished batch makes of the journal: one key less for its commands when it was complete. */
  predicate BatchDone(before: Journal, after: Journal, batch: set<Id>, key: Id, complete: bool) {
    && after.Keys == before.Keys
    && forall id | id in before ::
         after[id] == if complete && id in batch && before[id].result.Some? then before[id].(pending := before[id].pending - {key}) else before[id]
  }

  lemma WaitingUpdate(shapes: Shapes, w: World, id: Id)
    requires Sound(shapes, w) && id in w.memory.journal && OpenUpdate(w.memory.journal[id]) && w.memory.journal[id].state.Received? && w.memory.update.Some?
    ensures w.memory.update == Some(id) && w.memory.handing.None? && w.past.handed.None?
  {
  }

  lemma UpdateIsThere(shapes: Shapes, w: World, id: Id)
    requires Sound(shapes, w) && w.memory.update == Some(id)
    ensures id in w.memory.journal && w.memory.journal[id].kind.UpdateCommand?
  {
  }

  method FindUpdate(journal: Journal) returns (update: Option<Id>)
    ensures Restores(journal, update)
  {
    var rest := journal.Keys;
    while rest != {}
      invariant rest <= journal.Keys
      invariant forall id | id in journal && id !in rest :: !OpenUpdate(journal[id])
      decreases rest
    {
      var id :| id in rest;
      if OpenUpdate(journal[id]) {
        return Some(id);
      }
      rest := rest - {id};
    }
    update := None;
  }

  lemma HandedIsTheUpdate(shapes: Shapes, w: World)
    requires Sound(shapes, w)
    ensures w.past.handed.Some? ==> w.memory.update == w.past.handed
  {
  }

  /** What the reader may rely on between any two critical sections. */
  lemma Promises(shapes: Shapes, w: World)
    requires Sound(shapes, w)
    ensures |BackupRuns(w.memory.kinds)| <= 2 && |MaintenanceRuns(w.memory.kinds)| <= 1
    ensures forall a: Holder, b: Holder | a != b ::
              Held(shapes, w.memory.runs, w.memory.streams, a) * Held(shapes, w.memory.runs, w.memory.streams, b) == {}
    ensures w.past.handed.Some? || w.memory.handing.Some? ==> w.memory.runs == map[] && w.memory.streams == map[]
    ensures forall run | run in w.memory.runs && !w.memory.runs[run].backup :: !HasPending(w.memory.journal, w.memory.runs[run].job)
    ensures forall i, j | 0 <= i < j < |w.past.launches| ::
              (w.past.launches[i].command == w.past.launches[j].command ==> w.past.launches[i].inspection && w.past.launches[j].inspection) &&
              (w.past.launches[i].occurrence.Some? ==> w.past.launches[i].occurrence != w.past.launches[j].occurrence)
    ensures forall debt | debt in w.past.owed ::
              Outstanding(w.memory.journal, debt, w.past.owed[debt], w.past.verified) || Shown(debt, w.past.owed[debt], w.past.verified)
  {
    var m, p := w.memory, w.past;
    hide Sound, Exclusive, Held, Logged, Shown, Outstanding, Pends, BackupRuns, MaintenanceRuns;
    PromisedParts(shapes, w);
    forall a: Holder, b: Holder | a != b ensures Held(shapes, m.runs, m.streams, a) * Held(shapes, m.runs, m.streams, b) == {} {
      OneHolder(shapes, m.repositories, p.holders, m.runs, m.streams, a, b);
    }
    forall i, j | 0 <= i < j < |p.launches|
      ensures (p.launches[i].command == p.launches[j].command ==> p.launches[i].inspection && p.launches[j].inspection) && (p.launches[i].occurrence.Some? ==> p.launches[i].occurrence != p.launches[j].occurrence)
    {
      AtMostOnce(p.launches, p.launched, p.owner, w.disk.claims, i, j);
    }
  }

  lemma PromisedParts(shapes: Shapes, w: World)
    requires Sound(shapes, w)
    ensures Exclusive(shapes, w.memory.repositories, w.past.holders, w.memory.runs, w.memory.streams)
    ensures Logged(w.past.launches, w.past.launched, w.past.owner, w.disk.claims)
    ensures |BackupRuns(w.memory.kinds)| <= 2 && |MaintenanceRuns(w.memory.kinds)| <= 1
    ensures w.past.handed.Some? || w.memory.handing.Some? ==> w.memory.runs == map[] && w.memory.streams == map[]
    ensures forall run | run in w.memory.runs && !w.memory.runs[run].backup :: !HasPending(w.memory.journal, w.memory.runs[run].job)
    ensures forall debt | debt in w.past.owed ::
              Outstanding(w.memory.journal, debt, w.past.owed[debt], w.past.verified) || Shown(debt, w.past.owed[debt], w.past.verified)
  {
    forall debt | debt in w.past.owed
      ensures Outstanding(w.memory.journal, debt, w.past.owed[debt], w.past.verified) || Shown(debt, w.past.owed[debt], w.past.verified)
    {
      assert PaidOne(w.memory.journal, debt, w.past.owed[debt], w.past.verified, w.past.launched);
    }
  }
}

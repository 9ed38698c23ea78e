/**
 * What the daemon's journal, its durable copy and the claims of scheduled occurrences say about what
 * was ever launched, and what keeps everything still while an update is in other hands.
 */
module DaemonHistories {
  import opened DaemonStates
  import opened MaintenanceTypes
  import opened Options

  /** A run that was really started, an update that was handed over, or a source that was inspected. */
  datatype Launch = Launch(command: Id, run: Id, occurrence: Option<Occurrence>, inspection: bool)

  type Journal = map<Id, Command>

  /**
   * A run id belongs to one command, apart from those that cancel a run and so name one of another command;
   * a launched command is never again waiting to be launched. An inspection is not counted as launched: it
   * runs while its command still waits.
   */
  predicate TrackedOne(id: Id, command: Command, launched: set<Id>, owner: map<Id, Id>) {
    && (!command.kind.CancelCommand? ==> command.run in owner && owner[command.run] == id)
    && (id in launched ==> !command.state.Received? && command.acknowledged)
    && CatchUpOk(command)
  }

  /** Only a scheduled backup waits for maintenance to end, and no schedule asks for an inspection. */
  predicate CatchUpOk(command: Command) {
    && (command.catchUp ==> command.acknowledged && command.kind.BackupCommand?)
    && (command.kind.InspectCommand? ==> command.occurrence.None?)
  }

  ghost predicate Tracked(journal: Journal, launched: set<Id>, owner: map<Id, Id>) {
    forall id | id in journal :: TrackedOne(id, journal[id], launched, owner)
  }

  /** Every goroutine works for a command that was launched, and no two runs for the same one. */
  ghost predicate Threads(launched: set<Id>, owner: map<Id, Id>, runs: map<Id, RunThread>, streams: map<Id, Stream>) {
    && (forall run | run in runs :: runs[run].command in launched && run in owner && owner[run] == runs[run].command)
    && (forall a, b | a in runs && b in runs && runs[a].command == runs[b].command :: a == b)
    && (forall job | job in streams && streams[job].Sync? :: streams[job].command in launched)
  }

  /** The launches so far: all of different commands but for inspections, and for an occurrence only by the run that claimed it. */
  ghost predicate Logged(launches: seq<Launch>, launched: set<Id>, owner: map<Id, Id>, claims: map<Occurrence, Claim>) {
    && (forall i | 0 <= i < |launches| :: LoggedOne(launches[i], launched, owner, claims))
    && (forall i, j | 0 <= i < j < |launches| && launches[i].command == launches[j].command :: launches[i].inspection && launches[j].inspection)
  }

  predicate LoggedOne(launch: Launch, launched: set<Id>, owner: map<Id, Id>, claims: map<Occurrence, Claim>) {
    && launch.run in owner && owner[launch.run] == launch.command
    && (if launch.inspection then launch.occurrence.None? else launch.command in launched)
    && (launch.occurrence.Some? ==> launch.occurrence.value in claims && claims[launch.occurrence.value] == RunClaim(launch.run))
  }

  /** At most once, over crashes and restarts: a command that is launched twice is an inspection, and no scheduled occurrence is. */
  lemma AtMostOnce(launches: seq<Launch>, launched: set<Id>, owner: map<Id, Id>, claims: map<Occurrence, Claim>, i: nat, j: nat)
    requires Logged(launches, launched, owner, claims) && i < |launches| && j < |launches|
    ensures launches[i].command == launches[j].command ==> i == j || (launches[i].inspection && launches[j].inspection)
    ensures launches[i].occurrence.Some? && launches[i].occurrence == launches[j].occurrence ==> i == j
  {
    assert LoggedOne(launches[i], launched, owner, claims) && LoggedOne(launches[j], launched, owner, claims);
  }

  /** Whatever was inspected is a command to inspect, for as long as the journal has it. */
  ghost predicate Inspects(launches: seq<Launch>, journal: Journal) {
    forall i | 0 <= i < |launches| && launches[i].command in journal ::
      launches[i].inspection <==> journal[launches[i].command].kind.InspectCommand?
  }

  ghost predicate Inspected(launches: seq<Launch>, id: Id) {
    exists i :: 0 <= i < |launches| && launches[i].command == id && launches[i].inspection
  }

  lemma InspectedLog(launches: seq<Launch>, launch: Launch, id: Id)
    ensures Inspected(launches, id) || (launch.command == id && launch.inspection) ==> Inspected(launches + [launch], id)
  {
    var after := launches + [launch];
    if i :| 0 <= i < |launches| && launches[i].command == id && launches[i].inspection {
      assert after[i] == launches[i];
    } else {
      assert after[|launches|] == launch;
    }
  }

  lemma InspectedIsInspection(launches: seq<Launch>, journal: Journal, id: Id)
    requires Inspects(launches, journal) && Inspected(launches, id) && id in journal
    ensures journal[id].kind.InspectCommand?
  {
  }

  ghost predicate NeverLaunched(launches: seq<Launch>, id: Id) {
    forall i | 0 <= i < |launches| :: launches[i].command != id
  }

  lemma InspectsEdit(launches: seq<Launch>, journal: Journal, id: Id, command: Command)
    requires Inspects(launches, journal)
    requires if id in journal then command.kind == journal[id].kind else NeverLaunched(launches, id)
    ensures Inspects(launches, journal[id := command])
  {
  }

  lemma InspectsRemove(launches: seq<Launch>, journal: Journal, id: Id)
    requires Inspects(launches, journal)
    ensures Inspects(launches, journal - {id})
  {
  }

  lemma InspectsLog(launches: seq<Launch>, journal: Journal, launch: Launch)
    requires Inspects(launches, journal)
    requires launch.command in journal ==> (launch.inspection <==> journal[launch.command].kind.InspectCommand?)
    ensures Inspects(launches + [launch], journal)
  {
  }

  /** Claims are kept: what an occurrence was given to stays. */
  predicate Extended(before: map<Occurrence, Claim>, after: map<Occurrence, Claim>) {
    forall occurrence | occurrence in before :: occurrence in after && after[occurrence] == before[occurrence]
  }

  ghost predicate Claimed(journal: Journal, claims: map<Occurrence, Claim>) {
    forall id | id in journal && journal[id].occurrence.Some? ::
      journal[id].occurrence.value in claims && claims[journal[id].occurrence.value] == RunClaim(journal[id].run)
  }

  /** The save goes through when no command wants an occurrence that another run, or nobody, was given. */
  predicate Compatible(journal: Journal, claims: map<Occurrence, Claim>) {
    && (forall id | id in journal && journal[id].occurrence.Some? && journal[id].occurrence.value in claims ::
          claims[journal[id].occurrence.value] == RunClaim(journal[id].run))
    && (forall a, b | a in journal && b in journal && journal[a].occurrence.Some? && journal[a].occurrence == journal[b].occurrence ::
          journal[a].run == journal[b].run)
  }

  function Claims(journal: Journal, claims: map<Occurrence, Claim>): (after: map<Occurrence, Claim>)
    requires Compatible(journal, claims)
    ensures Extended(claims, after) && Claimed(journal, after)
  {
    claims + map id | id in journal && journal[id].occurrence.Some? :: journal[id].occurrence.value := RunClaim(journal[id].run)
  }

  lemma LogExtends(launches: seq<Launch>, launched: set<Id>, owner: map<Id, Id>, claims: map<Occurrence, Claim>,
                   launchedAfter: set<Id>, ownerAfter: map<Id, Id>, claimsAfter: map<Occurrence, Claim>)
    requires Logged(launches, launched, owner, claims)
    requires launched <= launchedAfter && Extended(claims, claimsAfter)
    requires forall run | run in owner :: run in ownerAfter && ownerAfter[run] == owner[run]
    ensures Logged(launches, launchedAfter, ownerAfter, claimsAfter)
  {
    forall i | 0 <= i < |launches| ensures LoggedOne(launches[i], launchedAfter, ownerAfter, claimsAfter) {
      assert LoggedOne(launches[i], launched, owner, claims);
    }
  }

  /** A launch is logged once its command is durably no longer waiting, with its claim. */
  lemma LogLaunch(launches: seq<Launch>, launched: set<Id>, owner: map<Id, Id>, claims: map<Occurrence, Claim>, saved: Journal, id: Id)
    requires Logged(launches, launched, owner, claims) && Inspects(launches, saved) && id !in launched
    requires id in saved && Claimed(saved, claims) && TrackedOne(id, saved[id], launched, owner)
    requires !saved[id].kind.CancelCommand? && !saved[id].kind.InspectCommand?
    ensures Logged(launches + [Launch(id, saved[id].run, saved[id].occurrence, false)], launched + {id}, owner, claims)
  {
    LogExtends(launches, launched, owner, claims, launched + {id}, owner, claims);
    var after := launches + [Launch(id, saved[id].run, saved[id].occurrence, false)];
    forall i | 0 <= i < |launches| ensures launches[i].command != id {
      assert LoggedOne(launches[i], launched, owner, claims);
    }
    assert LoggedOne(after[|launches|], launched + {id}, owner, claims);
  }

  /** An inspection is logged while its command waits, so the same command may be inspected again. */
  lemma LogInspection(launches: seq<Launch>, launched: set<Id>, owner: map<Id, Id>, claims: map<Occurrence, Claim>, journal: Journal, id: Id)
    requires Logged(launches, launched, owner, claims) && Inspects(launches, journal) && id !in launched
    requires id in journal && TrackedOne(id, journal[id], launched, owner) && journal[id].kind.InspectCommand?
    ensures Logged(launches + [Launch(id, journal[id].run, None, true)], launched, owner, claims)
  {
    var after := launches + [Launch(id, journal[id].run, None, true)];
    forall i | 0 <= i < |launches| && launches[i].command == id ensures launches[i].inspection {
      assert LoggedOne(launches[i], launched, owner, claims);
    }
    forall i | 0 <= i < |after| ensures LoggedOne(after[i], launched, owner, claims) {
      if i < |launches| {
        assert LoggedOne(launches[i], launched, owner, claims);
      }
    }
  }

  /** What may change about a command without it becoming another one. */
  predicate Same(a: Command, b: Command) {
    a.kind == b.kind && a.run == b.run && a.job == b.job && a.key == b.key && a.occurrence == b.occurrence && a.catchUp == b.catchUp
  }

  lemma TrackedEdit(journal: Journal, launched: set<Id>, owner: map<Id, Id>, id: Id, command: Command)
    requires Tracked(journal, launched, owner) && id in journal && command.run == journal[id].run && command.kind == journal[id].kind && CatchUpOk(command)
    requires id in launched ==> !command.state.Received? && command.acknowledged
    ensures Tracked(journal[id := command], launched, owner)
  {
    assert TrackedOne(id, journal[id], launched, owner);
  }

  lemma TrackedRemove(journal: Journal, launched: set<Id>, owner: map<Id, Id>, id: Id)
    requires Tracked(journal, launched, owner)
    ensures Tracked(journal - {id}, launched, owner)
  {
    forall other | other in journal - {id} ensures TrackedOne(other, (journal - {id})[other], launched, owner) {
      assert TrackedOne(other, journal[other], launched, owner);
    }
  }

  lemma TrackedLaunch(journal: Journal, launched: set<Id>, owner: map<Id, Id>, id: Id)
    requires Tracked(journal, launched, owner)
    requires id in journal ==> !journal[id].state.Received? && journal[id].acknowledged
    ensures Tracked(journal, launched + {id}, owner)
  {
    forall other | other in journal ensures TrackedOne(other, journal[other], launched + {id}, owner) {
      assert TrackedOne(other, journal[other], launched, owner);
    }
  }

  /** A fresh run id changes nothing for those in use. */
  lemma TrackedFresh(journal: Journal, launched: set<Id>, owner: map<Id, Id>, run: Id, id: Id)
    requires Tracked(journal, launched, owner) && run !in owner
    ensures Tracked(journal, launched, owner[run := id])
  {
    forall other | other in journal ensures TrackedOne(other, journal[other], launched, owner[run := id]) {
      assert TrackedOne(other, journal[other], launched, owner);
    }
  }

  lemma TrackedAdd(journal: Journal, launched: set<Id>, owner: map<Id, Id>, id: Id, command: Command)
    requires Tracked(journal, launched, owner) && id !in launched && CatchUpOk(command)
    requires !command.kind.CancelCommand? ==> command.run in owner && owner[command.run] == id
    ensures Tracked(journal[id := command], launched, owner)
  {
    forall other | other in journal && other != id ensures TrackedOne(other, journal[other], launched, owner) {
    }
  }

  lemma ThreadsFresh(launched: set<Id>, owner: map<Id, Id>, runs: map<Id, RunThread>, streams: map<Id, Stream>, run: Id, id: Id)
    requires Threads(launched, owner, runs, streams) && run !in owner
    ensures Threads(launched, owner[run := id], runs, streams)
  {
  }

  /** A command that still waits has no goroutine. */
  lemma WaitingHasNoThread(journal: Journal, launched: set<Id>, owner: map<Id, Id>, runs: map<Id, RunThread>, streams: map<Id, Stream>, id: Id)
    requires Tracked(journal, launched, owner) && Threads(launched, owner, runs, streams)
    requires id in journal && journal[id].state.Received?
    ensures id !in launched && (!journal[id].kind.CancelCommand? ==> journal[id].run !in runs)
    ensures forall run | run in runs :: runs[run].command != id
  {
    assert TrackedOne(id, journal[id], launched, owner);
  }

  lemma ThreadsStart(launched: set<Id>, owner: map<Id, Id>, runs: map<Id, RunThread>, streams: map<Id, Stream>, run: Id, thread: RunThread)
    requires Threads(launched, owner, runs, streams) && thread.command !in launched
    requires run in owner && owner[run] == thread.command
    ensures Threads(launched + {thread.command}, owner, runs[run := thread], streams)
  {
  }

  lemma ThreadsFinish(launched: set<Id>, owner: map<Id, Id>, runs: map<Id, RunThread>, streams: map<Id, Stream>, run: Id)
    requires Threads(launched, owner, runs, streams)
    ensures Threads(launched, owner, runs - {run}, streams)
  {
  }

  lemma ThreadsSync(launched: set<Id>, owner: map<Id, Id>, runs: map<Id, RunThread>, streams: map<Id, Stream>, job: Id, stream: Stream)
    requires Threads(launched, owner, runs, streams)
    ensures Threads(if stream.Sync? then launched + {stream.command} else launched, owner, runs, streams[job := stream])
    ensures Threads(launched, owner, runs, streams - {job})
  {
  }

  lemma ThreadsLaunch(launched: set<Id>, owner: map<Id, Id>, runs: map<Id, RunThread>, streams: map<Id, Stream>, id: Id)
    requires Threads(launched, owner, runs, streams)
    ensures Threads(launched + {id}, owner, runs, streams)
  {
  }

  predicate OpenUpdate(command: Command) {
    command.kind.UpdateCommand? && !command.state.Finished?
  }

  /** At most one update is under way. */
  ghost predicate OneUpdate(journal: Journal) {
    forall a, b | a in journal && b in journal && OpenUpdate(journal[a]) && OpenUpdate(journal[b]) :: a == b
  }

  /** While an update is in other hands, nothing runs, and the database knows that it is running. */
  predicate Quiet(update: Option<Id>, journal: Journal, saved: Journal, runs: map<Id, RunThread>, streams: map<Id, Stream>, id: Id) {
    && update == Some(id) && runs == map[] && streams == map[]
    && InHand(journal, id) && InHand(saved, id)
    && journal[id].run == saved[id].run && journal[id].occurrence == saved[id].occurrence
  }

  predicate InHand(journal: Journal, id: Id) {
    id in journal && journal[id].kind.UpdateCommand? && journal[id].state.Running? && journal[id].acknowledged
  }

  /** `handing` is between the durable start and the request file, `handed` from the file to its result. */
  ghost predicate Draining(update: Option<Id>, journal: Journal, saved: Journal, handing: Option<Id>, handed: Option<Id>,
                           runs: map<Id, RunThread>, streams: map<Id, Stream>)
  {
    && (handing.Some? ==> handed.None? && Quiet(update, journal, saved, runs, streams, handing.value))
    && (handed.Some? ==> Quiet(update, journal, saved, runs, streams, handed.value))
    && OneUpdate(journal) && OneUpdate(saved)
    && (update.Some? ==> update.value in journal && OpenUpdate(journal[update.value]))
  }

  /** Nothing runs while the helper has the update. */
  lemma NothingRunsWhileHanded(update: Option<Id>, journal: Journal, saved: Journal, handing: Option<Id>, handed: Option<Id>,
                               runs: map<Id, RunThread>, streams: map<Id, Stream>)
    requires Draining(update, journal, saved, handing, handed, runs, streams)
    ensures update.None? ==> handing.None? && handed.None?
    ensures runs != map[] || streams != map[] ==> handing.None? && handed.None?
  {
  }

  lemma DrainingEdit(update: Option<Id>, journal: Journal, saved: Journal, handing: Option<Id>, handed: Option<Id>,
                     runs: map<Id, RunThread>, streams: map<Id, Stream>, id: Id, command: Command)
    requires Draining(update, journal, saved, handing, handed, runs, streams)
    requires id in journal && Same(journal[id], command)
    requires journal[id].acknowledged ==> command.acknowledged
    requires command.kind.UpdateCommand? ==> command.state == journal[id].state
    ensures Draining(update, journal[id := command], saved, handing, handed, runs, streams)
  {
  }

  lemma DrainingRemove(update: Option<Id>, journal: Journal, saved: Journal, handing: Option<Id>, handed: Option<Id>,
                       runs: map<Id, RunThread>, streams: map<Id, Stream>, id: Id)
    requires Draining(update, journal, saved, handing, handed, runs, streams)
    requires update != Some(id)
    ensures Draining(update, journal - {id}, saved, handing, handed, runs, streams)
  {
  }

  lemma DrainingAdd(update: Option<Id>, journal: Journal, saved: Journal, handing: Option<Id>, handed: Option<Id>,
                    runs: map<Id, RunThread>, streams: map<Id, Stream>, id: Id, command: Command)
    requires Draining(update, journal, saved, handing, handed, runs, streams)
    requires id !in journal && (OpenUpdate(command) ==> forall other | other in journal :: !OpenUpdate(journal[other]))
    ensures Draining(update, journal[id := command], saved, handing, handed, runs, streams)
  {
  }

  lemma DrainingSave(update: Option<Id>, journal: Journal, saved: Journal, handing: Option<Id>, handed: Option<Id>,
                     runs: map<Id, RunThread>, streams: map<Id, Stream>)
    requires Draining(update, journal, saved, handing, handed, runs, streams)
    ensures Draining(update, journal, journal, handing, handed, runs, streams)
  {
  }

  /** With no update in the way, goroutines may come and go. */
  lemma DrainingWork(journal: Journal, saved: Journal, handing: Option<Id>, handed: Option<Id>, update: Option<Id>,
                     runs: map<Id, RunThread>, streams: map<Id, Stream>, runsAfter: map<Id, RunThread>, streamsAfter: map<Id, Stream>)
    requires Draining(update, journal, saved, handing, handed, runs, streams)
    requires update.None? || runs != map[] || streams != map[]
    ensures Draining(update, journal, saved, handing, handed, runsAfter, streamsAfter)
  {
  }
}

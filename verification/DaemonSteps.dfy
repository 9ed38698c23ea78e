/**
 * The steps of the daemon on its state as a value: what one critical section makes of memory, disk and
 * history, and that all promises outlive it.
 */
module DaemonSteps {
  import opened DaemonHistories
  import opened DaemonReplications
  import opened DaemonStates
  import opened MaintenanceTypes
  import opened Options

  /** What a crash takes: the daemon's variables and its goroutines. */
  datatype Memory = Memory(
    journal: Journal,
    update: Option<Id>,       // the update command that everything waits for
    handing: Option<Id>,      // the update between its durable start and its request file
    inspecting: Option<Id>,   // the inspection that the dispatching goroutine is busy with
    looking: Option<Occurrence>, // what the scheduling goroutine has looked up and found unclaimed
    kinds: map<Id, bool>,     // active runs, true for backups
    repositories: set<Id>,    // busy repositories
    replicating: set<Id>,     // jobs being copied
    runs: map<Id, RunThread>, // the goroutines
    streams: map<Id, Stream>)

  datatype Disk = Disk(journal: Journal, claims: map<Occurrence, Claim>)

  /** What happened, and what nobody but the reader knows. */
  datatype Past = Past(
    handed: Option<Id>,       // the update whose request file is with the helper
    holders: map<Id, Holder>,
    launches: seq<Launch>, launched: set<Id>,
    owner: map<Id, Id>,       // the command of every run id that was ever given out
    owed: map<Debt, set<Id>>, savedOwed: map<Debt, set<Id>>,
    verified: Notes, savedReclosed: set<Id>)

  datatype World = World(memory: Memory, disk: Disk, past: Past)

  const EMPTY := World(Memory(map[], None, None, None, None, map[], {}, {}, map[], map[]), Disk(map[], map[]),
                       Past(None, map[], [], {}, map[], map[], map[], Notes({}, {}), {}))

  /** Who works on what. */
  ghost predicate Working(shapes: Shapes, m: Memory, p: Past) {
    && Exclusive(shapes, m.repositories, p.holders, m.runs, m.streams)
    && WithinCapacity(m.kinds, m.runs)
    && m.replicating == m.streams.Keys
    && Threads(p.launched, p.owner, m.runs, m.streams)
  }

  /** Every occurrence that a command came from is claimed. */
  ghost predicate Taken(journal: Journal, claims: map<Occurrence, Claim>) {
    forall id | id in journal && journal[id].occurrence.Some? :: journal[id].occurrence.value in claims
  }

  /** A command is what it was when it was saved. */
  ghost predicate SameKinds(journal: Journal, saved: Journal) {
    forall id | id in journal && id in saved :: journal[id].kind == saved[id].kind
  }

  /** What the dispatching and the scheduling goroutine have in mind between their critical sections. */
  ghost predicate Minded(launches: seq<Launch>, journal: Journal, saved: Journal, claims: map<Occurrence, Claim>,
                         inspecting: Option<Id>, looking: Option<Occurrence>, handing: Option<Id>, handed: Option<Id>)
  {
    && Inspects(launches, journal) && Inspects(launches, saved) && SameKinds(journal, saved)
    && (inspecting.Some? ==> handing.None? && handed.None? && Inspected(launches, inspecting.value))
    && Taken(journal, claims)
    && (looking.Some? ==> looking.value !in claims)
  }

  ghost predicate Minding(w: World) {
    Minded(w.past.launches, w.memory.journal, w.disk.journal, w.disk.claims, w.memory.inspecting, w.memory.looking, w.memory.handing, w.past.handed)
  }

  /** What holds between any two critical sections. */
  ghost predicate Sound(shapes: Shapes, w: World) {
    Core(shapes, w) && Minding(w)
  }

  ghost predicate Core(shapes: Shapes, w: World) {
    && Working(shapes, w.memory, w.past)
    && Tracked(w.memory.journal, w.past.launched, w.past.owner) && Tracked(w.disk.journal, w.past.launched, w.past.owner)
    && Logged(w.past.launches, w.past.launched, w.past.owner, w.disk.claims)
    && Claimed(w.disk.journal, w.disk.claims)
    && Draining(w.memory.update, w.memory.journal, w.disk.journal, w.memory.handing, w.past.handed, w.memory.runs, w.memory.streams)
    && Replicating(w.memory.journal, w.past.owed, w.past.verified, w.past.launched, w.memory.runs, w.memory.streams)
    && Owing(w.disk.journal, w.past.savedOwed, Then(w.past), w.past.launched)
    && (w.memory.handing.Some? ==> w.memory.handing.value !in w.past.launched)
  }

  /** What was noted when the journal was saved; a copy stays where it is whatever is forgotten. */
  function Then(p: Past): Notes {
    p.verified.(reclosed := p.savedReclosed)
  }

  lemma EmptySound(shapes: Shapes)
    ensures Sound(shapes, EMPTY)
  {
    assert BackupRuns(map[]) == {} && MaintenanceRuns(map[]) == {};
  }

  lemma ExtendsItself(claims: map<Occurrence, Claim>)
    ensures Extended(claims, claims)
  {
  }

  /** One transaction with the whole journal; it may fail, and fails when a claim stands against it. */
  predicate Saves(w: World, ok: bool) {
    ok && Compatible(w.memory.journal, w.disk.claims)
  }

  function Saved(w: World, ok: bool): World {
    if Saves(w, ok) then w.(disk := Disk(w.memory.journal, Claims(w.memory.journal, w.disk.claims)), past := w.past.(savedOwed := w.past.owed, savedReclosed := w.past.verified.reclosed))
    else w
  }

  lemma SaveSound(shapes: Shapes, w: World, ok: bool)
    requires Sound(shapes, w)
    ensures Sound(shapes, Saved(w, ok)) && Extended(w.disk.claims, Saved(w, ok).disk.claims)
  {
    hide Core, Minded, Compatible, Extended;
    ExtendsItself(w.disk.claims);
    if Saves(w, ok) {
      SaveCore(shapes, w, ok);
      MindedSave(w.past.launches, w.memory.journal, w.disk.journal, w.disk.claims, w.memory.inspecting, w.memory.looking, w.memory.handing, w.past.handed);
    }
  }

  lemma SaveCore(shapes: Shapes, w: World, ok: bool)
    requires Core(shapes, w)
    ensures Core(shapes, Saved(w, ok)) && Extended(w.disk.claims, Saved(w, ok).disk.claims)
  {
    hide Exclusive, WithinCapacity, Threads, Tracked, Logged, Claimed, Draining, Owing, Compatible, Extended;
    ExtendsItself(w.disk.claims);
    if Saves(w, ok) {
      LogExtends(w.past.launches, w.past.launched, w.past.owner, w.disk.claims, w.past.launched, w.past.owner, Claims(w.memory.journal, w.disk.claims));
      DrainingSave(w.memory.update, w.memory.journal, w.disk.journal, w.memory.handing, w.past.handed, w.memory.runs, w.memory.streams);
    }
  }

  lemma MindedSave(launches: seq<Launch>, journal: Journal, saved: Journal, claims: map<Occurrence, Claim>,
                   inspecting: Option<Id>, looking: Option<Occurrence>, handing: Option<Id>, handed: Option<Id>)
    requires Minded(launches, journal, saved, claims, inspecting, looking, handing, handed) && Compatible(journal, claims)
    ensures Minded(launches, journal, journal, Claims(journal, claims), inspecting, looking, handing, handed)
  {
  }

  lemma MindedEdit(launches: seq<Launch>, journal: Journal, saved: Journal, claims: map<Occurrence, Claim>,
                   inspecting: Option<Id>, looking: Option<Occurrence>, handing: Option<Id>, handed: Option<Id>, id: Id, command: Command)
    requires Minded(launches, journal, saved, claims, inspecting, looking, handing, handed)
    requires id in journal && command.kind == journal[id].kind && command.occurrence == journal[id].occurrence
    ensures Minded(launches, journal[id := command], saved, claims, inspecting, looking, handing, handed)
  {
    InspectsEdit(launches, journal, id, command);
    hide Inspects;
  }

  /** An edit of the journal as the daemon's goroutines have it in mind. */
  lemma EditMinding(w: World, id: Id, command: Command)
    requires Minding(w) && id in w.memory.journal
    requires command.kind == w.memory.journal[id].kind && command.occurrence == w.memory.journal[id].occurrence
    ensures Minding(Edited(w, id, command))
  {
    MindedEdit(w.past.launches, w.memory.journal, w.disk.journal, w.disk.claims, w.memory.inspecting, w.memory.looking, w.memory.handing, w.past.handed, id, command);
    hide Minded;
  }

  /** A launch that is what its command asks for. */
  lemma MindedLog(launches: seq<Launch>, journal: Journal, saved: Journal, claims: map<Occurrence, Claim>,
                  inspecting: Option<Id>, looking: Option<Occurrence>, handing: Option<Id>, handed: Option<Id>, launch: Launch)
    requires Minded(launches, journal, saved, claims, inspecting, looking, handing, handed)
    requires launch.command in journal ==> (launch.inspection <==> journal[launch.command].kind.InspectCommand?)
    requires launch.command in saved ==> (launch.inspection <==> saved[launch.command].kind.InspectCommand?)
    ensures Minded(launches + [launch], journal, saved, claims, inspecting, looking, handing, handed)
  {
    InspectsLog(launches, journal, launch);
    InspectsLog(launches, saved, launch);
    if inspecting.Some? {
      InspectedLog(launches, launch, inspecting.value);
    }
    hide Inspects, Inspected;
  }

  /** Claims are never taken back and never go to another run, whatever is saved. */
  lemma ClaimsStand(w: World, ok: bool, occurrence: Occurrence)
    requires occurrence in w.disk.claims
    ensures occurrence in Saved(w, ok).disk.claims && Saved(w, ok).disk.claims[occurrence] == w.disk.claims[occurrence]
  {
    if Saves(w, ok) {
      assert Extended(w.disk.claims, Claims(w.memory.journal, w.disk.claims));
    }
  }

  function WithJournal(w: World, journal: Journal): World {
    w.(memory := w.memory.(journal := journal))
  }

  function Edited(w: World, id: Id, command: Command): World {
    WithJournal(w, w.memory.journal[id := command])
  }

  /** A change to one command that leaves every promise about it standing. */
  predicate MayEdit(w: World, id: Id, command: Command) {
    && id in w.memory.journal
    && Same(w.memory.journal[id], command) && Gentle(w.memory.journal[id], command)
    && (w.memory.journal[id].acknowledged ==> command.acknowledged)
    && (command.state.Received? ==> w.memory.journal[id].state.Received? || id !in w.past.launched)
    && (command.kind.UpdateCommand? ==> command.state == w.memory.journal[id].state)
  }

  lemma EditSound(shapes: Shapes, w: World, id: Id, command: Command)
    requires Sound(shapes, w) && MayEdit(w, id, command)
    ensures Sound(shapes, Edited(w, id, command))
  {
    hide Exclusive, WithinCapacity, Threads, Logged, Claimed, Draining, Owing, Replicating, Gentle, Minding;
    var m, p := w.memory, w.past;
    TrackedFacts(m.journal, p.launched, p.owner, id);
    TrackedEdit(m.journal, p.launched, p.owner, id, command);
    DrainingEdit(m.update, m.journal, w.disk.journal, m.handing, p.handed, m.runs, m.streams, id, command);
    GentleEdit(m.journal, p.owed, p.verified, p.launched, m.runs, m.streams, id, command);
    GentleFacts(m.journal[id], command);
    EditMinding(w, id, command);
    hide Tracked;
  }

  lemma GentleFacts(a: Command, b: Command)
    requires Gentle(a, b)
    ensures a.kind == b.kind
  {
  }

  /** Closed with a result that names these snapshots. */
  function Closed(command: Command, snapshots: set<Id>): Command {
    command.(state := Finished, result := Some(Outcome(command.job, snapshots)))
  }

  /** A command is closed with an empty result; it may have been finished before, and that is noted. */
  function ClosedEmpty(w: World, id: Id): World
    requires id in w.memory.journal
  {
    var command := w.memory.journal[id];
    Edited(w, id, Closed(command, {})).(past := w.past.(verified := Reclosed(w.past.verified, id, command)))
  }

  lemma CloseSound(shapes: Shapes, w: World, id: Id)
    requires Sound(shapes, w) && id in w.memory.journal && !w.memory.journal[id].kind.UpdateCommand?
    ensures Sound(shapes, ClosedEmpty(w, id))
  {
    hide Exclusive, WithinCapacity, Threads, Logged, Claimed, Draining, Owing, Replicating, Minded;
    var m, p := w.memory, w.past;
    var command := Closed(m.journal[id], {});
    TrackedFacts(m.journal, p.launched, p.owner, id);
    TrackedEdit(m.journal, p.launched, p.owner, id, command);
    DrainingEdit(m.update, m.journal, w.disk.journal, m.handing, p.handed, m.runs, m.streams, id, command);
    CloseReplicating(m.journal, p.owed, p.verified, p.launched, m.runs, m.streams, id, command);
    EditMinding(w, id, command);
    hide Tracked;
    assert Then(ClosedEmpty(w, id).past) == Then(w.past);
  }

  lemma TrackedFacts(journal: Journal, launched: set<Id>, owner: map<Id, Id>, id: Id)
    requires Tracked(journal, launched, owner) && id in journal
    ensures TrackedOne(id, journal[id], launched, owner)
  {
  }

  /** A new command: under a run id that was never given out, unless it cancels a run and names that. */
  function Added(w: World, id: Id, command: Command): World {
    Edited(w, id, command).(past := w.past.(owner := if command.kind.CancelCommand? then w.past.owner else w.past.owner[command.run := id]))
  }

  ghost predicate MayAdd(w: World, id: Id, command: Command) {
    && id !in w.memory.journal && id !in w.past.launched && NeverLaunched(w.past.launches, id)
    && (id in w.disk.journal ==> w.disk.journal[id].kind == command.kind)
    && (command.run !in w.past.owner || command.kind.CancelCommand?) && command.pending == {} && CatchUpOk(command)
    && (OpenUpdate(command) ==> forall other | other in w.memory.journal :: !OpenUpdate(w.memory.journal[other]))
  }

  lemma AddSound(shapes: Shapes, w: World, id: Id, command: Command)
    requires Sound(shapes, w) && MayAdd(w, id, command) && command.occurrence.None?
    ensures Sound(shapes, Added(w, id, command))
  {
    hide Core;
    AddCore(shapes, w, id, command);
    InspectsEdit(w.past.launches, w.memory.journal, id, command);
    hide Inspects;
  }

  lemma AddCore(shapes: Shapes, w: World, id: Id, command: Command)
    requires Core(shapes, w) && MayAdd(w, id, command)
    ensures Core(shapes, Added(w, id, command))
  {
    hide Exclusive, WithinCapacity, Claimed, Owing, Replicating, Logged, Tracked, Threads, Draining;
    var m, p := w.memory, w.past;
    var owner := Added(w, id, command).past.owner;
    if !command.kind.CancelCommand? {
      TrackedFresh(m.journal, p.launched, p.owner, command.run, id);
      TrackedFresh(w.disk.journal, p.launched, p.owner, command.run, id);
      ThreadsFresh(p.launched, p.owner, m.runs, m.streams, command.run, id);
    }
    ExtendsItself(w.disk.claims);
    NoThreadFor(p.launched, p.owner, m.runs, m.streams, id);
    LogExtends(p.launches, p.launched, p.owner, w.disk.claims, p.launched, owner, w.disk.claims);
    TrackedAdd(m.journal, p.launched, owner, id, command);
    AddReplicating(m.journal, p.owed, p.verified, p.launched, m.runs, m.streams, id, command);
    DrainingAdd(m.update, m.journal, w.disk.journal, m.handing, p.handed, m.runs, m.streams, id, command);
  }

  /** What the scheduler has looked up becomes a command, durably. */
  function Scheduled(w: World, id: Id, command: Command): World {
    var added := Saved(Added(w, id, command), true);
    added.(memory := added.memory.(looking := None))
  }

  lemma ScheduleSound(shapes: Shapes, w: World, id: Id, command: Command)
    requires Sound(shapes, w) && MayAdd(w, id, command) && Saves(Added(w, id, command), true)
    ensures Sound(shapes, Scheduled(w, id, command)) && Extended(w.disk.claims, Scheduled(w, id, command).disk.claims)
  {
    hide Core, Extended;
    var added := Added(w, id, command);
    AddCore(shapes, w, id, command);
    SaveCore(shapes, added, true);
    UnlookedCore(shapes, Saved(added, true), None);
    InspectsEdit(w.past.launches, w.memory.journal, id, command);
    hide Inspects;
  }

  lemma UnlookedCore(shapes: Shapes, w: World, looking: Option<Occurrence>)
    requires Core(shapes, w)
    ensures Core(shapes, w.(memory := w.memory.(looking := looking)))
  {
    hide Exclusive, WithinCapacity, Threads, Tracked, Logged, Claimed, Draining, Owing, Replicating;
  }

  /** The scheduler finds an occurrence unclaimed. It alone gives occurrences out, so that stays so. */
  lemma LookSound(shapes: Shapes, w: World, occurrence: Occurrence)
    requires Sound(shapes, w) && occurrence !in w.disk.claims
    ensures Sound(shapes, w.(memory := w.memory.(looking := Some(occurrence))))
  {
    hide Core;
    UnlookedCore(shapes, w, Some(occurrence));
  }

  lemma NoThreadFor(launched: set<Id>, owner: map<Id, Id>, runs: map<Id, RunThread>, streams: map<Id, Stream>, id: Id)
    requires Threads(launched, owner, runs, streams) && id !in launched
    ensures forall run | run in runs :: runs[run].command != id
    ensures forall job | job in streams && streams[job].Sync? :: streams[job].command != id
  {
  }

  /** A command that owes no replica anything is taken back or forgotten. */
  function Removed(w: World, id: Id): World {
    WithJournal(w, w.memory.journal - {id})
  }

  lemma RemoveSound(shapes: Shapes, w: World, id: Id)
    requires Sound(shapes, w) && w.memory.update != Some(id)
    requires id in w.memory.journal ==> w.memory.journal[id].pending == {}
    ensures Sound(shapes, Removed(w, id))
  {
    hide Exclusive, WithinCapacity, Threads, Tracked, Logged, Claimed, Draining, Owing, Replicating, Inspects;
    var m, p := w.memory, w.past;
    InspectsRemove(p.launches, m.journal, id);
    TrackedRemove(m.journal, p.launched, p.owner, id);
    DrainingRemove(m.update, m.journal, w.disk.journal, m.handing, p.handed, m.runs, m.streams, id);
    RemoveReplicating(m.journal, p.owed, p.verified, p.launched, m.runs, m.streams, id);
  }

  /** No update but this one is under way. */
  ghost predicate NoOtherUpdate(journal: Journal, id: Id) {
    forall other | other in journal && OpenUpdate(journal[other]) :: other == id
  }

  lemma NoUpdateYet(shapes: Shapes, w: World, id: Id)
    requires Sound(shapes, w) && id !in w.memory.journal
    ensures w.memory.update != Some(id)
    ensures NoOtherUpdate(w.memory.journal, id) ==>
              w.memory.update.None? && w.memory.handing.None? && w.past.handed.None? &&
              forall other | other in w.memory.journal :: !OpenUpdate(w.memory.journal[other])
  {
  }

  function WithUpdate(w: World, update: Option<Id>): World {
    w.(memory := w.memory.(update := update))
  }

  lemma UpdateBegins(shapes: Shapes, w: World, id: Id)
    requires Sound(shapes, w) && w.memory.update.None?
    requires id in w.memory.journal && OpenUpdate(w.memory.journal[id])
    ensures Sound(shapes, WithUpdate(w, Some(id)))
  {
    hide Exclusive, WithinCapacity, Threads, Tracked, Logged, Claimed, Owing, Replicating, Minded;
  }

  lemma UpdateEnds(shapes: Shapes, w: World)
    requires Sound(shapes, w) && w.memory.handing.None? && w.past.handed.None?
    ensures Sound(shapes, WithUpdate(w, None))
  {
    hide Exclusive, WithinCapacity, Threads, Tracked, Logged, Claimed, Owing, Replicating, Minded;
  }

  /** What is not acknowledged was never started, and so made nothing that is to be copied. */
  lemma UnacknowledgedOwesNothing(shapes: Shapes, w: World, id: Id)
    requires Sound(shapes, w) && id in w.memory.journal && !w.memory.journal[id].acknowledged
    ensures id !in w.past.launched && w.memory.journal[id].pending == {}
    ensures w.memory.update == Some(id) ==> w.memory.handing.None? && w.past.handed.None?
  {
    assert TrackedOne(id, w.memory.journal[id], w.past.launched, w.past.owner);
    if w.memory.journal[id].pending != {} {
      PendingIsFinished(w.memory.journal, w.past.owed, w.past.verified, w.past.launched, id);
    }
  }

  function ThreadOf(id: Id, command: Command): RunThread {
    RunThread(id, command.job, command.kind.BackupCommand?)
  }

  predicate MayLaunch(shapes: Shapes, w: World, id: Id) {
    var m := w.memory;
    && m.update.None? && id in m.journal && w.disk.journal == m.journal && id !in w.past.launched
    && m.journal[id].state.Running? && m.journal[id].acknowledged && (m.journal[id].kind.BackupCommand? || m.journal[id].kind.MaintenanceCommand?)
    && HeldByRun(shapes, ThreadOf(id, m.journal[id])) * m.repositories == {}
    && if ThreadOf(id, m.journal[id]).backup then |BackupRuns(m.kinds)| < 2
       else |MaintenanceRuns(m.kinds)| < 1 && !HasPending(m.journal, m.journal[id].job)
  }

  /** The goroutine of a run takes its repositories. */
  function Started(shapes: Shapes, m: Memory, run: Id, thread: RunThread): Memory {
    m.(repositories := m.repositories + HeldByRun(shapes, thread), kinds := m.kinds[run := thread.backup], runs := m.runs[run := thread])
  }

  function Logs(p: Past, launch: Launch): Past {
    p.(launches := p.launches + [launch], launched := p.launched + {launch.command})
  }

  function LaunchOf(id: Id, command: Command): Launch {
    Launch(id, command.run, command.occurrence, command.kind.InspectCommand?)
  }

  function Launched(shapes: Shapes, w: World, id: Id): World
    requires id in w.memory.journal
  {
    var run, thread := w.memory.journal[id].run, ThreadOf(id, w.memory.journal[id]);
    var past := Logs(w.past, LaunchOf(id, w.memory.journal[id]));
    w.(memory := Started(shapes, w.memory, run, thread),
       past := past.(holders := Give(w.past.holders, HeldByRun(shapes, thread), RunHolder(run))))
  }

  /** A run that is durably running, fits in and finds its repositories free may go. */
  lemma LaunchSound(shapes: Shapes, w: World, id: Id)
    requires Sound(shapes, w) && MayLaunch(shapes, w, id)
    ensures Sound(shapes, Launched(shapes, w, id)) && w.memory.journal[id].run !in w.memory.runs
  {
    hide Exclusive, WithinCapacity, Tracked, Threads, Logged, Claimed, Draining, Owing, Replicating, HasPending, HeldByRun, Give, BackupRuns, MaintenanceRuns, Minded, Inspects;
    var m, p := w.memory, w.past;
    var run, thread := m.journal[id].run, ThreadOf(id, m.journal[id]);
    TrackedFacts(w.disk.journal, p.launched, p.owner, id);
    NotYetRunning(m.journal, p.launched, p.owner, m.runs, m.streams, id);
    TakeByRun(shapes, m.repositories, p.holders, m.runs, m.streams, run, thread);
    StartWithinCapacity(m.kinds, m.runs, run, thread);
    ThreadsStart(p.launched, p.owner, m.runs, m.streams, run, thread);
    TrackedLaunch(w.disk.journal, p.launched, p.owner, id);
    InspectsFacts(shapes, w);
    LogLaunch(p.launches, p.launched, p.owner, w.disk.claims, w.disk.journal, id);
    MindedLog(p.launches, m.journal, w.disk.journal, w.disk.claims, m.inspecting, m.looking, m.handing, p.handed, LaunchOf(id, m.journal[id]));
    NothingRunsWhileHanded(m.update, m.journal, w.disk.journal, m.handing, p.handed, m.runs, m.streams);
    DrainingWork(m.journal, w.disk.journal, m.handing, p.handed, m.update, m.runs, m.streams, m.runs[run := thread], m.streams);
    StartReplicatingRun(m.journal, p.owed, p.verified, p.launched, m.runs, m.streams, run, thread);
    LaunchOwing(w.disk.journal, p.savedOwed, Then(p), p.launched, id);
  }

  lemma InspectsFacts(shapes: Shapes, w: World)
    requires Sound(shapes, w)
    ensures Inspects(w.past.launches, w.memory.journal) && Inspects(w.past.launches, w.disk.journal)
  {
    hide Core, Inspects;
  }

  lemma NotYetRunning(journal: Journal, launched: set<Id>, owner: map<Id, Id>, runs: map<Id, RunThread>, streams: map<Id, Stream>, id: Id)
    requires Tracked(journal, launched, owner) && Threads(launched, owner, runs, streams) && id in journal && id !in launched
    ensures !journal[id].kind.CancelCommand? ==> journal[id].run !in runs && journal[id].run in owner && owner[journal[id].run] == id
  {
    assert TrackedOne(id, journal[id], launched, owner);
  }

  lemma CatchUpFacts(shapes: Shapes, w: World, id: Id)
    requires Sound(shapes, w) && id in w.memory.journal && w.memory.journal[id].catchUp
    ensures w.memory.journal[id].acknowledged && w.memory.journal[id].kind.BackupCommand?
  {
    TrackedFacts(w.memory.journal, w.past.launched, w.past.owner, id);
  }

  lemma WaitingNotLaunched(shapes: Shapes, w: World, id: Id)
    requires Sound(shapes, w) && id in w.memory.journal && w.memory.journal[id].state.Received?
    ensures id !in w.past.launched
  {
    WaitingHasNoThread(w.memory.journal, w.past.launched, w.past.owner, w.memory.runs, w.memory.streams, id);
  }

  /** Marking a command that owes nothing does not make anything pending. */
  lemma PendingElsewhere(journal: Journal, id: Id, command: Command, job: Id)
    requires id in journal && Pends(command, job) == Pends(journal[id], job)
    ensures HasPending(journal[id := command], job) == HasPending(journal, job)
  {
    var after := journal[id := command];
    if other :| other in journal && Pends(journal[other], job) {
      assert Pends(after[other], job);
    }
    if other :| other in after && Pends(after[other], job) {
      assert Pends(journal[other], job);
    }
  }

  /** What a finished run leaves in the journal. */
  function FinishedCommand(command: Command, shapes: Shapes, thread: RunThread, snapshots: set<Id>, good: bool): Command {
    command.(state := Finished, result := Some(Outcome(thread.job, snapshots)),
             pending := if thread.backup && good && snapshots != {} && shapes(thread.job).replicas != map[] then shapes(thread.job).replicas.Keys
                        else command.pending)
  }

  function Freed(shapes: Shapes, thread: RunThread): set<Id> {
    {shapes(thread.job).primary} + shapes(thread.job).replicas.Values
  }

  function Stopped(shapes: Shapes, m: Memory, run: Id): Memory
    requires run in m.runs
  {
    m.(repositories := m.repositories - Freed(shapes, m.runs[run]), kinds := m.kinds - {run}, runs := m.runs - {run})
  }

  function FinishedRun(shapes: Shapes, w: World, run: Id, snapshots: set<Id>, good: bool): World
    requires run in w.memory.runs
  {
    var thread := w.memory.runs[run];
    var memory, past := Stopped(shapes, w.memory, run), w.past.(holders := w.past.holders - Freed(shapes, thread));
    if thread.command in w.memory.journal then
      var command := FinishedCommand(w.memory.journal[thread.command], shapes, thread, snapshots, good);
      w.(memory := memory.(journal := memory.journal[thread.command := command]), past := past.(owed := past.owed + Debts(thread.command, command.pending, snapshots),
                                                                                                      verified := Opened(past.verified, thread.command)))
    else w.(memory := memory, past := past)
  }

  /** The end of a run frees exactly what it held, although it names replicas that it never took. */
  lemma FinishSound(shapes: Shapes, owners: Id -> Id, w: World, run: Id, snapshots: set<Id>, good: bool)
    requires Fixed(shapes, owners) && Sound(shapes, w) && run in w.memory.runs
    ensures Sound(shapes, FinishedRun(shapes, w, run, snapshots, good))
    ensures w.memory.repositories - Freed(shapes, w.memory.runs[run]) == w.memory.repositories - HeldByRun(shapes, w.memory.runs[run])
  {
    hide Exclusive, WithinCapacity, Fixed, Tracked, Threads, Logged, Claimed, Draining, Owing, Replicating, HeldByRun, Debts, Minded;
    var m, p := w.memory, w.past;
    var id := m.runs[run].command;
    FreeByRun(shapes, owners, m.repositories, p.holders, m.runs, m.streams, run);
    FinishWithinCapacity(m.kinds, m.runs, run);
    ThreadsFinish(p.launched, p.owner, m.runs, m.streams, run);
    ThreadFacts(p.launched, p.owner, m.runs, m.streams, run);
    DrainingWork(m.journal, w.disk.journal, m.handing, p.handed, m.update, m.runs, m.streams, m.runs - {run}, m.streams);
    if id in m.journal {
      var command := FinishedCommand(m.journal[id], shapes, m.runs[run], snapshots, good);
      NoMaintenanceBeside(shapes, m.repositories, p.holders, m.runs, m.streams, run);
      FinishedFacts(m.journal, p.owed, p.verified, p.launched, m.runs, m.streams, run, command, shapes, snapshots, good);
      FinishBackup(m.journal, p.owed, p.verified, p.launched, m.runs, m.streams, run, command);
      TrackedFacts(m.journal, p.launched, p.owner, id);
      TrackedEdit(m.journal, p.launched, p.owner, id, command);
      DrainingFinish(m.update, m.journal, w.disk.journal, m.handing, p.handed, m.runs - {run}, m.streams, id, command);
      EditMinding(w, id, command);
    } else {
      FinishReplicatingRun(m.journal, p.owed, p.verified, p.launched, m.runs, m.streams, run);
    }
  }

  lemma ThreadFacts(launched: set<Id>, owner: map<Id, Id>, runs: map<Id, RunThread>, streams: map<Id, Stream>, run: Id)
    requires Threads(launched, owner, runs, streams) && run in runs
    ensures runs[run].command in launched
    ensures forall other | other in runs && runs[other].command == runs[run].command :: other == run
  {
  }

  /** A backup and a maintenance run of one job would hold the same primary. */
  lemma NoMaintenanceBeside(shapes: Shapes, repositories: set<Id>, holders: map<Id, Holder>, runs: map<Id, RunThread>, streams: map<Id, Stream>, run: Id)
    requires Exclusive(shapes, repositories, holders, runs, streams) && run in runs
    ensures forall other | other in runs && other != run :: runs[other].job != runs[run].job
  {
    forall other | other in runs && runs[other].job == runs[run].job ensures other == run {
      assert shapes(runs[run].job).primary in Held(shapes, runs, streams, RunHolder(run));
      assert shapes(runs[run].job).primary in Held(shapes, runs, streams, RunHolder(other));
      SameHolder(shapes, repositories, holders, runs, streams, shapes(runs[run].job).primary, RunHolder(run), RunHolder(other));
    }
  }

  lemma FinishedFacts(journal: Journal, owed: map<Debt, set<Id>>, verified: Notes, launched: set<Id>, runs: map<Id, RunThread>, streams: map<Id, Stream>,
                      run: Id, command: Command, shapes: Shapes, snapshots: set<Id>, good: bool)
    requires Replicating(journal, owed, verified, launched, runs, streams) && run in runs && runs[run].command in journal
    requires command == FinishedCommand(journal[runs[run].command], shapes, runs[run], snapshots, good)
    ensures journal[runs[run].command].job == runs[run].job == command.job
    ensures journal[runs[run].command].pending == {}
    ensures command.pending != {} ==> runs[run].backup
    ensures !command.kind.UpdateCommand?
  {
    var id := runs[run].command;
    assert forall key | key in journal[id].pending :: Debt(id, key) in owed;
  }

  /** Finishing a command that is not an update is no matter to the update. */
  lemma DrainingFinish(update: Option<Id>, journal: Journal, saved: Journal, handing: Option<Id>, handed: Option<Id>,
                       runs: map<Id, RunThread>, streams: map<Id, Stream>, id: Id, command: Command)
    requires Draining(update, journal, saved, handing, handed, runs, streams)
    requires id in journal && command.kind == journal[id].kind && !command.kind.UpdateCommand?
    ensures Draining(update, journal[id := command], saved, handing, handed, runs, streams)
  {
  }

  predicate MaySync(shapes: Shapes, w: World, id: Id, target: Id) {
    var m := w.memory;
    && m.update.None? && id in m.journal && w.disk.journal == m.journal && id !in w.past.launched
    && m.journal[id].state.Running? && m.journal[id].acknowledged && m.journal[id].kind.SyncCommand?
    && m.journal[id].job !in m.replicating && target in Replicas(shapes, m.journal[id].job)
    && {shapes(m.journal[id].job).primary, target} * m.repositories == {}
  }

  /** The goroutine that copies to one replica because it was told to. */
  function SyncStarted(shapes: Shapes, w: World, id: Id, target: Id): World
    requires id in w.memory.journal
  {
    var job := w.memory.journal[id].job;
    var held := {shapes(job).primary, target};
    var past := Logs(w.past, LaunchOf(id, w.memory.journal[id]));
    w.(memory := w.memory.(streams := w.memory.streams[job := Sync(id, target)], replicating := w.memory.replicating + {job},
                           repositories := w.memory.repositories + held),
       past := past.(holders := Give(w.past.holders, held, StreamHolder(job))))
  }

  lemma SyncSound(shapes: Shapes, w: World, id: Id, target: Id)
    requires Sound(shapes, w) && MaySync(shapes, w, id, target)
    ensures Sound(shapes, SyncStarted(shapes, w, id, target))
  {
    hide Exclusive, WithinCapacity, Tracked, Threads, Logged, Claimed, Draining, Owing, Replicating, Give, Minded, Inspects;
    var m, p := w.memory, w.past;
    var job, stream := m.journal[id].job, Sync(id, target);
    TrackedFacts(w.disk.journal, p.launched, p.owner, id);
    TakeByStream(shapes, m.repositories, p.holders, m.runs, m.streams, job, stream);
    ThreadsSync(p.launched, p.owner, m.runs, m.streams, job, stream);
    TrackedLaunch(w.disk.journal, p.launched, p.owner, id);
    InspectsFacts(shapes, w);
    LogLaunch(p.launches, p.launched, p.owner, w.disk.claims, w.disk.journal, id);
    MindedLog(p.launches, m.journal, w.disk.journal, w.disk.claims, m.inspecting, m.looking, m.handing, p.handed, LaunchOf(id, m.journal[id]));
    NothingRunsWhileHanded(m.update, m.journal, w.disk.journal, m.handing, p.handed, m.runs, m.streams);
    DrainingWork(m.journal, w.disk.journal, m.handing, p.handed, m.update, m.runs, m.streams, m.runs, m.streams[job := stream]);
    LaunchReplicating(m.journal, p.owed, p.verified, p.launched, m.runs, m.streams, id);
    MoveReplicating(m.journal, p.owed, p.verified, p.launched + {id}, m.runs, m.streams, job, stream);
    LaunchOwing(w.disk.journal, p.savedOwed, Then(p), p.launched, id);
  }

  /** A copying goroutine is gone, and with it what it held. */
  function StreamEnded(shapes: Shapes, w: World, job: Id): World
    requires job in w.memory.streams
  {
    var held := HeldByStream(shapes, job, w.memory.streams[job]);
    w.(memory := w.memory.(streams := w.memory.streams - {job}, replicating := w.memory.replicating - {job}, repositories := w.memory.repositories - held),
       past := w.past.(holders := w.past.holders - held))
  }

  lemma StreamEndSound(shapes: Shapes, w: World, job: Id)
    requires Sound(shapes, w) && job in w.memory.streams
    ensures Sound(shapes, StreamEnded(shapes, w, job))
    ensures w.memory.streams[job].Sync? && w.memory.streams[job].command in w.memory.journal ==>
              !w.memory.journal[w.memory.streams[job].command].kind.UpdateCommand?
  {
    SyncFacts(w.memory.journal, w.past.owed, w.past.verified, w.past.launched, w.memory.runs, w.memory.streams);
    hide Exclusive, WithinCapacity, Tracked, Threads, Logged, Claimed, Draining, Owing, Replicating, HeldByStream, Minded;
    var m, p := w.memory, w.past;
    FreeByStream(shapes, m.repositories, p.holders, m.runs, m.streams, job, m.streams - {job});
    ThreadsSync(p.launched, p.owner, m.runs, m.streams, job, Leaving);
    DrainingWork(m.journal, w.disk.journal, m.handing, p.handed, m.update, m.runs, m.streams, m.runs, m.streams - {job});
    MoveReplicating(m.journal, p.owed, p.verified, p.launched, m.runs, m.streams, job, Leaving);
  }

  lemma SyncFacts(journal: Journal, owed: map<Debt, set<Id>>, verified: Notes, launched: set<Id>, runs: map<Id, RunThread>, streams: map<Id, Stream>)
    requires Replicating(journal, owed, verified, launched, runs, streams)
    ensures SyncsMatch(journal, streams)
  {
  }

  /** A copying goroutine begins, or goes on without taking or freeing anything. */
  function StreamMoved(w: World, job: Id, stream: Stream): World {
    w.(memory := w.memory.(streams := w.memory.streams[job := stream], replicating := w.memory.replicating + {job}))
  }

  lemma StreamMoveSound(shapes: Shapes, w: World, job: Id, stream: Stream)
    requires Sound(shapes, w) && (w.memory.update.None? || job in w.memory.streams)
    requires job in w.memory.streams ==> HeldByStream(shapes, job, w.memory.streams[job]) == {}
    requires HeldByStream(shapes, job, stream) == {} && TargetOk(shapes, job, stream)
    requires stream.Choosing? || stream.Leaving? || (!stream.Sync? && BatchOk(w.memory.journal, stream, w.past.launched, w.memory.runs))
    ensures Sound(shapes, StreamMoved(w, job, stream))
  {
    hide Exclusive, WithinCapacity, Tracked, Threads, Logged, Claimed, Draining, Owing, Replicating, HeldByStream, TargetOk, BatchOk, Minded;
    var m, p := w.memory, w.past;
    MoveStream(shapes, m.repositories, p.holders, m.runs, m.streams, job, stream);
    ThreadsSync(p.launched, p.owner, m.runs, m.streams, job, stream);
    DrainingWork(m.journal, w.disk.journal, m.handing, p.handed, m.update, m.runs, m.streams, m.runs, m.streams[job := stream]);
    MoveReplicating(m.journal, p.owed, p.verified, p.launched, m.runs, m.streams, job, stream);
  }

  /** The goroutine takes the primary and the replica for the time of the copy. */
  function CopyStarted(shapes: Shapes, w: World, job: Id): World
    requires job in w.memory.streams && w.memory.streams[job].Chosen?
  {
    var chosen := w.memory.streams[job];
    var held := {shapes(job).primary, chosen.target};
    w.(memory := w.memory.(streams := w.memory.streams[job := Copying(chosen.key, chosen.target, chosen.batch)], repositories := w.memory.repositories + held),
       past := w.past.(holders := Give(w.past.holders, held, StreamHolder(job))))
  }

  lemma CopyStartSound(shapes: Shapes, w: World, job: Id)
    requires Sound(shapes, w) && job in w.memory.streams && w.memory.streams[job].Chosen?
    requires {shapes(job).primary, w.memory.streams[job].target} * w.memory.repositories == {}
    ensures Sound(shapes, CopyStarted(shapes, w, job))
  {
    hide WithinCapacity, Tracked, Threads, Logged, Claimed, Draining, Owing, Give, Minded;
    var m, p := w.memory, w.past;
    var chosen := m.streams[job];
    var stream := Copying(chosen.key, chosen.target, chosen.batch);
    assert BatchOk(m.journal, chosen, p.launched, m.runs);
    assert TargetOk(shapes, job, chosen);
    hide Exclusive, Replicating;
    TakeByStream(shapes, m.repositories, p.holders, m.runs, m.streams, job, stream);
    ThreadsSync(p.launched, p.owner, m.runs, m.streams, job, stream);
    DrainingWork(m.journal, w.disk.journal, m.handing, p.handed, m.update, m.runs, m.streams, m.runs, m.streams[job := stream]);
    MoveReplicating(m.journal, p.owed, p.verified, p.launched, m.runs, m.streams, job, stream);
    assert m.replicating == m.streams[job := stream].Keys;
  }

  function CopyEnded(shapes: Shapes, w: World, job: Id, ok: bool): World
    requires job in w.memory.streams && w.memory.streams[job].Copying?
  {
    var copying := w.memory.streams[job];
    var held := {shapes(job).primary, copying.target};
    w.(memory := w.memory.(streams := w.memory.streams[job := Copied(copying.key, copying.batch, ok)], repositories := w.memory.repositories - held),
       past := w.past.(holders := w.past.holders - held))
  }

  lemma CopyEndSound(shapes: Shapes, w: World, job: Id, ok: bool)
    requires Sound(shapes, w) && job in w.memory.streams && w.memory.streams[job].Copying?
    ensures Sound(shapes, CopyEnded(shapes, w, job, ok))
  {
    hide Exclusive, WithinCapacity, Tracked, Threads, Logged, Claimed, Draining, Owing, Minded;
    var m, p := w.memory, w.past;
    var copying := m.streams[job];
    var stream := Copied(copying.key, copying.batch, ok);
    assert BatchOk(m.journal, copying, p.launched, m.runs);
    hide Replicating;
    assert HeldByStream(shapes, job, stream) == {} && TargetOk(shapes, job, stream);
    FreeByStream(shapes, m.repositories, p.holders, m.runs, m.streams, job, m.streams[job := stream]);
    ThreadsSync(p.launched, p.owner, m.runs, m.streams, job, stream);
    DrainingWork(m.journal, w.disk.journal, m.handing, p.handed, m.update, m.runs, m.streams, m.runs, m.streams[job := stream]);
    MoveReplicating(m.journal, p.owed, p.verified, p.launched, m.runs, m.streams, job, stream);
    assert m.replicating == m.streams[job := stream].Keys;
  }

  /** One command of a batch whose copy was verified has one replica less pending. */
  function Paid(w: World, id: Id, key: Id, inventory: set<Id>): World
    requires id in w.memory.journal
  {
    var command := w.memory.journal[id];
    Edited(w, id, command.(pending := command.pending - {key})).(past := w.past.(verified := WithCopy(w.past.verified, Copy(id, key, inventory))))
  }

  lemma PaySound(shapes: Shapes, w: World, id: Id, key: Id, inventory: set<Id>)
    requires Sound(shapes, w) && id in w.memory.journal
    requires w.memory.journal[id].result.Some? && w.memory.journal[id].result.value.snapshots <= inventory
    ensures Sound(shapes, Paid(w, id, key, inventory))
  {
    hide Exclusive, WithinCapacity, Tracked, Threads, Logged, Claimed, Draining, Owing, Replicating, Minded;
    var m, p := w.memory, w.past;
    var command := m.journal[id].(pending := m.journal[id].pending - {key});
    TrackedFacts(m.journal, p.launched, p.owner, id);
    TrackedEdit(m.journal, p.launched, p.owner, id, command);
    DrainingEdit(m.update, m.journal, w.disk.journal, m.handing, p.handed, m.runs, m.streams, id, command);
    PayOne(m.journal, p.owed, p.verified, p.launched, m.runs, m.streams, id, key, inventory);
    MoreCopies(w.disk.journal, p.savedOwed, Then(p), WithCopy(Then(p), Copy(id, key, inventory)), p.launched);
    EditMinding(w, id, command);
  }

  /** The update command changes its state while the helper does not have it. */
  lemma UpdateEditSound(shapes: Shapes, w: World, id: Id, state: CommandState)
    requires Sound(shapes, w) && id in w.memory.journal && w.memory.journal[id].kind.UpdateCommand?
    requires w.memory.update == Some(id) && w.memory.handing.None? && w.past.handed.None? && id !in w.past.launched && !state.Finished?
    ensures Sound(shapes, Edited(w, id, w.memory.journal[id].(state := state)))
  {
    hide Exclusive, WithinCapacity, Tracked, Threads, Logged, Claimed, Owing, Replicating, Minded;
    var m, p := w.memory, w.past;
    var command := m.journal[id].(state := state);
    EditMinding(w, id, command);
    TrackedFacts(m.journal, p.launched, p.owner, id);
    TrackedEdit(m.journal, p.launched, p.owner, id, command);
    GentleEdit(m.journal, p.owed, p.verified, p.launched, m.runs, m.streams, id, command);
  }

  predicate MayHand(w: World, id: Id) {
    var m := w.memory;
    && m.update == Some(id) && id in m.journal && m.journal[id].kind.UpdateCommand? && m.journal[id].state.Running? && m.journal[id].acknowledged
    && w.disk.journal == m.journal && m.handing.None? && w.past.handed.None? && id !in w.past.launched
    && m.kinds == map[] && m.replicating == {} && m.inspecting.None?
  }

  function Handing(w: World, id: Id): World {
    w.(memory := w.memory.(handing := Some(id)))
  }

  /** Nothing is active and nothing is being copied: then no goroutine is left. */
  lemma HandSound(shapes: Shapes, w: World, id: Id)
    requires Sound(shapes, w) && MayHand(w, id)
    ensures Sound(shapes, Handing(w, id))
  {
    hide Exclusive, Tracked, Threads, Logged, Claimed, Owing, Replicating, Inspects, Taken;
    assert w.memory.runs.Keys == {} && w.memory.streams.Keys == {};
    assert w.memory.runs == map[] && w.memory.streams == map[];
  }

  function Handed(w: World): World
    requires w.memory.handing.Some? && w.memory.handing.value in w.memory.journal
  {
    var id := w.memory.handing.value;
    w.(memory := w.memory.(handing := None), past := Logs(w.past, LaunchOf(id, w.memory.journal[id])).(handed := Some(id)))
  }

  lemma HandedSound(shapes: Shapes, w: World)
    requires Sound(shapes, w) && w.memory.handing.Some?
    ensures w.memory.handing.value in w.memory.journal && Sound(shapes, Handed(w))
  {
    var m, p := w.memory, w.past;
    var id := m.handing.value;
    assert Quiet(m.update, m.journal, w.disk.journal, m.runs, m.streams, id);
    hide Exclusive, WithinCapacity, Tracked, Threads, Logged, Claimed, Owing, Replicating, Inspects, Taken;
    TrackedFacts(w.disk.journal, p.launched, p.owner, id);
    TrackedLaunch(m.journal, p.launched, p.owner, id);
    TrackedLaunch(w.disk.journal, p.launched, p.owner, id);
    ThreadsLaunch(p.launched, p.owner, m.runs, m.streams, id);
    LogLaunch(p.launches, p.launched, p.owner, w.disk.claims, w.disk.journal, id);
    InspectsLog(p.launches, m.journal, LaunchOf(id, m.journal[id]));
    InspectsLog(p.launches, w.disk.journal, LaunchOf(id, m.journal[id]));
    LaunchReplicating(m.journal, p.owed, p.verified, p.launched, m.runs, m.streams, id);
    LaunchOwing(w.disk.journal, p.savedOwed, Then(p), p.launched, id);
  }

  /** The request file could not be written. */
  lemma TakenBackSound(shapes: Shapes, w: World)
    requires Sound(shapes, w) && w.memory.handing.Some?
    ensures w.memory.update == w.memory.handing && w.memory.handing.value in w.memory.journal
    ensures w.memory.journal[w.memory.handing.value].kind.UpdateCommand? && w.memory.handing.value !in w.past.launched && w.past.handed.None?
    ensures Sound(shapes, w.(memory := w.memory.(handing := None)))
  {
    hide Exclusive, WithinCapacity, Tracked, Threads, Logged, Claimed, Owing, Replicating, Inspects, Taken;
  }

  /** The helper's result closes the update. */
  function Consumed(w: World, id: Id): World
    requires id in w.memory.journal
  {
    var command := w.memory.journal[id].(state := Finished, result := Some(Outcome(w.memory.journal[id].job, {})));
    w.(memory := w.memory.(journal := w.memory.journal[id := command], update := None), past := w.past.(handed := None))
  }

  lemma ConsumeSound(shapes: Shapes, w: World, id: Id)
    requires Sound(shapes, w) && w.memory.update == Some(id) && w.memory.handing.None?
    requires id in w.memory.journal && w.memory.journal[id].kind.UpdateCommand?
    ensures Sound(shapes, Consumed(w, id))
  {
    hide Exclusive, WithinCapacity, Tracked, Threads, Logged, Claimed, Owing, Replicating, Inspects, Taken;
    var m, p := w.memory, w.past;
    var command := m.journal[id].(state := Finished, result := Some(Outcome(m.journal[id].job, {})));
    TrackedFacts(m.journal, p.launched, p.owner, id);
    TrackedEdit(m.journal, p.launched, p.owner, id, command);
    GentleEdit(m.journal, p.owed, p.verified, p.launched, m.runs, m.streams, id, command);
    InspectsEdit(p.launches, m.journal, id, command);
    TakenEdit(m.journal, w.disk.claims, id, command);
  }

  lemma TakenEdit(journal: Journal, claims: map<Occurrence, Claim>, id: Id, command: Command)
    requires Taken(journal, claims) && id in journal && command.occurrence == journal[id].occurrence
    ensures Taken(journal[id := command], claims)
  {
  }

  /** An occurrence that is passed over, whatever its claim was. */
  function PassedOver(w: World, occurrence: Occurrence): World {
    w.(memory := w.memory.(looking := None), disk := w.disk.(claims := w.disk.claims[occurrence := Gap]))
  }

  lemma SkipSound(shapes: Shapes, w: World, occurrence: Occurrence)
    requires Sound(shapes, w) && w.memory.looking == Some(occurrence)
    ensures Sound(shapes, PassedOver(w, occurrence)) && Extended(w.disk.claims, PassedOver(w, occurrence).disk.claims)
  {
    hide Exclusive, WithinCapacity, Threads, Tracked, Draining, Owing, Replicating, Inspects;
    LogExtends(w.past.launches, w.past.launched, w.past.owner, w.disk.claims, w.past.launched, w.past.owner, w.disk.claims[occurrence := Gap]);
  }

  /** The dispatching goroutine begins to inspect a source, while its command still waits. */
  function InspectionStarted(w: World, id: Id): World
    requires id in w.memory.journal
  {
    w.(memory := w.memory.(inspecting := Some(id)), past := w.past.(launches := w.past.launches + [LaunchOf(id, w.memory.journal[id])]))
  }

  lemma InspectSound(shapes: Shapes, w: World, id: Id)
    requires Sound(shapes, w) && w.memory.update.None? && id in w.memory.journal
    requires w.memory.journal[id].kind.InspectCommand? && w.memory.journal[id].state.Received?
    ensures Sound(shapes, InspectionStarted(w, id))
  {
    hide Exclusive, WithinCapacity, Threads, Tracked, Claimed, Draining, Owing, Replicating, Inspects, Taken, Logged;
    var m, p := w.memory, w.past;
    TrackedFacts(m.journal, p.launched, p.owner, id);
    LogInspection(p.launches, p.launched, p.owner, w.disk.claims, m.journal, id);
    InspectsLog(p.launches, m.journal, LaunchOf(id, m.journal[id]));
    InspectsLog(p.launches, w.disk.journal, LaunchOf(id, m.journal[id]));
    InspectedLog(p.launches, LaunchOf(id, m.journal[id]), id);
    NothingRunsWhileHanded(m.update, m.journal, w.disk.journal, m.handing, p.handed, m.runs, m.streams);
  }

  lemma InspectingFacts(shapes: Shapes, w: World, id: Id)
    requires Sound(shapes, w) && w.memory.inspecting == Some(id) && id in w.memory.journal
    ensures w.memory.journal[id].kind.InspectCommand?
  {
    hide Core, Inspects, Inspected, Taken;
    InspectedIsInspection(w.past.launches, w.memory.journal, id);
  }

  function InspectionEnded(w: World): World {
    w.(memory := w.memory.(inspecting := None))
  }

  lemma InspectionEndSound(shapes: Shapes, w: World)
    requires Sound(shapes, w)
    ensures Sound(shapes, InspectionEnded(w))
  {
    hide Exclusive, WithinCapacity, Threads, Tracked, Claimed, Draining, Owing, Replicating, Inspects, Taken, Logged;
  }

  /** The update that a restarted daemon finds in its journal. */
  predicate Restores(journal: Journal, update: Option<Id>) {
    if update.Some? then update.value in journal && OpenUpdate(journal[update.value])
    else forall id | id in journal :: !OpenUpdate(journal[id])
  }

  function Restarted(w: World, update: Option<Id>): World {
    w.(memory := EMPTY.memory.(journal := w.disk.journal, update := update), past := w.past.(holders := map[], owed := w.past.savedOwed, verified := Then(w.past)))
  }

  /** A crash at any moment: memory and goroutines are gone, the disk and the helper are not. */
  lemma RestartSound(shapes: Shapes, w: World, update: Option<Id>)
    requires Sound(shapes, w) && Restores(w.disk.journal, update)
    ensures Sound(shapes, Restarted(w, update))
  {
    EmptySound(shapes);
    hide Exclusive, WithinCapacity, Tracked, Logged, Owing, Replicating, Inspects;
    Restart(w.disk.journal, w.past.savedOwed, Then(w.past), w.past.launched);
  }
}

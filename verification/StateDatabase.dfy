/**
 * agent/state_db.go: the durable command journal. Saving rewrites the buckets in one transaction;
 * loading reads each command back and scans its events by key prefix.
 */
module StateDatabases {
  import opened JournalEvents
  import opened KeyOrder
  import opened EventBuckets
  import opened Options
  import Reporters

  /** A journal entry without its events, as the `runs` bucket keeps it. */
  datatype Run = Run(
    id: string, runId: string, runKind: string, maintenance: string, revision: nat, requiredRevision: nat,
    trigger: string, scheduledFor: string, jobId: string, other: string)

  datatype Command = Command(run: Run, events: seq<Event>)

  datatype Occurrence = Occurrence(jobId: string, runKind: string, scheduledFor: string)

  const ULID_ALPHABET := "0123456789abcdefghjkmnpqrstvwxyz"

  predicate IsUlid(s: string) {
    |s| == 26 && forall c | c in s :: c in ULID_ALPHABET
  }

  predicate Identified(id: string, command: Command) {
    id == command.run.id && IsUlid(id) && IsUlid(command.run.runId)
  }

  function Prefix(id: string): string {
    id + ['\0']
  }

  lemma Uint64Fits()
    ensures MAXIMUM_UINT64 < Pow10(20)
  {
    assert Pow10(5) == 100000;
    assert Pow10(10) == 100000 * Pow10(5);
    assert Pow10(15) == 100000 * Pow10(10);
    assert Pow10(20) == 100000 * Pow10(15);
  }

  function Key(id: string, e: Event): string
  {
    Uint64Fits();
    Prefix(id) + (Padded(e.sequence, 20) + (['\0'] + e.id))
  }

  /** A command's queue is in order: by sequence number, and by id where those are equal. */
  ghost predicate InOrder(events: seq<Event>) {
    forall i, j | 0 <= i < j < |events| ::
      events[i].sequence < events[j].sequence || (events[i].sequence == events[j].sequence && Below(events[i].id, events[j].id))
  }

  /** The keys of one command sort exactly as its (sequence, id) pairs do. */
  lemma KeysSortAsSequences(id: string, a: Event, b: Event)
    ensures Below(Key(id, a), Key(id, b)) <==>
            a.sequence < b.sequence || (a.sequence == b.sequence && Below(a.id, b.id))
  {
    Uint64Fits();
    var restA, restB := ['\0'] + a.id, ['\0'] + b.id;
    CommonPrefix(Prefix(id), Padded(a.sequence, 20) + restA, Padded(b.sequence, 20) + restB);
    if a.sequence < b.sequence {
      PaddedOrder(a.sequence, b.sequence, 20, restA, restB);
    } else if b.sequence < a.sequence {
      PaddedOrder(b.sequence, a.sequence, 20, restB, restA);
      NotBelowBoth(Padded(b.sequence, 20) + restB, Padded(a.sequence, 20) + restA);
    } else {
      CommonPrefix(Padded(a.sequence, 20), restA, restB);
      CommonPrefix(['\0'], a.id, b.id);
    }
  }

  /** A prefix scan for one id picks that id's keys: ids all have the same length. */
  lemma PrefixIdentifies(id: string, other: string, e: Event)
    requires |id| == |other|
    ensures Prefix(id) <= Key(other, e) <==> id == other
  {
    var key := Key(other, e);
    assert key[..|other|] == other;
    if Prefix(id) <= key {
      assert key[..|id|] == Prefix(id)[..|id|] == id;
    }
  }

  function Keyed(id: string, events: seq<Event>): (entries: seq<Entry>)
    ensures |entries| == |events|
    ensures forall i | 0 <= i < |events| :: entries[i] == Entry(Key(id, events[i]), events[i])
  {
    seq(|events|, i requires 0 <= i < |events| => Entry(Key(id, events[i]), events[i]))
  }

  function Values(entries: seq<Entry>): (events: seq<Event>)
    ensures |events| == |entries|
    ensures forall i | 0 <= i < |events| :: events[i] == entries[i].value
  {
    seq(|entries|, i requires 0 <= i < |entries| => entries[i].value)
  }

  /** The bucket after one `Put` per event of a command, in queue order. */
  function PutEvents(entries: seq<Entry>, id: string, events: seq<Event>): seq<Entry>
  {
    if events == [] then entries
    else
      var last := events[|events| - 1];
      Insert(PutEvents(entries, id, events[..|events| - 1]), Key(id, last), last)
  }

  lemma {:induction false} PutEventsAscending(entries: seq<Entry>, id: string, events: seq<Event>)
    requires Ascending(entries)
    ensures Ascending(PutEvents(entries, id, events))
  {
    if events != [] {
      var init, last := events[..|events| - 1], events[|events| - 1];
      PutEventsAscending(entries, id, init);
      InsertAscending(PutEvents(entries, id, init), Key(id, last), last);
    }
  }

  /** Storing one command's events is invisible to a scan for another id, and isolated for its own. */
  lemma {:induction false} PutEventsScan(entries: seq<Entry>, id: string, events: seq<Event>, other: string)
    requires Ascending(entries) && |id| == |other|
    ensures WithPrefix(PutEvents(entries, id, events), Prefix(other)) ==
            if id == other then PutEvents(WithPrefix(entries, Prefix(other)), id, events)
            else WithPrefix(entries, Prefix(other))
  {
    if events != [] {
      var init, last := events[..|events| - 1], events[|events| - 1];
      PutEventsScan(entries, id, init, other);
      PutEventsAscending(entries, id, init);
      InsertScan(PutEvents(entries, id, init), Key(id, last), last, Prefix(other));
      PrefixIdentifies(other, id, last);
    }
  }

  /** Every stored entry sits under its own event's key. */
  lemma {:induction false} PutEventsKeyed(id: string, events: seq<Event>)
    ensures forall entry | entry in PutEvents([], id, events) ::
              entry.key == Key(id, entry.value)
  {
    if events != [] {
      var init, last := events[..|events| - 1], events[|events| - 1];
      PutEventsKeyed(id, init);
      PutEventsAscending([], id, init);
      InsertMembers(PutEvents([], id, init), Key(id, last), last);
    }
  }

  lemma {:induction false} PutEventsInOrder(id: string, events: seq<Event>)
    requires InOrder(events)
    ensures PutEvents([], id, events) == Keyed(id, events)
  {
    hide Key, Below, Insert;
    if events != [] {
      var init, last := events[..|events| - 1], events[|events| - 1];
      PutEventsInOrder(id, init);
      var before := Keyed(id, init);
      forall entry | entry in before ensures Below(entry.key, Key(id, last)) {
        var k :| 0 <= k < |before| && before[k] == entry;
        assert entry == Entry(Key(id, events[k]), events[k]);
        KeysSortAsSequences(id, events[k], last);
      }
      InsertLast(before, Key(id, last), last);
      assert Keyed(id, events) == before + [Entry(Key(id, last), last)];
    }
  }

  /** Reloading a saved queue gives the same events in the same order exactly when the queue was in order. */
  lemma ReloadEqualsSaveExactlyWhen(id: string, events: seq<Event>)
    ensures Values(PutEvents([], id, events)) == events <==> InOrder(events)
  {
    var entries := PutEvents([], id, events);
    if InOrder(events) {
      PutEventsInOrder(id, events);
      assert Values(entries) == events;
    }
    if Values(entries) == events {
      PutEventsKeyed(id, events);
      PutEventsAscending([], id, events);
      forall i, j | 0 <= i < j < |events|
        ensures events[i].sequence < events[j].sequence || (events[i].sequence == events[j].sequence && Below(events[i].id, events[j].id))
      {
        assert entries[i] in entries && entries[j] in entries;
        assert Below(entries[i].key, entries[j].key);
        KeysSortAsSequences(id, events[i], events[j]);
      }
    }
  }

  /** Whatever queue was saved, it comes back in order. */
  lemma ReloadIsInOrder(id: string, events: seq<Event>)
    ensures InOrder(Values(PutEvents([], id, events)))
  {
    var entries := PutEvents([], id, events);
    PutEventsKeyed(id, events);
    PutEventsAscending([], id, events);
    forall i, j | 0 <= i < j < |entries|
      ensures entries[i].value.sequence < entries[j].value.sequence ||
              (entries[i].value.sequence == entries[j].value.sequence && Below(entries[i].value.id, entries[j].value.id))
    {
      assert entries[i] in entries && entries[j] in entries;
      assert Below(entries[i].key, entries[j].key);
      KeysSortAsSequences(id, entries[i].value, entries[j].value);
    }
  }

  /** agent/journal.go `normalizeJournalCommand`: fills in what older journals left empty. */
  function NormalizeRun(run: Run): Run {
    run.(
      trigger := if run.trigger == "" then "manual" else run.trigger,
      revision := if run.revision == 0 then run.requiredRevision else run.revision,
      runKind := if run.runKind != "" then run.runKind else if run.maintenance != "" then run.maintenance else "backup")
  }

  function NormalizeEvent(run: Run, e: Event): Event {
    e.(
      runKind := if e.runKind == "" then run.runKind else e.runKind,
      revision := if e.revision == 0 then run.revision else e.revision,
      trigger := if e.trigger == "" then run.trigger else e.trigger,
      scheduledFor := if e.scheduledFor == "" then run.scheduledFor else e.scheduledFor)
  }

  function Normalize(command: Command): Command {
    var run := NormalizeRun(command.run);
    Command(run, seq(|command.events|, i requires 0 <= i < |command.events| => NormalizeEvent(run, command.events[i])))
  }

  /** Every field that loading may fill in is set, or what it would be filled from is empty as well; a run kind is never left empty. */
  ghost predicate Enveloped(command: Command) {
    && command.run.trigger != "" && command.run.runKind != ""
    && (command.run.revision != 0 || command.run.requiredRevision == 0)
    && forall i | 0 <= i < |command.events| :: EnvelopedEvent(command.run, command.events[i])
  }

  predicate EnvelopedEvent(run: Run, e: Event) {
    && (e.runKind != "" || run.runKind == "") && (e.trigger != "" || run.trigger == "")
    && (e.revision != 0 || run.revision == 0) && (e.scheduledFor != "" || run.scheduledFor == "")
  }

  /** Loading leaves a command alone exactly when it is enveloped, and has nothing left to do the second time. */
  lemma NormalizeKeepsExactlyWhen(command: Command)
    ensures Normalize(command) == command <==> Enveloped(command)
    ensures Enveloped(Normalize(command))
  {
    var after := Normalize(command);
    if Normalize(command) == command {
      forall i | 0 <= i < |command.events| ensures EnvelopedEvent(command.run, command.events[i]) {
        assert command.events[i] == NormalizeEvent(after.run, command.events[i]);
      }
    }
  }

  /** What a command that older agents left incomplete is loaded as. */
  lemma LoadingFillsIn(command: Command, i: nat)
    ensures var run := Normalize(command).run;
            && (command.run.trigger == "" ==> run.trigger == "manual")
            && (command.run.revision == 0 ==> run.revision == command.run.requiredRevision)
            && (command.run.runKind == "" && command.run.maintenance != "" ==> run.runKind == command.run.maintenance)
            && (command.run.runKind == "" && command.run.maintenance == "" ==> run.runKind == "backup")
            && run.id == command.run.id && run.runId == command.run.runId && run.jobId == command.run.jobId && run.scheduledFor == command.run.scheduledFor
    ensures |Normalize(command).events| == |command.events|
    ensures i < |command.events| ==>
              var run, before, e := Normalize(command).run, command.events[i], Normalize(command).events[i];
              && e.id == before.id && e.sequence == before.sequence && e.kind == before.kind
              && e.runKind == (if before.runKind == "" then run.runKind else before.runKind)
              && e.trigger == (if before.trigger == "" then run.trigger else before.trigger)
              && e.revision == (if before.revision == 0 then run.revision else before.revision)
  {
  }

  lemma NormalizeKeepsOrder(command: Command)
    ensures InOrder(Normalize(command).events) <==> InOrder(command.events)
  {
    var after := Normalize(command).events;
    SameOrder(command.events, after);
    SameOrder(after, command.events);
  }

  lemma SameOrder(a: seq<Event>, b: seq<Event>)
    requires |a| == |b| && forall i | 0 <= i < |a| :: b[i].sequence == a[i].sequence && b[i].id == a[i].id
    ensures InOrder(a) ==> InOrder(b)
  {
    forall i, j | InOrder(a) && 0 <= i < j < |b|
      ensures b[i].sequence < b[j].sequence || (b[i].sequence == b[j].sequence && Below(b[i].id, b[j].id))
    {
      assert a[i].sequence < a[j].sequence || (a[i].sequence == a[j].sequence && Below(a[i].id, a[j].id));
    }
  }

  /** A received cancellation names no run kind, and comes back from the database as a backup. */
  lemma CancellationBecomesBackup(id: string, runId: string)
    ensures var cancellation := Command(Run(id, runId, "", "", 0, 0, "manual", "", "", ""), []);
            !Enveloped(cancellation) && Normalize(cancellation).run == cancellation.run.(runKind := "backup")
  {
  }

  /** The queues the reporter builds are in order. */
  lemma ReportedQueueIsInOrder(events: seq<Event>)
    requires Reporters.StrictlyIncreasing(events)
    ensures InOrder(events)
  {
  }

  predicate Scheduled(command: Command) {
    command.run.trigger == "scheduled" && command.run.scheduledFor != ""
  }

  function OccurrenceOf(command: Command): Occurrence {
    Occurrence(command.run.jobId, command.run.runKind, command.run.scheduledFor)
  }

  /** No command disagrees with a recorded claim or with another command about an occurrence. */
  ghost predicate ClaimsAgree(journal: map<string, Command>, occurrences: map<Occurrence, string>) {
    && (forall id | id in journal && Scheduled(journal[id]) && OccurrenceOf(journal[id]) in occurrences ::
          occurrences[OccurrenceOf(journal[id])] == journal[id].run.runId)
    && (forall id, other | id in journal && other in journal && Scheduled(journal[id]) && Scheduled(journal[other]) &&
          OccurrenceOf(journal[id]) == OccurrenceOf(journal[other]) :: journal[id].run.runId == journal[other].run.runId)
  }

  /** The commands and runs buckets once the commands in `done` were stored. */
  ghost predicate StoredRuns(done: set<string>, journal: map<string, Command>, runs: map<string, Run>)
    requires done <= journal.Keys
  {
    runs.Keys == done && forall id | id in done :: Identified(id, journal[id]) && runs[id] == journal[id].run
  }

  /** The events bucket once the commands in `done` were stored: one isolated scan per command. */
  ghost predicate StoredEvents(done: set<string>, journal: map<string, Command>, events: seq<Entry>)
    requires done <= journal.Keys
  {
    && Ascending(events)
    && (forall id | id in done :: IsUlid(id) && WithPrefix(events, Prefix(id)) == PutEvents([], id, journal[id].events))
    && (forall id | IsUlid(id) && id !in done :: WithPrefix(events, Prefix(id)) == [])
  }

  /** The occurrences bucket: claims are only added, each for a stored scheduled command. */
  ghost predicate StoredClaims(done: set<string>, journal: map<string, Command>, before: map<Occurrence, string>,
                               occurrences: map<Occurrence, string>)
    requires done <= journal.Keys
  {
    && (forall o | o in before :: o in occurrences && occurrences[o] == before[o])
    && (forall id | id in done && Scheduled(journal[id]) ::
          OccurrenceOf(journal[id]) in occurrences && occurrences[OccurrenceOf(journal[id])] == journal[id].run.runId)
    && (forall o | o in occurrences && o !in before ::
          exists id :: id in done && Scheduled(journal[id]) && OccurrenceOf(journal[id]) == o)
  }

  /** The buckets a save rewrites. */
  datatype Buckets = Buckets(commands: set<string>, runs: map<string, Run>, events: seq<Entry>, occurrences: map<Occurrence, string>)

  ghost predicate Stored(done: set<string>, journal: map<string, Command>, before: map<Occurrence, string>, buckets: Buckets)
    requires done <= journal.Keys
  {
    && buckets.commands == done
    && StoredRuns(done, journal, buckets.runs)
    && StoredEvents(done, journal, buckets.events)
    && StoredClaims(done, journal, before, buckets.occurrences)
  }

  /** Exactly what a save demands of the journal, apart from room on the disk. */
  ghost predicate Savable(journal: map<string, Command>, before: map<Occurrence, string>) {
    (forall id | id in journal :: Identified(id, journal[id])) && ClaimsAgree(journal, before)
  }

  /** The command under `id` as the buckets hold it. */
  ghost function Held(buckets: Buckets, id: string): Command
    requires id in buckets.runs
  {
    Command(buckets.runs[id], Values(WithPrefix(buckets.events, Prefix(id))))
  }

  ghost predicate Loadable(buckets: Buckets) {
    forall id | id in buckets.runs :: IsUlid(id) && IsUlid(buckets.runs[id].runId) && id in buckets.commands
  }

  class StateDatabase {
    var commands: set<string>
    var runs: map<string, Run>
    var events: seq<Entry>
    var occurrences: map<Occurrence, string>

    ghost predicate Valid()
      reads this
    {
      Ascending(events) && forall id | id in runs :: id == runs[id].id
    }

    ghost function Contents(): Buckets
      reads this
    {
      Buckets(commands, runs, events, occurrences)
    }

    constructor ()
      ensures Valid() && runs == map[] && occurrences == map[]
    {
      commands, runs, events, occurrences := {}, map[], [], map[];
    }

    /** One transaction: every bucket is rewritten, or nothing changes. */
    method SaveCommandJournal(journal: map<string, Command>, diskFull: bool) returns (ok: bool)
      requires Valid()
      modifies this
      ensures Valid()
      ensures ok <==> !diskFull && Savable(journal, old(occurrences))
      ensures ok ==> Stored(journal.Keys, journal, old(occurrences), Contents())
      ensures !ok ==> Contents() == old(Contents())
    {
      hide StoredEvents, StoredClaims, Savable;
      var written := WriteJournal(journal, occurrences);
      if written.None? || diskFull {
        return false;
      }
      var buckets := written.value;
      EventsAscend(journal, buckets.events);
      commands, runs, events, occurrences := buckets.commands, buckets.runs, buckets.events, buckets.occurrences;
      ok := true;
    }

    /** Reads every run back with the events under its id, or fails on a damaged reference. */
    method LoadCommandJournal() returns (loaded: Option<map<string, Command>>)
      requires Valid()
      ensures loaded.Some? <==> Loadable(Contents())
      ensures loaded.Some? ==> loaded.value.Keys == runs.Keys
      ensures loaded.Some? ==> forall id | id in runs :: loaded.value[id] == Normalize(Held(Contents(), id))
    {
      var journal: map<string, Command> := map[];
      var ids := runs.Keys;
      while ids != {}
        invariant ids <= runs.Keys && journal.Keys == runs.Keys - ids
        invariant forall id | id in journal :: journal[id] == Normalize(Held(Contents(), id))
        invariant forall id | id in journal :: IsUlid(id) && IsUlid(runs[id].runId) && id in commands
        decreases |ids|
      {
        var id :| id in ids;
        var run := runs[id];
        if !IsUlid(run.id) || !IsUlid(run.runId) || run.id !in commands {
          return None;
        }
        var found := Scan(events, Prefix(run.id));
        journal := journal[run.id := Normalize(Command(run, Values(found)))];
        ids := ids - {id};
      }
      loaded := Some(journal);
    }
  }

  /** The body of the save transaction. */
  method WriteJournal(journal: map<string, Command>, before: map<Occurrence, string>) returns (written: Option<Buckets>)
    ensures written.Some? <==> Savable(journal, before)
    ensures written.Some? ==> Stored(journal.Keys, journal, before, written.value)
  {
    hide Stored, Savable;
    var buckets := Buckets({}, map[], [], before);
    var ids := journal.Keys;
    NothingStored(journal, before);
    while ids != {}
      invariant ids <= journal.Keys && buckets.commands == journal.Keys - ids
      invariant Stored(buckets.commands, journal, before, buckets)
      decreases |ids|
    {
      var id :| id in ids;
      var command := journal[id];
      StoreOne(journal, before, buckets, id);
      if !Identified(id, command) {
        return None;
      }
      var occurrences := buckets.occurrences;
      var events := Store(buckets.events, id, command.events);
      if command.run.trigger == "scheduled" && command.run.scheduledFor != "" {
        var key := OccurrenceOf(command);
        if key in occurrences && occurrences[key] != command.run.runId {
          return None;
        }
        occurrences := occurrences[key := command.run.runId];
      }
      buckets := Buckets(buckets.commands + {id}, buckets.runs[id := command.run], events, occurrences);
      ids := ids - {id};
    }
    assert buckets.commands == journal.Keys;
    JournalSavable(journal, before, buckets);
    written := Some(buckets);
  }

  method Store(entries: seq<Entry>, id: string, events: seq<Event>) returns (r: seq<Entry>)
    ensures r == PutEvents(entries, id, events)
  {
    r := entries;
    for i := 0 to |events|
      invariant r == PutEvents(entries, id, events[..i])
    {
      r := Insert(r, Key(id, events[i]), events[i]);
      assert events[..i + 1][..i] == events[..i];
    }
    assert events[..|events|] == events;
  }

  lemma NothingStored(journal: map<string, Command>, before: map<Occurrence, string>)
    ensures Stored({}, journal, before, Buckets({}, map[], [], before))
  {
  }

  lemma EventsAscend(journal: map<string, Command>, events: seq<Entry>)
    requires StoredEvents(journal.Keys, journal, events)
    ensures Ascending(events)
  {
  }

  lemma StoreEvents(done: set<string>, journal: map<string, Command>, before: seq<Entry>, id: string)
    requires id in journal && IsUlid(id) && id !in done && done <= journal.Keys
    requires StoredEvents(done, journal, before)
    ensures StoredEvents(done + {id}, journal, PutEvents(before, id, journal[id].events))
  {
    var after := PutEvents(before, id, journal[id].events);
    PutEventsAscending(before, id, journal[id].events);
    forall i | IsUlid(i)
      ensures WithPrefix(after, Prefix(i)) ==
              if i == id then PutEvents([], id, journal[id].events) else WithPrefix(before, Prefix(i))
    {
      PutEventsScan(before, id, journal[id].events, i);
    }
  }

  /** Adding one claim keeps the bucket right; a conflicting one means the journal cannot be saved. */
  lemma StoreClaim(done: set<string>, journal: map<string, Command>, before: map<Occurrence, string>,
                   occurrences: map<Occurrence, string>, id: string)
    requires id in journal && done <= journal.Keys
    requires StoredClaims(done, journal, before, occurrences)
    ensures var key, runId := OccurrenceOf(journal[id]), journal[id].run.runId;
            if !Scheduled(journal[id]) then StoredClaims(done + {id}, journal, before, occurrences)
            else if key in occurrences && occurrences[key] != runId then !ClaimsAgree(journal, before)
            else StoredClaims(done + {id}, journal, before, occurrences[key := runId])
  {
    var key, runId := OccurrenceOf(journal[id]), journal[id].run.runId;
    if Scheduled(journal[id]) && key in occurrences && occurrences[key] != runId {
      if key !in before {
        var other :| other in done && Scheduled(journal[other]) && OccurrenceOf(journal[other]) == key;
        assert journal[other].run.runId != runId;
      }
    }
  }

  /** One round of the transaction either keeps the buckets right or proves the journal unsavable. */
  lemma StoreOne(journal: map<string, Command>, before: map<Occurrence, string>, buckets: Buckets, id: string)
    requires buckets.commands <= journal.Keys && id in journal && id !in buckets.commands
    requires Stored(buckets.commands, journal, before, buckets)
    ensures var key, command := OccurrenceOf(journal[id]), journal[id];
            var next := Buckets(buckets.commands + {id}, buckets.runs[id := command.run],
                                PutEvents(buckets.events, id, command.events), buckets.occurrences);
            if !Identified(id, command) then !Savable(journal, before)
            else if !Scheduled(command) then Stored(next.commands, journal, before, next)
            else if key in buckets.occurrences && buckets.occurrences[key] != command.run.runId then !Savable(journal, before)
            else Stored(next.commands, journal, before, next.(occurrences := buckets.occurrences[key := command.run.runId]))
  {
    hide StoredEvents, StoredClaims, ClaimsAgree;
    if Identified(id, journal[id]) {
      StoreEvents(buckets.commands, journal, buckets.events, id);
      StoreClaim(buckets.commands, journal, before, buckets.occurrences, id);
    }
  }

  /**
   * After a successful save every command is held with its own queue, unchanged exactly when the
   * queue was in order.
   */
  lemma SavedCommandIsHeld(journal: map<string, Command>, before: map<Occurrence, string>, buckets: Buckets, id: string)
    requires Stored(journal.Keys, journal, before, buckets) && id in journal
    ensures Loadable(buckets)
    ensures buckets.runs.Keys == journal.Keys
    ensures Held(buckets, id) == journal[id] <==> InOrder(journal[id].events)
    ensures InOrder(Held(buckets, id).events)
  {
    hide PutEvents, InOrder;
    ReloadEqualsSaveExactlyWhen(id, journal[id].events);
    ReloadIsInOrder(id, journal[id].events);
  }

  /** Save, crash, start again: all commands are back, each as it was exactly when its queue was in order and it was enveloped. */
  method SaveAndReload(database: StateDatabase, journal: map<string, Command>) returns (ok: bool, loaded: Option<map<string, Command>>)
    requires database.Valid()
    modifies database
    ensures ok ==> loaded.Some? && loaded.value.Keys == journal.Keys
    ensures ok ==> forall id | id in journal :: loaded.value[id] == journal[id] <==> InOrder(journal[id].events) && Enveloped(journal[id])
    ensures ok ==> forall id | id in journal && InOrder(journal[id].events) :: loaded.value[id] == Normalize(journal[id])
  {
    hide Stored, Savable, InOrder, Enveloped, Normalize, Held, Loadable;
    ok := database.SaveCommandJournal(journal, false);
    ghost var held := database.Contents();
    if ok {
      StoredRunIds(journal, old(database.occurrences), held);
      forall id | id in journal
        ensures Normalize(Held(held, id)) == journal[id] <==> InOrder(journal[id].events) && Enveloped(journal[id])
        ensures InOrder(journal[id].events) ==> Held(held, id) == journal[id]
      {
        SavedCommandIsHeld(journal, old(database.occurrences), held, id);
        NormalizeKeepsExactlyWhen(journal[id]);
        NormalizeKeepsExactlyWhen(Held(held, id));
        NormalizeKeepsOrder(Held(held, id));
      }
    }
    loaded := database.LoadCommandJournal();
  }

  lemma StoredRunIds(journal: map<string, Command>, before: map<Occurrence, string>, buckets: Buckets)
    requires Stored(journal.Keys, journal, before, buckets)
    ensures buckets.runs.Keys == journal.Keys && Loadable(buckets)
  {
  }

  lemma JournalSavable(journal: map<string, Command>, before: map<Occurrence, string>, buckets: Buckets)
    requires Stored(journal.Keys, journal, before, buckets)
    ensures Savable(journal, before)
  {
  }
}

/**
 * agent/commands.go `flushCommand`: the event queue of one command of the current generation and
 * its log, reported to a control plane that may fail, reject, or answer after the fact.
 */
module Reporters {
  import opened Bytes
  import opened JournalEvents
  import opened Options

  const MAXIMUM_EVENT_BATCH: nat := 30
  const MAXIMUM_LOG_CHUNK: nat := 262144

  datatype Status = Accepted | Duplicate | Rejected

  /** Events whose loss would change an outcome: they stay queued when rejected. */
  predicate KeptWhenRejected(kind: EventKind) {
    kind == RunFinished || kind == SnapshotInventoryChunk || kind == ReplicationFinished
  }

  ghost predicate StrictlyIncreasing(events: seq<Event>) {
    forall i, j | 0 <= i < j < |events| :: events[i].sequence < events[j].sequence
  }

  /** The rejected events of a batch that stay queued, in order. */
  function Retained(batch: seq<Event>, statuses: seq<Status>): seq<Event>
    requires |batch| == |statuses|
  {
    if batch == [] then []
    else
      var n := |batch| - 1;
      Retained(batch[..n], statuses[..n]) +
      if statuses[n] == Rejected && KeptWhenRejected(batch[n].kind) then [batch[n]] else []
  }

  /** The rejected events of a batch that are given up. */
  function Discarded(batch: seq<Event>, statuses: seq<Status>): set<Event>
    requires |batch| == |statuses|
  {
    if batch == [] then {}
    else
      var n := |batch| - 1;
      Discarded(batch[..n], statuses[..n]) +
      if statuses[n] == Rejected && !KeptWhenRejected(batch[n].kind) then {batch[n]} else {}
  }

  lemma {:induction false} DiscardedMembers(batch: seq<Event>, statuses: seq<Status>)
    requires |batch| == |statuses|
    ensures forall e | e in Discarded(batch, statuses) ::
              exists i :: 0 <= i < |batch| && batch[i] == e && statuses[i] == Rejected && !KeptWhenRejected(e.kind)
    ensures forall i | 0 <= i < |batch| && statuses[i] == Rejected && !KeptWhenRejected(batch[i].kind) ::
              batch[i] in Discarded(batch, statuses)
  {
    if batch != [] {
      var n := |batch| - 1;
      DiscardedMembers(batch[..n], statuses[..n]);
      forall e | e in Discarded(batch, statuses)
        ensures exists i :: 0 <= i < |batch| && batch[i] == e && statuses[i] == Rejected && !KeptWhenRejected(e.kind)
      {
        if e in Discarded(batch[..n], statuses[..n]) {
          var i :| 0 <= i < n && batch[..n][i] == e && statuses[..n][i] == Rejected && !KeptWhenRejected(e.kind);
          assert batch[i] == e;
        } else {
          assert batch[n] == e;
        }
      }
      forall i | 0 <= i < |batch| && statuses[i] == Rejected && !KeptWhenRejected(batch[i].kind)
        ensures batch[i] in Discarded(batch, statuses)
      {
        if i < n {
          assert batch[..n][i] == batch[i] && statuses[..n][i] == statuses[i];
        }
      }
    }
  }

  /** The events of a batch that are given up when these are rejected. */
  function GivenUp(batch: seq<Event>, rejects: Event -> bool): set<Event> {
    set e | e in batch && rejects(e) && !KeptWhenRejected(e.kind)
  }

  lemma DiscardedAreGivenUp(batch: seq<Event>, statuses: seq<Status>, rejects: Event -> bool)
    requires |batch| == |statuses| && forall i | 0 <= i < |batch| :: statuses[i] == Rejected <==> rejects(batch[i])
    ensures Discarded(batch, statuses) == GivenUp(batch, rejects)
  {
    DiscardedMembers(batch, statuses);
    forall e | e in GivenUp(batch, rejects) ensures e in Discarded(batch, statuses) {
      var i :| 0 <= i < |batch| && batch[i] == e;
      assert statuses[i] == Rejected;
    }
  }

  /** The queue after a batch was answered, `current` being the queue at that moment. */
  function Merged(current: seq<Event>, batch: seq<Event>, statuses: seq<Status>): seq<Event>
    requires |batch| == |statuses| && batch <= current
  {
    Retained(batch, statuses) + current[|batch|..]
  }

  lemma {:induction false} RetainedMembers(batch: seq<Event>, statuses: seq<Status>)
    requires |batch| == |statuses|
    ensures forall e | e in Retained(batch, statuses) ::
              exists i :: 0 <= i < |batch| && batch[i] == e && statuses[i] == Rejected && KeptWhenRejected(e.kind)
    ensures forall i | 0 <= i < |batch| && statuses[i] == Rejected && KeptWhenRejected(batch[i].kind) ::
              batch[i] in Retained(batch, statuses)
  {
    if batch != [] {
      var n := |batch| - 1;
      RetainedMembers(batch[..n], statuses[..n]);
      forall e | e in Retained(batch, statuses)
        ensures exists i :: 0 <= i < |batch| && batch[i] == e && statuses[i] == Rejected && KeptWhenRejected(e.kind)
      {
        if e in Retained(batch[..n], statuses[..n]) {
          var i :| 0 <= i < n && batch[..n][i] == e && statuses[..n][i] == Rejected && KeptWhenRejected(e.kind);
          assert batch[i] == e;
        } else {
          assert batch[n] == e;
        }
      }
      forall i | 0 <= i < |batch| && statuses[i] == Rejected && KeptWhenRejected(batch[i].kind)
        ensures batch[i] in Retained(batch, statuses)
      {
        if i < n {
          assert batch[..n][i] == batch[i] && statuses[..n][i] == statuses[i];
        }
      }
    }
  }

  /** No event disappears in a merge except those accepted, known, or given up. */
  lemma MergeConserves(current: seq<Event>, batch: seq<Event>, statuses: seq<Status>, e: Event)
    requires |batch| == |statuses| && batch <= current && e in current
    ensures || e in Merged(current, batch, statuses)
            || (exists i :: 0 <= i < |batch| && batch[i] == e && statuses[i] != Rejected)
            || (e in Discarded(batch, statuses) && !KeptWhenRejected(e.kind))
  {
    hide Retained, Discarded;
    RetainedMembers(batch, statuses);
    DiscardedMembers(batch, statuses);
    var i :| 0 <= i < |current| && current[i] == e;
    if i < |batch| {
      assert batch[i] == e;
      if statuses[i] == Rejected {
        if KeptWhenRejected(e.kind) {
          assert e in Retained(batch, statuses);
        }
      }
    } else {
      assert current[|batch|..][i - |batch|] == e;
    }
  }

  /** What is merged was queued, and the order by sequence number is kept. */
  lemma MergeKeepsOrder(current: seq<Event>, batch: seq<Event>, statuses: seq<Status>)
    requires |batch| == |statuses| && batch <= current && StrictlyIncreasing(current)
    ensures StrictlyIncreasing(Merged(current, batch, statuses))
    ensures forall e | e in Merged(current, batch, statuses) :: e in current
  {
    RetainedMembers(batch, statuses);
    RetainedKeepsOrder(batch, statuses);
    var kept, rest := Retained(batch, statuses), current[|batch|..];
    forall e | e in kept ensures e in current {
      var i :| 0 <= i < |batch| && batch[i] == e;
      assert current[i] == e;
    }
    forall i, j | 0 <= i < |kept| && 0 <= j < |rest| ensures kept[i].sequence < rest[j].sequence {
      assert kept[i] in kept;
      var k :| 0 <= k < |batch| && batch[k] == kept[i];
      assert current[k] == batch[k] && rest[j] == current[|batch| + j];
    }
  }

  /** What is given up is not in the merged queue, neither among the retained events nor among the later ones. */
  lemma GivenUpIsGone(current: seq<Event>, batch: seq<Event>, statuses: seq<Status>)
    requires |batch| == |statuses| && batch <= current && StrictlyIncreasing(current)
    ensures forall e | e in Discarded(batch, statuses) :: e !in Merged(current, batch, statuses)
  {
    RetainedMembers(batch, statuses);
    DiscardedMembers(batch, statuses);
    var rest := current[|batch|..];
    forall e | e in Discarded(batch, statuses) ensures e !in rest {
      var i :| 0 <= i < |batch| && batch[i] == e;
      forall j | 0 <= j < |rest| ensures rest[j] != e {
        assert current[i] == e && current[|batch| + j] == rest[j];
      }
    }
  }

  /** A rejected event that is to be kept is in the merged queue. */
  lemma KeptIsQueued(current: seq<Event>, batch: seq<Event>, statuses: seq<Status>)
    requires |batch| == |statuses| && batch <= current
    ensures forall i | 0 <= i < |batch| && statuses[i] == Rejected && KeptWhenRejected(batch[i].kind) :: batch[i] in Merged(current, batch, statuses)
  {
    RetainedMembers(batch, statuses);
  }

  /** The rejected events of a batch whose loss would change an outcome are queued still; the others are given up. */
  ghost predicate Sorted(batch: seq<Event>, rejects: Event -> bool, queue: seq<Event>, givenUp: set<Event>) {
    forall e | e in batch && rejects(e) ::
      if e.kind in {RunFinished, SnapshotInventoryChunk, ReplicationFinished} then e in queue else e !in queue && e in givenUp
  }

  lemma AnswersSorted(current: seq<Event>, batch: seq<Event>, statuses: seq<Status>, rejects: Event -> bool, before: set<Event>)
    requires |batch| == |statuses| && batch <= current && StrictlyIncreasing(current)
    requires forall i | 0 <= i < |batch| :: statuses[i] == Rejected <==> rejects(batch[i])
    ensures Discarded(batch, statuses) == GivenUp(batch, rejects)
    ensures Sorted(batch, rejects, Merged(current, batch, statuses), before + Discarded(batch, statuses))
  {
    DiscardedAreGivenUp(batch, statuses, rejects);
    KeptIsQueued(current, batch, statuses);
    GivenUpIsGone(current, batch, statuses);
    hide Merged, Discarded;
    forall e | e in batch && rejects(e)
      ensures if KeptWhenRejected(e.kind) then e in Merged(current, batch, statuses)
              else e !in Merged(current, batch, statuses) && e in before + Discarded(batch, statuses)
    {
      var i :| 0 <= i < |batch| && batch[i] == e;
      assert statuses[i] == Rejected;
    }
  }

  lemma EmptyBatch(rejects: Event -> bool, queue: seq<Event>, givenUp: set<Event>)
    ensures GivenUp([], rejects) == {} && Sorted([], rejects, queue, givenUp)
  {
  }

  lemma AgreeableIsAnswered(events: seq<Event>, fate: Fate)
    ensures Agreeable(events, fate) ==> fate.answered && |events| <= MAXIMUM_EVENT_BATCH
  {
  }

  /** A batch that is everything and accepted entirely leaves nothing to complain about. */
  lemma NoneRejected(events: seq<Event>, batch: seq<Event>, statuses: seq<Status>, fate: Fate)
    requires |batch| == |statuses| && batch <= events
    requires forall i | 0 <= i < |batch| :: statuses[i] == Rejected <==> fate.rejects(batch[i])
    ensures Agreeable(events, fate) ==> Rejected !in statuses && Discarded(batch, statuses) == {}
  {
    DiscardedMembers(batch, statuses);
    forall i | 0 <= i < |batch| ensures batch[i] in events {
      assert events[i] == batch[i];
    }
  }

  lemma {:induction false} RetainedKeepsOrder(batch: seq<Event>, statuses: seq<Status>)
    requires |batch| == |statuses| && StrictlyIncreasing(batch)
    ensures StrictlyIncreasing(Retained(batch, statuses))
  {
    if batch != [] {
      var n := |batch| - 1;
      RetainedKeepsOrder(batch[..n], statuses[..n]);
      RetainedMembers(batch[..n], statuses[..n]);
      var kept := Retained(batch[..n], statuses[..n]);
      forall i | 0 <= i < |kept| ensures kept[i].sequence < batch[n].sequence {
        assert kept[i] in kept;
        var k :| 0 <= k < n && batch[..n][k] == kept[i];
        assert batch[k] == kept[i];
      }
    }
  }

  /**
   * What one pass meets: the verdict on each event, whether the answer arrives, which of the two saves after it
   * succeed, and whether all that follows goes well.
   */
  datatype Fate = Fate(rejects: Event -> bool, answered: bool, journalSaved: bool, stateSaved: bool, well: bool)

  /** Anything may fail, unless it goes well. */
  method Succeeds(well: bool) returns (ok: bool)
    ensures well ==> ok
  {
    ok := *;
    if well {
      ok := true;
    }
  }

  datatype Chunk = Chunk(offset: nat, body: seq<byte>)

  datatype Completion = Completion(totalBytes: nat, chunkCount: nat)

  function Ceiling(bytes: nat): nat {
    (bytes + MAXIMUM_LOG_CHUNK - 1) / MAXIMUM_LOG_CHUNK
  }

  /** Chunk `i` of a log as it must be uploaded. */
  function ChunkOf(log: seq<byte>, i: nat): Chunk
    requires i * MAXIMUM_LOG_CHUNK < |log|
  {
    var offset := i * MAXIMUM_LOG_CHUNK;
    Chunk(offset, log[offset..Min(offset + MAXIMUM_LOG_CHUNK, |log|)])
  }

  /** The control plane holds the first `n` chunks of the log. */
  ghost predicate Holds(chunks: map<nat, Chunk>, log: seq<byte>, n: nat) {
    n <= Ceiling(|log|) && forall i | 0 <= i < n :: i in chunks && i * MAXIMUM_LOG_CHUNK < |log| && chunks[i] == ChunkOf(log, i)
  }

  /** What the control plane assembles from chunks 0 to n-1. */
  ghost function Assembled(chunks: map<nat, Chunk>, n: nat): seq<byte>
    requires forall i | 0 <= i < n :: i in chunks
  {
    if n == 0 then [] else Assembled(chunks, n - 1) + chunks[n - 1].body
  }

  lemma {:induction false} AssembledPrefix(chunks: map<nat, Chunk>, log: seq<byte>, n: nat)
    requires Holds(chunks, log, n)
    ensures Assembled(chunks, n) == log[..Min(n * MAXIMUM_LOG_CHUNK, |log|)]
  {
    if n > 0 {
      AssembledPrefix(chunks, log, n - 1);
      var offset := (n - 1) * MAXIMUM_LOG_CHUNK;
      assert chunks[n - 1] == ChunkOf(log, n - 1);
      var end := Min(offset + MAXIMUM_LOG_CHUNK, |log|);
      assert log[..offset] + log[offset..end] == log[..end];
    }
  }

  /** Holding ceil(len / 256 KiB) chunks is holding the whole log. */
  lemma AllChunksAreTheLog(chunks: map<nat, Chunk>, log: seq<byte>)
    requires Holds(chunks, log, Ceiling(|log|))
    ensures Assembled(chunks, Ceiling(|log|)) == log
  {
    AssembledPrefix(chunks, log, Ceiling(|log|));
    assert log[..|log|] == log;
  }

  /** The control plane, as far as one command's report goes. An unanswered request may have been served. */
  class ControlPlane {
    var received: set<string>
    var chunks: map<nat, Chunk>
    var completion: Option<Completion>
    var result: Option<nat>

    constructor ()
      ensures received == {} && chunks == map[] && completion == None && result == None
    {
      received, chunks, completion, result := {}, map[], None, None;
    }

    /** One status per event: every event that is not rejected is stored. */
    method SubmitEvents(batch: seq<Event>, fate: Fate) returns (answer: Option<seq<Status>>)
      modifies this`received
      ensures received == old(received) + set e | e in batch && !fate.rejects(e) :: e.id
      ensures answer.Some? <==> fate.answered
      ensures answer.Some? ==> |answer.value| == |batch|
      ensures answer.Some? ==> forall i | 0 <= i < |batch| :: answer.value[i] == Rejected <==> fate.rejects(batch[i])
    {
      var statuses: seq<Status> := [];
      for i := 0 to |batch|
        invariant |statuses| == i
        invariant received == old(received) + set e | e in batch[..i] && !fate.rejects(e) :: e.id
        invariant forall j | 0 <= j < i :: statuses[j] == Rejected <==> fate.rejects(batch[j])
      {
        assert batch[..i + 1] == batch[..i] + [batch[i]];
        if fate.rejects(batch[i]) {
          statuses := statuses + [Rejected];
        } else if batch[i].id in received {
          statuses := statuses + [Duplicate];
        } else {
          received := received + {batch[i].id};
          statuses := statuses + [Accepted];
        }
      }
      assert batch[..|batch|] == batch;
      answer := if fate.answered then Some(statuses) else None;
    }

    method UploadLogChunk(index: nat, chunk: Chunk, well: bool) returns (ok: bool)
      modifies this`chunks
      ensures chunks == old(chunks) || chunks == old(chunks)[index := chunk]
      ensures ok ==> chunks == old(chunks)[index := chunk]
      ensures well ==> ok
    {
      var stored := Succeeds(well);
      var answered := Succeeds(well);
      if stored {
        chunks := chunks[index := chunk];
      }
      ok := stored && answered;
    }

    method CompleteLog(c: Completion, well: bool) returns (ok: bool)
      modifies this`completion
      ensures completion == old(completion) || completion == Some(c)
      ensures ok ==> completion == Some(c)
      ensures well ==> ok
    {
      var stored := Succeeds(well);
      var answered := Succeeds(well);
      if stored {
        completion := Some(c);
      }
      ok := stored && answered;
    }

    method SubmitResult(r: nat, well: bool) returns (ok: bool)
      modifies this`result
      ensures result == old(result) || result == Some(r)
      ensures ok ==> result == Some(r)
      ensures well ==> ok
    {
      var stored := Succeeds(well);
      var answered := Succeeds(well);
      if stored {
        result := Some(r);
      }
      ok := stored && answered;
    }
  }

  /** The given-up events with what covers them; those given up just now are covered by `version`. */
  ghost function Raised(covers: map<Event, nat>, more: set<Event>, version: nat): (raised: map<Event, nat>)
    ensures raised.Keys == covers.Keys + more
    ensures forall e | e in raised :: raised[e] == if e in covers then covers[e] else version
  {
    (map e | e in more :: version) + covers
  }

  /** The events that this gap version still covers. */
  ghost function Covering(covers: map<Event, nat>, version: nat): map<Event, nat> {
    map e | e in covers && covers[e] <= version :: covers[e]
  }

  /** What a crash leaves without a trace. */
  ghost function Lost(events: seq<Event>, received: set<string>, covers: map<Event, nat>, version: nat, durable: set<Event>): set<Event> {
    set e | e in durable && e !in events && e.id !in received && !(e in covers && covers[e] <= version)
  }

  lemma CrashAccounts(events: seq<Event>, received: set<string>, covers: map<Event, nat>, version: nat, forgotten: set<Event>, durable: set<Event>)
    requires Accounts(events, received, covers.Keys + forgotten, durable)
    ensures Accounts(events, received, Covering(covers, version).Keys + (forgotten + Lost(events, received, covers, version, durable)), durable)
    ensures forall e | e in durable && e !in forgotten ::
              e in Lost(events, received, covers, version, durable) <==>
              e !in events && e.id !in received && e in covers && version < covers[e]
  {
  }

  datatype Flush = Failed | Continue | MorePending

  /** The reporting part of a journal entry: the daemon holds one, the state database another. */
  datatype Report = Report(
    present: bool, events: seq<Event>, sequence: nat, nextLogChunk: nat, logCompleted: bool,
    result: Option<nat>, resultReported: bool, replicationPending: bool)

  ghost predicate InSequence(events: seq<Event>, sequence: nat) {
    StrictlyIncreasing(events) && forall e | e in events :: e.sequence <= sequence
  }

  /** What flushCommand demands before it deletes the entry. */
  predicate Removable(r: Report, log: Option<seq<byte>>) {
    r.resultReported && r.events == [] && (log.None? || r.logCompleted) && !r.replicationPending
  }

  /** Everything the queue holds fits one batch and is accepted, and that can be saved. */
  predicate Agreeable(events: seq<Event>, fate: Fate) {
    fate.answered && fate.journalSaved && fate.stateSaved && |events| <= MAXIMUM_EVENT_BATCH && forall e | e in events :: !fate.rejects(e)
  }

  /** Every event of `all` is still queued, known to the control plane, or given up. */
  ghost predicate Accounts(events: seq<Event>, received: set<string>, discarded: set<Event>, all: set<Event>) {
    forall e | e in all :: e in events || e.id in received || e in discarded
  }

  /** What is marked reported was reported, unless a schedule asked for the command: then nobody waits for its result. */
  predicate ResultValid(result: Option<nat>, reported: bool, known: Option<nat>, scheduled: bool, results: set<nat>) {
    && (reported ==> result.Some? && (scheduled || known.Some?))
    && (known.Some? ==> known.value in results)
    && (result.Some? ==> result.value in results)
  }

  /** What others may change about an entry while the lock is free. */
  predicate OthersMay(before: Report, after: Report) {
    && after == before.(sequence := after.sequence, events := after.events, result := after.result,
                        resultReported := after.resultReported, replicationPending := after.replicationPending)
    && (before.result.Some? ==> after.result.Some?)
    && (!after.present ==> after == before)
  }

  /** The upload position never runs ahead of what the control plane holds. */
  ghost predicate LogValid(log: Option<seq<byte>>, nextLogChunk: nat, logCompleted: bool,
                           chunks: map<nat, Chunk>, completion: Option<Completion>)
  {
    match log
    case None => nextLogChunk == 0 && completion == None
    case Some(bytes) =>
      && Holds(chunks, bytes, nextLogChunk)
      && (logCompleted ==> completion.Some?)
      && (completion.Some? ==>
            completion.value == Completion(|bytes|, Ceiling(|bytes|)) && Holds(chunks, bytes, Ceiling(|bytes|)))
  }

  /** One journaled command as the reporter sees it, with its copy in the state database. */
  class CommandReport {
    const log: Option<seq<byte>>
    const scheduled: bool
    var current: Report
    var saved: Report
    var gapVersion: nat
    var savedGapVersion: nat

    ghost var results: set<nat> // every result the command ever had
    ghost var appended: set<Event> // every event appended by this process or found in the database
    ghost var durable: set<Event> // every event that was ever saved
    ghost var covers: map<Event, nat> // rejected events that were given up, with the gap version raised for them
    ghost var forgotten: set<Event> // given-up events whose gap version a crash took away

    ghost predicate ReportValid(server: ControlPlane, r: Report, all: set<Event>)
      reads this, server
    {
      && InSequence(r.events, r.sequence)
      && Accounts(r.events, server.received, covers.Keys + forgotten, all)
      && (!r.present ==> Removable(r, log))
      && LogValid(log, r.nextLogChunk, r.logCompleted, server.chunks, server.completion)
      && ResultValid(r.result, r.resultReported, server.result, scheduled, results)
    }

    ghost predicate Valid(server: ControlPlane)
      reads this, server
    {
      && ReportValid(server, current, appended)
      && ReportValid(server, saved, durable)
      && durable <= appended
      && saved.nextLogChunk <= current.nextLogChunk
      && savedGapVersion <= gapVersion
      && (forall e | e in covers :: covers[e] <= gapVersion)
      && (forall e | e in covers.Keys + forgotten :: !KeptWhenRejected(e.kind))
    }

    /** Nobody can tell any more that there was such an event: not the queue, not the control plane, not the gap version. */
    ghost predicate Traceless(server: ControlPlane, e: Event)
      reads this, server
    {
      e !in current.events && e.id !in server.received && !(e in covers && covers[e] <= gapVersion)
    }

    constructor (log: Option<seq<byte>>, scheduled: bool, server: ControlPlane)
      requires server.received == {} && server.chunks == map[] && server.completion == None && server.result == None
      ensures Valid(server) && current.present && current.events == [] && current.sequence == 0 && this.log == log && this.scheduled == scheduled
      ensures appended == {} && forgotten == {} && covers == map[] && gapVersion == savedGapVersion == 0
    {
      this.log, this.scheduled := log, scheduled;
      current := Report(true, [], 0, 0, false, None, false, false);
      saved := Report(true, [], 0, 0, false, None, false, false);
      results := {};
      gapVersion, savedGapVersion := 0, 0;
      appended, durable, covers, forgotten := {}, {}, map[], {};
    }

    /** Another goroutine appends an event under the daemon's lock. */
    method AppendEvent(server: ControlPlane, e: Event)
      requires Valid(server) && current.present && e.sequence == current.sequence + 1
      modifies this`current, this`appended
      ensures Valid(server)
      ensures current == old(current).(sequence := old(current.sequence) + 1, events := old(current.events) + [e])
      ensures appended == old(appended) + {e}
    {
      current := current.(sequence := current.sequence + 1, events := current.events + [e]);
      appended := appended + {e};
    }

    /** The run of the command ends, or it is closed again: it has a result, which nobody has reported yet. */
    method Conclude(server: ControlPlane, result: nat, replicationPending: bool)
      requires Valid(server) && current.present
      modifies this`current, this`results
      ensures Valid(server) && results == old(results) + {result}
      ensures current == old(current).(result := Some(result), resultReported := scheduled, replicationPending := replicationPending)
    {
      hide Accounts, InSequence, LogValid;
      results := results + {result};
      current := current.(result := Some(result), resultReported := scheduled, replicationPending := replicationPending);
    }

    /**
     * What may happen while the lock is released: others append, conclude the command, raise the gap version for
     * reasons of their own, and save.
     */
    method Others(server: ControlPlane)
      requires Valid(server)
      modifies this`current, this`appended, this`gapVersion, this`saved, this`durable, this`savedGapVersion, this`results
      ensures Valid(server)
      ensures old(current.events) <= current.events && old(appended) <= appended && old(gapVersion) <= gapVersion && old(results) <= results
      ensures OthersMay(old(current), current)
      ensures !current.present ==> appended == old(appended)
    {
      hide Accounts, InSequence, LogValid, Removable, ResultValid;
      var rounds: nat :| true;
      for i := 0 to rounds
        invariant Valid(server)
        invariant old(current.events) <= current.events && old(appended) <= appended && old(gapVersion) <= gapVersion && old(results) <= results
        invariant OthersMay(old(current), current)
        invariant !current.present ==> appended == old(appended)
      {
        var e: Event, result: nat, pending: bool, succeeds: bool := *, *, *, *;
        if
        case current.present && e.sequence == current.sequence + 1 => AppendEvent(server, e);
        case current.present => Conclude(server, result, pending);
        case current.present => SetPending(server, pending);
        case true => gapVersion := gapVersion + 1;
        case true => var saved := SaveCommandJournal(server, succeeds);
        case true => var saved := SaveRuntimeState(server, succeeds);
      }
    }

    /** A replica was copied to, or is to be. */
    method SetPending(server: ControlPlane, pending: bool)
      requires Valid(server) && current.present
      modifies this`current
      ensures Valid(server) && current == old(current).(replicationPending := pending)
    {
      hide Accounts, InSequence, LogValid, ResultValid;
      current := current.(replicationPending := pending);
    }

    /** The command journal is rewritten, or the transaction fails and nothing changes. */
    method SaveCommandJournal(server: ControlPlane, succeeds: bool) returns (ok: bool)
      requires Valid(server)
      modifies this`saved, this`durable
      ensures Valid(server) && ok == succeeds
      ensures if ok then saved == current && durable == appended else saved == old(saved) && durable == old(durable)
    {
      ok := succeeds;
      if ok {
        saved := current;
        durable := appended;
      }
    }

    method SaveRuntimeState(server: ControlPlane, succeeds: bool) returns (ok: bool)
      requires Valid(server)
      modifies this`savedGapVersion
      ensures Valid(server) && ok == succeeds
      ensures savedGapVersion == if ok then gapVersion else old(savedGapVersion)
    {
      ok := succeeds;
      if ok {
        savedGapVersion := gapVersion;
      }
    }

    /**
     * The process dies and starts again from the database. An event that was ever saved is without a trace
     * exactly when the journal had been saved without it and the gap version raised for it had not.
     */
    method Crash(server: ControlPlane)
      requires Valid(server)
      modifies this
      ensures Valid(server)
      ensures current == saved == old(saved) && gapVersion == savedGapVersion == old(savedGapVersion)
      ensures appended == durable == old(durable)
      ensures forall e | e in durable && e !in old(forgotten) ::
                Traceless(server, e) <==>
                e !in old(saved).events && e.id !in server.received && e in old(covers) && old(savedGapVersion) < old(covers)[e]
      ensures forgotten == old(forgotten) + set e | e in durable && Traceless(server, e)
      ensures covers == map e | e in old(covers) && old(covers)[e] <= old(savedGapVersion) :: old(covers)[e]
    {
      CrashAccounts(saved.events, server.received, covers, savedGapVersion, forgotten, durable);
      hide Accounts, InSequence, LogValid, Removable, ResultValid;
      forgotten := forgotten + Lost(saved.events, server.received, covers, savedGapVersion, durable);
      covers := Covering(covers, savedGapVersion);
      current, gapVersion, appended := saved, savedGapVersion, durable;
    }

    /** The request itself; the control plane only learns of more events. */
    method Submit(server: ControlPlane, batch: seq<Event>, fate: Fate) returns (answer: Option<seq<Status>>)
      requires Valid(server)
      modifies server`received
      ensures Valid(server)
      ensures server.received == old(server.received) + set e | e in batch && !fate.rejects(e) :: e.id
      ensures answer.Some? <==> fate.answered
      ensures answer.Some? ==> |answer.value| == |batch|
      ensures answer.Some? ==> forall i | 0 <= i < |batch| :: answer.value[i] == Rejected <==> fate.rejects(batch[i])
      ensures answer.Some? ==> forall i | 0 <= i < |batch| :: answer.value[i] != Rejected ==> batch[i].id in server.received
    {
      answer := server.SubmitEvents(batch, fate);
    }

    /** What the next request carries. */
    function Batch(): seq<Event>
      reads this
    {
      current.events[..Min(|current.events|, MAXIMUM_EVENT_BATCH)]
    }

    /** Submits one batch and puts what must be kept back in front of whatever arrived meanwhile. */
    method FlushEvents(server: ControlPlane, fate: Fate) returns (result: Flush)
      requires Valid(server) && current.present
      modifies this, server`received
      ensures Valid(server) && current.present
      ensures OthersMay(old(current), current) && old(results) <= results
      ensures old(appended) <= appended && forgotten == old(forgotten) && old(gapVersion) <= gapVersion
      ensures fate.answered ==> Sorted(old(Batch()), fate.rejects, current.events, covers.Keys)
      ensures !fate.answered ==> old(current.events) <= current.events
      ensures Agreeable(old(current.events), fate) ==> result == Continue
      ensures covers.Keys == old(covers.Keys) + if fate.answered then GivenUp(old(Batch()), fate.rejects) else {}
      ensures forall e | e in covers :: if e in old(covers) then covers[e] == old(covers)[e] else old(gapVersion) < covers[e] == gapVersion
      ensures fate.answered && GivenUp(old(Batch()), fate.rejects) != {} && fate.journalSaved ==>
                saved == current && durable == appended && if fate.stateSaved then savedGapVersion == gapVersion else savedGapVersion < gapVersion
      ensures fate.answered ==> forall e | e in GivenUp(old(Batch()), fate.rejects) :: e !in current.events
      ensures server.received == old(server.received) + set e | e in old(Batch()) && !fate.rejects(e) :: e.id
      ensures result == Continue ==> |old(current.events)| <= MAXIMUM_EVENT_BATCH
    {
      hide Accounts, InSequence, LogValid, Removable, ResultValid, GivenUp, Sorted, Agreeable;
      var events := current.events;
      if |events| == 0 {
        EmptyBatch(fate.rejects, events, covers.Keys);
        return Continue;
      }
      var batch := events[..Min(|events|, MAXIMUM_EVENT_BATCH)];
      var answer := Submit(server, batch, fate);
      Others(server);
      if answer.None? {
        AgreeableIsAnswered(events, fate);
        return Failed;
      }
      var ok := TakeAnswer(server, events, batch, answer.value, fate);
      AgreeableIsAnswered(events, fate);
      result := if !ok then Failed else if |events| > |batch| then MorePending else Continue;
    }

    /** What an answer leads to; the error of a rejection is returned after everything is saved. */
    method TakeAnswer(server: ControlPlane, ghost events: seq<Event>, batch: seq<Event>, statuses: seq<Status>, fate: Fate) returns (ok: bool)
      requires Valid(server) && |batch| == |statuses| && batch <= current.events && batch <= events && current.present
      requires forall i | 0 <= i < |batch| :: statuses[i] == Rejected <==> fate.rejects(batch[i])
      requires forall i | 0 <= i < |batch| :: statuses[i] != Rejected ==> batch[i].id in server.received
      modifies this
      ensures Valid(server) && current == old(current).(events := current.events)
      ensures appended == old(appended) && forgotten == old(forgotten) && results == old(results) && old(gapVersion) <= gapVersion
      ensures covers.Keys == old(covers.Keys) + GivenUp(batch, fate.rejects)
      ensures forall e | e in covers :: if e in old(covers) then covers[e] == old(covers)[e] else old(gapVersion) < covers[e] == gapVersion
      ensures GivenUp(batch, fate.rejects) != {} && fate.journalSaved ==>
                saved == current && durable == appended && if fate.stateSaved then savedGapVersion == gapVersion else savedGapVersion < gapVersion
      ensures Sorted(batch, fate.rejects, current.events, covers.Keys)
      ensures forall e | e in GivenUp(batch, fate.rejects) :: e !in current.events
      ensures Agreeable(events, fate) ==> ok
    {
      InOrderNow(server);
      AnswersSorted(current.events, batch, statuses, fate.rejects, covers.Keys);
      NoneRejected(events, batch, statuses, fate);
      hide Accounts, InSequence, LogValid, Retained, Discarded, Merged, Removable, ResultValid, GivenUp, Sorted, StrictlyIncreasing;
      var retained, rejection, gaveUp := SortAnswers(batch, statuses);
      var merged := Merge(server, batch, statuses, retained, gaveUp, fate);
      ok := merged && !rejection;
    }

    lemma InOrderNow(server: ControlPlane)
      requires Valid(server)
      ensures StrictlyIncreasing(current.events)
    {
    }

    /** The critical section after an answer: merge, raise the gap, save both records. */
    method Merge(server: ControlPlane, batch: seq<Event>, ghost statuses: seq<Status>, retained: seq<Event>, gaveUp: bool, fate: Fate)
      returns (ok: bool)
      requires Valid(server) && |batch| == |statuses| && batch <= current.events
      requires current.present
      requires forall i | 0 <= i < |batch| :: statuses[i] != Rejected ==> batch[i].id in server.received
      requires retained == Retained(batch, statuses) && (gaveUp <==> Discarded(batch, statuses) != {})
      modifies this
      ensures Valid(server)
      ensures current == old(current).(events := Merged(old(current.events), batch, statuses))
      ensures appended == old(appended) && forgotten == old(forgotten) && results == old(results)
      ensures covers.Keys == old(covers.Keys) + Discarded(batch, statuses)
      ensures gapVersion == if gaveUp then old(gapVersion) + 1 else old(gapVersion)
      ensures forall e | e in covers :: covers[e] == if e in old(covers) then old(covers)[e] else gapVersion
      ensures forall e | e in Discarded(batch, statuses) :: e !in current.events
      ensures ok <==> fate.journalSaved && (gaveUp ==> fate.stateSaved)
      ensures if fate.journalSaved then saved == current && durable == appended else saved == old(saved) && durable == old(durable)
      ensures savedGapVersion == if fate.journalSaved && gaveUp && fate.stateSaved then gapVersion else old(savedGapVersion)
    {
      MergeInMemory(server, batch, statuses, retained, gaveUp);
      hide Accounts, InSequence, LogValid, Retained, Discarded, Merged, Removable, ResultValid;
      ok := SaveCommandJournal(server, fate.journalSaved);
      if ok && gaveUp {
        ok := SaveRuntimeState(server, fate.stateSaved);
      }
    }

    method MergeInMemory(server: ControlPlane, batch: seq<Event>, ghost statuses: seq<Status>, retained: seq<Event>, gaveUp: bool)
      requires Valid(server) && |batch| == |statuses| && batch <= current.events
      requires current.present
      requires forall i | 0 <= i < |batch| :: statuses[i] != Rejected ==> batch[i].id in server.received
      requires retained == Retained(batch, statuses) && (gaveUp <==> Discarded(batch, statuses) != {})
      modifies this`current, this`covers, this`gapVersion
      ensures Valid(server)
      ensures current == old(current).(events := Merged(old(current.events), batch, statuses))
      ensures covers.Keys == old(covers.Keys) + Discarded(batch, statuses)
      ensures gapVersion == if gaveUp then old(gapVersion) + 1 else old(gapVersion)
      ensures forall e | e in covers :: covers[e] == if e in old(covers) then old(covers)[e] else gapVersion
      ensures forall e | e in Discarded(batch, statuses) :: e !in current.events
    {
      hide Accounts, InSequence, LogValid, Retained, Discarded, Merged, Removable, ResultValid;
      MergeAccounts(current.events, current.sequence, server.received, covers.Keys + forgotten, appended, batch, statuses);
      if gaveUp {
        gapVersion := gapVersion + 1;
      }
      GiveUp(server, Discarded(batch, statuses));
      PutBack(server, retained + current.events[|batch|..]);
    }

    method PutBack(server: ControlPlane, events: seq<Event>)
      requires Valid(server) && current.present
      requires InSequence(events, current.sequence) && Accounts(events, server.received, covers.Keys + forgotten, appended)
      modifies this`current
      ensures Valid(server)
      ensures current == old(current).(events := events)
    {
      hide Accounts, InSequence, LogValid, Removable, ResultValid;
      current := current.(events := events);
    }

    /** Keeps book of events given up, covered by the current gap version. */
    ghost method GiveUp(server: ControlPlane, more: set<Event>)
      requires Valid(server) && forall e | e in more :: !KeptWhenRejected(e.kind)
      modifies this`covers
      ensures Valid(server) && covers == Raised(old(covers), more, gapVersion) && covers.Keys + forgotten == old(covers.Keys + forgotten) + more
    {
      AccountsMore(current.events, server.received, covers.Keys + forgotten, more, appended);
      AccountsMore(saved.events, server.received, covers.Keys + forgotten, more, durable);
      hide Accounts, InSequence, LogValid, Removable, ResultValid;
      covers := Raised(covers, more, gapVersion);
      assert covers.Keys + forgotten == old(covers.Keys + forgotten) + more;
    }

    /** Uploads one chunk; a failed attempt may still have stored it. */
    method UploadChunk(server: ControlPlane, index: nat, chunk: Chunk, well: bool) returns (ok: bool)
      requires Valid(server) && log.Some?
      requires index == current.nextLogChunk && index * MAXIMUM_LOG_CHUNK < |log.value| && chunk == ChunkOf(log.value, index)
      modifies server`chunks
      ensures Valid(server)
      ensures ok ==> Holds(server.chunks, log.value, index + 1)
      ensures well ==> ok
    {
      hide Accounts, InSequence, Holds, ResultValid;
      UploadKeeps(server.chunks, log.value, index, index);
      UploadKeeps(server.chunks, log.value, saved.nextLogChunk, index);
      if server.completion.Some? {
        UploadKeeps(server.chunks, log.value, Ceiling(|log.value|), index);
      }
      ok := server.UploadLogChunk(index, chunk, well);
    }

    /** Uploads the log from the first chunk not known to be stored, then closes it; the lock is free during each request. */
    method FlushLog(server: ControlPlane, well: bool) returns (ok: bool)
      requires Valid(server) && current.present
      modifies this`current, this`saved, this`durable, this`appended, this`gapVersion, this`savedGapVersion, this`results, server`chunks, server`completion
      ensures Valid(server)
      ensures OthersMay(old(current), current.(nextLogChunk := old(current.nextLogChunk), logCompleted := old(current.logCompleted)))
      ensures old(results) <= results && current.present && (well ==> ok)
      ensures old(current.events) <= current.events && old(appended) <= appended && old(gapVersion) <= gapVersion
      ensures old(current.nextLogChunk) <= current.nextLogChunk
      ensures ok && log.Some? ==> current.logCompleted
    {
      if log.None? || current.logCompleted {
        return true;
      }
      hide Accounts, InSequence, Holds, ResultValid;
      var readable := Succeeds(well); // ReadChecksummedRunLog
      if !readable {
        return false;
      }
      var bytes := log.value;
      NoMoreThanCeiling(server.chunks, bytes, current.nextLogChunk);
      var offset := current.nextLogChunk * MAXIMUM_LOG_CHUNK;
      while offset < |bytes|
        invariant Valid(server)
        invariant offset == current.nextLogChunk * MAXIMUM_LOG_CHUNK && current.nextLogChunk <= Ceiling(|bytes|)
        invariant OthersMay(old(current), current.(nextLogChunk := old(current.nextLogChunk))) && old(results) <= results && current.present
        invariant old(current.events) <= current.events && old(appended) <= appended && old(gapVersion) <= gapVersion
        invariant old(current.nextLogChunk) <= current.nextLogChunk
      {
        ok := FlushChunk(server, offset, well);
        if !ok {
          return;
        }
        offset := offset + MAXIMUM_LOG_CHUNK;
      }
      ok := FinishLog(server, well);
    }

    /** Closes a log that was uploaded entirely. */
    method FinishLog(server: ControlPlane, well: bool) returns (ok: bool)
      requires Valid(server) && current.present && log.Some? && current.nextLogChunk == Ceiling(|log.value|)
      modifies this`current, this`saved, this`durable, this`appended, this`gapVersion, this`savedGapVersion, this`results, server`completion
      ensures Valid(server)
      ensures OthersMay(old(current), current.(logCompleted := old(current.logCompleted))) && old(results) <= results && current.present
      ensures well ==> ok
      ensures old(current.events) <= current.events && old(appended) <= appended && old(gapVersion) <= gapVersion
      ensures ok ==> current.logCompleted
    {
      hide Accounts, InSequence, Holds, ResultValid;
      var completion := Completion(|log.value|, current.nextLogChunk);
      ok := server.CompleteLog(completion, well);
      Others(server);
      if !ok {
        return;
      }
      current := current.(logCompleted := true);
      var succeeds := Succeeds(well);
      ok := SaveCommandJournal(server, succeeds);
    }

    /** One round of that: the chunk at `offset`, which is then known to be stored. */
    method FlushChunk(server: ControlPlane, offset: nat, well: bool) returns (ok: bool)
      requires Valid(server) && current.present && !current.logCompleted && log.Some?
      requires offset == current.nextLogChunk * MAXIMUM_LOG_CHUNK < |log.value|
      modifies this`current, this`saved, this`durable, this`appended, this`gapVersion, this`savedGapVersion, this`results, server`chunks
      ensures Valid(server)
      ensures OthersMay(old(current), current.(nextLogChunk := old(current.nextLogChunk))) && old(results) <= results && current.present
      ensures well ==> ok
      ensures old(current.events) <= current.events && old(appended) <= appended && old(gapVersion) <= gapVersion
      ensures old(current.nextLogChunk) <= current.nextLogChunk
      ensures ok ==> current.nextLogChunk == old(current.nextLogChunk) + 1
    {
      hide Accounts, InSequence, Holds, ResultValid;
      var end := Min(offset + MAXIMUM_LOG_CHUNK, |log.value|);
      ok := UploadChunk(server, offset / MAXIMUM_LOG_CHUNK, Chunk(offset, log.value[offset..end]), well);
      Others(server);
      if ok {
        ok := KeepChunk(server, offset / MAXIMUM_LOG_CHUNK, well);
      }
    }

    /** One more chunk is known to be stored. */
    method KeepChunk(server: ControlPlane, index: nat, well: bool) returns (ok: bool)
      requires Valid(server) && log.Some? && index == current.nextLogChunk && Holds(server.chunks, log.value, index + 1)
      requires current.present && !current.logCompleted
      modifies this`current, this`saved, this`durable
      ensures Valid(server)
      ensures current == old(current).(nextLogChunk := index + 1) && (well ==> ok)
    {
      hide Accounts, InSequence, Holds, ResultValid;
      current := current.(nextLogChunk := index + 1);
      ok := Succeeds(well);
      ok := SaveCommandJournal(server, ok);
    }

    /** Reports the result that the pass found, if it found one that was not reported; it is marked only once it went through. */
    method FlushResult(server: ControlPlane, result: Option<nat>, reported: bool, well: bool) returns (ok: bool)
      requires Valid(server) && current.present
      requires result.Some? ==> result.value in results && current.result.Some?
      modifies this`current, this`saved, this`durable, this`appended, this`gapVersion, this`savedGapVersion, this`results, server`result
      ensures Valid(server) && current.present
      ensures OthersMay(old(current), current.(resultReported := old(current.resultReported)))
      ensures old(current.events) <= current.events && old(appended) <= appended && old(gapVersion) <= gapVersion && old(results) <= results
      ensures ok && result.Some? && !reported ==> current.resultReported && server.result == result
      ensures result.None? || reported ==> current == old(current)
      ensures well ==> ok
    {
      hide Accounts, InSequence, LogValid;
      if result.None? || reported {
        return true;
      }
      ok := server.SubmitResult(result.value, well);
      Others(server);
      if ok {
        current := current.(resultReported := true);
        var succeeds := Succeeds(well);
        ok := SaveCommandJournal(server, succeeds);
      }
    }

    /**
     * One pass of the reporter over the command. When the entry is gone, everything it ever queued is known to
     * the control plane or was given up, and the control plane has the whole log and a result of the command,
     * unless a schedule asked for it. The pass itself gives up only what the control plane rejected, and raises
     * the gap version for it. A pass that goes well completes the log, reports the result, and leaves an entry
     * only if something is still to be done for it.
     */
    method FlushCommand(server: ControlPlane, fate: Fate)
      requires Valid(server) && current.present
      modifies this, server
      ensures Valid(server)
      ensures covers.Keys == old(covers.Keys) + if fate.answered then GivenUp(old(Batch()), fate.rejects) else {}
      ensures forall e | e in covers ::
                if e in old(covers) then covers[e] == old(covers)[e] else old(gapVersion) < covers[e] <= gapVersion
      ensures forgotten == old(forgotten)
      ensures !current.present ==> forall e | e in appended ::
                  e.id in server.received || (e in covers && covers[e] <= gapVersion) || e in forgotten
      ensures !current.present && log.Some? ==>
                && server.completion == Some(Completion(|log.value|, Ceiling(|log.value|)))
                && Holds(server.chunks, log.value, Ceiling(|log.value|))
                && Assembled(server.chunks, Ceiling(|log.value|)) == log.value
      ensures !current.present && !scheduled ==> server.result.Some? && server.result.value in results
      ensures Agreeable(old(current.events), fate) && fate.well ==>
                && (log.Some? ==> current.logCompleted)
                && (old(current.result).Some? && !old(current.resultReported) ==> server.result == old(current.result))
                && (current.present ==> !current.resultReported || current.events != [] || current.replicationPending)
    {
      hide Accounts, InSequence, LogValid, Holds, Assembled, ResultValid, Sorted, GivenUp, Agreeable, Raised;
      FoundInResults(server);
      var result, reported := current.result, current.resultReported;
      var flush := FlushEvents(server, fate);
      if flush != Continue {
        return;
      }
      FlushRest(server, result, reported, fate.well);
    }

    /** What comes after the events: the log, the result, and the end of the entry. */
    method FlushRest(server: ControlPlane, result: Option<nat>, reported: bool, well: bool)
      requires Valid(server) && current.present
      requires result.Some? ==> result.value in results && current.result.Some?
      modifies this`current, this`saved, this`durable, this`appended, this`gapVersion, this`savedGapVersion, this`results
      modifies server`chunks, server`completion, server`result
      ensures Valid(server) && old(gapVersion) <= gapVersion
      ensures !current.present ==> forall e | e in appended ::
                  e.id in server.received || (e in covers && covers[e] <= gapVersion) || e in forgotten
      ensures !current.present && log.Some? ==>
                && server.completion == Some(Completion(|log.value|, Ceiling(|log.value|)))
                && Holds(server.chunks, log.value, Ceiling(|log.value|))
                && Assembled(server.chunks, Ceiling(|log.value|)) == log.value
      ensures !current.present && !scheduled ==> server.result.Some? && server.result.value in results
      ensures well ==>
                && (log.Some? ==> current.logCompleted)
                && (result.Some? && !reported ==> server.result == result)
                && (current.present ==> !current.resultReported || current.events != [] || current.replicationPending)
    {
      hide Accounts, InSequence, LogValid, Holds, Assembled, ResultValid;
      var ok := FlushLog(server, well);
      if ok {
        ok := FlushResult(server, result, reported, well);
      }
      if !ok {
        return;
      }
      Others(server);
      if Removable(current, log) {
        RemovedIsDelivered(server);
        Remove(server);
      }
    }

    lemma FoundInResults(server: ControlPlane)
      requires Valid(server)
      ensures current.result.Some? ==> current.result.value in results
    {
    }

    method Remove(server: ControlPlane)
      requires Valid(server) && Removable(current, log)
      modifies this`current, this`saved, this`durable
      ensures Valid(server)
      ensures current == old(current).(present := false)
    {
      current := current.(present := false);
      var succeeds: bool := *;
      var ok := SaveCommandJournal(server, succeeds);
    }

    lemma RemovedIsDelivered(server: ControlPlane)
      requires Valid(server) && Removable(current, log)
      ensures forall e | e in appended :: e.id in server.received || (e in covers && covers[e] <= gapVersion) || e in forgotten
      ensures log.Some? ==>
                && server.completion == Some(Completion(|log.value|, Ceiling(|log.value|)))
                && Holds(server.chunks, log.value, Ceiling(|log.value|))
                && Assembled(server.chunks, Ceiling(|log.value|)) == log.value
      ensures !scheduled ==> server.result.Some? && server.result.value in results
    {
      if log.Some? {
        AllChunksAreTheLog(server.chunks, log.value);
      }
    }
  }

  /** A rejected event, a journal that is saved, a state that is not, and a crash: the event leaves no trace. */
  method ForgettingRun(e: Event, rejects: Event -> bool) returns (report: CommandReport, server: ControlPlane)
    requires e.sequence == 1 && !KeptWhenRejected(e.kind) && rejects(e)
    ensures report.Valid(server) && e in report.appended && report.Traceless(server, e)
    ensures e in report.forgotten
  {
    server := new ControlPlane();
    report := new CommandReport(None, false, server);
    report.AppendEvent(server, e);
    var batch := report.Batch();
    assert batch == [e];
    assert GivenUp(batch, rejects) == {e};
    hide Accounts, InSequence, LogValid, Removable, GivenUp;
    var result := report.FlushEvents(server, Fate(rejects, true, true, false, true));
    assert server.received == {};
    assert report.covers.Keys == {e};
    assert e !in report.saved.events && report.savedGapVersion < report.covers[e];
    report.Crash(server);
  }

  /** Uploading chunk `index` of the log, again or for the first time, loses nothing held. */
  lemma UploadKeeps(chunks: map<nat, Chunk>, log: seq<byte>, n: nat, index: nat)
    requires index * MAXIMUM_LOG_CHUNK < |log|
    requires Holds(chunks, log, n)
    ensures Holds(chunks[index := ChunkOf(log, index)], log, n)
    ensures n == index ==> Holds(chunks[index := ChunkOf(log, index)], log, n + 1)
  {
  }

  lemma NoMoreThanCeiling(chunks: map<nat, Chunk>, log: seq<byte>, n: nat)
    requires Holds(chunks, log, n)
    ensures n <= Ceiling(|log|)
  {
  }

  /** Sorts the rejected events of a batch into those to keep and those to give up. */
  method SortAnswers(batch: seq<Event>, statuses: seq<Status>) returns (retained: seq<Event>, rejection: bool, gaveUp: bool)
    requires |batch| == |statuses|
    ensures retained == Retained(batch, statuses)
    ensures rejection <==> Rejected in statuses
    ensures gaveUp <==> Discarded(batch, statuses) != {}
  {
    hide Retained, Discarded;
    retained, rejection, gaveUp := [], false, false;
    NoAnswers();
    for i := 0 to |batch|
      invariant retained == Retained(batch[..i], statuses[..i])
      invariant rejection <==> Rejected in statuses[..i]
      invariant gaveUp <==> Discarded(batch[..i], statuses[..i]) != {}
    {
      OneAnswer(batch, statuses, i);
      if statuses[i] == Rejected {
        if KeptWhenRejected(batch[i].kind) {
          retained := retained + [batch[i]];
        } else {
          gaveUp := true;
        }
        rejection := true;
      }
    }
    assert batch[..|batch|] == batch && statuses[..|statuses|] == statuses;
  }

  lemma NoAnswers()
    ensures Retained([], []) == [] && Discarded([], []) == {}
  {
  }

  lemma OneAnswer(batch: seq<Event>, statuses: seq<Status>, i: nat)
    requires |batch| == |statuses| && i < |batch|
    ensures Retained(batch[..i + 1], statuses[..i + 1]) ==
            Retained(batch[..i], statuses[..i]) + if statuses[i] == Rejected && KeptWhenRejected(batch[i].kind) then [batch[i]] else []
    ensures Discarded(batch[..i + 1], statuses[..i + 1]) ==
            Discarded(batch[..i], statuses[..i]) + if statuses[i] == Rejected && !KeptWhenRejected(batch[i].kind) then {batch[i]} else {}
    ensures statuses[..i + 1] == statuses[..i] + [statuses[i]]
  {
    assert batch[..i + 1][..i] == batch[..i] && statuses[..i + 1][..i] == statuses[..i];
  }

  lemma AccountsMore(events: seq<Event>, received: set<string>, discarded: set<Event>, more: set<Event>, all: set<Event>)
    requires Accounts(events, received, discarded, all)
    ensures Accounts(events, received, discarded + more, all)
  {
  }

  lemma MergeAccounts(events: seq<Event>, sequence: nat, received: set<string>, discarded: set<Event>, all: set<Event>,
                      batch: seq<Event>, statuses: seq<Status>)
    requires |batch| == |statuses| && batch <= events
    requires InSequence(events, sequence) && Accounts(events, received, discarded, all)
    requires forall i | 0 <= i < |batch| :: statuses[i] != Rejected ==> batch[i].id in received
    ensures var merged := Merged(events, batch, statuses);
            InSequence(merged, sequence) && Accounts(merged, received, discarded + Discarded(batch, statuses), all)
    ensures forall e | e in Discarded(batch, statuses) :: !KeptWhenRejected(e.kind) && e !in Merged(events, batch, statuses)
    ensures Retained(batch, statuses) + events[|batch|..] == Merged(events, batch, statuses)
  {
    MergeKeepsOrder(events, batch, statuses);
    GivenUpIsGone(events, batch, statuses);
    DiscardedMembers(batch, statuses);
    forall e | e in all
      ensures e in Merged(events, batch, statuses) || e.id in received || e in discarded + Discarded(batch, statuses)
    {
      if e in events {
        MergeConserves(events, batch, statuses, e);
      }
    }
  }
}

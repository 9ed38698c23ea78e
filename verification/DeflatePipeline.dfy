/**
 * restic/parallel_deflate.go, the goroutines: `workers` take chunks from one bounded channel and a
 * writer takes their results, in dispatch order, from another. A channel holds consecutive job
 * numbers, so it is the range between how many were sent and how many were taken.
 */
module DeflatePipelines {
  import opened Bytes
  import opened Cardinality
  import opened Options

  /** One chunk and the 32 KiB before it. */
  datatype Job = Job(input: seq<byte>, dictionary: seq<byte>)

  /** compress/flate, as far as this file uses it. */
  datatype Codec = Codec(
    chunk: Job -> seq<byte>,                             // a sync-flushed raw deflate stream
    whole: seq<byte> -> seq<byte>,                       // a complete stream, for small entries
    inflate: (seq<byte>, seq<byte>) -> seq<byte>)        // what a stream decodes to behind a history

  datatype Pipeline = Pipeline(
    jobs: seq<Job>,                          // every job dispatched so far, by number
    orderedSent: nat, orderedTaken: nat,     // the `ordered` channel
    jobsSent: nat, jobsTaken: nat,           // the `jobs` channel
    working: map<nat, nat>,                  // busy workers and the job each one has
    results: map<nat, Option<seq<byte>>>,    // filled result channels; None is a nil result
    holding: Option<nat>,                    // the result the writer is waiting for
    output: seq<byte>, failed: bool)

  datatype Step = TakeJob(worker: nat) | FinishJob(worker: nat, compressed: bool) | TakeResult | WriteResult(accepted: nat)

  const START := Pipeline([], 0, 0, 0, 0, map[], map[], None, [], false)

  /** How many results the writer is done with. */
  function Consumed(p: Pipeline): int {
    if p.holding.Some? then p.orderedTaken - 1 else p.orderedTaken
  }

  predicate Drained(p: Pipeline) {
    Consumed(p) >= |p.jobs|
  }

  function Streams(codec: Codec, jobs: seq<Job>): seq<byte> {
    if jobs == [] then [] else Streams(codec, jobs[..|jobs| - 1]) + codec.chunk(jobs[|jobs| - 1])
  }

  ghost predicate Counters(p: Pipeline, workers: nat) {
    && p.jobsSent <= p.orderedSent == |p.jobs| <= p.jobsSent + 1
    && p.orderedTaken <= p.orderedSent <= p.orderedTaken + 2 * workers
    && p.jobsTaken <= p.jobsSent <= p.jobsTaken + workers
    && (p.holding.Some? ==> p.orderedTaken > 0 && p.holding.value == p.orderedTaken - 1)
    && Consumed(p) <= p.jobsTaken
  }

  /** Each job taken by a worker is with that worker, or answered, or consumed, and only one of these. */
  ghost predicate Placed(p: Pipeline, workers: nat) {
    && (forall w | w in p.working :: w < workers && Consumed(p) <= p.working[w] < p.jobsTaken && p.working[w] !in p.results)
    && (forall v, w | v in p.working && w in p.working && v != w :: p.working[v] != p.working[w])
    && (forall i | i in p.results :: Consumed(p) <= i < p.jobsTaken)
    && (forall i | Consumed(p) <= i < p.jobsTaken :: i in p.results || i in p.working.Values)
  }

  /** Without a failure the output is exactly what was consumed; with one it stops somewhere inside it. */
  ghost predicate Faithful(p: Pipeline, codec: Codec) {
    && 0 <= Consumed(p) <= |p.jobs|
    && (forall i | i in p.results && i < |p.jobs| :: p.results[i] == Some(codec.chunk(p.jobs[i])) || (p.results[i] == None && p.failed))
    && p.output <= Streams(codec, p.jobs[..Consumed(p)])
    && (!p.failed ==> p.output == Streams(codec, p.jobs[..Consumed(p)]))
  }

  ghost predicate PipeValid(p: Pipeline, codec: Codec, workers: nat) {
    workers >= 1 && Counters(p, workers) && Placed(p, workers) && Faithful(p, codec)
  }

  predicate Enabled(p: Pipeline, workers: nat, step: Step) {
    match step
    case TakeJob(w) => w < workers && w !in p.working && p.jobsTaken < p.jobsSent
    case FinishJob(w, _) => w in p.working && p.working[w] < |p.jobs|
    case TakeResult => p.holding.None? && p.orderedTaken < p.orderedSent
    case WriteResult(_) => p.holding.Some? && p.holding.value in p.results
  }

  function Apply(p: Pipeline, codec: Codec, step: Step): Pipeline {
    match step
    case TakeJob(w) => p.(working := p.working[w := p.jobsTaken], jobsTaken := p.jobsTaken + 1)
    case FinishJob(w, compressed) =>
      if w !in p.working || p.working[w] >= |p.jobs| then p
      else
        var i := p.working[w];
        p.(working := p.working - {w},
           results := p.results[i := if compressed then Some(codec.chunk(p.jobs[i])) else None],
           failed := p.failed || !compressed)
    case TakeResult => p.(holding := Some(p.orderedTaken), orderedTaken := p.orderedTaken + 1)
    case WriteResult(accepted) =>
      if p.holding.None? || p.holding.value !in p.results then p
      else
        var i := p.holding.value;
        var done := p.(holding := None, results := p.results - {i});
        if p.results[i].None? || p.failed then done
        else
          var compressed := p.results[i].value;
          if accepted >= |compressed| then done.(output := p.output + compressed)
          else done.(output := p.output + compressed[..accepted], failed := true)
  }

  /** Work left for the goroutines; no step can repeat for ever. */
  function Remaining(p: Pipeline): int {
    2 * (p.orderedSent - p.jobsTaken) + |p.working| + 2 * (p.orderedSent - p.orderedTaken) + if p.holding.Some? then 1 else 0
  }

  lemma StepKeepsCounters(p: Pipeline, codec: Codec, workers: nat, step: Step)
    requires Counters(p, workers) && Placed(p, workers) && Enabled(p, workers, step)
    ensures Counters(Apply(p, codec, step), workers)
  {
    if step.WriteResult? {
      assert p.holding.value in p.results;
    }
  }

  lemma StepKeepsPlaced(p: Pipeline, codec: Codec, workers: nat, step: Step)
    requires Counters(p, workers) && Placed(p, workers) && Enabled(p, workers, step)
    ensures Placed(Apply(p, codec, step), workers)
  {
    match step
    case TakeJob(w) => TakePlaced(p, codec, workers, w);
    case FinishJob(w, compressed) => FinishPlaced(p, codec, workers, w, compressed);
    case TakeResult => TakeResultPlaced(p, codec, workers);
    case WriteResult(accepted) => WriteResultPlaced(p, codec, workers, accepted);
  }

  lemma TakeResultPlaced(p: Pipeline, codec: Codec, workers: nat)
    requires Counters(p, workers) && Placed(p, workers) && Enabled(p, workers, TakeResult)
    ensures Placed(Apply(p, codec, TakeResult), workers)
  {
    assert Consumed(Apply(p, codec, TakeResult)) == Consumed(p);
  }

  lemma WriteResultPlaced(p: Pipeline, codec: Codec, workers: nat, accepted: nat)
    requires Counters(p, workers) && Placed(p, workers) && Enabled(p, workers, WriteResult(accepted))
    ensures Placed(Apply(p, codec, WriteResult(accepted)), workers)
  {
    var q, i := Apply(p, codec, WriteResult(accepted)), p.holding.value;
    assert Consumed(p) == i && Consumed(q) == i + 1;
    assert q.working == p.working && q.results == p.results - {i} && q.jobsTaken == p.jobsTaken;
    forall w | w in q.working ensures w < workers && Consumed(q) <= q.working[w] < q.jobsTaken && q.working[w] !in q.results {
      assert p.working[w] != i;
    }
    forall j | Consumed(q) <= j < q.jobsTaken ensures j in q.results || j in q.working.Values {
      assert j in p.results || j in p.working.Values;
    }
  }

  lemma TakePlaced(p: Pipeline, codec: Codec, workers: nat, w: nat)
    requires Counters(p, workers) && Placed(p, workers) && Enabled(p, workers, TakeJob(w))
    ensures Placed(Apply(p, codec, TakeJob(w)), workers)
  {
    var q := Apply(p, codec, TakeJob(w));
    assert Consumed(q) == Consumed(p) && q.results == p.results && q.working == p.working[w := p.jobsTaken];
    forall i | Consumed(q) <= i < q.jobsTaken ensures i in q.results || i in q.working.Values {
      if i == p.jobsTaken {
        assert q.working[w] == i;
      } else if i in p.working.Values {
        var v :| v in p.working && p.working[v] == i;
        assert q.working[v] == i;
      }
    }
  }

  lemma FinishPlaced(p: Pipeline, codec: Codec, workers: nat, w: nat, compressed: bool)
    requires Counters(p, workers) && Placed(p, workers) && Enabled(p, workers, FinishJob(w, compressed))
    ensures Placed(Apply(p, codec, FinishJob(w, compressed)), workers)
  {
    var q := Apply(p, codec, FinishJob(w, compressed));
    forall i | Consumed(q) <= i < q.jobsTaken ensures i in q.results || i in q.working.Values {
      if i != p.working[w] && i in p.working.Values {
        var v :| v in p.working && p.working[v] == i;
        assert q.working[v] == i;
      }
    }
  }

  lemma StepKeepsFaithful(p: Pipeline, codec: Codec, workers: nat, step: Step)
    requires Counters(p, workers) && Placed(p, workers) && Faithful(p, codec) && Enabled(p, workers, step)
    ensures Faithful(Apply(p, codec, step), codec)
  {
    if step.WriteResult? {
      WriteFaithful(p, codec, workers, step.accepted);
    }
  }

  /** The writer appends the stream of exactly the next job, or stops appending for good. */
  lemma WriteFaithful(p: Pipeline, codec: Codec, workers: nat, accepted: nat)
    requires Counters(p, workers) && Placed(p, workers) && Faithful(p, codec) && Enabled(p, workers, WriteResult(accepted))
    ensures Faithful(Apply(p, codec, WriteResult(accepted)), codec)
  {
    var i := p.holding.value;
    assert i in p.results && i < |p.jobs|;
    assert p.jobs[..i + 1][..i] == p.jobs[..i] && p.jobs[..i + 1][i] == p.jobs[i];
    assert Streams(codec, p.jobs[..i + 1]) == Streams(codec, p.jobs[..i]) + codec.chunk(p.jobs[i]);
    if !p.failed {
      var compressed := codec.chunk(p.jobs[i]);
      if accepted < |compressed| {
        PrefixOfStream(p.output, compressed, accepted);
      }
    } else {
      PrefixExtends(p.output, Streams(codec, p.jobs[..i]), codec.chunk(p.jobs[i]));
    }
  }

  lemma PrefixOfStream(output: seq<byte>, compressed: seq<byte>, accepted: nat)
    requires accepted <= |compressed|
    ensures output + compressed[..accepted] <= output + compressed
  {
  }

  lemma PrefixExtends(a: seq<byte>, b: seq<byte>, c: seq<byte>)
    requires a <= b
    ensures a <= b + c
  {
  }

  lemma StepReduces(p: Pipeline, codec: Codec, workers: nat, step: Step)
    requires Enabled(p, workers, step)
    ensures Remaining(Apply(p, codec, step)) < Remaining(p)
  {
    match step
    case TakeJob(w) => InsertSize(p.working, w, p.jobsTaken);
    case FinishJob(w, _) => RemoveSize(p.working, w);
    case TakeResult =>
    case WriteResult(_) =>
  }

  lemma RemainingNatural(p: Pipeline, workers: nat)
    requires Counters(p, workers)
    ensures 0 <= Remaining(p)
  {
  }

  /** Every step of every goroutine keeps the pipeline right and uses up some of the work. */
  lemma StepKeeps(p: Pipeline, codec: Codec, workers: nat, step: Step)
    requires PipeValid(p, codec, workers) && Enabled(p, workers, step)
    ensures PipeValid(Apply(p, codec, step), codec, workers)
    ensures 0 <= Remaining(Apply(p, codec, step)) < Remaining(p)
    ensures Apply(p, codec, step).jobs == p.jobs
    ensures Apply(p, codec, step).orderedSent == p.orderedSent && Apply(p, codec, step).jobsSent == p.jobsSent
  {
    StepKeepsCounters(p, codec, workers, step);
    StepKeepsPlaced(p, codec, workers, step);
    StepKeepsFaithful(p, codec, workers, step);
    StepReduces(p, codec, workers, step);
    RemainingNatural(Apply(p, codec, step), workers);
    hide Counters, Placed, Faithful, Remaining;
  }

  /** While a dispatched job is not consumed, some goroutine can take a step: the channels cannot deadlock. */
  method NextStep(p: Pipeline, codec: Codec, workers: nat) returns (step: Step)
    requires PipeValid(p, codec, workers) && Consumed(p) < p.jobsSent
    ensures Enabled(p, workers, step)
  {
    assert p.working == map[] ==> p.working.Values == {};
    if p.working != map[] {
      var w :| w in p.working;
      step := FinishJob(w, true);
    } else if p.jobsTaken < p.jobsSent {
      step := TakeJob(0);
    } else if p.holding.None? {
      step := TakeResult;
    } else {
      step := WriteResult(0);
    }
  }

  /** Once everything is consumed nothing more happens, and nothing more fails. */
  lemma NoStep(p: Pipeline, codec: Codec, workers: nat, step: Step)
    requires PipeValid(p, codec, workers) && Drained(p)
    ensures !Enabled(p, workers, step)
  {
  }

  /** `dispatch` sends the result channel first; the new job has the next number. */
  function SendOrdered(p: Pipeline, job: Job): Pipeline {
    p.(jobs := p.jobs + [job], orderedSent := p.orderedSent + 1)
  }

  function SendJob(p: Pipeline): Pipeline {
    p.(jobsSent := p.jobsSent + 1)
  }

  lemma SendOrderedKeeps(p: Pipeline, codec: Codec, workers: nat, job: Job)
    requires PipeValid(p, codec, workers)
    requires p.jobsSent == p.orderedSent && p.orderedSent < p.orderedTaken + 2 * workers
    ensures PipeValid(SendOrdered(p, job), codec, workers)
  {
    SendOrderedPlaced(p, workers, job);
    assert SendOrdered(p, job).jobs[..Consumed(p)] == p.jobs[..Consumed(p)];
    hide Placed;
  }

  lemma SendOrderedPlaced(p: Pipeline, workers: nat, job: Job)
    requires Placed(p, workers)
    ensures Placed(SendOrdered(p, job), workers)
  {
  }

  lemma SendJobKeeps(p: Pipeline, codec: Codec, workers: nat)
    requires PipeValid(p, codec, workers)
    requires p.jobsSent < p.orderedSent && p.jobsSent < p.jobsTaken + workers
    ensures PipeValid(SendJob(p), codec, workers)
  {
    SendJobPlaced(p, workers);
    hide Placed;
  }

  lemma SendJobPlaced(p: Pipeline, workers: nat)
    requires Placed(p, workers)
    ensures Placed(SendJob(p), workers)
  {
  }
}

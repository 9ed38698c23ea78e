/**
 * restic/parallel_deflate.go `parallelDeflater`: the input is cut into chunks that are compressed
 * side by side and written in order as one deflate stream.
 */
module ParallelDeflaters {
  import opened Bytes
  import opened DeflatePipelines

  const CHUNK_BYTES: nat := 1048576
  const WINDOW_BYTES: nat := 32768

  /** An empty fixed-Huffman block with the final bit set (section 3.2.6 of RFC 1951). */
  const FINAL_BLOCK: seq<byte> := [3, 0]

  /**
   * What is assumed of compress/flate: a chunk's stream, read behind any history whose last 32 KiB
   * are the chunk's dictionary, yields the chunk and continues on a byte boundary; the final block
   * ends a stream; a small entry's own stream decodes to the entry.
   */
  ghost predicate Lossless(codec: Codec) {
    && (forall history: seq<byte>, input: seq<byte>, rest: seq<byte> ::
          codec.inflate(history, codec.chunk(Job(input, LastElements(history, WINDOW_BYTES))) + rest) ==
          input + codec.inflate(history + input, rest))
    && (forall history: seq<byte> :: codec.inflate(history, FINAL_BLOCK) == [])
    && (forall input: seq<byte> :: codec.inflate([], codec.whole(input)) == input)
  }

  function Plain(input: seq<byte>): seq<byte> {
    if input == [] then [] else [0, input[0]] + Plain(input[1..])
  }

  function ReadPlain(data: seq<byte>): seq<byte> {
    if |data| >= 2 && data[0] == 0 then [data[1]] + ReadPlain(data[2..]) else []
  }

  lemma {:induction false} PlainRead(input: seq<byte>, rest: seq<byte>)
    ensures ReadPlain(Plain(input) + rest) == input + ReadPlain(rest)
  {
    if input == [] {
      assert Plain(input) + rest == rest;
    } else {
      assert (Plain(input) + rest)[2..] == Plain(input[1..]) + rest;
      PlainRead(input[1..], rest);
    }
  }

  /** The assumption can be met: here by a code that spends two bytes on each and ignores its dictionary. */
  lemma LosslessIsPossible() returns (codec: Codec)
    ensures Lossless(codec)
  {
    codec := Codec((job: Job) => Plain(job.input), input => Plain(input) + FINAL_BLOCK, (history, data) => ReadPlain(data));
    forall history: seq<byte>, input: seq<byte>, rest: seq<byte>
      ensures codec.inflate(history, codec.chunk(Job(input, LastElements(history, WINDOW_BYTES))) + rest) ==
              input + codec.inflate(history + input, rest)
    {
      PlainRead(input, rest);
    }
    forall input: seq<byte> ensures codec.inflate([], codec.whole(input)) == input {
      PlainRead(input, FINAL_BLOCK);
      AppendNothing(input, ReadPlain(FINAL_BLOCK));
    }
  }

  /** The jobs a list of chunks is dispatched as: each with the end of all the input before it. */
  function JobsFor(chunks: seq<seq<byte>>): (jobs: seq<Job>)
    ensures |jobs| == |chunks|
  {
    if chunks == [] then []
    else
      var before := chunks[..|chunks| - 1];
      JobsFor(before) + [Job(chunks[|chunks| - 1], LastElements(Concat(before), WINDOW_BYTES))]
  }

  /** Decoding the streams of dispatched chunks, behind what they were dispatched after, gives them back. */
  lemma {:induction false} InflateStreams(codec: Codec, chunks: seq<seq<byte>>, rest: seq<byte>)
    requires Lossless(codec)
    ensures codec.inflate([], Streams(codec, JobsFor(chunks)) + rest) == Concat(chunks) + codec.inflate(Concat(chunks), rest)
  {
    if chunks == [] {
      assert [] + rest == rest && [] + codec.inflate([], rest) == codec.inflate([], rest);
    } else {
      var before, last := chunks[..|chunks| - 1], chunks[|chunks| - 1];
      var history := Concat(before);
      var stream := codec.chunk(Job(last, LastElements(history, WINDOW_BYTES)));
      assert JobsFor(chunks)[..|chunks| - 1] == JobsFor(before);
      Associative(Streams(codec, JobsFor(before)), stream, rest);
      InflateStreams(codec, before, stream + rest);
      Associative(history, last, codec.inflate(history + last, rest));
    }
  }

  /** The whole output of a started deflater decodes to the whole input. */
  lemma InflateOutput(codec: Codec, chunks: seq<seq<byte>>)
    requires Lossless(codec)
    ensures codec.inflate([], Streams(codec, JobsFor(chunks)) + FINAL_BLOCK) == Concat(chunks)
  {
    InflateStreams(codec, chunks, FINAL_BLOCK);
    AppendNothing(Concat(chunks), codec.inflate(Concat(chunks), FINAL_BLOCK));
  }

  lemma JobsAppend(chunks: seq<seq<byte>>, chunk: seq<byte>)
    ensures JobsFor(chunks + [chunk]) == JobsFor(chunks) + [Job(chunk, LastElements(Concat(chunks), WINDOW_BYTES))]
  {
    assert (chunks + [chunk])[..|chunks|] == chunks;
  }

  /** The end of a full chunk is the end of everything up to it. */
  lemma WindowOfChunk(before: seq<byte>, chunk: seq<byte>)
    requires |chunk| >= WINDOW_BYTES
    ensures LastElements(chunk, WINDOW_BYTES) == LastElements(before + chunk, WINDOW_BYTES)
  {
  }

  /**
   * The writer's own fields: everything accepted is in the dispatched chunks and the current one.
   * The window is out of date only once `Close` has dispatched a short last chunk.
   */
  ghost predicate StreamValid(chunks: seq<seq<byte>>, chunk: seq<byte>, window: seq<byte>, started: bool, closed: bool,
                              jobs: seq<Job>, input: seq<byte>)
  {
    && Concat(chunks) + chunk == input
    && jobs == JobsFor(chunks)
    && (started <==> chunks != [])
    && |chunk| <= CHUNK_BYTES
    && (!closed ==> |chunk| < CHUNK_BYTES && window == LastElements(Concat(chunks), WINDOW_BYTES))
  }

  /** Dispatching what is in the current chunk moves it behind the others, whole and with the right dictionary. */
  lemma DispatchKeeps(chunks: seq<seq<byte>>, chunk: seq<byte>, window: seq<byte>, input: seq<byte>, full: bool)
    requires window == LastElements(Concat(chunks), WINDOW_BYTES)
    requires Concat(chunks) + chunk == input
    requires full ==> |chunk| == CHUNK_BYTES
    ensures StreamValid(chunks + [chunk], [], LastElements(chunk, WINDOW_BYTES), true, !full, JobsFor(chunks) + [Job(chunk, window)], input)
  {
    JobsAppend(chunks, chunk);
    ConcatAppend(chunks, chunk);
    AppendNothing(Concat(chunks + [chunk]), []);
    if full {
      WindowOfChunk(Concat(chunks), chunk);
    }
    hide JobsFor, Concat, LastElements;
  }

  class ParallelDeflater {
    const codec: Codec
    const workers: nat
    var chunk: seq<byte>
    var window: seq<byte>
    var started: bool
    var closed: bool
    var pipe: Pipeline   // the goroutines, their channels and what they wrote
    var ending: seq<byte> // what Close wrote itself
    ghost var chunks: seq<seq<byte>>
    ghost var input: seq<byte>

    ghost predicate Valid()
      reads this
    {
      && PipeValid(pipe, codec, workers) && pipe.jobsSent == pipe.orderedSent
      && StreamValid(chunks, chunk, window, started, closed, pipe.jobs, input)
      && (!closed ==> ending == [])
      && (!started ==> !pipe.failed)
      && (closed ==> Drained(pipe) && ending <= Final() && (pipe.failed ==> ending == []))
    }

    /** What `Close` itself has to write: the end of the stream, or the whole of a small entry. */
    function Final(): seq<byte>
      reads this
    {
      if started then FINAL_BLOCK else codec.whole(chunk)
    }

    /** The output holds all it should. */
    ghost predicate Complete()
      reads this
    {
      Output() == if started then Streams(codec, JobsFor(chunks)) + FINAL_BLOCK else codec.whole(input)
    }

    /** Everything that reached the output. */
    function Output(): seq<byte>
      reads this
    {
      pipe.output + ending
    }

    constructor (codec: Codec, workers: nat)
      requires workers >= 1
      ensures Valid() && input == [] && !closed && !started && chunk == [] && pipe == START
      ensures this.codec == codec && this.workers == workers
    {
      this.codec, this.workers := codec, workers;
      chunk, window, started, closed, pipe, ending := [], [], false, false, START, [];
      chunks, input := [], [];
    }

    /** What the other goroutines may do at any moment. */
    method Others()
      requires PipeValid(pipe, codec, workers)
      modifies this`pipe
      ensures PipeValid(pipe, codec, workers) && pipe.jobs == old(pipe.jobs)
      ensures pipe.jobsSent == old(pipe.jobsSent) && pipe.orderedSent == old(pipe.orderedSent)
      ensures Remaining(pipe) <= old(Remaining(pipe))
      ensures old(Drained(pipe)) ==> pipe == old(pipe)
    {
      hide PipeValid, Remaining, Apply, Enabled, Drained;
      var rounds: nat :| true;
      for i := 0 to rounds
        invariant PipeValid(pipe, codec, workers) && pipe.jobs == old(pipe.jobs)
        invariant pipe.jobsSent == old(pipe.jobsSent) && pipe.orderedSent == old(pipe.orderedSent)
        invariant Remaining(pipe) <= old(Remaining(pipe))
        invariant old(Drained(pipe)) ==> pipe == old(pipe)
      {
        var step: Step := *;
        if Drained(pipe) {
          NoStep(pipe, codec, workers, step);
        }
        if Enabled(pipe, workers, step) {
          StepKeeps(pipe, codec, workers, step);
          pipe := Apply(pipe, codec, step);
        }
      }
    }

    /** Somebody takes a step while this goroutine is blocked. */
    method Unblock()
      requires PipeValid(pipe, codec, workers) && Consumed(pipe) < pipe.jobsSent
      modifies this`pipe
      ensures PipeValid(pipe, codec, workers) && pipe.jobs == old(pipe.jobs)
      ensures pipe.jobsSent == old(pipe.jobsSent) && pipe.orderedSent == old(pipe.orderedSent)
      ensures 0 <= Remaining(pipe) < old(Remaining(pipe))
    {
      hide PipeValid, Remaining, Apply, Enabled, Consumed;
      var step := NextStep(pipe, codec, workers);
      StepKeeps(pipe, codec, workers, step);
      pipe := Apply(pipe, codec, step);
      Others();
      PipeFacts(pipe, codec, workers);
    }

    /**
     * Hands the current chunk to a worker. Both sends may block; in each case some other goroutine
     * can always go on, so both loops end.
     */
    method Dispatch()
      requires PipeValid(pipe, codec, workers) && pipe.jobsSent == pipe.orderedSent
      modifies this`pipe, this`chunk, this`window, this`started, this`chunks
      ensures PipeValid(pipe, codec, workers) && pipe.jobsSent == pipe.orderedSent
      ensures pipe.jobs == old(pipe.jobs) + [Job(old(chunk), old(window))]
      ensures chunks == old(chunks) + [old(chunk)]
      ensures started && chunk == [] && window == LastElements(old(chunk), WINDOW_BYTES)
    {
      hide PipeValid, Remaining, Apply, Enabled, Consumed, LastElements;
      started := true;
      var job := Job(chunk, window);
      Others();
      PipeFacts(pipe, codec, workers);
      while pipe.orderedSent == pipe.orderedTaken + 2 * workers
        invariant PipeValid(pipe, codec, workers) && pipe.jobs == old(pipe.jobs) && pipe.jobsSent == pipe.orderedSent
        invariant pipe.orderedSent <= pipe.orderedTaken + 2 * workers
        modifies this`pipe
        decreases Remaining(pipe)
      {
        PipeFacts(pipe, codec, workers);
        Unblock();
        PipeFacts(pipe, codec, workers);
      }
      SendOrderedKeeps(pipe, codec, workers, job);
      pipe := SendOrdered(pipe, job);
      Others();
      PipeFacts(pipe, codec, workers);
      while pipe.jobsSent == pipe.jobsTaken + workers
        invariant PipeValid(pipe, codec, workers) && pipe.jobs == old(pipe.jobs) + [job] && pipe.jobsSent + 1 == pipe.orderedSent
        invariant pipe.jobsSent <= pipe.jobsTaken + workers
        modifies this`pipe
        decreases Remaining(pipe)
      {
        PipeFacts(pipe, codec, workers);
        Unblock();
        PipeFacts(pipe, codec, workers);
      }
      SendJobKeeps(pipe, codec, workers);
      pipe := SendJob(pipe);
      chunks := chunks + [chunk];
      window := LastElements(chunk, WINDOW_BYTES);
      chunk := [];
    }

    method Write(data: seq<byte>) returns (written: nat, ok: bool)
      requires Valid() && !closed
      modifies this`pipe, this`chunk, this`window, this`started, this`chunks, this`input
      ensures Valid()
      ensures written <= |data| && input == old(input) + data[..written]
      ensures if ok then written == |data| else pipe.failed
    {
      hide PipeValid, StreamValid, LastElements, Concat, JobsFor, Drained;
      if !started {
        NothingYet(pipe, codec, workers, chunks, chunk, window, closed, input);
      }
      Others();
      written := 0;
      AppendNothing(input, data[..0]);
      if pipe.failed {
        return 0, false;
      }
      while written < |data|
        invariant Valid() && written <= |data| && input == old(input) + data[..written]
      {
        StreamFacts(chunks, chunk, window, started, pipe.jobs, input);
        var count := if |data| - written < CHUNK_BYTES - |chunk| then |data| - written else CHUNK_BYTES - |chunk|;
        ghost var was := chunk;
        chunk := chunk + data[written..written + count];
        Associative(Concat(chunks), was, data[written..written + count]);
        Associative(old(input), data[..written], data[written..written + count]);
        SliceGrows(data, written, count);
        input := input + data[written..written + count];
        written := written + count;
        if |chunk| == CHUNK_BYTES {
          DispatchKeeps(chunks, chunk, window, input, true);
          Dispatch();
          Others();
          if pipe.failed {
            return written, false;
          }
        } else {
          StreamExtends(chunks, was, window, started, pipe.jobs, data[written - count..written], input);
        }
      }
      ok := true;
    }

    /**
     * `accepted` is how much the output takes of what this call writes. The first call succeeds exactly when
     * no goroutine failed and the output took the ending, that is, when the output is complete; with a
     * lossless codec that decodes to exactly the input. A later call only looks at the goroutines.
     */
    method Close(accepted: nat) returns (ok: bool)
      requires Valid()
      modifies this
      ensures closed && Valid() && input == old(input) && started == old(started)
      ensures !started ==> pipe == old(pipe) && chunk == old(chunk)
      ensures old(closed) ==> pipe == old(pipe) && ending == old(ending) && started == old(started) && chunk == old(chunk) && chunks == old(chunks)
      ensures old(closed) ==> (ok <==> !pipe.failed)
      ensures !old(closed) ==> ending == if pipe.failed then [] else FirstElements(Final(), accepted)
      ensures !old(closed) ==> (ok <==> !pipe.failed && ending == Final())
      ensures !old(closed) ==> (ok <==> Complete())
      ensures !old(closed) && ok && Lossless(codec) ==> codec.inflate([], Output()) == input
    {
      hide PipeValid, StreamValid, LastElements, Concat, JobsFor, Streams, Remaining, Lossless, Drained;
      if !started {
        NothingYet(pipe, codec, workers, chunks, chunk, window, closed, input);
      }
      Others();
      if closed {
        return !pipe.failed;
      }
      StreamFacts(chunks, chunk, window, started, pipe.jobs, input);
      ClosedStream(chunks, chunk, window, started, pipe.jobs, input);
      closed := true;
      if !started {
        ok := accepted >= |codec.whole(chunk)|;
        ending := FirstElements(codec.whole(chunk), accepted);
        WholeOutput(pipe, codec, workers, chunk, window, input);
        return;
      }
      if |chunk| > 0 {
        DispatchKeeps(chunks, chunk, window, input, false);
        Dispatch();
      }
      DrainedStream(chunks, window, pipe.jobs, input);
      Drain();
      OutputWithin(pipe, codec, workers);
      if pipe.failed {
        return false;
      }
      DrainedOutput(pipe, codec, workers);
      ok := accepted >= |FINAL_BLOCK|;
      ending := FirstElements(FINAL_BLOCK, accepted);
      if Lossless(codec) {
        InflateOutput(codec, chunks);
      }
    }

    /** Waits for the workers and the writer. */
    method Drain()
      requires PipeValid(pipe, codec, workers) && pipe.jobsSent == pipe.orderedSent
      modifies this`pipe
      ensures PipeValid(pipe, codec, workers) && pipe.jobsSent == pipe.orderedSent
      ensures pipe.jobs == old(pipe.jobs) && Drained(pipe)
    {
      hide PipeValid, Remaining;
      PipeFacts(pipe, codec, workers);
      while Consumed(pipe) < |pipe.jobs|
        invariant PipeValid(pipe, codec, workers) && pipe.jobs == old(pipe.jobs) && pipe.jobsSent == pipe.orderedSent == |pipe.jobs|
        decreases Remaining(pipe)
      {
        Unblock();
        PipeFacts(pipe, codec, workers);
      }
    }

    /** Closing twice: the second answer is wrong exactly when the first call's own write failed and nothing else did. */
    method CloseTwice(accepted: nat, again: nat) returns (first: bool, second: bool)
      requires Valid() && !closed
      modifies this
      ensures Valid() && closed
      ensures first ==> second
      ensures first <==> Complete()
      ensures second && !Complete() <==> !pipe.failed && accepted < |Final()|
    {
      hide PipeValid, StreamValid, JobsFor, Streams, Lossless, Drained;
      first := Close(accepted);
      second := Close(again);
    }
  }

  /** The output takes nothing: the first call says so, the second does not. */
  method FailureThenSuccess(codec: Codec) returns (deflater: ParallelDeflater, first: bool, second: bool)
    requires codec.whole([]) != []
    ensures fresh(deflater) && deflater.Valid() && !first && second && deflater.Output() == []
  {
    hide PipeValid, StreamValid, JobsFor, Streams, Lossless, Drained;
    deflater := new ParallelDeflater(codec, 1);
    first := deflater.Close(0);
    second := deflater.Close(0);
  }

  lemma NothingYet(p: Pipeline, codec: Codec, workers: nat, chunks: seq<seq<byte>>, chunk: seq<byte>, window: seq<byte>, closed: bool, input: seq<byte>)
    requires PipeValid(p, codec, workers) && StreamValid(chunks, chunk, window, false, closed, p.jobs, input)
    ensures Drained(p)
  {
  }

  lemma PipeFacts(p: Pipeline, codec: Codec, workers: nat)
    requires PipeValid(p, codec, workers)
    ensures 0 <= Remaining(p) && Consumed(p) <= |p.jobs| == p.orderedSent
    ensures p.jobsSent <= p.orderedSent <= p.orderedTaken + 2 * workers && p.jobsSent <= p.jobsTaken + workers
    ensures p.orderedSent == p.orderedTaken + 2 * workers && p.jobsSent == p.orderedSent ==> Consumed(p) < p.jobsSent
    ensures p.jobsSent == p.jobsTaken + workers ==> Consumed(p) < p.jobsSent
  {
    RemainingNatural(p, workers);
    hide Placed, Faithful, Remaining;
  }

  lemma SliceGrows(s: seq<byte>, from: nat, count: nat)
    requires from + count <= |s|
    ensures s[..from] + s[from..from + count] == s[..from + count]
  {
  }

  lemma StreamFacts(chunks: seq<seq<byte>>, chunk: seq<byte>, window: seq<byte>, started: bool, jobs: seq<Job>, input: seq<byte>)
    requires StreamValid(chunks, chunk, window, started, false, jobs, input)
    ensures |chunk| < CHUNK_BYTES && window == LastElements(Concat(chunks), WINDOW_BYTES)
    ensures Concat(chunks) + chunk == input && jobs == JobsFor(chunks)
    ensures started <==> chunks != []
  {
  }

  lemma StreamExtends(chunks: seq<seq<byte>>, chunk: seq<byte>, window: seq<byte>, started: bool, jobs: seq<Job>, more: seq<byte>, input: seq<byte>)
    requires StreamValid(chunks, chunk, window, started, false, jobs, Concat(chunks) + chunk)
    requires input == Concat(chunks) + (chunk + more) && |chunk + more| < CHUNK_BYTES
    ensures StreamValid(chunks, chunk + more, window, started, false, jobs, input)
  {
  }

  lemma ClosedStream(chunks: seq<seq<byte>>, chunk: seq<byte>, window: seq<byte>, started: bool, jobs: seq<Job>, input: seq<byte>)
    requires StreamValid(chunks, chunk, window, started, false, jobs, input)
    ensures StreamValid(chunks, chunk, window, started, true, jobs, input)
  {
  }

  /** An entry that never filled a chunk is in the current chunk, and the pipe has written nothing. */
  lemma WholeOutput(p: Pipeline, codec: Codec, workers: nat, chunk: seq<byte>, window: seq<byte>, input: seq<byte>)
    requires PipeValid(p, codec, workers) && StreamValid([], chunk, window, false, true, p.jobs, input)
    ensures p.output == [] && chunk == input
    ensures Lossless(codec) ==> codec.inflate([], codec.whole(chunk)) == chunk
  {
    assert Concat<byte>([]) + chunk == chunk;
    hide Placed;
  }

  /** Once the last chunk is dispatched the chunks are the input. */
  lemma DrainedStream(chunks: seq<seq<byte>>, window: seq<byte>, jobs: seq<Job>, input: seq<byte>)
    requires StreamValid(chunks, [], window, true, true, jobs, input)
    ensures Concat(chunks) == input && jobs == JobsFor(chunks)
  {
    AppendNothing(Concat(chunks), []);
  }

  lemma OutputWithin(p: Pipeline, codec: Codec, workers: nat)
    requires PipeValid(p, codec, workers) && Drained(p)
    ensures p.output <= Streams(codec, p.jobs)
  {
    assert p.jobs[..|p.jobs|] == p.jobs;
    hide Placed, Counters;
  }

  lemma DrainedOutput(p: Pipeline, codec: Codec, workers: nat)
    requires PipeValid(p, codec, workers) && Drained(p) && !p.failed
    ensures p.output == Streams(codec, p.jobs)
  {
    assert p.jobs[..|p.jobs|] == p.jobs;
    hide Placed, Counters;
  }
}

/**
 * partupload/uploader.go: an archive cut into parts that are uploaded in the background while the
 * next part is being filled. Part buffers are recycled, so the model keeps their memory explicit.
 */
module PartUploads {
  import opened Arithmetic
  import opened Bytes
  import opened Cardinality
  import opened Options

  const MIN_PART_BYTES: nat := 5242880
  const MAX_PART_BYTES: nat := 5368709120
  const MAX_PARTS: nat := 10000
  const MAX_CONCURRENCY: nat := 16

  datatype Failure = ArchiveTooLarge | InvalidArchive | EmptyArchive | ArtifactStorageFailed

  const MAX_INT64: int := 0x7FFF_FFFF_FFFF_FFFF
  const TWO_TO_64: int := 0x1_0000_0000_0000_0000

  type Int64 = n: int | -MAX_INT64 - 1 <= n <= MAX_INT64

  /** What is left of a sum of two words. */
  function Wrapped(n: int): Int64
    requires -TWO_TO_64 <= n < TWO_TO_64
  {
    if n > MAX_INT64 then n - TWO_TO_64 else if n < -MAX_INT64 - 1 then n + TWO_TO_64 else n
  }

  /** Division that rounds towards zero. */
  function Truncated(n: int, d: int): int
    requires d > 0
  {
    if n >= 0 then n / d else -(-n / d)
  }

  /** Where the archive goes; only the number of part URLs matters here. */
  datatype Target = Target(partBytes: Int64, concurrency: int, maximumBytes: Int64, partUrls: nat) {
    /** The numeric checks of `Target.Host`, in machine words. */
    predicate Accepted() {
      && MIN_PART_BYTES <= partBytes <= MAX_PART_BYTES
      && 1 <= concurrency <= MAX_CONCURRENCY
      && maximumBytes >= 1
      && 1 <= partUrls <= MAX_PARTS
      && partUrls >= Truncated(Wrapped(maximumBytes + partBytes - 1), partBytes)
    }

    /** The sum in that check is a word, which whoever makes a target can see. */
    predicate Countable() {
      maximumBytes + partBytes - 1 <= MAX_INT64
    }
  }

  /** An accepted target has a URL for every part its maximum allows exactly when the sum in the check did not wrap. */
  lemma AcceptedHasUrlsExactlyWhen(target: Target)
    requires target.Accepted()
    ensures target.partUrls >= PartCount(target.maximumBytes, target.partBytes) <==> target.Countable()
  {
    var d, sum := target.partBytes, target.maximumBytes + target.partBytes - 1;
    if !target.Countable() {
      QuotientBounds(sum, d);
      if sum / d <= MAX_PARTS {
        MultipleMonotone(sum / d, MAX_PARTS, d);
        MultipleMonotone(d, MAX_PART_BYTES, MAX_PARTS);
      }
    }
  }

  /** A target of one URL for any number of bytes: accepted, though its second part has nowhere to go. */
  const WRAPPING := Target(5242880, 1, MAX_INT64, 1)

  lemma WrappingIsAccepted(accepted: seq<byte>, parts: seq<seq<byte>>)
    ensures WRAPPING.Accepted() && !WRAPPING.Countable()
    ensures |accepted| == 5242881 ==> |accepted| <= WRAPPING.maximumBytes
    ensures |accepted| == 5242881 && Cut(parts, accepted, WRAPPING.partBytes) ==> |parts| > WRAPPING.partUrls
  {
    assert Wrapped(MAX_INT64 + 5242880 - 1) < 0;
    if |accepted| == 5242881 {
      QuotientUnique(5242881 + 5242880 - 1, 5242880, 2);
    }
  }

  function PartCount(bytes: nat, partBytes: int): nat
    requires partBytes > 0
  {
    (bytes + partBytes - 1) / partBytes
  }

  predicate ValidSignature(header: seq<byte>) {
    header == [0x50, 0x4b, 3, 4] || header == [0x50, 0x4b, 5, 6]
  }

  /** The stream does not begin as a ZIP archive does. */
  predicate Unsigned(stream: seq<byte>) {
    |stream| >= 4 && stream[..4] != [0x50, 0x4b, 3, 4] && stream[..4] != [0x50, 0x4b, 5, 6]
  }

  /** Why closing a stream that was in order so far failed, if it did. */
  predicate ClosedFor(err: Option<Failure>, accepted: seq<byte>, exhausted: bool, troubled: bool) {
    match err
    case None => true
    case Some(EmptyArchive) => accepted == []
    case Some(InvalidArchive) => 0 < |accepted| < 4
    case Some(ArchiveTooLarge) => exhausted
    case Some(ArtifactStorageFailed) => troubled
  }

  /** Why writing to such a stream failed, if it did; `tooMuch` is for want of bytes or of URLs. */
  predicate WrittenFor(err: Option<Failure>, stream: seq<byte>, tooMuch: bool, troubled: bool) {
    match err
    case None => true
    case Some(EmptyArchive) => false
    case Some(InvalidArchive) => Unsigned(stream)
    case Some(ArchiveTooLarge) => tooMuch
    case Some(ArtifactStorageFailed) => troubled
  }

  /** While bytes are taken only object storage can fail, or the URLs run out. */
  predicate Running(err: Option<Failure>, exhausted: bool) {
    err.None? || err == Some(ArtifactStorageFailed) || (err == Some(ArchiveTooLarge) && exhausted)
  }

  lemma RunningStill(exhausted: bool)
    ensures Running(None, exhausted)
  {
  }

  lemma RestingNow(target: Target, filling: seq<byte>, accepted: seq<byte>, header: seq<byte>)
    requires |filling| < target.partBytes && header == FirstElements(accepted, 4) && (|header| == 4 ==> ValidSignature(header))
    ensures Resting(target, filling, accepted, header)
  {
  }

  lemma HeaderOf(target: Target, filling: seq<byte>, accepted: seq<byte>, header: seq<byte>)
    requires Resting(target, filling, accepted, header)
    ensures |header| == Min(4, |accepted|) && (|header| == 4 ==> |accepted| >= 4 && ValidSignature(accepted[..4]))
  {
  }

  lemma ClosedLater(before: Option<Failure>, err: Option<Failure>, accepted: seq<byte>, exhausted: bool, was: bool, troubled: bool)
    requires err == before || (before.None? && err == Some(ArtifactStorageFailed))
    requires err == Some(ArtifactStorageFailed) ==> troubled
    ensures ClosedFor(before, accepted, exhausted, was) ==> ClosedFor(err, accepted, exhausted, troubled)
  {
  }

  lemma RunningWrites(err: Option<Failure>, stream: seq<byte>, tooMuch: bool, exhausted: bool, troubled: bool)
    requires Running(err, exhausted) && (exhausted ==> tooMuch) && (err == Some(ArtifactStorageFailed) ==> troubled)
    ensures WrittenFor(err, stream, tooMuch, troubled)
  {
  }

  lemma RunningCloses(err: Option<Failure>, accepted: seq<byte>, exhausted: bool, troubled: bool)
    requires Running(err, exhausted) && (err == Some(ArtifactStorageFailed) ==> troubled)
    ensures ClosedFor(err, accepted, exhausted, troubled)
  {
  }

  lemma UnsignedHeader(accepted: seq<byte>, data: seq<byte>, header: seq<byte>)
    requires header == FirstElements(accepted + data, 4) && |header| == 4 && !ValidSignature(header)
    ensures Unsigned(accepted + data)
  {
  }

  lemma SignatureBytes(header: seq<byte>)
    ensures ValidSignature(header) <==> header == [0x50, 0x4b, 3, 4] || header == [0x50, 0x4b, 5, 6]
  {
  }

  /** All parts are full, as long as the stream is open. */
  ghost predicate AllFull(parts: seq<seq<byte>>, partBytes: int) {
    forall i | 0 <= i < |parts| :: |parts[i]| == partBytes
  }

  lemma {:induction false} FullLength(parts: seq<seq<byte>>, partBytes: int)
    requires AllFull(parts, partBytes)
    ensures |Concat(parts)| == |parts| * partBytes
  {
    if parts != [] {
      FullLength(parts[..|parts| - 1], partBytes);
      NextMultiple(|parts|, partBytes);
    }
  }

  /** Full parts and one shorter, non-empty last part make ceil(total / PartBytes) parts. */
  lemma CountOfParts(parts: seq<seq<byte>>, last: seq<byte>, partBytes: int)
    requires partBytes > 0 && AllFull(parts, partBytes) && |last| < partBytes
    ensures var total := |Concat(parts)| + |last|;
            PartCount(total, partBytes) == |parts| + if last == [] then 0 else 1
  {
    FullLength(parts, partBytes);
    var n, r := |parts|, |last|;
    var total := n * partBytes + r;
    if r == 0 {
      QuotientUnique(total + partBytes - 1, partBytes, n);
    } else {
      NextMultiple(n + 1, partBytes);
      QuotientUnique(total + partBytes - 1, partBytes, n + 1);
    }
  }

  /** Each buffer ever made is in exactly one place: waiting, being sent, or being filled. */
  ghost predicate Separate(waiting: seq<nat>, sending: map<nat, nat>, filling: Option<nat>, made: nat) {
    && Distinct(waiting)
    && (forall p, q | p in sending && q in sending && p != q :: sending[p] != sending[q])
    && (forall id | 0 <= id < made :: id in waiting || id in sending.Values || filling == Some(id))
    && (forall id | id in waiting :: id < made && id !in sending.Values && filling != Some(id))
    && (forall p | p in sending :: sending[p] < made && filling != Some(sending[p]))
    && (filling.Some? ==> filling.value < made)
  }

  /** A buffer is only made when none is waiting, so there are never more than concurrency + 1. */
  lemma MakingBuffer(sending: map<nat, nat>, made: nat, concurrency: nat)
    requires Separate([], sending, None, made) && |sending| <= concurrency
    ensures made <= concurrency
  {
    AllSending(sending, made);
    SubsetSize(Below(made), sending.Values);
    BelowSize(made);
    ValuesSize(sending);
  }

  lemma NewBuffer(sending: map<nat, nat>, made: nat)
    requires Separate([], sending, None, made)
    ensures Separate([], sending, Some(made), made + 1) && made !in sending.Values
  {
  }

  lemma AllSending(sending: map<nat, nat>, made: nat)
    requires Separate([], sending, None, made)
    ensures Below(made) <= sending.Values
  {
    forall id | id in Below(made) ensures id in sending.Values {
      assert 0 <= id < made;
    }
  }

  lemma TakingBuffer(waiting: seq<nat>, sending: map<nat, nat>, made: nat)
    requires Separate(waiting, sending, None, made) && waiting != []
    ensures Separate(waiting[1..], sending, Some(waiting[0]), made)
  {
    assert waiting == [waiting[0]] + waiting[1..];
  }

  lemma SendingBuffer(waiting: seq<nat>, sending: map<nat, nat>, filling: nat, made: nat, part: nat)
    requires Separate(waiting, sending, Some(filling), made) && part !in sending
    ensures Separate(waiting, sending[part := filling], None, made)
  {
    var after := sending[part := filling];
    forall id | 0 <= id < made ensures id in waiting || id in after.Values {
      if id in sending.Values {
        var p :| p in sending && sending[p] == id;
        assert after[p] == id;
      } else if id == filling {
        assert after[part] == id;
      }
    }
    forall v | v in after.Values ensures v in sending.Values || v == filling {
    }
  }

  /** Returning a buffer never blocks: fewer than concurrency + 1 are waiting. */
  lemma ReturningBuffer(waiting: seq<nat>, sending: map<nat, nat>, filling: Option<nat>, made: nat, part: nat)
    requires Separate(waiting, sending, filling, made) && part in sending
    ensures |waiting| < made
    ensures Separate(waiting + [sending[part]], sending - {part}, filling, made)
  {
    var ids := set id | id in waiting;
    DistinctSize(waiting);
    SubsetSize(ids + {sending[part]}, Below(made));
    BelowSize(made);
    assert sending[part] in sending.Values;
    var after := sending - {part};
    forall id | 0 <= id < made ensures id in waiting + [sending[part]] || id in after.Values || filling == Some(id) {
      if id in sending.Values && id != sending[part] {
        var p :| p in sending && sending[p] == id;
        assert after[p] == id;
      }
    }
    forall v | v in after.Values ensures v in sending.Values && v != sending[part] {
      var p :| p in after && after[p] == v;
      assert sending[p] == v;
    }
  }

  /** The slots are held by the uploads being sent and by those that still have to give theirs up. */
  ghost predicate PoolValid(concurrency: int, slots: nat, waiting: seq<nat>, sending: map<nat, nat>, releasing: set<nat>,
                            filling: Option<nat>, made: nat)
  {
    && Separate(waiting, sending, filling, made)
    && made <= concurrency + 1
    && slots == |sending| + |releasing| <= concurrency
    && sending.Keys !! releasing
  }

  /** What is in flight or stored for a part is exactly what was submitted as that part. */
  ghost predicate PartsValid(parts: seq<seq<byte>>, etags: seq<string>, memory: map<nat, seq<byte>>, made: nat, sending: map<nat, nat>,
                             answered: set<nat>, releasing: set<nat>, stored: map<nat, seq<byte>>, failed: bool)
  {
    && |etags| == |parts|
    && (forall id | 0 <= id < made :: id in memory)
    && (forall p | p in answered :: p < |parts|)
    && (forall p | p in sending :: p < |parts| && sending[p] in memory)
    && (forall p | p in releasing :: p < |parts|)
    && (forall p | p in sending && p !in answered :: memory[sending[p]] == parts[p])
    && (forall p | p in stored :: p < |parts| && stored[p] == parts[p])
    && (forall p | 0 <= p < |parts| && etags[p] != "" :: p in stored)
    && (forall p | 0 <= p < |parts| && etags[p] == "" :: failed || (p in sending && p !in answered))
  }

  /** The bytes accepted are the submitted parts followed by the part being filled. */
  ghost predicate StreamValid(target: Target, parts: seq<seq<byte>>, filling: seq<byte>, accepted: seq<byte>,
                              written: int, nextPart: nat, closed: bool)
  {
    && Concat(parts) + filling == accepted
    && written == |accepted| <= target.maximumBytes
    && nextPart == |parts| + 1 && |parts| <= target.partUrls
    && (!closed ==> AllFull(parts, target.partBytes))
    && |filling| <= target.partBytes
  }

  /** What the checks of `Write` leave behind when nothing failed. */
  ghost predicate Resting(target: Target, filling: seq<byte>, accepted: seq<byte>, header: seq<byte>) {
    && |filling| < target.partBytes
    && header == FirstElements(accepted, 4)
    && (|header| == 4 ==> ValidSignature(header))
  }

  /** The parts are the stream, cut at every multiple of the part size. */
  ghost predicate Cut(parts: seq<seq<byte>>, accepted: seq<byte>, partBytes: int) {
    && partBytes > 0
    && Concat(parts) == accepted
    && |parts| == PartCount(|accepted|, partBytes)
    && forall p | 0 <= p < |parts| - 1 :: |parts[p]| == partBytes
  }

  /** Every part was stored as submitted and has an etag. */
  ghost predicate Delivered(parts: seq<seq<byte>>, etags: seq<string>, stored: map<nat, seq<byte>>) {
    |etags| == |parts| && forall p | 0 <= p < |parts| :: etags[p] != "" && p in stored && stored[p] == parts[p]
  }

  class Uploader {
    const target: Target
    var slots: nat
    var buffers: seq<nat>
    var etags: seq<string>
    var err: Option<Failure>
    var buffer: Option<nat>
    var header: seq<byte>
    var written: int
    var nextPart: nat
    var closed: bool

    var memory: map<nat, seq<byte>> // what each buffer holds, by buffer
    var made: nat // buffers allocated so far
    var sending: map<nat, nat> // uploads in flight, by part index, with their buffer
    var answered: set<nat> // parts whose upload came to an end
    var releasing: set<nat> // parts that returned their buffer and still hold a slot
    var stored: map<nat, seq<byte>> // what object storage holds, by part index

    ghost var troubled: bool // an upload failed, or the caller gave up
    ghost var parts: seq<seq<byte>>
    ghost var accepted: seq<byte>

    function Filling(): seq<byte>
      reads this
    {
      if buffer.Some? && buffer.value in memory then memory[buffer.value] else []
    }

    ghost predicate Valid()
      reads this
    {
      && target.concurrency >= 1 && target.partBytes >= 1
      && (buffer.Some? ==> buffer.value in memory)
      && PoolValid(target.concurrency, slots, buffers, sending, releasing, buffer, made)
      && PartsValid(parts, etags, memory, made, sending, answered, releasing, stored, err.Some?)
      && StreamValid(target, parts, Filling(), accepted, written, nextPart, closed)
      && (err == Some(ArtifactStorageFailed) ==> troubled)
    }

    /** Valid, and between two writes as long as nothing failed. */
    ghost predicate Ready()
      reads this
    {
      Valid() && (err.None? && !closed ==> Resting(target, Filling(), accepted, header))
    }

    constructor (target: Target)
      requires target.concurrency >= 1 && target.partBytes >= 1 && target.maximumBytes >= 0
      ensures Ready() && accepted == [] && !closed && this.target == target && err == None && parts == []
    {
      this.target := target;
      slots, buffers, etags, err, buffer, header := 0, [], [], None, None, [];
      written, nextPart, closed := 0, 1, false;
      memory, made, sending, answered, releasing, stored := map[], 0, map[], {}, {}, map[];
      parts, accepted, troubled := [], [], false;
    }

    /** An upload comes to an end: object storage has the buffer's bytes, or the uploader fails. */
    method Answer(part: nat)
      requires Valid() && part in sending && part !in answered
      modifies this`stored, this`etags, this`err, this`answered, this`troubled
      ensures Valid() && answered == old(answered) + {part}
      ensures err == old(err) || (old(err).None? && err == Some(ArtifactStorageFailed))
    {
      hide PoolValid, PartsValid, StreamValid;
      var reached: bool, etag: string := *, *;
      AnswerParts(parts, etags, memory, made, sending, answered, releasing, stored, err.Some?, part, etag);
      if reached {
        stored := stored[part := memory[sending[part]]];
      }
      if reached && etag != "" {
        etags := etags[part := etag];
      } else {
        troubled := true;
        Fail(ArtifactStorageFailed);
      }
      answered := answered + {part};
    }

    /** The upload's goroutine gives its buffer back; the channel always has room for it. */
    method ReturnBuffer(part: nat)
      requires Valid() && part in sending && part in answered
      modifies this`buffers, this`sending, this`releasing
      ensures Valid() && |old(buffers)| < target.concurrency + 1
      ensures buffers == old(buffers) + [old(sending)[part]] && sending == old(sending) - {part} && releasing == old(releasing) + {part}
    {
      hide PoolValid, PartsValid, StreamValid;
      ReturnPool(target.concurrency, slots, buffers, sending, releasing, buffer, made, part);
      ReturnParts(parts, etags, memory, made, sending, answered, releasing, stored, err.Some?, part);
      buffers := buffers + [sending[part]];
      sending := sending - {part};
      releasing := releasing + {part};
    }

    method ReleaseSlot(part: nat)
      requires Valid() && part in releasing
      modifies this`slots, this`releasing
      ensures Valid() && slots == old(slots) - 1 && releasing == old(releasing) - {part}
    {
      hide PoolValid, PartsValid, StreamValid;
      ReleasePool(target.concurrency, slots, buffers, sending, releasing, buffer, made, part);
      ReleaseParts(parts, etags, memory, made, sending, answered, releasing, stored, err.Some?, part);
      slots := slots - 1;
      releasing := releasing - {part};
    }

    /** One upload runs to its end and frees its slot. */
    method CompleteOne()
      requires Valid() && slots > 0
      modifies this`stored, this`etags, this`err, this`answered, this`troubled, this`buffers, this`sending, this`releasing, this`slots
      ensures Valid() && slots == old(slots) - 1
      ensures err == old(err) || (old(err).None? && err == Some(ArtifactStorageFailed))
    {
      SlotsUsed(target.concurrency, slots, buffers, sending, releasing, buffer, made);
      hide PoolValid, PartsValid, StreamValid;
      if releasing == {} {
        var part :| part in sending;
        EndUpload(part);
      }
      var part :| part in releasing;
      ReleaseSlot(part);
    }

    method EndUpload(part: nat)
      requires Valid() && part in sending
      modifies this`stored, this`etags, this`err, this`answered, this`troubled, this`buffers, this`sending, this`releasing
      ensures Valid() && part in releasing
      ensures err == old(err) || (old(err).None? && err == Some(ArtifactStorageFailed))
    {
      hide PoolValid, PartsValid, StreamValid;
      if part !in answered {
        Answer(part);
      }
      ReturnBuffer(part);
    }

    /** What the uploads may do whenever the writer is not holding them up. */
    method Background()
      requires Valid()
      modifies this`stored, this`etags, this`err, this`answered, this`troubled, this`buffers, this`sending, this`releasing, this`slots
      ensures Valid() && slots <= old(slots)
      ensures err == old(err) || (old(err).None? && err == Some(ArtifactStorageFailed))
    {
      hide PoolValid, PartsValid, StreamValid;
      var rounds: nat :| true;
      for i := 0 to rounds
        invariant Valid() && slots <= old(slots)
        invariant err == old(err) || (old(err).None? && err == Some(ArtifactStorageFailed))
      {
        var part: nat := *;
        if part in sending {
          if part in answered {
            ReturnBuffer(part);
          } else {
            Answer(part);
          }
        } else if part in releasing {
          ReleaseSlot(part);
        }
      }
    }

    /** Blocks until a slot is free. Only uploads hold slots, and they end, so one becomes free. */
    method AwaitSlot()
      requires Valid()
      modifies this`stored, this`etags, this`err, this`answered, this`troubled, this`buffers, this`sending, this`releasing, this`slots
      ensures Valid() && slots < target.concurrency
      ensures err == old(err) || (old(err).None? && err == Some(ArtifactStorageFailed))
    {
      SlotsUsed(target.concurrency, slots, buffers, sending, releasing, buffer, made);
      hide PoolValid, PartsValid, StreamValid;
      Background();
      if slots == target.concurrency {
        CompleteOne();
      }
    }

    /** `group.Wait`: every upload has ended and returned what it held. */
    method Wait()
      requires Valid()
      modifies this`stored, this`etags, this`err, this`answered, this`troubled, this`buffers, this`sending, this`releasing, this`slots
      ensures Valid() && sending == map[] && releasing == {} && slots == 0
      ensures err == old(err) || (old(err).None? && err == Some(ArtifactStorageFailed))
    {
      hide PoolValid, PartsValid, StreamValid;
      while slots > 0
        invariant Valid()
        invariant err == old(err) || (old(err).None? && err == Some(ArtifactStorageFailed))
      {
        Background();
        if slots > 0 {
          CompleteOne();
        }
      }
      SlotsUsed(target.concurrency, slots, buffers, sending, releasing, buffer, made);
    }

    method TakeBuffer()
      requires Valid() && buffer == None
      modifies this`buffer, this`buffers, this`made, this`memory
      ensures Valid() && buffer.Some? && buffer.value in memory && memory[buffer.value] == []
    {
      hide PoolValid, PartsValid, StreamValid;
      TakePool(target.concurrency, slots, buffers, sending, releasing, made);
      var id := if |buffers| > 0 then buffers[0] else made;
      OtherMemory(parts, etags, memory, made, sending, answered, releasing, stored, err.Some?, id, []);
      MadeMemory(parts, etags, memory[id := []], made, sending, answered, releasing, stored, err.Some?);
      if |buffers| > 0 {
        buffers := buffers[1..];
      } else {
        made := made + 1;
      }
      buffer := Some(id);
      memory := memory[id := []];
    }

    /** Hands the current buffer to a new upload, unless the uploader failed. */
    method Submit() returns (ok: bool)
      requires Valid() && buffer.Some? && |Filling()| > 0
      requires AllFull(parts, target.partBytes) && (!closed ==> |Filling()| == target.partBytes)
      modifies this`stored, this`etags, this`err, this`answered, this`troubled, this`buffers, this`sending, this`releasing, this`slots,
               this`buffer, this`nextPart, this`parts
      ensures Valid()
      ensures if ok then parts == old(parts) + [old(Filling())] && buffer == None else parts == old(parts) && buffer == old(buffer)
      ensures !ok ==> err.Some?
      ensures err == Some(ArchiveTooLarge) && old(err) != err ==> |parts| == target.partUrls
      ensures err == old(err) || (old(err).None? && Running(err, |parts| == target.partUrls))
      ensures ok || (target.Accepted() && target.Countable()) ==> err == old(err) || (old(err).None? && err == Some(ArtifactStorageFailed))
    {
      hide PoolValid, PartsValid, StreamValid, Concat, AllFull;
      EnoughUrls(target, parts, Filling(), accepted, written, nextPart, closed);
      AwaitSlot();
      var cancelled: bool := *; // the caller's context, seen before the free slot
      if cancelled {
        troubled := true;
        Fail(ArtifactStorageFailed);
        FailedParts(parts, etags, memory, made, sending, answered, releasing, stored, false);
        return false;
      }
      if err.Some? {
        return false;
      }
      var part := nextPart;
      WrittenBytes(target, parts, Filling(), accepted, written, nextPart, closed);
      if part > target.partUrls {
        FailedParts(parts, etags, memory, made, sending, answered, releasing, stored, false);
        Fail(ArchiveTooLarge);
        return false;
      }
      Spawn();
      ok := true;
    }

    /** Takes the slot and starts the upload's goroutine for the next part. */
    method Spawn()
      requires Valid() && buffer.Some? && err == None && slots < target.concurrency
      requires nextPart <= target.partUrls && (!closed ==> |Filling()| == target.partBytes)
      modifies this`etags, this`sending, this`slots, this`buffer, this`nextPart, this`parts
      ensures Valid()
      ensures parts == old(parts) + [old(Filling())] && buffer == None
    {
      hide PoolValid, PartsValid, StreamValid, Concat, AllFull;
      SpawnStream(target, parts, Filling(), accepted, written, nextPart, closed);
      SpawnParts(parts, etags, memory, made, sending, answered, releasing, stored, buffer.value);
      SpawnPool(target.concurrency, slots, buffers, sending, releasing, buffer.value, made, |parts|);
      var part, id := nextPart, buffer.value;
      parts := parts + [memory[id]];
      nextPart := nextPart + 1;
      buffer := None;
      etags := etags + [""];
      slots := slots + 1;
      sending := sending[part - 1 := id];
    }

    /** Copies bytes into the current buffer. */
    method Fill(chunk: seq<byte>)
      requires Valid() && buffer.Some? && !closed
      requires |Filling()| + |chunk| <= target.partBytes && written + |chunk| <= target.maximumBytes
      modifies this`memory, this`written, this`accepted
      ensures Valid() && Filling() == old(Filling()) + chunk && accepted == old(accepted) + chunk && written == old(written) + |chunk|
    {
      hide PoolValid, PartsValid, StreamValid, Concat, AllFull;
      var id := buffer.value;
      NotSending(target.concurrency, slots, buffers, sending, releasing, id, made);
      OtherMemory(parts, etags, memory, made, sending, answered, releasing, stored, err.Some?, id, memory[id] + chunk);
      FillStream(target, parts, Filling(), accepted, written, nextPart, chunk);
      memory := memory[id := memory[id] + chunk];
      written := written + |chunk|;
      accepted := accepted + chunk;
    }

    method Write(data: seq<byte>) returns (n: nat, ok: bool)
      requires Ready() && !closed
      modifies this
      ensures Ready() && !closed
      ensures n <= |data| && accepted == old(accepted) + data[..n]
      ensures ok ==> n == |data| && (err.None? || err == Some(ArtifactStorageFailed))
      ensures !ok ==> err.Some?
      ensures old(err).Some? ==> err == old(err) && n == 0
      ensures target.Accepted() && target.Countable() && old(err).None? && |old(accepted)| + |data| <= target.maximumBytes ==> err != Some(ArchiveTooLarge)
      ensures old(err).None? ==>
                WrittenFor(err, old(accepted) + data, |old(accepted)| + |data| > target.maximumBytes || |parts| == target.partUrls, troubled)
    {
      WrittenBytes(target, parts, Filling(), accepted, written, nextPart, closed);
      hide PoolValid, PartsValid, StreamValid, Concat, AllFull, ValidSignature, Unsigned, Running, FirstElements, Resting;
      assert data[..0] == [] && accepted + [] == accepted;
      if err.Some? {
        return 0, false;
      }
      if written + |data| > target.maximumBytes {
        FailedParts(parts, etags, memory, made, sending, answered, releasing, stored, false);
        Fail(ArchiveTooLarge);
        return 0, false;
      }
      n, ok := WriteChecked(data);
    }

    /** The bytes fit under the maximum, and nothing has failed yet. */
    method WriteChecked(data: seq<byte>) returns (n: nat, ok: bool)
      requires Ready() && !closed && err.None? && written + |data| <= target.maximumBytes
      modifies this
      ensures Ready() && !closed
      ensures n <= |data| && accepted == old(accepted) + data[..n]
      ensures ok ==> n == |data| && (err.None? || err == Some(ArtifactStorageFailed))
      ensures !ok ==> err.Some?
      ensures target.Accepted() && target.Countable() ==> err != Some(ArchiveTooLarge)
      ensures WrittenFor(err, old(accepted) + data, |parts| == target.partUrls, troubled)
    {
      hide PoolValid, PartsValid, StreamValid, Concat, AllFull, ValidSignature, Unsigned, Running, FirstElements, Resting;
      assert data[..0] == [] && accepted + [] == accepted;
      var signed := TakeHeader(data);
      if !signed {
        return 0, false;
      }
      n, ok := Accept(data);
      if ok {
        RestingNow(target, Filling(), accepted, header);
      }
      RunningWrites(err, old(accepted) + data, |parts| == target.partUrls, |parts| == target.partUrls, troubled);
    }

    /** Collects the first four bytes and looks whether an archive begins with them. */
    method TakeHeader(data: seq<byte>) returns (signed: bool)
      requires Ready() && !closed && err.None?
      modifies this`header, this`err
      ensures Valid() && |Filling()| < target.partBytes
      ensures signed ==> err.None? && header == FirstElements(accepted + data, 4) && (|header| == 4 ==> ValidSignature(header))
      ensures !signed ==> err == Some(InvalidArchive) && Unsigned(accepted + data)
    {
      hide PoolValid, PartsValid, StreamValid, ValidSignature, Unsigned;
      var before := header;
      if |header| < 4 {
        header := header + data[..Min(|data|, 4 - |header|)];
      }
      HeaderAfter(accepted, data, before, header);
      if |before| < 4 && |header| == 4 && !ValidSignature(header) {
        UnsignedHeader(accepted, data, header);
        FailedParts(parts, etags, memory, made, sending, answered, releasing, stored, false);
        Fail(InvalidArchive);
        return false;
      }
      signed := true;
    }

    /** The loop of `Write`: fills buffers and submits every full one. */
    method Accept(data: seq<byte>) returns (n: nat, ok: bool)
      requires Valid() && !closed && err.None?
      requires |Filling()| < target.partBytes && written + |data| <= target.maximumBytes
      modifies this`stored, this`etags, this`err, this`answered, this`troubled, this`buffers, this`sending, this`releasing, this`slots,
               this`buffer, this`nextPart, this`parts, this`memory, this`made, this`written, this`accepted
      ensures Valid()
      ensures n <= |data| && accepted == old(accepted) + data[..n]
      ensures ok ==> n == |data| && data[..n] == data && |Filling()| < target.partBytes
      ensures ok || (target.Accepted() && target.Countable()) ==> err.None? || err == Some(ArtifactStorageFailed)
      ensures !ok ==> err.Some?
      ensures Running(err, |parts| == target.partUrls)
    {
      hide PoolValid, PartsValid, StreamValid, Concat, AllFull;
      assert data[..0] == [] && accepted + [] == accepted;
      n, ok := 0, true;
      ghost var before := accepted;
      while ok && n < |data|
        invariant n <= |data| && accepted == before + data[..n]
        invariant Valid() && (ok ==> |Filling()| < target.partBytes && written + |data| - n <= target.maximumBytes)
        invariant if ok then err.None? || err == Some(ArtifactStorageFailed) else err.Some? && (target.Accepted() && target.Countable() ==> err == Some(ArtifactStorageFailed))
        invariant Running(err, |parts| == target.partUrls)
        decreases |data| - n, ok
      {
        var count;
        count, ok := AcceptOne(data[n..]);
        NextSlice(before, data, n, count);
        n := n + count;
      }
      assert data[..|data|] == data;
    }

    /** One round of that loop: as much as fits into the current part. */
    method AcceptOne(rest: seq<byte>) returns (count: nat, ok: bool)
      requires Valid() && !closed && (err.None? || err == Some(ArtifactStorageFailed))
      requires |Filling()| < target.partBytes && rest != [] && written + |rest| <= target.maximumBytes
      modifies this`stored, this`etags, this`err, this`answered, this`troubled, this`buffers, this`sending, this`releasing, this`slots,
               this`buffer, this`nextPart, this`parts, this`memory, this`made, this`written, this`accepted
      ensures Valid()
      ensures 0 < count <= |rest| && accepted == old(accepted) + rest[..count] && written == old(written) + count
      ensures ok ==> |Filling()| < target.partBytes && (err.None? || err == Some(ArtifactStorageFailed))
      ensures !ok ==> err.Some? && (target.Accepted() && target.Countable() ==> err == Some(ArtifactStorageFailed))
      ensures Running(err, |parts| == target.partUrls)
    {
      hide PoolValid, PartsValid, StreamValid, Concat, AllFull;
      if buffer == None {
        TakeBuffer();
      }
      count := Min(target.partBytes - |Filling()|, |rest|);
      Fill(rest[..count]);
      Background();
      ok := true;
      if |Filling()| == target.partBytes {
        OpenParts(target, parts, Filling(), accepted, written, nextPart, closed);
        ok := Submit();
      }
    }

    /** What a successful upload amounts to. */
    ghost predicate Complete()
      reads this
    {
      && Cut(parts, accepted, target.partBytes) && |parts| <= target.partUrls
      && Delivered(parts, etags, stored)
      && |accepted| >= 4 && ValidSignature(accepted[..4])
      && sending == map[] && slots == 0
    }

    method Close() returns (ok: bool)
      requires Ready()
      modifies this
      ensures Valid() && closed && accepted == old(accepted)
      ensures ok <==> err.None?
      ensures ok && !old(closed) ==> Complete() && (accepted[..4] == [0x50, 0x4b, 3, 4] || accepted[..4] == [0x50, 0x4b, 5, 6])
      ensures !old(closed) && old(err).None? ==> ClosedFor(err, accepted, |parts| == target.partUrls, troubled)
      ensures old(err).Some? ==> err == old(err)
      ensures target.Accepted() && target.Countable() && old(err).None? ==> err != Some(ArchiveTooLarge)
    {
      hide PoolValid, PartsValid, StreamValid, Cut, Delivered, ValidSignature, ClosedFor;
      if closed {
        return err.None?;
      }
      FinishStream();
      ghost var finished, was := err, troubled;
      Wait();
      WrittenBytes(target, parts, Filling(), accepted, written, nextPart, closed);
      AllAnswered(parts, etags, memory, made, sending, answered, releasing, stored, err.Some?);
      ClosedLater(finished, err, accepted, |parts| == target.partUrls, was, troubled);
      ok := err.None?;
      if ok {
        SignatureBytes(accepted[..4]);
      }
    }

    /** The part of `Close` before it waits: the last part, or the reason why there is nothing to upload. */
    method FinishStream()
      requires Ready() && !closed
      modifies this
      ensures Valid() && closed && accepted == old(accepted)
      ensures err.None? ==> Cut(parts, accepted, target.partBytes) && |accepted| >= 4 && ValidSignature(accepted[..4])
      ensures old(err).None? ==> ClosedFor(err, accepted, |parts| == target.partUrls, troubled)
      ensures old(err).Some? ==> err == old(err)
      ensures target.Accepted() && target.Countable() && old(err).None? ==> err != Some(ArchiveTooLarge)
    {
      WrittenBytes(target, parts, Filling(), accepted, written, nextPart, closed);
      OpenParts(target, parts, Filling(), accepted, written, nextPart, closed);
      CloseStream(target, parts, Filling(), accepted, written, nextPart);
      if err.None? {
        LastPart(target, parts, Filling(), accepted, written, nextPart);
        HeaderOf(target, Filling(), accepted, header);
      }
      hide PoolValid, PartsValid, StreamValid, Cut, ValidSignature, AllFull, Resting, ClosedFor, Running;
      closed := true;
      if err.None? {
        SubmitLast();
      }
    }

    /** Submits what is left of a stream that was in order so far, unless it is no archive. */
    method SubmitLast()
      requires Valid() && closed && err.None? && AllFull(parts, target.partBytes)
      requires |header| == Min(4, |accepted|) && (|header| == 4 ==> |accepted| >= 4 && ValidSignature(accepted[..4])) && written == |accepted|
      requires Cut(if |Filling()| > 0 then parts + [Filling()] else parts, accepted, target.partBytes)
      modifies this
      ensures Valid() && closed && accepted == old(accepted)
      ensures err.None? ==> Cut(parts, accepted, target.partBytes) && |accepted| >= 4 && ValidSignature(accepted[..4])
      ensures ClosedFor(err, accepted, |parts| == target.partUrls, troubled)
      ensures target.Accepted() && target.Countable() ==> err != Some(ArchiveTooLarge)
    {
      hide PoolValid, PartsValid, StreamValid, Cut, ValidSignature, AllFull, Running;
      if written == 0 {
        FailedParts(parts, etags, memory, made, sending, answered, releasing, stored, false);
        Fail(EmptyArchive);
      } else if |header| < 4 {
        FailedParts(parts, etags, memory, made, sending, answered, releasing, stored, false);
        Fail(InvalidArchive);
      } else {
        RunningStill(|parts| == target.partUrls);
        if |Filling()| > 0 {
          var submitted := Submit();
        }
        RunningCloses(err, accepted, |parts| == target.partUrls, troubled);
      }
    }

    /** The parts to complete the upload with, numbered from 1. */
    method Parts() returns (numbered: seq<(nat, string)>)
      requires Valid()
      ensures |numbered| == |etags|
      ensures forall i | 0 <= i < |numbered| :: numbered[i] == (i + 1, etags[i])
    {
      numbered := [];
      for i := 0 to |etags|
        invariant |numbered| == i
        invariant forall j | 0 <= j < i :: numbered[j] == (j + 1, etags[j])
      {
        numbered := numbered + [(i + 1, etags[i])];
      }
    }

    /** The first failure stays. */
    method Fail(failure: Failure)
      modifies this`err
      ensures err == if old(err).None? then Some(failure) else old(err)
    {
      if err.None? {
        err := Some(failure);
      }
    }
  }

  lemma AnswerParts(parts: seq<seq<byte>>, etags: seq<string>, memory: map<nat, seq<byte>>, made: nat, sending: map<nat, nat>,
                    answered: set<nat>, releasing: set<nat>, stored: map<nat, seq<byte>>, failed: bool, part: nat, etag: string)
    requires PartsValid(parts, etags, memory, made, sending, answered, releasing, stored, failed)
    requires part in sending && part !in answered
    ensures part < |etags| == |parts| && sending[part] in memory
    ensures var after := stored[part := memory[sending[part]]];
            && PartsValid(parts, etags, memory, made, sending, answered + {part}, releasing, stored, true)
            && PartsValid(parts, etags, memory, made, sending, answered + {part}, releasing, after, true)
            && (etag != "" ==>
                  PartsValid(parts, etags[part := etag], memory, made, sending, answered + {part}, releasing, after, failed))
  {
  }

  lemma ReturnPool(concurrency: int, slots: nat, waiting: seq<nat>, sending: map<nat, nat>, releasing: set<nat>,
                   filling: Option<nat>, made: nat, part: nat)
    requires PoolValid(concurrency, slots, waiting, sending, releasing, filling, made) && part in sending
    ensures |waiting| < concurrency + 1
    ensures PoolValid(concurrency, slots, waiting + [sending[part]], sending - {part}, releasing + {part}, filling, made)
  {
    ReturningBuffer(waiting, sending, filling, made, part);
    hide Separate;
    assert (sending - {part}).Keys == sending.Keys - {part};
    assert |sending - {part}| == |(sending - {part}).Keys|;
    assert |sending| == |sending.Keys|;
  }

  lemma ReturnParts(parts: seq<seq<byte>>, etags: seq<string>, memory: map<nat, seq<byte>>, made: nat, sending: map<nat, nat>,
                    answered: set<nat>, releasing: set<nat>, stored: map<nat, seq<byte>>, failed: bool, part: nat)
    requires PartsValid(parts, etags, memory, made, sending, answered, releasing, stored, failed)
    requires part in sending && part in answered
    ensures PartsValid(parts, etags, memory, made, sending - {part}, answered, releasing + {part}, stored, failed)
  {
  }

  lemma ReleasePool(concurrency: int, slots: nat, waiting: seq<nat>, sending: map<nat, nat>, releasing: set<nat>,
                    filling: Option<nat>, made: nat, part: nat)
    requires PoolValid(concurrency, slots, waiting, sending, releasing, filling, made) && part in releasing
    ensures slots > 0
    ensures PoolValid(concurrency, slots - 1, waiting, sending, releasing - {part}, filling, made)
  {
  }

  lemma ReleaseParts(parts: seq<seq<byte>>, etags: seq<string>, memory: map<nat, seq<byte>>, made: nat, sending: map<nat, nat>,
                     answered: set<nat>, releasing: set<nat>, stored: map<nat, seq<byte>>, failed: bool, part: nat)
    requires PartsValid(parts, etags, memory, made, sending, answered, releasing, stored, failed)
    ensures PartsValid(parts, etags, memory, made, sending, answered, releasing - {part}, stored, failed)
  {
  }

  lemma SlotsUsed(concurrency: int, slots: nat, waiting: seq<nat>, sending: map<nat, nat>, releasing: set<nat>,
                  filling: Option<nat>, made: nat)
    requires PoolValid(concurrency, slots, waiting, sending, releasing, filling, made)
    ensures slots <= concurrency
    ensures slots == 0 ==> sending == map[] && releasing == {}
    ensures slots > 0 && releasing == {} ==> exists part :: part in sending
  {
    hide Separate;
    if slots > 0 && releasing == {} {
      assert sending.Keys != {};
      var part :| part in sending.Keys;
    }
  }

  lemma TakePool(concurrency: int, slots: nat, waiting: seq<nat>, sending: map<nat, nat>, releasing: set<nat>, made: nat)
    requires PoolValid(concurrency, slots, waiting, sending, releasing, None, made)
    ensures if |waiting| > 0
            then && PoolValid(concurrency, slots, waiting[1..], sending, releasing, Some(waiting[0]), made)
                 && waiting[0] < made && waiting[0] !in sending.Values
            else && PoolValid(concurrency, slots, waiting, sending, releasing, Some(made), made + 1)
                 && made !in sending.Values
  {
    if |waiting| > 0 {
      TakingBuffer(waiting, sending, made);
      assert waiting[0] in waiting;
    } else {
      assert waiting == [];
      MakingBuffer(sending, made, concurrency);
      NewBuffer(sending, made);
    }
  }

  /** Writing into a buffer that is not being sent changes nothing about the parts. */
  lemma OtherMemory(parts: seq<seq<byte>>, etags: seq<string>, memory: map<nat, seq<byte>>, made: nat, sending: map<nat, nat>,
                    answered: set<nat>, releasing: set<nat>, stored: map<nat, seq<byte>>, failed: bool, id: nat, data: seq<byte>)
    requires PartsValid(parts, etags, memory, made, sending, answered, releasing, stored, failed)
    requires id !in sending.Values
    ensures PartsValid(parts, etags, memory[id := data], made, sending, answered, releasing, stored, failed)
  {
    forall p | p in sending ensures sending[p] != id {
      assert sending[p] in sending.Values;
    }
  }

  lemma FailedParts(parts: seq<seq<byte>>, etags: seq<string>, memory: map<nat, seq<byte>>, made: nat, sending: map<nat, nat>,
                    answered: set<nat>, releasing: set<nat>, stored: map<nat, seq<byte>>, failed: bool)
    ensures PartsValid(parts, etags, memory, made, sending, answered, releasing, stored, failed) ==>
            PartsValid(parts, etags, memory, made, sending, answered, releasing, stored, true)
  {
  }

  /** A validated target whose sum is a word has a URL left for every part that still fits under the maximum. */
  lemma EnoughUrls(target: Target, parts: seq<seq<byte>>, filling: seq<byte>, accepted: seq<byte>,
                   written: int, nextPart: nat, closed: bool)
    requires StreamValid(target, parts, filling, accepted, written, nextPart, closed)
    requires AllFull(parts, target.partBytes) && |filling| > 0
    ensures target.Accepted() && target.Countable() ==> nextPart <= target.partUrls
  {
    if target.Accepted() && target.Countable() {
      FullLength(parts, target.partBytes);
      var d, n := target.partBytes, |parts|;
      QuotientBounds(target.maximumBytes + d - 1, d);
      var q := (target.maximumBytes + d - 1) / d;
      if q <= n {
        MultipleMonotone(q, n, d);
      }
    }
  }

  lemma SpawnPool(concurrency: int, slots: nat, waiting: seq<nat>, sending: map<nat, nat>, releasing: set<nat>, filling: nat,
                  made: nat, part: nat)
    requires PoolValid(concurrency, slots, waiting, sending, releasing, Some(filling), made) && slots < concurrency
    requires part !in sending && part !in releasing
    ensures PoolValid(concurrency, slots + 1, waiting, sending[part := filling], releasing, None, made)
  {
    SendingBuffer(waiting, sending, filling, made, part);
    hide Separate;
    assert sending[part := filling].Keys == sending.Keys + {part};
    assert |sending[part := filling].Keys| == |sending.Keys| + 1;
    assert |sending.Keys| == |sending| && |sending[part := filling].Keys| == |sending[part := filling]|;
  }

  lemma SpawnParts(parts: seq<seq<byte>>, etags: seq<string>, memory: map<nat, seq<byte>>, made: nat, sending: map<nat, nat>,
                   answered: set<nat>, releasing: set<nat>, stored: map<nat, seq<byte>>, filling: nat)
    requires PartsValid(parts, etags, memory, made, sending, answered, releasing, stored, false)
    requires filling in memory
    ensures |parts| !in answered && |parts| !in sending && |parts| !in releasing
    ensures PartsValid(parts + [memory[filling]], etags + [""], memory, made, sending[|parts| := filling], answered, releasing, stored, false)
  {
  }

  lemma SpawnStream(target: Target, parts: seq<seq<byte>>, filling: seq<byte>, accepted: seq<byte>,
                    written: int, nextPart: nat, closed: bool)
    requires StreamValid(target, parts, filling, accepted, written, nextPart, closed)
    requires nextPart <= target.partUrls && (!closed ==> |filling| == target.partBytes)
    ensures StreamValid(target, parts + [filling], [], accepted, written, nextPart + 1, closed) && nextPart == |parts| + 1
  {
    ConcatAppend(parts, filling);
  }

  lemma NotSending(concurrency: int, slots: nat, waiting: seq<nat>, sending: map<nat, nat>, releasing: set<nat>,
                   filling: nat, made: nat)
    requires PoolValid(concurrency, slots, waiting, sending, releasing, Some(filling), made)
    ensures filling !in sending.Values
  {
  }

  lemma FillStream(target: Target, parts: seq<seq<byte>>, filling: seq<byte>, accepted: seq<byte>,
                   written: int, nextPart: nat, chunk: seq<byte>)
    requires StreamValid(target, parts, filling, accepted, written, nextPart, false)
    requires |filling| + |chunk| <= target.partBytes && written + |chunk| <= target.maximumBytes
    ensures StreamValid(target, parts, filling + chunk, accepted + chunk, written + |chunk|, nextPart, false)
  {
    Associative(Concat(parts), filling, chunk);
  }

  /** The first four bytes of the stream are collected exactly once. */
  lemma HeaderAfter(accepted: seq<byte>, data: seq<byte>, before: seq<byte>, after: seq<byte>)
    requires before == FirstElements(accepted, 4)
    requires after == if |before| < 4 then before + data[..Min(|data|, 4 - |before|)] else before
    ensures after == FirstElements(accepted + data, 4)
  {
    FirstElementsAppend(accepted, data, 4);
    SliceNothing(before, data);
  }

  lemma NextSlice(before: seq<byte>, data: seq<byte>, n: nat, count: nat)
    requires n + count <= |data|
    ensures before + data[..n] + data[n..][..count] == before + data[..n + count]
  {
    assert data[..n] + data[n..][..count] == data[..n + count];
  }

  lemma OpenParts(target: Target, parts: seq<seq<byte>>, filling: seq<byte>, accepted: seq<byte>,
                  written: int, nextPart: nat, closed: bool)
    requires StreamValid(target, parts, filling, accepted, written, nextPart, closed) && !closed
    ensures AllFull(parts, target.partBytes)
  {
  }

  lemma WrittenBytes(target: Target, parts: seq<seq<byte>>, filling: seq<byte>, accepted: seq<byte>,
                     written: int, nextPart: nat, closed: bool)
    requires StreamValid(target, parts, filling, accepted, written, nextPart, closed)
    ensures written == |accepted| && nextPart == |parts| + 1 && |parts| <= target.partUrls
  {
  }

  lemma MadeMemory(parts: seq<seq<byte>>, etags: seq<string>, memory: map<nat, seq<byte>>, made: nat, sending: map<nat, nat>,
                   answered: set<nat>, releasing: set<nat>, stored: map<nat, seq<byte>>, failed: bool)
    requires PartsValid(parts, etags, memory, made, sending, answered, releasing, stored, failed)
    ensures made in memory ==> PartsValid(parts, etags, memory, made + 1, sending, answered, releasing, stored, failed)
  {
  }

  lemma CloseStream(target: Target, parts: seq<seq<byte>>, filling: seq<byte>, accepted: seq<byte>, written: int, nextPart: nat)
    requires StreamValid(target, parts, filling, accepted, written, nextPart, false)
    ensures StreamValid(target, parts, filling, accepted, written, nextPart, true)
  {
  }

  /** What the parts will be once the last one was submitted. */
  lemma LastPart(target: Target, parts: seq<seq<byte>>, filling: seq<byte>, accepted: seq<byte>, written: int, nextPart: nat)
    requires StreamValid(target, parts, filling, accepted, written, nextPart, false)
    requires target.partBytes >= 1 && |filling| < target.partBytes
    ensures Cut(if |filling| > 0 then parts + [filling] else parts, accepted, target.partBytes)
  {
    CountOfParts(parts, filling, target.partBytes);
    if |filling| > 0 {
      ConcatAppend(parts, filling);
    } else {
      AppendNothing(Concat(parts), filling);
    }
  }

  /** With no upload left and no failure every part has its etag and is stored as submitted. */
  lemma AllAnswered(parts: seq<seq<byte>>, etags: seq<string>, memory: map<nat, seq<byte>>, made: nat, sending: map<nat, nat>,
                    answered: set<nat>, releasing: set<nat>, stored: map<nat, seq<byte>>, failed: bool)
    requires PartsValid(parts, etags, memory, made, sending, answered, releasing, stored, failed) && sending == map[]
    ensures !failed ==> Delivered(parts, etags, stored)
  {
  }

  /** An archive of one part and one byte, well within the maximum of the accepted target, never gets through. */
  method WrappingFails(data: seq<byte>) returns (uploader: Uploader, ok: bool)
    requires |data| == 5242881
    ensures uploader.target == WRAPPING && WRAPPING.Accepted() && |data| <= WRAPPING.maximumBytes
    ensures !ok && uploader.err.Some?
  {
    hide PoolValid, PartsValid, StreamValid, Cut, Delivered, ValidSignature, Resting;
    WrappingIsAccepted(data, []);
    uploader := new Uploader(WRAPPING);
    var n, wrote := uploader.Write(data);
    assert [] + data[..n] == data[..n];
    assert wrote ==> data[..n] == data;
    ok := uploader.Close();
    if ok {
      WrappingIsAccepted(data, uploader.parts);
    }
  }
}

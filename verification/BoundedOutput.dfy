/**
 * restic/runner.go `boundedOutput`: what a command printed, kept within a byte limit. With a tail
 * limit it keeps the beginning and the end of the stream; without one it keeps whole writes until
 * the first that does not fit.
 */
module BoundedOutputs {
  import opened Bytes

  /** The fields of the writer, as one value. */
  datatype Retention = Retention(data: seq<byte>, tail: seq<byte>, dropped: int, overflow: bool)

  /** How much of the beginning is kept; nothing when the tail takes the whole limit. */
  function PrefixLimit(limit: int, tailLimit: int): nat {
    Max(0, limit - tailLimit)
  }

  /** What must be held after `stream`, in tail mode: it does not know about writes. */
  function HeadAndTail(limit: int, tailLimit: nat, stream: seq<byte>): Retention {
    var head := FirstElements(stream, PrefixLimit(limit, tailLimit));
    var tail := LastElements(After(stream, PrefixLimit(limit, tailLimit)), tailLimit);
    var dropped := |stream| - |head| - |tail|;
    Retention(head, tail, dropped, dropped > 0)
  }

  /** Index of the first write that does not fit behind the ones before it. */
  function FirstOverflow(limit: int, writes: seq<seq<byte>>): (k: nat)
    ensures k <= |writes|
    ensures k < |writes| ==> |Concat(writes[..k])| + |writes[k]| > limit
    ensures forall i | 0 <= i < k :: |Concat(writes[..i])| + |writes[i]| <= limit
  {
    if writes == [] then 0
    else
      var before := writes[..|writes| - 1];
      var k := FirstOverflow(limit, before);
      assert forall i | 0 <= i <= |before| :: before[..i] == writes[..i];
      if k < |before| then k
      else if |Concat(before)| + |writes[|before|]| > limit then |before|
      else |writes|
  }

  /** Bytes counted as dropped, without a tail: only writes too long to fit behind `kept` bytes. */
  function CountedDropped(limit: int, kept: nat, writes: seq<seq<byte>>): nat {
    if writes == [] then 0
    else
      var last := writes[|writes| - 1];
      CountedDropped(limit, kept, writes[..|writes| - 1]) + if kept + |last| > limit then |last| else 0
  }

  /** What must be held after `writes` when there is no tail. */
  function LeadingWrites(limit: int, writes: seq<seq<byte>>): Retention {
    var k := FirstOverflow(limit, writes);
    var data := Concat(writes[..k]);
    Retention(data, [], CountedDropped(limit, |data|, writes[k..]), k < |writes|)
  }

  /** One more write, in tail mode: it fills the head first and then pushes through the tail. */
  lemma HeadAndTailExtends(limit: int, tailLimit: nat, stream: seq<byte>, p: seq<byte>)
    ensures var before, after := HeadAndTail(limit, tailLimit, stream), HeadAndTail(limit, tailLimit, stream + p);
            var count := Min(|p|, PrefixLimit(limit, tailLimit) - |before.data|);
            && 0 <= count
            && after.data == before.data + p[..count]
            && after.tail == LastElements(before.tail + p[count..], tailLimit)
            && (count == |p| ==> after.tail == before.tail)
            && after.dropped == before.dropped + Max(0, |before.tail| + |p| - count - tailLimit)
  {
    var n := PrefixLimit(limit, tailLimit);
    FirstElementsAppend(stream, p, n);
    var pushed := p[Min(|p|, n - |FirstElements(stream, n)|)..];
    LastElementsExtend(After(stream, n), pushed, tailLimit);
    if pushed == [] {
      AppendNothing(After(stream, n), pushed);
    }
  }

  lemma {:induction false} FirstOverflowExtends(limit: int, writes: seq<seq<byte>>, p: seq<byte>)
    ensures var k := FirstOverflow(limit, writes);
            FirstOverflow(limit, writes + [p]) ==
            if k < |writes| then k else if |Concat(writes)| + |p| > limit then k else k + 1
  {
    assert (writes + [p])[..|writes|] == writes;
  }

  lemma LeadingWritesExtends(limit: int, writes: seq<seq<byte>>, p: seq<byte>)
    ensures var old' := LeadingWrites(limit, writes);
            LeadingWrites(limit, writes + [p]) ==
            if |old'.data| + |p| > limit then old'.(dropped := old'.dropped + |p|, overflow := true)
            else if old'.overflow then old'
            else old'.(data := old'.data + p)
  {
    hide Concat, CountedDropped, FirstOverflow;
    FirstOverflowExtends(limit, writes, p);
    var k := FirstOverflow(limit, writes);
    SliceAppend(writes, p, k);
    if k == |writes| {
      SliceNothing(writes, writes);
      assert writes[..k] == writes;
      SliceNothing(writes + [p], writes + [p]);
      assert (writes + [p])[..k + 1] == writes + [p];
      ConcatAppend(writes, p);
      CountedDroppedAppend(limit, |Concat(writes + [p])|, [], p);
    }
    CountedDroppedAppend(limit, |Concat(writes[..k])|, writes[k..], p);
  }

  lemma CountedDroppedAppend(limit: int, kept: nat, writes: seq<seq<byte>>, p: seq<byte>)
    ensures CountedDropped(limit, kept, []) == 0
    ensures CountedDropped(limit, kept, writes + [p]) ==
            CountedDropped(limit, kept, writes) + if kept + |p| > limit then |p| else 0
  {
    assert (writes + [p])[..|writes|] == writes;
  }

  lemma HeadFits(limit: int, tailLimit: nat, stream: seq<byte>)
    ensures var r := HeadAndTail(limit, tailLimit, stream);
            |r.data| <= PrefixLimit(limit, tailLimit) && |r.tail| <= tailLimit && (r.overflow <==> r.dropped > 0) && r.dropped >= 0
            && (|r.data| < PrefixLimit(limit, tailLimit) ==> r.tail == [])
  {
  }

  lemma NoWrites(limit: int)
    ensures LeadingWrites(limit, []) == Retention([], [], 0, false) && Concat<byte>([]) == []
  {
  }

  lemma NoStream(limit: int, tailLimit: nat)
    ensures HeadAndTail(limit, tailLimit, []) == Retention([], [], 0, false)
  {
  }

  class BoundedOutput {
    const limit: int
    const tailLimit: int
    const cancels: bool // whether a cancel function was given
    var data: seq<byte>
    var tail: seq<byte>
    var dropped: int
    var overflow: bool
    var cancelled: bool
    ghost var writes: seq<seq<byte>>

    ghost function View(): Retention
      reads this
    {
      Retention(data, tail, dropped, overflow)
    }

    /** The fields say exactly what the specification says about the writes so far. */
    ghost predicate Valid()
      reads this
    {
      View() == if tailLimit > 0 then HeadAndTail(limit, tailLimit, Concat(writes)) else LeadingWrites(limit, writes)
    }

    constructor (limit: int, tailLimit: int, cancels: bool)
      ensures Valid() && writes == []
      ensures this.limit == limit && this.tailLimit == tailLimit && this.cancels == cancels && !cancelled
    {
      hide HeadAndTail, LeadingWrites, Concat;
      NoWrites(limit);
      if tailLimit > 0 {
        NoStream(limit, tailLimit);
      }
      this.limit, this.tailLimit, this.cancels := limit, tailLimit, cancels;
      data, tail, dropped, overflow, cancelled := [], [], 0, false, false;
      writes := [];
    }

    method Write(p: seq<byte>) returns (n: int)
      requires Valid()
      modifies this
      ensures Valid() && writes == old(writes) + [p] && n == |p|
      ensures cancelled <==> old(cancelled) || (cancels && tailLimit <= 0 && |old(data)| + |p| > limit)
    {
      hide HeadAndTail, LeadingWrites, Concat;
      ConcatAppend(writes, p);
      if tailLimit > 0 {
        HeadFits(limit, tailLimit, Concat(writes));
        HeadFits(limit, tailLimit, Concat(writes) + p);
        HeadAndTailExtends(limit, tailLimit, Concat(writes), p);
      } else {
        LeadingWritesExtends(limit, writes, p);
      }
      writes := writes + [p];
      if tailLimit > 0 {
        var prefixLimit := limit - tailLimit;
        var remaining := p;
        if |data| < prefixLimit {
          var count := Min(|remaining|, prefixLimit - |data|);
          data := data + remaining[..count];
          remaining := remaining[count..];
        } else {
          SliceNothing(data, p);
        }
        if |remaining| > 0 {
          tail := tail + remaining;
          if |tail| > tailLimit {
            var discard := |tail| - tailLimit;
            tail := tail[discard..];
            dropped := dropped + discard;
            overflow := true;
          }
        }
        return |p|;
      }
      if |data| + |p| > limit {
        overflow := true;
        dropped := dropped + |p|;
        if cancels {
          cancelled := true;
        }
        return |p|;
      }
      if !overflow {
        data := data + p;
      }
      return |p|;
    }

    method String() returns (s: seq<byte>)
      requires Valid()
      ensures tailLimit > 0 ==> s == HeadAndTail(limit, tailLimit, Concat(writes)).data + HeadAndTail(limit, tailLimit, Concat(writes)).tail
      ensures tailLimit <= 0 ==> s == Concat(writes[..FirstOverflow(limit, writes)])
    {
      s := data + tail;
    }
  }

  /**
   * In tail mode the retained and the dropped bytes make up the stream, nothing beyond the limit is
   * held, and what is held is a beginning and an end of the stream.
   */
  lemma TailModeConserves(limit: int, tailLimit: nat, stream: seq<byte>)
    requires tailLimit > 0
    ensures var r := HeadAndTail(limit, tailLimit, stream);
            && |r.data| + |r.tail| + r.dropped == |stream| && r.dropped >= 0
            && |r.data| + |r.tail| <= Max(limit, tailLimit)
            && r.data <= stream
            && stream[|stream| - |r.tail|..] == r.tail
            && (r.overflow <==> |stream| > Max(limit, tailLimit))
            && (!r.overflow ==> r.data + r.tail == stream)
  {
    var r := HeadAndTail(limit, tailLimit, stream);
    var rest := After(stream, PrefixLimit(limit, tailLimit));
    assert stream == r.data + rest;
    assert rest == rest[..|rest| - |r.tail|] + r.tail;
    assert stream == (r.data + rest[..|rest| - |r.tail|]) + r.tail;
  }

  /** Counted bytes never exceed the writes, and match them exactly when every one is counted. */
  lemma {:induction false} CountedDroppedBounds(limit: int, kept: nat, writes: seq<seq<byte>>)
    ensures CountedDropped(limit, kept, writes) <= |Concat(writes)|
    ensures CountedDropped(limit, kept, writes) == |Concat(writes)| <==>
            forall i | 0 <= i < |writes| :: writes[i] == [] || kept + |writes[i]| > limit
  {
    if writes != [] {
      var before, last := writes[..|writes| - 1], writes[|writes| - 1];
      CountedDroppedBounds(limit, kept, before);
      assert forall i | 0 <= i < |before| :: before[i] == writes[i];
      if CountedDropped(limit, kept, before) == |Concat(before)| && (last == [] || kept + |last| > limit) {
        assert forall i | 0 <= i < |writes| :: i < |before| ==> writes[i] == before[i];
      }
    }
  }

  /**
   * Without a tail, retained + dropped = total exactly when no later non-empty write would still
   * fit: such a write is neither kept nor counted.
   */
  lemma UntailedConservesExactlyWhen(limit: int, writes: seq<seq<byte>>)
    ensures var r, k := LeadingWrites(limit, writes), FirstOverflow(limit, writes);
            |r.data| + r.dropped == |Concat(writes)| <==>
            forall i | k <= i < |writes| :: writes[i] == [] || |r.data| + |writes[i]| > limit
  {
    hide CountedDropped, Concat, FirstOverflow;
    var r, k := LeadingWrites(limit, writes), FirstOverflow(limit, writes);
    var rest := writes[k..];
    assert writes == writes[..k] + rest;
    ConcatSplit(writes[..k], rest);
    CountedDroppedBounds(limit, |r.data|, rest);
  }

  /** Without a tail the result depends on how the stream is cut into writes. */
  lemma UntailedDependsOnWrites(limit: int, x: byte)
    requires limit > 0
    ensures var long := seq(limit + 1, _ => x);
            var a, b := [long, [x]], [[x], long];
            && Concat(a) == Concat(b)
            && LeadingWrites(limit, a) == Retention([], [], limit + 1, true)
            && LeadingWrites(limit, b) == Retention([x], [], limit + 1, true)
  {
    var long := seq(limit + 1, _ => x);
    assert LeadingWrites(limit, []) == Retention([], [], 0, false);
    LeadingWritesOfTwo(limit, long, [x]);
    LeadingWritesOfTwo(limit, [x], long);
    assert long + [x] == [x] + long;
  }

  /** However the stream is cut into writes, the same of it is kept. */
  ghost predicate CuttingIsIrrelevant(limit: int, stream: seq<byte>) {
    forall a: seq<seq<byte>>, b: seq<seq<byte>> | Concat(a) == stream && Concat(b) == stream ::
      LeadingWrites(limit, a).data == LeadingWrites(limit, b).data
  }

  /** Without a tail the cutting does not matter exactly when nothing fits anyway or all of the stream does. */
  lemma UntailedIgnoresCuttingExactlyWhen(limit: int, stream: seq<byte>)
    ensures CuttingIsIrrelevant(limit, stream) <==> limit <= 0 || |stream| <= limit
  {
    hide LeadingWrites, Concat;
    if limit <= 0 || |stream| <= limit {
      forall a: seq<seq<byte>> | Concat(a) == stream
        ensures LeadingWrites(limit, a).data == if limit <= 0 then [] else stream
      {
        if limit <= 0 {
          NothingFits(limit, a);
        } else {
          AllFits(limit, a);
        }
      }
    } else {
      var first, rest := stream[..1], stream[1..];
      assert first + rest == stream;
      LeadingWritesOfTwo(limit, first, rest);
      NoWrites(limit);
      LeadingWritesExtends(limit, [], stream);
      ConcatAppend([], stream);
      assert [] + [stream] == [stream] && [] + stream == stream;
      assert LeadingWrites(limit, [first, rest]).data != LeadingWrites(limit, [stream]).data;
    }
  }

  /** With no room at all nothing is kept. */
  lemma NothingFits(limit: int, writes: seq<seq<byte>>)
    requires limit <= 0
    ensures LeadingWrites(limit, writes).data == []
  {
    hide CountedDropped, FirstOverflow, Concat;
    var k := FirstOverflow(limit, writes);
    if k > 0 {
      assert writes[..k] == writes[..k - 1] + [writes[k - 1]];
      ConcatAppend(writes[..k - 1], writes[k - 1]);
    } else {
      NoWrites(limit);
      assert writes[..k] == [];
    }
  }

  /** With room for the whole stream all of it is kept. */
  lemma AllFits(limit: int, writes: seq<seq<byte>>)
    requires |Concat(writes)| <= limit
    ensures LeadingWrites(limit, writes).data == Concat(writes)
  {
    hide CountedDropped, FirstOverflow, Concat;
    var k := FirstOverflow(limit, writes);
    if k < |writes| {
      assert writes[..k + 1] == writes[..k] + [writes[k]];
      ConcatAppend(writes[..k], writes[k]);
      assert writes == writes[..k + 1] + writes[k + 1..];
      ConcatSplit(writes[..k + 1], writes[k + 1..]);
    } else {
      assert writes[..k] == writes;
    }
  }

  lemma LeadingWritesOfTwo(limit: int, first: seq<byte>, second: seq<byte>)
    requires |first| > 0 && |second| > 0
    ensures Concat([first, second]) == first + second
    ensures LeadingWrites(limit, [first, second]) ==
            if |first| > limit
            then Retention([], [], |first| + if |second| > limit then |second| else 0, true)
            else if |first| + |second| > limit then Retention(first, [], |second|, true)
            else Retention(first + second, [], 0, false)
  {
    NoWrites(limit);
    hide LeadingWrites, Concat;
    assert [] + [first] == [first] && [first] + [second] == [first, second] && [] + first == first;
    LeadingWritesExtends(limit, [], first);
    ConcatAppend([], first);
    LeadingWritesExtends(limit, [first], second);
    ConcatAppend([first], second);
  }
}

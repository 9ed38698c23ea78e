/**
 * restic/progress.go `progressOutput.Write`: hands every line of at most 64 KiB to the reporter,
 * however the command's output is cut into writes.
 */
module ProgressOutputs {
  import opened Bytes

  const NEWLINE: byte := 10
  const MAXIMUM_LINE: nat := 65536

  /** The newline-terminated lines of a stream, without their newline. */
  function Lines(s: seq<byte>): seq<seq<byte>> {
    if s == [] then []
    else
      var init, last := s[..|s| - 1], s[|s| - 1];
      if last == NEWLINE then Lines(init) + [Unfinished(init)] else Lines(init)
  }

  /** What follows the last newline. */
  function Unfinished(s: seq<byte>): seq<byte> {
    if s == [] then []
    else
      var init, last := s[..|s| - 1], s[|s| - 1];
      if last == NEWLINE then [] else Unfinished(init) + [last]
  }

  function Short(lines: seq<seq<byte>>): seq<seq<byte>> {
    if lines == [] then []
    else
      var init, last := lines[..|lines| - 1], lines[|lines| - 1];
      if |last| <= MAXIMUM_LINE then Short(init) + [last] else Short(init)
  }

  /** The lines the reporter must have been given after `stream`. */
  function Reported(stream: seq<byte>): seq<seq<byte>> {
    Short(Lines(stream))
  }

  function Join(lines: seq<seq<byte>>): seq<byte> {
    if lines == [] then [] else Join(lines[..|lines| - 1]) + lines[|lines| - 1] + [NEWLINE]
  }

  /** `Lines` and `Unfinished` cut the stream at its newlines and lose nothing. */
  lemma {:induction false} LinesPartition(s: seq<byte>)
    ensures Join(Lines(s)) + Unfinished(s) == s
    ensures forall line | line in Lines(s) :: NEWLINE !in line
    ensures NEWLINE !in Unfinished(s)
  {
    if s != [] {
      var init, last := s[..|s| - 1], s[|s| - 1];
      LinesPartition(init);
      assert s == init + [last];
      if last == NEWLINE {
        var lines := Lines(init) + [Unfinished(init)];
        assert lines[..|lines| - 1] == Lines(init);
        assert Join(lines) == Join(Lines(init)) + Unfinished(init) + [NEWLINE];
      } else {
        assert Join(Lines(init)) + (Unfinished(init) + [last]) == (Join(Lines(init)) + Unfinished(init)) + [last];
      }
    }
  }

  /** The reported lines are the short ones among the lines, and only those. */
  lemma {:induction false} ShortKeeps(lines: seq<seq<byte>>, line: seq<byte>)
    ensures multiset(Short(lines))[line] == if |line| <= MAXIMUM_LINE then multiset(lines)[line] else 0
  {
    if lines != [] {
      ShortKeeps(lines[..|lines| - 1], line);
      assert lines == lines[..|lines| - 1] + [lines[|lines| - 1]];
    }
  }

  lemma {:induction false} AppendPiece(s: seq<byte>, piece: seq<byte>)
    requires NEWLINE !in piece
    ensures Lines(s + piece) == Lines(s)
    ensures Unfinished(s + piece) == Unfinished(s) + piece
  {
    if piece == [] {
      assert s + piece == s && Unfinished(s) + piece == Unfinished(s);
    } else {
      var init, last := piece[..|piece| - 1], piece[|piece| - 1];
      AppendPiece(s, init);
      assert (s + piece)[..|s + piece| - 1] == s + init;
      assert Unfinished(s) + init + [last] == Unfinished(s) + piece;
    }
  }

  lemma AppendNewline(s: seq<byte>)
    ensures Lines(s + [NEWLINE]) == Lines(s) + [Unfinished(s)]
    ensures Unfinished(s + [NEWLINE]) == []
    ensures Reported(s + [NEWLINE]) ==
            if |Unfinished(s)| <= MAXIMUM_LINE then Reported(s) + [Unfinished(s)] else Reported(s)
  {
    assert (s + [NEWLINE])[..|s|] == s;
    var lines := Lines(s) + [Unfinished(s)];
    assert lines[..|lines| - 1] == Lines(s);
  }

  /** Position of the first newline, or -1. */
  function IndexByte(data: seq<byte>, b: byte): (end: int)
    ensures -1 <= end < |data|
    ensures end < 0 ==> b !in data
    ensures end >= 0 ==> data[end] == b && b !in data[..end]
  {
    if data == [] then -1
    else if data[0] == b then 0
    else
      var rest := IndexByte(data[1..], b);
      assert data == [data[0]] + data[1..];
      if rest < 0 then -1
      else
        assert data[..rest + 1] == [data[0]] + data[1..][..rest];
        rest + 1
  }

  class ProgressOutput {
    var pending: seq<byte>
    var discarding: bool
    var reported: seq<seq<byte>> // what `report` was called with, in order
    ghost var stream: seq<byte>

    /** Everything held is determined by the bytes seen so far, not by how they arrived. */
    ghost predicate Valid()
      reads this
    {
      && reported == Reported(stream)
      && discarding == (|Unfinished(stream)| > MAXIMUM_LINE)
      && pending == if discarding then [] else Unfinished(stream)
    }

    constructor ()
      ensures Valid() && stream == []
    {
      pending, discarding, reported, stream := [], false, [], [];
    }

    method Write(data: seq<byte>) returns (n: int)
      requires Valid()
      modifies this
      ensures Valid() && stream == old(stream) + data && n == |data|
    {
      hide Lines, Unfinished, Short;
      ghost var before := stream;
      var remaining := data;
      ghost var consumed := [];
      assert consumed + remaining == data && before + consumed == before;
      while |remaining| > 0
        invariant consumed + remaining == data
        invariant Valid() && stream == before + consumed
        decreases |remaining|
      {
        var end := IndexByte(remaining, NEWLINE);
        var piece := if end >= 0 then remaining[..end] else remaining;
        AppendPiece(stream, piece);
        if |pending| + |piece| > MAXIMUM_LINE {
          pending := [];
          discarding := true;
        }
        if !discarding {
          pending := pending + piece;
        }
        stream := stream + piece;
        if end < 0 {
          Associative(before, consumed, piece);
          return |data|;
        }
        AppendNewline(stream);
        if !discarding {
          reported := reported + [pending];
        }
        pending := [];
        discarding := false;
        stream := stream + [NEWLINE];
        CutLine(before, consumed, remaining, end);
        consumed := consumed + piece + [NEWLINE];
        remaining := remaining[end + 1..];
      }
      assert consumed == data;
      return |data|;
    }
  }

  lemma CutLine(before: seq<byte>, consumed: seq<byte>, remaining: seq<byte>, end: nat)
    requires end < |remaining| && remaining[end] == NEWLINE
    ensures consumed + remaining[..end] + [NEWLINE] + remaining[end + 1..] == consumed + remaining
    ensures before + consumed + remaining[..end] + [NEWLINE] == before + (consumed + remaining[..end] + [NEWLINE])
  {
    assert before + consumed + remaining[..end] + [NEWLINE] == before + (consumed + remaining[..end] + [NEWLINE]);
    assert remaining == remaining[..end] + [NEWLINE] + remaining[end + 1..];
  }
}

/** Byte strings and the few operations on them that the stream writers share. */
module Bytes {
  type byte = bv8

  function Min(a: int, b: int): int {
    if a <= b then a else b
  }

  function Max(a: int, b: int): int {
    if a >= b then a else b
  }

  /** The concatenation of a list of pieces, such as the successive writes to a stream. */
  function Concat<T>(pieces: seq<seq<T>>): seq<T> {
    if pieces == [] then [] else Concat(pieces[..|pieces| - 1]) + pieces[|pieces| - 1]
  }

  lemma ConcatAppend<T>(pieces: seq<seq<T>>, piece: seq<T>)
    ensures Concat(pieces + [piece]) == Concat(pieces) + piece
  {
    assert (pieces + [piece])[..|pieces|] == pieces;
  }

  lemma {:induction false} ConcatSplit<T>(left: seq<seq<T>>, right: seq<seq<T>>)
    ensures Concat(left + right) == Concat(left) + Concat(right)
    decreases right
  {
    if right == [] {
      assert left + right == left;
    } else {
      var init, last := right[..|right| - 1], right[|right| - 1];
      assert left + right == (left + init) + [last];
      ConcatAppend(left + init, last);
      ConcatSplit(left, init);
    }
  }

  lemma Associative<T>(a: seq<T>, b: seq<T>, c: seq<T>)
    ensures a + b + c == a + (b + c)
  {
  }

  lemma AppendNothing<T>(s: seq<T>, more: seq<T>)
    requires more == []
    ensures s + more == s
  {
  }

  lemma SliceAppend<T>(s: seq<T>, x: T, k: nat)
    requires k <= |s|
    ensures (s + [x])[..k] == s[..k] && (s + [x])[k..] == s[k..] + [x]
  {
  }

  lemma SliceNothing<T>(s: seq<T>, p: seq<T>)
    ensures s + p[..0] == s && p[0..] == p && p[|p|..] == []
  {
  }

  /** The last `n` elements of `s`, or all of it when it is shorter. */
  function LastElements<T>(s: seq<T>, n: nat): (r: seq<T>)
    ensures |r| == Min(|s|, n)
  {
    s[|s| - Min(|s|, n)..]
  }

  lemma LastElementsExtend<T>(s: seq<T>, more: seq<T>, n: nat)
    ensures LastElements(LastElements(s, n) + more, n) == LastElements(s + more, n)
  {
  }

  /** The first `n` elements of `s`, or all of it when it is shorter. */
  function FirstElements<T>(s: seq<T>, n: nat): (r: seq<T>)
    ensures |r| == Min(|s|, n)
  {
    s[..Min(|s|, n)]
  }

  /** What `FirstElements` leaves behind. */
  function After<T>(s: seq<T>, n: nat): (r: seq<T>)
    ensures FirstElements(s, n) + r == s
    ensures |r| == Max(0, |s| - n)
  {
    s[Min(|s|, n)..]
  }

  lemma FirstElementsAppend<T>(s: seq<T>, p: seq<T>, n: nat)
    ensures var count := Min(|p|, n - |FirstElements(s, n)|);
            && 0 <= count
            && FirstElements(s + p, n) == FirstElements(s, n) + p[..count]
            && After(s + p, n) == After(s, n) + p[count..]
  {
    if |s| < n {
      assert After(s, n) == [];
    }
  }
}

/** The order in which the state database keeps its keys: byte strings, lexicographically. */
module KeyOrder {

  predicate Below(a: string, b: string) {
    if b == "" then false
    else if a == "" then true
    else a[0] < b[0] || (a[0] == b[0] && Below(a[1..], b[1..]))
  }

  lemma {:induction false} Irreflexive(a: string)
    ensures !Below(a, a)
  {
    if a != "" {
      Irreflexive(a[1..]);
    }
  }

  lemma {:induction false} Transitive(a: string, b: string, c: string)
    requires Below(a, b) && Below(b, c)
    ensures Below(a, c)
  {
    if a != "" && a[0] == b[0] && b[0] == c[0] {
      Transitive(a[1..], b[1..], c[1..]);
    }
  }

  lemma {:induction false} Total(a: string, b: string)
    ensures a == b || Below(a, b) || Below(b, a)
  {
    if a != "" && b != "" && a[0] == b[0] {
      Total(a[1..], b[1..]);
      assert a == [a[0]] + a[1..] && b == [b[0]] + b[1..];
    }
  }

  lemma {:induction false} CommonPrefix(p: string, a: string, b: string)
    ensures Below(p + a, p + b) == Below(a, b)
  {
    if p == "" {
      assert p + a == a && p + b == b;
    } else {
      CommonPrefix(p[1..], a, b);
      assert (p + a)[1..] == p[1..] + a && (p + b)[1..] == p[1..] + b;
    }
  }

  /** The keys that start with `p` are contiguous, beginning at `p` itself. */
  lemma {:induction false} PrefixContiguous(p: string, a: string, b: string)
    requires p <= b && !Below(a, p) && Below(a, b)
    ensures p <= a
  {
    if p != "" {
      assert b[0] == p[0];
      PrefixContiguous(p[1..], a[1..], b[1..]);
      assert p == [p[0]] + p[1..] && a == [a[0]] + a[1..];
    }
  }

  lemma {:induction false} PrefixNotBelow(p: string, a: string)
    requires p <= a
    ensures !Below(a, p)
  {
    if p != "" {
      PrefixNotBelow(p[1..], a[1..]);
    }
  }

  function Pow10(width: nat): (r: nat)
    ensures r > 0
  {
    if width == 0 then 1 else 10 * Pow10(width - 1)
  }

  function Digit(d: nat): (c: char)
    requires d < 10
  {
    ['0', '1', '2', '3', '4', '5', '6', '7', '8', '9'][d]
  }

  /** `%0<width>d`: decimal digits with leading zeros, wider only if the number needs it. */
  function Padded(n: nat, width: nat): (s: string)
    requires n < Pow10(width)
    ensures |s| == width
  {
    if width == 0 then "" else Padded(n / 10, width - 1) + [Digit(n % 10)]
  }

  /** Zero-padded numbers sort as numbers, whatever follows them in the key. */
  lemma {:induction false} PaddedOrder(n: nat, m: nat, width: nat, x: string, y: string)
    requires n < m < Pow10(width)
    ensures Below(Padded(n, width) + x, Padded(m, width) + y)
  {
    var dn, dm := [Digit(n % 10)], [Digit(m % 10)];
    var pn, pm := Padded(n / 10, width - 1), Padded(m / 10, width - 1);
    assert Padded(n, width) + x == pn + (dn + x);
    assert Padded(m, width) + y == pm + (dm + y);
    if n / 10 < m / 10 {
      PaddedOrder(n / 10, m / 10, width - 1, dn + x, dm + y);
    } else {
      CommonPrefix(pn, dn + x, dm + y);
    }
  }
}

/**
 * Ceiling division, the `int(ceil(a / b))` of shcol.py on non-negative
 * integers, defined by repeated subtraction: the number of chunks of size `b`
 * that `a` items fill.
 */
module Arith {

  function CeilDiv(a: nat, b: nat): nat
    requires b >= 1
    decreases a
  {
    if a == 0 then 0 else if a <= b then 1 else 1 + CeilDiv(a - b, b)
  }

  lemma MulMono(x: int, y: int, b: nat)
    requires x <= y
    ensures x * b <= y * b
  {
    assert y * b - x * b == (y - x) * b;
  }

  /** `CeilDiv(a, b)` is the least `q` with `a <= q * b`. */
  lemma {:induction false} CeilDivBounds(a: nat, b: nat)
    requires b >= 1
    decreases a
    ensures a <= CeilDiv(a, b) * b
    ensures (CeilDiv(a, b) - 1) * b < a
  {
    if a > b {
      var q := CeilDiv(a - b, b);
      CeilDivBounds(a - b, b);
      assert (q + 1) * b == q * b + b;
      assert q * b == (q - 1) * b + b;
    }
  }

  /** The usual closed form of ceiling division. */
  lemma CeilDivClosedForm(a: nat, b: nat)
    requires b >= 1
    ensures CeilDiv(a, b) == (a + b - 1) / b
  {
    var q, rem := (a + b - 1) / b, (a + b - 1) % b;
    assert a + b - 1 == q * b + rem;
    assert (q - 1) * b == q * b - b;
    CeilDivUnique(a, b, q);
  }

  /** The bounds of `CeilDivBounds` single out the quotient. */
  lemma CeilDivUnique(a: nat, b: nat, q: int)
    requires b >= 1
    requires (q - 1) * b < a <= q * b
    ensures CeilDiv(a, b) == q
  {
    var c := CeilDiv(a, b);
    CeilDivBounds(a, b);
    if c < q {
      MulMono(c, q - 1, b);
    } else if c > q {
      MulMono(q, c - 1, b);
    }
  }

  /** At most `c` chunks of size `b` are needed when `a <= c * b`. */
  lemma CeilDivAtMost(a: nat, b: nat, c: nat)
    requires b >= 1 && a <= c * b
    ensures CeilDiv(a, b) <= c
  {
    var q := CeilDiv(a, b);
    CeilDivBounds(a, b);
    if q > c {
      MulMono(c, q - 1, b);
    }
  }

  /** A larger chunk size never needs more chunks. */
  lemma CeilDivAntitone(a: nat, b1: nat, b2: nat)
    requires 1 <= b1 <= b2
    ensures CeilDiv(a, b2) <= CeilDiv(a, b1)
  {
    var q1 := CeilDiv(a, b1);
    CeilDivBounds(a, b1);
    assert q1 * b1 <= q1 * b2 by {
      assert q1 * b2 - q1 * b1 == q1 * (b2 - b1);
    }
    CeilDivAtMost(a, b2, q1);
  }

  /**
   * Cutting `a >= 1` items into `CeilDiv(a, c)`-sized rows: there are between
   * 1 and `a` rows of that size, and `a` items fill at most `c` of them.
   */
  lemma CeilDivOfCeilDiv(a: nat, c: nat)
    requires c >= 1
    ensures CeilDiv(a, c) <= a
    ensures a >= 1 ==> CeilDiv(a, c) >= 1 && CeilDiv(a, CeilDiv(a, c)) <= c
  {
    var l := CeilDiv(a, c);
    CeilDivBounds(a, c);
    if l > a {
      MulMono(a, l - 1, c);
      MulMono(1, c, a);
    }
    if a >= 1 {
      assert l >= 1;
      assert a <= c * l;
      CeilDivAtMost(a, l, c);
    }
  }

  /** Quotient and remainder are unique. */
  lemma DivModUnique(a: nat, b: nat, q: nat, r: nat)
    requires b >= 1 && r < b && a == r + q * b
    ensures a % b == r && a / b == q
  {
    var q', r' := a / b, a % b;
    assert a == r' + q' * b;
    if q' < q {
      MulMono(q' + 1, q, b);
    } else if q' > q {
      MulMono(q + 1, q', b);
    }
  }
}

/** Products and quotients of natural numbers. */
module Arithmetic {
  lemma {:induction false} MulMonotone(d: nat, x: nat, y: nat)
    requires x <= y
    ensures d * x <= d * y
  {
  }

  lemma {:induction false} FloorOf(x: nat, d: nat)
    requires d > 0
    ensures x / d * d <= x < (x / d + 1) * d
  {
    assert x == d * (x / d) + x % d;
  }

  lemma {:induction false} DivMonotone(a: nat, b: nat, d: nat)
    requires a <= b && d > 0
    ensures a / d <= b / d
  {
    var p, q := a / d, b / d;
    assert d * p <= a && b < d * (q + 1);
    if q < p {
      MulMonotone(d, q + 1, p);
    }
  }

  /** A part of an amount, rounded down, is at most the amount. */
  lemma {:induction false} PartBound(a: nat, b: nat, x: nat)
    requires a <= b && b > 0
    ensures a * x / b <= x
  {
    var q := a * x / b;
    assert b * q <= a * x;
    MulMonotone(x, a, b);
    if x < q {
      MulMonotone(b, x + 1, q);
    }
  }

  /** What is taken in proportion to at most the whole is at most the total. */
  lemma {:induction false} Cancel(charged: nat, score: nat, total: nat, served: nat)
    requires 0 < score && served <= score && charged * score <= total * served
    ensures charged <= total
  {
    MulMonotone(total, served, score);
    if charged > total {
      MulMonotone(score, total + 1, charged);
    }
  }
}

/** Integer division facts used for the progress bar, whose values are `int()` of a fraction of a whole. */
module Arith {
  lemma MulLeft(a: int, b: int, d: nat)
    requires a <= b
    ensures a * d <= b * d
  {
    assert b * d - a * d == (b - a) * d;
  }

  lemma DivBelow(x: nat, d: nat, bound: nat)
    requires d > 0 && x < (bound + 1) * d
    ensures x / d <= bound
  {
    var q := x / d;
    assert q * d <= x;
    if bound + 1 <= q {
      MulLeft(bound + 1, q, d);
      assert false;
    }
  }

  lemma DivAtLeast(x: nat, d: nat, bound: nat)
    requires d > 0 && bound * d <= x
    ensures bound <= x / d
  {
    var q := x / d;
    assert x == q * d + x % d;
    assert (q + 1) * d == q * d + d;
    if q + 1 <= bound {
      MulLeft(q + 1, bound, d);
      assert false;
    }
  }

  lemma DivMonotone(a: nat, b: nat, d: nat)
    requires a <= b && d > 0
    ensures a / d <= b / d
  {
    var q := b / d;
    assert b == q * d + b % d;
    assert (q + 1) * d == q * d + d;
    DivBelow(a, d, q);
  }

  /** Dividing a multiple of `d` by `d` is exact. */
  lemma MulDiv(a: nat, d: nat)
    requires d > 0
    ensures (a * d) / d == a && (a * d) % d == 0
  {
    var q, r := (a * d) / d, (a * d) % d;
    assert a * d == q * d + r;
    if q < a {
      assert (q + 1) * d == q * d + d;
      MulLeft(q + 1, a, d);
      assert false;
    }
    if a < q {
      assert (a + 1) * d == a * d + d;
      MulLeft(a + 1, q, d);
      assert false;
    }
  }
}

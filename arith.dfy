/**
 * Facts about products and quotients of reals that the solver does not find on its own
 * once a proof has other terms in scope. Each is stated over plain variables.
 */
module RealArith {

  lemma NonNegativeProduct(x: real, y: real)
    requires x >= 0.0 && y >= 0.0
    ensures x * y >= 0.0
  {
  }

  lemma MultiplyKeepsOrder(x: real, y: real, c: real)
    requires x <= y && c >= 0.0
    ensures x * c <= y * c
  {
  }

  lemma MultiplyKeepsStrictOrder(x: real, y: real, c: real)
    requires x < y && c > 0.0
    ensures x * c < y * c
  {
  }

  lemma Distribute(c: real, q: real, dq: real)
    ensures c * (q + dq) == c * q + c * dq
  {
  }

  /** Dividing by a positive total and multiplying back gives the value again. */
  lemma DivideThenMultiply(x: real, t: real)
    requires t > 0.0
    ensures (x / t) * t == x
  {
  }

  /** `lo * t <= x <= hi * t` with `t > 0` puts `x / t` between `lo` and `hi`. */
  lemma QuotientBetween(x: real, t: real, lo: real, hi: real)
    requires t > 0.0 && lo * t <= x <= hi * t
    ensures lo <= x / t <= hi
  {
    var q := x / t;
    DivideThenMultiply(x, t);
    if q < lo {
      MultiplyKeepsStrictOrder(q, lo, t);
      assert false;
    }
    if q > hi {
      MultiplyKeepsStrictOrder(hi, q, t);
      assert false;
    }
  }

  /** `c` added to itself `k` times, so that sums of bounds can be built without products. */
  function Times(c: real, k: nat): real {
    if k == 0 then 0.0 else Times(c, k - 1) + c
  }

  lemma {:induction false} TimesIsProduct(c: real, k: nat)
    ensures Times(c, k) == c * (k as real)
  {
    if k > 0 {
      TimesIsProduct(c, k - 1);
      Distribute(c, (k - 1) as real, 1.0);
    }
  }
}

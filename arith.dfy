/** Integer facts shared by the resampling and frame-buffer models: powers of
    two and Euclidean division. */
module Arith {

  /** 2 ** e. */
  function Pow2(e: nat): (p: nat)
    ensures p >= 1
  {
    if e == 0 then 1 else 2 * Pow2(e - 1)
  }

  lemma MulMonotone(d: nat, x: int, y: int)
    requires x <= y
    ensures d * x <= d * y
  {
    assert d * y - d * x == d * (y - x);
  }

  /** Euclidean division is unique. */
  lemma DivUnique(n: int, d: int, q: int, r: int)
    requires d > 0 && n == d * q + r && 0 <= r < d
    ensures n / d == q
  {
    var q', r' := n / d, n % d;
    assert n == d * q' + r' && 0 <= r' < d;
    if q' > q {
      assert d * q' >= d * (q + 1) by { MulMonotone(d, q + 1, q'); }
    } else if q' < q {
      assert d * q >= d * (q' + 1) by { MulMonotone(d, q' + 1, q); }
    }
  }

  /** Quotient and remainder of `p * d + r` for a remainder below d. */
  lemma DivModOf(p: int, d: int, r: int)
    requires d > 0 && 0 <= r < d
    ensures (p * d + r) / d == p && (p * d + r) % d == r
  {
    DivUnique(p * d + r, d, p, r);
  }

  /** An index `p * d + r` with p < n and r < d lies below n * d. */
  lemma SlotBelow(p: nat, n: nat, d: nat, r: nat)
    requires p < n && r < d
    ensures p * d + r < n * d
  {
    MulMonotone(d, p + 1, n);
    assert (p + 1) * d == p * d + d;
  }

  /** A quotient by d of a number below n * d lies below n. */
  lemma QuotientBelow(k: nat, n: nat, d: nat)
    requires d > 0 && k < n * d
    ensures k / d < n
  {
    if k / d >= n {
      MulMonotone(d, n, k / d);
    }
  }
}

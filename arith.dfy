/**
 * Facts about natural-number multiplication and truncating division that the amount and
 * progress computations rely on.
 */
module Arith {
  lemma MulMonotone(x: nat, y: nat, k: nat)
    requires x <= y
    ensures x * k <= y * k
  {
  }

  lemma MulBelow(x: nat, y: nat, k: nat)
    requires x < y && k >= 1
    ensures x * k < y * k
  {
  }

  lemma MulCancel(x: nat, y: nat, k: nat)
    requires x * k > y * k
    ensures x > y
  {
  }

  lemma QuotientBounds(a: nat, b: nat)
    requires b > 0
    ensures (a / b) * b <= a < (a / b + 1) * b
  {
  }

  /** The quotient is the one `q` whose multiples bracket the dividend. */
  lemma QuotientIs(a: nat, b: nat, q: nat)
    requires b > 0 && q * b <= a < (q + 1) * b
    ensures a / b == q
  {
    QuotientBounds(a, b);
    if a / b < q {
      MulMonotone(a / b + 1, q, b);
    } else if a / b > q {
      MulMonotone(q + 1, a / b, b);
    }
  }

  lemma QuotientAtLeast(a: nat, b: nat, k: nat)
    requires b > 0 && k * b <= a
    ensures a / b >= k
  {
    QuotientBounds(a, b);
    if a / b < k {
      MulMonotone(a / b + 1, k, b);
    }
  }
}

/** The few facts about products, powers of two and floor division that the other proofs rest on. */
module Arith {

  lemma Euclid(n: int, d: int)
    requires d > 0
    ensures (n / d) * d + n % d == n
    ensures (n / d) * d <= n < (n / d) * d + d
  {
  }

  function Pow2(n: nat): (p: nat)
    ensures p > 0
  {
    if n == 0 then 1 else 2 * Pow2(n - 1)
  }

  lemma {:induction false} PowMonotone(m: nat, n: nat)
    requires m <= n
    ensures Pow2(m) <= Pow2(n)
  {
    if m < n { PowMonotone(m, n - 1); }
  }

  lemma MulMono(x: int, y: int, d: int)
    requires 0 <= d && x <= y
    ensures x * d <= y * d
    ensures d * x <= d * y
  {
  }

  lemma MulCancel(x: int, y: int, d: int)
    requires d > 0 && x * d < y * d
    ensures x < y
  {
  }

  lemma MulNonNeg(x: int, y: int)
    requires 0 <= x && 0 <= y
    ensures 0 <= x * y
  {
  }

  lemma MulSigns(m: int, d: int)
    ensures (-m) * d == -(m * d) == m * (-d)
    ensures (-m) * (-d) == m * d
  {
  }

  lemma Distribute(x: int, y: int, d: int)
    ensures (x + y) * d == x * d + y * d
    ensures d * (x + y) == d * x + d * y
    ensures (x - y) * d == x * d - y * d
    ensures d * (x - y) == d * x - d * y
  {
  }

  /** Floor division is the largest integer whose product stays below. */
  lemma FloorIs(n: int, d: int, q: int)
    requires d > 0 && q * d <= n < q * d + d
    ensures n / d == q
  {
    Euclid(n, d);
    var f := n / d;
    Distribute(f, 1, d);
    Distribute(q, 1, d);
    MulCancel(f, q + 1, d);
    MulCancel(q, f + 1, d);
  }

  lemma FloorNonNeg(n: int, d: int)
    requires d > 0 && n >= 0
    ensures 0 <= n / d
  {
  }

  lemma FloorAtMost(n: int, d: int)
    requires d > 0 && n >= 0
    ensures n / d <= n
  {
    Euclid(n, d);
    FloorNonNeg(n, d);
    MulMono(1, d, n / d);
  }

  /** `q` is below the floor of `n / d` as soon as its product is. */
  lemma FloorAtLeast(q: int, n: int, d: int)
    requires d > 0 && q * d <= n
    ensures q <= n / d
  {
    Euclid(n, d);
    Distribute(n / d, 1, d);
    MulCancel(q, n / d + 1, d);
  }
}

/** Go's int64: two's complement wrap-around, and division that truncates toward zero. */
module Int64 {
  import opened Arith

  const MAX: int := 0x7FFF_FFFF_FFFF_FFFF
  const MIN: int := -0x8000_0000_0000_0000
  const MODULUS: int := 0x1_0000_0000_0000_0000

  type I64 = x: int | MIN <= x <= MAX

  predicate Fits(x: int) { MIN <= x <= MAX }

  /** The int64 value congruent to `x`. */
  function Wrap(x: int): (r: I64)
    ensures Fits(x) ==> r == x
    ensures (x - r) % MODULUS == 0
  {
    (x - MIN) % MODULUS + MIN
  }

  /** Truncating division on int64; the single overflowing quotient wraps, as Go specifies. */
  function Quo(a: I64, b: I64): I64
    requires b != 0
  {
    Wrap(TruncDiv(a, b))
  }

  /** Mathematical division rounding toward zero. */
  function TruncDiv(a: int, b: int): (q: int)
    requires b != 0
    ensures a >= 0 && b > 0 ==> q == a / b
  {
    if (a >= 0) == (b > 0) then Abs(a) / Abs(b) else -(Abs(a) / Abs(b))
  }

  function Abs(a: int): nat { if a < 0 then -a else a }

  /** How many moduli `Wrap` removes. */
  function Turns(x: int): (k: int)
    ensures x == Wrap(x) + k * MODULUS
  {
    (x - Wrap(x)) / MODULUS
  }

  /** Wrapping is determined by the residue. */
  lemma WrapIs(x: int, r: I64, k: int)
    requires x == r + k * MODULUS
    ensures Wrap(x) == r
  {
  }

  /** A truncated quotient is within one divisor of the dividend. */
  lemma TruncDivBounds(a: int, b: int)
    requires b != 0
    ensures var q := TruncDiv(a, b);
            && Abs(a - q * b) < Abs(b)
            && Abs(q) <= Abs(a)
            && Abs(q) * Abs(b) <= Abs(a)
  {
    Euclid(Abs(a), Abs(b));
    FloorNonNeg(Abs(a), Abs(b));
    FloorAtMost(Abs(a), Abs(b));
    MulSigns(Abs(a) / Abs(b), Abs(b));
  }

  /** `a * b / d` exactly as Go evaluates it on int64 operands. */
  function MulDiv(a: I64, b: I64, d: I64): I64
    requires d != 0
  {
    Quo(Wrap(a * b), d)
  }

  /**
   * Go's `a * b / d` on non-negative operands never exceeds the true floor, and it
   * equals the true floor exactly when the product fits in int64.
   */
  lemma MulDivExact(a: I64, b: I64, d: I64)
    requires 0 <= a && 0 <= b && 0 < d
    ensures 0 <= a * b
    ensures MulDiv(a, b, d) <= a * b / d
    ensures MulDiv(a, b, d) == a * b / d <==> Fits(a * b)
    ensures Fits(a * b) ==> 0 <= MulDiv(a, b, d)
  {
    MulNonNeg(a, b);
    WrappedQuotient(a * b, d);
  }

  lemma WrappedQuotient(p: nat, d: I64)
    requires 0 < d
    ensures Quo(Wrap(p), d) <= p / d
    ensures Quo(Wrap(p), d) == p / d <==> Fits(p)
    ensures Fits(p) ==> 0 <= Quo(Wrap(p), d)
  {
    var w, q, f := Wrap(p), Quo(Wrap(p), d), p / d;
    TruncDivBounds(w, d);
    Euclid(p, d);
    FloorNonNeg(p, d);
    if !Fits(p) {
      assert Turns(p) >= 1;
      assert w <= p - MODULUS;
      assert q * d < w + d;
      MulCancel(q, f, d);
    }
  }
}

/**
 * Refund arithmetic of internal/application/payment_refund.go: which amount, how it splits, what discount it
 * reverses.
 */
module RefundMath {
  import opened Base
  import opened Int64
  import opened Arith
  import opened Amounts

  // ---------------------------------------------------------------------------
  // Ledger and channel parts of one refund
  // ---------------------------------------------------------------------------

  datatype Split = Split(ledger: I64, channel: I64)

  function SplitRefund(a: Amounts, amount: I64): Split {
    if a.payable <= 0 then Split(0, amount)
    else
      var ledger := MulDiv(a.ledgerPay, amount, a.payable);
      var channel := Wrap(amount - ledger);
      if channel < 0 then Split(amount, 0) else Split(ledger, channel)
  }

  /** Refunds a caller may ask for on a paid order. */
  predicate Refundable(a: Amounts, amount: I64) {
    Balanced(a) && 0 < amount <= a.payable
  }

  /**
   * The clamp in the split is dead code for every refund of balanced amounts, even when the product wraps:
   * the parts always add up to the refund, and the ledger part never exceeds its floor share.
   * It is that floor share exactly when the product fits.
   */
  lemma SplitExact(a: Amounts, amount: I64)
    requires Refundable(a, amount)
    ensures var s := SplitRefund(a, amount);
            && s.ledger == MulDiv(a.ledgerPay, amount, a.payable)
            && s.ledger + s.channel == amount
            && 0 <= s.channel
            && s.ledger <= a.ledgerPay * amount / a.payable
            && (s.ledger == a.ledgerPay * amount / a.payable <==> Fits(a.ledgerPay * amount))
  {
    var q := MulDiv(a.ledgerPay, amount, a.payable);
    MulDivExact(a.ledgerPay, amount, a.payable);
    ShareAtMost(a.ledgerPay, amount, a.payable);
    if !Fits(a.ledgerPay * amount) {
      NoClamp(a.ledgerPay, amount, a.payable);
    }
  }

  lemma ShareAtMost(part: int, amount: int, whole: int)
    requires 0 <= part <= whole && 0 <= amount && 0 < whole
    ensures part * amount / whole <= amount
  {
    MulMono(part, whole, amount);
    MulNonNeg(part, amount);
    Euclid(part * amount, whole);
    var q := part * amount / whole;
    Distribute(amount, 1, whole);
    MulCancel(q, amount + 1, whole);
  }

  /** A negative wrapped quotient is too small to push the channel part out of int64. */
  lemma NoClamp(part: I64, amount: I64, whole: I64)
    requires 0 <= part <= whole && 0 < amount <= whole
    requires !Fits(part * amount)
    ensures Fits(amount - MulDiv(part, amount, whole))
  {
    var p := part * amount;
    MulDivExact(part, amount, whole);
    ShareAtMost(part, amount, whole);
    var w := Wrap(p);
    var q := TruncDiv(w, whole);
    TruncDivBounds(w, whole);
    assert MulDiv(part, amount, whole) == q;
    if q < 0 {
      LargeWhole(part, amount, whole);
      if amount == MAX {
        assert whole == MAX;
        WrapOfMaxMultiple(part);
        assert false;
      }
      NoClampBelow(amount, whole, w);
    }
  }

  lemma NoClampBelow(amount: I64, whole: I64, w: I64)
    requires 0 < amount <= whole && amount < MAX && whole >= 0x8000_0000 && TruncDiv(w, whole) < 0
    ensures Fits(amount - TruncDiv(w, whole))
  {
    hide TruncDiv;
    var q := TruncDiv(w, whole);
    TruncDivBounds(w, whole);
    SmallQuotient(-q, whole);
  }

  lemma LargeWhole(part: I64, amount: I64, whole: I64)
    requires 0 <= part <= whole && 0 < amount <= whole && !Fits(part * amount)
    ensures whole >= 0x8000_0000
  {
    if whole < 0x8000_0000 {
      MulMono(part, 0x8000_0000, amount);
      MulMono(amount, 0x8000_0000, 0x8000_0000);
      MulNonNeg(part, amount);
    }
  }

  /** A quotient of an int64 by a divisor of at least 2^31 is at most 2^32, and at most 1 for divisors above 2^62. */
  lemma SmallQuotient(q: int, whole: int)
    requires q > 0 && whole >= 0x8000_0000
    requires q * whole <= -MIN
    ensures q <= 0x1_0000_0000
    ensures whole > 0x4000_0000_0000_0000 ==> q <= 1
  {
    if q > 0x1_0000_0000 {
      MulMono(0x1_0000_0001, q, whole);
    } else if whole > 0x4000_0000_0000_0000 && q >= 2 {
      MulMono(2, q, whole);
    }
  }

  /** Multiples of MAX never wrap to a value that divides to -1. */
  lemma WrapOfMaxMultiple(part: I64)
    requires 0 <= part
    ensures TruncDiv(Wrap(part * MAX), MAX) >= 0
  {
    var half := part / 2;
    if part % 2 == 0 {
      WrapIs(part * MAX, -part, half);
      assert -part > -MAX;
    } else {
      WrapIs(part * MAX, -MIN - part, half);
    }
  }

  // ---------------------------------------------------------------------------
  // The amount a refund request asks for
  // ---------------------------------------------------------------------------

  datatype LineRefund = LineRefund(line: Name, amount: I64)
  datatype RefundCmd = RefundCmd(amount: I64, lines: seq<LineRefund>)

  /** The line with this id that a later line does not override. */
  function LineById(lines: seq<Line>, id: Name): (r: Option<Line>)
    ensures r.Some? ==> r.value in lines && r.value.id == id
    ensures r.None? ==> forall l :: l in lines ==> l.id != id
  {
    if lines == [] then None
    else if lines[|lines| - 1].id == id then Some(lines[|lines| - 1])
    else LineById(lines[..|lines| - 1], id)
  }

  predicate LineRefundOk(lines: seq<Line>, lr: LineRefund) {
    && 0 < lr.amount
    && LineById(lines, lr.line).Some?
    && lr.amount <= LineById(lines, lr.line).value.payable
  }

  function SumRefunds(lrs: seq<LineRefund>): int {
    if lrs == [] then 0 else SumRefunds(lrs[..|lrs| - 1]) + lrs[|lrs| - 1].amount
  }

  function LineError(lines: seq<Line>, lr: LineRefund): Error
    requires !LineRefundOk(lines, lr)
  {
    if lr.amount <= 0 || LineById(lines, lr.line).None? then InvalidArgument else RefundExceedsPaid
  }

  /** The amount to refund, or why the request is refused; `refundable` is what is paid and not yet refunded. */
  function Resolve(lines: seq<Line>, refundable: I64, cmd: RefundCmd): (r: Result<I64>)
    ensures r.Ok? ==> 0 < r.value <= refundable
  {
    if cmd.lines != [] then
      match FirstBad(lines, cmd.lines)
      case Some(lr) => Err(LineError(lines, lr))
      case None =>
        var sum := Wrap(SumRefunds(cmd.lines));
        if cmd.amount > 0 && cmd.amount != sum then Err(AmountInvariant)
        else if sum <= 0 || sum > refundable then Err(RefundExceedsPaid)
        else Ok(sum)
    else
      var amount := if cmd.amount <= 0 then refundable else cmd.amount;
      if amount <= 0 || amount > refundable then Err(RefundExceedsPaid) else Ok(amount)
  }

  function FirstBad(lines: seq<Line>, lrs: seq<LineRefund>): (r: Option<LineRefund>)
    ensures r.Some? ==> r.value in lrs && !LineRefundOk(lines, r.value)
    ensures r.None? ==> forall lr :: lr in lrs ==> LineRefundOk(lines, lr)
  {
    if lrs == [] then None
    else
      match FirstBad(lines, lrs[..|lrs| - 1])
      case Some(lr) => Some(lr)
      case None => if LineRefundOk(lines, lrs[|lrs| - 1]) then None else Some(lrs[|lrs| - 1])
  }

  lemma {:induction false} FirstBadOf(lines: seq<Line>, lrs: seq<LineRefund>, i: nat)
    requires i < |lrs| && FirstBad(lines, lrs[..i]).None? && !LineRefundOk(lines, lrs[i])
    ensures FirstBad(lines, lrs) == Some(lrs[i])
    decreases |lrs|
  {
    var n := |lrs| - 1;
    if i == n {
      assert lrs[..n] == lrs[..i];
    } else {
      assert lrs[..n][..i] == lrs[..i];
      FirstBadOf(lines, lrs[..n], i);
    }
  }

  /**
   * The loop over the requested lines accumulates with wrap-around, and still never lets a refund exceed what is
   * left.
   */
  method ResolveRefundLines(lines: seq<Line>, refundable: I64, cmd: RefundCmd)
    returns (r: Result<I64>, out: seq<LineRefund>)
    ensures r == Resolve(lines, refundable, cmd)
    ensures r.Ok? ==> 0 < r.value <= refundable && out == cmd.lines
    ensures cmd.lines == [] && 0 < cmd.amount <= refundable ==> r == Ok(cmd.amount)
    ensures cmd.lines == [] && cmd.amount <= 0 < refundable ==> r == Ok(refundable)
    ensures cmd.lines == [] && (cmd.amount > refundable || refundable <= 0) ==> r == Err(RefundExceedsPaid)
    ensures r.Ok? && cmd.lines != [] && Fits(SumRefunds(cmd.lines)) ==> SumRefunds(out) == r.value
  {
    hide LineById;
    out := [];
    if cmd.lines != [] {
      var sum: I64 := 0;
      var i := 0;
      while i < |cmd.lines|
        invariant 0 <= i <= |cmd.lines|
        invariant FirstBad(lines, cmd.lines[..i]).None?
        invariant sum == Wrap(SumRefunds(cmd.lines[..i]))
        invariant out == cmd.lines[..i]
      {
        var lr := cmd.lines[i];
        if lr.amount <= 0 {
          FirstBadOf(lines, cmd.lines, i);
          return Err(InvalidArgument), [];
        }
        var line := LineById(lines, lr.line);
        if line.None? {
          FirstBadOf(lines, cmd.lines, i);
          return Err(InvalidArgument), [];
        }
        if lr.amount > line.value.payable {
          FirstBadOf(lines, cmd.lines, i);
          return Err(RefundExceedsPaid), [];
        }
        assert cmd.lines[..i + 1][..i] == cmd.lines[..i];
        WrapSum(SumRefunds(cmd.lines[..i]), lr.amount);
        sum := Wrap(sum + lr.amount);
        out := out + [lr];
        i := i + 1;
      }
      assert cmd.lines[..i] == cmd.lines;
      if cmd.amount > 0 && cmd.amount != sum {
        return Err(AmountInvariant), [];
      }
      if sum <= 0 || sum > refundable {
        return Err(RefundExceedsPaid), [];
      }
      return Ok(sum), out;
    }
    var amount := cmd.amount;
    if amount <= 0 {
      amount := refundable;
    }
    if amount <= 0 || amount > refundable {
      return Err(RefundExceedsPaid), [];
    }
    return Ok(amount), [];
  }

  /**
   * A request by lines whose sum does not overflow is granted exactly when each line allows it and so does the
   * rest.
   */
  lemma LinesResolveIff(lines: seq<Line>, refundable: I64, cmd: RefundCmd)
    requires cmd.lines != [] && Fits(SumRefunds(cmd.lines))
    ensures var sum := SumRefunds(cmd.lines);
            && (Resolve(lines, refundable, cmd).Ok? <==>
                  && (forall lr :: lr in cmd.lines ==> LineRefundOk(lines, lr))
                  && sum <= refundable && (cmd.amount <= 0 || cmd.amount == sum))
            && (Resolve(lines, refundable, cmd).Ok? ==> Resolve(lines, refundable, cmd).value == sum)
  {
    if forall lr :: lr in cmd.lines ==> LineRefundOk(lines, lr) { SumPositive(cmd.lines); }
  }

  lemma {:induction false} SumPositive(lrs: seq<LineRefund>)
    requires lrs != [] && forall lr :: lr in lrs ==> 0 < lr.amount
    ensures 0 < SumRefunds(lrs)
  {
    if |lrs| > 1 { SumPositive(lrs[..|lrs| - 1]); }
  }

  lemma WrapSum(x: int, y: int)
    ensures Wrap(Wrap(x) + y) == Wrap(x + y)
  {
    WrapIs(x + y, Wrap(Wrap(x) + y), Turns(x) + Turns(Wrap(x) + y));
  }
}

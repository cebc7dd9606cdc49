/** Integer money of internal/domain/amount.go: checked int64 arithmetic, order totals, discount allocation. */
module Amounts {
  import opened Base
  import opened Int64
  import opened Arith

  /** `attributes` stands for the line's attribute map in canonical form. */
  datatype Line = Line(
    id: Name,
    objectType: Name,
    objectId: Name,
    attributes: Name,
    quantity: I64,
    unitPrice: I64,
    original: I64,
    discount: I64,
    payable: I64)

  datatype Amounts = Amounts(
    currency: Name,
    original: I64,
    discount: I64,
    payable: I64,
    ledgerPay: I64,
    channelPay: I64,
    paid: I64,
    refunded: I64)

  // ---------------------------------------------------------------------------
  // Checked int64 operators
  // ---------------------------------------------------------------------------

  function Mul(a: I64, b: I64): Result<I64> {
    if a == 0 || b == 0 then Ok(0)
    else
      var r := Wrap(a * b);
      if Quo(r, a) != b then Err(Overflow) else Ok(r)
  }

  function Add(a: I64, b: I64): Result<I64> {
    var r := Wrap(a + b);
    if (b > 0 && r < a) || (b < 0 && r > a) then Err(Overflow) else Ok(r)
  }

  function Sub(a: I64, b: I64): Result<I64> {
    Add(a, Wrap(0 - b))
  }

  /** What a checked operator should report for the true result `x`. */
  function Checked(x: int): Result<I64> {
    if Fits(x) then Ok(x) else Err(Overflow)
  }

  /** Addition reports overflow exactly when the true sum does not fit. */
  lemma AddExact(a: I64, b: I64)
    ensures Add(a, b) == Checked(a + b)
  {
    assert -1 <= Turns(a + b) <= 1;
  }

  /** Subtraction negates first, so it is exact for every minuend unless the subtrahend is MIN. */
  lemma SubExact(a: I64, b: I64)
    ensures Sub(a, b) == Checked(a - b) <==> b != MIN
  {
    AddExact(a, Wrap(0 - b));
    if b == MIN {
      assert Wrap(0 - b) == MIN;
    }
  }

  /** Multiplication misreports exactly one operand pair of all int64 pairs. */
  lemma MulExact(a: I64, b: I64)
    ensures Mul(a, b) == Checked(a * b) <==> !(a == -1 && b == MIN)
  {
    if a == -1 && b == MIN {
      assert Mul(a, b) == Ok(MIN);
    } else if a != 0 && b != 0 {
      DivisionDetects(a, b, a * b);
    }
  }

  /** Dividing the wrapped product back gives `b` only if nothing was lost, or on MIN / -1. */
  lemma DivisionDetects(a: I64, b: I64, p: int)
    requires a != 0 && p == b * a
    requires !(a == -1 && b == MIN)
    ensures Quo(Wrap(p), a) == b <==> Fits(p)
  {
    var r := Wrap(p);
    var q := TruncDiv(r, a);
    TruncDivBounds(r, a);
    assert Fits(p) || Turns(p) != 0;
    if Fits(p) {
      QuotientOfProduct(a, b, q);
    } else if q == b {
      assert false;
    } else if Quo(r, a) == b {
      assert q == -MIN;
      OverflowingQuotient(r, a, q);
    }
  }

  lemma QuotientOfProduct(a: int, b: int, q: int)
    requires a != 0 && Abs(b * a - q * a) < Abs(a)
    ensures q == b
  {
    Distribute(b, q, a);
    var e := b - q;
    assert e * a == b * a - q * a;
    if e >= 1 {
      MulMono(1, e, Abs(a));
      MulSigns(e, Abs(a));
    } else if e <= -1 {
      MulMono(1, -e, Abs(a));
      MulSigns(-e, Abs(a));
      MulSigns(e, a);
    }
  }

  /** Only MIN / -1 leaves int64. */
  lemma OverflowingQuotient(r: I64, a: I64, q: int)
    requires a != 0 && q == TruncDiv(r, a) == -MIN
    ensures r == MIN && a == -1
  {
    TruncDivBounds(r, a);
    if Abs(a) >= 2 {
      if a > 0 { MulMono(2, a, q); } else { MulMono(2, -a, q); MulSigns(q, a); }
      assert false;
    }
  }

  // ---------------------------------------------------------------------------
  // Order totals
  // ---------------------------------------------------------------------------

  function LineOriginal(unitPrice: I64, quantity: I64): Result<I64> {
    if unitPrice < 0 || quantity <= 0 then Err(InvalidArgument) else Mul(unitPrice, quantity)
  }

  /** On its own domain a line price is exact: the product, or overflow when it does not fit. */
  lemma LineOriginalExact(unitPrice: I64, quantity: I64)
    requires 0 <= unitPrice && 0 < quantity
    ensures LineOriginal(unitPrice, quantity) == Checked(unitPrice * quantity)
    ensures 0 <= unitPrice * quantity
  {
    MulExact(unitPrice, quantity);
    MulNonNeg(unitPrice, quantity);
  }

  predicate WellFormed(l: Line) {
    && 0 <= l.unitPrice
    && 0 < l.quantity
    && (l.original == 0 || l.original == l.unitPrice * l.quantity)
  }

  function TrueTotal(lines: seq<Line>): int {
    if lines == [] then 0
    else TrueTotal(lines[..|lines| - 1]) + lines[|lines| - 1].unitPrice * lines[|lines| - 1].quantity
  }

  /** A set of lines is billable when each line is valid and the true total is representable. */
  predicate Billable(lines: seq<Line>) {
    && (forall i :: 0 <= i < |lines| ==> WellFormed(lines[i]))
    && Fits(TrueTotal(lines))
  }

  predicate Priced(before: Line, after: Line) {
    && Fits(before.unitPrice * before.quantity)
    && after == before.(original := before.unitPrice * before.quantity)
  }

  lemma {:induction false} TotalGrows(lines: seq<Line>, i: nat)
    requires i <= |lines|
    requires forall k :: 0 <= k < |lines| ==> WellFormed(lines[k])
    ensures 0 <= TrueTotal(lines[..i]) <= TrueTotal(lines)
    decreases |lines|
  {
    if |lines| > 0 {
      var n := |lines| - 1;
      MulNonNeg(lines[n].unitPrice, lines[n].quantity);
      if i <= n {
        assert lines[..n][..i] == lines[..i];
        TotalGrows(lines[..n], i);
      } else {
        assert lines[..i] == lines;
        TotalGrows(lines[..n], n);
        assert lines[..n][..n] == lines[..n];
      }
    }
  }

  /**
   * Succeeds exactly on billable lines, returns the true total and prices every line in
   * place. On failure a line is either untouched or already priced.
   */
  method SumOriginal(lines: array<Line>) returns (r: Result<I64>)
    modifies lines
    ensures r.Ok? <==> Billable(old(lines[..]))
    ensures r.Ok? ==> r.value == TrueTotal(old(lines[..])) >= 0
    ensures r.Ok? ==> forall i :: 0 <= i < lines.Length ==> Priced(old(lines[i]), lines[i])
    ensures forall i :: 0 <= i < lines.Length ==> lines[i] == old(lines[i]) || Priced(old(lines[i]), lines[i])
  {
    hide Mul, Add;
    var sum: I64 := 0;
    var i := 0;
    ghost var was := lines[..];
    while i < lines.Length
      invariant 0 <= i <= lines.Length
      invariant was == old(lines[..])
      invariant forall k :: 0 <= k < i ==> WellFormed(was[k]) && Priced(was[k], lines[k])
      invariant forall k :: i <= k < lines.Length ==> lines[k] == was[k]
      invariant sum == TrueTotal(was[..i]) >= 0
    {
      var l := lines[i];
      assert l == was[i];
      var orig := LineOriginal(l.unitPrice, l.quantity);
      if 0 <= l.unitPrice && 0 < l.quantity {
        LineOriginalExact(l.unitPrice, l.quantity);
      }
      assert was[..i + 1][..i] == was[..i];
      ghost var next := TrueTotal(was[..i + 1]);
      assert next == sum + l.unitPrice * l.quantity;
      if orig.Err? {
        NotBillable(was, i);
        return Err(orig.error);
      }
      if l.original != 0 && l.original != orig.value {
        NotBillable(was, i);
        return Err(AmountInvariant);
      }
      lines[i] := l.(original := orig.value);
      AddExact(sum, orig.value);
      var total := Add(sum, orig.value);
      if total.Err? {
        NotBillable(was, i);
        return Err(total.error);
      }
      sum := total.value;
      i := i + 1;
    }
    assert was[..i] == was;
    return Ok(sum);
  }

  lemma NotBillable(lines: seq<Line>, i: nat)
    requires i < |lines|
    requires !WellFormed(lines[i]) || !Fits(lines[i].unitPrice * lines[i].quantity) || !Fits(TrueTotal(lines[..i + 1]))
    ensures !Billable(lines)
  {
    if Billable(lines) {
      TotalGrows(lines, i + 1);
      assert lines[..i + 1][..i] == lines[..i];
      TotalGrows(lines, i);
      MulNonNeg(lines[i].unitPrice, lines[i].quantity);
    }
  }

  // ---------------------------------------------------------------------------
  // The amounts snapshot of an order
  // ---------------------------------------------------------------------------

  function Validate(a: Amounts): Option<Error> {
    if a.original < 0 || a.discount < 0 || a.payable < 0 || a.ledgerPay < 0
       || a.channelPay < 0 || a.paid < 0 || a.refunded < 0 then Some(AmountInvariant)
    else if a.discount > a.original then Some(AmountInvariant)
    else if Wrap(a.original - a.discount) != a.payable then Some(AmountInvariant)
    else if Wrap(a.ledgerPay + a.channelPay) != a.payable then Some(AmountInvariant)
    else if a.paid > a.payable then Some(AmountInvariant)
    else if a.refunded > a.paid then Some(AmountInvariant)
    else None
  }

  function BuildAmounts(currency: Name, original: I64, discount: I64, ledgerPay: I64): Result<Amounts> {
    if currency == "" then Err(InvalidArgument)
    else if original < 0 || discount < 0 || ledgerPay < 0 then Err(InvalidArgument)
    else if discount > original then Err(AmountInvariant)
    else
      var payable := Sub(original, discount);
      if payable.Err? then Err(payable.error)
      else if ledgerPay > payable.value then Err(AmountInvariant)
      else
        var channelPay := Sub(payable.value, ledgerPay);
        if channelPay.Err? then Err(channelPay.error)
        else
          var a := Amounts(currency, original, discount, payable.value, ledgerPay, channelPay.value, 0, 0);
          match Validate(a)
          case Some(e) => Err(e)
          case None => Ok(a)
  }

  /** The amount equations every stored order keeps, on true integers. */
  predicate Balanced(a: Amounts) {
    && 0 <= a.discount <= a.original
    && 0 <= a.ledgerPay && 0 <= a.channelPay
    && a.payable == a.original - a.discount == a.ledgerPay + a.channelPay
    && 0 <= a.refunded <= a.paid <= a.payable
  }

  /** Although the check adds with wrap-around, it accepts exactly the balanced snapshots. */
  lemma ValidateExact(a: Amounts)
    ensures Validate(a).None? <==> Balanced(a)
  {
    if a.ledgerPay >= 0 && a.channelPay >= 0 && !Fits(a.ledgerPay + a.channelPay) {
      assert Turns(a.ledgerPay + a.channelPay) == 1;
    }
  }

  /** Amounts are built exactly when the inputs can be split, and the split is then forced. */
  lemma BuildAmountsExact(currency: Name, original: I64, discount: I64, ledgerPay: I64)
    ensures var r := BuildAmounts(currency, original, discount, ledgerPay);
            && (r.Ok? <==> currency != "" && 0 <= discount <= original && 0 <= ledgerPay <= original - discount)
            && (r.Ok? ==> && Balanced(r.value) && r.value.paid == r.value.refunded == 0 && r.value.currency == currency
                          && r.value.original == original && r.value.discount == discount
                          && r.value.ledgerPay == ledgerPay)
  {
    if currency != "" && 0 <= discount <= original && 0 <= ledgerPay {
      SubExact(original, discount);
      var payable := original - discount;
      if ledgerPay <= payable {
        SubExact(payable, ledgerPay);
        ValidateExact(Amounts(currency, original, discount, payable, ledgerPay, payable - ledgerPay, 0, 0));
      }
    }
  }
}

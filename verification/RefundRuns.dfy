/** Whole sequences of refunds on one order: how the floors add up. */
module RefundRuns {
  import opened Base
  import opened Int64
  import opened Arith
  import opened Amounts
  import opened Offer
  import opened RefundMath

  function Sum(rs: seq<I64>): int {
    if rs == [] then 0 else Sum(rs[..|rs| - 1]) + rs[|rs| - 1]
  }

  function LedgerTotal(a: Amounts, rs: seq<I64>): int {
    if rs == [] then 0 else LedgerTotal(a, rs[..|rs| - 1]) + SplitRefund(a, rs[|rs| - 1]).ledger
  }

  function ChannelTotal(a: Amounts, rs: seq<I64>): int {
    if rs == [] then 0 else ChannelTotal(a, rs[..|rs| - 1]) + SplitRefund(a, rs[|rs| - 1]).channel
  }

  /** A possible history of refunds: each positive, together within the payable amount. */
  predicate RefundHistory(a: Amounts, rs: seq<I64>) {
    Balanced(a) && (forall i :: 0 <= i < |rs| ==> 0 < rs[i]) && Sum(rs) <= a.payable
  }

  predicate ProductsFit(part: I64, rs: seq<I64>) {
    forall i :: 0 <= i < |rs| ==> Fits(part * rs[i])
  }

  lemma HistoryPrefix(a: Amounts, rs: seq<I64>)
    requires RefundHistory(a, rs) && rs != []
    ensures RefundHistory(a, rs[..|rs| - 1]) && Refundable(a, rs[|rs| - 1])
    ensures 0 <= Sum(rs[..|rs| - 1])
  {
    SumNonNegative(rs[..|rs| - 1]);
  }

  lemma {:induction false} SumNonNegative(rs: seq<I64>)
    requires forall i :: 0 <= i < |rs| ==> 0 < rs[i]
    ensures |rs| <= Sum(rs)
  {
    if rs != [] { SumNonNegative(rs[..|rs| - 1]); }
  }

  lemma PayableBounds(a: Amounts)
    requires Balanced(a)
    ensures 0 <= a.ledgerPay <= a.payable
  {
  }

  /** Running totals: exact sum, ledger part below its share, and above it up to one unit per refund. */
  lemma {:induction false} SplitTotals(a: Amounts, rs: seq<I64>)
    requires RefundHistory(a, rs)
    ensures LedgerTotal(a, rs) + ChannelTotal(a, rs) == Sum(rs)
    ensures LedgerTotal(a, rs) * a.payable <= a.ledgerPay * Sum(rs)
    ensures ProductsFit(a.ledgerPay, rs) ==>
              a.ledgerPay * Sum(rs) - |rs| * (a.payable - 1) <= LedgerTotal(a, rs) * a.payable
  {
    hide SplitRefund, Balanced;
    if rs != [] {
      var n := |rs| - 1;
      HistoryPrefix(a, rs);
      PayableBounds(a);
      SplitTotals(a, rs[..n]);
      SplitExact(a, rs[n]);
      var s := SplitRefund(a, rs[n]).ledger;
      MulNonNeg(a.ledgerPay, rs[n]);
      Euclid(a.ledgerPay * rs[n], a.payable);
      MulMono(s, a.ledgerPay * rs[n] / a.payable, a.payable);
      TotalsStep(LedgerTotal(a, rs[..n]), s, Sum(rs[..n]), rs[n], a.ledgerPay, a.payable, n);
      if ProductsFit(a.ledgerPay, rs) {
        assert Fits(a.ledgerPay * rs[n]);
        assert forall i :: 0 <= i < n ==> rs[..n][i] == rs[i];
      }
    }
  }

  lemma TotalsStep(t: int, s: int, sum: int, r: int, part: int, whole: int, n: nat)
    requires t * whole <= part * sum && s * whole <= part * r
    ensures (t + s) * whole <= part * (sum + r)
    ensures part * sum - n * (whole - 1) <= t * whole && part * r - (whole - 1) <= s * whole
            ==> part * (sum + r) - (n + 1) * (whole - 1) <= (t + s) * whole
  {
    Distribute(t, s, whole);
    Distribute(sum, r, part);
    Distribute(n, 1, whole - 1);
  }

  /**
   * The refund law over any history of k refunds totalling S: nothing is lost between ledger and
   * channel; the ledger never pays more than its floor share of S; and while no product overflows,
   * the channel overpays by at most k - 1 units and a full refund underpays the ledger by at most k - 1.
   */
  lemma RefundLaw(a: Amounts, rs: seq<I64>)
    requires RefundHistory(a, rs) && rs != []
    ensures LedgerTotal(a, rs) + ChannelTotal(a, rs) == Sum(rs)
    ensures a.payable > 0 && LedgerTotal(a, rs) <= a.ledgerPay * Sum(rs) / a.payable <= a.ledgerPay
    ensures ProductsFit(a.ledgerPay, rs) ==> ChannelTotal(a, rs) <= a.channelPay + (|rs| - 1)
    ensures ProductsFit(a.ledgerPay, rs) && Sum(rs) == a.payable ==> LedgerTotal(a, rs) >= a.ledgerPay - (|rs| - 1)
  {
    HistoryPrefix(a, rs);
    SplitTotals(a, rs);
    var t, sum, k, whole := LedgerTotal(a, rs), Sum(rs), |rs|, a.payable;
    FloorAtLeast(t, a.ledgerPay * sum, whole);
    SumNonNegative(rs);
    ShareOfPart(a.ledgerPay, sum, whole);
    if ProductsFit(a.ledgerPay, rs) {
      Shortfall(t, a.ledgerPay, sum, whole, k);
    }
  }

  /** Where even the largest product fits, every product of every refund history does. */
  lemma AllProductsFit(a: Amounts, part: I64, bound: int, rs: seq<I64>)
    requires (forall i :: 0 <= i < |rs| ==> 0 < rs[i]) && Sum(rs) <= bound && 0 <= part && Fits(part * bound)
    ensures ProductsFit(part, rs)
  {
    forall i | 0 <= i < |rs| ensures Fits(part * rs[i]) {
      SumAtLeast(rs, i);
      MulMono(rs[i], bound, part);
      MulNonNeg(part, rs[i]);
    }
  }

  lemma {:induction false} SumAtLeast(rs: seq<I64>, i: nat)
    requires i < |rs| && forall k :: 0 <= k < |rs| ==> 0 < rs[k]
    ensures rs[i] <= Sum(rs)
  {
    SumNonNegative(rs[..|rs| - 1]);
    if i < |rs| - 1 { SumAtLeast(rs[..|rs| - 1], i); }
  }

  /** Everything refunded at once. */
  lemma FullRefund(a: Amounts)
    requires Balanced(a) && a.payable > 0
    ensures RefundHistory(a, [a.payable]) && Sum([a.payable]) == a.payable
    ensures LedgerTotal(a, [a.payable]) == SplitRefund(a, a.payable).ledger
    ensures ChannelTotal(a, [a.payable]) == SplitRefund(a, a.payable).channel
            == a.payable - SplitRefund(a, a.payable).ledger
    ensures SplitRefund(a, a.payable).ledger <= a.ledgerPay
    ensures SplitRefund(a, a.payable).ledger == a.ledgerPay <==> Fits(a.ledgerPay * a.payable)
  {
    hide SplitRefund;
    var all: seq<I64> := [a.payable];
    assert all[..0] == [];
    assert Sum(all[..0]) == 0 && LedgerTotal(a, all[..0]) == 0 && ChannelTotal(a, all[..0]) == 0;
    SplitExact(a, a.payable);
    FloorIs(a.ledgerPay * a.payable, a.payable, a.ledgerPay);
  }

  /**
   * The channel stays within its share up to k - 1 units, in every history of k refunds, if and only if the
   * largest product fits int64.
   */
  lemma ChannelBoundIff(a: Amounts)
    requires Balanced(a) && a.payable > 0
    ensures (forall rs :: RefundHistory(a, rs) && rs != [] ==> ChannelTotal(a, rs) <= a.channelPay + (|rs| - 1))
            <==> Fits(a.ledgerPay * a.payable)
  {
    hide SplitRefund, Sum, ChannelTotal, LedgerTotal;
    FullRefund(a);
    if Fits(a.ledgerPay * a.payable) {
      forall rs | RefundHistory(a, rs) && rs != [] ensures ChannelTotal(a, rs) <= a.channelPay + (|rs| - 1) {
        AllProductsFit(a, a.ledgerPay, a.payable, rs);
        RefundLaw(a, rs);
      }
    }
  }

  /** So does the ledger get its share up to k - 1 units, in every history of k refunds that refunds everything. */
  lemma LedgerBoundIff(a: Amounts)
    requires Balanced(a) && a.payable > 0
    ensures (forall rs ::
              RefundHistory(a, rs) && Sum(rs) == a.payable ==> LedgerTotal(a, rs) >= a.ledgerPay - (|rs| - 1))
            <==> Fits(a.ledgerPay * a.payable)
  {
    hide SplitRefund, ChannelTotal, LedgerTotal;
    FullRefund(a);
    if Fits(a.ledgerPay * a.payable) {
      forall rs | RefundHistory(a, rs) && Sum(rs) == a.payable ensures LedgerTotal(a, rs) >= a.ledgerPay - (|rs| - 1) {
        AllProductsFit(a, a.ledgerPay, a.payable, rs);
        RefundLaw(a, rs);
      }
    }
  }

  /**
   * An order of 2^32 units paid by the ledger alone: its amounts are accepted, and a full refund goes to the
   * channel.
   */
  lemma WrappedRefund() returns (a: Amounts)
    ensures BuildAmounts("CNY", 0x1_0000_0000, 0, 0x1_0000_0000) == Ok(a)
    ensures a.channelPay == 0 && ChannelTotal(a, [a.payable]) == a.payable == 0x1_0000_0000
  {
    hide BuildAmounts, ChannelTotal, MulDiv;
    var units: I64 := 0x1_0000_0000;
    BuildAmountsExact("CNY", units, 0, units);
    a := BuildAmounts("CNY", units, 0, units).value;
    ProductWraps(units);
    PaysNothing(a);
  }

  lemma PaysNothing(a: Amounts)
    requires Balanced(a) && a.payable > 0 && MulDiv(a.ledgerPay, a.payable, a.payable) == 0
    ensures ChannelTotal(a, [a.payable]) == a.payable
  {
    hide SplitRefund, ChannelTotal, MulDiv, Fits;
    FullRefund(a);
    SplitExact(a, a.payable);
  }

  lemma ProductWraps(units: I64)
    requires units == 0x1_0000_0000
    ensures MulDiv(units, units, units) == 0
  {
    WrapIs(units * units, 0, 1);
  }

  lemma ShareOfPart(part: int, sum: int, whole: int)
    requires 0 <= part && 0 <= sum <= whole && 0 < whole
    ensures part * sum / whole <= part
  {
    MulMono(sum, whole, part);
    MulNonNeg(part, sum);
    Euclid(part * sum, whole);
    Distribute(part, 1, whole);
    MulCancel(part * sum / whole, part + 1, whole);
  }

  /** k floors fall short of the exact share by less than k. */
  lemma Shortfall(t: int, part: int, sum: int, whole: int, k: nat)
    requires 0 < k && 0 < whole && 0 <= part <= whole && 0 <= sum <= whole
    requires part * sum - k * (whole - 1) <= t * whole
    ensures sum - t <= (whole - part) + (k - 1)
    ensures sum == whole ==> t >= part - (k - 1)
  {
    var gap := whole - part;
    Distribute(whole, part, sum);
    MulMono(sum, whole, gap);
    Distribute(sum, t, whole);
    Distribute(whole, 1, k);
    Distribute(gap, k, whole);
    assert (sum - t) * whole <= gap * sum + k * whole - k;
    MulCancel(sum - t, gap + k, whole);
  }

  // ---------------------------------------------------------------------------
  // What is paid out
  // ---------------------------------------------------------------------------

  /** What a refund credits to the ledger: its share as int64 computes it, if that is positive. */
  function LedgerDue(a: Amounts, amount: I64): int {
    if a.payable <= 0 then 0
    else
      var share := MulDiv(a.ledgerPay, amount, a.payable);
      if share > 0 then share else 0
  }

  /** What a refund pays back through the channel: the rest, which is more than all of it when the share is negative. */
  function ChannelDue(a: Amounts, amount: I64): int {
    if a.payable <= 0 then amount else amount - MulDiv(a.ledgerPay, amount, a.payable)
  }

  function LedgerDues(a: Amounts, rs: seq<I64>): int {
    if rs == [] then 0 else LedgerDues(a, rs[..|rs| - 1]) + LedgerDue(a, rs[|rs| - 1])
  }

  function ChannelDues(a: Amounts, rs: seq<I64>): int {
    if rs == [] then 0 else ChannelDues(a, rs[..|rs| - 1]) + ChannelDue(a, rs[|rs| - 1])
  }

  /** The true floors of the ledger shares. */
  function LedgerFloors(a: Amounts, rs: seq<I64>): int
    requires a.payable > 0
  {
    if rs == [] then 0 else LedgerFloors(a, rs[..|rs| - 1]) + a.ledgerPay * rs[|rs| - 1] / a.payable
  }

  lemma DuesAppend(a: Amounts, rs: seq<I64>, amount: I64)
    ensures LedgerDues(a, rs + [amount]) == LedgerDues(a, rs) + LedgerDue(a, amount)
    ensures ChannelDues(a, rs + [amount]) == ChannelDues(a, rs) + ChannelDue(a, amount)
    ensures Sum(rs + [amount]) == Sum(rs) + amount
  {
    assert (rs + [amount])[..|rs|] == rs;
  }

  lemma {:induction false} DuesDepend(a: Amounts, b: Amounts, rs: seq<I64>)
    requires a.ledgerPay == b.ledgerPay && a.payable == b.payable
    ensures LedgerDues(a, rs) == LedgerDues(b, rs) && ChannelDues(a, rs) == ChannelDues(b, rs)
  {
    if rs != [] { DuesDepend(a, b, rs[..|rs| - 1]); }
  }

  /** While no product overflows, dues are floors and add up to the refunds. */
  lemma {:induction false} DuesAreFloors(a: Amounts, rs: seq<I64>)
    requires 0 <= a.ledgerPay && 0 < a.payable && (forall i :: 0 <= i < |rs| ==> 0 < rs[i])
    requires ProductsFit(a.ledgerPay, rs)
    ensures LedgerDues(a, rs) == LedgerFloors(a, rs)
    ensures LedgerDues(a, rs) + ChannelDues(a, rs) == Sum(rs)
  {
    hide MulDiv;
    if rs != [] {
      var n := |rs| - 1;
      assert forall i :: 0 <= i < n ==> rs[..n][i] == rs[i];
      DuesAreFloors(a, rs[..n]);
      assert Fits(a.ledgerPay * rs[n]);
      MulDivExact(a.ledgerPay, rs[n], a.payable);
    }
  }

  /** No share computed for these refunds is negative. */
  predicate SharesNonNegative(a: Amounts, rs: seq<I64>)
    requires a.payable > 0
  {
    forall i :: 0 <= i < |rs| ==> 0 <= MulDiv(a.ledgerPay, rs[i], a.payable)
  }

  /** Ledger and channel together are paid at least the refunds, and exactly them unless some share is negative. */
  lemma {:induction false} DuesCover(a: Amounts, rs: seq<I64>)
    requires a.payable > 0
    ensures Sum(rs) <= LedgerDues(a, rs) + ChannelDues(a, rs)
    ensures LedgerDues(a, rs) + ChannelDues(a, rs) == Sum(rs) <==> SharesNonNegative(a, rs)
  {
    hide MulDiv;
    if rs != [] {
      var n := |rs| - 1;
      DuesCover(a, rs[..n]);
      assert forall i :: 0 <= i < n ==> rs[..n][i] == rs[i];
    }
  }

  /**
   * Half of an order of 2^32 units paid by the ledger alone: its share is negative and the channel is paid twice
   * the refund.
   */
  lemma OverpaidRefund() returns (a: Amounts)
    ensures BuildAmounts("CNY", 0x1_0000_0000, 0, 0x1_0000_0000) == Ok(a)
    ensures RefundHistory(a, [0x8000_0000])
    ensures LedgerDue(a, 0x8000_0000) == 0 && ChannelDue(a, 0x8000_0000) == 0x1_0000_0000
  {
    hide BuildAmounts, LedgerDue, ChannelDue, RefundHistory;
    var units: I64, half: I64 := 0x1_0000_0000, 0x8000_0000;
    BuildAmountsExact("CNY", units, 0, units);
    a := BuildAmounts("CNY", units, 0, units).value;
    assert a.ledgerPay == a.payable == units;
    OverpaysHalf(a, half);
    assert RefundHistory(a, [half]);
  }

  lemma OverpaysHalf(a: Amounts, half: I64)
    requires Balanced(a) && a.ledgerPay == a.payable == 0x1_0000_0000 && half == 0x8000_0000
    ensures RefundHistory(a, [half]) && LedgerDue(a, half) == 0 && ChannelDue(a, half) == 2 * half
  {
    hide MulDiv;
    HalfWraps(a.payable, half);
    var one: seq<I64> := [half];
    assert one[..0] == [] && Sum(one[..0]) == 0;
  }

  lemma HalfWraps(units: I64, half: I64)
    requires units == 0x1_0000_0000 && half == 0x8000_0000
    ensures MulDiv(units, half, units) == -half
  {
    WrapIs(units * half, MIN, 1);
  }

  // ---------------------------------------------------------------------------
  // Reversing the discount
  // ---------------------------------------------------------------------------

  function ReverseDiscount(a: Amounts, amount: I64, full: bool): I64 {
    if a.discount <= 0 then 0
    else if full || a.payable <= 0 then 0
    else MulDiv(a.discount, amount, a.payable)
  }

  /** The redemption after the refunds `rs`, a refused reversal leaving it unchanged. */
  function Reversed(a: Amounts, rs: seq<I64>): (rd: Redemption)
    requires Balanced(a)
    ensures rd.discount == a.discount
  {
    if rs == [] then Redemption(a.discount, 0)
    else
      var before := Reversed(a, rs[..|rs| - 1]);
      match Reversal(before, ReverseDiscount(a, rs[|rs| - 1], Sum(rs) == a.payable))
      case Ok(rd) => rd
      case Err(_) => before
  }

  /** What the code asks to reverse for a partial refund. */
  function PartialShare(a: Amounts, amount: I64): I64 { ReverseDiscount(a, amount, false) }

  function SumShares(a: Amounts, rs: seq<I64>): int {
    if rs == [] then 0 else SumShares(a, rs[..|rs| - 1]) + PartialShare(a, rs[|rs| - 1])
  }

  predicate SharesPositive(a: Amounts, rs: seq<I64>) {
    forall i :: 0 <= i < |rs| ==> 1 <= PartialShare(a, rs[i])
  }

  /** Whatever the amounts and their order, reversals never exceed the redeemed discount. */
  lemma {:induction false} NeverOverReversed(a: Amounts, rs: seq<I64>)
    requires Balanced(a)
    ensures ReversedWithin(Reversed(a, rs))
  {
    if rs != [] {
      NeverOverReversed(a, rs[..|rs| - 1]);
      ReversalWithin(Reversed(a, rs[..|rs| - 1]), ReverseDiscount(a, rs[|rs| - 1], Sum(rs) == a.payable));
    }
  }

  lemma {:induction false} SharesBelowDiscount(a: Amounts, rs: seq<I64>)
    requires RefundHistory(a, rs) && 0 < a.payable
    ensures SumShares(a, rs) * a.payable <= a.discount * Sum(rs)
  {
    if rs != [] {
      var n := |rs| - 1;
      HistoryPrefix(a, rs);
      SharesBelowDiscount(a, rs[..n]);
      var s := PartialShare(a, rs[n]);
      MulNonNeg(a.discount, rs[n]);
      if a.discount > 0 {
        MulDivExact(a.discount, rs[n], a.payable);
        Euclid(a.discount * rs[n], a.payable);
        MulMono(s, a.discount * rs[n] / a.payable, a.payable);
      }
      TotalsStep(SumShares(a, rs[..n]), s, Sum(rs[..n]), rs[n], a.discount, a.payable, 0);
    }
  }

  /** Partial refunds with positive shares are reversed to the unit, and never use up the discount. */
  lemma {:induction false} PartialReversals(a: Amounts, rs: seq<I64>)
    requires RefundHistory(a, rs) && Sum(rs) < a.payable && 0 < a.discount && SharesPositive(a, rs)
    ensures Reversed(a, rs).reversed == SumShares(a, rs)
    ensures 0 <= SumShares(a, rs) < a.discount
    ensures rs != [] ==> Reversal(Reversed(a, rs[..|rs| - 1]), PartialShare(a, rs[|rs| - 1])).Ok?
  {
    SharesBelowDiscount(a, rs);
    MulMono(Sum(rs) + 1, a.payable, a.discount);
    Distribute(Sum(rs), 1, a.discount);
    MulCancel(SumShares(a, rs), a.discount, a.payable);
    if rs != [] {
      var n := |rs| - 1;
      HistoryPrefix(a, rs);
      assert SharesPositive(a, rs[..n]);
      PartialReversals(a, rs[..n]);
      ReversalWithin(Reversed(a, rs[..n]), PartialShare(a, rs[n]));
    }
  }

  /** The true floor of the discount's share in a refund. */
  function FloorShare(a: Amounts, amount: I64): int { if a.payable <= 0 then 0 else a.discount * amount / a.payable }

  function SumFloors(a: Amounts, rs: seq<I64>): int {
    if rs == [] then 0 else SumFloors(a, rs[..|rs| - 1]) + FloorShare(a, rs[|rs| - 1])
  }

  /** Partial refunds, each worth at least one unit of discount. */
  predicate FlooredHistory(a: Amounts, rs: seq<I64>) {
    RefundHistory(a, rs) && Sum(rs) < a.payable && forall i :: 0 <= i < |rs| ==> 1 <= FloorShare(a, rs[i])
  }

  /** What the code asks to reverse is the floor share if and only if the product fits int64. */
  lemma ShareIsFloorIff(a: Amounts, amount: I64)
    requires Balanced(a) && 0 < amount && 0 < a.payable
    ensures PartialShare(a, amount) == FloorShare(a, amount) <==> Fits(a.discount * amount)
    ensures PartialShare(a, amount) <= FloorShare(a, amount)
  {
    MulDivExact(a.discount, amount, a.payable);
  }

  lemma {:induction false} FloorsReversed(a: Amounts, rs: seq<I64>)
    requires FlooredHistory(a, rs) && Fits(a.discount * (a.payable - 1))
    ensures SharesPositive(a, rs) && SumShares(a, rs) == SumFloors(a, rs)
  {
    hide PartialShare, FloorShare;
    if rs != [] {
      var n := |rs| - 1;
      HistoryPrefix(a, rs);
      FloorsReversed(a, rs[..n]);
      AllProductsFit(a, a.discount, a.payable - 1, rs);
      ShareIsFloorIff(a, rs[n]);
      forall i | 0 <= i < |rs| ensures 1 <= PartialShare(a, rs[i]) { ShareIsFloorIff(a, rs[i]); }
    }
  }

  /** Everything but one unit refunded at once, with a product that wraps: the reversal is not the floor share. */
  lemma AllButOne(a: Amounts)
    requires Balanced(a) && !Fits(a.discount * (a.payable - 1))
    ensures a.payable > 1 && FlooredHistory(a, [a.payable - 1])
    ensures Reversed(a, [a.payable - 1]).reversed != SumFloors(a, [a.payable - 1])
  {
    hide PartialShare, Reversed, FloorShare;
    WideShare(a);
    var most: I64, none: seq<I64> := a.payable - 1, [];
    assert ([most])[..0] == none && none + [most] == [most];
    assert Sum(([most])[..0]) == 0 && SumFloors(a, ([most])[..0]) == 0;
    ShareIsFloorIff(a, most);
    PartialReversedByShareIff(a, none, most);
    NothingReversed(a);
  }

  lemma WideShare(a: Amounts)
    requires Balanced(a) && !Fits(a.discount * (a.payable - 1))
    ensures a.payable > 1 && 1 <= FloorShare(a, a.payable - 1) < a.discount
  {
    var d: int, p: int := a.discount, a.payable;
    if p <= 1 {
      MulMono(p - 1, 0, d);
      MulMono(-1, p - 1, d);
    }
    MulNonNeg(d, p - 1);
    FloorAtLeast(1, d * (p - 1), p);
    Distribute(p, 1, d);
    Euclid(d * (p - 1), p);
    MulCancel(d * (p - 1) / p, d, p);
  }

  lemma NothingReversed(a: Amounts)
    requires Balanced(a)
    ensures Reversed(a, []) == Redemption(a.discount, 0)
  {
  }

  /**
   * Partial refunds that are worth at least a unit of discount each are reversed by exactly their floor
   * shares, in every history, if and only if the largest product fits int64.
   */
  lemma FloorsReversedIff(a: Amounts)
    requires Balanced(a)
    ensures (forall rs :: FlooredHistory(a, rs) ==> Reversed(a, rs).reversed == SumFloors(a, rs))
            <==> Fits(a.discount * (a.payable - 1))
  {
    hide Reversed, PartialShare, FloorShare, Sum;
    if Fits(a.discount * (a.payable - 1)) {
      forall rs | FlooredHistory(a, rs) ensures Reversed(a, rs).reversed == SumFloors(a, rs) {
        if rs == [] {
          NothingReversed(a);
        } else {
          DiscountedHistory(a, rs);
          FloorsReversed(a, rs);
          PartialReversals(a, rs);
        }
      }
    } else {
      AllButOne(a);
    }
  }

  lemma DiscountedHistory(a: Amounts, rs: seq<I64>)
    requires FlooredHistory(a, rs) && rs != []
    ensures 0 < a.discount
  {
    assert 1 <= FloorShare(a, rs[0]);
  }

  /**
   * After partial refunds with positive shares the refund that empties the order always finds at
   * least one unit to reverse, and brings the reversed total to the discount exactly.
   */
  lemma FullRefundReversesAll(a: Amounts, rs: seq<I64>, last: I64)
    requires RefundHistory(a, rs + [last]) && Sum(rs + [last]) == a.payable
    requires 0 < a.discount && SharesPositive(a, rs)
    ensures Reversed(a, rs).reversed < a.discount
    ensures Reversed(a, rs + [last]).reversed == a.discount
  {
    var all := rs + [last];
    assert all[..|rs|] == rs && all[|rs|] == last;
    HistoryPrefix(a, all);
    PartialReversals(a, rs);
    ReversalWithin(Reversed(a, rs), 0);
  }

  /**
   * A partial refund is reversed by its own share exactly when that share is positive and still
   * available, or when nothing is left and the share is zero; a zero share on an unreversed
   * redemption empties it instead.
   */
  lemma PartialReversedByShareIff(a: Amounts, rs: seq<I64>, amount: I64)
    requires Balanced(a) && Sum(rs + [amount]) != a.payable
    ensures var before, after, share := Reversed(a, rs), Reversed(a, rs + [amount]), PartialShare(a, amount);
            && (after.reversed == before.reversed + share <==>
                (0 < share <= a.discount - before.reversed) || (share <= 0 && share == a.discount - before.reversed))
            && (share <= 0 ==> after.reversed == a.discount)
  {
    var all := rs + [amount];
    assert all[..|rs|] == rs && all[|rs|] == amount;
    NeverOverReversed(a, rs);
    ReversalWithin(Reversed(a, rs), PartialShare(a, amount));
  }

  lemma ZeroShare(a: Amounts, amount: I64)
    requires Balanced(a) && 0 < amount < a.payable && 0 < a.discount && a.discount * amount < a.payable
    ensures PartialShare(a, amount) == 0
  {
    MulNonNeg(a.discount, amount);
    MulDivExact(a.discount, amount, a.payable);
    FloorIs(a.discount * amount, a.payable, 0);
  }

  /** A partial refund too small for a unit of discount reverses all that is left, whatever was refunded before. */
  lemma SmallRefundReversesEverything(a: Amounts, rs: seq<I64>, amount: I64)
    requires Balanced(a) && Sum(rs + [amount]) != a.payable
    requires 0 < amount < a.payable && 0 < a.discount && a.discount * amount < a.payable
    ensures PartialShare(a, amount) == 0 && Reversed(a, rs + [amount]).reversed == a.discount
  {
    ZeroShare(a, amount);
    hide PartialShare, Reversed, Sum;
    PartialReversedByShareIff(a, rs, amount);
  }

  /** One cent of a 1.00 order with a one-cent discount is such a refund. */
  lemma SmallRefundExists()
    ensures exists a: Amounts, rs: seq<I64>, amount: I64 ::
      && RefundHistory(a, rs + [amount]) && PartialShare(a, amount) == 0
      && Reversed(a, rs).reversed < Reversed(a, rs + [amount]).reversed == a.discount
  {
    hide PartialShare;
    var one: I64 :| one == 1;
    var none: seq<I64> := [];
    var a, amount := Amounts("CNY", 100 + one, one, 100 * one, 0, 100 * one, 100 * one, 0), one;
    assert (none + [amount])[..0] == none;
    SmallRefundReversesEverything(a, none, amount);
  }
}

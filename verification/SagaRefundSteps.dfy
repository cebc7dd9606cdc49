/** The steps of refund, completion and close. */
module SagaRefundSteps {
  import opened Base
  import opened Int64
  import opened Arith
  import opened Amounts
  import opened Orders
  import opened RefundMath
  import opened RefundRuns
  import opened SagaState
  import opened SagaProgram
  import opened SagaInvariant
  import opened SagaCalls
  import opened SagaStore
  import opened SagaStability
  import opened SagaSteps
  import L = Ledger
  import F = Offer

  lemma RefundStepOk(sh: Shared, t: Tid, pc: Pc, out: Outcome)
    requires SharedOk(sh) && InRefund(pc) && RefundCallOk(sh, t, pc)
    ensures var (b, next) := RefundStep(sh, t, pc, out); SharedOk(b) && Guarantee(sh, b, t) && CallOk(b, t, next)
  {
    hide SharedOk, Guarantee, RefundStep, CallOk, SnapOk, Refunds, PaidBack;
    if pc.RfRead? {
      var RfRead(oid, cmd) := pc;
      RefundReadStep(sh, t, oid, cmd, out);
    } else if pc.RfCas? {
      var RfCas(oid, snap, amount) := pc;
      RefundCasStep(sh, t, oid, snap, amount, out);
    } else if pc.RfChannel? {
      var RfChannel(oid, snap, amount) := pc;
      RefundChannelStep(sh, t, oid, snap, amount, out);
    } else if pc.RfCredit? {
      var RfCredit(oid, snap, amount) := pc;
      RefundCreditStep(sh, t, oid, snap, amount, out);
    } else if pc.RfReverse? {
      var RfReverse(oid, snap, amount) := pc;
      RefundReverseStep(sh, t, oid, snap, amount, out);
    } else if pc.RfReverseTicket? {
      var RfReverseTicket(oid, snap, amount) := pc;
      RefundTicketStep(sh, t, oid, snap, amount, out);
    } else if pc.RfFinish? {
      var RfFinish(oid, snap, amount) := pc;
      RefundFinishStep(sh, t, oid, snap, amount, out);
    }
  }

  lemma RefundReadStep(sh: Shared, t: Tid, oid: OrderId, cmd: RefundCmd, out: Outcome)
    requires SharedOk(sh)
    ensures var (b, next) := RefundStep(sh, t, RfRead(oid, cmd), out);
            SharedOk(b) && Guarantee(sh, b, t) && CallOk(b, t, next)
  {
    hide SharedOk, Guarantee, SnapOk, CallOk, RefundStep;
    Stays(sh, t);
    Ended(sh, t);
    RefundReadLeadsTo(sh, t, oid, cmd, out);
    var next := RefundStep(sh, t, RfRead(oid, cmd), out).1;
    if next.RfCas? {
      ReadOk(sh, oid);
      RefundMayStart(sh, t, oid, next.snap, next.amount);
    }
  }

  lemma RefundReadLeadsTo(sh: Shared, t: Tid, oid: OrderId, cmd: RefundCmd, out: Outcome)
    ensures var (b, next) := RefundStep(sh, t, RfRead(oid, cmd), out);
            && b == sh
            && (|| next == Returned
                || (oid in sh.repo.orders && next.RfCas? && next.oid == oid && next.snap == sh.repo.orders[oid]
                    && RefundableStatus(next.snap.status) && 0 < next.amount <= RefundableAmount(next.snap)))
  {
    hide Resolve, RefundableAmount, RefundableStatus;
  }

  lemma RefundMayStart(sh: Shared, t: Tid, oid: OrderId, snap: Order, amount: I64)
    requires SnapOk(sh, oid, snap) && RefundableStatus(snap.status) && 0 < amount <= RefundableAmount(snap)
    ensures CallOk(sh, t, RfCas(oid, snap, amount))
  {
    hide CheckoutCallOk, PayCallOk, AfterCallOk, CancelCallOk, CloseCallOk, TicketCallOk, ReconCallOk;
    hide SameTerms;
  }

  lemma RefundCasStep(sh: Shared, t: Tid, oid: OrderId, snap: Order, amount: I64, out: Outcome)
    requires SharedOk(sh) && RefundCallOk(sh, t, RfCas(oid, snap, amount))
    ensures var (b, next) := RefundStep(sh, t, RfCas(oid, snap, amount), out);
            SharedOk(b) && Guarantee(sh, b, t) && CallOk(b, t, next)
  {
    hide SharedOk, Guarantee, SnapOk, Cas, FieldsOk, HoldsRedemption, CallOk;
    Stays(sh, t);
    CasOk(sh, t, oid, ReqRefundStart, snap);
    var (b, o) := Cas(sh, t, oid, ReqRefundStart, snap);
    Ended(sh, t);
    Ended(b, t);
    if o.Some? { RefundStarted(sh, t, oid, snap, amount); }
  }

  /** The refund that took the order to REFUNDING owns it, and just what earlier refunds owe was paid. */
  lemma RefundStarted(sh: Shared, t: Tid, oid: OrderId, snap: Order, amount: I64)
    requires SharedOk(sh) && RefundCallOk(sh, t, RfCas(oid, snap, amount))
    requires Cas(sh, t, oid, ReqRefundStart, snap).1.Some?
    ensures CallOk(Cas(sh, t, oid, ReqRefundStart, snap).0, t,
              RfChannel(oid, snap.(version := snap.version + 1, status := Refunding), amount))
  {
    hide SharedOk, Guarantee, HoldsRedemption, PathFits, HoldsFreeze, HoldsReservation, SnapFits, CreditsWithin,
      FieldsOk, Cas, CallOk, PaidBack;
    var b := Cas(sh, t, oid, ReqRefundStart, snap).0;
    var snap' := snap.(version := snap.version + 1, status := Refunding);
    CasOk(sh, t, oid, ReqRefundStart, snap);
    OrderFacts(sh, oid);
    RefundSnap(sh.repo.orders[oid], b.repo.orders[oid], oid, snap);
    PaymentsKnown(sh);
    RefundNotAhead(sh, oid, snap, amount);
    RefundClaimed(sh, t, oid, snap);
    SamePayments(sh, b, oid, snap', amount, false, false);
    RefundOwned(b, t, oid, snap', amount);
  }

  lemma RefundClaimed(sh: Shared, t: Tid, oid: OrderId, snap: Order)
    requires Cas(sh, t, oid, ReqRefundStart, snap).1.Some?
    ensures var b := Cas(sh, t, oid, ReqRefundStart, snap).0;
            && oid in b.hist.trail.refunder && b.hist.trail.refunder[oid] == t
            && b.hist.trail == sh.hist.trail.(refunder := b.hist.trail.refunder)
  {
    hide Transition;
  }

  lemma RefundOwned(sh: Shared, t: Tid, oid: OrderId, snap: Order, amount: I64)
    requires Refunds(sh, t, oid, snap, amount) && PaidBack(sh, oid, snap, amount, false, false)
    ensures CallOk(sh, t, RfChannel(oid, snap, amount))
  {
    hide CheckoutCallOk, PayCallOk, AfterCallOk, CancelCallOk, CloseCallOk, TicketCallOk, ReconCallOk;
    hide Refunds, PaidBack;
  }

  /** The updated snapshot describes the order in REFUNDING. */
  lemma RefundSnap(o: Order, p: Order, oid: OrderId, snap: Order)
    requires SnapFits(snap, o, oid) && o.version == snap.version && RefundableStatus(snap.status)
    requires p == Updated(o, CommandOf(ReqRefundStart, snap)) && FieldsOk(p)
    ensures SnapFits(snap.(version := snap.version + 1, status := Refunding), p, oid)
  {
  }

  lemma RefundNotAhead(sh: Shared, oid: OrderId, snap: Order, amount: I64)
    requires SnapOk(sh, oid, snap) && RefundableStatus(snap.status) && sh.repo.orders[oid].version == snap.version
    requires CreditsWithin(CreditedTo(sh.hist.trail.payments, oid), sh.repo.orders[oid])
    requires PaymentsOk(sh.repo.orders, sh.hist.trail.refunds, sh.hist.trail.payments, sh.ledger.credits)
    ensures PaidBack(sh, oid, snap.(version := snap.version + 1, status := Refunding), amount, false, false)
  {
    hide FieldsOk, CreditedTo, ChannelledTo, ChannelDues, LedgerDues, Sum, PaidInto;
    assert RefundsFit(sh.repo.orders[oid], RefundsOf(sh.hist.trail.refunds, oid), sh.hist.trail.payments, oid);
  }

  lemma RefundGoesOn(sh: Shared, b: Shared, t: Tid, oid: OrderId, snap: Order, amount: I64, channel: bool, ledger: bool)
    requires Refunds(sh, t, oid, snap, amount) && PaidBack(b, oid, snap, amount, channel, ledger)
    requires b.repo.orders == sh.repo.orders && b.hist.trail.refunder == sh.hist.trail.refunder
    ensures channel && !ledger ==> CallOk(b, t, RfCredit(oid, snap, amount))
    ensures channel && ledger ==>
              CallOk(b, t, RfReverse(oid, snap, amount)) && CallOk(b, t, RfReverseTicket(oid, snap, amount))
                && CallOk(b, t, RfFinish(oid, snap, amount))
  {
    hide CheckoutCallOk, PayCallOk, AfterCallOk, CancelCallOk, CloseCallOk, TicketCallOk, ReconCallOk;
    hide Refunds, PaidBack;
    RefundsKept(sh, b, t, oid, snap, amount);
  }

  lemma RefundsKept(sh: Shared, b: Shared, t: Tid, oid: OrderId, snap: Order, amount: I64)
    requires Refunds(sh, t, oid, snap, amount)
    requires b.repo.orders == sh.repo.orders && b.hist.trail.refunder == sh.hist.trail.refunder
    ensures Refunds(b, t, oid, snap, amount)
  {
    hide SnapFits;
  }

  lemma RefundChannelStep(sh: Shared, t: Tid, oid: OrderId, snap: Order, amount: I64, out: Outcome)
    requires SharedOk(sh) && RefundCallOk(sh, t, RfChannel(oid, snap, amount))
    ensures var (b, next) := RefundStep(sh, t, RfChannel(oid, snap, amount), out);
            SharedOk(b) && Guarantee(sh, b, t) && CallOk(b, t, next)
  {
    hide SharedOk, Guarantee, Refunds, PaidBack, CallOk, SplitRefund, PayChannel;
    Stays(sh, t);
    Ended(sh, t);
    var c := SplitRefund(snap.amounts, amount).channel;
    RefundIsOwn(sh, t, oid, snap, amount);
    RefundSplit(sh, t, oid, snap, amount);
    if c > 0 {
      PayChannelOk(sh, t, oid, c);
      Ended(PayChannel(sh, oid, c), t);
      ChannelPaid(sh, oid, snap, amount);
      PayChannelKeeps(sh, oid, c);
      RefundGoesOn(sh, PayChannel(sh, oid, c), t, oid, snap, amount, true, false);
    } else {
      NothingChannelled(sh, oid, snap, amount);
      RefundGoesOn(sh, sh, t, oid, snap, amount, true, false);
    }
  }

  lemma RefundIsOwn(sh: Shared, t: Tid, oid: OrderId, snap: Order, amount: I64)
    requires Refunds(sh, t, oid, snap, amount)
    ensures RefundsIt(sh, t, oid)
    ensures sh.repo.orders[oid].scene == snap.scene && AccountOf(sh.repo.orders[oid]) == AccountOf(snap)
  {
    hide FieldsOk;
  }

  /** The parts of the split are what the refund owes. */
  lemma RefundSplit(sh: Shared, t: Tid, oid: OrderId, snap: Order, amount: I64)
    requires Refunds(sh, t, oid, snap, amount)
    ensures SplitRefund(snap.amounts, amount).channel == ChannelDue(snap.amounts, amount) >= 0
    ensures var c := SplitRefund(snap.amounts, amount).ledger; LedgerDue(snap.amounts, amount) == if c > 0 then c else 0
  {
    hide SplitRefund, SameTerms, MulDiv;
    SplitExact(snap.amounts, amount);
  }

  lemma PayChannelKeeps(sh: Shared, oid: OrderId, c: int)
    ensures var b := PayChannel(sh, oid, c);
            b.repo == sh.repo && b.hist.trail.refunder == sh.hist.trail.refunder
  {
  }

  lemma ChannelPaid(sh: Shared, oid: OrderId, snap: Order, amount: I64)
    requires PaidBack(sh, oid, snap, amount, false, false)
    requires SplitRefund(snap.amounts, amount).channel == ChannelDue(snap.amounts, amount)
    ensures PaidBack(PayChannel(sh, oid, SplitRefund(snap.amounts, amount).channel), oid, snap, amount, true, false)
  {
    hide CreditedTo, ChannelledTo, ChannelDues, LedgerDues, ChannelDue, LedgerDue, SplitRefund;
    var c := SplitRefund(snap.amounts, amount).channel;
    PaymentAdded(sh.hist.trail.payments, Payment(oid, Channel, c), oid, AccountOf(snap));
  }

  lemma NothingChannelled(sh: Shared, oid: OrderId, snap: Order, amount: I64)
    requires PaidBack(sh, oid, snap, amount, false, false) && ChannelDue(snap.amounts, amount) == 0
    ensures PaidBack(sh, oid, snap, amount, true, false)
  {
    hide CreditedTo, ChannelledTo, ChannelDues, LedgerDues, ChannelDue, LedgerDue;
  }

  /** The credit of a refund keeps the total within the ledger share of everything refunded including it. */
  lemma CreditFits(credited: int, snap: Order, amount: I64)
    requires Balanced(snap.amounts) && 0 < amount <= snap.amounts.paid - snap.amounts.refunded
    requires credited * snap.amounts.payable <= snap.amounts.ledgerPay * snap.amounts.refunded
    ensures var c := SplitRefund(snap.amounts, amount).ledger;
            && (credited + c) * snap.amounts.payable <= snap.amounts.ledgerPay * (snap.amounts.refunded + amount)
            && (credited + c) * snap.amounts.payable <= snap.amounts.ledgerPay * snap.amounts.payable
            && credited * snap.amounts.payable <= snap.amounts.ledgerPay * (snap.amounts.refunded + amount)
  {
    var a := snap.amounts;
    SplitExact(a, amount);
    var c, floor := SplitRefund(a, amount).ledger, a.ledgerPay * amount / a.payable;
    Euclid(a.ledgerPay * amount, a.payable);
    MulMono(c, floor, a.payable);
    Distribute(credited, c, a.payable);
    Distribute(a.refunded, amount, a.ledgerPay);
    MulMono(a.refunded + amount, a.payable, a.ledgerPay);
    MulNonNeg(a.ledgerPay, amount);
  }

  lemma RefundCreditStep(sh: Shared, t: Tid, oid: OrderId, snap: Order, amount: I64, out: Outcome)
    requires SharedOk(sh) && RefundCallOk(sh, t, RfCredit(oid, snap, amount))
    ensures var (b, next) := RefundStep(sh, t, RfCredit(oid, snap, amount), out);
            SharedOk(b) && Guarantee(sh, b, t) && CallOk(b, t, next)
  {
    hide SharedOk, Guarantee, CallOk, SplitRefund, Credit, AccountOf, HasLedgerFreeze, RefundStep, RefundCallOk;
    RefundCreditLeadsTo(sh, t, oid, snap, amount, out);
    Stays(sh, t);
    Ended(sh, t);
    ShareIsMoney(sh, t, oid, snap, amount);
    if SplitRefund(snap.amounts, amount).ledger > 0 {
      RefundCreditTaken(sh, t, oid, snap, amount);
    } else {
      RefundCreditSkipped(sh, t, oid, snap, amount);
    }
  }

  /** Where the ledger has a share, the order has ledger money. */
  lemma ShareIsMoney(sh: Shared, t: Tid, oid: OrderId, snap: Order, amount: I64)
    requires RefundCallOk(sh, t, RfCredit(oid, snap, amount))
    ensures SplitRefund(snap.amounts, amount).ledger > 0 ==> HasLedgerFreeze(snap)
  {
    hide SplitRefund, SameTerms, PaidBack, MulDiv;
    SplitExact(snap.amounts, amount);
    if snap.amounts.ledgerPay == 0 { MulDivExact(0, amount, snap.amounts.payable); }
  }

  lemma RefundCreditSkipped(sh: Shared, t: Tid, oid: OrderId, snap: Order, amount: I64)
    requires SharedOk(sh) && RefundCallOk(sh, t, RfCredit(oid, snap, amount))
    requires SplitRefund(snap.amounts, amount).ledger <= 0
    ensures CallOk(sh, t, RfReverse(oid, snap, amount))
  {
    hide SharedOk, Refunds, CallOk, SplitRefund, CreditsWithin, LooseOn, HasLedgerFreeze;
    hide CreditedTo, ChannelledTo, ChannelDues, LedgerDues, ChannelDue, LedgerDue;
    RefundCreditRoom(sh, t, oid, snap, amount);
    RefundSplit(sh, t, oid, snap, amount);
    assert PaidBack(sh, oid, snap, amount, true, true);
    RefundGoesOn(sh, sh, t, oid, snap, amount, true, true);
  }

  lemma RefundCreditTaken(sh: Shared, t: Tid, oid: OrderId, snap: Order, amount: I64)
    requires SharedOk(sh) && RefundCallOk(sh, t, RfCredit(oid, snap, amount))
    requires SplitRefund(snap.amounts, amount).ledger > 0 && HasLedgerFreeze(snap)
    ensures var b := Credit(sh, oid, AccountOf(snap), SplitRefund(snap.amounts, amount).ledger);
            SharedOk(b) && Guarantee(sh, b, t) && CallOk(b, t, RfReverse(oid, snap, amount)) && CallOk(b, t, Returned)
  {
    hide SharedOk, Guarantee, Refunds, CallOk, SplitRefund, CreditsWithin, PaidBack, Credit, LooseOn, AccountOf,
      HasLedgerFreeze, CreditedTo;
    var c := SplitRefund(snap.amounts, amount).ledger;
    RefundCreditRoom(sh, t, oid, snap, amount);
    RefundIsOwn(sh, t, oid, snap, amount);
    CreditOk(sh, t, oid, AccountOf(snap), c);
    Ended(Credit(sh, oid, AccountOf(snap), c), t);
    RefundCredited(sh, t, oid, snap, amount);
  }

  lemma RefundCreditLeadsTo(sh: Shared, t: Tid, oid: OrderId, snap: Order, amount: I64, out: Outcome)
    ensures var c := SplitRefund(snap.amounts, amount).ledger;
            var (b, next) := RefundStep(sh, t, RfCredit(oid, snap, amount), out);
            if c > 0 && HasLedgerFreeze(snap) then
              || (b == sh && next == Returned)
              || (b == Credit(sh, oid, AccountOf(snap), c)
                   && (next == RfReverse(oid, snap, amount) || next == Returned))
            else b == sh && next == RfReverse(oid, snap, amount)
  {
    hide SplitRefund, Credit, HasLedgerFreeze, AccountOf;
  }

  /** What the credit call needs, from owning the refund. */
  lemma RefundCreditRoom(sh: Shared, t: Tid, oid: OrderId, snap: Order, amount: I64)
    requires SharedOk(sh) && RefundCallOk(sh, t, RfCredit(oid, snap, amount))
    ensures var c, credited := SplitRefund(snap.amounts, amount).ledger, CreditedTo(sh.hist.trail.payments, oid);
            && oid in sh.repo.orders
            && CreditsWithin(credited + c, sh.repo.orders[oid])
            && (!snap.scene.allowClose ==>
                  && credited * snap.amounts.payable <= snap.amounts.ledgerPay * (snap.amounts.refunded + amount)
                  && (credited + c) * snap.amounts.payable <= snap.amounts.ledgerPay * (snap.amounts.refunded + amount))
            && (HasLedgerFreeze(snap) ==>
                 AccountOf(snap) in sh.ledger.opening || LooseOn(sh.repo.orders[oid], AccountOf(snap)))
  {
    hide SharedOk, SplitRefund, HoldsFreeze, SameTerms, CreditedTo, ChannelledTo, ChannelDues, LedgerDues, ChannelDue,
      LedgerDue;
    assert SnapFits(snap, sh.repo.orders[oid], oid);
    assert snap.scene == sh.repo.orders[oid].scene by { SnapStatus(sh, oid, snap); }
    if !snap.scene.allowClose {
      CreditFits(CreditedTo(sh.hist.trail.payments, oid), snap, amount);
    }
    RefundAccount(sh, oid, snap);
  }

  lemma RefundAccount(sh: Shared, oid: OrderId, snap: Order)
    requires SharedOk(sh) && SnapOk(sh, oid, snap)
    ensures HasLedgerFreeze(snap) ==>
            AccountOf(snap) in sh.ledger.opening || LooseOn(sh.repo.orders[oid], AccountOf(snap))
  {
    SnapRefs(sh, oid, snap);
    hide OrdersOk, IndexOk, LogOk, OpeningOk, FreezeCallsOk, OfferOk, OfferCallsOk, TicketsOk, CompensatingOk,
      AdvancesOk, PaymentsOk, SnapFits, L.Conserved;
  }

  lemma RefundCredited(sh: Shared, t: Tid, oid: OrderId, snap: Order, amount: I64)
    requires SharedOk(sh) && RefundCallOk(sh, t, RfCredit(oid, snap, amount))
    requires SplitRefund(snap.amounts, amount).ledger > 0
    ensures var b := Credit(sh, oid, AccountOf(snap), SplitRefund(snap.amounts, amount).ledger);
            CallOk(b, t, RfReverse(oid, snap, amount))
  {
    hide SharedOk, SplitRefund, L.DoCredit, Refunds, CallOk, CreditsWithin, LooseOn, HasLedgerFreeze, AccountOf;
    hide CreditedTo, ChannelledTo, ChannelDues, LedgerDues, ChannelDue, LedgerDue;
    var c := SplitRefund(snap.amounts, amount).ledger;
    var b := Credit(sh, oid, AccountOf(snap), c);
    RefundCreditRoom(sh, t, oid, snap, amount);
    RefundSplit(sh, t, oid, snap, amount);
    PaymentAdded(sh.hist.trail.payments, Payment(oid, Wallet(AccountOf(snap)), c), oid, AccountOf(snap));
    assert PaidBack(b, oid, snap, amount, true, true);
    RefundGoesOn(sh, b, t, oid, snap, amount, true, true);
  }

  lemma RefundReverseStep(sh: Shared, t: Tid, oid: OrderId, snap: Order, amount: I64, out: Outcome)
    requires SharedOk(sh) && RefundCallOk(sh, t, RfReverse(oid, snap, amount))
    ensures var (b, next) := RefundStep(sh, t, RfReverse(oid, snap, amount), out);
            SharedOk(b) && Guarantee(sh, b, t) && CallOk(b, t, next)
  {
    hide SharedOk, Guarantee, Refunds, CallOk, ReverseDiscount, PaidBack, F.DoReverse;
    Stays(sh, t);
    RefundGoesOn(sh, sh, t, oid, snap, amount, true, true);
    if snap.redemption.Some? {
      var rev := ReverseDiscount(snap.amounts, amount, IsFull(snap, amount));
      ReverseOk(sh, t, snap.redemption.value, rev);
      var b := Reverse(sh, snap.redemption.value, rev).0;
      SamePayments(sh, b, oid, snap, amount, true, true);
      RefundGoesOn(sh, b, t, oid, snap, amount, true, true);
    }
  }

  lemma SamePayments(sh: Shared, b: Shared, oid: OrderId, snap: Order, amount: I64, channel: bool, ledger: bool)
    requires PaidBack(sh, oid, snap, amount, channel, ledger)
    requires b.hist.trail == sh.hist.trail.(refunder := b.hist.trail.refunder)
    ensures PaidBack(b, oid, snap, amount, channel, ledger)
  {
    hide CreditedTo, ChannelledTo, ChannelDues, LedgerDues, ChannelDue, LedgerDue;
  }

  lemma RefundTicketStep(sh: Shared, t: Tid, oid: OrderId, snap: Order, amount: I64, out: Outcome)
    requires SharedOk(sh) && RefundCallOk(sh, t, RfReverseTicket(oid, snap, amount))
    ensures var (b, next) := RefundStep(sh, t, RfReverseTicket(oid, snap, amount), out);
            SharedOk(b) && Guarantee(sh, b, t) && CallOk(b, t, next)
  {
    hide SharedOk, Guarantee, Refunds, CallOk, PaidBack, HasTicket;
    Stays(sh, t);
    RefundGoesOn(sh, sh, t, oid, snap, amount, true, true);
    if snap.redemption.Some? {
      InsertTicketOk(sh, t, OfferReverse(snap.redemption.value), out);
      var b := InsertTicket(sh, OfferReverse(snap.redemption.value), out);
      SamePayments(sh, b, oid, snap, amount, true, true);
      RefundGoesOn(sh, b, t, oid, snap, amount, true, true);
    }
  }

  lemma RefundFinishStep(sh: Shared, t: Tid, oid: OrderId, snap: Order, amount: I64, out: Outcome)
    requires SharedOk(sh) && RefundCallOk(sh, t, RfFinish(oid, snap, amount))
    ensures var (b, next) := RefundStep(sh, t, RfFinish(oid, snap, amount), out);
            SharedOk(b) && Guarantee(sh, b, t) && CallOk(b, t, next)
  {
    hide SharedOk, Guarantee, CallOk, Cas, PaidBack, FieldsOk, HoldsRedemption, SnapOk, IsFull;
    Stays(sh, t);
    Ended(sh, t);
    var req := ReqRefundEnd(amount, IsFull(snap, amount));
    CasOk(sh, t, oid, req, snap);
    Ended(Cas(sh, t, oid, req, snap).0, t);
  }

  // ---------------------------------------------------------------------------
  // Completion and close
  // ---------------------------------------------------------------------------

  predicate ClosingSnap(sh: Shared, oid: OrderId, snap: Order) {
    SnapOk(sh, oid, snap) && snap.scene.allowClose && snap.status in {Paid, Fulfilling, Completed}
  }

  lemma CloseStepOk(sh: Shared, t: Tid, pc: Pc, out: Outcome)
    requires SharedOk(sh) && InClose(pc) && CloseCallOk(sh, t, pc)
    ensures var (b, next) := CloseStep(sh, t, pc, out); SharedOk(b) && Guarantee(sh, b, t) && CallOk(b, t, next)
  {
    hide SharedOk, Guarantee, CloseStep, CallOk, SnapOk;
    if pc.CoRead? { var CoRead(oid) := pc; CompleteReadStep(sh, t, oid, out); }
    else if pc.CoCas? { var CoCas(oid, snap) := pc; CompleteCasStep(sh, t, oid, snap, out); }
    else if pc.ClRead? { var ClRead(oid) := pc; CloseReadStep(sh, t, oid, out); }
    else if pc.ClOffer? { var ClOffer(oid, snap) := pc; CloseOfferStep(sh, t, oid, snap, out); }
    else if pc.ClCredit? { var ClCredit(oid, snap) := pc; CloseCreditStep(sh, t, oid, snap, out); }
    else if pc.ClFulfil? { var ClFulfil(oid, snap) := pc; CloseFulfilStep(sh, t, oid, snap, out); }
    else if pc.ClCas? { var ClCas(oid, snap) := pc; CloseCasStep(sh, t, oid, snap, out); }
  }

  lemma CloseGoesOn(sh: Shared, b: Shared, t: Tid, oid: OrderId, snap: Order)
    requires Guarantee(sh, b, t) && ClosingSnap(sh, oid, snap)
    ensures CallOk(b, t, ClOffer(oid, snap)) && CallOk(b, t, ClCredit(oid, snap))
    ensures CallOk(b, t, ClFulfil(oid, snap)) && CallOk(b, t, ClCas(oid, snap)) && CallOk(b, t, Returned)
  {
    hide CheckoutCallOk, PayCallOk, AfterCallOk, CancelCallOk, RefundCallOk, TicketCallOk, ReconCallOk;
    hide Guarantee, SnapOk;
    SnapCarries(sh, b, t, oid, snap);
  }

  /** The reads of completion and close change nothing and go on only with an order they may act on. */
  lemma ReadLeadsTo(sh: Shared, t: Tid, oid: OrderId, out: Outcome)
    ensures var r := CloseStep(sh, t, CoRead(oid), out);
            r == (sh, Returned) || (oid in sh.repo.orders && r == (sh, CoCas(oid, sh.repo.orders[oid])))
    ensures var r := CloseStep(sh, t, ClRead(oid), out);
            || r == (sh, Returned)
            || (oid in sh.repo.orders && r == (sh, ClOffer(oid, sh.repo.orders[oid]))
                && sh.repo.orders[oid].scene.allowClose && sh.repo.orders[oid].status in {Paid, Fulfilling, Completed})
  {
  }

  lemma CompleteReadStep(sh: Shared, t: Tid, oid: OrderId, out: Outcome)
    requires SharedOk(sh)
    ensures var (b, next) := CloseStep(sh, t, CoRead(oid), out);
            SharedOk(b) && Guarantee(sh, b, t) && CallOk(b, t, next)
  {
    hide SharedOk, Guarantee, SnapOk, CallOk, CloseStep;
    Stays(sh, t);
    Ended(sh, t);
    ReadLeadsTo(sh, t, oid, out);
    if oid in sh.repo.orders {
      ReadOk(sh, oid);
      Starts(sh, t, oid, sh.repo.orders[oid]);
    }
  }

  lemma CompleteCasStep(sh: Shared, t: Tid, oid: OrderId, snap: Order, out: Outcome)
    requires SharedOk(sh) && SnapOk(sh, oid, snap)
    ensures var (b, next) := CloseStep(sh, t, CoCas(oid, snap), out);
            SharedOk(b) && Guarantee(sh, b, t) && CallOk(b, t, next)
  {
    hide SharedOk, Guarantee, SnapOk, Cas, FieldsOk, HoldsRedemption, CallOk;
    Stays(sh, t);
    Ended(sh, t);
    CasOk(sh, t, oid, ReqComplete, snap);
    Ended(Cas(sh, t, oid, ReqComplete, snap).0, t);
  }

  lemma CloseReadStep(sh: Shared, t: Tid, oid: OrderId, out: Outcome)
    requires SharedOk(sh)
    ensures var (b, next) := CloseStep(sh, t, ClRead(oid), out);
            SharedOk(b) && Guarantee(sh, b, t) && CallOk(b, t, next)
  {
    hide SharedOk, Guarantee, SnapOk, CallOk, CloseStep;
    Stays(sh, t);
    Ended(sh, t);
    ReadLeadsTo(sh, t, oid, out);
    if oid in sh.repo.orders {
      ReadOk(sh, oid);
      if ClosingSnap(sh, oid, sh.repo.orders[oid]) { CloseGoesOn(sh, sh, t, oid, sh.repo.orders[oid]); }
    }
  }

  lemma CloseOfferStep(sh: Shared, t: Tid, oid: OrderId, snap: Order, out: Outcome)
    requires SharedOk(sh) && ClosingSnap(sh, oid, snap)
    ensures var (b, next) := CloseStep(sh, t, ClOffer(oid, snap), out);
            SharedOk(b) && Guarantee(sh, b, t) && CallOk(b, t, next)
  {
    hide SharedOk, Guarantee, SnapOk, CallOk, ReleaseReservation, Reverse, FreezeFits, LooseOn, Compatible, CloseStep;
    Stays(sh, t);
    SnapRefs(sh, oid, snap);
    SnapStatus(sh, oid, snap);
    CloseGoesOn(sh, sh, t, oid, snap);
    CloseOfferLeadsTo(sh, t, oid, snap, out);
    if snap.redemption.Some? {
      ReverseOk(sh, t, snap.redemption.value, 0);
      CloseGoesOn(sh, Reverse(sh, snap.redemption.value, 0).0, t, oid, snap);
    } else if snap.reservation.Some? {
      ReleaseReservationOk(sh, t, Rsv(oid));
      CloseGoesOn(sh, ReleaseReservation(sh, Rsv(oid)), t, oid, snap);
    }
  }

  /** Close reverses a redemption, or releases a reservation that has none, and goes on or gives up. */
  lemma CloseOfferLeadsTo(sh: Shared, t: Tid, oid: OrderId, snap: Order, out: Outcome)
    ensures var (b, next) := CloseStep(sh, t, ClOffer(oid, snap), out);
            && (next == ClCredit(oid, snap) || next == Returned)
            && (|| b == sh
                || (snap.redemption.Some? && b == Reverse(sh, snap.redemption.value, 0).0)
                || (snap.redemption.None? && snap.reservation.Some?
                     && b == ReleaseReservation(sh, snap.reservation.value)))
  {
    hide ReleaseReservation, Reverse;
  }

  lemma CloseCreditStep(sh: Shared, t: Tid, oid: OrderId, snap: Order, out: Outcome)
    requires SharedOk(sh) && ClosingSnap(sh, oid, snap)
    ensures var (b, next) := CloseStep(sh, t, ClCredit(oid, snap), out);
            SharedOk(b) && Guarantee(sh, b, t) && CallOk(b, t, next)
  {
    hide SharedOk, Guarantee, SnapOk, CallOk, Credit, SplitRefund, LooseOn;
    Stays(sh, t);
    CloseGoesOn(sh, sh, t, oid, snap);
    var c := SplitRefund(snap.amounts, RefundableAmount(snap)).ledger;
    if snap.amounts.ledgerPay > 0 && c > 0 {
      var k := L.Account(snap.tenant, snap.buyer, if snap.asset == "" then snap.amounts.currency else snap.asset);
      CloseAccount(sh, oid, snap);
      CreditOk(sh, t, oid, k, c);
      CloseGoesOn(sh, Credit(sh, oid, k, c), t, oid, snap);
    }
  }

  /** Close credits the order's own account, or the order is loose. */
  lemma CloseAccount(sh: Shared, oid: OrderId, snap: Order)
    requires SharedOk(sh) && ClosingSnap(sh, oid, snap) && snap.amounts.ledgerPay > 0
    ensures oid in sh.repo.orders && sh.repo.orders[oid].scene.allowClose
    ensures var k := L.Account(snap.tenant, snap.buyer, if snap.asset == "" then snap.amounts.currency else snap.asset);
            k in sh.ledger.opening || LooseOn(sh.repo.orders[oid], k)
  {
    hide SharedOk, FieldsOk;
    RefundAccount(sh, oid, snap);
  }

  lemma CloseFulfilStep(sh: Shared, t: Tid, oid: OrderId, snap: Order, out: Outcome)
    requires SharedOk(sh) && ClosingSnap(sh, oid, snap)
    ensures var (b, next) := CloseStep(sh, t, ClFulfil(oid, snap), out);
            SharedOk(b) && Guarantee(sh, b, t) && CallOk(b, t, next)
  {
    hide SharedOk, Guarantee, SnapOk, CallOk, Hold, Unhold;
    Stays(sh, t);
    UnholdOk(sh, t, oid);
    CloseGoesOn(sh, sh, t, oid, snap);
    CloseGoesOn(sh, Unhold(sh, oid), t, oid, snap);
  }

  lemma CloseCasStep(sh: Shared, t: Tid, oid: OrderId, snap: Order, out: Outcome)
    requires SharedOk(sh) && ClosingSnap(sh, oid, snap)
    ensures var (b, next) := CloseStep(sh, t, ClCas(oid, snap), out);
            SharedOk(b) && Guarantee(sh, b, t) && CallOk(b, t, next)
  {
    hide SharedOk, Guarantee, SnapOk, Cas, FieldsOk, HoldsRedemption, CallOk;
    Stays(sh, t);
    Ended(sh, t);
    CasOk(sh, t, oid, ReqClose, snap);
    Ended(Cas(sh, t, oid, ReqClose, snap).0, t);
  }
}

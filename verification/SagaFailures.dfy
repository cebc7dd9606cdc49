/**
 * What a service call comes to when one of its steps fails or is refused and the steps it then takes
 * succeed: nothing it took is kept and nothing it owes is forgotten.
 */
module SagaFailures {
  import opened Base
  import opened Int64
  import opened Amounts
  import opened Orders
  import opened RefundMath
  import opened RefundRuns
  import opened SagaState
  import opened SagaProgram
  import opened SagaInvariant
  import opened SagaAlone
  import opened SagaOutcomes
  import opened SagaErrands
  import L = Ledger
  import F = Offer

  // ---------------------------------------------------------------------------
  // Checkout
  // ---------------------------------------------------------------------------

  /** What the checkout has acquired when it reaches this point. */
  function InHand(pc: Pc): Acquired {
    if pc.ChFreeze? || pc.ChHold? || pc.ChInsert? then pc.got else Acquired(None, None, false)
  }

  /** The step needs a call that may fail. */
  predicate Calls(pc: Pc) {
    if pc.ChReserve? then WantsOffer(pc.req)
    else if pc.ChFreeze? then WantsFreeze(pc.req)
    else if pc.ChHold? then pc.req.scene.reserveInventory
    else pc.ChClient? || pc.ChMint? || pc.ChInsert?
  }

  /** The insert is refused because a key is taken. */
  predicate Refused(sh: Shared, pc: Pc) { pc.ChInsert? && !Unheard(sh, pc.req) }

  lemma FailedLeadsTo(sh: Shared, t: Tid, pc: Pc)
    requires InCheckout(pc) && Calls(pc)
    ensures Exec(sh, t, pc, Fail)
            == (sh, if pc.ChFreeze? || pc.ChHold? || pc.ChInsert? then ChUndoHold(pc.req, pc.oid, pc.got, false)
                    else Returned)
  {
    hide Mint, Reserve, FreezeFor, InsertCheckout, Hold, Unhold, ReleaseFreeze,
      ReleaseReservation, PayStep, AfterPaidStep, CancelStep, RefundStep, CloseStep, TicketStep, ReconStep;
  }

  lemma RefusedLeadsTo(sh: Shared, t: Tid, pc: Pc)
    requires Refused(sh, pc)
    ensures Exec(sh, t, pc, Succeed)
            == (sh, ChUndoHold(pc.req, pc.oid, pc.got,
                               ClientKey(pc.req.tenant, pc.req.user, pc.req.clientId) !in sh.repo.client))
  {
    hide Exec, Mint, Reserve, FreezeFor, NeedsOffer, NeedsLedger, Hold, Unhold, ReleaseFreeze, ReleaseReservation;
    CheckoutIsExec(sh, t, pc);
  }

  /**
   * Whichever call of a checkout fails, and also when the insert is refused, everything acquired so far is
   * given back; only a checkout whose key was taken meanwhile is still answered, with the order that took it.
   */
  lemma CheckoutGivesBack(sh: Shared, t: Tid, pc: Pc, out: Outcome) returns (b: Shared)
    requires InCheckout(pc) && ((Calls(pc) && out == Fail) || (Refused(sh, pc) && out == Succeed))
    ensures var (c, next) := Exec(sh, t, pc, out);
            var again := out == Succeed && ClientKey(pc.req.tenant, pc.req.user, pc.req.clientId) !in sh.repo.client;
            Alone(c, t, next, PATIENCE) == (b, AnsweredBy(sh, pc.req, again))
    ensures GaveBack(sh, b, if pc.ChFreeze? || pc.ChHold? || pc.ChInsert? then pc.oid else 0, InHand(pc))
  {
    hide Exec, Alone, PaidBackInto, ReleasedIn, NeedsOffer, NeedsLedger;
    if out == Fail { FailedLeadsTo(sh, t, pc); } else { RefusedLeadsTo(sh, t, pc); }
    var next := Exec(sh, t, pc, out).1;
    if next.ChUndoHold? {
      b := CheckoutUndoes(sh, t, pc.req, pc.oid, pc.got, next.again, PATIENCE);
    } else {
      AloneEnds(sh, t, PATIENCE);
      NothingInHand(sh);
      b := sh;
    }
  }

  lemma NothingInHand(sh: Shared)
    ensures GaveBack(sh, sh, 0, Acquired(None, None, false))
  {
    assert sh.held - {} == sh.held;
  }

  /** A request that finds its answer only at the second lookup is answered all the same. */
  lemma LateRepeatAlone(sh: Shared, t: Tid, req: CheckoutReq, n: nat)
    requires IdemKeyOf(req) in sh.repo.idem && n >= 1
    ensures Alone(sh, t, ChFindAgain(req), n)
            == (sh,
                if sh.repo.idem[IdemKeyOf(req)].hash == req.hash
                then Accepted(IdemKeyOf(req), sh.repo.idem[IdemKeyOf(req)].order, req.hash, false) else Returned)
  {
    hide Exec, Alone, Mint, Reserve, FreezeFor, InsertCheckout, NeedsOffer, NeedsLedger, Hold, Unhold, ReleaseFreeze,
      ReleaseReservation;
    CheckoutIsExec(sh, t, ChFindAgain(req));
    var next := Exec(sh, t, ChFindAgain(req), Succeed).1;
    FirstStep(sh, t, ChFindAgain(req), n, sh, next);
    if next.Accepted? { AcceptedEnds(sh, t, next, n - 1); } else { AloneEnds(sh, t, n - 1); }
  }

  // ---------------------------------------------------------------------------
  // Payment and retry
  // ---------------------------------------------------------------------------

  /** The step makes a call the payment cannot do without. */
  predicate Needed(snap: Order, at: AfterStep) {
    match at
    case ApCommit => snap.reservation.Some?
    case ApRedemption(_) => false
    case ApCapture => HasLedgerFreeze(snap)
    case _ => true
  }

  lemma AfterFailsLeadsTo(sh: Shared, t: Tid, oid: OrderId, snap: Order, origin: Origin, at: AfterStep, out: Outcome)
    requires Needed(snap, at) && !Replies(out)
    ensures var (b, next) := Exec(sh, t, After(oid, snap, origin, at), out);
            next == AfterFailed(oid, snap, origin) && b.repo == sh.repo
  {
    hide CheckoutStep, PayStep, CancelStep, RefundStep, CloseStep, TicketStep, ReconStep;
    hide Cas, UpdateRedemption, AfterFailed, AfterDone, L.DoCapture, F.DoCommit;
  }

  /** Wherever a payment fails once the order is PAID, the order ends COMPENSATING with an after-paid ticket. */
  lemma PaymentFails(sh: Shared, t: Tid, oid: OrderId, at: AfterStep, out: Outcome)
    requires oid in sh.repo.orders && sh.repo.orders[oid].status == Paid
    requires Needed(sh.repo.orders[oid], at) && !Replies(out)
    ensures var o := sh.repo.orders[oid];
            var (c, next) := Exec(sh, t, After(oid, o, FromPay, at), out);
            var (b, end) := Alone(c, t, next, PATIENCE);
            && end == Returned
            && b.repo.orders == sh.repo.orders[oid := o.(status := Compensating, version := o.version + 1)]
            && b.repo.tickets == sh.repo.tickets + [Ticket(AfterPaid(oid), Pending)]
  {
    hide Exec, Alone;
    var o := sh.repo.orders[oid];
    AfterFailsLeadsTo(sh, t, oid, o, FromPay, at, out);
    var c := Exec(sh, t, After(oid, o, FromPay, at), out).0;
    var b := PaymentGivesUp(c, t, oid, o, PATIENCE);
  }

  /** A retry that fails changes no order, and its ticket stays open. */
  lemma RetryFails(sh: Shared, t: Tid, oid: OrderId, snap: Order, i: nat, at: AfterStep, out: Outcome)
    requires i < |sh.repo.tickets| && Needed(snap, at) && !Replies(out)
    ensures var (c, next) := Exec(sh, t, After(oid, snap, FromRetry(Some(i)), at), out);
            var (b, end) := Alone(c, t, next, PATIENCE);
            && end == Returned && b.repo.orders == sh.repo.orders
            && b.repo.tickets == sh.repo.tickets[i := Ticket(sh.repo.tickets[i].kind, Pending)]
  {
    hide Exec, Alone;
    AfterFailsLeadsTo(sh, t, oid, snap, FromRetry(Some(i)), at, out);
    var c := Exec(sh, t, After(oid, snap, FromRetry(Some(i)), at), out).0;
    EndTicket(c, t, i, false, PATIENCE);
  }

  // ---------------------------------------------------------------------------
  // Refund, close and reconciliation
  // ---------------------------------------------------------------------------

  /** A refund whose reversal fails is finished all the same and leaves a ticket for the reversal. */
  lemma ReversalFails(sh: Shared, t: Tid, oid: OrderId, amount: I64, out: Outcome)
    requires oid in sh.repo.orders && sh.repo.orders[oid].status == Refunding && 0 < amount
    requires Fits(sh.repo.orders[oid].amounts.refunded + amount)
    requires sh.repo.orders[oid].redemption.Some? && !Replies(out)
    ensures var o := sh.repo.orders[oid];
            var (c, next) := Exec(sh, t, RfReverse(oid, o, amount), out);
            var (b, end) := Alone(c, t, next, PATIENCE);
            && end == Returned
            && b.repo.orders == sh.repo.orders[oid := o.(
                 status := if o.amounts.refunded + amount == o.amounts.paid then Refunded else PartialRefunded,
                 version := o.version + 1, amounts := o.amounts.(refunded := o.amounts.refunded + amount))]
            && b.repo.tickets == sh.repo.tickets + [Ticket(OfferReverse(o.redemption.value), Pending)]
  {
    hide Exec, Alone;
    var o := sh.repo.orders[oid];
    ReverseFailsLeadsTo(sh, t, oid, o, amount, out);
    var c := Exec(sh, t, RfReverse(oid, o, amount), out).0;
    TicketLeft(c, t, oid, o, amount);
    var d := Exec(c, t, RfReverseTicket(oid, o, amount), Succeed).0;
    FirstStep(c, t, RfReverseTicket(oid, o, amount), PATIENCE, d, RfFinish(oid, o, amount));
    RefundFinishes(d, t, oid, o, amount);
    var b := Exec(d, t, RfFinish(oid, o, amount), Succeed).0;
    FirstStep(d, t, RfFinish(oid, o, amount), PATIENCE - 1, b, Returned);
    AloneEnds(b, t, PATIENCE - 2);
  }

  lemma ReverseFailsLeadsTo(sh: Shared, t: Tid, oid: OrderId, o: Order, amount: I64, out: Outcome)
    requires o.redemption.Some? && !Replies(out)
    ensures var (b, next) := Exec(sh, t, RfReverse(oid, o, amount), out);
            next == RfReverseTicket(oid, o, amount) && b.repo == sh.repo
  {
    hide CheckoutStep, PayStep, AfterPaidStep, CancelStep, CloseStep, TicketStep, ReconStep;
    hide Cas, SplitRefund, Credit, F.DoReverse, ReverseDiscount, IsFull;
  }

  /** The step of a close makes a call. */
  predicate CloseCalls(pc: Pc)
    requires pc.ClOffer? || pc.ClCredit? || pc.ClFulfil?
  {
    if pc.ClOffer? then (pc.snap.redemption.Some? && pc.snap.amounts.discount > 0)
      || (pc.snap.reservation.Some? && pc.snap.redemption.None?)
    else if pc.ClCredit? then CloseDue(pc.snap) > 0
    else true
  }

  /** A close that fails on the way closes nothing. */
  lemma CloseFails(sh: Shared, t: Tid, pc: Pc, out: Outcome)
    requires (pc.ClOffer? || pc.ClCredit? || pc.ClFulfil?) && CloseCalls(pc) && !Replies(out)
    requires var o := pc.snap; Balanced(o.amounts) && 0 <= o.amounts.refunded <= o.amounts.paid == o.amounts.payable
    ensures var (b, next) := Exec(sh, t, pc, out); next == Returned && b.repo == sh.repo
  {
    hide Exec, Balanced, CloseDue;
    if pc.ClOffer? {
      CloseOfferFails(sh, t, pc.oid, pc.snap, out);
    } else if pc.ClCredit? {
      CloseCreditFails(sh, t, pc.oid, pc.snap, out);
    } else {
      CloseFulfilFails(sh, t, pc.oid, pc.snap, out);
    }
  }

  lemma CloseStepIsExec(sh: Shared, t: Tid, pc: Pc, out: Outcome)
    requires InClose(pc)
    ensures Exec(sh, t, pc, out) == CloseStep(sh, t, pc, out)
  {
    hide CheckoutStep, PayStep, AfterPaidStep, CancelStep, RefundStep, CloseStep, TicketStep, ReconStep;
  }

  lemma CloseOfferFails(sh: Shared, t: Tid, oid: OrderId, o: Order, out: Outcome)
    requires CloseCalls(ClOffer(oid, o)) && !Replies(out)
    ensures var (b, next) := Exec(sh, t, ClOffer(oid, o), out); next == Returned && b.repo == sh.repo
  {
    hide Exec, Cas, SplitRefund, Credit, F.DoReverse, F.DoRelease;
    CloseStepIsExec(sh, t, ClOffer(oid, o), out);
  }

  lemma CloseCreditFails(sh: Shared, t: Tid, oid: OrderId, o: Order, out: Outcome)
    requires CloseDue(o) > 0 && !Replies(out)
    requires Balanced(o.amounts) && 0 <= o.amounts.refunded <= o.amounts.paid == o.amounts.payable
    ensures var (b, next) := Exec(sh, t, ClCredit(oid, o), out); next == Returned && b.repo == sh.repo
  {
    hide Exec, Cas, SplitRefund, L.DoCredit, Reverse, ReleaseReservation, MulDiv;
    CloseStepIsExec(sh, t, ClCredit(oid, o), out);
    SplitExact(o.amounts, Remaining(o));
    DueIsMoney(o);
  }

  /** Where a close has something to credit, the order has ledger money. */
  lemma DueIsMoney(o: Order)
    requires Balanced(o.amounts) && 0 <= o.amounts.refunded <= o.amounts.paid == o.amounts.payable
    ensures CloseDue(o) > 0 ==> o.amounts.ledgerPay > 0
  {
    hide MulDiv;
    if o.amounts.ledgerPay == 0 && Remaining(o) > 0 { MulDivExact(0, Remaining(o), o.amounts.payable); }
  }

  lemma CloseFulfilFails(sh: Shared, t: Tid, oid: OrderId, o: Order, out: Outcome)
    requires !Replies(out)
    ensures var (b, next) := Exec(sh, t, ClFulfil(oid, o), out); next == Returned && b.repo == sh.repo
  {
    hide Exec, Cas, SplitRefund, Credit, Reverse, ReleaseReservation;
    CloseStepIsExec(sh, t, ClFulfil(oid, o), out);
  }

  /** A reconciliation that cannot learn the redemption id leaves an open after-paid ticket. */
  lemma CommitFails(sh: Shared, t: Tid, oid: OrderId, rsv: RsvId, out: Outcome)
    requires !Replies(out) || Commit(sh, rsv).1.Err?
    ensures var (c, next) := Exec(sh, t, RcCommit(oid, rsv), out);
            var (b, end) := Alone(c, t, next, PATIENCE);
            end == Returned && b.repo.orders == sh.repo.orders && HasOpenTicket(b, AfterPaid(oid))
  {
    hide Exec, Alone, HasOpenTicket;
    CommitFailsLeadsTo(sh, t, oid, rsv, out);
    var c := Exec(sh, t, RcCommit(oid, rsv), out).0;
    TicketOpened(c, t, AfterPaid(oid), PATIENCE);
    TicketedIsOpen(c, AfterPaid(oid));
  }

  lemma CommitFailsLeadsTo(sh: Shared, t: Tid, oid: OrderId, rsv: RsvId, out: Outcome)
    requires !Replies(out) || Commit(sh, rsv).1.Err?
    ensures var (b, next) := Exec(sh, t, RcCommit(oid, rsv), out); next == RcOpen(AfterPaid(oid)) && b.repo == sh.repo
  {
    hide CheckoutStep, PayStep, AfterPaidStep, CancelStep, RefundStep, CloseStep, TicketStep;
    hide F.DoCommit, UpdateRedemption, HasOpenTicket;
  }
}

/**
 * Which step can cancel an order, which can take one to REFUNDING, and which can take one out of
 * COMPENSATING.
 */
module SagaMarks {
  import opened Base
  import opened Int64
  import opened Orders
  import opened RefundMath
  import opened RefundRuns
  import opened SagaState
  import opened SagaProgram
  import opened SagaInvariant
  import L = Ledger
  import F = Offer

  /** Every order that has the status after the step had it before. */
  ghost predicate NoneEnters(a: OrderMap, b: OrderMap, status: Status) {
    forall oid :: oid in b && b[oid].status == status ==> oid in a && a[oid].status == status
  }

  /** The step neither cancels nor starts a refund. */
  ghost predicate Unmarked(a: Shared, b: Shared) {
    && b.hist.canceller == a.hist.canceller && NoneEnters(a.repo.orders, b.repo.orders, Cancelled)
    && b.hist.trail.refunder == a.hist.trail.refunder && NoneEnters(a.repo.orders, b.repo.orders, Refunding)
  }

  /** The order is still stored, with the version and status it had. */
  predicate Unmoved(a: OrderMap, b: OrderMap, oid: OrderId) {
    oid in a && oid in b && b[oid].version == a[oid].version && b[oid].status == a[oid].status
  }

  /** Every order that has the status before the step has it after, at the same version. */
  ghost predicate NoneLeaves(a: OrderMap, b: OrderMap, status: Status) {
    forall oid :: oid in a && a[oid].status == status ==> Unmoved(a, b, oid)
  }

  /** Nor does it take an order out of COMPENSATING. */
  ghost predicate Still(a: Shared, b: Shared) {
    Unmarked(a, b) && NoneLeaves(a.repo.orders, b.repo.orders, Compensating)
  }

  lemma OrdersUntouched(a: Shared, b: Shared)
    requires b.repo.orders == a.repo.orders && b.hist.canceller == a.hist.canceller
    requires b.hist.trail.refunder == a.hist.trail.refunder
    ensures Still(a, b)
  {
  }

  lemma CasUnmarked(sh: Shared, t: Tid, oid: OrderId, req: Request, snap: Order)
    requires !req.ReqCancel? && !req.ReqRefundStart?
    ensures Unmarked(sh, Cas(sh, t, oid, req, snap).0)
  {
    hide CommandOf, Transition;
    CommandTarget(req, snap);
    if oid in sh.repo.orders { TransitionTarget(sh.repo.orders[oid], CommandOf(req, snap)); }
  }

  lemma CommandTarget(req: Request, snap: Order)
    requires !req.ReqCancel? && !req.ReqRefundStart?
    ensures CommandOf(req, snap).to != Cancelled && CommandOf(req, snap).to != Refunding
  {
  }

  lemma TransitionTarget(o: Order, cmd: Cmd)
    ensures Transition(o, cmd).Ok? ==> Transition(o, cmd).value.status == cmd.to
  {
    hide CanTransition;
  }

  /** A swap leaves alone every order but its own, and its own at another version or in a status it does not name. */
  lemma CasElsewhere(sh: Shared, t: Tid, oid: OrderId, req: Request, snap: Order, other: OrderId)
    requires other in sh.repo.orders
    requires || other != oid || sh.repo.orders[other].version != snap.version
             || !FromMatches(CommandOf(req, snap), sh.repo.orders[other].status)
    ensures Unmoved(sh.repo.orders, Cas(sh, t, oid, req, snap).0.repo.orders, other)
  {
    hide CanTransition, FromMatches, Updated;
  }

  lemma CasStill(sh: Shared, t: Tid, oid: OrderId, req: Request, snap: Order)
    requires !req.ReqCancel? && !req.ReqRefundStart? && !req.ReqAdvance?
    ensures Still(sh, Cas(sh, t, oid, req, snap).0)
  {
    hide Cas, Unmoved;
    CasUnmarked(sh, t, oid, req, snap);
    var b := Cas(sh, t, oid, req, snap).0;
    forall other | other in sh.repo.orders && sh.repo.orders[other].status == Compensating
      ensures Unmoved(sh.repo.orders, b.repo.orders, other)
    {
      CasElsewhere(sh, t, oid, req, snap, other);
    }
  }

  lemma RedemptionStill(sh: Shared, oid: OrderId, id: RedId)
    ensures Still(sh, UpdateRedemption(sh, oid, id))
  {
  }

  lemma InsertUnmarked(sh: Shared, oid: OrderId, req: CheckoutReq, rsv: Option<RsvId>, fz: Option<FreezeId>)
    ensures Unmarked(sh, InsertCheckout(sh, oid, req, rsv, fz).0)
  {
  }

  // ---------------------------------------------------------------------------
  // Calls that leave the orders alone
  // ---------------------------------------------------------------------------

  lemma LedgerCallsStill(sh: Shared, oid: OrderId, k: L.Account, amount: int, f: Option<FreezeId>)
    ensures Still(sh, FreezeFor(sh, oid, k, amount).0) && Still(sh, Capture(sh, f).0)
    ensures Still(sh, ReleaseFreeze(sh, f)) && Still(sh, Credit(sh, oid, k, amount)) && Still(sh, AskBalance(sh, k))
    ensures Still(sh, PayChannel(sh, oid, amount))
  {
    hide L.DoFreeze, L.DoCapture, L.DoRelease, L.DoCredit, L.Touch;
  }

  lemma OfferCallsStill(sh: Shared, oid: OrderId, discount: I64, r: RsvId, id: RedId, amount: I64)
    ensures Still(sh, Reserve(sh, oid, discount)) && Still(sh, Commit(sh, r).0)
    ensures Still(sh, ReleaseReservation(sh, r)) && Still(sh, Reverse(sh, id, amount).0)
  {
    hide F.DoReserve, F.DoCommit, F.DoRelease, F.DoReverse;
  }

  lemma OtherCallsStill(sh: Shared, t: Tid, oid: OrderId, kind: TicketKind, out: Outcome, i: nat, status: TicketStatus)
    ensures Still(sh, sh) && Still(sh, Mint(sh, t)) && Still(sh, Hold(sh, oid)) && Still(sh, Unhold(sh, oid))
    ensures Still(sh, InsertTicket(sh, kind, out)) && Still(sh, SetTicket(sh, i, status))
  {
  }

  // ---------------------------------------------------------------------------
  // Steps
  // ---------------------------------------------------------------------------

  lemma CheckoutStill(sh: Shared, t: Tid, pc: Pc, out: Outcome)
    requires InCheckout(pc) && !pc.ChInsert?
    ensures Still(sh, CheckoutStep(sh, t, pc, out).0)
  {
    hide Still, Mint, Reserve, FreezeFor, Hold, Unhold, ReleaseFreeze, ReleaseReservation, InsertCheckout, AskBalance;
    hide Recorded, NeedsOffer, NeedsLedger, Answer;
    OrdersUntouched(sh, sh);
    if pc.PvBalance? {
      var PvBalance(k) := pc;
      LedgerCallsStill(sh, 0, k, 0, None);
    } else if pc.ChMint? {
      OtherCallsStill(sh, t, 0, FulfilRelease(0), out, 0, Pending);
    } else if pc.ChReserve? {
      var ChReserve(req, oid) := pc;
      OfferCallsStill(sh, oid, req.amounts.discount, Rsv(0), Rd(Rsv(0)), 0);
    } else if pc.ChFreeze? {
      var ChFreeze(req, oid, _) := pc;
      LedgerCallsStill(sh, oid, L.Account(req.tenant, req.user, req.asset), req.amounts.ledgerPay, None);
    } else if pc.ChHold? {
      var ChHold(_, oid, _) := pc;
      OtherCallsStill(sh, t, oid, FulfilRelease(0), out, 0, Pending);
    } else if pc.ChUndoHold? {
      var ChUndoHold(_, oid, _, _) := pc;
      OtherCallsStill(sh, t, oid, FulfilRelease(0), out, 0, Pending);
    } else if pc.ChUndoFreeze? {
      var ChUndoFreeze(req, _, got, _) := pc;
      LedgerCallsStill(sh, 0, L.Account(req.tenant, req.user, req.asset), 0, got.freeze);
    } else if pc.ChUndoOffer? {
      var ChUndoOffer(_, _, got, _) := pc;
      if got.rsv.Some? {
        OfferCallsStill(sh, 0, 0, got.rsv.value, Rd(Rsv(0)), 0);
      }
    }
  }

  lemma PayStill(sh: Shared, t: Tid, pc: Pc, out: Outcome)
    requires InPay(pc)
    ensures Still(sh, PayStep(sh, t, pc, out).0)
  {
    hide Still, Cas, InsertTicket, EndRetry;
    OrdersUntouched(sh, sh);
    if pc.PayCas? { var PayCas(oid, snap) := pc; CasStill(sh, t, oid, ReqPay, snap); }
    else if pc.PayTicket? { var PayTicket(oid, _) := pc; OtherCallsStill(sh, t, 0, AfterPaid(oid), out, 0, Pending); }
    else if pc.PayCompensate? { var PayCompensate(oid, snap) := pc; CasStill(sh, t, oid, ReqCompensate, snap); }
  }

  lemma AfterStill(sh: Shared, t: Tid, pc: Pc, out: Outcome)
    requires pc.After? && !pc.at.ApAdvance?
    ensures Still(sh, AfterPaidStep(sh, t, pc, out).0)
  {
    hide Still, Capture, Commit, Hold, Unhold, Cas, UpdateRedemption, AfterFailed, AfterDone, HasLedgerFreeze;
    OtherCallsStill(sh, t, pc.oid, FulfilRelease(0), out, 0, Pending);
    match pc.at
    case ApCommit => if pc.snap.reservation.Some? { OfferCallsStill(sh, 0, 0, pc.snap.reservation.value, Rd(Rsv(0)), 0);
        }
    case ApRedemption(id) => RedemptionStill(sh, pc.oid, id);
    case ApCapture => LedgerCallsStill(sh, 0, AccountOf(pc.snap), 0, pc.snap.freeze);
    case ApFulfil =>
  }

  lemma CancelStill(sh: Shared, t: Tid, pc: Pc, out: Outcome)
    requires InCancel(pc) && !pc.CnCas?
    ensures Still(sh, CancelStep(sh, t, pc, out).0)
  {
    hide Still, ReleaseFreeze, ReleaseReservation, InsertTicket, Unhold, HasLedgerFreeze;
    OrdersUntouched(sh, sh);
    if pc.CnOffer? {
      var CnOffer(_, snap) := pc;
      if snap.reservation.Some? {
        OfferCallsStill(sh, 0, 0, snap.reservation.value, Rd(Rsv(0)), 0);
      }
    } else if pc.CnOfferTicket? {
      var CnOfferTicket(_, snap) := pc;
      if snap.reservation.Some? {
        OtherCallsStill(sh, t, 0, OfferRelease(snap.reservation.value), out, 0, Pending);
      }
    } else if pc.CnLedger? {
      var CnLedger(_, snap) := pc;
      LedgerCallsStill(sh, 0, AccountOf(snap), 0, snap.freeze);
    } else if pc.CnLedgerTicket? {
      var CnLedgerTicket(oid, snap) := pc;
      OtherCallsStill(sh, t, 0, LedgerRelease(snap.freeze, oid), out, 0, Pending);
    } else if pc.CnFulfil? {
      var CnFulfil(oid) := pc;
      OtherCallsStill(sh, t, oid, FulfilRelease(oid), out, 0, Pending);
    } else if pc.CnFulfilTicket? {
      var CnFulfilTicket(oid) := pc;
      OtherCallsStill(sh, t, oid, FulfilRelease(oid), out, 0, Pending);
    }
  }

  lemma RefundStill(sh: Shared, t: Tid, pc: Pc, out: Outcome)
    requires InRefund(pc) && !pc.RfCas?
    ensures Still(sh, RefundStep(sh, t, pc, out).0)
  {
    hide Still, Cas, Credit, PayChannel, Reverse, InsertTicket, SplitRefund, HasLedgerFreeze, Resolve, IsFull,
      ReverseDiscount, RefundableStatus, RefundableAmount;
    OrdersUntouched(sh, sh);
    if pc.RfChannel? {
      var RfChannel(oid, snap, amount) := pc;
      LedgerCallsStill(sh, oid, AccountOf(snap), SplitRefund(snap.amounts, amount).channel, None);
    } else if pc.RfCredit? {
      var RfCredit(oid, snap, amount) := pc;
      LedgerCallsStill(sh, oid, AccountOf(snap), SplitRefund(snap.amounts, amount).ledger, None);
    } else if pc.RfReverse? {
      var RfReverse(_, snap, amount) := pc;
      if snap.redemption.Some? {
        OfferCallsStill(sh, 0, 0, Rsv(0), snap.redemption.value,
            ReverseDiscount(snap.amounts, amount, IsFull(snap, amount)));
      }
    } else if pc.RfReverseTicket? {
      var RfReverseTicket(_, snap, _) := pc;
      if snap.redemption.Some? {
        OtherCallsStill(sh, t, 0, OfferReverse(snap.redemption.value), out, 0, Pending);
      }
    } else if pc.RfFinish? {
      var RfFinish(oid, snap, amount) := pc;
      CasStill(sh, t, oid, ReqRefundEnd(amount, IsFull(snap, amount)), snap);
    }
  }

  lemma CloseStill(sh: Shared, t: Tid, pc: Pc, out: Outcome)
    requires InClose(pc)
    ensures Still(sh, CloseStep(sh, t, pc, out).0)
  {
    hide Still, Cas, Credit, Reverse, ReleaseReservation, Unhold, SplitRefund, RefundableAmount;
    OrdersUntouched(sh, sh);
    if pc.CoCas? { var CoCas(oid, snap) := pc; CasStill(sh, t, oid, ReqComplete, snap); }
    else if pc.ClOffer? {
      var ClOffer(_, snap) := pc;
      if snap.redemption.Some? { OfferCallsStill(sh, 0, 0, Rsv(0), snap.redemption.value, 0); }
      else if snap.reservation.Some? { OfferCallsStill(sh, 0, 0, snap.reservation.value, Rd(Rsv(0)), 0); }
    }
    else if pc.ClCredit? {
      var ClCredit(oid, snap) := pc;
      var asset := if snap.asset == "" then snap.amounts.currency else snap.asset;
      LedgerCallsStill(sh, oid, L.Account(snap.tenant, snap.buyer, asset),
          SplitRefund(snap.amounts, RefundableAmount(snap)).ledger, None);
    }
    else if pc.ClFulfil? { var ClFulfil(oid, _) := pc; OtherCallsStill(sh, t, oid, FulfilRelease(0), out, 0, Pending); }
    else if pc.ClCas? { var ClCas(oid, snap) := pc; CasStill(sh, t, oid, ReqClose, snap); }
  }

  lemma TicketStill(sh: Shared, t: Tid, pc: Pc, out: Outcome)
    requires InTicket(pc)
    ensures Still(sh, TicketStep(sh, t, pc, out).0)
  {
    hide Still, SetTicket, ReleaseReservation, ReleaseFreeze, Unhold, Reverse, Handler;
    OrdersUntouched(sh, sh);
    if pc.TkClaim? {
      var TkClaim(i) := pc;
      OtherCallsStill(sh, t, 0, FulfilRelease(0), out, i, Running);
    } else if pc.TkOffer? {
      var TkOffer(_, rsv) := pc;
      OfferCallsStill(sh, 0, 0, rsv, Rd(Rsv(0)), 0);
    } else if pc.TkLedger? {
      var TkLedger(_, freeze) := pc;
      LedgerCallsStill(sh, 0, L.Account("", "", ""), 0, freeze);
    } else if pc.TkFulfil? {
      var TkFulfil(_, oid) := pc;
      OtherCallsStill(sh, t, oid, FulfilRelease(0), out, 0, Pending);
    } else if pc.TkReverse? {
      var TkReverse(_, redemption) := pc;
      OfferCallsStill(sh, 0, 0, Rsv(0), redemption, 0);
    } else if pc.TkEnd? {
      var TkEnd(i, ok) := pc;
      OtherCallsStill(sh, t, 0, FulfilRelease(0), out, i, if ok then Done else if out == Fail then Failed else Pending);
    }
  }

  lemma ReconStill(sh: Shared, t: Tid, pc: Pc, out: Outcome)
    requires InRecon(pc)
    ensures Still(sh, ReconStep(sh, t, pc, out).0)
  {
    hide Still, InsertTicket, Commit, UpdateRedemption, HasOpenTicket, PaidLike;
    OrdersUntouched(sh, sh);
    if pc.RcInsert? { var RcInsert(kind) := pc; OtherCallsStill(sh, t, 0, kind, out, 0, Pending); }
    else if pc.RcCommit? { var RcCommit(_, rsv) := pc; OfferCallsStill(sh, 0, 0, rsv, Rd(Rsv(0)), 0); }
    else if pc.RcBackfill? { var RcBackfill(oid, id) := pc; RedemptionStill(sh, oid, id); }
  }

  /** Where a step stores an order, cancels one, starts a refund or ends the steps after payment. */
  predicate Marks(pc: Pc) { pc.ChInsert? || pc.CnCas? || pc.RfCas? || (pc.After? && pc.at.ApAdvance?) }

  lemma ExecStill(sh: Shared, t: Tid, pc: Pc, out: Outcome)
    requires !Marks(pc)
    ensures Still(sh, Exec(sh, t, pc, out).0)
  {
    hide Still, CheckoutStep, PayStep, AfterPaidStep, CancelStep, RefundStep, CloseStep, TicketStep, ReconStep;
    if InCheckout(pc) { CheckoutStill(sh, t, pc, out); }
    else if InPay(pc) { PayStill(sh, t, pc, out); }
    else if pc.After? { AfterStill(sh, t, pc, out); }
    else if InCancel(pc) { CancelStill(sh, t, pc, out); }
    else if InRefund(pc) { RefundStill(sh, t, pc, out); }
    else if InClose(pc) { CloseStill(sh, t, pc, out); }
    else if InTicket(pc) { TicketStill(sh, t, pc, out); }
    else if InRecon(pc) { ReconStill(sh, t, pc, out); }
    else { OrdersUntouched(sh, sh); }
  }

  lemma InsertStepIs(sh: Shared, t: Tid, req: CheckoutReq, oid: OrderId, got: Acquired, out: Outcome)
    ensures var b := Exec(sh, t, ChInsert(req, oid, got), out).0;
            b == sh || b == InsertCheckout(sh, oid, req, got.rsv, got.freeze).0
  {
    hide PayStep, AfterPaidStep, CancelStep, RefundStep, CloseStep, TicketStep, ReconStep, InsertCheckout;
  }

  lemma AdvanceStepIs(sh: Shared, t: Tid, oid: OrderId, snap: Order, origin: Origin, out: Outcome)
    ensures var b := Exec(sh, t, After(oid, snap, origin, ApAdvance), out).0;
            b == sh || b == Cas(sh, t, oid, ReqAdvance, snap).0
  {
    hide CheckoutStep, PayStep, CancelStep, RefundStep, CloseStep, TicketStep, ReconStep, Cas, AfterFailed, AfterDone;
  }

  lemma CancelStepIs(sh: Shared, t: Tid, oid: OrderId, snap: Order, out: Outcome)
    ensures var b := Exec(sh, t, CnCas(oid, snap), out).0; b == sh || b == Cas(sh, t, oid, ReqCancel, snap).0
  {
    hide CheckoutStep, PayStep, AfterPaidStep, RefundStep, CloseStep, TicketStep, ReconStep, Cas;
  }

  lemma RefundStartIs(sh: Shared, t: Tid, oid: OrderId, snap: Order, amount: I64, out: Outcome)
    ensures var b := Exec(sh, t, RfCas(oid, snap, amount), out).0;
            b == sh || b == Cas(sh, t, oid, ReqRefundStart, snap).0
  {
    hide CheckoutStep, PayStep, AfterPaidStep, CancelStep, CloseStep, TicketStep, ReconStep, Cas;
  }

  /** Only the swap of a cancelling call cancels, and only the first swap of a refund starts one. */
  lemma ExecUnmarked(sh: Shared, t: Tid, pc: Pc, out: Outcome)
    requires !pc.CnCas? && !pc.RfCas?
    ensures Unmarked(sh, Exec(sh, t, pc, out).0)
  {
    hide Exec, Unmarked, InsertCheckout, Cas;
    if pc.ChInsert? {
      InsertStepIs(sh, t, pc.req, pc.oid, pc.got, out);
      InsertUnmarked(sh, pc.oid, pc.req, pc.got.rsv, pc.got.freeze);
      OrdersUntouched(sh, sh);
    } else if Marks(pc) {
      AdvanceStepIs(sh, t, pc.oid, pc.snap, pc.origin, out);
      CasUnmarked(sh, t, pc.oid, ReqAdvance, pc.snap);
      OrdersUntouched(sh, sh);
    } else {
      ExecStill(sh, t, pc, out);
    }
  }

  /**
   * Only the swap at the end of the steps after payment, on its current version, takes an order out of
   * COMPENSATING.
   */
  lemma ExecKeepsCompensating(sh: Shared, t: Tid, pc: Pc, out: Outcome, oid: OrderId)
    requires oid in sh.repo.orders && sh.repo.orders[oid].status == Compensating
    requires pc.ChInsert? ==> pc.oid != oid
    requires pc.RfCas? ==> pc.snap.status != Compensating
    requires pc.After? && pc.at.ApAdvance? ==> pc.oid != oid || pc.snap.version != sh.repo.orders[oid].version
    ensures Unmoved(sh.repo.orders, Exec(sh, t, pc, out).0.repo.orders, oid)
  {
    hide Exec, Cas, Unmarked;
    if pc.ChInsert? {
      InsertStepIs(sh, t, pc.req, pc.oid, pc.got, out);
    } else if pc.CnCas? {
      CancelStepIs(sh, t, pc.oid, pc.snap, out);
      CasElsewhere(sh, t, pc.oid, ReqCancel, pc.snap, oid);
    } else if pc.RfCas? {
      RefundStartIs(sh, t, pc.oid, pc.snap, pc.amount, out);
      CasElsewhere(sh, t, pc.oid, ReqRefundStart, pc.snap, oid);
    } else if Marks(pc) {
      AdvanceStepIs(sh, t, pc.oid, pc.snap, pc.origin, out);
      CasElsewhere(sh, t, pc.oid, ReqAdvance, pc.snap, oid);
    } else {
      ExecStill(sh, t, pc, out);
    }
  }

  /** Cancelling names the canceller, which then owes every release. */
  lemma CancelsOne(sh: Shared, t: Tid, oid: OrderId, snap: Order, out: Outcome)
    ensures var (b, next) := CancelStep(sh, t, CnCas(oid, snap), out);
            && (forall x ::
                 x in b.repo.orders && x != oid ==> x in sh.repo.orders && b.repo.orders[x] == sh.repo.orders[x])
            && (forall x ::
                 x in sh.hist.canceller && x != oid ==>
                 x in b.hist.canceller && b.hist.canceller[x] == sh.hist.canceller[x])
            && (b == sh
                 || (oid in b.hist.canceller && b.hist.canceller[oid] == t && OwesOffer(next, oid)
                     && OwesLedger(next, oid)))
  {
    hide Transition, CommandOf;
  }

  /** Starting a refund names the refunder, which then has to finish it. */
  lemma RefundsOne(sh: Shared, t: Tid, oid: OrderId, snap: Order, amount: I64, out: Outcome)
    ensures var (b, next) := RefundStep(sh, t, RfCas(oid, snap, amount), out);
            && (forall x ::
                 x in b.repo.orders && x != oid ==> x in sh.repo.orders && b.repo.orders[x] == sh.repo.orders[x])
            && (forall x ::
                 x in sh.hist.trail.refunder && x != oid ==>
                 x in b.hist.trail.refunder && b.hist.trail.refunder[x] == sh.hist.trail.refunder[x])
            && (b == sh || (oid in b.hist.trail.refunder && b.hist.trail.refunder[oid] == t && Finishing(next, oid)))
  {
    hide Transition, CommandOf, SplitRefund, Resolve;
  }

  /** No step but a cancelling swap adds a cancelled order or a canceller. */
  lemma ExecCancels(sh: Shared, t: Tid, pc: Pc, out: Outcome)
    requires !pc.CnCas?
    ensures var b := Exec(sh, t, pc, out).0;
            b.hist.canceller == sh.hist.canceller && NoneEnters(sh.repo.orders, b.repo.orders, Cancelled)
  {
    hide CheckoutStep, PayStep, AfterPaidStep, CancelStep, RefundStep, CloseStep, TicketStep, ReconStep, NoneEnters;
    if pc.RfCas? { RefundCasCancels(sh, t, pc.oid, pc.snap, pc.amount, out); } else { ExecUnmarked(sh, t, pc, out); }
  }

  lemma RefundCasCancels(sh: Shared, t: Tid, oid: OrderId, snap: Order, amount: I64, out: Outcome)
    ensures var b := RefundStep(sh, t, RfCas(oid, snap, amount), out).0;
            b.hist.canceller == sh.hist.canceller && NoneEnters(sh.repo.orders, b.repo.orders, Cancelled)
  {
    hide CanTransition, SplitRefund, Resolve;
  }

  /** No step but a refund's first swap adds a REFUNDING order or a refunder. */
  lemma ExecRefunds(sh: Shared, t: Tid, pc: Pc, out: Outcome)
    requires !pc.RfCas?
    ensures var b := Exec(sh, t, pc, out).0;
            b.hist.trail.refunder == sh.hist.trail.refunder && NoneEnters(sh.repo.orders, b.repo.orders, Refunding)
  {
    hide CheckoutStep, PayStep, AfterPaidStep, CancelStep, RefundStep, CloseStep, TicketStep, ReconStep, NoneEnters;
    if pc.CnCas? { CancelCasRefunds(sh, t, pc.oid, pc.snap, out); } else { ExecUnmarked(sh, t, pc, out); }
  }

  lemma CancelCasRefunds(sh: Shared, t: Tid, oid: OrderId, snap: Order, out: Outcome)
    ensures var b := CancelStep(sh, t, CnCas(oid, snap), out).0;
            b.hist.trail.refunder == sh.hist.trail.refunder && NoneEnters(sh.repo.orders, b.repo.orders, Refunding)
  {
    hide CanTransition;
  }

  /** A refund at work on the order goes on with it or ends. */
  lemma FinishingGoesOn(sh: Shared, t: Tid, pc: Pc, out: Outcome, oid: OrderId)
    requires Finishing(pc, oid)
    ensures var next := Exec(sh, t, pc, out).1; next == Returned || Finishing(next, oid)
  {
    hide Cas, SplitRefund, Credit, Reverse, InsertTicket, HasLedgerFreeze, IsFull, ReverseDiscount, AccountOf;
    hide CheckoutStep, PayStep, AfterPaidStep, CancelStep, CloseStep, TicketStep, ReconStep;
  }
}

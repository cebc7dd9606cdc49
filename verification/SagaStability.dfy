/** What a call relies on survives every step of every other call. */
module SagaStability {
  import opened Base
  import opened Int64
  import opened Amounts
  import opened Orders
  import opened RefundRuns
  import opened SagaState
  import opened SagaProgram
  import opened SagaInvariant
  import opened SagaCalls
  import opened SagaStore
  import L = Ledger
  import F = Offer

  lemma SnapFitsStable(snap: Order, o: Order, p: Order, oid: OrderId)
    requires SnapFits(snap, o, oid) && Evolves(o, p)
    ensures SnapFits(snap, p, oid)
  {
    hide FieldsOk;
  }

  lemma SnapStable(a: Shared, b: Shared, oid: OrderId, snap: Order)
    requires SnapOk(a, oid, snap) && OrdersEvolve(a.repo.orders, b.repo.orders)
    ensures SnapOk(b, oid, snap)
  {
    hide SnapFits, Evolves;
    SnapFitsStable(snap, a.repo.orders[oid], b.repo.orders[oid], oid);
  }

  lemma OwnedStable(a: Shared, b: Shared, t: Tid, u: Tid, oid: OrderId)
    requires Guarantee(a, b, t) && u != t && Owned(a, u, oid)
    ensures Owned(b, u, oid)
    ensures Rsv(oid) !in a.offer.resv ==> Rsv(oid) !in b.offer.resv
  {
    hide OrdersEvolve, RefundUndisturbed, ReleasesJustified, BooksGrow;
  }

  lemma IntactStable(a: Shared, b: Shared, t: Tid, u: Tid, oid: OrderId)
    requires Guarantee(a, b, t) && u != t && Owned(a, u, oid) && Intact(a, oid)
    ensures Intact(b, oid)
  {
    hide OrdersEvolve, RefundUndisturbed, FreezesGrow, OfferGrows, TicketsGrow, RecordsGrow, HeldShrinks;
  }

  lemma HoldingsStable(a: Shared, b: Shared, oid: OrderId, got: Acquired, o: Order, discount: I64)
    requires BooksGrow(a, b)
    ensures GotOk(a, oid, got) ==> GotOk(b, oid, got)
    ensures HoldsReservation(a.offer, oid, got.rsv, discount) ==> HoldsReservation(b.offer, oid, got.rsv, discount)
    ensures HoldsFreeze(a.hist.frozenFor, a.ledger.freezes, oid, o) ==>
            HoldsFreeze(b.hist.frozenFor, b.ledger.freezes, oid, o)
  {
  }

  lemma CheckoutStable(a: Shared, b: Shared, t: Tid, u: Tid, pc: Pc)
    requires Guarantee(a, b, t) && u != t && CheckoutCallOk(a, u, pc)
    ensures CheckoutCallOk(b, u, pc)
  {
    if pc.ChReserve? || pc.ChFreeze? || pc.ChHold? || pc.ChInsert? || pc.ChUndoHold? || pc.ChUndoFreeze?
      || pc.ChUndoOffer? {
      OwnedStable(a, b, t, u, pc.oid);
      if pc.ChReserve? || pc.ChFreeze? || pc.ChHold? || pc.ChInsert? {
        IntactStable(a, b, t, u, pc.oid);
      }
      if !pc.ChReserve? {
        HoldingsStable(a, b, pc.oid, pc.got, NewOrder(pc.req, pc.got.rsv, pc.got.freeze), pc.req.amounts.discount);
      }
    }
    if pc.ChUndoHold? || pc.ChUndoFreeze? || pc.ChUndoOffer? || pc.ChRefind? { LossStable(a, b, t, pc.req); }
    hide Owned, Intact, HoldsReservation, HoldsFreeze, GotOk, ReqOk, Guarantee, LostRace;
  }

  lemma LossStable(a: Shared, b: Shared, t: Tid, req: CheckoutReq)
    requires Guarantee(a, b, t)
    ensures LostRace(a.repo.idem, req) ==> LostRace(b.repo.idem, req)
  {
    hide OrdersEvolve, RefundUndisturbed, MintUndisturbed, ReleasesJustified, FreezesGrow, OfferGrows, TicketsGrow;
  }

  lemma RefundStable(a: Shared, b: Shared, t: Tid, u: Tid, oid: OrderId, snap: Order, amount: I64, channel: bool,
                     ledger: bool)
    requires Guarantee(a, b, t) && u != t && Refunds(a, u, oid, snap, amount)
    requires PaidBack(a, oid, snap, amount, channel, ledger)
    ensures Refunds(b, u, oid, snap, amount) && PaidBack(b, oid, snap, amount, channel, ledger)
  {
    hide Refunds, PaidBack;
    RefundOwnedStable(a, b, t, u, oid, snap, amount);
    RefundPaidStable(a, b, t, u, oid, snap, amount, channel, ledger);
  }

  lemma RefundOwnedStable(a: Shared, b: Shared, t: Tid, u: Tid, oid: OrderId, snap: Order, amount: I64)
    requires Guarantee(a, b, t) && u != t && Refunds(a, u, oid, snap, amount)
    ensures Refunds(b, u, oid, snap, amount)
  {
    hide MintUndisturbed, ReleasesJustified, BooksGrow, OrdersEvolve, SnapFits, ChannelledTo, CreditedTo, RefundsOf;
    RefundSnapKept(a, b, t, oid, snap);
    RefundMatches(a, oid, snap);
  }

  lemma RefundSnapKept(a: Shared, b: Shared, t: Tid, oid: OrderId, snap: Order)
    requires Guarantee(a, b, t) && SnapOk(a, oid, snap)
    ensures SnapOk(b, oid, snap)
  {
    hide Guarantee, SnapOk;
    GuaranteeEvolves(a, b, t);
    SnapStable(a, b, oid, snap);
  }

  lemma GuaranteeEvolves(a: Shared, b: Shared, t: Tid)
    requires Guarantee(a, b, t)
    ensures OrdersEvolve(a.repo.orders, b.repo.orders)
  {
    hide OrdersEvolve, RefundUndisturbed, MintUndisturbed, ReleasesJustified, BooksGrow;
  }

  /** A snapshot at the order's version has its status and scene. */
  lemma RefundMatches(a: Shared, oid: OrderId, snap: Order)
    requires SnapOk(a, oid, snap)
    ensures oid in a.repo.orders && a.repo.orders[oid].scene == snap.scene
    ensures a.repo.orders[oid].version == snap.version ==> a.repo.orders[oid].status == snap.status
  {
    hide FieldsOk;
  }

  lemma RefundPaidStable(a: Shared, b: Shared, t: Tid, u: Tid, oid: OrderId, snap: Order, amount: I64, channel: bool,
                         ledger: bool)
    requires Guarantee(a, b, t) && u != t && Refunds(a, u, oid, snap, amount)
    requires PaidBack(a, oid, snap, amount, channel, ledger)
    ensures PaidBack(b, oid, snap, amount, channel, ledger)
  {
    hide MintUndisturbed, ReleasesJustified, BooksGrow, OrdersEvolve, SnapOk, RefundsOf;
    hide ChannelledTo, CreditedTo, ChannelDues, LedgerDues, ChannelDue, LedgerDue;
    RefundMatches(a, oid, snap);
  }

  lemma PayStable(a: Shared, b: Shared, t: Tid, u: Tid, pc: Pc)
    requires Guarantee(a, b, t) && PayCallOk(a, u, pc)
    ensures PayCallOk(b, u, pc)
  {
    hide OrdersEvolve, RefundUndisturbed, MintUndisturbed, ReleasesJustified, FreezesGrow, OfferGrows, RecordsGrow,
      SnapFits;
    if pc.PayCas? || pc.PayTicket? || pc.PayCompensate? {
      SnapStable(a, b, pc.oid, pc.snap);
    }
    TicketsKept(a.repo.tickets, b.repo.tickets);
    hide SnapOk, HasTicket;
  }

  lemma AfterStable(a: Shared, b: Shared, t: Tid, oid: OrderId, snap: Order, origin: Origin, at: AfterStep)
    requires Guarantee(a, b, t) && AfterCallOk(a, oid, snap, origin, at)
    ensures AfterCallOk(b, oid, snap, origin, at)
  {
    hide OrdersEvolve, RefundUndisturbed, MintUndisturbed, ReleasesJustified, FreezesGrow, RecordsGrow, SnapFits;
    SnapStable(a, b, oid, snap);
    hide SnapOk;
  }

  lemma CancelStable(a: Shared, b: Shared, t: Tid, u: Tid, pc: Pc)
    requires Guarantee(a, b, t) && CancelCallOk(a, u, pc)
    ensures CancelCallOk(b, u, pc)
  {
    hide OrdersEvolve, RefundUndisturbed, MintUndisturbed, ReleasesJustified, BooksGrow, SnapFits;
    if pc.CnCas? || pc.CnOffer? || pc.CnOfferTicket? || pc.CnLedger? || pc.CnLedgerTicket? {
      SnapStable(a, b, pc.oid, pc.snap);
    }
    if pc.CnFulfil? || pc.CnFulfilTicket? { CancelledStable(a, b, pc.oid); }
    hide SnapOk, IsCancelled;
  }

  lemma CancelledStable(a: Shared, b: Shared, oid: OrderId)
    requires OrdersEvolve(a.repo.orders, b.repo.orders) && IsCancelled(a, oid)
    ensures IsCancelled(b, oid)
  {
  }

  lemma RefundCallStable(a: Shared, b: Shared, t: Tid, u: Tid, pc: Pc)
    requires Guarantee(a, b, t) && u != t && RefundCallOk(a, u, pc)
    ensures RefundCallOk(b, u, pc)
  {
    hide RefundUndisturbed, MintUndisturbed, ReleasesJustified, BooksGrow, SnapOk, Refunds, PaidBack;
    if pc.RfCas? {
      SnapStable(a, b, pc.oid, pc.snap);
    } else if pc.RfChannel? {
      RefundStable(a, b, t, u, pc.oid, pc.snap, pc.amount, false, false);
    } else if pc.RfCredit? {
      RefundStable(a, b, t, u, pc.oid, pc.snap, pc.amount, true, false);
    } else if pc.RfReverse? || pc.RfReverseTicket? || pc.RfFinish? {
      RefundStable(a, b, t, u, pc.oid, pc.snap, pc.amount, true, true);
    }
  }

  lemma CloseStable(a: Shared, b: Shared, t: Tid, u: Tid, pc: Pc)
    requires Guarantee(a, b, t) && CloseCallOk(a, u, pc)
    ensures CloseCallOk(b, u, pc)
  {
    hide OrdersEvolve, RefundUndisturbed, MintUndisturbed, ReleasesJustified, BooksGrow, SnapFits;
    if pc.CoCas? || pc.ClOffer? || pc.ClCredit? || pc.ClFulfil? || pc.ClCas? {
      SnapStable(a, b, pc.oid, pc.snap);
    }
    hide SnapOk;
  }

  lemma WorkerStable(a: Shared, b: Shared, t: Tid, u: Tid, pc: Pc)
    requires Guarantee(a, b, t) && TicketCallOk(a, u, pc)
    ensures TicketCallOk(b, u, pc)
  {
    hide OrdersEvolve, RefundUndisturbed, MintUndisturbed, ReleasesJustified, FreezesGrow, OfferGrows, RecordsGrow,
      Resolved;
    if pc.TkEnd? && pc.ok {
      ResolvedStable(a.repo.orders, b.repo.orders, a.ledger.freezes, b.ledger.freezes, a.offer, b.offer, a.held, b.held,
          a.repo.tickets[pc.i].kind);
    }
  }

  lemma ReconStable(a: Shared, b: Shared, t: Tid, u: Tid, pc: Pc)
    requires Guarantee(a, b, t) && ReconCallOk(a, u, pc)
    ensures ReconCallOk(b, u, pc)
  {
    hide RefundUndisturbed, MintUndisturbed, ReleasesJustified, FreezesGrow, SnapFits, KindOk;
    if pc.RcOpen? || pc.RcInsert? {
      KindStable(a.repo.orders, b.repo.orders, pc.kind);
    } else if pc.RcLookup? {
      SnapStable(a, b, pc.oid, pc.snap);
    }
  }

  lemma AcceptedStable(a: Shared, b: Shared, t: Tid, pc: Pc)
    requires Guarantee(a, b, t) && pc.Accepted? && Answered(a.repo.idem, pc.key, pc.order, pc.hash, pc.lost)
    ensures Answered(b.repo.idem, pc.key, pc.order, pc.hash, pc.lost)
  {
    hide OrdersEvolve, RefundUndisturbed, MintUndisturbed, ReleasesJustified, FreezesGrow, OfferGrows, TicketsGrow;
  }

  /** The rely half of the argument: no step of another call invalidates what this call knows. */
  lemma CallStable(a: Shared, b: Shared, t: Tid, u: Tid, pc: Pc)
    requires Guarantee(a, b, t) && u != t && CallOk(a, u, pc)
    ensures CallOk(b, u, pc)
  {
    hide Guarantee, CheckoutCallOk, PayCallOk, AfterCallOk, CancelCallOk, RefundCallOk, CloseCallOk, TicketCallOk,
      ReconCallOk;
    if InCheckout(pc) { CheckoutStable(a, b, t, u, pc); }
    else if InPay(pc) { PayStable(a, b, t, u, pc); }
    else if pc.After? { AfterStable(a, b, t, pc.oid, pc.snap, pc.origin, pc.at); }
    else if InCancel(pc) { CancelStable(a, b, t, u, pc); }
    else if InRefund(pc) { RefundCallStable(a, b, t, u, pc); }
    else if InClose(pc) { CloseStable(a, b, t, u, pc); }
    else if InTicket(pc) { WorkerStable(a, b, t, u, pc); }
    else if InRecon(pc) { ReconStable(a, b, t, u, pc); }
    else if pc.Accepted? { AcceptedStable(a, b, t, pc); }
  }
}

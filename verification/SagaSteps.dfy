/** Every step of every service call keeps the shared invariant, its own knowledge, and the guarantee to the others. */
module SagaSteps {
  import opened Base
  import opened Int64
  import opened Arith
  import opened Amounts
  import opened Orders
  import opened RefundMath
  import opened SagaState
  import opened SagaProgram
  import opened SagaInvariant
  import opened SagaCalls
  import opened SagaStore
  import opened SagaStability
  import L = Ledger
  import F = Offer

  // ---------------------------------------------------------------------------
  // Facts a call draws from the invariant
  // ---------------------------------------------------------------------------

  lemma OrderFacts(sh: Shared, oid: OrderId)
    requires SharedOk(sh) && oid in sh.repo.orders
    ensures OrderOk(sh.hist, sh.ledger, sh.offer, oid, sh.repo.orders[oid])
  {
    hide OrderOk, IndexOk, LogOk, LedgerOk, OpeningOk, FreezeCallsOk, OfferOk, OfferCallsOk, TicketsOk, CompensatingOk,
      AdvancesOk, PaymentsOk;
  }

  lemma ReadOk(sh: Shared, oid: OrderId)
    requires SharedOk(sh) && oid in sh.repo.orders
    ensures SnapOk(sh, oid, sh.repo.orders[oid])
  {
    hide SharedOk, PathFits, HoldsFreeze, HoldsReservation, CreditsWithin;
    OrderFacts(sh, oid);
  }

  /** The references in a snapshot are the order's own. */
  lemma SnapRefs(sh: Shared, oid: OrderId, snap: Order)
    requires SharedOk(sh) && SnapOk(sh, oid, snap)
    ensures oid in sh.repo.orders && oid < |sh.hist.minter|
    ensures snap.freeze == sh.repo.orders[oid].freeze && snap.reservation == sh.repo.orders[oid].reservation
    ensures snap.reservation.Some? ==> snap.reservation.value == Rsv(oid) && Rsv(oid) in sh.offer.resv
    ensures snap.freeze.Some? ==>
            FreezeFits(sh.hist.frozenFor, sh.ledger.freezes, oid, snap.freeze.value, AccountOf(snap))
    ensures snap.freeze.None? && snap.amounts.ledgerPay > 0 ==> LooseOn(sh.repo.orders[oid], AccountOf(snap))
  {
    hide SharedOk, PathFits, FieldsOk, CreditsWithin;
    OrderFacts(sh, oid);
  }

  lemma SnapStatus(sh: Shared, oid: OrderId, snap: Order)
    requires SnapOk(sh, oid, snap)
    ensures oid in sh.repo.orders
    ensures Compatible(snap.status, sh.repo.orders[oid].status) && snap.scene == sh.repo.orders[oid].scene
    ensures snap.reservation == sh.repo.orders[oid].reservation
  {
    hide FieldsOk;
  }

  lemma Ended(sh: Shared, t: Tid)
    ensures CallOk(sh, t, Returned)
  {
    hide CheckoutCallOk, PayCallOk, AfterCallOk, CancelCallOk, RefundCallOk, CloseCallOk, TicketCallOk, ReconCallOk;
  }

  /** A call that has read the order may act on what it read. */
  lemma Starts(sh: Shared, t: Tid, oid: OrderId, snap: Order)
    requires SnapOk(sh, oid, snap)
    ensures CallOk(sh, t, RcLookup(oid, snap)) && CallOk(sh, t, CoCas(oid, snap))
    ensures snap.status == PendingPay ==> CallOk(sh, t, PayCas(oid, snap)) && CallOk(sh, t, CnCas(oid, snap))
  {
    hide CheckoutCallOk, AfterCallOk, RefundCallOk, TicketCallOk;
    hide SnapOk;
  }

  // ---------------------------------------------------------------------------
  // Checkout
  // ---------------------------------------------------------------------------

  lemma CheckoutStepOk(sh: Shared, t: Tid, pc: Pc, out: Outcome)
    requires SharedOk(sh) && InCheckout(pc) && CheckoutCallOk(sh, t, pc)
    ensures var (b, next) := CheckoutStep(sh, t, pc, out); SharedOk(b) && Guarantee(sh, b, t) && CallOk(b, t, next)
  {
    hide SharedOk, Guarantee, CheckoutStep, CallOk;
    if pc.PvBalance? {
      var PvBalance(k) := pc;
      BalanceStep(sh, t, k, out);
    } else if pc.ChMint? {
      var ChMint(req) := pc;
      MintStep(sh, t, req, out);
    } else if pc.ChReserve? {
      var ChReserve(req, oid) := pc;
      ReserveStep(sh, t, req, oid, out);
    } else if pc.ChFreeze? {
      var ChFreeze(req, oid, got) := pc;
      FreezeStep(sh, t, req, oid, got, out);
    } else if pc.ChHold? {
      var ChHold(req, oid, got) := pc;
      HoldStep(sh, t, req, oid, got, out);
    } else if pc.ChInsert? {
      var ChInsert(req, oid, got) := pc;
      InsertStep(sh, t, req, oid, got, out);
    } else if pc.ChUndoHold? {
      var ChUndoHold(req, oid, got, again) := pc;
      UndoHoldStep(sh, t, req, oid, got, again, out);
    } else if pc.ChUndoFreeze? {
      var ChUndoFreeze(req, oid, got, again) := pc;
      UndoFreezeStep(sh, t, req, oid, got, again, out);
    } else if pc.ChUndoOffer? {
      var ChUndoOffer(req, oid, got, again) := pc;
      UndoOfferStep(sh, t, req, oid, got, again, out);
    } else {
      LookupStep(sh, t, pc, out);
    }
  }

  /** Where a checkout may go on. */
  lemma CheckoutGoesOn(sh: Shared, t: Tid, pc: Pc)
    requires pc == Returned || (pc.Accepted? && Answered(sh.repo.idem, pc.key, pc.order, pc.hash, pc.lost))
             || (InCheckout(pc) && CheckoutCallOk(sh, t, pc))
    ensures CallOk(sh, t, pc)
  {
    hide CheckoutCallOk, PayCallOk, AfterCallOk, CancelCallOk, RefundCallOk, CloseCallOk, TicketCallOk, ReconCallOk,
      Answered;
  }

  lemma LookupStep(sh: Shared, t: Tid, pc: Pc, out: Outcome)
    requires SharedOk(sh) && CheckoutCallOk(sh, t, pc)
    requires pc.ChFind? || pc.ChClient? || pc.ChFindAgain? || pc.ChRefind?
    ensures var (b, next) := CheckoutStep(sh, t, pc, out); SharedOk(b) && Guarantee(sh, b, t) && CallOk(b, t, next)
  {
    hide SharedOk, Guarantee, CallOk, CheckoutStep;
    Stays(sh, t);
    Ended(sh, t);
    if pc.ChRefind? {
      RefindLeadsTo(sh, t, pc.req, out);
    } else {
      LookupLeadsTo(sh, t, pc, pc.req, out);
      CheckoutLooksUp(sh, t, pc.req);
    }
    if CheckoutStep(sh, t, pc, out).1.Accepted? { CheckoutGoesOn(sh, t, CheckoutStep(sh, t, pc, out).1); }
  }

  lemma CheckoutLooksUp(sh: Shared, t: Tid, req: CheckoutReq)
    requires CheckoutCallOk(sh, t, ChFind(req)) || CheckoutCallOk(sh, t, ChClient(req))
             || CheckoutCallOk(sh, t, ChFindAgain(req))
    ensures CallOk(sh, t, ChClient(req)) && CallOk(sh, t, ChFindAgain(req)) && CallOk(sh, t, ChMint(req))
  {
    hide PayCallOk, AfterCallOk, CancelCallOk, RefundCallOk, CloseCallOk, TicketCallOk, ReconCallOk, ReqOk;
  }

  lemma LookupLeadsTo(sh: Shared, t: Tid, pc: Pc, req: CheckoutReq, out: Outcome)
    requires pc == ChFind(req) || pc == ChClient(req) || pc == ChFindAgain(req)
    ensures var (b, next) := CheckoutStep(sh, t, pc, out);
            && b == sh
            && (|| next == Returned || next == ChClient(req) || next == ChFindAgain(req) || next == ChMint(req)
                || (next.Accepted? && Answered(sh.repo.idem, next.key, next.order, next.hash, next.lost)))
  {
    hide ClientKeyOf, IdemKeyOf;
  }

  lemma RefindLeadsTo(sh: Shared, t: Tid, req: CheckoutReq, out: Outcome)
    requires LostRace(sh.repo.idem, req)
    ensures var (b, next) := CheckoutStep(sh, t, ChRefind(req), out);
            && b == sh
            && (next == Returned
                 || (next.Accepted? && Answered(sh.repo.idem, next.key, next.order, next.hash, next.lost)))
  {
    hide IdemKeyOf;
  }

  lemma BalanceStep(sh: Shared, t: Tid, k: L.Account, out: Outcome)
    requires SharedOk(sh)
    ensures var (b, next) := CheckoutStep(sh, t, PvBalance(k), out);
            SharedOk(b) && Guarantee(sh, b, t) && CallOk(b, t, next)
  {
    hide SharedOk, Guarantee, CallOk, AskBalance;
    Stays(sh, t);
    AskBalanceOk(sh, t, k);
    Ended(sh, t);
    Ended(AskBalance(sh, k), t);
  }

  lemma MintStep(sh: Shared, t: Tid, req: CheckoutReq, out: Outcome)
    requires SharedOk(sh) && ReqOk(req)
    ensures var (b, next) := CheckoutStep(sh, t, ChMint(req), out);
            SharedOk(b) && Guarantee(sh, b, t) && CallOk(b, t, next)
  {
    hide PayCallOk, AfterCallOk, CancelCallOk, RefundCallOk, CloseCallOk, TicketCallOk, ReconCallOk;
    hide SharedOk, Guarantee;
    Stays(sh, t);
    MintOk(sh, t);
    NewIdUnused(sh, t);
    hide Owned, Intact, ReqOk;
  }

  lemma NewIdUnused(sh: Shared, t: Tid)
    requires SharedOk(sh)
    ensures var b, oid := Mint(sh, t), |sh.hist.minter|; Owned(b, t, oid) && Intact(b, oid) && Rsv(oid) !in b.offer.resv
  {
    hide IndexOk, LogOk, OpeningOk, OfferCallsOk, TicketsOk, CompensatingOk, AdvancesOk, PaymentsOk, F.Sound, L.Sound;
    hide FieldsOk, PathFits, HoldsFreeze, HoldsReservation, HoldsRedemption, CreditsWithin;
    assert |sh.hist.minter| !in sh.repo.orders;
  }

  lemma ReserveStep(sh: Shared, t: Tid, req: CheckoutReq, oid: OrderId, out: Outcome)
    requires SharedOk(sh) && CheckoutCallOk(sh, t, ChReserve(req, oid))
    ensures var (b, next) := CheckoutStep(sh, t, ChReserve(req, oid), out);
            SharedOk(b) && Guarantee(sh, b, t) && CallOk(b, t, next)
  {
    hide SharedOk, Guarantee, CallOk, CheckoutStep, Reserve;
    Stays(sh, t);
    Ended(sh, t);
    ReserveLeadsTo(sh, t, req, oid, out);
    ReserveOk(sh, t, oid, req.amounts.discount);
    var b := Reserve(sh, oid, req.amounts.discount);
    Ended(b, t);
    Reserves(sh, sh, t, req, oid, None);
    if req.scene.offer != OfferNone { Reserves(sh, b, t, req, oid, Some(Rsv(oid))); }
  }

  lemma ReserveLeadsTo(sh: Shared, t: Tid, req: CheckoutReq, oid: OrderId, out: Outcome)
    ensures var s := CheckoutStep(sh, t, ChReserve(req, oid), out); var b := Reserve(sh, oid, req.amounts.discount);
            || s == (sh, Returned) || s == (b, Returned)
            || s == (sh, ChFreeze(req, oid, Acquired(None, None, false)))
            || (req.scene.offer != OfferNone && s == (b, ChFreeze(req, oid, Acquired(Some(Rsv(oid)), None, false))))
  {
    hide Reserve;
  }

  lemma Reserves(sh: Shared, b: Shared, t: Tid, req: CheckoutReq, oid: OrderId, rsv: Option<RsvId>)
    requires CheckoutCallOk(sh, t, ChReserve(req, oid))
    requires ((b == sh && rsv.None?) || (b == Reserve(sh, oid, req.amounts.discount) && rsv == Some(Rsv(oid))))
    requires Offered(req.scene, rsv)
    ensures CallOk(b, t, ChFreeze(req, oid, Acquired(rsv, None, false)))
  {
    hide CallOk, ReqOk;
    CheckoutGoesOn(b, t, ChFreeze(req, oid, Acquired(rsv, None, false)));
  }

  lemma FreezeStep(sh: Shared, t: Tid, req: CheckoutReq, oid: OrderId, got: Acquired, out: Outcome)
    requires SharedOk(sh) && CheckoutCallOk(sh, t, ChFreeze(req, oid, got))
    ensures var (b, next) := CheckoutStep(sh, t, ChFreeze(req, oid, got), out);
            SharedOk(b) && Guarantee(sh, b, t) && CallOk(b, t, next)
  {
    hide SharedOk, Guarantee, CallOk, CheckoutStep, FreezeFor, LostRace;
    Stays(sh, t);
    var k := L.Account(req.tenant, req.user, req.asset);
    FreezeLeadsTo(sh, t, req, oid, got, out);
    CheckoutUndoes(sh, t, req, oid, got, false);
    FreezeForOk(sh, t, oid, k, req.amounts.ledgerPay);
    var (b, r) := FreezeFor(sh, oid, k, req.amounts.ledgerPay);
    FreezeBelongs(sh, t, req, oid, got);
    CheckoutUndoes(b, t, req, oid, got, false);
  }

  lemma FreezeLeadsTo(sh: Shared, t: Tid, req: CheckoutReq, oid: OrderId, got: Acquired, out: Outcome)
    ensures var s := CheckoutStep(sh, t, ChFreeze(req, oid, got), out);
            var f := FreezeFor(sh, oid, L.Account(req.tenant, req.user, req.asset), req.amounts.ledgerPay);
            || s == (sh, ChUndoHold(req, oid, got, false)) || s == (f.0, ChUndoHold(req, oid, got, false))
            || (!(NeedsLedger(req.scene, req.amounts.ledgerPay) && req.amounts.ledgerPay > 0)
                 && s == (sh, ChHold(req, oid, got)))
            || (req.amounts.ledgerPay > 0 && f.1.Ok? && s == (f.0, ChHold(req, oid, got.(freeze := Some(f.1.value)))))
  {
    hide FreezeFor;
  }

  /** What the checkout has in hand with and without a freeze. */
  lemma FreezeBelongs(sh: Shared, t: Tid, req: CheckoutReq, oid: OrderId, got: Acquired)
    requires SharedOk(sh) && CheckoutCallOk(sh, t, ChFreeze(req, oid, got))
    ensures var (b, r) := FreezeFor(sh, oid, L.Account(req.tenant, req.user, req.asset), req.amounts.ledgerPay);
            && Owned(b, t, oid) && GotOk(b, oid, got)
            && (req.amounts.ledgerPay > 0 && r.Ok? ==> CallOk(b, t, ChHold(req, oid, got.(freeze := Some(r.value)))))
    ensures !(NeedsLedger(req.scene, req.amounts.ledgerPay) && req.amounts.ledgerPay > 0) ==>
            CallOk(sh, t, ChHold(req, oid, got))
  {
    hide SharedOk, Guarantee, CallOk, L.DoFreeze;
    var k := L.Account(req.tenant, req.user, req.asset);
    FreezeForOk(sh, t, oid, k, req.amounts.ledgerPay);
    var (b, r) := FreezeFor(sh, oid, k, req.amounts.ledgerPay);
    if req.amounts.ledgerPay > 0 && r.Ok? { CheckoutGoesOn(b, t, ChHold(req, oid, got.(freeze := Some(r.value)))); }
    if !(NeedsLedger(req.scene, req.amounts.ledgerPay) && req.amounts.ledgerPay > 0) {
      CheckoutGoesOn(sh, t, ChHold(req, oid, got));
    }
  }

  lemma HoldStep(sh: Shared, t: Tid, req: CheckoutReq, oid: OrderId, got: Acquired, out: Outcome)
    requires SharedOk(sh) && CheckoutCallOk(sh, t, ChHold(req, oid, got))
    ensures var (b, next) := CheckoutStep(sh, t, ChHold(req, oid, got), out);
            SharedOk(b) && Guarantee(sh, b, t) && CallOk(b, t, next)
  {
    hide PayCallOk, AfterCallOk, CancelCallOk, RefundCallOk, CloseCallOk, TicketCallOk, ReconCallOk;
    hide SharedOk, Guarantee;
    Stays(sh, t);
    SagaCalls.HoldOk(sh, t, oid);
    hide ReqOk, HoldsReservation, HoldsFreeze;
  }

  lemma InsertStep(sh: Shared, t: Tid, req: CheckoutReq, oid: OrderId, got: Acquired, out: Outcome)
    requires SharedOk(sh) && CheckoutCallOk(sh, t, ChInsert(req, oid, got))
    ensures var (b, next) := CheckoutStep(sh, t, ChInsert(req, oid, got), out);
            SharedOk(b) && Guarantee(sh, b, t) && CallOk(b, t, next)
  {
    hide SharedOk, Guarantee, CallOk, CheckoutStep, InsertCheckout, ReqOk, Intact, HoldsReservation, HoldsFreeze, Owned,
      GotOk, LostRace, Answered;
    Stays(sh, t);
    InsertLeadsTo(sh, t, req, oid, got, out);
    InsertCheckoutOk(sh, t, oid, req, got.rsv, got.freeze);
    CheckoutUndoes(sh, t, req, oid, got, false);
    var (b, r) := InsertCheckout(sh, oid, req, got.rsv, got.freeze);
    if r.Ok? { CheckoutGoesOn(b, t, Accepted(IdemKeyOf(req), oid, req.hash, false)); }
    else { CheckoutUndoes(sh, t, req, oid, got, r.error == IdempotencyConflict); }
  }

  lemma InsertLeadsTo(sh: Shared, t: Tid, req: CheckoutReq, oid: OrderId, got: Acquired, out: Outcome)
    ensures var s := CheckoutStep(sh, t, ChInsert(req, oid, got), out);
            var i := InsertCheckout(sh, oid, req, got.rsv, got.freeze);
            || s == (sh, ChUndoHold(req, oid, got, false))
            || (i.1.Ok? && s == (i.0, Accepted(IdemKeyOf(req), oid, req.hash, false)))
            || (i.1.Err? && s == (sh, ChUndoHold(req, oid, got, i.1.error == IdempotencyConflict)))
  {
    hide InsertCheckout, IdemKeyOf;
  }

  lemma CheckoutUndoes(sh: Shared, t: Tid, req: CheckoutReq, oid: OrderId, got: Acquired, again: bool)
    requires Owned(sh, t, oid) && GotOk(sh, oid, got) && (again ==> LostRace(sh.repo.idem, req))
    ensures CallOk(sh, t, ChUndoHold(req, oid, got, again)) && CallOk(sh, t, ChUndoFreeze(req, oid, got, again))
    ensures CallOk(sh, t, ChUndoOffer(req, oid, got, again))
    ensures again ==> CallOk(sh, t, ChRefind(req))
  {
    hide PayCallOk, AfterCallOk, CancelCallOk, RefundCallOk, CloseCallOk, TicketCallOk, ReconCallOk, Owned, GotOk,
      LostRace;
  }

  lemma UndoHoldStep(sh: Shared, t: Tid, req: CheckoutReq, oid: OrderId, got: Acquired, again: bool, out: Outcome)
    requires SharedOk(sh) && CheckoutCallOk(sh, t, ChUndoHold(req, oid, got, again))
    ensures var (b, next) := CheckoutStep(sh, t, ChUndoHold(req, oid, got, again), out);
            SharedOk(b) && Guarantee(sh, b, t) && CallOk(b, t, next)
  {
    hide PayCallOk, AfterCallOk, CancelCallOk, RefundCallOk, CloseCallOk, TicketCallOk, ReconCallOk;
    hide SharedOk, Guarantee;
    Stays(sh, t);
    UnholdOk(sh, t, oid);
  }

  lemma UndoFreezeStep(sh: Shared, t: Tid, req: CheckoutReq, oid: OrderId, got: Acquired, again: bool, out: Outcome)
    requires SharedOk(sh) && CheckoutCallOk(sh, t, ChUndoFreeze(req, oid, got, again))
    ensures var (b, next) := CheckoutStep(sh, t, ChUndoFreeze(req, oid, got, again), out);
            SharedOk(b) && Guarantee(sh, b, t) && CallOk(b, t, next)
  {
    hide PayCallOk, AfterCallOk, CancelCallOk, RefundCallOk, CloseCallOk, TicketCallOk, ReconCallOk;
    hide SharedOk, Guarantee;
    Stays(sh, t);
    ReleaseFreezeOk(sh, t, got.freeze);
    hide L.DoRelease;
  }

  lemma UndoOfferStep(sh: Shared, t: Tid, req: CheckoutReq, oid: OrderId, got: Acquired, again: bool, out: Outcome)
    requires SharedOk(sh) && CheckoutCallOk(sh, t, ChUndoOffer(req, oid, got, again))
    ensures var (b, next) := CheckoutStep(sh, t, ChUndoOffer(req, oid, got, again), out);
            SharedOk(b) && Guarantee(sh, b, t) && CallOk(b, t, next)
  {
    hide SharedOk, Guarantee, CallOk, CheckoutStep, F.DoRelease, LostRace;
    Stays(sh, t);
    Ended(sh, t);
    UndoOfferLeadsTo(sh, t, req, oid, got, again, out);
    CheckoutUndoes(sh, t, req, oid, got, again);
    if got.rsv.Some? {
      var b := ReleaseReservation(sh, got.rsv.value);
      ReleaseReservationOk(sh, t, got.rsv.value);
      Ended(b, t);
      if again { CheckoutGoesOn(b, t, ChRefind(req)); }
    }
  }

  lemma UndoOfferLeadsTo(sh: Shared, t: Tid, req: CheckoutReq, oid: OrderId, got: Acquired, again: bool, out: Outcome)
    ensures var (b, next) := CheckoutStep(sh, t, ChUndoOffer(req, oid, got, again), out);
            && (b == sh || (got.rsv.Some? && b == ReleaseReservation(sh, got.rsv.value)))
            && next == if again then ChRefind(req) else Returned
  {
    hide ReleaseReservation;
  }

  // ---------------------------------------------------------------------------
  // Payment
  // ---------------------------------------------------------------------------

  lemma PayStepOk(sh: Shared, t: Tid, pc: Pc, out: Outcome)
    requires SharedOk(sh) && InPay(pc) && PayCallOk(sh, t, pc)
    ensures var (b, next) := PayStep(sh, t, pc, out); SharedOk(b) && Guarantee(sh, b, t) && CallOk(b, t, next)
  {
    hide SharedOk, Guarantee, PayStep, CallOk, SnapOk, HasTicket, TicketAt;
    if pc.PayRead? { var PayRead(oid) := pc; PayReadStep(sh, t, oid, out); }
    else if pc.PayCas? { var PayCas(oid, snap) := pc; PayCasStep(sh, t, oid, snap, out); }
    else if pc.PayTicket? { var PayTicket(oid, snap) := pc; PayTicketStep(sh, t, oid, snap, out); }
    else if pc.PayCompensate? { var PayCompensate(oid, snap) := pc; PayCompensateStep(sh, t, oid, snap, out); }
    else if pc.RetryRead? { var RetryRead(oid, ticket) := pc; RetryReadStep(sh, t, oid, ticket, out); }
  }

  lemma PayReadStep(sh: Shared, t: Tid, oid: OrderId, out: Outcome)
    requires SharedOk(sh)
    ensures var (b, next) := PayStep(sh, t, PayRead(oid), out); SharedOk(b) && Guarantee(sh, b, t) && CallOk(b, t, next)
  {
    hide SharedOk, Guarantee, SnapOk, CallOk;
    Stays(sh, t);
    Ended(sh, t);
    if oid in sh.repo.orders {
      ReadOk(sh, oid);
      Starts(sh, t, oid, sh.repo.orders[oid]);
    }
  }

  lemma PayCasStep(sh: Shared, t: Tid, oid: OrderId, snap: Order, out: Outcome)
    requires SharedOk(sh) && SnapOk(sh, oid, snap) && snap.status == PendingPay
    ensures var (b, next) := PayStep(sh, t, PayCas(oid, snap), out);
            SharedOk(b) && Guarantee(sh, b, t) && CallOk(b, t, next)
  {
    hide SharedOk, Guarantee, SnapOk, Cas, FieldsOk, HoldsRedemption, CallOk, PayStep;
    Stays(sh, t);
    Ended(sh, t);
    PayCasLeadsTo(sh, t, oid, snap, out);
    CasOk(sh, t, oid, ReqPay, snap);
    StoredSnap(sh, t, oid, ReqPay, snap);
    var (b, o) := Cas(sh, t, oid, ReqPay, snap);
    Ended(b, t);
    if o.Some? { AfterStarts(b, t, oid, o.value); }
  }

  lemma PayCasLeadsTo(sh: Shared, t: Tid, oid: OrderId, snap: Order, out: Outcome)
    ensures var s := PayStep(sh, t, PayCas(oid, snap), out); var (b, o) := Cas(sh, t, oid, ReqPay, snap);
            s == (sh, Returned) || s == (b, Returned) || (o.Some? && s == (b, After(oid, o.value, FromPay, ApCommit)))
  {
    hide Cas;
  }

  lemma AfterStarts(sh: Shared, t: Tid, oid: OrderId, snap: Order)
    requires SnapOk(sh, oid, snap) && snap.status == Paid
    ensures CallOk(sh, t, After(oid, snap, FromPay, ApCommit))
  {
    hide SnapOk, CheckoutCallOk, PayCallOk, CancelCallOk, RefundCallOk, CloseCallOk, TicketCallOk, ReconCallOk;
  }

  lemma PayTicketStep(sh: Shared, t: Tid, oid: OrderId, snap: Order, out: Outcome)
    requires SharedOk(sh) && SnapOk(sh, oid, snap) && snap.status == Paid
    ensures var (b, next) := PayStep(sh, t, PayTicket(oid, snap), out);
            SharedOk(b) && Guarantee(sh, b, t) && CallOk(b, t, next)
  {
    hide CheckoutCallOk, AfterCallOk, CancelCallOk, RefundCallOk, CloseCallOk, TicketCallOk, ReconCallOk;
    hide SharedOk, Guarantee, SnapOk, HasTicket, InsertTicket;
    InsertTicketOk(sh, t, AfterPaid(oid), out);
    SnapCarries(sh, InsertTicket(sh, AfterPaid(oid), out), t, oid, snap);
  }

  lemma PayCompensateStep(sh: Shared, t: Tid, oid: OrderId, snap: Order, out: Outcome)
    requires SharedOk(sh) && PayCallOk(sh, t, PayCompensate(oid, snap))
    ensures var (b, next) := PayStep(sh, t, PayCompensate(oid, snap), out);
            SharedOk(b) && Guarantee(sh, b, t) && CallOk(b, t, next)
  {
    hide SharedOk, Guarantee, SnapOk, Cas, FieldsOk, HoldsRedemption, HasTicket, CallOk;
    Stays(sh, t);
    Ended(sh, t);
    CasOk(sh, t, oid, ReqCompensate, snap);
    Ended(Cas(sh, t, oid, ReqCompensate, snap).0, t);
  }

  /** A snapshot stays valid over the call's own steps. */
  lemma SnapCarries(sh: Shared, b: Shared, t: Tid, oid: OrderId, snap: Order)
    requires Guarantee(sh, b, t) && SnapOk(sh, oid, snap)
    ensures SnapOk(b, oid, snap) && b.reliable == sh.reliable
  {
    hide OrdersEvolve, RefundUndisturbed, MintUndisturbed, ReleasesJustified, FreezesGrow, OfferGrows, TicketsGrow,
      RecordsGrow, SnapFits;
    SnapStable(sh, b, oid, snap);
  }

  /** The order as a command stored it is a valid snapshot of itself. */
  lemma StoredSnap(sh: Shared, t: Tid, oid: OrderId, req: Request, snap: Order)
    requires SharedOk(sh) && CasReady(sh, t, oid, req, snap)
    ensures var (b, o) := Cas(sh, t, oid, req, snap);
            o.Some? ==> SnapOk(b, oid, o.value) && o.value.status == CommandOf(req, snap).to
  {
    hide SharedOk, Guarantee, SnapOk, Cas, FieldsOk, HoldsRedemption, CasReady, CommandOf;
    CasOk(sh, t, oid, req, snap);
    var (b, o) := Cas(sh, t, oid, req, snap);
    if o.Some? { ReadOk(b, oid); }
  }

  lemma RetryReadStep(sh: Shared, t: Tid, oid: OrderId, ticket: Option<nat>, out: Outcome)
    requires SharedOk(sh) && PayCallOk(sh, t, RetryRead(oid, ticket))
    ensures var (b, next) := PayStep(sh, t, RetryRead(oid, ticket), out);
            SharedOk(b) && Guarantee(sh, b, t) && CallOk(b, t, next)
  {
    hide SharedOk, Guarantee, SnapOk, EndRetry, CallOk;
    Stays(sh, t);
    if oid in sh.repo.orders {
      ReadOk(sh, oid);
      RetryEnds(sh, t, oid, ticket, PastPayment(sh.repo.orders[oid].status));
      if sh.repo.orders[oid].status in {Paid, Compensating} {
        RetryContinues(sh, t, oid, ticket);
      }
    }
    RetryEnds(sh, t, oid, ticket, false);
  }

  lemma RetryEnds(sh: Shared, t: Tid, oid: OrderId, ticket: Option<nat>, ok: bool)
    requires PayCallOk(sh, t, RetryRead(oid, ticket))
    requires ok ==> oid in sh.repo.orders && PastPayment(sh.repo.orders[oid].status)
    ensures CallOk(sh, t, EndRetry(ticket, ok))
  {
    hide CheckoutCallOk, AfterCallOk, CancelCallOk, RefundCallOk, CloseCallOk, ReconCallOk;
  }

  lemma RetryContinues(sh: Shared, t: Tid, oid: OrderId, ticket: Option<nat>)
    requires PayCallOk(sh, t, RetryRead(oid, ticket)) && oid in sh.repo.orders && SnapOk(sh, oid, sh.repo.orders[oid])
    requires sh.repo.orders[oid].status in {Paid, Compensating}
    ensures CallOk(sh, t, After(oid, sh.repo.orders[oid], FromRetry(ticket), ApCommit))
  {
    hide CheckoutCallOk, CancelCallOk, RefundCallOk, CloseCallOk, TicketCallOk, ReconCallOk;
    hide SnapFits;
  }

  lemma AfterPaidStepOk(sh: Shared, t: Tid, oid: OrderId, snap: Order, origin: Origin, at: AfterStep, out: Outcome)
    requires SharedOk(sh) && AfterCallOk(sh, oid, snap, origin, at)
    ensures var (b, next) := AfterPaidStep(sh, t, After(oid, snap, origin, at), out);
            SharedOk(b) && Guarantee(sh, b, t) && CallOk(b, t, next)
  {
    hide SharedOk, Guarantee, AfterCallOk, AfterPaidStep, CallOk;
    match at
    case ApCommit => AfterCommitStep(sh, t, oid, snap, origin, out);
    case ApRedemption(id) => AfterRedemptionStep(sh, t, oid, snap, origin, id, out);
    case ApCapture => AfterCaptureStep(sh, t, oid, snap, origin, out);
    case ApFulfil => AfterFulfilStep(sh, t, oid, snap, origin, out);
    case ApAdvance => AfterAdvanceStep(sh, t, oid, snap, origin, out);
  }

  lemma AfterCaptureStep(sh: Shared, t: Tid, oid: OrderId, snap: Order, origin: Origin, out: Outcome)
    requires SharedOk(sh) && AfterCallOk(sh, oid, snap, origin, ApCapture)
    ensures var (b, next) := AfterPaidStep(sh, t, After(oid, snap, origin, ApCapture), out);
            SharedOk(b) && Guarantee(sh, b, t) && CallOk(b, t, next)
  {
    hide SharedOk, Guarantee, SnapOk, Capture, OriginOk, CallOk, AfterFailed, Committed, FreezeFits, LooseOn;
    Stays(sh, t);
    SnapRefs(sh, oid, snap);
    SnapStatus(sh, oid, snap);
    CaptureOk(sh, t, oid, snap.freeze);
    CaptureRecorded(sh, snap.freeze);
    AfterCarries(sh, sh, t, oid, snap, origin);
    AfterCarries(sh, Capture(sh, snap.freeze).0, t, oid, snap, origin);
  }

  /** Only an existing freeze is captured, and the call is on record. */
  lemma CaptureRecorded(sh: Shared, f: Option<FreezeId>)
    ensures Capture(sh, f).1.Ok? ==> f.Some? && f.value in Capture(sh, f).0.hist.captures
  {
  }

  lemma AfterFulfilStep(sh: Shared, t: Tid, oid: OrderId, snap: Order, origin: Origin, out: Outcome)
    requires SharedOk(sh) && AfterCallOk(sh, oid, snap, origin, ApFulfil)
    ensures var (b, next) := AfterPaidStep(sh, t, After(oid, snap, origin, ApFulfil), out);
            SharedOk(b) && Guarantee(sh, b, t) && CallOk(b, t, next)
  {
    hide SharedOk, Guarantee, SnapOk, OriginOk, Hold, Unhold, CallOk, AfterFailed, Captured, Committed;
    Stays(sh, t);
    SnapStatus(sh, oid, snap);
    SagaCalls.HoldOk(sh, t, oid);
    AfterCarries(sh, sh, t, oid, snap, origin);
    AfterCarries(sh, Hold(sh, oid), t, oid, snap, origin);
  }

  /** What the steps after payment know carries over their own calls. */
  lemma AfterCarries(sh: Shared, b: Shared, t: Tid, oid: OrderId, snap: Order, origin: Origin)
    requires Guarantee(sh, b, t) && AfterCallOk(sh, oid, snap, origin, ApCommit)
    ensures AfterCallOk(b, oid, snap, origin, ApCommit)
    ensures CallOk(b, t, AfterFailed(oid, snap, origin))
    ensures Committed(snap, sh.offer.redeem) ==> Committed(snap, b.offer.redeem)
    ensures Captured(snap, sh.hist.captures) ==> Captured(snap, b.hist.captures)
    ensures Committed(snap, b.offer.redeem) ==> CallOk(b, t, After(oid, snap, origin, ApCapture))
    ensures Committed(snap, b.offer.redeem) && Captured(snap, b.hist.captures) ==>
              CallOk(b, t, After(oid, snap, origin, ApFulfil)) && CallOk(b, t, After(oid, snap, origin, ApAdvance))
  {
    hide Guarantee, AfterCallOk, Captured, Committed, CallOk;
    AfterStable(sh, b, t, oid, snap, origin, ApCommit);
    ServedKept(sh, b, t, snap);
    AfterGivesUp(b, t, oid, snap, origin);
    AfterServed(b, t, oid, snap, origin);
  }

  lemma AfterGivesUp(sh: Shared, t: Tid, oid: OrderId, snap: Order, origin: Origin)
    requires AfterCallOk(sh, oid, snap, origin, ApCommit)
    ensures CallOk(sh, t, AfterFailed(oid, snap, origin))
  {
    hide CheckoutCallOk, CancelCallOk, RefundCallOk, CloseCallOk, ReconCallOk;
    hide SnapOk, Captured, Committed;
  }

  lemma AfterServed(sh: Shared, t: Tid, oid: OrderId, snap: Order, origin: Origin)
    requires AfterCallOk(sh, oid, snap, origin, ApCommit)
    ensures Committed(snap, sh.offer.redeem) ==> CallOk(sh, t, After(oid, snap, origin, ApCapture))
    ensures Committed(snap, sh.offer.redeem) && Captured(snap, sh.hist.captures) ==>
              CallOk(sh, t, After(oid, snap, origin, ApFulfil)) && CallOk(sh, t, After(oid, snap, origin, ApAdvance))
  {
    hide CheckoutCallOk, PayCallOk, CancelCallOk, RefundCallOk, CloseCallOk, TicketCallOk, ReconCallOk;
    hide SnapOk, Captured, Committed, OriginOk;
  }

  lemma ServedKept(sh: Shared, b: Shared, t: Tid, snap: Order)
    requires Guarantee(sh, b, t)
    ensures Committed(snap, sh.offer.redeem) ==> Committed(snap, b.offer.redeem)
    ensures Captured(snap, sh.hist.captures) ==> Captured(snap, b.hist.captures)
  {
    hide OrdersEvolve, RefundUndisturbed, MintUndisturbed, ReleasesJustified, FreezesGrow, TicketsGrow, RecordsGrow,
      HeldShrinks;
  }

  lemma AfterCommitStep(sh: Shared, t: Tid, oid: OrderId, snap: Order, origin: Origin, out: Outcome)
    requires SharedOk(sh) && AfterCallOk(sh, oid, snap, origin, ApCommit)
    ensures var (b, next) := AfterPaidStep(sh, t, After(oid, snap, origin, ApCommit), out);
            SharedOk(b) && Guarantee(sh, b, t) && CallOk(b, t, next)
  {
    hide SharedOk, Guarantee, SnapOk, Commit, OriginOk, AfterFailed, CallOk, AfterPaidStep, FreezeFits, LooseOn;
    Stays(sh, t);
    SnapRefs(sh, oid, snap);
    SnapStatus(sh, oid, snap);
    AfterCarries(sh, sh, t, oid, snap, origin);
    AfterCommitLeadsTo(sh, t, oid, snap, origin, out);
    if snap.reservation.Some? {
      CommitOk(sh, t, Rsv(oid));
      var (b, r) := Commit(sh, Rsv(oid));
      AfterCarries(sh, b, t, oid, snap, origin);
      if r.Ok? { AfterRedeems(b, t, oid, snap, origin); }
    }
  }

  lemma AfterCommitLeadsTo(sh: Shared, t: Tid, oid: OrderId, snap: Order, origin: Origin, out: Outcome)
    ensures var s := AfterPaidStep(sh, t, After(oid, snap, origin, ApCommit), out);
            || (snap.reservation.None? && s == (sh, After(oid, snap, origin, ApCapture)))
            || s == (sh, AfterFailed(oid, snap, origin))
            || (snap.reservation.Some? && s == (Commit(sh, snap.reservation.value).0, AfterFailed(oid, snap, origin)))
            || (snap.reservation.Some? && Commit(sh, snap.reservation.value).1.Ok?
                && s == (Commit(sh, snap.reservation.value).0,
                     After(oid, snap, origin, ApRedemption(Commit(sh, snap.reservation.value).1.value))))
  {
    hide Commit, AfterFailed;
  }

  lemma AfterRedeems(sh: Shared, t: Tid, oid: OrderId, snap: Order, origin: Origin)
    requires AfterCallOk(sh, oid, snap, origin, ApCommit) && Rd(Rsv(oid)) in sh.offer.redeem
    requires snap.reservation == Some(Rsv(oid))
    ensures CallOk(sh, t, After(oid, snap, origin, ApRedemption(Rd(Rsv(oid)))))
  {
    hide CheckoutCallOk, PayCallOk, CancelCallOk, RefundCallOk, CloseCallOk, TicketCallOk, ReconCallOk;
    hide SnapOk, OriginOk;
  }

  lemma AfterRedemptionStep(sh: Shared, t: Tid, oid: OrderId, snap: Order, origin: Origin, id: RedId, out: Outcome)
    requires SharedOk(sh) && AfterCallOk(sh, oid, snap, origin, ApRedemption(id))
    ensures var (b, next) := AfterPaidStep(sh, t, After(oid, snap, origin, ApRedemption(id)), out);
            SharedOk(b) && Guarantee(sh, b, t) && CallOk(b, t, next)
  {
    hide SharedOk, Guarantee, SnapOk, UpdateRedemption, OriginOk, CallOk;
    Stays(sh, t);
    SnapStatus(sh, oid, snap);
    UpdateRedemptionOk(sh, t, oid, id);
    var b, snap' := UpdateRedemption(sh, oid, id), snap.(redemption := Some(id));
    Redeemed(sh, oid, snap, origin, id);
    assert Committed(snap', sh.offer.redeem);
    AfterCarries(sh, sh, t, oid, snap', origin);
    AfterCarries(sh, b, t, oid, snap', origin);
  }

  lemma Redeemed(sh: Shared, oid: OrderId, snap: Order, origin: Origin, id: RedId)
    requires id == Rd(Rsv(oid)) && AfterCallOk(sh, oid, snap, origin, ApRedemption(id))
    ensures AfterCallOk(sh, oid, snap.(redemption := Some(id)), origin, ApCommit)
  {
  }

  lemma AfterAdvanceStep(sh: Shared, t: Tid, oid: OrderId, snap: Order, origin: Origin, out: Outcome)
    requires SharedOk(sh) && AfterCallOk(sh, oid, snap, origin, ApAdvance)
    ensures var (b, next) := AfterPaidStep(sh, t, After(oid, snap, origin, ApAdvance), out);
            SharedOk(b) && Guarantee(sh, b, t) && CallOk(b, t, next)
  {
    hide SharedOk, Guarantee, SnapOk, Cas, AfterFailed, AfterDone, HoldsRedemption, FieldsOk, CallOk, OriginOk;
    Stays(sh, t);
    CasOk(sh, t, oid, ReqAdvance, snap);
    var (b, o) := Cas(sh, t, oid, ReqAdvance, snap);
    AfterCarries(sh, sh, t, oid, snap, origin);
    AfterCarries(sh, b, t, oid, snap, origin);
    if o.Some? {
      AfterEnds(b, t, oid, snap, origin);
    }
  }

  lemma AfterEnds(sh: Shared, t: Tid, oid: OrderId, snap: Order, origin: Origin)
    requires AfterCallOk(sh, oid, snap, origin, ApCommit)
    requires oid in sh.repo.orders && PastPayment(sh.repo.orders[oid].status)
    ensures CallOk(sh, t, AfterDone(origin))
  {
    hide CheckoutCallOk, PayCallOk, CancelCallOk, RefundCallOk, CloseCallOk, ReconCallOk;
    hide SnapOk;
  }

  // ---------------------------------------------------------------------------
  // Cancellation
  // ---------------------------------------------------------------------------

  lemma CancelStepOk(sh: Shared, t: Tid, pc: Pc, out: Outcome)
    requires SharedOk(sh) && InCancel(pc) && CancelCallOk(sh, t, pc)
    ensures var (b, next) := CancelStep(sh, t, pc, out); SharedOk(b) && Guarantee(sh, b, t) && CallOk(b, t, next)
  {
    hide SharedOk, Guarantee, CancelStep, CallOk, SnapOk;
    if pc.CnRead? { var CnRead(oid) := pc; CancelReadStep(sh, t, oid, out); }
    else if pc.CnCas? { var CnCas(oid, snap) := pc; CancelCasStep(sh, t, oid, snap, out); }
    else if pc.CnOffer? { var CnOffer(oid, snap) := pc; CancelOfferStep(sh, t, oid, snap, out); }
    else if pc.CnOfferTicket? { var CnOfferTicket(oid, snap) := pc; CancelOfferTicketStep(sh, t, oid, snap, out); }
    else if pc.CnLedger? { var CnLedger(oid, snap) := pc; CancelLedgerStep(sh, t, oid, snap, out); }
    else if pc.CnLedgerTicket? { var CnLedgerTicket(oid, snap) := pc; CancelLedgerTicketStep(sh, t, oid, snap, out); }
    else if pc.CnFulfil? { var CnFulfil(oid) := pc; CancelFulfilStep(sh, t, oid, out); }
    else if pc.CnFulfilTicket? { var CnFulfilTicket(oid) := pc; CancelFulfilTicketStep(sh, t, oid, out); }
  }

  lemma CancelReadStep(sh: Shared, t: Tid, oid: OrderId, out: Outcome)
    requires SharedOk(sh)
    ensures var (b, next) := CancelStep(sh, t, CnRead(oid), out);
            SharedOk(b) && Guarantee(sh, b, t) && CallOk(b, t, next)
  {
    hide SharedOk, Guarantee, SnapOk, CallOk;
    Stays(sh, t);
    Ended(sh, t);
    if oid in sh.repo.orders {
      ReadOk(sh, oid);
      Starts(sh, t, oid, sh.repo.orders[oid]);
    }
  }

  lemma CancelCasStep(sh: Shared, t: Tid, oid: OrderId, snap: Order, out: Outcome)
    requires SharedOk(sh) && SnapOk(sh, oid, snap) && snap.status == PendingPay
    ensures var (b, next) := CancelStep(sh, t, CnCas(oid, snap), out);
            SharedOk(b) && Guarantee(sh, b, t) && CallOk(b, t, next)
  {
    hide SharedOk, Guarantee, SnapOk, Cas, FieldsOk, HoldsRedemption, CallOk, CancelStep;
    Stays(sh, t);
    Ended(sh, t);
    CancelCasLeadsTo(sh, t, oid, snap, out);
    CasOk(sh, t, oid, ReqCancel, snap);
    StoredSnap(sh, t, oid, ReqCancel, snap);
    var (b, o) := Cas(sh, t, oid, ReqCancel, snap);
    Ended(b, t);
    if o.Some? { CancelGoesOn(b, t, oid, o.value); }
  }

  lemma CancelCasLeadsTo(sh: Shared, t: Tid, oid: OrderId, snap: Order, out: Outcome)
    ensures var s := CancelStep(sh, t, CnCas(oid, snap), out); var (b, o) := Cas(sh, t, oid, ReqCancel, snap);
            s == (sh, Returned) || s == (b, Returned) || (o.Some? && s == (b, CnOffer(oid, o.value)))
  {
    hide Cas;
  }

  lemma CancelOfferStep(sh: Shared, t: Tid, oid: OrderId, snap: Order, out: Outcome)
    requires SharedOk(sh) && SnapOk(sh, oid, snap) && snap.status == Cancelled
    ensures var (b, next) := CancelStep(sh, t, CnOffer(oid, snap), out);
            SharedOk(b) && Guarantee(sh, b, t) && CallOk(b, t, next)
  {
    hide SharedOk, Guarantee, SnapOk, ReleaseReservation, CallOk;
    Stays(sh, t);
    SnapRefs(sh, oid, snap);
    SnapStatus(sh, oid, snap);
    CancelGoesOn(sh, t, oid, snap);
    if snap.reservation.Some? {
      ReleaseReservationOk(sh, t, Rsv(oid));
      SnapCarries(sh, ReleaseReservation(sh, Rsv(oid)), t, oid, snap);
      CancelGoesOn(ReleaseReservation(sh, Rsv(oid)), t, oid, snap);
    }
  }

  lemma CancelGoesOn(sh: Shared, t: Tid, oid: OrderId, snap: Order)
    requires SnapOk(sh, oid, snap) && snap.status == Cancelled
    ensures CallOk(sh, t, CnOffer(oid, snap)) && CallOk(sh, t, CnOfferTicket(oid, snap))
    ensures CallOk(sh, t, CnLedger(oid, snap))
    ensures CallOk(sh, t, CnLedgerTicket(oid, snap)) && CallOk(sh, t, CnFulfil(oid))
  {
    hide CheckoutCallOk, PayCallOk, AfterCallOk, RefundCallOk, CloseCallOk, TicketCallOk, ReconCallOk;
    hide SnapOk;
    SnapStatus(sh, oid, snap);
  }

  lemma CancelOfferTicketStep(sh: Shared, t: Tid, oid: OrderId, snap: Order, out: Outcome)
    requires SharedOk(sh) && SnapOk(sh, oid, snap) && snap.status == Cancelled
    ensures var (b, next) := CancelStep(sh, t, CnOfferTicket(oid, snap), out);
            SharedOk(b) && Guarantee(sh, b, t) && CallOk(b, t, next)
  {
    hide SharedOk, Guarantee, SnapOk, HasTicket, InsertTicket, CallOk;
    Stays(sh, t);
    SnapRefs(sh, oid, snap);
    SnapStatus(sh, oid, snap);
    CancelGoesOn(sh, t, oid, snap);
    if snap.reservation.Some? {
      InsertTicketOk(sh, t, OfferRelease(Rsv(oid)), out);
      SnapCarries(sh, InsertTicket(sh, OfferRelease(Rsv(oid)), out), t, oid, snap);
      CancelGoesOn(InsertTicket(sh, OfferRelease(Rsv(oid)), out), t, oid, snap);
    }
  }

  lemma CancelLedgerStep(sh: Shared, t: Tid, oid: OrderId, snap: Order, out: Outcome)
    requires SharedOk(sh) && SnapOk(sh, oid, snap) && snap.status == Cancelled
    ensures var (b, next) := CancelStep(sh, t, CnLedger(oid, snap), out);
            SharedOk(b) && Guarantee(sh, b, t) && CallOk(b, t, next)
  {
    hide SharedOk, Guarantee, SnapOk, ReleaseFreeze, CallOk;
    Stays(sh, t);
    SnapRefs(sh, oid, snap);
    SnapStatus(sh, oid, snap);
    ReleaseFreezeOk(sh, t, snap.freeze);
    SnapCarries(sh, ReleaseFreeze(sh, snap.freeze), t, oid, snap);
    CancelGoesOn(sh, t, oid, snap);
    CancelGoesOn(ReleaseFreeze(sh, snap.freeze), t, oid, snap);
  }

  lemma CancelLedgerTicketStep(sh: Shared, t: Tid, oid: OrderId, snap: Order, out: Outcome)
    requires SharedOk(sh) && SnapOk(sh, oid, snap) && snap.status == Cancelled
    ensures var (b, next) := CancelStep(sh, t, CnLedgerTicket(oid, snap), out);
            SharedOk(b) && Guarantee(sh, b, t) && CallOk(b, t, next)
  {
    hide SharedOk, Guarantee, SnapOk, HasTicket, InsertTicket, CallOk;
    SnapRefs(sh, oid, snap);
    SnapStatus(sh, oid, snap);
    InsertTicketOk(sh, t, LedgerRelease(snap.freeze, oid), out);
    SnapCarries(sh, InsertTicket(sh, LedgerRelease(snap.freeze, oid), out), t, oid, snap);
    CancelGoesOn(InsertTicket(sh, LedgerRelease(snap.freeze, oid), out), t, oid, snap);
  }

  lemma CancelFulfilStep(sh: Shared, t: Tid, oid: OrderId, out: Outcome)
    requires SharedOk(sh) && IsCancelled(sh, oid)
    ensures var (b, next) := CancelStep(sh, t, CnFulfil(oid), out);
            SharedOk(b) && Guarantee(sh, b, t) && CallOk(b, t, next)
  {
    hide SharedOk, Guarantee, CallOk;
    Stays(sh, t);
    UnholdOk(sh, t, oid);
    Ended(sh, t);
    Ended(Unhold(sh, oid), t);
    FulfilOwed(sh, t, oid);
    FulfilOwed(Unhold(sh, oid), t, oid);
  }

  lemma CancelFulfilTicketStep(sh: Shared, t: Tid, oid: OrderId, out: Outcome)
    requires SharedOk(sh) && IsCancelled(sh, oid)
    ensures var (b, next) := CancelStep(sh, t, CnFulfilTicket(oid), out);
            SharedOk(b) && Guarantee(sh, b, t) && CallOk(b, t, next)
  {
    hide SharedOk, Guarantee, InsertTicket, HasTicket, CallOk;
    InsertTicketOk(sh, t, FulfilRelease(oid), out);
    Ended(InsertTicket(sh, FulfilRelease(oid), out), t);
  }

  lemma FulfilOwed(sh: Shared, t: Tid, oid: OrderId)
    requires IsCancelled(sh, oid)
    ensures CallOk(sh, t, CnFulfilTicket(oid))
  {
    hide CheckoutCallOk, PayCallOk, AfterCallOk, RefundCallOk, CloseCallOk, TicketCallOk, ReconCallOk;
    hide IsCancelled;
  }
}

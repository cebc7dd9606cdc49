/**
 * What a compensation ticket, a reconciliation and a checkout achieve when they are left alone and each of
 * their steps succeeds.
 */
module SagaErrands {
  import opened Base
  import opened Int64
  import opened Orders
  import opened SagaState
  import opened SagaProgram
  import opened SagaInvariant
  import opened SagaRetries
  import opened SagaAlone
  import opened SagaOutcomes
  import L = Ledger
  import F = Offer

  // ---------------------------------------------------------------------------
  // Compensation tickets
  // ---------------------------------------------------------------------------

  /** A retry has nothing left to do for the order, or can do it. */
  predicate RetryWorks(sh: Shared, o: Order) {
    o.status in {Fulfilling, Completed} || (o.status in {Paid, Compensating} && CanServe(sh, o))
  }

  /** What handling a ticket comes to when the calls it makes succeed. */
  predicate Works(sh: Shared, kind: TicketKind) {
    match kind
    case AfterPaid(oid) => oid in sh.repo.orders && RetryWorks(sh, sh.repo.orders[oid])
    case OfferReverse(id) => id in sh.offer.redeem
    case _ => true
  }

  /** The order after a retry of its steps after payment. */
  predicate Retried(sh: Shared, b: Shared, oid: OrderId) {
    if oid in sh.repo.orders && sh.repo.orders[oid].status in {Paid, Compensating} then
      if CanServe(sh, sh.repo.orders[oid]) then Advances(sh, b, oid, sh.repo.orders[oid])
      else GaveUp(sh, b, oid, sh.repo.orders[oid])
    else b.repo.orders == sh.repo.orders && b.ledger == sh.ledger && b.offer == sh.offer && b.held == sh.held
  }

  /** Each kind of ticket does what it names and touches nothing else. */
  predicate Handled(sh: Shared, b: Shared, kind: TicketKind) {
    if kind.AfterPaid? then Retried(sh, b, kind.order)
    else
      && b.repo.orders == sh.repo.orders
      && (if kind.LedgerRelease? then PaidBackInto(sh.ledger, b.ledger, kind.freeze) else b.ledger == sh.ledger)
      && b.held == sh.held - (if kind.FulfilRelease? then {kind.order} else {})
      && b.offer
         == if kind.OfferRelease? then sh.offer.(resv := ReleasedIn(sh.offer.resv, Some(kind.rsv)))
            else if kind.OfferReverse? && kind.redemption in sh.offer.redeem then
              var rd := sh.offer.redeem[kind.redemption];
              sh.offer.(redeem := sh.offer.redeem[kind.redemption := F.Redemption(rd.discount, rd.discount)])
            else sh.offer
  }

  lemma EndTicket(sh: Shared, t: Tid, i: nat, ok: bool, n: nat)
    requires i < |sh.repo.tickets| && n >= 1
    ensures Alone(sh, t, TkEnd(i, ok), n)
            == (sh.(repo := sh.repo.(tickets :=
                  sh.repo.tickets[i := Ticket(sh.repo.tickets[i].kind, if ok then Done else Pending)])),
                Returned)
  {
    hide Exec, Alone, ReleaseReservation, ReleaseFreeze, Reverse, Handler;
    TicketIsExec(sh, t, TkEnd(i, ok));
    var b := sh.(repo := sh.repo.(tickets :=
                   sh.repo.tickets[i := Ticket(sh.repo.tickets[i].kind, if ok then Done else Pending)]));
    FirstStep(sh, t, TkEnd(i, ok), n, b, Returned);
    AloneEnds(b, t, n - 1);
  }

  /** The tickets that release or reverse something do it in one step. */
  lemma HandlerRuns(sh: Shared, t: Tid, i: nat, kind: TicketKind)
    requires !kind.AfterPaid? && KindOk(sh.repo.orders, kind)
    requires kind.OfferReverse? && kind.redemption in sh.offer.redeem ==>
               F.ReversedWithin(sh.offer.redeem[kind.redemption])
    ensures var (b, next) := Exec(sh, t, Handler(i, kind), Succeed);
            next == TkEnd(i, Works(sh, kind)) && Handled(sh, b, kind) && b.repo == sh.repo
  {
    hide Exec, F.Reversal;
    TicketIsExec(sh, t, Handler(i, kind));
    if kind.OfferReverse? && kind.redemption in sh.offer.redeem {
      F.ReversalWithin(sh.offer.redeem[kind.redemption], 0);
    }
  }

  lemma RetryHandled(sh: Shared, t: Tid, i: nat, oid: OrderId, n: nat) returns (b: Shared, left: nat)
    requires (oid in sh.repo.orders ==> Backed(sh, oid, sh.repo.orders[oid])) && n >= 6
    ensures Alone(sh, t, RetryRead(oid, Some(i)), n) == Alone(b, t, TkEnd(i, Works(sh, AfterPaid(oid))), left)
    ensures left + 6 >= n && Retried(sh, b, oid) && b.repo.tickets == sh.repo.tickets
  {
    hide Exec, Alone, Backed, CanServe, Advances, GaveUp;
    if oid in sh.repo.orders {
      b, left := RetryAlone(sh, t, oid, Some(i), n);
    } else {
      PayIsExec(sh, t, RetryRead(oid, Some(i)));
      b, left := sh, n - 1;
      FirstStep(sh, t, RetryRead(oid, Some(i)), n, sh, TkEnd(i, false));
    }
  }

  /** Handling any ticket: it is done if the handling works and pending again if it does not. */
  lemma HandlerAlone(sh: Shared, t: Tid, i: nat, n: nat) returns (b: Shared)
    requires i < |sh.repo.tickets| && n >= 7
    requires TicketBacked(sh, sh.repo.tickets[i].kind)
    ensures Alone(sh, t, Handler(i, sh.repo.tickets[i].kind), n) == (b, Returned)
    ensures var kind := sh.repo.tickets[i].kind;
            && Handled(sh, b, kind)
            && b.repo.tickets == sh.repo.tickets[i := Ticket(kind, if Works(sh, kind) then Done else Pending)]
  {
    hide Exec, Alone, Backed, CanServe, KindOk, Works, Advances, GaveUp, ReleasedIn, PaidBackInto;
    var kind := sh.repo.tickets[i].kind;
    if kind.AfterPaid? {
      var c, left := RetryHandled(sh, t, i, kind.order, n);
      EndTicket(c, t, i, Works(sh, kind), left);
      b := Alone(c, t, TkEnd(i, Works(sh, kind)), left).0;
      HandledAlike(sh, c, sh, b, kind);
    } else {
      HandlerRuns(sh, t, i, kind);
      var c := Exec(sh, t, Handler(i, kind), Succeed).0;
      FirstStep(sh, t, Handler(i, kind), n, c, TkEnd(i, Works(sh, kind)));
      EndTicket(c, t, i, Works(sh, kind), n - 1);
      b := Alone(c, t, TkEnd(i, Works(sh, kind)), n - 1).0;
      HandledAlike(sh, c, sh, b, kind);
    }
  }

  predicate TicketBacked(sh: Shared, kind: TicketKind) {
    && KindOk(sh.repo.orders, kind)
    && (kind.AfterPaid? && kind.order in sh.repo.orders ==> Backed(sh, kind.order, sh.repo.orders[kind.order]))
    && (kind.OfferReverse? && kind.redemption in sh.offer.redeem ==>
          F.ReversedWithin(sh.offer.redeem[kind.redemption]))
  }

  lemma TicketsBacked(sh: Shared, i: nat)
    requires SharedOk(sh) && i < |sh.repo.tickets|
    ensures TicketBacked(sh, sh.repo.tickets[i].kind)
  {
    hide SharedOk, KindOk, Backed;
    var kind := sh.repo.tickets[i].kind;
    TicketsKnown(sh, i);
    RedemptionsKnown(sh);
    if kind.AfterPaid? && kind.order in sh.repo.orders { OrdersBacked(sh, kind.order); }
  }

  lemma TicketsKnown(sh: Shared, i: nat)
    requires SharedOk(sh) && i < |sh.repo.tickets|
    ensures KindOk(sh.repo.orders, sh.repo.tickets[i].kind)
  {
    hide OrdersOk, IndexOk, LogOk, LedgerOk, OpeningOk, FreezeCallsOk, OfferOk, OfferCallsOk, CompensatingOk,
      AdvancesOk, PaymentsOk, KindOk, Resolved;
  }

  /** The worker takes a ticket that is pending or was left running, handles it and records how it went. */
  lemma TicketAlone(sh: Shared, t: Tid, i: nat)
    requires SharedOk(sh) && i < |sh.repo.tickets| && sh.repo.tickets[i].status in {Pending, Running}
    ensures var (b, pc) := Alone(sh, t, TkClaim(i), PATIENCE);
            var kind := sh.repo.tickets[i].kind;
            && pc == Returned && Handled(sh, b, kind)
            && b.repo.tickets == sh.repo.tickets[i := Ticket(kind, if Works(sh, kind) then Done else Pending)]
  {
    hide SharedOk, Exec, Alone, TicketBacked, Handled, Works, Handler;
    var c := SetTicket(sh, i, Running);
    ClaimRuns(sh, t, i);
    FirstStep(sh, t, TkClaim(i), PATIENCE, c, Handler(i, sh.repo.tickets[i].kind));
    TicketsBacked(sh, i);
    ClaimedAlike(sh, c, sh.repo.tickets[i].kind);
    var b := HandlerAlone(c, t, i, PATIENCE - 1);
    HandledAlike(c, b, sh, b, sh.repo.tickets[i].kind);
  }

  lemma ClaimRuns(sh: Shared, t: Tid, i: nat)
    requires i < |sh.repo.tickets|
    ensures sh.repo.tickets[i].status in {Pending, Running} ==>
              Exec(sh, t, TkClaim(i), Succeed) == (SetTicket(sh, i, Running), Handler(i, sh.repo.tickets[i].kind))
    ensures Exec(sh, t, TkFind(i), Succeed) == (sh, Handler(i, sh.repo.tickets[i].kind))
  {
    hide Exec, ReleaseReservation, ReleaseFreeze, Reverse, Handler, SetTicket;
    TicketIsExec(sh, t, TkClaim(i));
    TicketIsExec(sh, t, TkFind(i));
  }

  /** Nothing but the tickets differs. */
  predicate TicketsApart(sh: Shared, c: Shared) { c == sh.(repo := sh.repo.(tickets := c.repo.tickets)) }

  lemma ClaimedAlike(sh: Shared, c: Shared, kind: TicketKind)
    requires TicketsApart(sh, c)
    ensures TicketBacked(c, kind) == TicketBacked(sh, kind) && Works(c, kind) == Works(sh, kind)
  {
    hide KindOk;
  }

  lemma HandledAlike(sh: Shared, b: Shared, c: Shared, d: Shared, kind: TicketKind)
    requires TicketsApart(sh, c) && TicketsApart(b, d) && Handled(sh, b, kind)
    ensures Handled(c, d, kind)
  {
    hide Advances, GaveUp, CanServe, PaidBackInto, ReleasedIn;
    assert c.repo.orders == sh.repo.orders && c.ledger == sh.ledger && c.offer == sh.offer && c.held == sh.held;
    assert d.repo.orders == b.repo.orders && d.ledger == b.ledger && d.offer == b.offer && d.held == b.held;
    if kind.AfterPaid? && kind.order in sh.repo.orders {
      RetriedAlike(sh, b, c, d, kind.order, sh.repo.orders[kind.order]);
    } else if kind.OfferReverse? {
      assert Handled(c, d, kind);
    }
  }

  lemma RetriedAlike(sh: Shared, b: Shared, c: Shared, d: Shared, oid: OrderId, o: Order)
    requires TicketsApart(sh, c) && TicketsApart(b, d)
    ensures CanServe(c, o) == CanServe(sh, o)
    ensures Advances(c, d, oid, o) == Advances(sh, b, oid, o) && GaveUp(c, d, oid, o) == GaveUp(sh, b, oid, o)
  {
    hide CapturedIn, RedemptionOf, GivenBack, Unfrozen;
  }

  /** An operator's retry handles a ticket in any status. */
  lemma ManualAlone(sh: Shared, t: Tid, i: nat)
    requires SharedOk(sh) && i < |sh.repo.tickets|
    ensures var (b, pc) := Alone(sh, t, TkFind(i), PATIENCE);
            var kind := sh.repo.tickets[i].kind;
            && pc == Returned && Handled(sh, b, kind)
            && b.repo.tickets == sh.repo.tickets[i := Ticket(kind, if Works(sh, kind) then Done else Pending)]
  {
    hide SharedOk, Exec, Alone, TicketBacked, Handled, Works, Handler;
    ClaimRuns(sh, t, i);
    FirstStep(sh, t, TkFind(i), PATIENCE, sh, Handler(i, sh.repo.tickets[i].kind));
    TicketsBacked(sh, i);
    var b := HandlerAlone(sh, t, i, PATIENCE - 1);
  }

  // ---------------------------------------------------------------------------
  // Reconciliation
  // ---------------------------------------------------------------------------

  /** The tickets with an open one of this kind. */
  function Ticketed(sh: Shared, kind: TicketKind): seq<Ticket> {
    if HasOpenTicket(sh, kind) then sh.repo.tickets else sh.repo.tickets + [Ticket(kind, Pending)]
  }

  /**
   * An active reservation of an order that is no longer waiting for payment gets an open ticket, to be released
   * for an order that is over and to be redeemed otherwise; a missing redemption id is recorded; all else agrees.
   */
  predicate Reconciled(sh: Shared, b: Shared, oid: OrderId, o: Order) {
    if o.reservation.None? || o.reservation.value !in sh.offer.resv then b == sh
    else
      var id, status := o.reservation.value, sh.offer.resv[o.reservation.value].status;
      if status.Active? && o.status != PendingPay then
        var kind := if o.status in {Cancelled, Closed} then OfferRelease(id) else AfterPaid(oid);
        b == sh.(repo := sh.repo.(tickets := Ticketed(sh, kind)))
      else if status.Committed? && o.redemption.None? then
        b == sh.(repo := sh.repo.(orders := sh.repo.orders[oid := o.(redemption := Some(Rd(id)))]),
                 hist := sh.hist.(commits := b.hist.commits))
      else b == sh
  }

  lemma TicketOpened(sh: Shared, t: Tid, kind: TicketKind, n: nat)
    requires n >= 2
    ensures Alone(sh, t, RcOpen(kind), n) == (sh.(repo := sh.repo.(tickets := Ticketed(sh, kind))), Returned)
  {
    hide Exec, Alone, Commit, UpdateRedemption, HasOpenTicket;
    ReconIsExec(sh, t, RcOpen(kind));
    ReconIsExec(sh, t, RcInsert(kind));
    var b := sh.(repo := sh.repo.(tickets := Ticketed(sh, kind)));
    if HasOpenTicket(sh, kind) {
      FirstStep(sh, t, RcOpen(kind), n, sh, Returned);
      AloneEnds(sh, t, n - 1);
    } else {
      FirstStep(sh, t, RcOpen(kind), n, sh, RcInsert(kind));
      FirstStep(sh, t, RcInsert(kind), n - 1, b, Returned);
      AloneEnds(b, t, n - 2);
    }
  }

  lemma ReconReads(sh: Shared, t: Tid, oid: OrderId, o: Order)
    requires oid in sh.repo.orders && sh.repo.orders[oid] == o
    ensures Exec(sh, t, RcRead(oid), Succeed) == (sh, if o.reservation.Some? then RcLookup(oid, o) else Returned)
  {
    hide Exec, Commit, UpdateRedemption, HasOpenTicket;
    ReconIsExec(sh, t, RcRead(oid));
  }

  lemma ReconLooks(sh: Shared, t: Tid, oid: OrderId, o: Order)
    requires o.reservation.Some?
    ensures Exec(sh, t, RcLookup(oid, o), Succeed)
            == (sh,
                if o.reservation.value !in sh.offer.resv then Returned
                else
                  var id, status := o.reservation.value, sh.offer.resv[o.reservation.value].status;
                  if status.Active? && o.status != PendingPay then
                    RcOpen(if o.status in {Cancelled, Closed} then OfferRelease(id) else AfterPaid(oid))
                  else if status.Committed? && o.redemption.None? then RcCommit(oid, id)
                  else Returned)
  {
    hide Exec, Commit, UpdateRedemption, HasOpenTicket;
    ReconIsExec(sh, t, RcLookup(oid, o));
  }

  lemma ReconCommits(sh: Shared, t: Tid, oid: OrderId, o: Order, id: RsvId)
    requires oid in sh.repo.orders && sh.repo.orders[oid] == o
    requires id in sh.offer.resv && sh.offer.resv[id].status.Committed?
    requires sh.offer.resv[id].redemption == Some(Rd(id))
    ensures var b := Commit(sh, id).0;
            && Exec(sh, t, RcCommit(oid, id), Succeed) == (b, RcBackfill(oid, Rd(id)))
            && b == sh.(hist := sh.hist.(commits := b.hist.commits))
            && Exec(b, t, RcBackfill(oid, Rd(id)), Succeed)
               == (b.(repo := b.repo.(orders := b.repo.orders[oid := o.(redemption := Some(Rd(id)))])), Returned)
  {
    hide Exec, HasOpenTicket;
    ReconIsExec(sh, t, RcCommit(oid, id));
    ReconIsExec(Commit(sh, id).0, t, RcBackfill(oid, Rd(id)));
  }

  /**
   * A reconciliation left alone leaves no divergence of the order from its reservation without a repair or a
   * ticket.
   */
  lemma ReconAlone(sh: Shared, t: Tid, oid: OrderId)
    requires SharedOk(sh) && oid in sh.repo.orders
    ensures var (b, pc) := Alone(sh, t, RcRead(oid), PATIENCE);
            pc == Returned && Reconciled(sh, b, oid, sh.repo.orders[oid])
  {
    hide SharedOk, Exec, Alone, Ticketed, Commit;
    var o := sh.repo.orders[oid];
    ReconReads(sh, t, oid, o);
    if o.reservation.None? {
      FirstStep(sh, t, RcRead(oid), PATIENCE, sh, Returned);
      AloneEnds(sh, t, PATIENCE - 1);
    } else {
      var id := o.reservation.value;
      FirstStep(sh, t, RcRead(oid), PATIENCE, sh, RcLookup(oid, o));
      ReconLooks(sh, t, oid, o);
      var next := Exec(sh, t, RcLookup(oid, o), Succeed).1;
      FirstStep(sh, t, RcLookup(oid, o), PATIENCE - 1, sh, next);
      if next.RcOpen? {
        TicketOpened(sh, t, next.kind, PATIENCE - 2);
      } else if next.RcCommit? {
        CommittedIsRedeemed(sh, id);
        ReconCommits(sh, t, oid, o, id);
        var b := Commit(sh, id).0;
        FirstStep(sh, t, next, PATIENCE - 2, b, RcBackfill(oid, Rd(id)));
        var c := Exec(b, t, RcBackfill(oid, Rd(id)), Succeed).0;
        FirstStep(b, t, RcBackfill(oid, Rd(id)), PATIENCE - 3, c, Returned);
        AloneEnds(c, t, PATIENCE - 4);
      } else {
        AloneEnds(sh, t, PATIENCE - 2);
      }
    }
  }

  lemma CommittedIsRedeemed(sh: Shared, id: RsvId)
    requires SharedOk(sh) && id in sh.offer.resv && sh.offer.resv[id].status.Committed?
    ensures sh.offer.resv[id].redemption == Some(Rd(id))
  {
    hide OrdersOk, IndexOk, LogOk, LedgerOk, OpeningOk, FreezeCallsOk, OfferCallsOk, TicketsOk, CompensatingOk,
      AdvancesOk, PaymentsOk;
  }

  /** So a divergent order ends with an open ticket. */
  lemma DivergentIsTicketed(sh: Shared, t: Tid, oid: OrderId)
    requires SharedOk(sh) && oid in sh.repo.orders && sh.repo.orders[oid].status != PendingPay
    requires ReservationActive(sh, sh.repo.orders[oid].reservation)
    ensures var b, o := Alone(sh, t, RcRead(oid), PATIENCE).0, sh.repo.orders[oid];
            HasOpenTicket(b, if o.status in {Cancelled, Closed} then OfferRelease(o.reservation.value)
                             else AfterPaid(oid))
  {
    hide SharedOk, Exec, Alone, HasOpenTicket;
    var o := sh.repo.orders[oid];
    ReconAlone(sh, t, oid);
    TicketedIsOpen(sh, if o.status in {Cancelled, Closed} then OfferRelease(o.reservation.value) else AfterPaid(oid));
  }

  lemma TicketedIsOpen(sh: Shared, kind: TicketKind)
    ensures HasOpenTicket(sh.(repo := sh.repo.(tickets := Ticketed(sh, kind))), kind)
  {
    if !HasOpenTicket(sh, kind) {
      assert Ticketed(sh, kind)[|sh.repo.tickets|] == Ticket(kind, Pending);
    }
  }

  // ---------------------------------------------------------------------------
  // Checkout
  // ---------------------------------------------------------------------------

  lemma {:induction false} AcceptedEnds(sh: Shared, t: Tid, pc: Pc, n: nat)
    requires pc.Accepted?
    ensures Alone(sh, t, pc, n) == (sh, pc)
    decreases n
  {
    hide CheckoutStep, PayStep, AfterPaidStep, CancelStep, RefundStep, CloseStep, TicketStep, ReconStep;
    if n > 0 { AcceptedEnds(sh, t, pc, n - 1); }
  }

  predicate WantsOffer(req: CheckoutReq) { OfferWanted(req.scene.offer, req.hasQuote, req.coupons) }

  predicate WantsFreeze(req: CheckoutReq) { req.scene.ledger != LedgerNone && req.amounts.ledgerPay > 0 }

  function BuyerAccount(req: CheckoutReq): L.Account { L.Account(req.tenant, req.user, req.asset) }

  /** The buyer's account, opened if need be, covers what the ledger is to pay. */
  predicate Affords(sh: Shared, req: CheckoutReq) {
    req.amounts.ledgerPay <= L.Touch(sh.ledger, BuyerAccount(req)).balance[BuyerAccount(req)]
  }

  /** The ledger part is frozen out of the buyer's balance, if there is one to freeze. */
  predicate Frozen(a: L.Ledger, b: L.Ledger, req: CheckoutReq) {
    var k, pay := BuyerAccount(req), req.amounts.ledgerPay;
    if WantsFreeze(req) then
      && b.freezes == a.freezes + [L.Hold(k, pay, L.Open)]
      && b.balance == L.Touch(a, k).balance[k := L.Touch(a, k).balance[k] - pay]
    else b == a
  }

  function RsvOf(req: CheckoutReq, oid: OrderId): Option<RsvId> { if WantsOffer(req) then Some(Rsv(oid)) else None }

  /** A first request: neither its key nor its client id is taken. */
  predicate Unheard(sh: Shared, req: CheckoutReq) {
    IdemKeyOf(req) !in sh.repo.idem && ClientKey(req.tenant, req.user, req.clientId) !in sh.repo.client
  }

  lemma LookupsPass(sh: Shared, t: Tid, req: CheckoutReq, n: nat)
    requires Unheard(sh, req) && n >= 4
    ensures Alone(sh, t, ChFind(req), n) == Alone(Mint(sh, t), t, ChReserve(req, |sh.hist.minter|), n - 4)
  {
    hide Exec, Alone, Mint, Reserve, FreezeFor, InsertCheckout, ReleaseFreeze, ReleaseReservation, NeedsOffer,
      NeedsLedger;
    CheckoutIsExec(sh, t, ChFind(req));
    FirstStep(sh, t, ChFind(req), n, sh, ChClient(req));
    CheckoutIsExec(sh, t, ChClient(req));
    FirstStep(sh, t, ChClient(req), n - 1, sh, ChFindAgain(req));
    CheckoutIsExec(sh, t, ChFindAgain(req));
    FirstStep(sh, t, ChFindAgain(req), n - 2, sh, ChMint(req));
    CheckoutIsExec(sh, t, ChMint(req));
    FirstStep(sh, t, ChMint(req), n - 3, Mint(sh, t), ChReserve(req, |sh.hist.minter|));
  }

  lemma CheckoutReserves(sh: Shared, t: Tid, req: CheckoutReq, oid: OrderId)
    ensures Exec(sh, t, ChReserve(req, oid), Succeed)
            == (if WantsOffer(req) then Reserve(sh, oid, req.amounts.discount) else sh,
                ChFreeze(req, oid, Acquired(RsvOf(req, oid), None, false)))
  {
    hide Exec, Mint, Reserve, FreezeFor, InsertCheckout, ReleaseFreeze, ReleaseReservation;
    CheckoutIsExec(sh, t, ChReserve(req, oid));
  }

  lemma CheckoutFreezes(sh: Shared, t: Tid, req: CheckoutReq, oid: OrderId, got: Acquired)
    requires got.freeze.None?
    ensures if !WantsFreeze(req) || Affords(sh, req) then
              var (b, next) := Exec(sh, t, ChFreeze(req, oid, got), Succeed);
              && next == ChHold(req, oid, got.(freeze := if WantsFreeze(req) then Some(|sh.ledger.freezes|) else None))
              && Frozen(sh.ledger, b.ledger, req) && b == sh.(ledger := b.ledger, hist := b.hist)
            else
              Exec(sh, t, ChFreeze(req, oid, got), Succeed)
              == (sh.(ledger := L.Touch(sh.ledger, BuyerAccount(req))), ChUndoHold(req, oid, got, false))
  {
    hide Exec, Mint, Reserve, InsertCheckout, ReleaseFreeze, ReleaseReservation, Hold, Unhold;
    CheckoutIsExec(sh, t, ChFreeze(req, oid, got));
  }

  lemma CheckoutHolds(sh: Shared, t: Tid, req: CheckoutReq, oid: OrderId, got: Acquired)
    requires !got.inventory
    ensures Exec(sh, t, ChHold(req, oid, got), Succeed)
            == (if req.scene.reserveInventory then Hold(sh, oid) else sh,
                ChInsert(req, oid, got.(inventory := req.scene.reserveInventory)))
  {
    hide Exec, Mint, Reserve, FreezeFor, InsertCheckout, ReleaseFreeze, ReleaseReservation, NeedsOffer, NeedsLedger;
    CheckoutIsExec(sh, t, ChHold(req, oid, got));
  }

  lemma CheckoutInserts(sh: Shared, t: Tid, req: CheckoutReq, oid: OrderId, got: Acquired)
    requires Unheard(sh, req)
    ensures var (b, next) := Exec(sh, t, ChInsert(req, oid, got), Succeed);
            && next == Accepted(IdemKeyOf(req), oid, req.hash, false)
            && b.repo == Repo(sh.repo.orders[oid := NewOrder(req, got.rsv, got.freeze)],
                              sh.repo.idem[IdemKeyOf(req) := IdemRecord(req.hash, oid)],
                              sh.repo.client[ClientKey(req.tenant, req.user, req.clientId) := oid],
                              sh.repo.tickets, sh.repo.log + [Event(oid, EvCreated)])
            && b.ledger == sh.ledger && b.offer == sh.offer && b.held == sh.held
  {
    hide Exec, Mint, Reserve, FreezeFor, ReleaseFreeze, ReleaseReservation, NeedsOffer, NeedsLedger, Hold, Unhold;
    CheckoutIsExec(sh, t, ChInsert(req, oid, got));
  }

  /** Everything acquired is given back: the goods, the freeze, the reservation. */
  predicate GaveBack(sh: Shared, b: Shared, oid: OrderId, got: Acquired) {
    && b.held == sh.held - (if got.inventory then {oid} else {})
    && PaidBackInto(sh.ledger, b.ledger, got.freeze)
    && b.offer == sh.offer.(resv := ReleasedIn(sh.offer.resv, got.rsv))
    && b.repo == sh.repo
  }

  /** A checkout that lost the race for its key is answered with the winner's order. */
  function AnsweredBy(sh: Shared, req: CheckoutReq, again: bool): Pc {
    if again && IdemKeyOf(req) in sh.repo.idem
    then Accepted(IdemKeyOf(req), sh.repo.idem[IdemKeyOf(req)].order, req.hash, true) else Returned
  }

  lemma CheckoutUndoes(sh: Shared, t: Tid, req: CheckoutReq, oid: OrderId, got: Acquired, again: bool, n: nat)
    returns (b: Shared)
    requires n >= 4
    ensures Alone(sh, t, ChUndoHold(req, oid, got, again), n) == (b, AnsweredBy(sh, req, again))
    ensures GaveBack(sh, b, oid, got)
  {
    hide Exec, Alone, PaidBackInto, ReleaseFreeze, ReleaseReservation, ReleasedIn;
    UndoSteps(sh, t, req, oid, got, again);
    var c := Exec(sh, t, ChUndoHold(req, oid, got, again), Succeed).0;
    FirstStep(sh, t, ChUndoHold(req, oid, got, again), n, c, ChUndoFreeze(req, oid, got, again));
    UndoFreeze(c, t, req, oid, got, again);
    FreezeReleased(c, got.freeze);
    var d := Exec(c, t, ChUndoFreeze(req, oid, got, again), Succeed).0;
    FirstStep(c, t, ChUndoFreeze(req, oid, got, again), n - 1, d, ChUndoOffer(req, oid, got, again));
    UndoSteps(d, t, req, oid, got, again);
    ReservationReleased(d, got.rsv);
    b := Exec(d, t, ChUndoOffer(req, oid, got, again), Succeed).0;
    var next := if again then ChRefind(req) else Returned;
    FirstStep(d, t, ChUndoOffer(req, oid, got, again), n - 2, b, next);
    if again {
      UndoSteps(b, t, req, oid, got, again);
      FirstStep(b, t, next, n - 3, b, AnsweredBy(sh, req, true));
      if AnsweredBy(sh, req, true).Accepted? { AcceptedEnds(b, t, AnsweredBy(sh, req, true), n - 4); }
      else { AloneEnds(b, t, n - 4); }
    } else {
      AloneEnds(b, t, n - 3);
    }
  }

  lemma UndoSteps(sh: Shared, t: Tid, req: CheckoutReq, oid: OrderId, got: Acquired, again: bool)
    ensures Exec(sh, t, ChUndoHold(req, oid, got, again), Succeed)
            == (sh.(held := sh.held - (if got.inventory then {oid} else {})), ChUndoFreeze(req, oid, got, again))
    ensures Exec(sh, t, ChUndoOffer(req, oid, got, again), Succeed)
            == (if got.rsv.Some? then ReleaseReservation(sh, got.rsv.value) else sh,
                if again then ChRefind(req) else Returned)
    ensures Exec(sh, t, ChRefind(req), Succeed) == (sh, AnsweredBy(sh, req, true))
  {
    hide Exec, Mint, Reserve, FreezeFor, InsertCheckout, NeedsOffer, NeedsLedger, Hold, ReleaseFreeze,
      ReleaseReservation;
    assert sh.held - {} == sh.held;
    CheckoutIsExec(sh, t, ChUndoHold(req, oid, got, again));
    CheckoutIsExec(sh, t, ChUndoOffer(req, oid, got, again));
    CheckoutIsExec(sh, t, ChRefind(req));
  }

  lemma UndoFreeze(sh: Shared, t: Tid, req: CheckoutReq, oid: OrderId, got: Acquired, again: bool)
    ensures var (b, next) := Exec(sh, t, ChUndoFreeze(req, oid, got, again), Succeed);
            && next == ChUndoOffer(req, oid, got, again)
            && b == if got.freeze.Some? then ReleaseFreeze(sh, got.freeze) else sh
  {
    hide Exec, Mint, Reserve, FreezeFor, InsertCheckout, NeedsOffer, NeedsLedger, Hold, ReleaseFreeze,
      ReleaseReservation;
    CheckoutIsExec(sh, t, ChUndoFreeze(req, oid, got, again));
  }

  lemma FreezeReleased(sh: Shared, f: Option<FreezeId>)
    ensures var b := if f.Some? then ReleaseFreeze(sh, f) else sh;
            PaidBackInto(sh.ledger, b.ledger, f) && b == sh.(ledger := b.ledger, hist := b.hist)
  {
  }

  lemma ReservationReleased(sh: Shared, r: Option<RsvId>)
    ensures var b := if r.Some? then ReleaseReservation(sh, r.value) else sh;
            b == sh.(offer := sh.offer.(resv := ReleasedIn(sh.offer.resv, r)), hist := b.hist)
  {
  }

  /** The order stored with what was acquired for it, and that acquired. */
  predicate CheckedOut(sh: Shared, b: Shared, oid: OrderId, req: CheckoutReq) {
    var fz := if WantsFreeze(req) then Some(|sh.ledger.freezes|) else None;
    && b.repo == Repo(sh.repo.orders[oid := Order(
                        req.tenant, req.user, req.clientId, req.scene, req.asset, PendingPay, 1, req.amounts,
                        req.lines, RsvOf(req, oid), None, fz)],
                      sh.repo.idem[IdemKeyOf(req) := IdemRecord(req.hash, oid)],
                      sh.repo.client[ClientKey(req.tenant, req.user, req.clientId) := oid],
                      sh.repo.tickets, sh.repo.log + [Event(oid, EvCreated)])
    && b.offer == (if WantsOffer(req) then
                     sh.offer.(resv := sh.offer.resv[Rsv(oid) := F.Reservation(req.amounts.discount, F.Active, None)])
                   else sh.offer)
    && Frozen(sh.ledger, b.ledger, req)
    && b.held == sh.held + (if req.scene.reserveInventory then {oid} else {})
  }

  /**
   * Nothing is left of a refused checkout but a released reservation under an id nobody uses, and an opened
   * account.
   */
  predicate TurnedDown(sh: Shared, b: Shared, oid: OrderId, req: CheckoutReq) {
    && b.repo == sh.repo && b.held == sh.held && b.ledger == L.Touch(sh.ledger, BuyerAccount(req))
    && b.offer == (if WantsOffer(req) then
                     sh.offer.(resv := sh.offer.resv[Rsv(oid) := F.Reservation(req.amounts.discount, F.Released, None)])
                   else sh.offer)
  }

  /**
   * A first checkout left alone is accepted if and only if the buyer can pay what the ledger is to pay:
   * the order is stored with its reservation, freeze and inventory, or everything is given back.
   */
  lemma CheckoutAlone(sh: Shared, t: Tid, req: CheckoutReq)
    requires Unheard(sh, req)
    ensures var (b, pc) := Alone(sh, t, ChFind(req), PATIENCE);
            var oid := |sh.hist.minter|;
            if !WantsFreeze(req) || Affords(sh, req)
            then pc == Accepted(IdemKeyOf(req), oid, req.hash, false) && CheckedOut(sh, b, oid, req)
            else pc == Returned && TurnedDown(sh, b, oid, req)
  {
    hide Exec, Alone, WantsOffer, WantsFreeze, Affords, Frozen;
    var oid := |sh.hist.minter|;
    LookupsPass(sh, t, req, PATIENCE);
    var c := Mint(sh, t);
    CheckoutReserves(c, t, req, oid);
    var got := Acquired(RsvOf(req, oid), None, false);
    var d := if WantsOffer(req) then Reserve(c, oid, req.amounts.discount) else c;
    FirstStep(c, t, ChReserve(req, oid), PATIENCE - 4, d, ChFreeze(req, oid, got));
    CheckoutFreezes(d, t, req, oid, got);
    AffordsAlike(sh, d, req);
    var (e, next) := Exec(d, t, ChFreeze(req, oid, got), Succeed);
    FirstStep(d, t, ChFreeze(req, oid, got), PATIENCE - 5, e, next);
    if !WantsFreeze(req) || Affords(sh, req) {
      var b := CheckoutStores(e, t, req, oid, next.got, PATIENCE - 6);
    } else {
      var b := CheckoutUndoes(e, t, req, oid, got, false, PATIENCE - 6);
      ReservedInVain(sh.offer.resv, oid, req.amounts.discount);
    }
  }

  lemma ReservedInVain(resv: map<RsvId, F.Reservation>, oid: OrderId, discount: I64)
    ensures resv[Rsv(oid) := F.Reservation(discount, F.Active, None)][Rsv(oid) :=
              F.Reservation(discount, F.Released, None)]
            == resv[Rsv(oid) := F.Reservation(discount, F.Released, None)]
  {
  }

  lemma AffordsAlike(sh: Shared, d: Shared, req: CheckoutReq)
    requires d.ledger == sh.ledger
    ensures Affords(d, req) == Affords(sh, req)
  {
  }

  lemma CheckoutStores(sh: Shared, t: Tid, req: CheckoutReq, oid: OrderId, got: Acquired, n: nat) returns (b: Shared)
    requires Unheard(sh, req) && !got.inventory && n >= 2
    ensures Alone(sh, t, ChHold(req, oid, got), n) == (b, Accepted(IdemKeyOf(req), oid, req.hash, false))
    ensures b.repo == Repo(sh.repo.orders[oid := NewOrder(req, got.rsv, got.freeze)],
                           sh.repo.idem[IdemKeyOf(req) := IdemRecord(req.hash, oid)],
                           sh.repo.client[ClientKey(req.tenant, req.user, req.clientId) := oid],
                           sh.repo.tickets, sh.repo.log + [Event(oid, EvCreated)])
    ensures b.ledger == sh.ledger && b.offer == sh.offer
    ensures b.held == sh.held + (if req.scene.reserveInventory then {oid} else {})
  {
    hide Exec, Alone, NewOrder;
    CheckoutHolds(sh, t, req, oid, got);
    var c := if req.scene.reserveInventory then Hold(sh, oid) else sh;
    var got' := got.(inventory := req.scene.reserveInventory);
    FirstStep(sh, t, ChHold(req, oid, got), n, c, ChInsert(req, oid, got'));
    CheckoutInserts(c, t, req, oid, got');
    b := Exec(c, t, ChInsert(req, oid, got'), Succeed).0;
    var accepted := Accepted(IdemKeyOf(req), oid, req.hash, false);
    FirstStep(c, t, ChInsert(req, oid, got'), n - 1, b, accepted);
    AcceptedEnds(b, t, accepted, n - 2);
  }

  /** A repeated request is answered from the record of its key, another request under a taken key is refused. */
  lemma RepeatAlone(sh: Shared, t: Tid, req: CheckoutReq)
    requires !Unheard(sh, req)
    ensures Alone(sh, t, ChFind(req), PATIENCE)
            == (sh,
                if IdemKeyOf(req) in sh.repo.idem && sh.repo.idem[IdemKeyOf(req)].hash == req.hash
                then Accepted(IdemKeyOf(req), sh.repo.idem[IdemKeyOf(req)].order, req.hash, false)
                else Returned)
  {
    hide Exec, Alone, Mint, Reserve, FreezeFor, InsertCheckout, ReleaseFreeze, ReleaseReservation, NeedsOffer,
      NeedsLedger;
    CheckoutIsExec(sh, t, ChFind(req));
    var next := Exec(sh, t, ChFind(req), Succeed).1;
    FirstStep(sh, t, ChFind(req), PATIENCE, sh, next);
    AloneEnds(sh, t, PATIENCE - 1);
    if next.Accepted? { AcceptedEnds(sh, t, next, PATIENCE - 1); }
    if next.ChClient? {
      CheckoutIsExec(sh, t, ChClient(req));
      FirstStep(sh, t, ChClient(req), PATIENCE - 1, sh, Returned);
      AloneEnds(sh, t, PATIENCE - 2);
    }
  }

  /** A preview's balance query opens the account and changes nothing else. */
  lemma BalanceAlone(sh: Shared, t: Tid, k: L.Account)
    ensures Alone(sh, t, PvBalance(k), PATIENCE) == (sh.(ledger := L.Touch(sh.ledger, k)), Returned)
  {
    hide Exec, Alone, Mint, Reserve, FreezeFor, InsertCheckout, ReleaseFreeze, ReleaseReservation, NeedsOffer,
      NeedsLedger;
    CheckoutIsExec(sh, t, PvBalance(k));
    var b := sh.(ledger := L.Touch(sh.ledger, k));
    FirstStep(sh, t, PvBalance(k), PATIENCE, b, Returned);
    AloneEnds(b, t, PATIENCE - 1);
  }
}

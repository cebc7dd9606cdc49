/** Storing a new order and every compare-and-swap keep the shared invariant and the guarantee to other calls. */
module SagaStore {
  import opened Base
  import opened Int64
  import opened Amounts
  import opened Orders
  import opened RefundRuns
  import opened SagaState
  import opened SagaProgram
  import opened SagaInvariant
  import opened SagaCalls
  import L = Ledger
  import F = Offer

  // ---------------------------------------------------------------------------
  // The event log
  // ---------------------------------------------------------------------------

  lemma {:induction false} NoEvents(log: seq<Event>, oid: OrderId)
    requires forall i :: 0 <= i < |log| ==> log[i].order != oid
    ensures EventsFor(log, oid) == []
  {
    if log != [] { NoEvents(log[..|log| - 1], oid); }
  }

  lemma EventsAppend(log: seq<Event>, e: Event, oid: OrderId)
    ensures EventsFor(log + [e], oid) == EventsFor(log, oid) + (if e.order == oid then [e.kind] else [])
  {
    assert (log + [e])[..|log|] == log;
  }

  lemma TraceAppend(path: seq<Status>, s: Status)
    ensures Trace(path + [s]) == Trace(path) + EventsOf(s)
  {
    assert (path + [s])[..|path|] == path;
  }

  /** Entering a status and writing its event keep log and path in step. */
  lemma LogExtend(orders: OrderMap, log: seq<Event>, path: map<OrderId, seq<Status>>, oid: OrderId, o: Order,
                  event: Option<EventKind>)
    requires LogOk(orders, log, path)
    requires EventsOf(o.status) == if event.Some? then [event.value] else []
    ensures LogOk(orders[oid := o], log + Rows(oid, event), path[oid := PathOf(path, oid) + [o.status]])
  {
    var log', path' := log + Rows(oid, event), path[oid := PathOf(path, oid) + [o.status]];
    forall id | id in path' ensures EventsFor(log', id) == Trace(path'[id])
    {
      if event.Some? {
        EventsAppend(log, Event(oid, event.value), id);
      } else {
        assert log' == log;
      }
      if id == oid {
        if oid !in path { NoEvents(log, oid); }
        TraceAppend(PathOf(path, oid), o.status);
      }
    }
    assert orders[oid := o].Keys == path'.Keys;
  }

  // ---------------------------------------------------------------------------
  // Rules that survive any evolution of orders
  // ---------------------------------------------------------------------------

  lemma KindStable(a: OrderMap, b: OrderMap, kind: TicketKind)
    requires OrdersEvolve(a, b) && KindOk(a, kind)
    ensures KindOk(b, kind)
  {
  }

  lemma ResolvedStable(a: OrderMap, b: OrderMap, fa: seq<L.Hold>, fb: seq<L.Hold>, oa: F.Offer, ob: F.Offer,
                       ha: set<OrderId>, hb: set<OrderId>, kind: TicketKind)
    requires OrdersEvolve(a, b) && FreezesGrow(fa, fb) && OfferGrows(oa, ob) && HeldShrinks(a, ha, hb)
    requires Resolved(a, fa, oa, ha, kind)
    ensures Resolved(b, fb, ob, hb, kind)
  {
  }

  lemma TicketsStable(tickets: seq<Ticket>, a: OrderMap, b: OrderMap, freezes: seq<L.Hold>, offer: F.Offer,
                      held: set<OrderId>)
    requires TicketsOk(tickets, a, freezes, offer, held) && OrdersEvolve(a, b)
    ensures TicketsOk(tickets, b, freezes, offer, held)
  {
    forall i | 0 <= i < |tickets|
      ensures KindOk(b, tickets[i].kind)
      ensures tickets[i].status == Done ==> Resolved(b, freezes, offer, held, tickets[i].kind)
    {
      KindStable(a, b, tickets[i].kind);
      if tickets[i].status == Done {
        ResolvedStable(a, b, freezes, freezes, offer, offer, held, held, tickets[i].kind);
      }
    }
  }

  lemma OpeningStable(opening: map<L.Account, int>, a: OrderMap, b: OrderMap)
    requires OpeningOk(opening, a) && OrdersEvolve(a, b)
    ensures OpeningOk(opening, b)
  {
    hide PastPayment, Compatible, Stuck;
    forall k | k in opening && opening[k] != L.DEFAULT_BALANCE ensures LooselyCredited(b, k) {
      assert LooselyCredited(a, k);
      var oid :| oid in a && LooseOn(a[oid], k);
      assert Evolves(a[oid], b[oid]) && LooseOn(b[oid], k);
    }
  }

  // ---------------------------------------------------------------------------
  // A new order
  // ---------------------------------------------------------------------------

  /** What a checkout has in hand when it stores its order. */
  ghost predicate ReadyToInsert(sh: Shared, t: Tid, oid: OrderId, req: CheckoutReq, rsv: Option<RsvId>,
                                fz: Option<FreezeId>)
  {
    && ReqOk(req) && Owned(sh, t, oid) && Intact(sh, oid) && Offered(req.scene, rsv)
    && HoldsReservation(sh.offer, oid, rsv, req.amounts.discount)
    && HoldsFreeze(sh.hist.frozenFor, sh.ledger.freezes, oid, NewOrder(req, rsv, fz))
  }

  lemma InsertCheckoutOk(sh: Shared, t: Tid, oid: OrderId, req: CheckoutReq, rsv: Option<RsvId>, fz: Option<FreezeId>)
    requires SharedOk(sh) && ReadyToInsert(sh, t, oid, req, rsv, fz)
    ensures var (b, r) := InsertCheckout(sh, oid, req, rsv, fz);
            && SharedOk(b) && Guarantee(sh, b, t)
            && (r.Ok? ==> Answered(b.repo.idem, IdemKeyOf(req), oid, req.hash, false))
            && (r.Err? ==> b == sh)
            && (r == Err(IdempotencyConflict) ==> LostRace(sh.repo.idem, req))
  {
    hide OrdersOk, IndexOk, LogOk, LedgerOk, OpeningOk, FreezeCallsOk, OfferOk, OfferCallsOk, TicketsOk, CompensatingOk,
      AdvancesOk, PaymentsOk;
    hide OrdersEvolve, RefundUndisturbed, MintUndisturbed, ReleasesJustified, FreezesGrow, OfferGrows, TicketsGrow,
      RecordsGrow, HeldShrinks;
    hide ReadyToInsert;
    Stays(sh, t);
    var o := NewOrder(req, rsv, fz);
    if ClientKeyOf(o) !in sh.repo.client && IdemKeyOf(req) !in sh.repo.idem {
      var b := InsertCheckout(sh, oid, req, rsv, fz).0;
      InsertFresh(sh, t, oid, req, rsv, fz);
      InsertPayments(sh, oid, req, o);
      InsertOrders(sh, t, oid, req, rsv, fz);
      InsertIndex(sh, t, oid, req, rsv, fz);
      InsertLog(sh, t, oid, req, rsv, fz);
      InsertRules(sh, t, oid, req, rsv, fz);
      InsertAdvances(sh, oid, o);
      OpeningStable(sh.ledger.opening, sh.repo.orders, b.repo.orders);
      TicketsStable(sh.repo.tickets, sh.repo.orders, b.repo.orders, sh.ledger.freezes, sh.offer, sh.held);
    } else {
      InsertRefused(sh, t, oid, req, rsv, fz);
    }
  }

  /** A key conflict at insert is with another request. */
  lemma InsertRefused(sh: Shared, t: Tid, oid: OrderId, req: CheckoutReq, rsv: Option<RsvId>, fz: Option<FreezeId>)
    requires IndexOk(sh.repo.orders, sh.repo.client, sh.repo.idem, sh.hist.idemOf)
    requires ReadyToInsert(sh, t, oid, req, rsv, fz)
    ensures InsertCheckout(sh, oid, req, rsv, fz).1 == Err(IdempotencyConflict) ==> LostRace(sh.repo.idem, req)
  {
    hide KeysIndexed, Owned, Intact, HoldsReservation, HoldsFreeze;
    if InsertCheckout(sh, oid, req, rsv, fz).1 == Err(IdempotencyConflict) { ConflictIsForeign(sh, oid, req, rsv, fz); }
  }

  predicate InsertAccepted(sh: Shared, req: CheckoutReq, o: Order) {
    ClientKeyOf(o) !in sh.repo.client && IdemKeyOf(req) !in sh.repo.idem
  }

  lemma InsertOrders(sh: Shared, t: Tid, oid: OrderId, req: CheckoutReq, rsv: Option<RsvId>, fz: Option<FreezeId>)
    requires OrdersOk(sh.repo.orders, sh.hist, sh.ledger, sh.offer)
    requires ReadyToInsert(sh, t, oid, req, rsv, fz) && InsertAccepted(sh, req, NewOrder(req, rsv, fz))
    requires CreditedTo(sh.hist.trail.payments, oid) == 0
    ensures var b := InsertCheckout(sh, oid, req, rsv, fz).0;
            && OrdersOk(b.repo.orders, b.hist, b.ledger, b.offer)
            && OrdersEvolve(sh.repo.orders, b.repo.orders)
  {
    var b := InsertCheckout(sh, oid, req, rsv, fz).0;
    InsertedOrder(sh, t, oid, req, rsv, fz);
    InsertFresh(sh, t, oid, req, rsv, fz);
    OneMore(sh.repo.orders, oid, NewOrder(req, rsv, fz));
    hide ReadyToInsert, FieldsOk, PathFits, HoldsFreeze, HoldsReservation, HoldsRedemption, CreditsWithin, OrdersEvolve;
    forall id | id in sh.repo.orders ensures OrderOk(b.hist, b.ledger, b.offer, id, b.repo.orders[id])
    {
      assert OrderOk(sh.hist, sh.ledger, sh.offer, id, sh.repo.orders[id]);
      PathOther(sh.hist.path, oid, [PendingPay], id, sh.repo.orders[id]);
    }
  }

  lemma OneMore(a: OrderMap, oid: OrderId, o: Order)
    requires oid !in a
    ensures OrdersEvolve(a, a[oid := o])
  {
  }

  lemma InsertedOrder(sh: Shared, t: Tid, oid: OrderId, req: CheckoutReq, rsv: Option<RsvId>, fz: Option<FreezeId>)
    requires OrdersOk(sh.repo.orders, sh.hist, sh.ledger, sh.offer)
    requires ReadyToInsert(sh, t, oid, req, rsv, fz) && InsertAccepted(sh, req, NewOrder(req, rsv, fz))
    requires CreditedTo(sh.hist.trail.payments, oid) == 0
    ensures var b := InsertCheckout(sh, oid, req, rsv, fz).0;
            OrderOk(b.hist, b.ledger, b.offer, oid, NewOrder(req, rsv, fz))
  {
    NewOrderFields(NewOrder(req, rsv, fz), req, rsv, fz);
    assert LegalPath([PendingPay]);
    hide OrderOk, FieldsOk, HoldsFreeze, HoldsReservation, CreditsWithin, LegalPath, ReqOk, Intact;
    var b, o := InsertCheckout(sh, oid, req, rsv, fz).0, NewOrder(req, rsv, fz);
    assert PathFits(b.hist.path, oid, o.version, o.status);
    OrderOkFrom(b.hist, b.ledger, b.offer, oid, o);
  }

  lemma OrderOkFrom(h: History, ledger: L.Ledger, offer: F.Offer, oid: OrderId, o: Order)
    requires oid < |h.minter| && FieldsOk(o) && PathFits(h.path, oid, o.version, o.status) && o.status != Refunding
    requires HoldsFreeze(h.frozenFor, ledger.freezes, oid, o)
    requires HoldsReservation(offer, oid, o.reservation, o.amounts.discount)
    requires HoldsRedemption(offer, oid, o) && CreditsWithin(CreditedTo(h.trail.payments, oid), o)
    ensures OrderOk(h, ledger, offer, oid, o)
  {
  }

  lemma NewOrderFields(o: Order, req: CheckoutReq, rsv: Option<RsvId>, fz: Option<FreezeId>)
    requires o == NewOrder(req, rsv, fz) && ReqOk(req) && Offered(req.scene, rsv)
    ensures FieldsOk(o) && CreditsWithin(0, o)
  {
  }

  lemma InsertIndex(sh: Shared, t: Tid, oid: OrderId, req: CheckoutReq, rsv: Option<RsvId>, fz: Option<FreezeId>)
    requires IndexOk(sh.repo.orders, sh.repo.client, sh.repo.idem, sh.hist.idemOf)
    requires oid !in sh.repo.orders && InsertAccepted(sh, req, NewOrder(req, rsv, fz))
    requires req.hash.clientOrder == Some(req.clientId)
    ensures var b := InsertCheckout(sh, oid, req, rsv, fz).0;
            && IndexOk(b.repo.orders, b.repo.client, b.repo.idem, b.hist.idemOf)
            && RecordsGrow(sh.repo.idem, b.repo.idem)
  {
    hide NewOrder, ClientsIndexed, KeysIndexed, RecordsFit, ClientKeyOf, IdemKeyOf;
    NewOrderTerms(req, rsv, fz);
    InsertClients(sh.repo.orders, sh.repo.client, oid, NewOrder(req, rsv, fz));
    InsertKeys(sh, oid, req, NewOrder(req, rsv, fz));
    InsertRecords(sh.repo.orders, sh.repo.idem, oid, req, NewOrder(req, rsv, fz));
  }

  lemma NewOrderTerms(req: CheckoutReq, rsv: Option<RsvId>, fz: Option<FreezeId>)
    ensures var o := NewOrder(req, rsv, fz); o.tenant == req.tenant && o.buyer == req.user && o.clientId == req.clientId
  {
  }

  lemma InsertKeys(sh: Shared, oid: OrderId, req: CheckoutReq, o: Order)
    requires KeysIndexed(sh.repo.orders, sh.repo.idem, sh.hist.idemOf) && oid !in sh.repo.orders
    requires IdemKeyOf(req) !in sh.repo.idem
    ensures KeysIndexed(sh.repo.orders[oid := o], sh.repo.idem[IdemKeyOf(req) := IdemRecord(req.hash, oid)],
              sh.hist.idemOf[oid := IdemKeyOf(req)])
  {
    hide IdemKeyOf;
  }

  lemma InsertLog(sh: Shared, t: Tid, oid: OrderId, req: CheckoutReq, rsv: Option<RsvId>, fz: Option<FreezeId>)
    requires LogOk(sh.repo.orders, sh.repo.log, sh.hist.path)
    requires oid !in sh.repo.orders && InsertAccepted(sh, req, NewOrder(req, rsv, fz))
    ensures var b := InsertCheckout(sh, oid, req, rsv, fz).0; LogOk(b.repo.orders, b.repo.log, b.hist.path)
  {
    LogExtend(sh.repo.orders, sh.repo.log, sh.hist.path, oid, NewOrder(req, rsv, fz), Some(EvCreated));
    assert oid !in sh.hist.path.Keys;
    assert PathOf(sh.hist.path, oid) + [PendingPay] == [PendingPay];
    hide LogOk;
  }

  lemma InsertFresh(sh: Shared, t: Tid, oid: OrderId, req: CheckoutReq, rsv: Option<RsvId>, fz: Option<FreezeId>)
    requires ReadyToInsert(sh, t, oid, req, rsv, fz)
    ensures oid !in sh.repo.orders && req.hash.clientOrder == Some(req.clientId)
    ensures NewOrder(req, rsv, fz).amounts.refunded == 0
  {
    hide Intact, HoldsReservation, HoldsFreeze;
  }

  /** Nothing was refunded or paid for an order that is not stored yet. */
  lemma InsertPayments(sh: Shared, oid: OrderId, req: CheckoutReq, o: Order)
    requires PaymentsOk(sh.repo.orders, sh.hist.trail.refunds, sh.hist.trail.payments, sh.ledger.credits)
    requires oid !in sh.repo.orders && o.amounts.refunded == 0
    ensures CreditedTo(sh.hist.trail.payments, oid) == 0
    ensures PaymentsOk(sh.repo.orders[oid := o], sh.hist.trail.refunds, sh.hist.trail.payments, sh.ledger.credits)
  {
    NoPayments(sh.hist.trail.payments, oid);
    hide Repaid, OwnAccount, PaidInto;
    assert RefundsFit(o, [], sh.hist.trail.payments, oid) by { NothingOwed(o, sh.hist.trail.payments, oid); }
    hide RefundsFit;
  }

  lemma NothingOwed(o: Order, payments: seq<Payment>, oid: OrderId)
    requires forall i :: 0 <= i < |payments| ==> payments[i].order != oid
    requires CreditedTo(payments, oid) == 0 && ChannelledTo(payments, oid) == 0
    ensures Repaid(o, [], payments, oid) && OwnAccount(payments, oid, AccountOf(o))
  {
  }

  lemma InsertAdvances(sh: Shared, oid: OrderId, o: Order)
    requires AdvancesOk(sh.repo.orders, sh.hist.path, sh.hist.captures, sh.offer.redeem) && oid !in sh.repo.orders
    ensures AdvancesOk(sh.repo.orders[oid := o], sh.hist.path[oid := [PendingPay]], sh.hist.captures, sh.offer.redeem)
  {
    assert !Advanced([PendingPay]) && Routed(o.scene, [PendingPay]);
    hide Advanced, Routed, Captured, Committed;
  }

  lemma InsertRules(sh: Shared, t: Tid, oid: OrderId, req: CheckoutReq, rsv: Option<RsvId>, fz: Option<FreezeId>)
    requires FreezeCallsOk(sh.repo.orders, sh.hist.frozenFor, sh.hist.captures, sh.hist.releases)
    requires OfferCallsOk(sh.repo.orders, sh.hist.commits, sh.hist.frees)
    requires CompensatingOk(sh.reliable, sh.repo.orders, sh.repo.tickets)
    requires ReadyToInsert(sh, t, oid, req, rsv, fz) && InsertAccepted(sh, req, NewOrder(req, rsv, fz))
    ensures var b := InsertCheckout(sh, oid, req, rsv, fz).0;
            && FreezeCallsOk(b.repo.orders, b.hist.frozenFor, b.hist.captures, b.hist.releases)
            && OfferCallsOk(b.repo.orders, b.hist.commits, b.hist.frees)
            && CompensatingOk(b.reliable, b.repo.orders, b.repo.tickets)
            && RefundUndisturbed(sh.repo.orders, b.repo.orders, sh.hist.trail, b.hist.trail, t)
            && MintUndisturbed(sh.repo.orders, b.repo.orders, sh.hist.minter, b.hist.minter,
                               sh.offer.resv, b.offer.resv, sh.hist.frees, b.hist.frees, t)
  {
    hide HoldsFreeze, HoldsReservation, ReqOk, HasTicket, ClientKeyOf, IdemKeyOf, CreditedTo, GotOk;
  }

  // ---------------------------------------------------------------------------
  // Compare-and-swap
  // ---------------------------------------------------------------------------

  /** What a service knows when it issues its command. */
  predicate CasReady(sh: Shared, t: Tid, oid: OrderId, req: Request, snap: Order) {
    && SnapOk(sh, oid, snap)
    && match req
       case ReqPay => snap.status == PendingPay
       case ReqCancel => snap.status == PendingPay
       case ReqCompensate => snap.status == Paid && (sh.reliable ==> HasTicket(sh.repo.tickets, AfterPaid(oid)))
       case ReqAdvance => Captured(snap, sh.hist.captures) && Committed(snap, sh.offer.redeem)
       case ReqComplete => true
       case ReqClose => snap.scene.allowClose
       case ReqRefundStart => RefundableStatus(snap.status) && snap.amounts.refunded < snap.amounts.paid
       case ReqRefundEnd(amount, full) =>
         && Refunds(sh, t, oid, snap, amount) && full == IsFull(snap, amount)
         && PaidBack(sh, oid, snap, amount, true, true)
  }

  lemma CasOk(sh: Shared, t: Tid, oid: OrderId, req: Request, snap: Order)
    requires SharedOk(sh) && CasReady(sh, t, oid, req, snap)
    ensures var (b, o) := Cas(sh, t, oid, req, snap);
            && SharedOk(b) && Guarantee(sh, b, t)
            && (o.Some? ==> && oid in b.repo.orders && b.repo.orders[oid] == o.value
                            && sh.repo.orders[oid].version == snap.version
                            && o.value == Updated(sh.repo.orders[oid], CommandOf(req, snap))
                            && FieldsOk(o.value) && HoldsRedemption(b.offer, oid, o.value))
            && (o.None? ==> b == sh)
  {
    hide OrdersOk, IndexOk, LogOk, LedgerOk, OpeningOk, FreezeCallsOk, OfferOk, OfferCallsOk, TicketsOk, CompensatingOk,
      AdvancesOk, PaymentsOk;
    hide OrdersEvolve, RefundUndisturbed, MintUndisturbed, ReleasesJustified, FreezesGrow, OfferGrows, TicketsGrow,
      RecordsGrow, HeldShrinks;
    hide Transition, Updated, FieldsOk, SnapFits, CommandOf, HoldsRedemption, CasReady, Moves;
    Stays(sh, t);
    if oid in sh.repo.orders && Transition(sh.repo.orders[oid], CommandOf(req, snap)).Ok? {
      var r := Transition(sh.repo.orders[oid], CommandOf(req, snap));
      CasFields(sh, t, oid, req, snap, r.value);
      CasOrders(sh, t, oid, req, snap, r.value);
      CasAdvances(sh, t, oid, req, snap, r.value);
      CasPayments(sh, t, oid, req, snap, r.value);
      CasRules(sh, t, oid, req, snap, r.value);
      CasApart(sh, t, oid, req, snap, r.value);
    }
  }

  /** An accepted command moves the order along the table and keeps its own fields in order. */
  predicate Moves(o: Order, p: Order, req: Request) {
    && FieldsOk(p)
    && Evolves(o, p)
    && p.version == o.version + 1
    && CanTransition(o.status, p.status)
    && p.redemption == o.redemption
    && (p.status == Refunding ==> req.ReqRefundStart?)
    && (p.status == Compensating ==> req.ReqCompensate?)
    && (o.status == Refunding ==> req.ReqRefundEnd?)
    && (p.status == Fulfilling || o.status == Compensating ==> req.ReqAdvance?)
    && (req.ReqAdvance? ==> p.status == if o.scene.autoComplete then Completed else Fulfilling)
    && EventsOf(p.status) == (match CommandOf(req, o).event case Some(e) => [e] case None => [])
  }

  lemma CasFields(sh: Shared, t: Tid, oid: OrderId, req: Request, snap: Order, o: Order)
    requires OrdersOk(sh.repo.orders, sh.hist, sh.ledger, sh.offer) && CasReady(sh, t, oid, req, snap)
    requires Transition(sh.repo.orders[oid], CommandOf(req, snap)) == Ok(o)
    ensures Moves(sh.repo.orders[oid], o, req)
    ensures sh.repo.orders[oid].version == snap.version && o == Updated(sh.repo.orders[oid], CommandOf(req, snap))
    ensures CommandOf(req, snap).event == CommandOf(req, sh.repo.orders[oid]).event
  {
    var before := sh.repo.orders[oid];
    assert FieldsOk(before) by {
      assert OrderOk(sh.hist, sh.ledger, sh.offer, oid, before);
    }
    MoveFields(before, req, snap, o, oid);
  }

  /** What the services check before each command. */
  predicate Checked(req: Request, snap: Order) {
    match req
    case ReqPay => snap.status == PendingPay
    case ReqCancel => snap.status == PendingPay
    case ReqAdvance => !Unfrozen(snap)
    case ReqClose => snap.scene.allowClose
    case ReqRefundStart => RefundableStatus(snap.status) && snap.amounts.refunded < snap.amounts.paid
    case ReqRefundEnd(amount, full) =>
      0 < amount <= snap.amounts.paid - snap.amounts.refunded && full == IsFull(snap, amount)
    case _ => true
  }

  lemma MoveFields(before: Order, req: Request, snap: Order, o: Order, oid: OrderId)
    requires FieldsOk(before) && SnapFits(snap, before, oid) && Checked(req, snap)
    requires Transition(before, CommandOf(req, snap)) == Ok(o)
    ensures Moves(before, o, req) && before.version == snap.version && o == Updated(before, CommandOf(req, snap))
    ensures CommandOf(req, snap).event == CommandOf(req, before).event
  {
    MoveSource(before, req, snap, o);
    MoveMoney(before, req, snap, o, oid);
    MoveEvolves(before, req, snap, o, oid);
    MoveAdvances(before, req, snap, o, oid);
    hide CanTransition, FieldsOk, Evolves, FromMatches, Checked;
  }

  /**
   * Only the advance after payment fulfils an order or takes it out of COMPENSATING, and it goes where the scene
   * leads.
   */
  lemma MoveAdvances(before: Order, req: Request, snap: Order, o: Order, oid: OrderId)
    requires SnapFits(snap, before, oid) && Checked(req, snap)
    requires Source(req, snap, before.status) && before.version == snap.version
    requires o == Updated(before, CommandOf(req, snap))
    ensures o.status == Fulfilling || before.status == Compensating ==> req.ReqAdvance?
    ensures req.ReqAdvance? ==> o.status == if before.scene.autoComplete then Completed else Fulfilling
  {
    hide FieldsOk, IsFull;
  }

  /** The status the command starts from. */
  predicate Source(req: Request, snap: Order, status: Status) {
    match req
    case ReqPay => status == PendingPay
    case ReqCancel => status == PendingPay
    case ReqCompensate => status == Paid
    case ReqAdvance => status == Paid || status == Compensating
    case ReqComplete => status == Fulfilling || status == Paid
    case ReqClose => status == Paid || status == Fulfilling || status == Completed
    case ReqRefundStart => status == snap.status
    case ReqRefundEnd(_, _) => status == Refunding
  }

  lemma MoveSource(before: Order, req: Request, snap: Order, o: Order)
    requires Transition(before, CommandOf(req, snap)) == Ok(o)
    ensures Source(req, snap, before.status) && before.version == snap.version
    ensures o == Updated(before, CommandOf(req, snap))
    ensures CanTransition(before.status, o.status)
  {
    hide CanTransition;
  }

  /** Case by case over the commands: money and version stay in order. */
  lemma MoveMoney(before: Order, req: Request, snap: Order, o: Order, oid: OrderId)
    requires FieldsOk(before) && SnapFits(snap, before, oid) && Checked(req, snap)
    requires Source(req, snap, before.status) && before.version == snap.version
    requires o == Updated(before, CommandOf(req, snap))
    ensures FieldsOk(o)
  {
    hide Stuck, PastPayment, Compatible;
  }

  /** Case by case over the commands: the order evolves as promised to the other calls. */
  lemma MoveEvolves(before: Order, req: Request, snap: Order, o: Order, oid: OrderId)
    requires SnapFits(snap, before, oid) && Checked(req, snap)
    requires Source(req, snap, before.status) && before.version == snap.version
    requires o == Updated(before, CommandOf(req, snap))
    ensures Evolves(before, o)
  {
    hide FieldsOk, IsFull;
  }

  lemma CasOrders(sh: Shared, t: Tid, oid: OrderId, req: Request, snap: Order, o: Order)
    requires OrdersOk(sh.repo.orders, sh.hist, sh.ledger, sh.offer) && CasReady(sh, t, oid, req, snap)
    requires Moves(sh.repo.orders[oid], o, req) && o == Updated(sh.repo.orders[oid], CommandOf(req, snap))
    requires sh.repo.orders[oid].version == snap.version
    ensures var b := Stored(sh, t, oid, req, o, CommandOf(req, snap).event);
            && OrdersOk(b.repo.orders, b.hist, b.ledger, b.offer)
            && OrdersEvolve(sh.repo.orders, b.repo.orders)
            && HoldsRedemption(b.offer, oid, o)
  {
    hide CommandOf, Updated, OrderOk, HoldsRedemption, Stored, Evolves, FieldsOk, CanTransition, EventsOf, SnapFits;
    assert OrderOk(sh.hist, sh.ledger, sh.offer, oid, sh.repo.orders[oid]);
    CasOwn(sh, t, oid, req, snap, o);
    CasOthers(sh, t, oid, req, o, CommandOf(req, snap).event);
  }

  lemma CasOwn(sh: Shared, t: Tid, oid: OrderId, req: Request, snap: Order, o: Order)
    requires oid in sh.repo.orders && CasReady(sh, t, oid, req, snap)
    requires OrderOk(sh.hist, sh.ledger, sh.offer, oid, sh.repo.orders[oid])
    requires Moves(sh.repo.orders[oid], o, req) && o == Updated(sh.repo.orders[oid], CommandOf(req, snap))
    requires sh.repo.orders[oid].version == snap.version
    ensures var b := Stored(sh, t, oid, req, o, CommandOf(req, snap).event);
            OrderOk(b.hist, b.ledger, b.offer, oid, o) && HoldsRedemption(b.offer, oid, o)
  {
    hide CommandOf, Updated, FieldsOk, PathFits, CasReady, SnapFits, CreditsWithin, LegalPath, CanTransition, EventsOf;
    hide HoldsReservation, FreezeFits, Compatible;
    PathExtend(sh.hist.path, oid, sh.repo.orders[oid], o);
    CasCredits(sh, t, oid, req, snap, o);
  }

  lemma CasOthers(sh: Shared, t: Tid, oid: OrderId, req: Request, o: Order, event: Option<EventKind>)
    requires OrdersOk(sh.repo.orders, sh.hist, sh.ledger, sh.offer) && oid in sh.repo.orders
    requires Evolves(sh.repo.orders[oid], o)
    requires var b := Stored(sh, t, oid, req, o, event); OrderOk(b.hist, b.ledger, b.offer, oid, o)
    ensures var b := Stored(sh, t, oid, req, o, event);
            OrdersOk(b.repo.orders, b.hist, b.ledger, b.offer) && OrdersEvolve(sh.repo.orders, b.repo.orders)
  {
    var b := Stored(sh, t, oid, req, o, event);
    hide FieldsOk, PathFits, HoldsFreeze, HoldsReservation, HoldsRedemption, CreditsWithin;
    forall id | id in b.repo.orders && id != oid ensures OrderOk(b.hist, b.ledger, b.offer, id, b.repo.orders[id])
    {
      assert OrderOk(sh.hist, sh.ledger, sh.offer, id, sh.repo.orders[id]);
      PathOther(sh.hist.path, oid, PathOf(sh.hist.path, oid) + [o.status], id, sh.repo.orders[id]);
    }
  }

  lemma PathExtend(path: map<OrderId, seq<Status>>, oid: OrderId, before: Order, o: Order)
    requires PathFits(path, oid, before.version, before.status)
    requires o.version == before.version + 1 && CanTransition(before.status, o.status)
    requires Compatible(before.status, o.status)
    ensures PathFits(path[oid := PathOf(path, oid) + [o.status]], oid, o.version, o.status)
  {
    hide CanTransition;
  }

  lemma PathOther(path: map<OrderId, seq<Status>>, oid: OrderId, p: seq<Status>, id: OrderId, o: Order)
    requires id != oid && PathFits(path, id, o.version, o.status)
    ensures PathFits(path[oid := p], id, o.version, o.status)
  {
  }

  /** Only a refund's end turns pending credit room into refunded money. */
  lemma CasCredits(sh: Shared, t: Tid, oid: OrderId, req: Request, snap: Order, o: Order)
    requires oid in sh.repo.orders && CasReady(sh, t, oid, req, snap)
    requires Moves(sh.repo.orders[oid], o, req) && o == Updated(sh.repo.orders[oid], CommandOf(req, snap))
    requires sh.repo.orders[oid].version == snap.version
    requires CreditsWithin(CreditedTo(sh.hist.trail.payments, oid), sh.repo.orders[oid])
    requires FieldsOk(sh.repo.orders[oid])
    ensures CreditsWithin(CreditedTo(sh.hist.trail.payments, oid), o)
  {
    hide Evolves, EventsOf, CanTransition, HasTicket;
    var before, c := sh.repo.orders[oid], CreditedTo(sh.hist.trail.payments, oid);
    if req.ReqRefundEnd? {
      RefundEndCredits(sh, t, oid, req.amount, req.full, snap, o);
    } else {
      OtherCredits(c, before, o, req, snap);
    }
  }

  lemma RefundEndCredits(sh: Shared, t: Tid, oid: OrderId, amount: I64, full: bool, snap: Order, o: Order)
    requires Refunds(sh, t, oid, snap, amount) && PaidBack(sh, oid, snap, amount, true, true)
    requires FieldsOk(o) && o == Updated(sh.repo.orders[oid], CommandOf(ReqRefundEnd(amount, full), snap))
    requires CreditsWithin(CreditedTo(sh.hist.trail.payments, oid), sh.repo.orders[oid])
    ensures CreditsWithin(CreditedTo(sh.hist.trail.payments, oid), o)
  {
    hide PastPayment, VersionWithin, Compatible;
    assert o.amounts.refunded == snap.amounts.refunded + amount;
  }

  lemma OtherCredits(c: int, before: Order, o: Order, req: Request, snap: Order)
    requires !req.ReqRefundEnd? && o == Updated(before, CommandOf(req, snap))
    requires MoneyByStatus(before.status, before.amounts)
    requires (o.status == Refunding ==> req.ReqRefundStart?) && (before.status == Refunding ==> req.ReqRefundEnd?)
    requires CreditsWithin(c, before)
    ensures CreditsWithin(c, o)
  {
    if req.ReqRefundStart? && !o.scene.allowClose {
      MulGrows(c * o.amounts.payable, o.amounts.ledgerPay, before.amounts.refunded, o.amounts.payable);
    }
  }

  lemma MulGrows(x: int, part: int, n: int, m: int)
    requires 0 <= part && n <= m && x <= part * n
    ensures x <= part * m
  {
    assert part * n <= part * m;
  }

  /** An order that advances was served first. */
  lemma CasAdvances(sh: Shared, t: Tid, oid: OrderId, req: Request, snap: Order, o: Order)
    requires SharedOk(sh) && CasReady(sh, t, oid, req, snap)
    requires Moves(sh.repo.orders[oid], o, req)
    ensures var b := Stored(sh, t, oid, req, o, CommandOf(req, snap).event);
            AdvancesOk(b.repo.orders, b.hist.path, b.hist.captures, b.offer.redeem)
  {
    hide SharedOk, Advanced, Routed, PathFits, Captured, Committed, FieldsOk, CanTransition, EventsOf, PaidBack;
    var before, path := sh.repo.orders[oid], sh.hist.path;
    PathEnds(sh, oid);
    AdvancedStep(path[oid], o.status);
    RoutedStep(o.scene, path[oid], o.status);
    ServedAlike(snap, before, o, sh.hist.captures, sh.offer.redeem);
    StoredAdvances(sh.repo.orders, path, sh.hist.captures, sh.offer.redeem, oid, o);
  }

  lemma PathEnds(sh: Shared, oid: OrderId)
    requires SharedOk(sh) && oid in sh.repo.orders
    ensures AdvancesOk(sh.repo.orders, sh.hist.path, sh.hist.captures, sh.offer.redeem)
    ensures oid in sh.hist.path && sh.hist.path[oid] != []
    ensures sh.hist.path[oid][|sh.hist.path[oid]| - 1] == sh.repo.orders[oid].status
    ensures Routed(sh.repo.orders[oid].scene, sh.hist.path[oid])
  {
    hide IndexOk, LogOk, LedgerOk, OpeningOk, FreezeCallsOk, OfferOk, OfferCallsOk, TicketsOk, CompensatingOk,
      AdvancesOk, PaymentsOk;
    assert OrderOk(sh.hist, sh.ledger, sh.offer, oid, sh.repo.orders[oid]) by { hide OrderOk; }
    hide FieldsOk, HoldsFreeze, HoldsReservation, HoldsRedemption, CreditsWithin, Routed, Advanced;
    AdvancesAt(sh, oid);
  }

  lemma AdvancesAt(sh: Shared, oid: OrderId)
    requires AdvancesOk(sh.repo.orders, sh.hist.path, sh.hist.captures, sh.offer.redeem)
    requires oid in sh.repo.orders && oid in sh.hist.path
    ensures Routed(sh.repo.orders[oid].scene, sh.hist.path[oid])
  {
    hide Routed, Advanced, Captured, Committed;
  }

  lemma RoutedStep(scene: Scene, path: seq<Status>, to: Status)
    requires path != [] && Routed(scene, path) && (scene.autoComplete ==> to != Fulfilling)
    requires path[|path| - 1] == Compensating ==> to == if scene.autoComplete then Completed else Fulfilling
    ensures Routed(scene, path + [to])
  {
    var p := path + [to];
    forall i | 0 <= i < |p| - 1 && p[i] == Compensating
      ensures p[i + 1] == if scene.autoComplete then Completed else Fulfilling
    {
      assert p[i] == path[i];
    }
  }

  lemma AdvancedStep(path: seq<Status>, to: Status)
    requires path != []
    ensures Advanced(path + [to]) ==> Advanced(path) || to == Fulfilling || path[|path| - 1] == Compensating
  {
    var p := path + [to];
    if i :| 0 <= i < |p| - 1 && p[i] == Compensating {
      assert path[i] == Compensating;
    }
  }

  lemma ServedAlike(snap: Order, o: Order, p: Order, captures: set<FreezeId>, redeem: map<RedId, F.Redemption>)
    requires SameTerms(snap, o) && SameTerms(o, p)
    ensures Captured(snap, captures) <==> Captured(p, captures)
    ensures Committed(snap, redeem) <==> Committed(p, redeem)
    ensures Captured(o, captures) <==> Captured(p, captures)
    ensures Committed(o, redeem) <==> Committed(p, redeem)
  {
  }

  lemma StoredAdvances(orders: OrderMap, path: map<OrderId, seq<Status>>, captures: set<FreezeId>,
                       redeem: map<RedId, F.Redemption>, oid: OrderId, o: Order)
    requires AdvancesOk(orders, path, captures, redeem)
    requires Advanced(PathOf(path, oid) + [o.status]) ==> Captured(o, captures) && Committed(o, redeem)
    requires Routed(o.scene, PathOf(path, oid) + [o.status])
    ensures AdvancesOk(orders[oid := o], path[oid := PathOf(path, oid) + [o.status]], captures, redeem)
  {
    hide Advanced, Routed, Captured, Committed;
  }

  /** A refund's end records its amount; no other command touches refunded money. */
  lemma CasPayments(sh: Shared, t: Tid, oid: OrderId, req: Request, snap: Order, o: Order)
    requires SharedOk(sh) && CasReady(sh, t, oid, req, snap)
    requires Moves(sh.repo.orders[oid], o, req) && o == Updated(sh.repo.orders[oid], CommandOf(req, snap))
    requires sh.repo.orders[oid].version == snap.version
    ensures var b := Stored(sh, t, oid, req, o, CommandOf(req, snap).event);
            PaymentsOk(b.repo.orders, b.hist.trail.refunds, b.hist.trail.payments, b.ledger.credits)
  {
    hide SharedOk, RefundsFit, FieldsOk, CanTransition, EventsOf, PaidBack, Refunds, PaidInto, CommandOf, Updated,
      Evolves;
    PaymentsKnown(sh);
    CasRefundsFit(sh, t, oid, req, snap, o);
  }

  lemma PaymentsKnown(sh: Shared)
    requires SharedOk(sh)
    ensures PaymentsOk(sh.repo.orders, sh.hist.trail.refunds, sh.hist.trail.payments, sh.ledger.credits)
  {
    hide OrdersOk, IndexOk, LogOk, LedgerOk, OpeningOk, FreezeCallsOk, OfferOk, OfferCallsOk, TicketsOk, CompensatingOk,
      AdvancesOk, PaymentsOk;
  }

  lemma CasRefundsFit(sh: Shared, t: Tid, oid: OrderId, req: Request, snap: Order, o: Order)
    requires oid in sh.repo.orders && CasReady(sh, t, oid, req, snap)
    requires Moves(sh.repo.orders[oid], o, req) && o == Updated(sh.repo.orders[oid], CommandOf(req, snap))
    requires sh.repo.orders[oid].version == snap.version
    requires RefundsFit(sh.repo.orders[oid], RefundsOf(sh.hist.trail.refunds, oid), sh.hist.trail.payments, oid)
    ensures RefundsFit(o, RefundsOf(TrailAfter(sh.hist.trail, t, oid, req).refunds, oid), sh.hist.trail.payments, oid)
  {
    hide CanTransition, EventsOf, HasTicket, OwnAccount, Evolves, LedgerDues, ChannelDues, ChannelledTo, CreditedTo,
      Sum;
    var before, rs := sh.repo.orders[oid], RefundsOf(sh.hist.trail.refunds, oid);
    if req.ReqRefundEnd? {
      RefundEnds(sh, t, oid, req.amount, req.full, snap, o);
    } else {
      DuesDepend(before.amounts, o.amounts, rs);
    }
  }

  lemma RefundEnds(sh: Shared, t: Tid, oid: OrderId, amount: I64, full: bool, snap: Order, o: Order)
    requires Refunds(sh, t, oid, snap, amount) && PaidBack(sh, oid, snap, amount, true, true)
    requires FieldsOk(o) && o == Updated(sh.repo.orders[oid], CommandOf(ReqRefundEnd(amount, full), snap))
    requires RefundsFit(sh.repo.orders[oid], RefundsOf(sh.hist.trail.refunds, oid), sh.hist.trail.payments, oid)
    ensures RefundsFit(o, RefundsOf(sh.hist.trail.refunds, oid) + [amount], sh.hist.trail.payments, oid)
  {
    hide PastPayment, VersionWithin, Compatible, OwnAccount, LedgerDues, ChannelDues, LedgerDue, ChannelDue, Sum;
    hide ChannelledTo, CreditedTo;
    assert o.amounts.refunded == snap.amounts.refunded + amount;
    var rs := RefundsOf(sh.hist.trail.refunds, oid);
    DuesAppend(snap.amounts, rs, amount);
    DuesDepend(snap.amounts, o.amounts, rs + [amount]);
  }

  lemma CasRules(sh: Shared, t: Tid, oid: OrderId, req: Request, snap: Order, o: Order)
    requires SharedOk(sh) && oid in sh.repo.orders
    requires Moves(sh.repo.orders[oid], o, req)
    requires CommandOf(req, snap).event == CommandOf(req, sh.repo.orders[oid]).event
    requires OrdersEvolve(sh.repo.orders, sh.repo.orders[oid := o])
    ensures var b := Stored(sh, t, oid, req, o, CommandOf(req, snap).event);
            && IndexOk(b.repo.orders, b.repo.client, b.repo.idem, b.hist.idemOf)
            && LogOk(b.repo.orders, b.repo.log, b.hist.path)
            && OpeningOk(b.ledger.opening, b.repo.orders)
            && FreezeCallsOk(b.repo.orders, b.hist.frozenFor, b.hist.captures, b.hist.releases)
            && OfferCallsOk(b.repo.orders, b.hist.commits, b.hist.frees)
  {
    hide OrdersOk, IndexOk, LogOk, LedgerOk, OpeningOk, FreezeCallsOk, OfferOk, OfferCallsOk, TicketsOk, CompensatingOk,
      AdvancesOk, PaymentsOk;
    hide OrdersEvolve, CommandOf, FieldsOk, Evolves, CanTransition;
    LogExtend(sh.repo.orders, sh.repo.log, sh.hist.path, oid, o, CommandOf(req, snap).event);
    OpeningStable(sh.ledger.opening, sh.repo.orders, sh.repo.orders[oid := o]);
    MoveRules(sh.repo.orders, oid, o, sh);
  }

  lemma CasApart(sh: Shared, t: Tid, oid: OrderId, req: Request, snap: Order, o: Order)
    requires SharedOk(sh) && CasReady(sh, t, oid, req, snap)
    requires Moves(sh.repo.orders[oid], o, req)
    requires OrdersEvolve(sh.repo.orders, sh.repo.orders[oid := o])
    ensures var b := Stored(sh, t, oid, req, o, CommandOf(req, snap).event);
            && TicketsOk(b.repo.tickets, b.repo.orders, b.ledger.freezes, b.offer, b.held)
            && CompensatingOk(b.reliable, b.repo.orders, b.repo.tickets)
            && RefundUndisturbed(sh.repo.orders, b.repo.orders, sh.hist.trail, b.hist.trail, t)
            && MintUndisturbed(sh.repo.orders, b.repo.orders, sh.hist.minter, b.hist.minter,
                               sh.offer.resv, b.offer.resv, sh.hist.frees, b.hist.frees, t)
  {
    hide OrdersOk, IndexOk, LogOk, LedgerOk, OpeningOk, FreezeCallsOk, OfferOk, OfferCallsOk, TicketsOk, CompensatingOk,
      AdvancesOk, PaymentsOk;
    hide OrdersEvolve, RefundUndisturbed, MintUndisturbed, CommandOf, SnapFits, FieldsOk, Evolves, CanTransition;
    hide HasTicket, PaidBack, Captured, Committed, EventsOf;
    TicketsStable(sh.repo.tickets, sh.repo.orders, sh.repo.orders[oid := o], sh.ledger.freezes, sh.offer, sh.held);
    MoveTickets(sh.reliable, sh.repo.orders, oid, o, sh.repo.tickets);
    MoveApart(sh.repo.orders, oid, o, sh, req, t);
  }

  /** Replacing one order by its successor keeps the rules about issued calls and the indexes. */
  lemma MoveRules(a: OrderMap, oid: OrderId, o: Order, sh: Shared)
    requires oid in a && OrdersEvolve(a, a[oid := o])
    requires FreezeCallsOk(a, sh.hist.frozenFor, sh.hist.captures, sh.hist.releases)
    requires OfferCallsOk(a, sh.hist.commits, sh.hist.frees)
    requires IndexOk(a, sh.repo.client, sh.repo.idem, sh.hist.idemOf)
    ensures FreezeCallsOk(a[oid := o], sh.hist.frozenFor, sh.hist.captures, sh.hist.releases)
    ensures OfferCallsOk(a[oid := o], sh.hist.commits, sh.hist.frees)
    ensures IndexOk(a[oid := o], sh.repo.client, sh.repo.idem, sh.hist.idemOf)
  {
    hide FreezeCallsOk, OfferCallsOk, IndexOk;
    assert Evolves(a[oid], a[oid := o][oid]);
    MoveCalls(a, oid, o, sh.hist);
    MoveIndex(a, oid, o, sh);
  }

  lemma MoveCalls(a: OrderMap, oid: OrderId, o: Order, h: History)
    requires oid in a && Evolves(a[oid], o)
    requires FreezeCallsOk(a, h.frozenFor, h.captures, h.releases) && OfferCallsOk(a, h.commits, h.frees)
    ensures FreezeCallsOk(a[oid := o], h.frozenFor, h.captures, h.releases)
    ensures OfferCallsOk(a[oid := o], h.commits, h.frees)
  {
  }

  lemma MoveTickets(reliable: bool, a: OrderMap, oid: OrderId, o: Order, tickets: seq<Ticket>)
    requires CompensatingOk(reliable, a, tickets)
    requires reliable && o.status == Compensating ==> HasTicket(tickets, AfterPaid(oid))
    ensures CompensatingOk(reliable, a[oid := o], tickets)
  {
    hide HasTicket;
  }

  lemma MoveApart(a: OrderMap, oid: OrderId, o: Order, sh: Shared, req: Request, t: Tid)
    requires oid in a
    requires a[oid].status == Refunding ==> oid in sh.hist.trail.refunder && sh.hist.trail.refunder[oid] == t
    ensures RefundUndisturbed(a, a[oid := o], sh.hist.trail, TrailAfter(sh.hist.trail, t, oid, req), t)
    ensures MintUndisturbed(a, a[oid := o], sh.hist.minter, sh.hist.minter,
                            sh.offer.resv, sh.offer.resv, sh.hist.frees, sh.hist.frees, t)
  {
  }
}

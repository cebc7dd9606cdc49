/** Every downstream call and ticket update keeps the shared invariant and the guarantee to other calls. */
module SagaCalls {
  import opened Base
  import opened Int64
  import opened Amounts
  import opened Orders
  import opened RefundRuns
  import opened SagaState
  import opened SagaProgram
  import opened SagaInvariant
  import L = Ledger
  import F = Offer

  /** Parts of the state a step leaves alone satisfy their share of the guarantee. */
  lemma Stays(sh: Shared, t: Tid)
    ensures OrdersEvolve(sh.repo.orders, sh.repo.orders)
    ensures RefundUndisturbed(sh.repo.orders, sh.repo.orders, sh.hist.trail, sh.hist.trail, t)
    ensures MintUndisturbed(sh.repo.orders, sh.repo.orders, sh.hist.minter, sh.hist.minter,
                            sh.offer.resv, sh.offer.resv, sh.hist.frees, sh.hist.frees, t)
    ensures ReleasesJustified(sh.repo.orders, sh.hist.minter, sh.hist.frozenFor, sh.hist.releases, sh.hist.releases, t)
    ensures FreezesGrow(sh.ledger.freezes, sh.ledger.freezes)
    ensures OfferGrows(sh.offer, sh.offer)
    ensures TicketsGrow(sh.repo.tickets, sh.repo.tickets)
    ensures RecordsGrow(sh.repo.idem, sh.repo.idem)
    ensures HeldShrinks(sh.repo.orders, sh.held, sh.held)
    ensures Guarantee(sh, sh, t)
  {
  }

  // ---------------------------------------------------------------------------
  // Checkout acquires
  // ---------------------------------------------------------------------------

  lemma MintOk(sh: Shared, t: Tid)
    requires SharedOk(sh)
    ensures SharedOk(Mint(sh, t)) && Guarantee(sh, Mint(sh, t), t)
  {
    hide OrdersOk, IndexOk, LogOk, LedgerOk, OpeningOk, FreezeCallsOk, OfferOk, OfferCallsOk, TicketsOk, CompensatingOk,
      AdvancesOk, PaymentsOk;
    hide OrdersEvolve, RefundUndisturbed, MintUndisturbed, ReleasesJustified, FreezesGrow, OfferGrows, TicketsGrow,
      RecordsGrow, HeldShrinks;
    Stays(sh, t);
    MintParts(sh, t);
  }

  lemma MintParts(sh: Shared, t: Tid)
    requires OrdersOk(sh.repo.orders, sh.hist, sh.ledger, sh.offer)
    requires LedgerOk(sh.ledger, sh.hist.frozenFor, sh.hist.minter)
    requires OfferOk(sh.offer, |sh.hist.minter|, sh.hist.commits, sh.hist.frees)
    ensures var b := Mint(sh, t);
            && OrdersOk(b.repo.orders, b.hist, b.ledger, b.offer)
            && LedgerOk(b.ledger, b.hist.frozenFor, b.hist.minter)
            && OfferOk(b.offer, |b.hist.minter|, b.hist.commits, b.hist.frees)
            && MintUndisturbed(sh.repo.orders, b.repo.orders, sh.hist.minter, b.hist.minter,
                               sh.offer.resv, b.offer.resv, sh.hist.frees, b.hist.frees, t)
  {
    hide FieldsOk, PathFits, HoldsFreeze, HoldsReservation, HoldsRedemption, CreditsWithin;
    hide L.Sound, F.Sound;
  }

  lemma ReserveOk(sh: Shared, t: Tid, oid: OrderId, discount: I64)
    requires SharedOk(sh) && Owned(sh, t, oid) && Intact(sh, oid) && Rsv(oid) !in sh.offer.resv && 0 <= discount
    ensures var b := Reserve(sh, oid, discount);
            && SharedOk(b) && Guarantee(sh, b, t)
  {
    hide OrdersOk, IndexOk, LogOk, LedgerOk, OpeningOk, FreezeCallsOk, OfferOk, OfferCallsOk, TicketsOk, CompensatingOk,
      AdvancesOk, PaymentsOk;
    hide OrdersEvolve, RefundUndisturbed, MintUndisturbed, ReleasesJustified, FreezesGrow, OfferGrows, TicketsGrow,
      RecordsGrow, HeldShrinks;
    Stays(sh, t);
    ReserveParts(sh, t, oid, discount);
    ReserveOrders(sh, t, oid, discount);
  }

  lemma ReserveParts(sh: Shared, t: Tid, oid: OrderId, discount: I64)
    requires OfferOk(sh.offer, |sh.hist.minter|, sh.hist.commits, sh.hist.frees)
    requires Owned(sh, t, oid) && Intact(sh, oid) && Rsv(oid) !in sh.offer.resv && 0 <= discount
    ensures var b := Reserve(sh, oid, discount);
            && OfferOk(b.offer, |b.hist.minter|, b.hist.commits, b.hist.frees)
            && MintUndisturbed(sh.repo.orders, b.repo.orders, sh.hist.minter, b.hist.minter,
                               sh.offer.resv, b.offer.resv, sh.hist.frees, b.hist.frees, t)
            && OfferGrows(sh.offer, b.offer)
  {
    hide F.Sound;
    F.ReserveSound(sh.offer, oid, discount);
  }

  lemma ReserveOrders(sh: Shared, t: Tid, oid: OrderId, discount: I64)
    requires OrdersOk(sh.repo.orders, sh.hist, sh.ledger, sh.offer)
    requires TicketsOk(sh.repo.tickets, sh.repo.orders, sh.ledger.freezes, sh.offer, sh.held)
    requires Owned(sh, t, oid) && Intact(sh, oid) && Rsv(oid) !in sh.offer.resv && 0 <= discount
    ensures var b := Reserve(sh, oid, discount);
            && OrdersOk(b.repo.orders, b.hist, b.ledger, b.offer)
            && TicketsOk(b.repo.tickets, b.repo.orders, b.ledger.freezes, b.offer, b.held)
  {
    hide FieldsOk, PathFits, HoldsFreeze, CreditsWithin;
  }

  lemma AskBalanceOk(sh: Shared, t: Tid, k: L.Account)
    requires SharedOk(sh)
    ensures var b := AskBalance(sh, k); SharedOk(b) && Guarantee(sh, b, t)
  {
    hide OrdersOk, IndexOk, LogOk, LedgerOk, OpeningOk, FreezeCallsOk, OfferOk, OfferCallsOk, TicketsOk, CompensatingOk,
      AdvancesOk, PaymentsOk;
    hide OrdersEvolve, RefundUndisturbed, MintUndisturbed, ReleasesJustified, FreezesGrow, OfferGrows, TicketsGrow,
      RecordsGrow, HeldShrinks;
    Stays(sh, t);
    AskBalanceParts(sh, k);
    OrdersSeeFreezes(sh.repo.orders, sh.hist, sh.ledger, L.Touch(sh.ledger, k), sh.offer);
  }

  lemma AskBalanceParts(sh: Shared, k: L.Account)
    requires LedgerOk(sh.ledger, sh.hist.frozenFor, sh.hist.minter) && OpeningOk(sh.ledger.opening, sh.repo.orders)
    ensures var l := L.Touch(sh.ledger, k);
            LedgerOk(l, sh.hist.frozenFor, sh.hist.minter) && OpeningOk(l.opening, sh.repo.orders)
              && l.freezes == sh.ledger.freezes
  {
    hide L.Sound, LooselyCredited;
    L.TouchSound(sh.ledger, k);
  }

  /** Orders look at nothing of the ledger but its freezes. */
  lemma OrdersSeeFreezes(orders: OrderMap, h: History, l: L.Ledger, m: L.Ledger, offer: F.Offer)
    requires OrdersOk(orders, h, l, offer) && m.freezes == l.freezes
    ensures OrdersOk(orders, h, m, offer)
  {
    hide FieldsOk, PathFits, HoldsFreeze, HoldsReservation, HoldsRedemption, CreditsWithin;
  }

  lemma FreezeForOk(sh: Shared, t: Tid, oid: OrderId, k: L.Account, amount: int)
    requires SharedOk(sh) && Owned(sh, t, oid) && Intact(sh, oid) && 0 <= amount
    ensures var b := FreezeFor(sh, oid, k, amount).0;
            && SharedOk(b) && Guarantee(sh, b, t)
            && sh.hist.frozenFor <= b.hist.frozenFor && Intact(b, oid)
            && (FreezeFor(sh, oid, k, amount).1.Ok? ==>
                 FreezeFits(b.hist.frozenFor, b.ledger.freezes, oid, FreezeFor(sh, oid, k, amount).1.value, k))
  {
    hide OrdersOk, IndexOk, LogOk, LedgerOk, OpeningOk, FreezeCallsOk, OfferOk, OfferCallsOk, TicketsOk, CompensatingOk,
      AdvancesOk, PaymentsOk;
    hide OrdersEvolve, RefundUndisturbed, MintUndisturbed, ReleasesJustified, FreezesGrow, OfferGrows, TicketsGrow,
      RecordsGrow, HeldShrinks;
    Stays(sh, t);
    FreezeForParts(sh, t, oid, k, amount);
    FreezeForOrders(sh, oid, k, amount);
    assert L.Sound(sh.ledger) by { LedgerSound(sh); }
    FreezeForOpening(sh, oid, k, amount);
  }

  lemma LedgerSound(sh: Shared)
    requires LedgerOk(sh.ledger, sh.hist.frozenFor, sh.hist.minter)
    ensures L.Sound(sh.ledger)
  {
    hide L.Sound;
  }

  lemma FreezeForParts(sh: Shared, t: Tid, oid: OrderId, k: L.Account, amount: int)
    requires LedgerOk(sh.ledger, sh.hist.frozenFor, sh.hist.minter)
    requires FreezeCallsOk(sh.repo.orders, sh.hist.frozenFor, sh.hist.captures, sh.hist.releases)
    requires Owned(sh, t, oid) && Intact(sh, oid) && 0 <= amount
    ensures var b := FreezeFor(sh, oid, k, amount).0;
            && LedgerOk(b.ledger, b.hist.frozenFor, b.hist.minter)
            && FreezeCallsOk(b.repo.orders, b.hist.frozenFor, b.hist.captures, b.hist.releases)
            && FreezesGrow(sh.ledger.freezes, b.ledger.freezes)
            && sh.hist.frozenFor <= b.hist.frozenFor && Intact(b, oid)
            && (FreezeFor(sh, oid, k, amount).1.Ok? ==>
                 FreezeFits(b.hist.frozenFor, b.ledger.freezes, oid, FreezeFor(sh, oid, k, amount).1.value, k))
  {
    hide L.Sound, L.DoFreeze;
    L.FreezeSound(sh.ledger, k, amount);
  }

  lemma FreezeForOpening(sh: Shared, oid: OrderId, k: L.Account, amount: int)
    requires OpeningOk(sh.ledger.opening, sh.repo.orders) && L.Sound(sh.ledger)
    ensures var b := FreezeFor(sh, oid, k, amount).0; OpeningOk(b.ledger.opening, b.repo.orders)
  {
    hide L.Conserved, LooselyCredited;
  }

  lemma FreezeForOrders(sh: Shared, oid: OrderId, k: L.Account, amount: int)
    requires OrdersOk(sh.repo.orders, sh.hist, sh.ledger, sh.offer)
    requires TicketsOk(sh.repo.tickets, sh.repo.orders, sh.ledger.freezes, sh.offer, sh.held)
    ensures var b := FreezeFor(sh, oid, k, amount).0;
            && OrdersOk(b.repo.orders, b.hist, b.ledger, b.offer)
            && TicketsOk(b.repo.tickets, b.repo.orders, b.ledger.freezes, b.offer, b.held)
  {
    hide FieldsOk, PathFits, HoldsReservation, HoldsRedemption, CreditsWithin, L.DoFreeze;
  }

  // ---------------------------------------------------------------------------
  // Ledger and offer calls
  // ---------------------------------------------------------------------------

  lemma CaptureOk(sh: Shared, t: Tid, oid: OrderId, f: Option<FreezeId>)
    requires SharedOk(sh)
    requires oid in sh.repo.orders && Settled(sh.repo.orders[oid].status) && f == sh.repo.orders[oid].freeze
    ensures var b := Capture(sh, f).0;
            && SharedOk(b) && Guarantee(sh, b, t)
  {
    hide OrdersOk, IndexOk, LogOk, LedgerOk, OpeningOk, FreezeCallsOk, OfferOk, OfferCallsOk, TicketsOk, CompensatingOk,
      AdvancesOk, PaymentsOk;
    hide OrdersEvolve, RefundUndisturbed, MintUndisturbed, ReleasesJustified, FreezesGrow, OfferGrows, TicketsGrow,
      RecordsGrow, HeldShrinks;
    Stays(sh, t);
    CaptureParts(sh, t, oid, f);
    CallsGrow(sh.repo.orders, sh.hist.path, sh.hist.captures, Capture(sh, f).0.hist.captures, sh.offer, sh.offer);
  }

  /** Issuing more calls keeps what advanced orders owe to them. */
  lemma CallsGrow(orders: OrderMap, path: map<OrderId, seq<Status>>, captures: set<FreezeId>, captures': set<FreezeId>,
                  offer: F.Offer, offer': F.Offer)
    requires AdvancesOk(orders, path, captures, offer.redeem) && captures <= captures' && OfferGrows(offer, offer')
    ensures AdvancesOk(orders, path, captures', offer'.redeem)
  {
    hide Advanced, Routed;
  }

  lemma CaptureParts(sh: Shared, t: Tid, oid: OrderId, f: Option<FreezeId>)
    requires OrdersOk(sh.repo.orders, sh.hist, sh.ledger, sh.offer)
    requires LedgerOk(sh.ledger, sh.hist.frozenFor, sh.hist.minter)
    requires FreezeCallsOk(sh.repo.orders, sh.hist.frozenFor, sh.hist.captures, sh.hist.releases)
    requires TicketsOk(sh.repo.tickets, sh.repo.orders, sh.ledger.freezes, sh.offer, sh.held)
    requires oid in sh.repo.orders && Settled(sh.repo.orders[oid].status) && f == sh.repo.orders[oid].freeze
    ensures var b := Capture(sh, f).0;
            && OrdersOk(b.repo.orders, b.hist, b.ledger, b.offer)
            && LedgerOk(b.ledger, b.hist.frozenFor, b.hist.minter)
            && FreezeCallsOk(b.repo.orders, b.hist.frozenFor, b.hist.captures, b.hist.releases)
            && TicketsOk(b.repo.tickets, b.repo.orders, b.ledger.freezes, b.offer, b.held)
            && FreezesGrow(sh.ledger.freezes, b.ledger.freezes)
  {
    hide FieldsOk, PathFits, HoldsReservation, HoldsRedemption, CreditsWithin;
    hide L.Sound;
    L.CaptureSound(sh.ledger, f);
    assert OrderOk(sh.hist, sh.ledger, sh.offer, oid, sh.repo.orders[oid]);
  }

  /** Freezes this call may release: those of cancelled orders, and its own that never became an order's. */
  predicate MayRelease(sh: Shared, t: Tid, f: Option<FreezeId>) {
    f.Some? ==>
      && f.value < |sh.hist.frozenFor|
      && var oid := sh.hist.frozenFor[f.value];
         if oid in sh.repo.orders then sh.repo.orders[oid].status == Cancelled
         else oid < |sh.hist.minter| && sh.hist.minter[oid] == t
  }

  lemma ReleaseFreezeOk(sh: Shared, t: Tid, f: Option<FreezeId>)
    requires SharedOk(sh) && MayRelease(sh, t, f)
    ensures var b := ReleaseFreeze(sh, f);
            && SharedOk(b) && Guarantee(sh, b, t)
            && (f.Some? && f.value < |b.ledger.freezes| ==> !b.ledger.freezes[f.value].state.Open?)
  {
    hide OrdersOk, IndexOk, LogOk, LedgerOk, OpeningOk, FreezeCallsOk, OfferOk, OfferCallsOk, TicketsOk, CompensatingOk,
      AdvancesOk, PaymentsOk;
    hide OrdersEvolve, RefundUndisturbed, MintUndisturbed, ReleasesJustified, FreezesGrow, OfferGrows, TicketsGrow,
      RecordsGrow, HeldShrinks;
    Stays(sh, t);
    ReleaseFreezeParts(sh, t, f);
  }

  lemma ReleaseFreezeParts(sh: Shared, t: Tid, f: Option<FreezeId>)
    requires OrdersOk(sh.repo.orders, sh.hist, sh.ledger, sh.offer)
    requires LedgerOk(sh.ledger, sh.hist.frozenFor, sh.hist.minter)
    requires FreezeCallsOk(sh.repo.orders, sh.hist.frozenFor, sh.hist.captures, sh.hist.releases)
    requires TicketsOk(sh.repo.tickets, sh.repo.orders, sh.ledger.freezes, sh.offer, sh.held)
    requires MayRelease(sh, t, f)
    ensures var b := ReleaseFreeze(sh, f);
            && OrdersOk(b.repo.orders, b.hist, b.ledger, b.offer)
            && LedgerOk(b.ledger, b.hist.frozenFor, b.hist.minter)
            && FreezeCallsOk(b.repo.orders, b.hist.frozenFor, b.hist.captures, b.hist.releases)
            && TicketsOk(b.repo.tickets, b.repo.orders, b.ledger.freezes, b.offer, b.held)
            && ReleasesJustified(sh.repo.orders, sh.hist.minter, sh.hist.frozenFor, sh.hist.releases, b.hist.releases,
                 t)
            && FreezesGrow(sh.ledger.freezes, b.ledger.freezes)
            && (f.Some? && f.value < |b.ledger.freezes| ==> !b.ledger.freezes[f.value].state.Open?)
  {
    hide L.Sound, OrdersOk, TicketsOk, FreezesGrow;
    L.ReleaseSound(sh.ledger, f);
    FreezeReleased(sh.ledger, f);
    ReleaseFreezeOrders(sh, f);
  }

  lemma FreezeReleased(l: L.Ledger, f: Option<FreezeId>)
    ensures FreezesGrow(l.freezes, L.DoRelease(l, f).freezes)
    ensures f.Some? && f.value < |l.freezes| ==> !L.DoRelease(l, f).freezes[f.value].state.Open?
  {
  }

  lemma ReleaseFreezeOrders(sh: Shared, f: Option<FreezeId>)
    requires OrdersOk(sh.repo.orders, sh.hist, sh.ledger, sh.offer)
    requires TicketsOk(sh.repo.tickets, sh.repo.orders, sh.ledger.freezes, sh.offer, sh.held)
    ensures var b := ReleaseFreeze(sh, f);
            && OrdersOk(b.repo.orders, b.hist, b.ledger, b.offer)
            && TicketsOk(b.repo.tickets, b.repo.orders, b.ledger.freezes, b.offer, b.held)
  {
    hide FieldsOk, PathFits, HoldsReservation, HoldsRedemption, CreditsWithin;
  }

  /** Only a close, or the refund that took the order to REFUNDING, credits it. */
  predicate MayPay(sh: Shared, t: Tid, oid: OrderId) {
    && oid in sh.repo.orders
    && (sh.repo.orders[oid].scene.allowClose || RefundsIt(sh, t, oid))
  }

  predicate RefundsIt(sh: Shared, t: Tid, oid: OrderId) {
    && oid in sh.repo.orders && sh.repo.orders[oid].status == Refunding
    && oid in sh.hist.trail.refunder && sh.hist.trail.refunder[oid] == t
  }

  /** A credit for an order, on an account already open unless the order is loose. */
  lemma CreditOk(sh: Shared, t: Tid, oid: OrderId, k: L.Account, amount: int)
    requires SharedOk(sh)
    requires 0 <= amount && oid in sh.repo.orders && (k in sh.ledger.opening || LooseOn(sh.repo.orders[oid], k))
    requires CreditsWithin(CreditedTo(sh.hist.trail.payments, oid) + amount, sh.repo.orders[oid])
    requires MayPay(sh, t, oid) && (sh.repo.orders[oid].scene.allowClose || k == AccountOf(sh.repo.orders[oid]))
    ensures var b := Credit(sh, oid, k, amount);
            && SharedOk(b) && Guarantee(sh, b, t)
  {
    hide OrdersOk, IndexOk, LogOk, LedgerOk, OpeningOk, FreezeCallsOk, OfferOk, OfferCallsOk, TicketsOk, CompensatingOk,
      AdvancesOk, PaymentsOk;
    hide OrdersEvolve, RefundUndisturbed, MintUndisturbed, ReleasesJustified, FreezesGrow, OfferGrows, TicketsGrow,
      RecordsGrow, HeldShrinks;
    Stays(sh, t);
    CreditParts(sh, t, oid, k, amount);
  }

  lemma CreditParts(sh: Shared, t: Tid, oid: OrderId, k: L.Account, amount: int)
    requires OrdersOk(sh.repo.orders, sh.hist, sh.ledger, sh.offer)
    requires LedgerOk(sh.ledger, sh.hist.frozenFor, sh.hist.minter)
    requires OpeningOk(sh.ledger.opening, sh.repo.orders)
    requires 0 <= amount && oid in sh.repo.orders && (k in sh.ledger.opening || LooseOn(sh.repo.orders[oid], k))
    requires CreditsWithin(CreditedTo(sh.hist.trail.payments, oid) + amount, sh.repo.orders[oid])
    requires MayPay(sh, t, oid) && (sh.repo.orders[oid].scene.allowClose || k == AccountOf(sh.repo.orders[oid]))
    requires PaymentsOk(sh.repo.orders, sh.hist.trail.refunds, sh.hist.trail.payments, sh.ledger.credits)
    ensures var b := Credit(sh, oid, k, amount);
            && PaymentsOk(b.repo.orders, b.hist.trail.refunds, b.hist.trail.payments, b.ledger.credits)
            && OrdersOk(b.repo.orders, b.hist, b.ledger, b.offer)
            && LedgerOk(b.ledger, b.hist.frozenFor, b.hist.minter)
            && OpeningOk(b.ledger.opening, b.repo.orders)
            && RefundUndisturbed(sh.repo.orders, b.repo.orders, sh.hist.trail, b.hist.trail, t)
  {
    hide OrdersOk, OpeningOk, L.Sound, RefundUndisturbed, PaymentsOk, L.DoCredit;
    assert LedgerOk(L.DoCredit(sh.ledger, k, amount), sh.hist.frozenFor,
        sh.hist.minter) by { CreditKeepsLedger(sh, k, amount); }
    CreditOpening(sh, oid, k, amount);
    CreditOrders(sh, oid, k, amount);
    CreditBooks(sh.ledger, k, amount);
    PaymentFits(sh, t, Payment(oid, Wallet(k), amount), L.DoCredit(sh.ledger, k, amount).credits);
  }

  lemma CreditKeepsLedger(sh: Shared, k: L.Account, amount: int)
    requires LedgerOk(sh.ledger, sh.hist.frozenFor, sh.hist.minter) && 0 <= amount
    ensures LedgerOk(L.DoCredit(sh.ledger, k, amount), sh.hist.frozenFor, sh.hist.minter)
  {
    hide L.Sound;
    L.CreditSound(sh.ledger, k, amount);
  }

  lemma CreditBooks(l: L.Ledger, k: L.Account, amount: int)
    ensures forall x ::
              L.Get(L.DoCredit(l, k, amount).credits, x) == L.Get(l.credits, x) + (if x == k then amount else 0)
  {
  }

  /** A payment made by the refund of a REFUNDING order, or a credit by a close. */
  lemma PaymentFits(sh: Shared, t: Tid, p: Payment, credits: map<L.Account, int>)
    requires PaymentsOk(sh.repo.orders, sh.hist.trail.refunds, sh.hist.trail.payments, sh.ledger.credits)
    requires forall k ::
               L.Get(credits, k) == L.Get(sh.ledger.credits, k) + (if p.payee == Wallet(k) then p.amount else 0)
    requires MayPay(sh, t, p.order) && (p.payee.Channel? ==> RefundsIt(sh, t, p.order))
    requires p.payee.Wallet? && !sh.repo.orders[p.order].scene.allowClose ==>
               p.payee.account == AccountOf(sh.repo.orders[p.order])
    ensures var payments := sh.hist.trail.payments + [p];
            && PaymentsOk(sh.repo.orders, sh.hist.trail.refunds, payments, credits)
            && RefundUndisturbed(sh.repo.orders, sh.repo.orders, sh.hist.trail, sh.hist.trail.(payments := payments), t)
  {
    hide AccountOf, CreditedTo, ChannelledTo, PaidInto, RefundsFit, L.Get;
    var before, trail := sh.hist.trail.payments, sh.hist.trail;
    forall oid | oid in sh.repo.orders
      ensures RefundsFit(sh.repo.orders[oid], RefundsOf(trail.refunds, oid), before + [p], oid)
    {
      OnePaid(sh.repo.orders[oid], RefundsOf(trail.refunds, oid), before, p, oid);
    }
    forall k ensures L.Get(credits, k) == PaidInto(before + [p], k) {
      assert L.Get(sh.ledger.credits, k) == PaidInto(before, k);
      PaymentAdded(before, p, p.order, k);
    }
    forall oid | oid in sh.repo.orders && !(p.order == oid && RefundsIt(sh, t, oid))
      ensures ChannelledTo(before + [p], oid) == ChannelledTo(before, oid)
      ensures !sh.repo.orders[oid].scene.allowClose ==> CreditedTo(before + [p], oid) == CreditedTo(before, oid)
    {
      PaymentAdded(before, p, oid, L.Account("", "", ""));
    }
  }

  lemma OnePaid(o: Order, rs: seq<I64>, payments: seq<Payment>, p: Payment, oid: OrderId)
    requires RefundsFit(o, rs, payments, oid)
    requires p.order == oid ==> o.status == Refunding || (o.scene.allowClose && p.payee.Wallet?)
    requires p.order == oid && p.payee.Wallet? && !o.scene.allowClose ==> p.payee.account == AccountOf(o)
    ensures RefundsFit(o, rs, payments + [p], oid)
  {
    hide AccountOf, CreditedTo, ChannelledTo, LedgerDues, ChannelDues, Sum;
    PaymentAdded(payments, p, oid, L.Account("", "", ""));
  }

  /** Money goes back through the channel for a refund in progress. */
  lemma PayChannelOk(sh: Shared, t: Tid, oid: OrderId, amount: int)
    requires SharedOk(sh) && RefundsIt(sh, t, oid)
    ensures var b := PayChannel(sh, oid, amount);
            && SharedOk(b) && Guarantee(sh, b, t)
  {
    hide OrdersOk, IndexOk, LogOk, LedgerOk, OpeningOk, FreezeCallsOk, OfferOk, OfferCallsOk, TicketsOk, CompensatingOk,
      AdvancesOk, PaymentsOk;
    hide OrdersEvolve, RefundUndisturbed, MintUndisturbed, ReleasesJustified, FreezesGrow, OfferGrows, TicketsGrow,
      RecordsGrow, HeldShrinks;
    Stays(sh, t);
    PaymentFits(sh, t, Payment(oid, Channel, amount), sh.ledger.credits);
    ChannelOrders(sh, oid, amount);
  }

  lemma ChannelOrders(sh: Shared, oid: OrderId, amount: int)
    requires OrdersOk(sh.repo.orders, sh.hist, sh.ledger, sh.offer)
    ensures var b := PayChannel(sh, oid, amount); OrdersOk(b.repo.orders, b.hist, b.ledger, b.offer)
  {
    hide FieldsOk, PathFits, HoldsReservation, HoldsRedemption, HoldsFreeze, CreditsWithin, CreditedTo;
    var payments, p := sh.hist.trail.payments, Payment(oid, Channel, amount);
    forall id | id in sh.repo.orders ensures CreditedTo(payments + [p], id) == CreditedTo(payments, id) {
      PaymentAdded(payments, p, id, L.Account("", "", ""));
    }
  }

  lemma CreditOpening(sh: Shared, oid: OrderId, k: L.Account, amount: int)
    requires OpeningOk(sh.ledger.opening, sh.repo.orders) && oid in sh.repo.orders
    requires (k in sh.ledger.opening || LooseOn(sh.repo.orders[oid], k))
    ensures OpeningOk(L.DoCredit(sh.ledger, k, amount).opening, sh.repo.orders)
  {
    hide LooseOn;
    if k !in sh.ledger.opening { assert LooselyCredited(sh.repo.orders, k); }
    hide LooselyCredited;
  }

  lemma CreditOrders(sh: Shared, oid: OrderId, k: L.Account, amount: int)
    requires OrdersOk(sh.repo.orders, sh.hist, sh.ledger, sh.offer) && oid in sh.repo.orders
    requires CreditsWithin(CreditedTo(sh.hist.trail.payments, oid) + amount, sh.repo.orders[oid])
    ensures var b := Credit(sh, oid, k, amount); OrdersOk(b.repo.orders, b.hist, b.ledger, b.offer)
  {
    hide FieldsOk, PathFits, HoldsReservation, HoldsRedemption, HoldsFreeze, CreditsWithin, CreditedTo;
    var payments, p := sh.hist.trail.payments, Payment(oid, Wallet(k), amount);
    forall id | id in sh.repo.orders
      ensures CreditedTo(payments + [p], id) == CreditedTo(payments, id) + (if id == oid then amount else 0)
    {
      PaymentAdded(payments, p, id, k);
    }
  }

  lemma CommitOk(sh: Shared, t: Tid, r: RsvId)
    requires SharedOk(sh)
    requires r.order in sh.repo.orders && Settled(sh.repo.orders[r.order].status)
    ensures var b := Commit(sh, r).0;
            && SharedOk(b) && Guarantee(sh, b, t)
            && sh.hist.commits <= b.hist.commits
            && (Commit(sh, r).1.Ok? ==> Commit(sh, r).1.value == Rd(r) && Rd(r) in b.offer.redeem)
  {
    hide OrdersOk, IndexOk, LogOk, LedgerOk, OpeningOk, FreezeCallsOk, OfferOk, OfferCallsOk, TicketsOk, CompensatingOk,
      AdvancesOk, PaymentsOk;
    hide OrdersEvolve, RefundUndisturbed, MintUndisturbed, ReleasesJustified, FreezesGrow, OfferGrows, TicketsGrow,
      RecordsGrow, HeldShrinks;
    Stays(sh, t);
    CommitParts(sh, t, r);
    CallsGrow(sh.repo.orders, sh.hist.path, sh.hist.captures, sh.hist.captures, sh.offer, Commit(sh, r).0.offer);
    CommitOrders(sh, t, r);
  }

  lemma CommitParts(sh: Shared, t: Tid, r: RsvId)
    requires OfferOk(sh.offer, |sh.hist.minter|, sh.hist.commits, sh.hist.frees)
    requires OfferCallsOk(sh.repo.orders, sh.hist.commits, sh.hist.frees)
    requires r.order in sh.repo.orders && Settled(sh.repo.orders[r.order].status)
    ensures var b := Commit(sh, r).0;
            && OfferOk(b.offer, |b.hist.minter|, b.hist.commits, b.hist.frees)
            && OfferCallsOk(b.repo.orders, b.hist.commits, b.hist.frees)
            && MintUndisturbed(sh.repo.orders, b.repo.orders, sh.hist.minter, b.hist.minter,
                               sh.offer.resv, b.offer.resv, sh.hist.frees, b.hist.frees, t)
            && OfferGrows(sh.offer, b.offer)
            && sh.hist.commits <= b.hist.commits
            && (Commit(sh, r).1.Ok? ==> Commit(sh, r).1.value == Rd(r) && Rd(r) in b.offer.redeem)
  {
    hide OfferOk, OfferGrows;
    CommitOffer(sh, r);
  }

  lemma CommitOffer(sh: Shared, r: RsvId)
    requires OfferOk(sh.offer, |sh.hist.minter|, sh.hist.commits, sh.hist.frees)
    ensures var (b, id) := Commit(sh, r);
            && OfferOk(b.offer, |b.hist.minter|, b.hist.commits, b.hist.frees)
            && OfferGrows(sh.offer, b.offer)
            && b.offer.resv.Keys == sh.offer.resv.Keys
            && (id.Ok? ==> id.value == Rd(r) && Rd(r) in b.offer.redeem)
  {
    hide F.Sound, OfferGrows;
    F.CommitSound(sh.offer, r);
    CommitGrows(sh.offer, r);
  }

  lemma CommitGrows(o: F.Offer, r: RsvId)
    requires F.Sound(o)
    ensures OfferGrows(o, F.DoCommit(o, r).0)
  {
    hide F.Sound, F.RedemptionsGrow;
    F.CommitSound(o, r);
  }

  lemma CommitOrders(sh: Shared, t: Tid, r: RsvId)
    requires OrdersOk(sh.repo.orders, sh.hist, sh.ledger, sh.offer)
    requires TicketsOk(sh.repo.tickets, sh.repo.orders, sh.ledger.freezes, sh.offer, sh.held)
    requires r.order in sh.repo.orders && Settled(sh.repo.orders[r.order].status)
    requires OfferGrows(sh.offer, Commit(sh, r).0.offer)
    ensures var b := Commit(sh, r).0;
            && OrdersOk(b.repo.orders, b.hist, b.ledger, b.offer)
            && TicketsOk(b.repo.tickets, b.repo.orders, b.ledger.freezes, b.offer, b.held)
  {
    hide FieldsOk, PathFits, HoldsFreeze, CreditsWithin;
  }

  predicate MayReleaseReservation(sh: Shared, t: Tid, r: RsvId) {
    && r.order < |sh.hist.minter|
    && if r.order in sh.repo.orders then MayFree(sh.repo.orders[r.order]) else sh.hist.minter[r.order] == t
  }

  lemma ReleaseReservationOk(sh: Shared, t: Tid, r: RsvId)
    requires SharedOk(sh) && MayReleaseReservation(sh, t, r)
    ensures var b := ReleaseReservation(sh, r);
            && SharedOk(b) && Guarantee(sh, b, t)
            && (r in b.offer.resv ==> b.offer.resv[r].status == F.Released)
  {
    hide OrdersOk, IndexOk, LogOk, LedgerOk, OpeningOk, FreezeCallsOk, OfferOk, OfferCallsOk, TicketsOk, CompensatingOk,
      AdvancesOk, PaymentsOk;
    hide OrdersEvolve, RefundUndisturbed, MintUndisturbed, ReleasesJustified, FreezesGrow, OfferGrows, TicketsGrow,
      RecordsGrow, HeldShrinks;
    Stays(sh, t);
    ReleaseReservationParts(sh, t, r);
    ReleaseReservationOrders(sh, t, r);
  }

  lemma ReleaseReservationParts(sh: Shared, t: Tid, r: RsvId)
    requires OfferOk(sh.offer, |sh.hist.minter|, sh.hist.commits, sh.hist.frees)
    requires OfferCallsOk(sh.repo.orders, sh.hist.commits, sh.hist.frees)
    requires MayReleaseReservation(sh, t, r)
    ensures var b := ReleaseReservation(sh, r);
            && OfferOk(b.offer, |b.hist.minter|, b.hist.commits, b.hist.frees)
            && OfferCallsOk(b.repo.orders, b.hist.commits, b.hist.frees)
            && MintUndisturbed(sh.repo.orders, b.repo.orders, sh.hist.minter, b.hist.minter,
                               sh.offer.resv, b.offer.resv, sh.hist.frees, b.hist.frees, t)
            && OfferGrows(sh.offer, b.offer)
            && (r in b.offer.resv ==> b.offer.resv[r].status == F.Released)
  {
    hide F.Sound;
    F.ReleaseSound(sh.offer, r);
  }

  lemma ReleaseReservationOrders(sh: Shared, t: Tid, r: RsvId)
    requires OrdersOk(sh.repo.orders, sh.hist, sh.ledger, sh.offer)
    requires TicketsOk(sh.repo.tickets, sh.repo.orders, sh.ledger.freezes, sh.offer, sh.held)
    requires MayReleaseReservation(sh, t, r)
    ensures var b := ReleaseReservation(sh, r);
            && OrdersOk(b.repo.orders, b.hist, b.ledger, b.offer)
            && TicketsOk(b.repo.tickets, b.repo.orders, b.ledger.freezes, b.offer, b.held)
  {
    hide FieldsOk, PathFits, HoldsFreeze, CreditsWithin;
  }

  lemma ReverseOk(sh: Shared, t: Tid, id: RedId, amount: I64)
    requires SharedOk(sh)
    ensures var (b, r) := Reverse(sh, id, amount);
            && SharedOk(b) && Guarantee(sh, b, t)
            && (r.Ok? && amount <= 0 ==>
                 id in b.offer.redeem && b.offer.redeem[id].reversed >= b.offer.redeem[id].discount)
  {
    hide OrdersOk, IndexOk, LogOk, LedgerOk, OpeningOk, FreezeCallsOk, OfferOk, OfferCallsOk, TicketsOk, CompensatingOk,
      AdvancesOk, PaymentsOk;
    hide OrdersEvolve, RefundUndisturbed, MintUndisturbed, ReleasesJustified, FreezesGrow, OfferGrows, TicketsGrow,
      RecordsGrow, HeldShrinks;
    Stays(sh, t);
    ReverseParts(sh, t, id, amount);
    CallsGrow(sh.repo.orders, sh.hist.path, sh.hist.captures, sh.hist.captures, sh.offer,
        Reverse(sh, id, amount).0.offer);
    ReverseOrders(sh, t, id, amount);
  }

  lemma ReverseParts(sh: Shared, t: Tid, id: RedId, amount: I64)
    requires OfferOk(sh.offer, |sh.hist.minter|, sh.hist.commits, sh.hist.frees)
    ensures var b := Reverse(sh, id, amount).0;
            && OfferOk(b.offer, |b.hist.minter|, b.hist.commits, b.hist.frees)
            && MintUndisturbed(sh.repo.orders, b.repo.orders, sh.hist.minter, b.hist.minter,
                               sh.offer.resv, b.offer.resv, sh.hist.frees, b.hist.frees, t)
            && OfferGrows(sh.offer, b.offer)
            && (Reverse(sh, id, amount).1.Ok? && amount <= 0 ==>
                 id in b.offer.redeem && b.offer.redeem[id].reversed >= b.offer.redeem[id].discount)
  {
    hide F.Sound;
    F.ReverseSound(sh.offer, id, amount);
  }

  lemma ReverseOrders(sh: Shared, t: Tid, id: RedId, amount: I64)
    requires OrdersOk(sh.repo.orders, sh.hist, sh.ledger, sh.offer)
    requires TicketsOk(sh.repo.tickets, sh.repo.orders, sh.ledger.freezes, sh.offer, sh.held)
    requires OfferGrows(sh.offer, Reverse(sh, id, amount).0.offer)
    ensures var b := Reverse(sh, id, amount).0;
            && OrdersOk(b.repo.orders, b.hist, b.ledger, b.offer)
            && TicketsOk(b.repo.tickets, b.repo.orders, b.ledger.freezes, b.offer, b.held)
  {
    hide FieldsOk, PathFits, HoldsFreeze, CreditsWithin;
  }

  /** Inventory is held for an order that is not stored yet, or not cancelled. */
  lemma HoldOk(sh: Shared, t: Tid, oid: OrderId)
    requires SharedOk(sh) && (oid in sh.repo.orders ==> sh.repo.orders[oid].status != Cancelled)
    ensures SharedOk(Hold(sh, oid)) && Guarantee(sh, Hold(sh, oid), t)
  {
    hide OrdersOk, IndexOk, LogOk, LedgerOk, OpeningOk, FreezeCallsOk, OfferOk, OfferCallsOk, TicketsOk, CompensatingOk,
      AdvancesOk, PaymentsOk;
    hide OrdersEvolve, RefundUndisturbed, MintUndisturbed, ReleasesJustified, FreezesGrow, OfferGrows, TicketsGrow,
      RecordsGrow, HeldShrinks;
    Stays(sh, t);
    HeldParts(sh, Hold(sh, oid));
  }

  lemma UnholdOk(sh: Shared, t: Tid, oid: OrderId)
    requires SharedOk(sh)
    ensures SharedOk(Unhold(sh, oid)) && Guarantee(sh, Unhold(sh, oid), t)
  {
    hide OrdersOk, IndexOk, LogOk, LedgerOk, OpeningOk, FreezeCallsOk, OfferOk, OfferCallsOk, TicketsOk, CompensatingOk,
      AdvancesOk, PaymentsOk;
    hide OrdersEvolve, RefundUndisturbed, MintUndisturbed, ReleasesJustified, FreezesGrow, OfferGrows, TicketsGrow,
      RecordsGrow, HeldShrinks;
    Stays(sh, t);
    HeldParts(sh, Unhold(sh, oid));
  }

  lemma HeldParts(sh: Shared, b: Shared)
    requires TicketsOk(sh.repo.tickets, sh.repo.orders, sh.ledger.freezes, sh.offer, sh.held)
    requires forall id ::
               id in b.held && id !in sh.held && id in sh.repo.orders ==> sh.repo.orders[id].status != Cancelled
    ensures HeldShrinks(sh.repo.orders, sh.held, b.held)
    ensures TicketsOk(sh.repo.tickets, sh.repo.orders, sh.ledger.freezes, sh.offer, b.held)
  {
    hide KindOk;
  }

  // ---------------------------------------------------------------------------
  // Tickets and the redemption id
  // ---------------------------------------------------------------------------

  lemma InsertTicketOk(sh: Shared, t: Tid, kind: TicketKind, out: Outcome)
    requires SharedOk(sh) && KindOk(sh.repo.orders, kind)
    ensures var b := InsertTicket(sh, kind, out);
            && SharedOk(b) && Guarantee(sh, b, t)
            && (sh.reliable ==> HasTicket(b.repo.tickets, kind))
  {
    hide OrdersOk, IndexOk, LogOk, LedgerOk, OpeningOk, FreezeCallsOk, OfferOk, OfferCallsOk, TicketsOk, CompensatingOk,
      AdvancesOk, PaymentsOk;
    hide OrdersEvolve, RefundUndisturbed, MintUndisturbed, ReleasesJustified, FreezesGrow, OfferGrows, TicketsGrow,
      RecordsGrow, HeldShrinks;
    Stays(sh, t);
    InsertTicketParts(sh, t, kind, out);
  }

  lemma InsertTicketParts(sh: Shared, t: Tid, kind: TicketKind, out: Outcome)
    requires TicketsOk(sh.repo.tickets, sh.repo.orders, sh.ledger.freezes, sh.offer, sh.held)
    requires CompensatingOk(sh.reliable, sh.repo.orders, sh.repo.tickets)
    requires KindOk(sh.repo.orders, kind)
    ensures var b := InsertTicket(sh, kind, out);
            && TicketsOk(b.repo.tickets, b.repo.orders, b.ledger.freezes, b.offer, b.held)
            && CompensatingOk(b.reliable, b.repo.orders, b.repo.tickets)
            && TicketsGrow(sh.repo.tickets, b.repo.tickets)
            && (sh.reliable ==> HasTicket(b.repo.tickets, kind))
  {
    hide KindOk, Resolved;
    var b := InsertTicket(sh, kind, out);
    if b != sh {
      assert b.repo.tickets[|sh.repo.tickets|].kind == kind;
      TicketsKept(sh.repo.tickets, b.repo.tickets);
    }
  }

  /** Tickets are never removed and never change their purpose. */
  lemma TicketsKept(a: seq<Ticket>, b: seq<Ticket>)
    requires TicketsGrow(a, b)
    ensures forall kind :: HasTicket(a, kind) ==> HasTicket(b, kind)
  {
    forall kind | HasTicket(a, kind) ensures HasTicket(b, kind)
    {
      var i :| 0 <= i < |a| && a[i].kind == kind;
      assert b[i].kind == kind;
    }
  }

  lemma SetTicketOk(sh: Shared, t: Tid, i: nat, status: TicketStatus)
    requires SharedOk(sh)
    requires i < |sh.repo.tickets|
    requires status == Done ==> Resolved(sh.repo.orders, sh.ledger.freezes, sh.offer, sh.held, sh.repo.tickets[i].kind)
    ensures var b := SetTicket(sh, i, status);
            && SharedOk(b) && Guarantee(sh, b, t)
  {
    hide OrdersOk, IndexOk, LogOk, LedgerOk, OpeningOk, FreezeCallsOk, OfferOk, OfferCallsOk, TicketsOk, CompensatingOk,
      AdvancesOk, PaymentsOk;
    hide OrdersEvolve, RefundUndisturbed, MintUndisturbed, ReleasesJustified, FreezesGrow, OfferGrows, TicketsGrow,
      RecordsGrow, HeldShrinks;
    Stays(sh, t);
    SetTicketParts(sh, t, i, status);
  }

  lemma SetTicketParts(sh: Shared, t: Tid, i: nat, status: TicketStatus)
    requires TicketsOk(sh.repo.tickets, sh.repo.orders, sh.ledger.freezes, sh.offer, sh.held)
    requires CompensatingOk(sh.reliable, sh.repo.orders, sh.repo.tickets)
    requires i < |sh.repo.tickets|
    requires status == Done ==> Resolved(sh.repo.orders, sh.ledger.freezes, sh.offer, sh.held, sh.repo.tickets[i].kind)
    ensures var b := SetTicket(sh, i, status);
            && TicketsOk(b.repo.tickets, b.repo.orders, b.ledger.freezes, b.offer, b.held)
            && CompensatingOk(b.reliable, b.repo.orders, b.repo.tickets)
            && TicketsGrow(sh.repo.tickets, b.repo.tickets)
  {
    hide KindOk, Resolved;
    TicketsKept(sh.repo.tickets, SetTicket(sh, i, status).repo.tickets);
  }

  lemma UpdateRedemptionOk(sh: Shared, t: Tid, oid: OrderId, id: RedId)
    requires SharedOk(sh)
    requires oid in sh.repo.orders && sh.repo.orders[oid].reservation.Some?
    requires id == Rd(Rsv(oid)) && id in sh.offer.redeem
    ensures var b := UpdateRedemption(sh, oid, id);
            && SharedOk(b) && Guarantee(sh, b, t)
  {
    hide OrdersOk, IndexOk, LogOk, LedgerOk, OpeningOk, FreezeCallsOk, OfferOk, OfferCallsOk, TicketsOk, CompensatingOk,
      AdvancesOk, PaymentsOk;
    hide OrdersEvolve, RefundUndisturbed, MintUndisturbed, ReleasesJustified, FreezesGrow, OfferGrows, TicketsGrow,
      RecordsGrow, HeldShrinks;
    Stays(sh, t);
    RedeemedAdvances(sh, oid, id);
    RedeemedPayments(sh, oid, id);
    UpdateRedemptionParts(sh, t, oid, id);
    UpdateRedemptionIndex(sh, oid, id);
    UpdateRedemptionRules(sh, oid, id);
  }

  lemma RedeemedAdvances(sh: Shared, oid: OrderId, id: RedId)
    requires AdvancesOk(sh.repo.orders, sh.hist.path, sh.hist.captures, sh.offer.redeem) && oid in sh.repo.orders
    ensures AdvancesOk(UpdateRedemption(sh, oid, id).repo.orders, sh.hist.path, sh.hist.captures, sh.offer.redeem)
  {
    hide Advanced, Routed;
  }

  lemma RedeemedPayments(sh: Shared, oid: OrderId, id: RedId)
    requires PaymentsOk(sh.repo.orders, sh.hist.trail.refunds, sh.hist.trail.payments, sh.ledger.credits)
    requires oid in sh.repo.orders
    ensures PaymentsOk(UpdateRedemption(sh, oid, id).repo.orders, sh.hist.trail.refunds, sh.hist.trail.payments,
              sh.ledger.credits)
  {
    hide CreditedTo, ChannelledTo, PaidInto, LedgerDues, ChannelDues, Sum, L.Get;
    assert RefundsFit(sh.repo.orders[oid], RefundsOf(sh.hist.trail.refunds, oid), sh.hist.trail.payments, oid);
  }

  lemma UpdateRedemptionParts(sh: Shared, t: Tid, oid: OrderId, id: RedId)
    requires OrdersOk(sh.repo.orders, sh.hist, sh.ledger, sh.offer)
    requires oid in sh.repo.orders && sh.repo.orders[oid].reservation.Some?
    requires id == Rd(Rsv(oid)) && id in sh.offer.redeem
    ensures var b := UpdateRedemption(sh, oid, id);
            && OrdersOk(b.repo.orders, b.hist, b.ledger, b.offer)
            && OrdersEvolve(sh.repo.orders, b.repo.orders)
            && RefundUndisturbed(sh.repo.orders, b.repo.orders, sh.hist.trail, b.hist.trail, t)
            && MintUndisturbed(sh.repo.orders, b.repo.orders, sh.hist.minter, b.hist.minter,
                               sh.offer.resv, b.offer.resv, sh.hist.frees, b.hist.frees, t)
  {
    hide OrderOk, Evolves;
    var a, o := sh.repo.orders, sh.repo.orders[oid].(redemption := Some(id));
    assert OrderOk(sh.hist, sh.ledger, sh.offer, oid, a[oid]);
    RedeemedOrder(sh, oid, a[oid], id);
    forall x | x in a ensures Evolves(a[x], a[oid := o][x]) { OrderItself(a[x]); }
  }

  lemma OrderItself(o: Order)
    ensures Evolves(o, o)
  {
  }

  lemma RedeemedOrder(sh: Shared, oid: OrderId, o: Order, id: RedId)
    requires OrderOk(sh.hist, sh.ledger, sh.offer, oid, o) && o.reservation.Some? && id == Rd(Rsv(oid))
    requires id in sh.offer.redeem
    ensures OrderOk(sh.hist, sh.ledger, sh.offer, oid, o.(redemption := Some(id)))
    ensures Evolves(o, o.(redemption := Some(id)))
  {
    hide PathFits, HoldsReservation, MoneyByStatus;
  }

  lemma UpdateRedemptionIndex(sh: Shared, oid: OrderId, id: RedId)
    requires IndexOk(sh.repo.orders, sh.repo.client, sh.repo.idem, sh.hist.idemOf)
    requires LogOk(sh.repo.orders, sh.repo.log, sh.hist.path)
    requires oid in sh.repo.orders
    ensures var b := UpdateRedemption(sh, oid, id);
            && IndexOk(b.repo.orders, b.repo.client, b.repo.idem, b.hist.idemOf)
            && LogOk(b.repo.orders, b.repo.log, b.hist.path)
  {
    hide IndexOk, EventsFor, Trace;
    assert UpdateRedemption(sh, oid, id).repo.orders.Keys == sh.repo.orders.Keys;
    MoveIndex(sh.repo.orders, oid, sh.repo.orders[oid].(redemption := Some(id)), sh);
  }

  /** The indexes only look at the terms of an order. */
  lemma MoveIndex(a: OrderMap, oid: OrderId, o: Order, sh: Shared)
    requires oid in a && SameTerms(a[oid], o) && IndexOk(a, sh.repo.client, sh.repo.idem, sh.hist.idemOf)
    ensures IndexOk(a[oid := o], sh.repo.client, sh.repo.idem, sh.hist.idemOf)
  {
    hide ClientsIndexed, RecordsFit;
    MoveClients(a, oid, o, sh.repo.client);
    MoveRecords(a, oid, o, sh.repo.idem);
  }

  lemma MoveClients(a: OrderMap, oid: OrderId, o: Order, client: map<ClientKey, OrderId>)
    requires oid in a && SameTerms(a[oid], o) && ClientsIndexed(a, client)
    ensures ClientsIndexed(a[oid := o], client)
  {
  }

  lemma MoveRecords(a: OrderMap, oid: OrderId, o: Order, idem: map<IdemKey, IdemRecord>)
    requires oid in a && SameTerms(a[oid], o) && RecordsFit(a, idem)
    ensures RecordsFit(a[oid := o], idem)
  {
    forall k | k in idem ensures RecordFits(a[oid := o], k, idem[k]) {
      assert RecordFits(a, k, idem[k]);
    }
  }

  /** Status, scene and freeze of every order are the same, so are the rules that only look at those. */
  lemma UpdateRedemptionRules(sh: Shared, oid: OrderId, id: RedId)
    requires SharedOk(sh) && oid in sh.repo.orders
    ensures var b := UpdateRedemption(sh, oid, id);
            && OpeningOk(b.ledger.opening, b.repo.orders)
            && FreezeCallsOk(b.repo.orders, b.hist.frozenFor, b.hist.captures, b.hist.releases)
            && OfferCallsOk(b.repo.orders, b.hist.commits, b.hist.frees)
            && TicketsOk(b.repo.tickets, b.repo.orders, b.ledger.freezes, b.offer, b.held)
            && CompensatingOk(b.reliable, b.repo.orders, b.repo.tickets)
  {
    hide OrdersOk, IndexOk, LogOk, LedgerOk, OpeningOk, OfferOk, AdvancesOk, PaymentsOk, HasTicket;
    OpeningMoved(sh.ledger.opening, sh.repo.orders, oid, sh.repo.orders[oid].(redemption := Some(id)));
  }

  lemma OpeningMoved(opening: map<L.Account, int>, a: OrderMap, oid: OrderId, o: Order)
    requires oid in a && SameTerms(a[oid], o) && OpeningOk(opening, a)
    ensures OpeningOk(opening, a[oid := o])
  {
    forall k | k in opening && opening[k] != L.DEFAULT_BALANCE ensures LooselyCredited(a[oid := o], k) {
      assert LooselyCredited(a, k);
      var loose :| loose in a && LooseOn(a[loose], k);
      assert LooseOn(a[oid := o][loose], k);
    }
  }
}

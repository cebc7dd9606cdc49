/** The steps of the compensation worker and of reconciliation. */
module SagaWorkerSteps {
  import opened Base
  import opened Int64
  import opened Amounts
  import opened Orders
  import opened SagaState
  import opened SagaProgram
  import opened SagaInvariant
  import opened SagaCalls
  import opened SagaStore
  import opened SagaStability
  import opened SagaSteps
  import L = Ledger
  import F = Offer

  lemma TicketFacts(sh: Shared, i: nat)
    requires SharedOk(sh) && i < |sh.repo.tickets|
    ensures KindOk(sh.repo.orders, sh.repo.tickets[i].kind)
  {
    hide OrdersOk, IndexOk, LogOk, LedgerOk, OpeningOk, FreezeCallsOk, OfferOk, OfferCallsOk, CompensatingOk,
      AdvancesOk, PaymentsOk, KindOk, Resolved;
  }

  lemma TicketStepOk(sh: Shared, t: Tid, pc: Pc, out: Outcome)
    requires SharedOk(sh) && InTicket(pc) && TicketCallOk(sh, t, pc)
    ensures var (b, next) := TicketStep(sh, t, pc, out); SharedOk(b) && Guarantee(sh, b, t) && CallOk(b, t, next)
  {
    hide SharedOk, Guarantee, TicketStep, CallOk, Resolved;
    if pc.TkClaim? { var TkClaim(i) := pc; ClaimStep(sh, t, i, out); }
    else if pc.TkFind? { var TkFind(i) := pc; FindStep(sh, t, i, out); }
    else if pc.TkOffer? { var TkOffer(i, rsv) := pc; TicketOfferStep(sh, t, i, rsv, out); }
    else if pc.TkLedger? { var TkLedger(i, freeze) := pc; TicketLedgerStep(sh, t, i, freeze, out); }
    else if pc.TkFulfil? { var TkFulfil(i, oid) := pc; TicketFulfilStep(sh, t, i, oid, out); }
    else if pc.TkReverse? { var TkReverse(i, redemption) := pc; TicketReverseStep(sh, t, i, redemption, out); }
    else if pc.TkEnd? { var TkEnd(i, ok) := pc; TicketEndStep(sh, t, i, ok, out); }
  }

  lemma HandlerStarts(sh: Shared, t: Tid, i: nat, kind: TicketKind)
    requires i < |sh.repo.tickets| && sh.repo.tickets[i].kind == kind
    ensures CallOk(sh, t, Handler(i, kind))
  {
    hide CheckoutCallOk, AfterCallOk, CancelCallOk, RefundCallOk, CloseCallOk, ReconCallOk;
  }

  lemma ClaimStep(sh: Shared, t: Tid, i: nat, out: Outcome)
    requires SharedOk(sh)
    ensures var (b, next) := TicketStep(sh, t, TkClaim(i), out);
            SharedOk(b) && Guarantee(sh, b, t) && CallOk(b, t, next)
  {
    hide SharedOk, Guarantee, CallOk, Resolved, Handler;
    Stays(sh, t);
    Ended(sh, t);
    if i < |sh.repo.tickets| {
      SetTicketOk(sh, t, i, Running);
      HandlerStarts(SetTicket(sh, i, Running), t, i, sh.repo.tickets[i].kind);
    }
  }

  lemma FindStep(sh: Shared, t: Tid, i: nat, out: Outcome)
    requires SharedOk(sh)
    ensures var (b, next) := TicketStep(sh, t, TkFind(i), out); SharedOk(b) && Guarantee(sh, b, t) && CallOk(b, t, next)
  {
    hide SharedOk, Guarantee, CallOk, Handler;
    Stays(sh, t);
    Ended(sh, t);
    if i < |sh.repo.tickets| {
      HandlerStarts(sh, t, i, sh.repo.tickets[i].kind);
    }
  }

  lemma EndsFailed(sh: Shared, t: Tid, i: nat)
    requires i < |sh.repo.tickets|
    ensures CallOk(sh, t, TkEnd(i, false))
  {
    hide CheckoutCallOk, PayCallOk, AfterCallOk, CancelCallOk, RefundCallOk, CloseCallOk, ReconCallOk;
  }

  lemma EndsResolved(sh: Shared, t: Tid, i: nat)
    requires i < |sh.repo.tickets|
    requires Resolved(sh.repo.orders, sh.ledger.freezes, sh.offer, sh.held, sh.repo.tickets[i].kind)
    ensures CallOk(sh, t, TkEnd(i, true))
  {
    hide CheckoutCallOk, PayCallOk, AfterCallOk, CancelCallOk, RefundCallOk, CloseCallOk, ReconCallOk;
    hide Resolved;
  }

  lemma TicketOfferStep(sh: Shared, t: Tid, i: nat, rsv: RsvId, out: Outcome)
    requires SharedOk(sh) && TicketAt(sh, i, OfferRelease(rsv))
    ensures var (b, next) := TicketStep(sh, t, TkOffer(i, rsv), out);
            SharedOk(b) && Guarantee(sh, b, t) && CallOk(b, t, next)
  {
    hide SharedOk, Guarantee, CallOk, Resolved, ReleaseReservation, MayReleaseReservation;
    Stays(sh, t);
    ReservedOrder(sh, t, i, rsv);
    var b := ReleaseReservation(sh, rsv);
    ReleaseReservationOk(sh, t, rsv);
    ReleaseResolves(sh, i, rsv);
    EndsFailed(sh, t, i);
    EndsFailed(b, t, i);
    EndsResolved(b, t, i);
  }

  lemma ReleaseResolves(sh: Shared, i: nat, rsv: RsvId)
    requires TicketAt(sh, i, OfferRelease(rsv)) && rsv in sh.offer.resv
    ensures var b := ReleaseReservation(sh, rsv);
            b.repo == sh.repo && Resolved(b.repo.orders, b.ledger.freezes, b.offer, b.held, b.repo.tickets[i].kind)
  {
  }

  /** A release ticket names a stored order's own reservation, which may be released. */
  lemma ReservedOrder(sh: Shared, t: Tid, i: nat, rsv: RsvId)
    requires SharedOk(sh) && TicketAt(sh, i, OfferRelease(rsv))
    ensures rsv in sh.offer.resv && MayReleaseReservation(sh, t, rsv)
  {
    hide SharedOk, FieldsOk, PathFits, HoldsFreeze, HoldsRedemption, CreditsWithin, MayFree;
    TicketFacts(sh, i);
    OrderFacts(sh, rsv.order);
  }

  lemma TicketLedgerStep(sh: Shared, t: Tid, i: nat, freeze: Option<FreezeId>, out: Outcome)
    requires SharedOk(sh) && TicketCallOk(sh, t, TkLedger(i, freeze))
    ensures var (b, next) := TicketStep(sh, t, TkLedger(i, freeze), out);
            SharedOk(b) && Guarantee(sh, b, t) && CallOk(b, t, next)
  {
    hide SharedOk, Guarantee, CallOk, L.DoRelease;
    Stays(sh, t);
    TicketFacts(sh, i);
    FrozenOrder(sh, sh.repo.tickets[i].kind.order);
    var b := ReleaseFreeze(sh, freeze);
    ReleaseFreezeOk(sh, t, freeze);
    FreezeKept(sh, freeze);
    EndsFailed(sh, t, i);
    EndsFailed(b, t, i);
    EndsResolved(b, t, i);
  }

  lemma FrozenOrder(sh: Shared, oid: OrderId)
    requires SharedOk(sh) && oid in sh.repo.orders
    ensures var f := sh.repo.orders[oid].freeze;
            f.Some? ==>
              f.value < |sh.hist.frozenFor| && f.value < |sh.ledger.freezes| && sh.hist.frozenFor[f.value] == oid
  {
    hide SharedOk, FieldsOk, PathFits, HoldsReservation, HoldsRedemption, CreditsWithin;
    OrderFacts(sh, oid);
  }

  lemma FreezeKept(sh: Shared, f: Option<FreezeId>)
    ensures |ReleaseFreeze(sh, f).ledger.freezes| == |sh.ledger.freezes|
  {
  }

  lemma TicketFulfilStep(sh: Shared, t: Tid, i: nat, oid: OrderId, out: Outcome)
    requires SharedOk(sh) && TicketAt(sh, i, FulfilRelease(oid))
    ensures var (b, next) := TicketStep(sh, t, TkFulfil(i, oid), out);
            SharedOk(b) && Guarantee(sh, b, t) && CallOk(b, t, next)
  {
    hide SharedOk, Guarantee, CallOk, Resolved, KindOk;
    Stays(sh, t);
    TicketFacts(sh, i);
    UnholdOk(sh, t, oid);
    UnholdResolves(sh, i, oid);
    EndsFailed(sh, t, i);
    EndsFailed(Unhold(sh, oid), t, i);
    EndsResolved(Unhold(sh, oid), t, i);
  }

  lemma UnholdResolves(sh: Shared, i: nat, oid: OrderId)
    requires TicketAt(sh, i, FulfilRelease(oid)) && KindOk(sh.repo.orders, FulfilRelease(oid))
    ensures oid in sh.repo.orders
    ensures var b := Unhold(sh, oid);
            b.repo == sh.repo && Resolved(b.repo.orders, b.ledger.freezes, b.offer, b.held, b.repo.tickets[i].kind)
  {
  }

  lemma TicketReverseStep(sh: Shared, t: Tid, i: nat, redemption: RedId, out: Outcome)
    requires SharedOk(sh) && TicketAt(sh, i, OfferReverse(redemption))
    ensures var (b, next) := TicketStep(sh, t, TkReverse(i, redemption), out);
            SharedOk(b) && Guarantee(sh, b, t) && CallOk(b, t, next)
  {
    hide SharedOk, Guarantee, CallOk, F.DoReverse;
    Stays(sh, t);
    ReverseOk(sh, t, redemption, 0);
    var (b, r) := Reverse(sh, redemption, 0);
    EndsFailed(sh, t, i);
    EndsFailed(b, t, i);
    if r.Ok? { EndsResolved(b, t, i); }
  }

  lemma TicketEndStep(sh: Shared, t: Tid, i: nat, ok: bool, out: Outcome)
    requires SharedOk(sh) && TicketCallOk(sh, t, TkEnd(i, ok))
    ensures var (b, next) := TicketStep(sh, t, TkEnd(i, ok), out);
            SharedOk(b) && Guarantee(sh, b, t) && CallOk(b, t, next)
  {
    hide SharedOk, Guarantee, CallOk, Resolved;
    var status := if ok then Done else if out == Fail then Failed else Pending;
    SetTicketOk(sh, t, i, status);
    Ended(SetTicket(sh, i, status), t);
  }

  // ---------------------------------------------------------------------------
  // Reconciliation
  // ---------------------------------------------------------------------------

  lemma ReconStepOk(sh: Shared, t: Tid, pc: Pc, out: Outcome)
    requires SharedOk(sh) && InRecon(pc) && ReconCallOk(sh, t, pc)
    ensures var (b, next) := ReconStep(sh, t, pc, out); SharedOk(b) && Guarantee(sh, b, t) && CallOk(b, t, next)
  {
    hide SharedOk, Guarantee, ReconStep, CallOk, SnapOk, KindOk;
    if pc.RcRead? { var RcRead(oid) := pc; ReconReadStep(sh, t, oid, out); }
    else if pc.RcLookup? { var RcLookup(oid, snap) := pc; ReconLookupStep(sh, t, oid, snap, out); }
    else if pc.RcOpen? { var RcOpen(kind) := pc; ReconTicketStep(sh, t, kind, out); }
    else if pc.RcInsert? { var RcInsert(kind) := pc; ReconTicketStep(sh, t, kind, out); }
    else if pc.RcCommit? { var RcCommit(oid, rsv) := pc; ReconCommitStep(sh, t, oid, out); }
    else if pc.RcBackfill? { var RcBackfill(oid, id) := pc; ReconBackfillStep(sh, t, oid, out); }
  }

  lemma ReconReadStep(sh: Shared, t: Tid, oid: OrderId, out: Outcome)
    requires SharedOk(sh)
    ensures var (b, next) := ReconStep(sh, t, RcRead(oid), out);
            SharedOk(b) && Guarantee(sh, b, t) && CallOk(b, t, next)
  {
    hide SharedOk, Guarantee, SnapOk, CallOk, ReconStep;
    Stays(sh, t);
    Ended(sh, t);
    ReconReadLeadsTo(sh, t, oid, out);
    if oid in sh.repo.orders {
      ReadOk(sh, oid);
      Starts(sh, t, oid, sh.repo.orders[oid]);
    }
  }

  lemma ReconReadLeadsTo(sh: Shared, t: Tid, oid: OrderId, out: Outcome)
    ensures var r := ReconStep(sh, t, RcRead(oid), out);
            r == (sh, Returned) || (oid in sh.repo.orders && r == (sh, RcLookup(oid, sh.repo.orders[oid])))
  {
  }

  lemma ReconLookupStep(sh: Shared, t: Tid, oid: OrderId, snap: Order, out: Outcome)
    requires SharedOk(sh) && SnapOk(sh, oid, snap)
    ensures var (b, next) := ReconStep(sh, t, RcLookup(oid, snap), out);
            SharedOk(b) && Guarantee(sh, b, t) && CallOk(b, t, next)
  {
    hide SharedOk, Guarantee, SnapOk, CallOk, ReconStep, FreezeFits, LooseOn;
    Stays(sh, t);
    Ended(sh, t);
    SnapRefs(sh, oid, snap);
    OpensAfterPaid(sh, t, oid);
    LookupLeadsTo(sh, t, oid, snap, out);
    if snap.status in {Cancelled, Closed} && snap.reservation.Some? { OpensRelease(sh, t, oid, snap); }
    if snap.reservation.Some? && sh.offer.resv[Rsv(oid)].status == F.Committed { ReCommits(sh, t, oid); }
  }

  /** Looking up the reservation changes nothing and leads to one of three repairs or to the end. */
  lemma LookupLeadsTo(sh: Shared, t: Tid, oid: OrderId, snap: Order, out: Outcome)
    ensures var (b, next) := ReconStep(sh, t, RcLookup(oid, snap), out);
            && b == sh
            && (|| next == Returned
                || next == RcOpen(AfterPaid(oid))
                || (snap.reservation.Some? && snap.status in {Cancelled, Closed}
                     && next == RcOpen(OfferRelease(snap.reservation.value)))
                || (snap.reservation.Some? && snap.reservation.value in sh.offer.resv
                    && sh.offer.resv[snap.reservation.value].status == F.Committed
                    && next == RcCommit(oid, snap.reservation.value)))
  {
    hide PaidLike;
  }

  lemma OpensAfterPaid(sh: Shared, t: Tid, oid: OrderId)
    ensures CallOk(sh, t, RcOpen(AfterPaid(oid)))
  {
    hide CheckoutCallOk, PayCallOk, AfterCallOk, CancelCallOk, RefundCallOk, CloseCallOk, TicketCallOk;
  }

  lemma OpensRelease(sh: Shared, t: Tid, oid: OrderId, snap: Order)
    requires SnapOk(sh, oid, snap) && snap.status in {Cancelled, Closed} && snap.reservation == Some(Rsv(oid))
    ensures CallOk(sh, t, RcOpen(OfferRelease(Rsv(oid))))
  {
    hide CheckoutCallOk, PayCallOk, AfterCallOk, CancelCallOk, RefundCallOk, CloseCallOk, TicketCallOk;
  }

  lemma ReCommits(sh: Shared, t: Tid, oid: OrderId)
    requires SharedOk(sh) && Rsv(oid) in sh.offer.resv && sh.offer.resv[Rsv(oid)].status == F.Committed
    requires oid in sh.repo.orders && sh.repo.orders[oid].reservation.Some?
    ensures CallOk(sh, t, RcCommit(oid, Rsv(oid)))
  {
    hide CheckoutCallOk, PayCallOk, AfterCallOk, CancelCallOk, RefundCallOk, CloseCallOk, TicketCallOk, SharedOk;
    CommitIssued(sh, Rsv(oid));
  }

  lemma CommitIssued(sh: Shared, r: RsvId)
    requires SharedOk(sh) && r in sh.offer.resv && sh.offer.resv[r].status == F.Committed
    ensures r in sh.hist.commits
  {
    hide OrdersOk, IndexOk, LogOk, LedgerOk, OpeningOk, FreezeCallsOk, OfferCallsOk, TicketsOk, CompensatingOk,
      AdvancesOk, PaymentsOk, F.ReversedWithin;
  }

  lemma ReconTicketStep(sh: Shared, t: Tid, kind: TicketKind, out: Outcome)
    requires SharedOk(sh) && KindOk(sh.repo.orders, kind) && (kind.AfterPaid? || kind.OfferRelease?)
    ensures var (b, next) := ReconStep(sh, t, RcOpen(kind), out);
            SharedOk(b) && Guarantee(sh, b, t) && CallOk(b, t, next)
    ensures var (b, next) := ReconStep(sh, t, RcInsert(kind), out);
            SharedOk(b) && Guarantee(sh, b, t) && CallOk(b, t, next)
  {
    hide CheckoutCallOk, PayCallOk, AfterCallOk, CancelCallOk, RefundCallOk, CloseCallOk, TicketCallOk;
    hide SharedOk, Guarantee, KindOk, HasOpenTicket, InsertTicket, HasTicket;
    Stays(sh, t);
    InsertTicketOk(sh, t, kind, out);
  }

  lemma ReconCommitStep(sh: Shared, t: Tid, oid: OrderId, out: Outcome)
    requires SharedOk(sh) && ReconCallOk(sh, t, RcCommit(oid, Rsv(oid)))
    ensures var (b, next) := ReconStep(sh, t, RcCommit(oid, Rsv(oid)), out);
            SharedOk(b) && Guarantee(sh, b, t) && CallOk(b, t, next)
  {
    hide SharedOk, Guarantee, CallOk, F.DoCommit;
    Stays(sh, t);
    CommittedOrder(sh, Rsv(oid));
    CommitOk(sh, t, Rsv(oid));
    var (b, r) := Commit(sh, Rsv(oid));
    OpensAfterPaid(sh, t, oid);
    OpensAfterPaid(b, t, oid);
    if r.Ok? { Backfills(b, t, oid); }
  }

  lemma CommittedOrder(sh: Shared, r: RsvId)
    requires SharedOk(sh) && r in sh.hist.commits
    ensures r.order in sh.repo.orders && Settled(sh.repo.orders[r.order].status)
  {
    hide OrdersOk, IndexOk, LogOk, LedgerOk, OpeningOk, FreezeCallsOk, OfferOk, TicketsOk, CompensatingOk, AdvancesOk,
      PaymentsOk;
  }

  lemma Backfills(sh: Shared, t: Tid, oid: OrderId)
    requires Rd(Rsv(oid)) in sh.offer.redeem && oid in sh.repo.orders && sh.repo.orders[oid].reservation.Some?
    ensures CallOk(sh, t, RcBackfill(oid, Rd(Rsv(oid))))
  {
    hide CheckoutCallOk, PayCallOk, AfterCallOk, CancelCallOk, RefundCallOk, CloseCallOk, TicketCallOk;
  }

  lemma ReconBackfillStep(sh: Shared, t: Tid, oid: OrderId, out: Outcome)
    requires SharedOk(sh) && ReconCallOk(sh, t, RcBackfill(oid, Rd(Rsv(oid))))
    ensures var (b, next) := ReconStep(sh, t, RcBackfill(oid, Rd(Rsv(oid))), out);
            SharedOk(b) && Guarantee(sh, b, t) && CallOk(b, t, next)
  {
    hide SharedOk, Guarantee, CallOk, UpdateRedemption;
    Stays(sh, t);
    UpdateRedemptionOk(sh, t, oid, Rd(Rsv(oid)));
    Ended(sh, t);
    Ended(UpdateRedemption(sh, oid, Rd(Rsv(oid))), t);
  }
}

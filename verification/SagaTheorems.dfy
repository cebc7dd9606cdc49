/** What the saga guarantees in every state of every run. */
module SagaTheorems {
  import opened Base
  import opened Int64
  import opened Arith
  import opened Amounts
  import opened Orders
  import opened RefundRuns
  import opened SagaState
  import opened SagaProgram
  import opened SagaInvariant
  import opened SagaStore
  import opened SagaSteps
  import opened SagaRuns
  import L = Ledger
  import F = Offer

  /** Where a run from the empty system ends. */
  ghost function At(reliable: bool, acts: seq<Action>): State
    requires ValidRun(Initial(reliable), acts)
  {
    Final(Initial(reliable), acts)
  }

  lemma {:induction false} PrefixValid(s: State, acts: seq<Action>, i: nat)
    requires ValidRun(s, acts) && i <= |acts|
    ensures ValidRun(s, acts[..i])
    decreases |acts|
  {
    hide Enabled, Final;
    if i < |acts| {
      assert acts[..|acts| - 1][..i] == acts[..i];
      PrefixValid(s, acts[..|acts| - 1], i);
    } else {
      assert acts[..i] == acts;
    }
  }

  /** The state after the first `i` actions. */
  ghost function Moment(reliable: bool, acts: seq<Action>, i: nat): State
    requires ValidRun(Initial(reliable), acts) && i <= |acts|
  {
    PrefixValid(Initial(reliable), acts, i);
    At(reliable, acts[..i])
  }

  lemma Holds(reliable: bool, acts: seq<Action>)
    requires ValidRun(Initial(reliable), acts)
    ensures Inv(At(reliable, acts)) && SharedOk(At(reliable, acts).sh)
  {
    hide SharedOk, CallsOk, DebtsOk, RefundersOk, ValidRun;
    Reachable(reliable, acts);
  }

  // ---------------------------------------------------------------------------
  // Orders over time
  // ---------------------------------------------------------------------------

  lemma OrdersOnlyEvolve(s: State, a: Action)
    requires Inv(s) && Enabled(s, a)
    ensures OrdersEvolve(s.sh.repo.orders, Apply(s, a).sh.repo.orders)
  {
    hide SharedOk, CallOk, Exec, DebtOk, Entry, RefundUndisturbed, MintUndisturbed, ReleasesJustified, BooksGrow;
    match a
    case Spawn(t, entry) =>
    case Run(t, out) => ExecOk(s.sh, t, s.threads[t], out);
  }

  lemma EvolvesTransitive(o: Order, p: Order, q: Order)
    requires Evolves(o, p) && Evolves(p, q)
    ensures Evolves(o, q)
  {
  }

  /** An order once stored stays stored, on the same terms; its version only grows and fixes status and money. */
  lemma {:induction false} OrderEvolves(reliable: bool, acts: seq<Action>, i: nat, oid: OrderId)
    requires ValidRun(Initial(reliable), acts) && i <= |acts| && oid in Moment(reliable, acts, i).sh.repo.orders
    ensures oid in At(reliable, acts).sh.repo.orders
    ensures Evolves(Moment(reliable, acts, i).sh.repo.orders[oid], At(reliable, acts).sh.repo.orders[oid])
    decreases |acts|
  {
    hide Enabled, Apply, Evolves, Inv;
    if i == |acts| {
      assert acts[..i] == acts;
      SelfEvolves(At(reliable, acts).sh.repo.orders[oid]);
    } else {
      var before, a := acts[..|acts| - 1], acts[|acts| - 1];
      assert before[..i] == acts[..i];
      OrderEvolves(reliable, before, i, oid);
      var s := At(reliable, before);
      Reachable(reliable, before);
      OrdersOnlyEvolve(s, a);
      EvolvesTransitive(Moment(reliable, acts, i).sh.repo.orders[oid], s.sh.repo.orders[oid],
          Apply(s, a).sh.repo.orders[oid]);
    }
  }

  lemma SelfEvolves(o: Order)
    ensures Evolves(o, o)
  {
  }

  /** An order that is COMPENSATING with ledger money that was never frozen stays so, whatever is retried. */
  lemma UnfrozenStaysCompensating(reliable: bool, acts: seq<Action>, i: nat, oid: OrderId)
    requires ValidRun(Initial(reliable), acts) && i <= |acts| && oid in Moment(reliable, acts, i).sh.repo.orders
    requires Stuck(Moment(reliable, acts, i).sh.repo.orders[oid])
    ensures oid in At(reliable, acts).sh.repo.orders
    ensures var before, after := Moment(reliable, acts, i).sh.repo.orders[oid], At(reliable, acts).sh.repo.orders[oid];
            after.status == Compensating && after.version == before.version && after.amounts == before.amounts
  {
    hide At, Moment, ValidRun, SameTerms;
    OrderEvolves(reliable, acts, i, oid);
  }

  // ---------------------------------------------------------------------------
  // Exclusion
  // ---------------------------------------------------------------------------

  /** An order seen paid (or anything later) at one moment of a run is never seen cancelled at another. */
  lemma NeverPaidAndCancelled(reliable: bool, acts: seq<Action>, i: nat, j: nat, oid: OrderId)
    requires ValidRun(Initial(reliable), acts) && i <= |acts| && j <= |acts|
    requires oid in Moment(reliable, acts, i).sh.repo.orders && oid in Moment(reliable, acts, j).sh.repo.orders
    ensures !(Settled(Moment(reliable, acts, i).sh.repo.orders[oid].status)
              && Moment(reliable, acts, j).sh.repo.orders[oid].status == Cancelled)
  {
    hide At, Moment, ValidRun, SameTerms;
    OrderEvolves(reliable, acts, i, oid);
    OrderEvolves(reliable, acts, j, oid);
  }

  /** No freeze is both captured and released, and each call is only ever issued for a fitting order. */
  lemma CaptureExcludesRelease(reliable: bool, acts: seq<Action>)
    requires ValidRun(Initial(reliable), acts)
    ensures var h, orders := At(reliable, acts).sh.hist, At(reliable, acts).sh.repo.orders;
            && h.captures !! h.releases
            && (forall f ::
                 f in h.captures ==>
                 f < |h.frozenFor| && h.frozenFor[f] in orders && Settled(orders[h.frozenFor[f]].status))
            && (forall f ::
                 f in h.releases && f < |h.frozenFor| && h.frozenFor[f] in orders ==>
                 orders[h.frozenFor[f]].status == Cancelled)
  {
    hide At, ValidRun, CallsOk, DebtsOk, RefundersOk, OrdersOk, IndexOk, LogOk, LedgerOk, OpeningOk, OfferOk,
      OfferCallsOk, TicketsOk, CompensatingOk, AdvancesOk, PaymentsOk;
    Holds(reliable, acts);
  }

  /** A reservation both committed and released belongs to a stored order of a scene that allows close. */
  lemma CommitExcludesRelease(reliable: bool, acts: seq<Action>, r: RsvId)
    requires ValidRun(Initial(reliable), acts)
    ensures var s := At(reliable, acts).sh;
            r in s.hist.commits && r in s.hist.frees ==>
              r.order in s.repo.orders && Settled(s.repo.orders[r.order].status)
                && s.repo.orders[r.order].scene.allowClose
  {
    hide At, ValidRun, CallsOk, DebtsOk, RefundersOk, OrdersOk, IndexOk, LogOk, LedgerOk, OpeningOk, OfferOk,
      FreezeCallsOk, TicketsOk, CompensatingOk, AdvancesOk, PaymentsOk;
    Holds(reliable, acts);
  }

  /**
   * Whatever was fulfilled, or left COMPENSATING, has its reservation committed and turned into a
   * redemption, and its ledger money frozen and captured.
   */
  lemma AdvancedWasServed(reliable: bool, acts: seq<Action>, oid: OrderId)
    requires ValidRun(Initial(reliable), acts) && oid in At(reliable, acts).sh.repo.orders
    ensures var s := At(reliable, acts).sh; var o := s.repo.orders[oid];
            && oid in s.hist.path
            && var path := s.hist.path[oid];
            && (Fulfilling in path || (exists i :: 0 <= i < |path| - 1 && path[i] == Compensating) ==>
                  && (o.amounts.ledgerPay > 0 || o.freeze.Some? ==> o.freeze.Some? && o.freeze.value in s.hist.captures)
                  && (o.reservation.Some? ==>
                       o.reservation.value in s.hist.commits && Rd(o.reservation.value) in s.offer.redeem))
  {
    hide At, ValidRun, CallsOk, DebtsOk, RefundersOk, OrdersOk, IndexOk, LedgerOk, FreezeCallsOk, OpeningOk;
    hide OfferCallsOk, TicketsOk, CompensatingOk;
    Holds(reliable, acts);
  }

  /**
   * An order of an autoComplete scene is never FULFILLING; COMPENSATING is left for COMPLETED there and for
   * FULFILLING elsewhere.
   */
  lemma SceneDecidesRoute(reliable: bool, acts: seq<Action>, oid: OrderId)
    requires ValidRun(Initial(reliable), acts) && oid in At(reliable, acts).sh.repo.orders
    ensures var s := At(reliable, acts).sh; var o := s.repo.orders[oid];
            && oid in s.hist.path
            && var path := s.hist.path[oid];
            && (o.scene.autoComplete ==> Fulfilling !in path)
            && (forall i :: 0 <= i < |path| - 1 && path[i] == Compensating ==>
                  path[i + 1] == if o.scene.autoComplete then Completed else Fulfilling)
  {
    hide At, ValidRun, CallsOk, DebtsOk, RefundersOk, OrdersOk, IndexOk, LedgerOk, FreezeCallsOk, OpeningOk, OfferOk;
    hide OfferCallsOk, TicketsOk, CompensatingOk, PaymentsOk;
    Holds(reliable, acts);
  }

  // ---------------------------------------------------------------------------
  // Money
  // ---------------------------------------------------------------------------

  /** Amounts of every stored order, and what its status fixes about them. */
  lemma MoneyFollowsStatus(reliable: bool, acts: seq<Action>, oid: OrderId)
    requires ValidRun(Initial(reliable), acts) && oid in At(reliable, acts).sh.repo.orders
    ensures var o := At(reliable, acts).sh.repo.orders[oid]; var a := o.amounts;
            && 0 <= a.refunded <= a.paid <= a.payable
            && a.payable == a.original - a.discount == a.ledgerPay + a.channelPay
            && 0 <= a.discount && 0 <= a.ledgerPay && 0 <= a.channelPay
            && (o.status in {PendingPay, Cancelled} ==> a.paid == 0)
            && (o.status !in {PendingPay, Cancelled} ==> a.paid == a.payable)
            && (o.status in {Paid, Fulfilling, Completed, Compensating, Closed} ==> a.refunded == 0)
            && (o.status == Refunding ==> a.refunded < a.paid)
            && (o.status == PartialRefunded ==> 0 < a.refunded < a.paid)
            && (o.status == Refunded ==> 0 < a.refunded == a.paid)
  {
    hide At, ValidRun, Inv, SharedOk, PathFits, HoldsFreeze, HoldsReservation, HoldsRedemption, CreditsWithin;
    Holds(reliable, acts);
    OrderFacts(At(reliable, acts).sh, oid);
  }

  /** What is in an account, frozen and captured always adds up to what it started with plus its credits. */
  lemma LedgerConserved(reliable: bool, acts: seq<Action>, k: L.Account)
    requires ValidRun(Initial(reliable), acts)
    ensures var s := At(reliable, acts).sh; var l := s.ledger;
            && L.Get(l.balance, k) + L.Total(l.freezes, k, L.Open) + L.Total(l.freezes, k, L.Captured)
                 == L.Get(l.opening, k) + L.Get(l.credits, k)
            && 0 <= L.Get(l.balance, k)
            && (k in l.balance <==> k in l.opening)
            && (k in l.opening ==> (l.opening[k] == 0 || l.opening[k] == L.DEFAULT_BALANCE))
            && (k in l.opening && (forall oid :: oid in s.repo.orders ==> !LooseOn(s.repo.orders[oid], k)) ==>
                 l.opening[k] == L.DEFAULT_BALANCE)
  {
    hide At, ValidRun, CallsOk, DebtsOk, RefundersOk, OrdersOk, IndexOk, LogOk, FreezeCallsOk, OfferOk, OfferCallsOk,
      TicketsOk, CompensatingOk, AdvancesOk, PaymentsOk, LooseOn, L.Total;
    Holds(reliable, acts);
    var l := At(reliable, acts).sh.ledger;
    assert L.Conserved(l, k);
  }

  /**
   * In a scene without close the credits for an order never exceed its ledger share, whatever refunds failed
   * midway.
   */
  lemma CreditsBounded(reliable: bool, acts: seq<Action>, oid: OrderId)
    requires ValidRun(Initial(reliable), acts) && oid in At(reliable, acts).sh.repo.orders
    requires !At(reliable, acts).sh.repo.orders[oid].scene.allowClose
    ensures var s := At(reliable, acts).sh;
            CreditedTo(s.hist.trail.payments, oid) <= s.repo.orders[oid].amounts.ledgerPay
  {
    hide At, ValidRun, Inv, SharedOk, PathFits, HoldsFreeze, HoldsReservation, HoldsRedemption;
    Holds(reliable, acts);
    var s := At(reliable, acts).sh;
    OrderFacts(s, oid);
    CreditsAtMost(CreditedTo(s.hist.trail.payments, oid), s.repo.orders[oid]);
  }

  /**
   * The finished refunds r_1, ..., r_k of an order add up to what it has refunded. Unless a refund is
   * under way or has stopped midway, each was paid out: the channel got the rest of every refund and, in
   * a scene without close, the order's own account and no other got the floor of its ledger share, as
   * long as no product overflows.
   */
  lemma RefundsPaidOut(reliable: bool, acts: seq<Action>, oid: OrderId)
    requires ValidRun(Initial(reliable), acts) && oid in At(reliable, acts).sh.repo.orders
    ensures var s := At(reliable, acts).sh; var o, payments := s.repo.orders[oid], s.hist.trail.payments;
            var rs := RefundsOf(s.hist.trail.refunds, oid);
            && (forall i :: 0 <= i < |rs| ==> 0 < rs[i])
            && Sum(rs) == o.amounts.refunded
            && (o.status != Refunding && rs != [] && ProductsFit(o.amounts.ledgerPay, rs) ==>
                  && o.amounts.payable > 0
                  && ChannelledTo(payments, oid) == o.amounts.refunded - LedgerFloors(o.amounts, rs)
                  && (!o.scene.allowClose ==> CreditedTo(payments, oid) == LedgerFloors(o.amounts, rs)))
            && (o.status != Refunding && rs == [] ==>
                  ChannelledTo(payments, oid) == 0 && (!o.scene.allowClose ==> CreditedTo(payments, oid) == 0))
            && (!o.scene.allowClose ==>
                  forall i :: 0 <= i < |payments| && payments[i].order == oid && payments[i].payee.Wallet? ==>
                    payments[i].payee.account == AccountOf(o))
  {
    hide At, ValidRun, Inv, SharedOk, PathFits, HoldsFreeze, HoldsReservation, HoldsRedemption, CreditsWithin;
    hide CreditedTo, ChannelledTo, LedgerFloors, PaidInto;
    Holds(reliable, acts);
    var s := At(reliable, acts).sh;
    var o, rs := s.repo.orders[oid], RefundsOf(s.hist.trail.refunds, oid);
    PaymentsKnown(s);
    OrderFacts(s, oid);
    assert RefundsFit(o, rs, s.hist.trail.payments, oid);
    SumNonNegative(rs);
    if rs != [] && ProductsFit(o.amounts.ledgerPay, rs) { DuesAreFloors(o.amounts, rs); }
  }

  /**
   * Also where products overflow: a refund never pays out less than its amount, and the finished refunds
   * of an order paid out exactly what they refunded if and only if no ledger share was computed negative.
   */
  lemma PaidOutExactlyIff(reliable: bool, acts: seq<Action>, oid: OrderId)
    requires ValidRun(Initial(reliable), acts) && oid in At(reliable, acts).sh.repo.orders
    requires var o := At(reliable, acts).sh.repo.orders[oid];
             o.status != Refunding && !o.scene.allowClose && o.amounts.payable > 0
    ensures var s := At(reliable, acts).sh; var o, payments := s.repo.orders[oid], s.hist.trail.payments;
            && o.amounts.refunded <= CreditedTo(payments, oid) + ChannelledTo(payments, oid)
            && (CreditedTo(payments, oid) + ChannelledTo(payments, oid) == o.amounts.refunded
                <==> SharesNonNegative(o.amounts, RefundsOf(s.hist.trail.refunds, oid)))
  {
    hide At, ValidRun, Inv, SharedOk, CreditedTo, ChannelledTo, PaidInto, SharesNonNegative;
    Holds(reliable, acts);
    var s := At(reliable, acts).sh;
    PaymentsKnown(s);
    assert RefundsFit(s.repo.orders[oid], RefundsOf(s.hist.trail.refunds, oid), s.hist.trail.payments, oid);
    DuesCover(s.repo.orders[oid].amounts, RefundsOf(s.hist.trail.refunds, oid));
  }

  /** The ledger's credits on an account are the payments into it, and every payment is for a stored order. */
  lemma CreditsArePayments(reliable: bool, acts: seq<Action>, k: L.Account)
    requires ValidRun(Initial(reliable), acts)
    ensures var s := At(reliable, acts).sh;
            && L.Get(s.ledger.credits, k) == PaidInto(s.hist.trail.payments, k)
            && (forall i :: 0 <= i < |s.hist.trail.payments| ==> s.hist.trail.payments[i].order in s.repo.orders)
  {
    hide At, ValidRun, Inv, SharedOk, RefundsFit, PaidInto;
    Holds(reliable, acts);
    PaymentsKnown(At(reliable, acts).sh);
  }

  lemma CreditsAtMost(credited: int, o: Order)
    requires CreditsWithin(credited, o) && MoneyByStatus(o.status, o.amounts) && !o.scene.allowClose
    ensures credited <= o.amounts.ledgerPay
  {
    var a := o.amounts;
    if a.payable > 0 {
      MulMono(a.refunded, a.payable, a.ledgerPay);
      if credited > a.ledgerPay {
        MulMono(a.ledgerPay + 1, credited, a.payable);
        Distribute(a.ledgerPay, 1, a.payable);
      }
    }
  }

  /** No redemption is reversed beyond the discount it was made for. */
  lemma ReversalsBounded(reliable: bool, acts: seq<Action>, oid: OrderId)
    requires ValidRun(Initial(reliable), acts)
    ensures var s := At(reliable, acts).sh; var id := Rd(Rsv(oid));
            && (id in s.offer.redeem ==> 0 <= s.offer.redeem[id].reversed <= s.offer.redeem[id].discount)
            && (oid in s.repo.orders && s.repo.orders[oid].redemption.Some? ==>
                  && s.repo.orders[oid].redemption == Some(id) && id in s.offer.redeem
                  && s.offer.redeem[id].discount == s.repo.orders[oid].amounts.discount)
  {
    Holds(reliable, acts);
    var s := At(reliable, acts).sh;
    assert F.Sound(s.offer) by {
      hide F.Sound, At, ValidRun, CallsOk, DebtsOk, RefundersOk, OrdersOk, IndexOk, LogOk, LedgerOk, FreezeCallsOk,
        OpeningOk, OfferCallsOk, TicketsOk, CompensatingOk, AdvancesOk, PaymentsOk;
    }
    hide At, ValidRun, Inv, SharedOk, FieldsOk, PathFits, HoldsFreeze, CreditsWithin;
    if oid in s.repo.orders { OrderFacts(s, oid); }
  }

  // ---------------------------------------------------------------------------
  // Debts
  // ---------------------------------------------------------------------------

  /** A ticket of this kind that still has to be worked off. */
  predicate Outstanding(tickets: seq<Ticket>, kind: TicketKind) {
    exists i :: 0 <= i < |tickets| && tickets[i].kind == kind && tickets[i].status != Done
  }

  lemma UnresolvedIsOutstanding(sh: Shared, kind: TicketKind)
    requires TicketsOk(sh.repo.tickets, sh.repo.orders, sh.ledger.freezes, sh.offer, sh.held)
    requires HasTicket(sh.repo.tickets, kind) && !Resolved(sh.repo.orders, sh.ledger.freezes, sh.offer, sh.held, kind)
    ensures Outstanding(sh.repo.tickets, kind)
  {
    hide Resolved, KindOk;
    var i :| 0 <= i < |sh.repo.tickets| && sh.repo.tickets[i].kind == kind;
    assert sh.repo.tickets[i].status != Done;
  }

  /** With reliable ticket insertion every COMPENSATING order has a ticket that is not done. */
  lemma CompensatingIsTicketed(acts: seq<Action>, oid: OrderId)
    requires ValidRun(Initial(true), acts) && oid in At(true, acts).sh.repo.orders
    requires At(true, acts).sh.repo.orders[oid].status == Compensating
    ensures Outstanding(At(true, acts).sh.repo.tickets, AfterPaid(oid))
  {
    hide At, ValidRun, CallsOk, DebtsOk, RefundersOk, OrdersOk, IndexOk, LogOk, LedgerOk, FreezeCallsOk, OpeningOk,
      OfferOk, OfferCallsOk, TicketsOk, HasTicket, Outstanding;
    Holds(true, acts);
    ReliabilityKept(true, acts);
    var s := At(true, acts).sh;
    UnresolvedIsOutstanding(s, AfterPaid(oid));
  }

  /**
   * With reliable ticket insertion a CANCELLED order whose freeze is still open, whose reservation is
   * still active or whose inventory is still held has its cancelling call on the way to it (perhaps
   * abandoned) or a matching release ticket that is not done.
   */
  lemma CancelledDebtsCovered(acts: seq<Action>, oid: OrderId)
    requires ValidRun(Initial(true), acts) && oid in At(true, acts).sh.repo.orders
    requires At(true, acts).sh.repo.orders[oid].status == Cancelled
    ensures var s := At(true, acts); var o := s.sh.repo.orders[oid];
            && (FreezeOpen(s.sh, o.freeze) ==>
                  || (exists t :: t in s.threads && OwesLedger(s.threads[t], oid))
                  || Outstanding(s.sh.repo.tickets, LedgerRelease(o.freeze, oid)))
            && (ReservationActive(s.sh, o.reservation) ==>
                  || (exists t :: t in s.threads && OwesOffer(s.threads[t], oid))
                  || Outstanding(s.sh.repo.tickets, OfferRelease(o.reservation.value)))
            && (oid in s.sh.held ==>
                  || (exists t :: t in s.threads && OwesFulfil(s.threads[t], oid))
                  || Outstanding(s.sh.repo.tickets, FulfilRelease(oid)))
  {
    hide At, ValidRun, CallsOk, OrdersOk, IndexOk, LogOk, LedgerOk, FreezeCallsOk, OpeningOk, OfferOk, OfferCallsOk,
      TicketsOk, CompensatingOk, AdvancesOk, PaymentsOk;
    hide HasTicket, Outstanding, OwesLedger, OwesOffer, OwesFulfil, RefundersOk;
    Holds(true, acts);
    ReliabilityKept(true, acts);
    var s := At(true, acts);
    var o := s.sh.repo.orders[oid];
    assert DebtOk(s.sh, s.threads, oid, o);
    if FreezeOpen(s.sh, o.freeze) && HasTicket(s.sh.repo.tickets, LedgerRelease(o.freeze, oid)) {
      UnresolvedIsOutstanding(s.sh, LedgerRelease(o.freeze, oid));
    }
    if ReservationActive(s.sh, o.reservation) && HasTicket(s.sh.repo.tickets, OfferRelease(o.reservation.value)) {
      UnresolvedIsOutstanding(s.sh, OfferRelease(o.reservation.value));
    }
    if oid in s.sh.held && HasTicket(s.sh.repo.tickets, FulfilRelease(oid)) {
      UnresolvedIsOutstanding(s.sh, FulfilRelease(oid));
    }
  }

  lemma {:induction false} ReliabilityKept(reliable: bool, acts: seq<Action>)
    requires ValidRun(Initial(reliable), acts)
    ensures At(reliable, acts).sh.reliable == reliable
    decreases |acts|
  {
    hide Enabled, Apply, Inv;
    if acts != [] {
      var before, a := acts[..|acts| - 1], acts[|acts| - 1];
      ReliabilityKept(reliable, before);
      Reachable(reliable, before);
      ReliabilityStep(At(reliable, before), a);
    }
  }

  lemma ReliabilityStep(s: State, a: Action)
    requires Inv(s) && Enabled(s, a)
    ensures Apply(s, a).sh.reliable == s.sh.reliable
  {
    hide SharedOk, CallOk, Exec, DebtOk, Entry, OrdersEvolve, RefundUndisturbed, MintUndisturbed, ReleasesJustified;
    match a
    case Spawn(t, entry) =>
    case Run(t, out) => ExecOk(s.sh, t, s.threads[t], out);
  }

  // ---------------------------------------------------------------------------
  // Idempotency
  // ---------------------------------------------------------------------------

  /** One order per client key and per idempotency key; every record points to a stored order. */
  lemma KeysAreUnique(reliable: bool, acts: seq<Action>)
    requires ValidRun(Initial(reliable), acts)
    ensures var s := At(reliable, acts).sh;
            && (forall x, y :: x in s.repo.orders && y in s.repo.orders ==>
                  (ClientKeyOf(s.repo.orders[x]) == ClientKeyOf(s.repo.orders[y]) ==> x == y))
            && (forall x :: x in s.repo.orders ==> x in s.hist.idemOf && s.hist.idemOf[x] in s.repo.idem)
            && (forall x, y ::
                 x in s.repo.orders && y in s.repo.orders && s.hist.idemOf[x] == s.hist.idemOf[y] ==> x == y)
            && (forall k :: k in s.repo.idem ==> s.repo.idem[k].order in s.repo.orders)
  {
    hide At, ValidRun, CallsOk, DebtsOk, RefundersOk, OrdersOk, LogOk, LedgerOk, FreezeCallsOk, OpeningOk, OfferOk,
      OfferCallsOk, TicketsOk, CompensatingOk, AdvancesOk, PaymentsOk;
    Holds(reliable, acts);
  }

  lemma AcceptedIsStored(s: State, t: Tid)
    requires CallsOk(s) && t in s.threads && s.threads[t].Accepted?
    ensures Answered(s.sh.repo.idem, s.threads[t].key, s.threads[t].order, s.threads[t].hash, s.threads[t].lost)
  {
    hide CheckoutCallOk, PayCallOk, AfterCallOk, CancelCallOk, RefundCallOk, CloseCallOk, TicketCallOk, ReconCallOk;
    assert CallOk(s.sh, t, s.threads[t]);
  }

  /** Two checkouts that succeed under one key return the same stored order, also after a lost insert race. */
  lemma SameKeySameOrder(reliable: bool, acts: seq<Action>, t: Tid, u: Tid)
    requires ValidRun(Initial(reliable), acts)
    requires var th := At(reliable, acts).threads;
             t in th && u in th && th[t].Accepted? && th[u].Accepted? && th[t].key == th[u].key
    ensures var s := At(reliable, acts);
            s.threads[t].order == s.threads[u].order && s.threads[t].order in s.sh.repo.orders
  {
    hide At, ValidRun, DebtsOk, CallsOk, OrdersOk, LogOk, LedgerOk, FreezeCallsOk, OpeningOk, OfferOk, OfferCallsOk,
      TicketsOk, CompensatingOk, AdvancesOk, PaymentsOk;
    Holds(reliable, acts);
    var s := At(reliable, acts);
    AcceptedIsStored(s, t);
    AcceptedIsStored(s, u);
  }

  /**
   * A successful checkout is answered from a record with its own request hash if and only if it did not lose the
   * insert race.
   */
  lemma OwnAnswerIffNotLost(reliable: bool, acts: seq<Action>, t: Tid)
    requires ValidRun(Initial(reliable), acts) && t in At(reliable, acts).threads
    requires At(reliable, acts).threads[t].Accepted?
    ensures var s := At(reliable, acts); var pc := s.threads[t];
            && pc.key in s.sh.repo.idem && s.sh.repo.idem[pc.key].order == pc.order
            && (s.sh.repo.idem[pc.key].hash == pc.hash <==> !pc.lost)
  {
    hide At, ValidRun, DebtsOk, RefundersOk, CallsOk, SharedOk;
    Holds(reliable, acts);
    AcceptedIsStored(At(reliable, acts), t);
  }

  // ---------------------------------------------------------------------------
  // Histories
  // ---------------------------------------------------------------------------

  /** How often a path enters a status that writes no event. */
  function Silent(path: seq<Status>): nat {
    if path == [] then 0
    else Silent(path[..|path| - 1]) + (if path[|path| - 1] in {Refunding, Compensating} then 1 else 0)
  }

  lemma {:induction false} TraceLength(path: seq<Status>)
    ensures |Trace(path)| == |path| - Silent(path)
  {
    if path != [] { TraceLength(path[..|path| - 1]); }
  }

  /** Every stored order's history is a path in the table with one version per step, of bounded length. */
  lemma HistoryIsPath(reliable: bool, acts: seq<Action>, oid: OrderId)
    requires ValidRun(Initial(reliable), acts) && oid in At(reliable, acts).sh.repo.orders
    ensures var s := At(reliable, acts).sh; var o := s.repo.orders[oid];
            && oid in s.hist.path
            && var path := s.hist.path[oid];
            && |path| == o.version && o.version >= 1
            && path[0] == PendingPay && path[o.version - 1] == o.status
            && (forall i :: 0 < i < |path| ==> CanTransition(path[i - 1], path[i]))
            && o.version <= 5 + (if 2 * o.amounts.payable > 1 then 2 * o.amounts.payable else 1)
  {
    hide At, ValidRun, Inv, SharedOk, HoldsFreeze, HoldsReservation, HoldsRedemption, CreditsWithin, CanTransition;
    Holds(reliable, acts);
    OrderFacts(At(reliable, acts).sh, oid);
  }

  /**
   * The events ever written for an order are those of its path, one per version except entries into REFUNDING and
   * COMPENSATING.
   */
  lemma EventsMatchHistory(reliable: bool, acts: seq<Action>, oid: OrderId)
    requires ValidRun(Initial(reliable), acts) && oid in At(reliable, acts).sh.repo.orders
    ensures var s := At(reliable, acts).sh;
            && oid in s.hist.path
            && EventsFor(s.repo.log, oid) == Trace(s.hist.path[oid])
            && |EventsFor(s.repo.log, oid)| == s.repo.orders[oid].version - Silent(s.hist.path[oid])
  {
    hide At, ValidRun, CallsOk, DebtsOk, RefundersOk, OrdersOk, IndexOk, LedgerOk, FreezeCallsOk, OpeningOk, OfferOk,
      OfferCallsOk, TicketsOk, CompensatingOk, AdvancesOk, PaymentsOk;
    hide HoldsFreeze, HoldsReservation, HoldsRedemption, CreditsWithin, LegalPath, FieldsOk;
    Holds(reliable, acts);
    var s := At(reliable, acts).sh;
    OrderFacts(s, oid);
    TraceLength(s.hist.path[oid]);
  }
}

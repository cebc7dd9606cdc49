/** The invariant holds in every state of every run. */
module SagaRuns {
  import opened Base
  import opened Int64
  import opened Amounts
  import opened Orders
  import opened SagaState
  import opened SagaProgram
  import opened SagaInvariant
  import opened SagaCalls
  import opened SagaStore
  import opened SagaStability
  import opened SagaSteps
  import opened SagaRefundSteps
  import opened SagaWorkerSteps
  import opened SagaMarks
  import L = Ledger
  import F = Offer

  // ---------------------------------------------------------------------------
  // Every step, whoever takes it
  // ---------------------------------------------------------------------------

  lemma ExecOk(sh: Shared, t: Tid, pc: Pc, out: Outcome)
    requires SharedOk(sh) && CallOk(sh, t, pc)
    ensures var (b, next) := Exec(sh, t, pc, out); SharedOk(b) && Guarantee(sh, b, t) && CallOk(b, t, next)
  {
    hide SharedOk, Guarantee, CheckoutCallOk, PayCallOk, AfterCallOk, CancelCallOk, RefundCallOk, CloseCallOk,
      TicketCallOk, ReconCallOk;
    hide CheckoutStep, PayStep, AfterPaidStep, CancelStep, RefundStep, CloseStep, TicketStep, ReconStep;
    if InCheckout(pc) { CheckoutStepOk(sh, t, pc, out); }
    else if InPay(pc) { PayStepOk(sh, t, pc, out); }
    else if pc.After? { AfterPaidStepOk(sh, t, pc.oid, pc.snap, pc.origin, pc.at, out); }
    else if InCancel(pc) { CancelStepOk(sh, t, pc, out); }
    else if InRefund(pc) { RefundStepOk(sh, t, pc, out); }
    else if InClose(pc) { CloseStepOk(sh, t, pc, out); }
    else if InTicket(pc) { TicketStepOk(sh, t, pc, out); }
    else if InRecon(pc) { ReconStepOk(sh, t, pc, out); }
    else { Stays(sh, t); }
  }

  // ---------------------------------------------------------------------------
  // Debts
  // ---------------------------------------------------------------------------

  /** The cancelling call gets rid of the freeze or passes the debt on. */
  lemma LedgerDebtPassedOn(sh: Shared, t: Tid, pc: Pc, out: Outcome, oid: OrderId)
    requires SharedOk(sh) && CancelCallOk(sh, t, pc) && OwesLedger(pc, oid) && oid in sh.repo.orders && sh.reliable
    ensures var (b, next) := CancelStep(sh, t, pc, out);
            FreezeOpen(b, sh.repo.orders[oid].freeze) ==>
              OwesLedger(next, oid) || HasTicket(b.repo.tickets, LedgerRelease(sh.repo.orders[oid].freeze, oid))
  {
    hide SharedOk, F.DoRelease, SnapOk;
    if pc.CnLedger? || pc.CnLedgerTicket? {
      SnapRefs(sh, oid, pc.snap);
      LedgerPayHeld(sh, oid, pc.snap);
      if pc.CnLedgerTicket? {
        var b := InsertTicket(sh, LedgerRelease(pc.snap.freeze, oid), out);
        assert b.repo.tickets[|b.repo.tickets| - 1].kind == LedgerRelease(pc.snap.freeze, oid);
      }
    }
  }

  lemma LedgerPayHeld(sh: Shared, oid: OrderId, snap: Order)
    requires SharedOk(sh) && SnapOk(sh, oid, snap)
    ensures snap.freeze.Some? ==> HasLedgerFreeze(snap)
  {
    hide SharedOk, PathFits, FieldsOk, HoldsReservation, HoldsRedemption, CreditsWithin;
    OrderFacts(sh, oid);
  }

  lemma OfferDebtPassedOn(sh: Shared, t: Tid, pc: Pc, out: Outcome, oid: OrderId)
    requires SharedOk(sh) && CancelCallOk(sh, t, pc) && OwesOffer(pc, oid) && oid in sh.repo.orders && sh.reliable
    requires sh.repo.orders[oid].reservation.Some?
    ensures var (b, next) := CancelStep(sh, t, pc, out);
            ReservationActive(b, sh.repo.orders[oid].reservation) ==>
              OwesOffer(next, oid) || HasTicket(b.repo.tickets, OfferRelease(sh.repo.orders[oid].reservation.value))
  {
    hide SharedOk, SnapOk, CancelStep, ReservationActive, HasTicket;
    SnapRefs(sh, oid, pc.snap);
    if pc.CnOffer? { OfferReleaseTried(sh, t, pc.snap, out, oid); } else { OfferTicketLeft(sh, t, pc.snap, out, oid); }
  }

  lemma OfferReleaseTried(sh: Shared, t: Tid, snap: Order, out: Outcome, oid: OrderId)
    requires snap.reservation.Some?
    ensures var (b, next) := CancelStep(sh, t, CnOffer(oid, snap), out);
            ReservationActive(b, snap.reservation) ==> OwesOffer(next, oid)
  {
  }

  lemma OfferTicketLeft(sh: Shared, t: Tid, snap: Order, out: Outcome, oid: OrderId)
    requires snap.reservation.Some? && sh.reliable
    ensures HasTicket(CancelStep(sh, t, CnOfferTicket(oid, snap), out).0.repo.tickets,
              OfferRelease(snap.reservation.value))
  {
    var b := InsertTicket(sh, OfferRelease(snap.reservation.value), out);
    assert b.repo.tickets[|b.repo.tickets| - 1].kind == OfferRelease(snap.reservation.value);
  }

  lemma FulfilDebtPassedOn(sh: Shared, t: Tid, pc: Pc, out: Outcome, oid: OrderId)
    requires OwesFulfil(pc, oid) && sh.reliable
    ensures var (b, next) := CancelStep(sh, t, pc, out);
            oid in b.held ==> OwesFulfil(next, oid) || HasTicket(b.repo.tickets, FulfilRelease(oid))
  {
    hide L.DoRelease, F.DoRelease;
    if pc.CnFulfilTicket? {
      var b := InsertTicket(sh, FulfilRelease(oid), out);
      assert b.repo.tickets[|b.repo.tickets| - 1].kind == FulfilRelease(oid);
    }
  }

  /** An order that was already cancelled keeps its debts covered. */
  lemma OldDebtStep(s: State, t: Tid, out: Outcome, oid: OrderId)
    requires SharedOk(s.sh) && t in s.threads && CallOk(s.sh, t, s.threads[t])
    requires oid in s.sh.repo.orders && DebtOk(s.sh, s.threads, oid, s.sh.repo.orders[oid])
    requires s.sh.repo.orders[oid].status == Cancelled
    requires var (b, next) := Exec(s.sh, t, s.threads[t], out);
             && Guarantee(s.sh, b, t) && oid in b.hist.canceller && b.hist.canceller[oid] == s.sh.hist.canceller[oid]
    ensures var (b, next) := Exec(s.sh, t, s.threads[t], out);
            oid in b.repo.orders && DebtOk(b, s.threads[t := next], oid, b.repo.orders[oid])
  {
    hide SharedOk, Exec, CallOk, HasTicket, OwesOffer, OwesLedger, OwesFulfil, FreezeOpen, Guarantee;
    var (b, next) := Exec(s.sh, t, s.threads[t], out);
    DebtsShrink(s.sh, b, t, oid);
    if s.sh.reliable && s.sh.hist.canceller[oid] == t {
      OwnDebtStep(s.sh, t, s.threads[t], out, oid);
    }
  }

  /** Whatever is still owed was owed before, on the same terms, and tickets stay. */
  lemma DebtsShrink(a: Shared, b: Shared, t: Tid, oid: OrderId)
    requires SharedOk(a) && Guarantee(a, b, t) && oid in a.repo.orders
    ensures oid in b.repo.orders && b.reliable == a.reliable
    ensures b.repo.orders[oid].freeze == a.repo.orders[oid].freeze
    ensures b.repo.orders[oid].reservation == a.repo.orders[oid].reservation
    ensures var f := a.repo.orders[oid].freeze;
            && (FreezeOpen(b, f) ==> FreezeOpen(a, f))
            && (HasTicket(a.repo.tickets, LedgerRelease(f, oid)) ==> HasTicket(b.repo.tickets, LedgerRelease(f, oid)))
    ensures var r := a.repo.orders[oid].reservation;
            && (ReservationActive(b, r) ==> ReservationActive(a, r))
            && (r.Some? && HasTicket(a.repo.tickets, OfferRelease(r.value)) ==>
                 HasTicket(b.repo.tickets, OfferRelease(r.value)))
    ensures a.repo.orders[oid].status == Cancelled && oid in b.held ==> oid in a.held
    ensures HasTicket(a.repo.tickets, FulfilRelease(oid)) ==> HasTicket(b.repo.tickets, FulfilRelease(oid))
  {
    hide RefundUndisturbed, MintUndisturbed, ReleasesJustified, RecordsGrow, HasTicket, PastPayment, Compatible,
      SharedOk, SnapOk, FreezeFits;
    ReadOk(a, oid);
    SnapRefs(a, oid, a.repo.orders[oid]);
    FrozenOrder(a, oid);
    assert Evolves(a.repo.orders[oid], b.repo.orders[oid]);
    TicketsKept(a.repo.tickets, b.repo.tickets);
  }

  lemma OwnDebtStep(sh: Shared, t: Tid, pc: Pc, out: Outcome, oid: OrderId)
    requires SharedOk(sh) && CallOk(sh, t, pc) && oid in sh.repo.orders && sh.reliable
    ensures var (b, next) := Exec(sh, t, pc, out);
            && (OwesLedger(pc, oid) && FreezeOpen(b, sh.repo.orders[oid].freeze) ==>
                  OwesLedger(next, oid) || HasTicket(b.repo.tickets, LedgerRelease(sh.repo.orders[oid].freeze, oid)))
            && (OwesOffer(pc, oid) && sh.repo.orders[oid].reservation.Some?
                 && ReservationActive(b, sh.repo.orders[oid].reservation) ==>
                  OwesOffer(next, oid)
                    || HasTicket(b.repo.tickets, OfferRelease(sh.repo.orders[oid].reservation.value)))
            && (OwesFulfil(pc, oid) && oid in b.held ==>
                 OwesFulfil(next, oid) || HasTicket(b.repo.tickets, FulfilRelease(oid)))
  {
    hide SharedOk, CancelStep, HasTicket, CallOk, CancelCallOk, FreezeOpen, ReservationActive, Exec;
    if OwesFulfil(pc, oid) {
      CancelExec(sh, t, pc, out);
      FulfilDebtPassedOn(sh, t, pc, out, oid);
      if OwesLedger(pc, oid) { LedgerDebtPassedOn(sh, t, pc, out, oid); }
      if OwesOffer(pc, oid) && sh.repo.orders[oid].reservation.Some? { OfferDebtPassedOn(sh, t, pc, out, oid); }
    }
  }

  lemma CancelExec(sh: Shared, t: Tid, pc: Pc, out: Outcome)
    requires InCancel(pc) && CallOk(sh, t, pc)
    ensures Exec(sh, t, pc, out) == CancelStep(sh, t, pc, out) && CancelCallOk(sh, t, pc)
  {
    hide CheckoutCallOk, PayCallOk, AfterCallOk, CancelCallOk, RefundCallOk, CloseCallOk, TicketCallOk, ReconCallOk;
    hide CancelStep, CancelCallOk;
  }

  lemma DebtStep(s: State, t: Tid, out: Outcome, oid: OrderId)
    requires SharedOk(s.sh) && t in s.threads && CallOk(s.sh, t, s.threads[t])
    requires oid in s.sh.repo.orders ==> DebtOk(s.sh, s.threads, oid, s.sh.repo.orders[oid])
    requires Guarantee(s.sh, Exec(s.sh, t, s.threads[t], out).0, t)
    ensures var (b, next) := Exec(s.sh, t, s.threads[t], out);
            oid in b.repo.orders ==> DebtOk(b, s.threads[t := next], oid, b.repo.orders[oid])
  {
    hide SharedOk, CallOk, Guarantee, HasTicket, CheckoutStep, PayStep, AfterPaidStep, CancelStep, RefundStep,
      CloseStep, TicketStep, ReconStep;
    var pc := s.threads[t];
    var (b, next) := Exec(s.sh, t, pc, out);
    if pc.CnCas? { CancelsOne(s.sh, t, pc.oid, pc.snap, out); } else { ExecCancels(s.sh, t, pc, out); }
    hide Exec;
    if oid in b.repo.orders && b.repo.orders[oid].status == Cancelled {
      if oid in s.sh.repo.orders && s.sh.repo.orders[oid].status == Cancelled && oid in b.hist.canceller
        && b.hist.canceller[oid] == s.sh.hist.canceller[oid] {
        OldDebtStep(s, t, out, oid);
      }
    }
  }

  // ---------------------------------------------------------------------------
  // Refunds in progress
  // ---------------------------------------------------------------------------

  lemma RefunderStep(s: State, t: Tid, out: Outcome, oid: OrderId)
    requires t in s.threads
    requires oid in s.sh.repo.orders ==> RefunderOk(s.sh, s.threads, oid, s.sh.repo.orders[oid])
    ensures var (b, next) := Exec(s.sh, t, s.threads[t], out);
            oid in b.repo.orders ==> RefunderOk(b, s.threads[t := next], oid, b.repo.orders[oid])
  {
    hide Exec, Finishing, RefundStep;
    var pc := s.threads[t];
    if Finishing(pc, oid) { FinishingGoesOn(s.sh, t, pc, out, oid); }
    EndedStays(s.sh, t, out);
    if pc.RfCas? {
      RefundCasExec(s.sh, t, pc.oid, pc.snap, pc.amount, out);
      RefundsOne(s.sh, t, pc.oid, pc.snap, pc.amount, out);
    } else {
      ExecRefunds(s.sh, t, pc, out);
    }
  }

  lemma EndedStays(sh: Shared, t: Tid, out: Outcome)
    ensures Exec(sh, t, Returned, out) == (sh, Returned)
  {
    hide CheckoutStep, PayStep, AfterPaidStep, CancelStep, RefundStep, CloseStep, TicketStep, ReconStep;
  }

  lemma RefundCasExec(sh: Shared, t: Tid, oid: OrderId, snap: Order, amount: I64, out: Outcome)
    ensures Exec(sh, t, RfCas(oid, snap, amount), out) == RefundStep(sh, t, RfCas(oid, snap, amount), out)
    ensures forall x :: !Finishing(RfCas(oid, snap, amount), x)
  {
    hide CheckoutStep, PayStep, AfterPaidStep, CancelStep, RefundStep, CloseStep, TicketStep, ReconStep;
  }

  // ---------------------------------------------------------------------------
  // Runs
  // ---------------------------------------------------------------------------

  lemma RunStepOk(s: State, t: Tid, out: Outcome)
    requires Inv(s) && t in s.threads
    ensures Inv(Apply(s, Run(t, out)))
  {
    hide SharedOk, CallOk, Guarantee, Exec, DebtOk, RefunderOk;
    var (b, next) := Exec(s.sh, t, s.threads[t], out);
    ExecOk(s.sh, t, s.threads[t], out);
    var s' := Apply(s, Run(t, out));
    forall u | u in s'.threads ensures CallOk(b, u, s'.threads[u]) {
      if u != t { CallStable(s.sh, b, t, u, s.threads[u]); }
    }
    forall oid | oid in b.repo.orders ensures DebtOk(b, s'.threads, oid, b.repo.orders[oid]) {
      DebtStep(s, t, out, oid);
    }
    forall oid | oid in b.repo.orders ensures RefunderOk(b, s'.threads, oid, b.repo.orders[oid]) {
      RefunderStep(s, t, out, oid);
    }
  }

  lemma EntryOk(sh: Shared, t: Tid, entry: Pc)
    requires Entry(entry)
    ensures CallOk(sh, t, entry)
  {
    hide CallOk, BuildAmounts;
    if entry.ChFind? {
      var a := entry.req.amounts;
      BuildAmountsExact(entry.req.scene.currency, a.original, a.discount, a.ledgerPay);
      CheckoutGoesOn(sh, t, entry);
    } else {
      PlainEntryOk(sh, t, entry);
    }
  }

  lemma PlainEntryOk(sh: Shared, t: Tid, entry: Pc)
    requires Entry(entry) && !entry.ChFind?
    ensures CallOk(sh, t, entry)
  {
    hide AfterCallOk, SnapOk, Refunds, ReqOk, Resolved, KindOk, BuildAmounts;
    if entry.PvBalance? {
      hide PayCallOk, CancelCallOk, RefundCallOk, CloseCallOk, TicketCallOk, ReconCallOk;
    } else if InPay(entry) {
      hide CheckoutCallOk, CancelCallOk, RefundCallOk, CloseCallOk, TicketCallOk, ReconCallOk;
    } else if InTicket(entry) || InRecon(entry) {
      hide CheckoutCallOk, PayCallOk, CancelCallOk, RefundCallOk, CloseCallOk;
    } else {
      hide CheckoutCallOk, PayCallOk, TicketCallOk, ReconCallOk;
    }
  }

  lemma SpawnStepOk(s: State, t: Tid, entry: Pc)
    requires Inv(s) && Enabled(s, Spawn(t, entry))
    ensures Inv(Apply(s, Spawn(t, entry)))
  {
    hide SharedOk, CallOk, HasTicket, Entry, Finishing, OwesFulfil, OwesLedger, OwesOffer;
    EntryOk(s.sh, t, entry);
    forall oid | oid in s.sh.repo.orders ensures RefunderOk(s.sh, s.threads[t := entry], oid, s.sh.repo.orders[oid]) {
      assert RefunderOk(s.sh, s.threads, oid, s.sh.repo.orders[oid]);
    }
    forall oid | oid in s.sh.repo.orders ensures DebtOk(s.sh, s.threads[t := entry], oid, s.sh.repo.orders[oid]) {
      assert DebtOk(s.sh, s.threads, oid, s.sh.repo.orders[oid]);
    }
  }

  lemma InitialOk(reliable: bool)
    ensures Inv(Initial(reliable))
  {
  }

  /** Every reachable state satisfies the invariant. */
  lemma {:induction false} Reachable(reliable: bool, acts: seq<Action>)
    requires ValidRun(Initial(reliable), acts)
    ensures Inv(Final(Initial(reliable), acts))
    decreases |acts|
  {
    hide Inv, Enabled, Apply;
    if acts == [] {
      InitialOk(reliable);
    } else {
      var before, a := acts[..|acts| - 1], acts[|acts| - 1];
      Reachable(reliable, before);
      ActionOk(Final(Initial(reliable), before), a);
    }
  }

  lemma ActionOk(s: State, a: Action)
    requires Inv(s) && Enabled(s, a)
    ensures Inv(Apply(s, a))
  {
    hide Inv;
    match a
    case Spawn(t, entry) => SpawnStepOk(s, t, entry);
    case Run(t, out) => RunStepOk(s, t, out);
  }
}

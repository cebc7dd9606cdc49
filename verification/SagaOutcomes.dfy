/**
 * What a service call achieves when it is left alone and each of its steps succeeds, from any state of
 * any run: the other half of the safety theorems, which a call that did nothing would keep.
 */
module SagaOutcomes {
  import opened Base
  import opened Int64
  import opened Amounts
  import opened Orders
  import opened RefundMath
  import opened RefundRuns
  import opened SagaState
  import opened SagaProgram
  import opened SagaInvariant
  import opened SagaSteps
  import opened SagaRetries
  import opened SagaAlone
  import L = Ledger
  import F = Offer

  // ---------------------------------------------------------------------------
  // Payment and what follows it
  // ---------------------------------------------------------------------------

  /** What the offer hub and the ledger hold for the order is known to them. */
  predicate Backed(sh: Shared, oid: OrderId, o: Order) {
    && (o.reservation.Some? ==>
          && o.reservation == Some(Rsv(oid)) && Rsv(oid) in sh.offer.resv
          && (sh.offer.resv[Rsv(oid)].redemption.Some? ==> sh.offer.resv[Rsv(oid)].redemption == Some(Rd(Rsv(oid)))))
    && (o.reservation.None? ==> o.redemption.None?)
    && (o.freeze.Some? ==> o.freeze.value < |sh.ledger.freezes|)
  }

  lemma OrdersBacked(sh: Shared, oid: OrderId)
    requires SharedOk(sh) && oid in sh.repo.orders
    ensures Backed(sh, oid, sh.repo.orders[oid])
  {
    hide SharedOk, FieldsOk, PathFits, CreditsWithin, CreditedTo;
    OrderFacts(sh, oid);
    ReservationsKnown(sh);
  }

  lemma ReservationsKnown(sh: Shared)
    requires SharedOk(sh)
    ensures forall r :: r in sh.offer.resv && sh.offer.resv[r].redemption.Some? ==>
              sh.offer.resv[r].redemption == Some(Rd(r)) && Rd(r) in sh.offer.redeem
  {
    hide OrdersOk, IndexOk, LogOk, LedgerOk, OpeningOk, FreezeCallsOk, OfferCallsOk, TicketsOk, CompensatingOk,
      AdvancesOk, PaymentsOk;
  }

  function RedemptionOf(o: Order): Option<RedId> {
    if o.reservation.Some? then Some(Rd(o.reservation.value)) else o.redemption
  }

  /** These freezes with the given one captured, unless it was closed before. */
  function CapturedIn(freezes: seq<L.Hold>, f: Option<FreezeId>): seq<L.Hold> {
    if f.Some? && f.value < |freezes| && freezes[f.value].state.Open?
    then freezes[f.value := L.Hold(freezes[f.value].account, freezes[f.value].amount, L.Captured)]
    else freezes
  }

  /** The order was served: its reservation committed, its freeze captured, its goods fulfilled. */
  predicate Served(sh: Shared, b: Shared, oid: OrderId, o: Order) {
    && (o.reservation.Some? ==>
          && o.reservation.value in b.offer.resv
          && b.offer.resv[o.reservation.value].redemption == Some(Rd(o.reservation.value)))
    && b.ledger == sh.ledger.(freezes := b.ledger.freezes)
    && b.ledger.freezes == CapturedIn(sh.ledger.freezes, o.freeze)
    && b.held == sh.held + {oid}
    && b.hist.trail.payments == sh.hist.trail.payments
  }

  /** The steps after payment ended with the order where its scene leads. */
  predicate Advances(sh: Shared, b: Shared, oid: OrderId, o: Order) {
    && Served(sh, b, oid, o)
    && b.repo.orders == sh.repo.orders[oid := o.(
         status := if o.scene.autoComplete then Completed else Fulfilling, version := o.version + 1,
         redemption := RedemptionOf(o))]
  }

  /** The order is PAID or COMPENSATING still; perhaps its reservation was committed and its redemption recorded. */
  predicate GaveUp(sh: Shared, b: Shared, oid: OrderId, o: Order) {
    && b.ledger == sh.ledger && b.held == sh.held
    && (b.repo.orders == sh.repo.orders || b.repo.orders == sh.repo.orders[oid := o.(redemption := RedemptionOf(o))])
  }

  predicate CanServe(sh: Shared, o: Order) { !Unfrozen(o) && !GivenBack(sh.offer, o.reservation) }

  lemma CommitGranted(sh: Shared, t: Tid, oid: OrderId, o: Order, origin: Origin)
    requires oid in sh.repo.orders && sh.repo.orders[oid] == o && Backed(sh, oid, o)
    requires o.reservation.Some? && !GivenBack(sh.offer, o.reservation)
    ensures var b := Commit(sh, Rsv(oid)).0;
            && Exec(sh, t, After(oid, o, origin, ApCommit), Succeed)
                 == (b, After(oid, o, origin, ApRedemption(Rd(Rsv(oid)))))
            && b == sh.(offer := b.offer, hist := sh.hist.(commits := b.hist.commits))
            && Rsv(oid) in b.offer.resv && b.offer.resv[Rsv(oid)].redemption == Some(Rd(Rsv(oid)))
  {
    hide Exec, Cas, UpdateRedemption, Capture, Hold;
    AfterIsExec(sh, t, After(oid, o, origin, ApCommit));
  }

  lemma CommitSkipped(sh: Shared, t: Tid, oid: OrderId, o: Order, origin: Origin)
    ensures o.reservation.None? ==>
              Exec(sh, t, After(oid, o, origin, ApCommit), Succeed) == (sh, After(oid, o, origin, ApCapture))
    ensures GivenBack(sh.offer, o.reservation) ==>
              var b := Commit(sh, o.reservation.value).0;
              && Exec(sh, t, After(oid, o, origin, ApCommit), Succeed) == (b, AfterFailed(oid, o, origin))
              && b == sh.(hist := sh.hist.(commits := b.hist.commits))
  {
    hide Exec, AfterFailed, Cas, UpdateRedemption, Capture, Hold;
    AfterIsExec(sh, t, After(oid, o, origin, ApCommit));
  }

  lemma RedemptionWritten(sh: Shared, t: Tid, oid: OrderId, o: Order, origin: Origin, id: RedId)
    requires oid in sh.repo.orders && sh.repo.orders[oid] == o
    ensures var b, p := UpdateRedemption(sh, oid, id), o.(redemption := Some(id));
            && Exec(sh, t, After(oid, o, origin, ApRedemption(id)), Succeed) == (b, After(oid, p, origin, ApCapture))
            && b == sh.(repo := sh.repo.(orders := sh.repo.orders[oid := p]))
  {
    hide Exec, Cas, Commit, Capture, Hold;
    AfterIsExec(sh, t, After(oid, o, origin, ApRedemption(id)));
  }

  lemma CaptureTried(sh: Shared, t: Tid, oid: OrderId, o: Order, origin: Origin)
    requires o.freeze.Some? ==> o.freeze.value < |sh.ledger.freezes|
    ensures var (b, next) := Exec(sh, t, After(oid, o, origin, ApCapture), Succeed);
            && (Unfrozen(o) ==> b == sh && next == AfterFailed(oid, o, origin))
            && (!Unfrozen(o) ==>
                  && next == After(oid, o, origin, ApFulfil)
                  && b == sh.(ledger := sh.ledger.(freezes := CapturedIn(sh.ledger.freezes, o.freeze)),
                              hist := sh.hist.(captures := b.hist.captures)))
  {
    hide Exec, AfterFailed, Cas, Commit, UpdateRedemption;
    AfterIsExec(sh, t, After(oid, o, origin, ApCapture));
  }

  lemma FulfilDone(sh: Shared, t: Tid, oid: OrderId, o: Order, origin: Origin)
    ensures Exec(sh, t, After(oid, o, origin, ApFulfil), Succeed)
            == (sh.(held := sh.held + {oid}), After(oid, o, origin, ApAdvance))
  {
    hide Exec, Cas, Commit, Capture, UpdateRedemption;
    AfterIsExec(sh, t, After(oid, o, origin, ApFulfil));
  }

  lemma AdvanceDone(sh: Shared, t: Tid, oid: OrderId, o: Order, origin: Origin)
    requires oid in sh.repo.orders && sh.repo.orders[oid] == o && o.status in {Paid, Compensating}
    ensures var (b, next) := Exec(sh, t, After(oid, o, origin, ApAdvance), Succeed);
            && next == AfterDone(origin)
            && Swapped(sh, b, oid, o.(status := if o.scene.autoComplete then Completed else Fulfilling,
                                      version := o.version + 1))
  {
    hide Exec, Cas, AfterDone, AfterFailed, Commit, UpdateRedemption, HasLedgerFreeze, Capture, Hold, Swapped;
    AfterIsExec(sh, t, After(oid, o, origin, ApAdvance));
    AdvanceSwap(sh, t, oid, o);
  }

  /** After the commit, if there is one to make. */
  lemma CommitDone(sh: Shared, t: Tid, oid: OrderId, o: Order, origin: Origin, n: nat)
    returns (b: Shared, p: Order, left: nat)
    requires oid in sh.repo.orders && sh.repo.orders[oid] == o && Backed(sh, oid, o) && n >= 2
    requires !GivenBack(sh.offer, o.reservation)
    ensures Alone(sh, t, After(oid, o, origin, ApCommit), n) == Alone(b, t, After(oid, p, origin, ApCapture), left)
    ensures p == o.(redemption := RedemptionOf(o)) && b.repo == sh.repo.(orders := sh.repo.orders[oid := p])
    ensures b == sh.(repo := b.repo, offer := b.offer, hist := sh.hist.(commits := b.hist.commits)) && left + 2 >= n
    ensures o.reservation.Some? ==>
              o.reservation.value in b.offer.resv
              && b.offer.resv[o.reservation.value].redemption == Some(Rd(o.reservation.value))
  {
    hide Exec, Alone, Commit, UpdateRedemption, GivenBack;
    var pc := After(oid, o, origin, ApCommit);
    if o.reservation.Some? {
      CommitGranted(sh, t, oid, o, origin);
      var mid, id := Commit(sh, Rsv(oid)).0, Rd(Rsv(oid));
      FirstStep(sh, t, pc, n, mid, After(oid, o, origin, ApRedemption(id)));
      RedemptionWritten(mid, t, oid, o, origin, id);
      b, p, left := UpdateRedemption(mid, oid, id), o.(redemption := Some(id)), n - 2;
      FirstStep(mid, t, After(oid, o, origin, ApRedemption(id)), n - 1, b, After(oid, p, origin, ApCapture));
    } else {
      CommitSkipped(sh, t, oid, o, origin);
      b, p, left := sh, o, n - 1;
      FirstStep(sh, t, pc, n, b, After(oid, p, origin, ApCapture));
      assert sh.repo.orders[oid := p] == sh.repo.orders;
    }
  }

  /** An order that can be served ends where its scene leads. */
  lemma AfterServes(sh: Shared, t: Tid, oid: OrderId, o: Order, origin: Origin, n: nat) returns (b: Shared, left: nat)
    requires oid in sh.repo.orders && sh.repo.orders[oid] == o && o.status in {Paid, Compensating}
    requires Backed(sh, oid, o) && CanServe(sh, o) && n >= 5
    ensures Alone(sh, t, After(oid, o, origin, ApCommit), n) == Alone(b, t, AfterDone(origin), left) && left + 5 >= n
    ensures Advances(sh, b, oid, o) && b.repo.tickets == sh.repo.tickets
  {
    hide Exec, Alone, GivenBack, AfterDone, AfterFailed, CapturedIn;
    var c, p, k := CommitDone(sh, t, oid, o, origin, n);
    b := CapturedAdvances(c, t, oid, p, origin, k);
    left := k - 3;
  }

  /** From the capture on. */
  lemma CapturedAdvances(sh: Shared, t: Tid, oid: OrderId, p: Order, origin: Origin, n: nat) returns (b: Shared)
    requires oid in sh.repo.orders && sh.repo.orders[oid] == p && p.status in {Paid, Compensating}
    requires !Unfrozen(p) && (p.freeze.Some? ==> p.freeze.value < |sh.ledger.freezes|) && n >= 3
    ensures Alone(sh, t, After(oid, p, origin, ApCapture), n) == Alone(b, t, AfterDone(origin), n - 3)
    ensures b.repo.orders == sh.repo.orders[oid := p.(
              status := if p.scene.autoComplete then Completed else Fulfilling, version := p.version + 1)]
    ensures b.ledger == sh.ledger.(freezes := CapturedIn(sh.ledger.freezes, p.freeze)) && b.held == sh.held + {oid}
    ensures b.offer == sh.offer && b.hist.trail.payments == sh.hist.trail.payments && b.repo.tickets == sh.repo.tickets
  {
    hide Exec, Alone, AfterDone, AfterFailed, CapturedIn;
    CaptureTried(sh, t, oid, p, origin);
    var d := Exec(sh, t, After(oid, p, origin, ApCapture), Succeed).0;
    FirstStep(sh, t, After(oid, p, origin, ApCapture), n, d, After(oid, p, origin, ApFulfil));
    FulfilDone(d, t, oid, p, origin);
    var e := d.(held := d.held + {oid});
    FirstStep(d, t, After(oid, p, origin, ApFulfil), n - 1, e, After(oid, p, origin, ApAdvance));
    AdvanceDone(e, t, oid, p, origin);
    b := Exec(e, t, After(oid, p, origin, ApAdvance), Succeed).0;
    FirstStep(e, t, After(oid, p, origin, ApAdvance), n - 2, b, AfterDone(origin));
  }

  /** An order that cannot be served is given up, with nothing captured, fulfilled or paid. */
  lemma AfterGives(sh: Shared, t: Tid, oid: OrderId, o: Order, origin: Origin, n: nat)
    returns (b: Shared, p: Order, left: nat)
    requires oid in sh.repo.orders && sh.repo.orders[oid] == o && o.status in {Paid, Compensating}
    requires Backed(sh, oid, o) && !CanServe(sh, o) && n >= 3
    ensures Alone(sh, t, After(oid, o, origin, ApCommit), n) == Alone(b, t, AfterFailed(oid, p, origin), left)
    ensures left + 3 >= n && GaveUp(sh, b, oid, o) && b.repo.tickets == sh.repo.tickets
    ensures oid in b.repo.orders && b.repo.orders[oid] == p && p == o.(redemption := p.redemption)
  {
    hide Exec, Alone, GivenBack, AfterDone, AfterFailed, Commit;
    if GivenBack(sh.offer, o.reservation) {
      CommitSkipped(sh, t, oid, o, origin);
      GivenBackIsSome(sh.offer, o.reservation);
      b, p, left := Commit(sh, o.reservation.value).0, o, n - 1;
      FirstStep(sh, t, After(oid, o, origin, ApCommit), n, b, AfterFailed(oid, p, origin));
    } else {
      b, p, left := CommitDone(sh, t, oid, o, origin, n);
      CaptureTried(b, t, oid, p, origin);
      FirstStep(b, t, After(oid, p, origin, ApCapture), left, b, AfterFailed(oid, p, origin));
      left := left - 1;
    }
  }

  lemma GivenBackIsSome(offer: F.Offer, rsv: Option<RsvId>)
    requires GivenBack(offer, rsv)
    ensures rsv.Some?
  {
  }

  lemma PayReads(sh: Shared, t: Tid, oid: OrderId)
    requires oid in sh.repo.orders && sh.repo.orders[oid].status == PendingPay
    ensures Exec(sh, t, PayRead(oid), Succeed) == (sh, PayCas(oid, sh.repo.orders[oid]))
  {
    PayIsExec(sh, t, PayRead(oid));
    hide Exec;
  }

  lemma PaySwaps(sh: Shared, t: Tid, oid: OrderId, o: Order)
    requires oid in sh.repo.orders && sh.repo.orders[oid] == o && o.status == PendingPay
    ensures var p := o.(status := Paid, version := o.version + 1, amounts := o.amounts.(paid := o.amounts.payable));
            var (b, next) := Exec(sh, t, PayCas(oid, o), Succeed);
            next == After(oid, p, FromPay, ApCommit) && Swapped(sh, b, oid, p)
  {
    PayIsExec(sh, t, PayCas(oid, o));
    PaySwap(sh, t, oid, o);
    hide Exec, Cas;
  }

  lemma PayGivesUp(sh: Shared, t: Tid, oid: OrderId, o: Order)
    requires oid in sh.repo.orders && sh.repo.orders[oid] == o && o.status == Paid
    ensures var b := sh.(repo := sh.repo.(tickets := sh.repo.tickets + [Ticket(AfterPaid(oid), Pending)]));
            Exec(sh, t, PayTicket(oid, o), Succeed) == (b, PayCompensate(oid, o))
    ensures var (b, next) := Exec(sh, t, PayCompensate(oid, o), Succeed);
            next == Returned && Swapped(sh, b, oid, o.(status := Compensating, version := o.version + 1))
  {
    PayIsExec(sh, t, PayTicket(oid, o));
    PayIsExec(sh, t, PayCompensate(oid, o));
    CompensateSwap(sh, t, oid, o);
    hide Exec, Cas;
  }

  /**
   * A payment left alone: the order ends COMPLETED in an autoComplete scene and FULFILLING elsewhere, paid
   * in full, its reservation redeemed and the redemption recorded on it, its freeze captured and its goods
   * held; or, exactly when its ledger money was never frozen or its reservation was given back, it ends
   * COMPENSATING with an after-paid ticket.
   */
  lemma PaymentAlone(sh: Shared, t: Tid, oid: OrderId)
    requires SharedOk(sh) && oid in sh.repo.orders && sh.repo.orders[oid].status == PendingPay
    ensures var (b, pc) := Alone(sh, t, PayRead(oid), PATIENCE);
            var o := sh.repo.orders[oid];
            var paid := o.(version := o.version + 2, amounts := o.amounts.(paid := o.amounts.payable));
            && pc == Returned && oid in b.repo.orders && b.repo.orders == sh.repo.orders[oid := b.repo.orders[oid]]
            && if CanServe(sh, o) then
                 && b.repo.orders[oid] == paid.(status := if o.scene.autoComplete then Completed else Fulfilling,
                                                redemption := RedemptionOf(o))
                 && Served(sh, b, oid, o) && b.repo.tickets == sh.repo.tickets
               else
                 && b.repo.orders[oid] == paid.(status := Compensating, redemption := b.repo.orders[oid].redemption)
                 && b.repo.tickets == sh.repo.tickets + [Ticket(AfterPaid(oid), Pending)]
                 && b.ledger == sh.ledger && b.held == sh.held
  {
    hide SharedOk, Exec, Served, GivenBack, Alone, Backed;
    var o := sh.repo.orders[oid];
    OrdersBacked(sh, oid);
    var b, p := PaymentPays(sh, t, oid, o, PATIENCE);
    PaidBacked(sh, b, oid, o, p);
    if CanServe(sh, o) {
      var c, left := AfterServes(b, t, oid, p, FromPay, PATIENCE - 2);
      AloneEnds(c, t, left);
      ServedSince(sh, b, c, oid, o, p);
    } else {
      var c, q, left := AfterGives(b, t, oid, p, FromPay, PATIENCE - 2);
      var d := PaymentGivesUp(c, t, oid, q, left);
      assert b.repo.orders[oid := d.repo.orders[oid]] == sh.repo.orders[oid := d.repo.orders[oid]];
    }
  }

  lemma PaymentPays(sh: Shared, t: Tid, oid: OrderId, o: Order, n: nat) returns (b: Shared, p: Order)
    requires oid in sh.repo.orders && sh.repo.orders[oid] == o && o.status == PendingPay && n >= 2
    ensures Alone(sh, t, PayRead(oid), n) == Alone(b, t, After(oid, p, FromPay, ApCommit), n - 2)
    ensures p == o.(status := Paid, version := o.version + 1, amounts := o.amounts.(paid := o.amounts.payable))
    ensures Swapped(sh, b, oid, p)
  {
    hide Exec, Alone, Swapped;
    PayReads(sh, t, oid);
    FirstStep(sh, t, PayRead(oid), n, sh, PayCas(oid, o));
    PaySwaps(sh, t, oid, o);
    var (c, next) := Exec(sh, t, PayCas(oid, o), Succeed);
    FirstStep(sh, t, PayCas(oid, o), n - 1, c, next);
    b, p := c, next.snap;
  }

  lemma PaidBacked(sh: Shared, b: Shared, oid: OrderId, o: Order, p: Order)
    requires Backed(sh, oid, o) && b.offer == sh.offer && b.ledger == sh.ledger
    requires p.reservation == o.reservation && p.redemption == o.redemption && p.freeze == o.freeze
    requires p.amounts.ledgerPay == o.amounts.ledgerPay
    ensures Backed(b, oid, p) && CanServe(b, p) == CanServe(sh, o)
  {
    hide GivenBack;
  }

  lemma PaymentGivesUp(sh: Shared, t: Tid, oid: OrderId, q: Order, n: nat) returns (b: Shared)
    requires oid in sh.repo.orders && sh.repo.orders[oid] == q && q.status == Paid && n >= 2
    ensures Alone(sh, t, PayTicket(oid, q), n) == (b, Returned)
    ensures b.repo.orders == sh.repo.orders[oid := q.(status := Compensating, version := q.version + 1)]
    ensures b.repo.tickets == sh.repo.tickets + [Ticket(AfterPaid(oid), Pending)]
    ensures b.ledger == sh.ledger && b.held == sh.held
  {
    hide Exec, Alone;
    PayGivesUp(sh, t, oid, q);
    var d := sh.(repo := sh.repo.(tickets := sh.repo.tickets + [Ticket(AfterPaid(oid), Pending)]));
    FirstStep(sh, t, PayTicket(oid, q), n, d, PayCompensate(oid, q));
    PayGivesUp(d, t, oid, q);
    b := Exec(d, t, PayCompensate(oid, q), Succeed).0;
    FirstStep(d, t, PayCompensate(oid, q), n - 1, b, Returned);
    AloneEnds(b, t, n - 2);
  }

  lemma ServedSince(sh: Shared, b: Shared, c: Shared, oid: OrderId, o: Order, p: Order)
    requires Served(b, c, oid, p) && o.reservation == p.reservation && o.freeze == p.freeze
    requires b.ledger == sh.ledger && b.held == sh.held && b.hist.trail.payments == sh.hist.trail.payments
    ensures Served(sh, c, oid, o)
  {
  }

  /**
   * A retry left alone serves an order that is PAID or COMPENSATING, or leaves it as it is where it cannot be
   * served.
   */
  lemma RetryAlone(sh: Shared, t: Tid, oid: OrderId, ticket: Option<nat>, n: nat) returns (b: Shared, left: nat)
    requires oid in sh.repo.orders && Backed(sh, oid, sh.repo.orders[oid]) && n >= 6
    ensures var o := sh.repo.orders[oid];
            var ok := o.status in {Fulfilling, Completed} || (o.status in {Paid, Compensating} && CanServe(sh, o));
            && Alone(sh, t, RetryRead(oid, ticket), n) == Alone(b, t, EndRetry(ticket, ok), left) && left + 6 >= n
            && b.repo.tickets == sh.repo.tickets
            && if o.status in {Paid, Compensating} then (if ok then Advances(sh, b, oid, o) else GaveUp(sh, b, oid, o))
               else b == sh
  {
    hide Exec, Served, GivenBack, Alone, EndRetry;
    var o := sh.repo.orders[oid];
    RetryReads(sh, t, oid, ticket);
    if o.status in {Paid, Compensating} {
      FirstStep(sh, t, RetryRead(oid, ticket), n, sh, After(oid, o, FromRetry(ticket), ApCommit));
      if CanServe(sh, o) {
        b, left := AfterServes(sh, t, oid, o, FromRetry(ticket), n - 1);
      } else {
        var p;
        b, p, left := AfterGives(sh, t, oid, o, FromRetry(ticket), n - 1);
      }
    } else {
      b, left := sh, n - 1;
      FirstStep(sh, t, RetryRead(oid, ticket), n, sh, EndRetry(ticket, o.status in {Fulfilling, Completed}));
    }
  }

  lemma RetryReads(sh: Shared, t: Tid, oid: OrderId, ticket: Option<nat>)
    requires oid in sh.repo.orders
    ensures var o := sh.repo.orders[oid];
            Exec(sh, t, RetryRead(oid, ticket), Succeed)
            == (sh, if o.status in {Paid, Compensating} then After(oid, o, FromRetry(ticket), ApCommit)
                    else EndRetry(ticket, o.status in {Fulfilling, Completed}))
  {
    PayIsExec(sh, t, RetryRead(oid, ticket));
    hide Exec, EndRetry;
  }

  // ---------------------------------------------------------------------------
  // Cancellation
  // ---------------------------------------------------------------------------

  /** The ledger with this freeze paid back, if it is open. */
  predicate PaidBackInto(a: L.Ledger, b: L.Ledger, f: Option<FreezeId>) {
    if f.Some? && f.value < |a.freezes| && a.freezes[f.value].state.Open? then
      var h := a.freezes[f.value];
      && b.freezes == a.freezes[f.value := L.Hold(h.account, h.amount, L.Released)]
      && b.balance == a.balance[h.account := L.Get(a.balance, h.account) + h.amount]
      && b == a.(freezes := b.freezes, balance := b.balance)
    else b == a
  }

  /** The reservations with this one released. */
  function ReleasedIn(resv: map<RsvId, F.Reservation>, r: Option<RsvId>): map<RsvId, F.Reservation> {
    if r.Some? && r.value in resv
    then resv[r.value := F.Reservation(resv[r.value].discount, F.Released, resv[r.value].redemption)]
    else resv
  }

  lemma CancelReads(sh: Shared, t: Tid, oid: OrderId, o: Order)
    requires oid in sh.repo.orders && sh.repo.orders[oid] == o && o.status == PendingPay
    ensures Exec(sh, t, CnRead(oid), Succeed) == (sh, CnCas(oid, o))
    ensures var p := o.(status := Cancelled, version := o.version + 1);
            var (b, next) := Exec(sh, t, CnCas(oid, o), Succeed); next == CnOffer(oid, p) && Swapped(sh, b, oid, p)
  {
    CancelIsExec(sh, t, CnRead(oid));
    CancelIsExec(sh, t, CnCas(oid, o));
    CancelSwap(sh, t, oid, o);
    hide Exec, Cas;
  }

  lemma CancelOffers(sh: Shared, t: Tid, oid: OrderId, o: Order)
    ensures var (b, next) := Exec(sh, t, CnOffer(oid, o), Succeed);
            && next == CnLedger(oid, o)
            && b == sh.(offer := sh.offer.(resv := ReleasedIn(sh.offer.resv, o.reservation)),
                        hist := sh.hist.(frees := b.hist.frees))
  {
    hide Exec, Cas, ReleaseFreeze, Unhold;
    CancelIsExec(sh, t, CnOffer(oid, o));
  }

  lemma CancelPays(sh: Shared, t: Tid, oid: OrderId, o: Order)
    ensures var (b, next) := Exec(sh, t, CnLedger(oid, o), Succeed);
            && next == CnFulfil(oid) && PaidBackInto(sh.ledger, b.ledger, o.freeze)
            && b == sh.(ledger := b.ledger, hist := sh.hist.(releases := b.hist.releases))
  {
    hide Exec, Cas, ReleaseReservation, Unhold;
    CancelIsExec(sh, t, CnLedger(oid, o));
  }

  lemma CancelFrees(sh: Shared, t: Tid, oid: OrderId)
    ensures Exec(sh, t, CnFulfil(oid), Succeed) == (sh.(held := sh.held - {oid}), Returned)
  {
    hide Exec, Cas, ReleaseReservation, ReleaseFreeze;
    CancelIsExec(sh, t, CnFulfil(oid));
  }

  /** A cancellation from its swap on. */
  lemma CancelGivesBack(sh: Shared, t: Tid, oid: OrderId, p: Order, n: nat) returns (b: Shared)
    requires n >= 3
    ensures Alone(sh, t, CnOffer(oid, p), n) == (b, Returned)
    ensures b.offer == sh.offer.(resv := ReleasedIn(sh.offer.resv, p.reservation))
    ensures PaidBackInto(sh.ledger, b.ledger, p.freeze) && b.held == sh.held - {oid} && b.repo == sh.repo
  {
    hide Exec, Alone, PaidBackInto, ReleasedIn;
    CancelOffers(sh, t, oid, p);
    var c := Exec(sh, t, CnOffer(oid, p), Succeed).0;
    FirstStep(sh, t, CnOffer(oid, p), n, c, CnLedger(oid, p));
    CancelPays(c, t, oid, p);
    var d := Exec(c, t, CnLedger(oid, p), Succeed).0;
    FirstStep(c, t, CnLedger(oid, p), n - 1, d, CnFulfil(oid));
    CancelFrees(d, t, oid);
    b := d.(held := d.held - {oid});
    FirstStep(d, t, CnFulfil(oid), n - 2, b, Returned);
    AloneEnds(b, t, n - 3);
  }

  /**
   * A cancellation left alone: the order is CANCELLED, its reservation released, its freeze paid back, its goods
   * free.
   */
  lemma CancelAlone(sh: Shared, t: Tid, oid: OrderId)
    requires oid in sh.repo.orders && sh.repo.orders[oid].status == PendingPay
    ensures var (b, pc) := Alone(sh, t, CnRead(oid), PATIENCE);
            var o := sh.repo.orders[oid];
            && pc == Returned
            && b.repo.orders == sh.repo.orders[oid := o.(status := Cancelled, version := o.version + 1)]
            && b.offer == sh.offer.(resv := ReleasedIn(sh.offer.resv, o.reservation))
            && PaidBackInto(sh.ledger, b.ledger, o.freeze)
            && b.held == sh.held - {oid}
            && b.repo.tickets == sh.repo.tickets
  {
    hide Exec, Alone, PaidBackInto, ReleasedIn;
    var o := sh.repo.orders[oid];
    var p := o.(status := Cancelled, version := o.version + 1);
    CancelReads(sh, t, oid, o);
    FirstStep(sh, t, CnRead(oid), PATIENCE, sh, CnCas(oid, o));
    var b := Exec(sh, t, CnCas(oid, o), Succeed).0;
    FirstStep(sh, t, CnCas(oid, o), PATIENCE - 1, b, CnOffer(oid, p));
    var e := CancelGivesBack(b, t, oid, p, PATIENCE - 2);
  }

  // ---------------------------------------------------------------------------
  // Completion and close
  // ---------------------------------------------------------------------------

  lemma CompleteAlone(sh: Shared, t: Tid, oid: OrderId)
    requires oid in sh.repo.orders && sh.repo.orders[oid].status in {Fulfilling, Paid}
    ensures var (b, pc) := Alone(sh, t, CoRead(oid), PATIENCE);
            var o := sh.repo.orders[oid];
            pc == Returned && Swapped(sh, b, oid, o.(status := Completed, version := o.version + 1))
  {
    hide Exec, Alone, Swapped;
    var o := sh.repo.orders[oid];
    CompleteSteps(sh, t, oid, o);
    FirstStep(sh, t, CoRead(oid), PATIENCE, sh, CoCas(oid, o));
    var b := Exec(sh, t, CoCas(oid, o), Succeed).0;
    FirstStep(sh, t, CoCas(oid, o), PATIENCE - 1, b, Returned);
    AloneEnds(b, t, PATIENCE - 2);
  }

  lemma CompleteSteps(sh: Shared, t: Tid, oid: OrderId, o: Order)
    requires oid in sh.repo.orders && sh.repo.orders[oid] == o && o.status in {Fulfilling, Paid}
    ensures Exec(sh, t, CoRead(oid), Succeed) == (sh, CoCas(oid, o))
    ensures var (b, next) := Exec(sh, t, CoCas(oid, o), Succeed);
            next == Returned && Swapped(sh, b, oid, o.(status := Completed, version := o.version + 1))
  {
    CloseIsExec(sh, t, CoRead(oid));
    CloseIsExec(sh, t, CoCas(oid, o));
    CompleteSwap(sh, t, oid, o);
    hide Exec, Cas, Swapped;
  }

  /** What is left of the order's money once `refunded` of it went back. */
  function Remaining(o: Order): int { o.amounts.paid - o.amounts.refunded }

  /** The account a close credits: the order's own, or that of its currency when it names no asset. */
  function CloseAccount(o: Order): L.Account {
    L.Account(o.tenant, o.buyer, if o.asset == "" then o.amounts.currency else o.asset)
  }

  /** What a close credits: the ledger share of all that is left. */
  function CloseDue(o: Order): int { if 0 < Remaining(o) <= MAX then LedgerDue(o.amounts, Remaining(o)) else 0 }

  /** The payments with one more, unless there is nothing to pay. */
  function Paying(payments: seq<Payment>, p: Payment): seq<Payment> {
    if p.amount > 0 then payments + [p] else payments
  }

  /** A close reverses all of a redeemed discount; before there is a redemption it releases the reservation. */
  predicate OfferClosed(a: F.Offer, b: F.Offer, o: Order) {
    if o.redemption.Some? && o.amounts.discount > 0 then
      && o.redemption.value in a.redeem
      && b == a.(redeem := a.redeem[o.redemption.value :=
                   F.Redemption(a.redeem[o.redemption.value].discount, a.redeem[o.redemption.value].discount)])
    else if o.reservation.Some? && o.redemption.None? then b == a.(resv := ReleasedIn(a.resv, o.reservation))
    else b == a
  }

  lemma CloseReads(sh: Shared, t: Tid, oid: OrderId, o: Order)
    requires oid in sh.repo.orders && sh.repo.orders[oid] == o
    requires o.scene.allowClose && o.status in {Paid, Fulfilling, Completed}
    ensures Exec(sh, t, ClRead(oid), Succeed) == (sh, ClOffer(oid, o))
  {
    hide Exec, Cas, Reverse, Credit, SplitRefund, ReleaseReservation;
    CloseIsExec(sh, t, ClRead(oid));
  }

  lemma CloseSwaps(sh: Shared, t: Tid, oid: OrderId, o: Order)
    requires oid in sh.repo.orders && sh.repo.orders[oid] == o && o.status in {Paid, Fulfilling, Completed}
    ensures var (b, next) := Exec(sh, t, ClCas(oid, o), Succeed);
            next == Returned && Swapped(sh, b, oid, o.(status := Closed, version := o.version + 1))
  {
    hide Exec, Cas, Swapped, Reverse, Credit, SplitRefund, ReleaseReservation;
    CloseIsExec(sh, t, ClCas(oid, o));
    CloseSwap(sh, t, oid, o);
  }

  lemma CloseTakesBack(sh: Shared, t: Tid, oid: OrderId, o: Order)
    requires o.redemption.Some? ==>
               o.redemption.value in sh.offer.redeem && F.ReversedWithin(sh.offer.redeem[o.redemption.value])
    ensures var (b, next) := Exec(sh, t, ClOffer(oid, o), Succeed);
            && next == ClCredit(oid, o) && OfferClosed(sh.offer, b.offer, o)
            && b == sh.(offer := b.offer, hist := sh.hist.(frees := b.hist.frees))
  {
    hide Exec, Cas, Credit, SplitRefund, F.Reversal;
    CloseIsExec(sh, t, ClOffer(oid, o));
    if o.redemption.Some? { F.ReversalWithin(sh.offer.redeem[o.redemption.value], 0); }
  }

  lemma CreditPays(sh: Shared, oid: OrderId, k: L.Account, amount: int)
    ensures var b := Credit(sh, oid, k, amount);
            && b.hist.trail.payments == sh.hist.trail.payments + [Payment(oid, Wallet(k), amount)]
            && b == sh.(ledger := b.ledger,
                 hist := sh.hist.(trail := sh.hist.trail.(payments := b.hist.trail.payments)))
  {
  }

  lemma ClosePays(sh: Shared, t: Tid, oid: OrderId, o: Order)
    requires Balanced(o.amounts) && 0 <= o.amounts.refunded <= o.amounts.paid == o.amounts.payable
    ensures var (b, next) := Exec(sh, t, ClCredit(oid, o), Succeed);
            && next == ClFulfil(oid, o)
            && b.hist.trail.payments
               == Paying(sh.hist.trail.payments, Payment(oid, Wallet(CloseAccount(o)), CloseDue(o)))
            && b == sh.(ledger := b.ledger,
                 hist := sh.hist.(trail := sh.hist.trail.(payments := b.hist.trail.payments)))
  {
    hide Exec, SplitRefund, MulDiv, Cas, Reverse, ReleaseReservation, Credit;
    CloseIsExec(sh, t, ClCredit(oid, o));
    var remain: I64 := Remaining(o);
    CreditPays(sh, oid, CloseAccount(o), SplitRefund(o.amounts, remain).ledger);
    if remain > 0 {
      SplitExact(o.amounts, remain);
      if o.amounts.ledgerPay == 0 { MulDivExact(0, remain, o.amounts.payable); }
    }
  }

  lemma CloseFrees(sh: Shared, t: Tid, oid: OrderId, o: Order)
    ensures Exec(sh, t, ClFulfil(oid, o), Succeed) == (sh.(held := sh.held - {oid}), ClCas(oid, o))
  {
    hide Exec, Cas, Reverse, Credit, SplitRefund, ReleaseReservation;
    CloseIsExec(sh, t, ClFulfil(oid, o));
  }

  /** What a close does before its swap: the offer closed, the ledger share of the rest credited, the goods free. */
  predicate Closing(sh: Shared, b: Shared, oid: OrderId, o: Order) {
    && OfferClosed(sh.offer, b.offer, o)
    && b.hist.trail.payments
       == Paying(sh.hist.trail.payments, Payment(oid, Wallet(CloseAccount(o)), CloseDue(o)))
    && b.held == sh.held - {oid}
  }

  lemma CloseEffects(sh: Shared, t: Tid, oid: OrderId, o: Order, n: nat) returns (b: Shared)
    requires Balanced(o.amounts) && 0 <= o.amounts.refunded <= o.amounts.paid == o.amounts.payable && n >= 3
    requires o.redemption.Some? ==>
               o.redemption.value in sh.offer.redeem && F.ReversedWithin(sh.offer.redeem[o.redemption.value])
    ensures Alone(sh, t, ClOffer(oid, o), n) == Alone(b, t, ClCas(oid, o), n - 3)
    ensures Closing(sh, b, oid, o) && b.repo == sh.repo
  {
    hide Exec, Alone, OfferClosed, Paying, CloseDue, Balanced;
    CloseTakesBack(sh, t, oid, o);
    var c := Exec(sh, t, ClOffer(oid, o), Succeed).0;
    FirstStep(sh, t, ClOffer(oid, o), n, c, ClCredit(oid, o));
    ClosePays(c, t, oid, o);
    var d := Exec(c, t, ClCredit(oid, o), Succeed).0;
    FirstStep(c, t, ClCredit(oid, o), n - 1, d, ClFulfil(oid, o));
    CloseFrees(d, t, oid, o);
    b := d.(held := d.held - {oid});
    FirstStep(d, t, ClFulfil(oid, o), n - 2, b, ClCas(oid, o));
  }

  /**
   * A close left alone: the order is CLOSED, the rest of its discount reversed or its reservation released,
   * the ledger share of what was not refunded credited, its goods free.
   */
  lemma CloseAlone(sh: Shared, t: Tid, oid: OrderId)
    requires SharedOk(sh) && oid in sh.repo.orders && sh.repo.orders[oid].scene.allowClose
    requires sh.repo.orders[oid].status in {Paid, Fulfilling, Completed}
    ensures var (b, pc) := Alone(sh, t, ClRead(oid), PATIENCE);
            var o := sh.repo.orders[oid];
            && pc == Returned
            && b.repo.orders == sh.repo.orders[oid := o.(status := Closed, version := o.version + 1)]
            && Closing(sh, b, oid, o)
            && b.repo.tickets == sh.repo.tickets
  {
    hide SharedOk, Exec, Alone, OfferClosed, Paying, CloseDue, Balanced;
    var o := sh.repo.orders[oid];
    ClosableFacts(sh, oid);
    CloseReads(sh, t, oid, o);
    FirstStep(sh, t, ClRead(oid), PATIENCE, sh, ClOffer(oid, o));
    var d := CloseEffects(sh, t, oid, o, PATIENCE - 1);
    CloseSwaps(d, t, oid, o);
    var e := Exec(d, t, ClCas(oid, o), Succeed).0;
    FirstStep(d, t, ClCas(oid, o), PATIENCE - 4, e, Returned);
    AloneEnds(e, t, PATIENCE - 5);
  }

  lemma ClosableFacts(sh: Shared, oid: OrderId)
    requires SharedOk(sh) && oid in sh.repo.orders && Settled(sh.repo.orders[oid].status)
    ensures var o := sh.repo.orders[oid];
            && Balanced(o.amounts) && 0 <= o.amounts.refunded <= o.amounts.paid == o.amounts.payable
            && Fits(Remaining(o))
            && (o.redemption.Some? ==>
                  o.redemption.value in sh.offer.redeem && F.ReversedWithin(sh.offer.redeem[o.redemption.value]))
  {
    hide SharedOk, OrderOk, MoneyByStatus, F.ReversedWithin, Balanced, Fits;
    OrderFacts(sh, oid);
    RedemptionsKnown(sh);
    var o := sh.repo.orders[oid];
    FieldsKnown(sh, oid, o);
    SettledMoney(o);
  }

  lemma FieldsKnown(sh: Shared, oid: OrderId, o: Order)
    requires OrderOk(sh.hist, sh.ledger, sh.offer, oid, o)
    ensures MoneyByStatus(o.status, o.amounts) && (o.redemption.Some? ==> o.redemption.value in sh.offer.redeem)
  {
    hide MoneyByStatus, VersionWithin, Offered, PathFits, CreditsWithin, CreditedTo, HoldsFreeze, HoldsReservation;
  }

  lemma SettledMoney(o: Order)
    requires MoneyByStatus(o.status, o.amounts) && Settled(o.status)
    ensures Balanced(o.amounts) && 0 <= o.amounts.refunded <= o.amounts.paid == o.amounts.payable
    ensures Fits(Remaining(o))
  {
  }

  lemma RedemptionsKnown(sh: Shared)
    requires SharedOk(sh)
    ensures forall id :: id in sh.offer.redeem ==> F.ReversedWithin(sh.offer.redeem[id])
  {
    hide OrdersOk, IndexOk, LogOk, LedgerOk, OpeningOk, FreezeCallsOk, OfferCallsOk, TicketsOk, CompensatingOk,
      AdvancesOk, PaymentsOk;
  }

  // ---------------------------------------------------------------------------
  // Refund
  // ---------------------------------------------------------------------------

  /**
   * A refund reverses its share of the discount, or all that is left of it when it is the last or its share is
   * none.
   */
  predicate RefundTakesBack(sh: Shared, b: Shared, o: Order, amount: I64, full: bool)
    requires o.amounts.payable > 0 && (o.redemption.Some? ==> o.redemption.value in sh.offer.redeem)
  {
    if o.redemption.None? then b.offer == sh.offer && b.repo.tickets == sh.repo.tickets
    else
      var id := o.redemption.value;
      var rd := sh.offer.redeem[id];
      var left, share := rd.discount - rd.reversed, MulDiv(o.amounts.discount, amount, o.amounts.payable);
      if full || share <= left then
        && b.offer == sh.offer.(redeem := sh.offer.redeem[id :=
                        F.Redemption(rd.discount, if full || share <= 0 then rd.discount else rd.reversed + share)])
        && b.repo.tickets == sh.repo.tickets
      else b.offer == sh.offer && b.repo.tickets == sh.repo.tickets + [Ticket(OfferReverse(id), Pending)]
  }

  lemma RefundReads(sh: Shared, t: Tid, oid: OrderId, o: Order, cmd: RefundCmd, amount: I64)
    requires oid in sh.repo.orders && sh.repo.orders[oid] == o
    requires RefundableStatus(o.status) && Resolve(o.lines, RefundableAmount(o), cmd) == Ok(amount)
    ensures Exec(sh, t, RfRead(oid, cmd), Succeed) == (sh, RfCas(oid, o, amount))
  {
    hide Exec, Cas, SplitRefund, Credit, Reverse, ReverseDiscount, Resolve, RefundableAmount, RefundableStatus;
    RefundIsExec(sh, t, RfRead(oid, cmd));
  }

  lemma RefundStarts(sh: Shared, t: Tid, oid: OrderId, o: Order, amount: I64)
    requires oid in sh.repo.orders && sh.repo.orders[oid] == o && RefundableStatus(o.status)
    ensures var p := o.(status := Refunding, version := o.version + 1);
            var (b, next) := Exec(sh, t, RfCas(oid, o, amount), Succeed);
            next == RfChannel(oid, p, amount) && Swapped(sh, b, oid, p)
  {
    hide Exec, Cas, SplitRefund, Credit, Reverse, ReverseDiscount, Swapped, RefundableStatus;
    RefundIsExec(sh, t, RfCas(oid, o, amount));
    RefundStartSwap(sh, t, oid, o);
  }

  lemma RefundPays(sh: Shared, t: Tid, oid: OrderId, p: Order, amount: I64)
    requires Refundable(p.amounts, amount)
    ensures var (b, next) := Exec(sh, t, RfChannel(oid, p, amount), Succeed);
            && next == RfCredit(oid, p, amount)
            && b == sh.(hist := sh.hist.(trail := sh.hist.trail.(payments :=
                      Paying(sh.hist.trail.payments, Payment(oid, Channel, ChannelDue(p.amounts, amount))))))
  {
    hide Exec, Cas, SplitRefund, Credit, Reverse, ReverseDiscount, MulDiv;
    RefundIsExec(sh, t, RfChannel(oid, p, amount));
    SplitExact(p.amounts, amount);
  }

  lemma RefundCredits(sh: Shared, t: Tid, oid: OrderId, p: Order, amount: I64)
    requires Refundable(p.amounts, amount)
    ensures var (b, next) := Exec(sh, t, RfCredit(oid, p, amount), Succeed);
            && next == RfReverse(oid, p, amount)
            && b.hist.trail.payments
               == Paying(sh.hist.trail.payments, Payment(oid, Wallet(AccountOf(p)), LedgerDue(p.amounts, amount)))
            && b == sh.(ledger := b.ledger,
                 hist := sh.hist.(trail := sh.hist.trail.(payments := b.hist.trail.payments)))
  {
    hide Exec, Cas, SplitRefund, Credit, Reverse, ReverseDiscount, AccountOf, Refundable, LedgerDue;
    RefundIsExec(sh, t, RfCredit(oid, p, amount));
    CreditPays(sh, oid, AccountOf(p), SplitRefund(p.amounts, amount).ledger);
    LedgerPart(p.amounts, amount);
  }

  /** The ledger part of the split is what the ledger is due, and only ledger money makes it positive. */
  lemma LedgerPart(a: Amounts, amount: I64)
    requires Refundable(a, amount)
    ensures var part := SplitRefund(a, amount).ledger;
            LedgerDue(a, amount) == (if part > 0 then part else 0) && (part > 0 ==> a.ledgerPay > 0)
  {
    hide SplitRefund, MulDiv;
    SplitExact(a, amount);
    if a.ledgerPay == 0 { MulDivExact(0, amount, a.payable); }
  }

  /** What the program asks to reverse, and what that means for the redemption. */
  lemma RefundShare(rd: F.Redemption, a: Amounts, amount: I64, full: bool)
    requires Refundable(a, amount) && F.ReversedWithin(rd) && rd.discount == a.discount
    ensures var left, share := rd.discount - rd.reversed, MulDiv(a.discount, amount, a.payable);
            F.Reversal(rd, ReverseDiscount(a, amount, full))
            == if full || share <= left then
                 Ok(F.Redemption(rd.discount, if full || share <= 0 then rd.discount else rd.reversed + share))
               else Err(InvalidArgument)
  {
    hide MulDiv;
    F.ReversalWithin(rd, ReverseDiscount(a, amount, full));
    if a.discount == 0 { MulDivExact(0, amount, a.payable); }
  }

  lemma RefundReverses(sh: Shared, t: Tid, oid: OrderId, p: Order, amount: I64, n: nat) returns (b: Shared, left: nat)
    requires Refundable(p.amounts, amount) && n >= 2
    requires p.redemption.Some? ==>
               && p.redemption.value in sh.offer.redeem && F.ReversedWithin(sh.offer.redeem[p.redemption.value])
               && sh.offer.redeem[p.redemption.value].discount == p.amounts.discount
    ensures Alone(sh, t, RfReverse(oid, p, amount), n) == Alone(b, t, RfFinish(oid, p, amount), left) && left + 2 >= n
    ensures RefundTakesBack(sh, b, p, amount, IsFull(p, amount))
    ensures b == sh.(offer := b.offer, repo := sh.repo.(tickets := b.repo.tickets))
  {
    hide Exec, Alone, IsFull, ReverseDiscount, MulDiv, RefundTakesBack, F.ReversedWithin, Balanced;
    ReverseTried(sh, t, oid, p, amount);
    var (c, next) := Exec(sh, t, RfReverse(oid, p, amount), Succeed);
    FirstStep(sh, t, RfReverse(oid, p, amount), n, c, next);
    b, left := c, n - 1;
    if next != RfFinish(oid, p, amount) {
      TicketLeft(c, t, oid, p, amount);
      b, left := Exec(c, t, next, Succeed).0, n - 2;
      FirstStep(c, t, next, n - 1, b, RfFinish(oid, p, amount));
    }
  }

  lemma ReverseTried(sh: Shared, t: Tid, oid: OrderId, p: Order, amount: I64)
    requires Refundable(p.amounts, amount)
    requires p.redemption.Some? ==>
               && p.redemption.value in sh.offer.redeem && F.ReversedWithin(sh.offer.redeem[p.redemption.value])
               && sh.offer.redeem[p.redemption.value].discount == p.amounts.discount
    ensures var (b, next) := Exec(sh, t, RfReverse(oid, p, amount), Succeed);
            if next == RfFinish(oid, p, amount)
            then RefundTakesBack(sh, b, p, amount, IsFull(p, amount)) && b == sh.(offer := b.offer)
            else
              && b == sh && next == RfReverseTicket(oid, p, amount) && p.redemption.Some?
              && var c := sh.(repo := sh.repo.(tickets :=
                        sh.repo.tickets + [Ticket(OfferReverse(p.redemption.value), Pending)]));
              RefundTakesBack(sh, c, p, amount, IsFull(p, amount))
  {
    hide Exec, Cas, SplitRefund, Credit, ReverseDiscount, MulDiv, IsFull, F.Reversal;
    RefundIsExec(sh, t, RfReverse(oid, p, amount));
    if p.redemption.Some? { RefundShare(sh.offer.redeem[p.redemption.value], p.amounts, amount, IsFull(p, amount)); }
  }

  lemma TicketLeft(sh: Shared, t: Tid, oid: OrderId, p: Order, amount: I64)
    requires p.redemption.Some?
    ensures Exec(sh, t, RfReverseTicket(oid, p, amount), Succeed)
            == (sh.(repo := sh.repo.(tickets :=
                  sh.repo.tickets + [Ticket(OfferReverse(p.redemption.value), Pending)])),
                RfFinish(oid, p, amount))
  {
    hide Exec, Cas, SplitRefund, Credit, Reverse, ReverseDiscount;
    RefundIsExec(sh, t, RfReverseTicket(oid, p, amount));
  }

  lemma RefundFinishes(sh: Shared, t: Tid, oid: OrderId, p: Order, amount: I64)
    requires oid in sh.repo.orders && sh.repo.orders[oid] == p && p.status == Refunding && 0 < amount
    requires Fits(p.amounts.refunded + amount)
    ensures var (b, next) := Exec(sh, t, RfFinish(oid, p, amount), Succeed);
            && next == Returned
            && Swapped(sh, b, oid, p.(
                 status := if p.amounts.refunded + amount == p.amounts.paid then Refunded else PartialRefunded,
                 version := p.version + 1, amounts := p.amounts.(refunded := p.amounts.refunded + amount)))
  {
    hide Exec, Cas, SplitRefund, Credit, Reverse, ReverseDiscount, Swapped;
    RefundIsExec(sh, t, RfFinish(oid, p, amount));
    RefundEndSwap(sh, t, oid, p, amount, IsFull(p, amount));
  }

  lemma RefundableFacts(sh: Shared, oid: OrderId)
    requires SharedOk(sh) && oid in sh.repo.orders && RefundableStatus(sh.repo.orders[oid].status)
    ensures var o := sh.repo.orders[oid];
            && Balanced(o.amounts) && 0 <= o.amounts.refunded <= o.amounts.paid == o.amounts.payable
            && RefundableAmount(o) == o.amounts.paid - o.amounts.refunded
            && (o.redemption.Some? ==>
                  && o.redemption.value in sh.offer.redeem && F.ReversedWithin(sh.offer.redeem[o.redemption.value])
                  && sh.offer.redeem[o.redemption.value].discount == o.amounts.discount)
  {
    hide SharedOk, HoldsRedemption, HoldsReservation;
    ClosableFacts(sh, oid);
    if sh.repo.orders[oid].redemption.Some? { RedeemedDiscount(sh, oid); }
  }

  /** A redemption is for the discount of its order. */
  lemma RedeemedDiscount(sh: Shared, oid: OrderId)
    requires SharedOk(sh) && oid in sh.repo.orders && sh.repo.orders[oid].redemption.Some?
    ensures var o := sh.repo.orders[oid];
            o.redemption.value in sh.offer.redeem && sh.offer.redeem[o.redemption.value].discount == o.amounts.discount
  {
    hide SharedOk, FieldsOk, PathFits, CreditsWithin, HoldsFreeze;
    OrderFacts(sh, oid);
    OfferSound(sh);
  }

  lemma OfferSound(sh: Shared)
    requires SharedOk(sh)
    ensures forall id :: id in sh.offer.redeem ==>
              id.rsv in sh.offer.resv && sh.offer.redeem[id].discount == sh.offer.resv[id.rsv].discount
  {
    hide OrdersOk, IndexOk, LogOk, LedgerOk, OpeningOk, FreezeCallsOk, OfferCallsOk, TicketsOk, CompensatingOk,
      AdvancesOk, PaymentsOk;
  }

  /** Everything a refund owes was paid and the order says so. */
  predicate PaidOut(sh: Shared, b: Shared, oid: OrderId, o: Order, amount: I64) {
    && Fits(o.amounts.refunded + amount)
    && b.repo.orders == sh.repo.orders[oid := o.(
         status := if o.amounts.refunded + amount == o.amounts.paid then Refunded else PartialRefunded,
         version := o.version + 2,
         amounts := o.amounts.(refunded := o.amounts.refunded + amount))]
    && b.hist.trail.payments
       == Paying(Paying(sh.hist.trail.payments, Payment(oid, Channel, ChannelDue(o.amounts, amount))),
                 Payment(oid, Wallet(AccountOf(o)), LedgerDue(o.amounts, amount)))
    && b.held == sh.held
  }

  /**
   * A refund left alone: what the request resolves to is refunded in full, the channel's part through the
   * channel, the ledger's share to the order's account, and the discount's share taken back or ticketed.
   */
  lemma RefundAlone(sh: Shared, t: Tid, oid: OrderId, o: Order, cmd: RefundCmd, amount: I64)
    requires SharedOk(sh) && oid in sh.repo.orders && sh.repo.orders[oid] == o
    requires o.status in {Paid, Fulfilling, Completed, PartialRefunded}
    requires Resolve(o.lines, RefundableAmount(o), cmd) == Ok(amount)
    ensures var (b, pc) := Alone(sh, t, RfRead(oid, cmd), PATIENCE);
            && pc == Returned && PaidOut(sh, b, oid, o, amount)
            && o.amounts.payable > 0 && (o.redemption.Some? ==> o.redemption.value in sh.offer.redeem)
            && RefundTakesBack(sh, b, o, amount, o.amounts.refunded + amount == o.amounts.paid)
  {
    hide SharedOk, Exec, Alone, Paying, LedgerDue, ChannelDue, AccountOf, Balanced, F.ReversedWithin, RefundTakesBack;
    hide RefundableAmount;
    RefundableFacts(sh, oid);
    var p := o.(status := Refunding, version := o.version + 1);
    var b := RefundEnters(sh, t, oid, o, cmd, amount, PATIENCE);
    RefundAmountFits(o, amount);
    var c := RefundGoesThrough(b, t, oid, p, amount, PATIENCE - 2);
    TakenBackSince(sh, b, c, o, p, amount);
    AccountStays(o, p);
  }

  /** A refund up to its first swap. */
  lemma RefundEnters(sh: Shared, t: Tid, oid: OrderId, o: Order, cmd: RefundCmd, amount: I64, n: nat)
    returns (b: Shared)
    requires oid in sh.repo.orders && sh.repo.orders[oid] == o && RefundableStatus(o.status) && n >= 2
    requires Resolve(o.lines, RefundableAmount(o), cmd) == Ok(amount)
    ensures var p := o.(status := Refunding, version := o.version + 1);
            && Alone(sh, t, RfRead(oid, cmd), n) == Alone(b, t, RfChannel(oid, p, amount), n - 2)
            && Swapped(sh, b, oid, p)
  {
    hide Exec, Alone, RefundableAmount, Resolve, Swapped, RefundableStatus;
    RefundReads(sh, t, oid, o, cmd, amount);
    FirstStep(sh, t, RfRead(oid, cmd), n, sh, RfCas(oid, o, amount));
    RefundStarts(sh, t, oid, o, amount);
    b := Exec(sh, t, RfCas(oid, o, amount), Succeed).0;
    var p := o.(status := Refunding, version := o.version + 1);
    FirstStep(sh, t, RfCas(oid, o, amount), n - 1, b, RfChannel(oid, p, amount));
  }

  lemma RefundAmountFits(o: Order, amount: I64)
    requires Balanced(o.amounts) && 0 < amount <= o.amounts.paid - o.amounts.refunded
    ensures Refundable(o.amounts, amount) && 0 <= o.amounts.refunded && Fits(o.amounts.refunded + amount)
  {
  }

  lemma AccountStays(o: Order, p: Order)
    requires o.tenant == p.tenant && o.buyer == p.buyer && o.asset == p.asset
    ensures AccountOf(o) == AccountOf(p)
  {
  }

  lemma TakenBackSince(sh: Shared, b: Shared, c: Shared, o: Order, p: Order, amount: I64)
    requires sh.offer == b.offer && sh.repo.tickets == b.repo.tickets
    requires o.redemption == p.redemption && o.amounts == p.amounts && o.amounts.payable > 0
    requires o.redemption.Some? ==> o.redemption.value in sh.offer.redeem
    ensures RefundTakesBack(sh, c, o, amount, o.amounts.refunded + amount == o.amounts.paid)
            == RefundTakesBack(b, c, p, amount, o.amounts.refunded + amount == o.amounts.paid)
  {
  }

  /** Both parts of a refund paid. */
  lemma RefundPaysOut(sh: Shared, t: Tid, oid: OrderId, p: Order, amount: I64, n: nat) returns (b: Shared)
    requires Refundable(p.amounts, amount) && n >= 2
    ensures Alone(sh, t, RfChannel(oid, p, amount), n) == Alone(b, t, RfReverse(oid, p, amount), n - 2)
    ensures b.hist.trail.payments
            == Paying(Paying(sh.hist.trail.payments, Payment(oid, Channel, ChannelDue(p.amounts, amount))),
                      Payment(oid, Wallet(AccountOf(p)), LedgerDue(p.amounts, amount)))
    ensures b.repo == sh.repo && b.offer == sh.offer && b.held == sh.held
  {
    hide Exec, Alone, Paying, LedgerDue, ChannelDue, AccountOf, Balanced, MulDiv;
    RefundPays(sh, t, oid, p, amount);
    var c := Exec(sh, t, RfChannel(oid, p, amount), Succeed).0;
    FirstStep(sh, t, RfChannel(oid, p, amount), n, c, RfCredit(oid, p, amount));
    RefundCredits(c, t, oid, p, amount);
    b := Exec(c, t, RfCredit(oid, p, amount), Succeed).0;
    FirstStep(c, t, RfCredit(oid, p, amount), n - 1, b, RfReverse(oid, p, amount));
  }

  /** A refund from the first swap on. */
  lemma RefundGoesThrough(sh: Shared, t: Tid, oid: OrderId, p: Order, amount: I64, n: nat) returns (b: Shared)
    requires oid in sh.repo.orders && sh.repo.orders[oid] == p && p.status == Refunding && n >= 6
    requires Refundable(p.amounts, amount) && 0 <= p.amounts.refunded && Fits(p.amounts.refunded + amount)
    requires p.redemption.Some? ==>
               && p.redemption.value in sh.offer.redeem && F.ReversedWithin(sh.offer.redeem[p.redemption.value])
               && sh.offer.redeem[p.redemption.value].discount == p.amounts.discount
    ensures Alone(sh, t, RfChannel(oid, p, amount), n) == (b, Returned)
    ensures b.repo.orders == sh.repo.orders[oid := p.(
              status := if p.amounts.refunded + amount == p.amounts.paid then Refunded else PartialRefunded,
              version := p.version + 1, amounts := p.amounts.(refunded := p.amounts.refunded + amount))]
    ensures b.hist.trail.payments
            == Paying(Paying(sh.hist.trail.payments, Payment(oid, Channel, ChannelDue(p.amounts, amount))),
                      Payment(oid, Wallet(AccountOf(p)), LedgerDue(p.amounts, amount)))
    ensures RefundTakesBack(sh, b, p, amount, p.amounts.refunded + amount == p.amounts.paid) && b.held == sh.held
  {
    hide Exec, Alone, Paying, LedgerDue, ChannelDue, AccountOf, Balanced, F.ReversedWithin, MulDiv;
    var d := RefundPaysOut(sh, t, oid, p, amount, n);
    var e, left := RefundReverses(d, t, oid, p, amount, n - 2);
    RefundFinishes(e, t, oid, p, amount);
    b := Exec(e, t, RfFinish(oid, p, amount), Succeed).0;
    FirstStep(e, t, RfFinish(oid, p, amount), left, b, Returned);
    AloneEnds(b, t, left - 1);
  }

  /** A refund that the order's status or the request does not allow changes nothing. */
  lemma RefundRefused(sh: Shared, t: Tid, oid: OrderId, cmd: RefundCmd)
    requires oid in sh.repo.orders ==>
               var o := sh.repo.orders[oid];
               o.status !in {Paid, Fulfilling, Completed, PartialRefunded}
                 || Resolve(o.lines, RefundableAmount(o), cmd).Err?
    ensures Alone(sh, t, RfRead(oid, cmd), PATIENCE) == (sh, Returned)
  {
    hide Exec, Alone, Resolve, RefundableAmount, Cas, SplitRefund, Credit, Reverse, ReverseDiscount;
    RefundIsExec(sh, t, RfRead(oid, cmd));
    FirstStep(sh, t, RfRead(oid, cmd), PATIENCE, sh, Returned);
    AloneEnds(sh, t, PATIENCE - 1);
  }
}

/** A call that runs by itself and whose steps all succeed: where it gets, and what each swap then does. */
module SagaAlone {
  import opened Base
  import opened Int64
  import opened Orders
  import opened SagaState
  import opened SagaProgram

  /** Where `n` steps take the call, all of them its own and all succeeding. */
  function Alone(sh: Shared, t: Tid, pc: Pc, n: nat): (Shared, Pc)
    decreases n
  {
    if n == 0 then (sh, pc)
    else
      var (b, next) := Exec(sh, t, pc, Succeed);
      Alone(b, t, next, n - 1)
  }

  /** No call takes more steps than this. */
  const PATIENCE: nat := 12

  function Steps(t: Tid, n: nat): seq<Action> { if n == 0 then [] else Steps(t, n - 1) + [Run(t, Succeed)] }

  /** A call left alone is a run. */
  lemma {:induction false} AloneIsRun(s: State, t: Tid, n: nat)
    requires t in s.threads
    ensures ValidRun(s, Steps(t, n))
    ensures var (b, pc) := Alone(s.sh, t, s.threads[t], n); Final(s, Steps(t, n)) == State(b, s.threads[t := pc])
  {
    hide Exec;
    var acts := Steps(t, n);
    if n == 0 {
      assert s.threads[t := s.threads[t]] == s.threads;
    } else {
      assert acts[..|acts| - 1] == Steps(t, n - 1) && acts[|acts| - 1] == Run(t, Succeed);
      AloneIsRun(s, t, n - 1);
      LastStep(s.sh, t, s.threads[t], n - 1);
      var mid := Final(s, Steps(t, n - 1));
      assert Final(s, acts).threads == s.threads[t := Alone(s.sh, t, s.threads[t], n).1];
    }
  }

  lemma {:induction false} LastStep(sh: Shared, t: Tid, pc: Pc, n: nat)
    ensures var (b, next) := Alone(sh, t, pc, n); Alone(sh, t, pc, n + 1) == Exec(b, t, next, Succeed)
    decreases n
  {
    hide Exec;
    var (b, next) := Exec(sh, t, pc, Succeed);
    if n > 0 { LastStep(b, t, next, n - 1); }
  }

  lemma FirstStep(sh: Shared, t: Tid, pc: Pc, n: nat, b: Shared, next: Pc)
    requires n > 0 && Exec(sh, t, pc, Succeed) == (b, next)
    ensures Alone(sh, t, pc, n) == Alone(b, t, next, n - 1)
  {
    hide Exec;
  }

  lemma {:induction false} AloneEnds(sh: Shared, t: Tid, n: nat)
    ensures Alone(sh, t, Returned, n) == (sh, Returned)
  {
    hide CheckoutStep, PayStep, AfterPaidStep, CancelStep, RefundStep, CloseStep, TicketStep, ReconStep;
    if n > 0 { AloneEnds(sh, t, n - 1); }
  }

  // ---------------------------------------------------------------------------
  // Swaps
  // ---------------------------------------------------------------------------

  /** The order replaced, with the events and the history that go with it; nothing else changed. */
  predicate Swapped(sh: Shared, b: Shared, oid: OrderId, p: Order) {
    && b == sh.(repo := b.repo,
         hist := sh.hist.(path := b.hist.path, canceller := b.hist.canceller, trail := b.hist.trail))
    && b.repo == sh.repo.(orders := sh.repo.orders[oid := p], log := b.repo.log)
    && b.hist.trail.payments == sh.hist.trail.payments
  }

  lemma Swap(sh: Shared, t: Tid, oid: OrderId, req: Request, snap: Order)
    requires oid in sh.repo.orders && sh.repo.orders[oid].version == snap.version
    requires FromMatches(CommandOf(req, snap), sh.repo.orders[oid].status)
    requires CanTransition(sh.repo.orders[oid].status, CommandOf(req, snap).to)
    ensures var (b, p) := Cas(sh, t, oid, req, snap);
            && p == Some(Updated(sh.repo.orders[oid], CommandOf(req, snap)))
            && Swapped(sh, b, oid, p.value) && b.hist.trail == TrailAfter(sh.hist.trail, t, oid, req)
            && b.repo.log == sh.repo.log + Rows(oid, CommandOf(req, snap).event)
  {
    assert CommandOf(req, snap).version == snap.version;
    hide CommandOf, Updated, FromMatches, CanTransition;
  }

  /** Each swap on a snapshot of the current version and the status it starts from. */
  lemma PaySwap(sh: Shared, t: Tid, oid: OrderId, o: Order)
    requires oid in sh.repo.orders && sh.repo.orders[oid] == o && o.status == PendingPay
    ensures var (b, p) := Cas(sh, t, oid, ReqPay, o);
            && p == Some(o.(status := Paid, version := o.version + 1, amounts := o.amounts.(paid := o.amounts.payable)))
            && Swapped(sh, b, oid, p.value)
  {
    TableLookup(PendingPay, Paid);
    hide CanTransition, Cas;
    Swap(sh, t, oid, ReqPay, o);
  }

  lemma AdvanceSwap(sh: Shared, t: Tid, oid: OrderId, snap: Order)
    requires oid in sh.repo.orders && sh.repo.orders[oid].version == snap.version
    requires sh.repo.orders[oid].status in {Paid, Compensating}
    ensures var (b, p) := Cas(sh, t, oid, ReqAdvance, snap);
            && p == Some(sh.repo.orders[oid].(status := if snap.scene.autoComplete then Completed else Fulfilling,
                                              version := snap.version + 1))
            && Swapped(sh, b, oid, p.value)
  {
    TableLookup(Paid, Completed);
    TableLookup(Paid, Fulfilling);
    TableLookup(Compensating, Completed);
    TableLookup(Compensating, Fulfilling);
    hide CanTransition, Cas;
    Swap(sh, t, oid, ReqAdvance, snap);
  }

  lemma CompensateSwap(sh: Shared, t: Tid, oid: OrderId, snap: Order)
    requires oid in sh.repo.orders && sh.repo.orders[oid].version == snap.version && sh.repo.orders[oid].status == Paid
    ensures var (b, p) := Cas(sh, t, oid, ReqCompensate, snap);
            && p == Some(sh.repo.orders[oid].(status := Compensating, version := snap.version + 1))
            && Swapped(sh, b, oid, p.value)
  {
    TableLookup(Paid, Compensating);
    hide CanTransition, Cas;
    Swap(sh, t, oid, ReqCompensate, snap);
  }

  lemma CancelSwap(sh: Shared, t: Tid, oid: OrderId, o: Order)
    requires oid in sh.repo.orders && sh.repo.orders[oid] == o && o.status == PendingPay
    ensures var (b, p) := Cas(sh, t, oid, ReqCancel, o);
            && p == Some(o.(status := Cancelled, version := o.version + 1)) && Swapped(sh, b, oid, p.value)
  {
    TableLookup(PendingPay, Cancelled);
    hide CanTransition, Cas;
    Swap(sh, t, oid, ReqCancel, o);
  }

  lemma CompleteSwap(sh: Shared, t: Tid, oid: OrderId, o: Order)
    requires oid in sh.repo.orders && sh.repo.orders[oid] == o && o.status in {Fulfilling, Paid}
    ensures var (b, p) := Cas(sh, t, oid, ReqComplete, o);
            && p == Some(o.(status := Completed, version := o.version + 1)) && Swapped(sh, b, oid, p.value)
  {
    TableLookup(Paid, Completed);
    TableLookup(Fulfilling, Completed);
    hide CanTransition, Cas;
    Swap(sh, t, oid, ReqComplete, o);
  }

  lemma CloseSwap(sh: Shared, t: Tid, oid: OrderId, o: Order)
    requires oid in sh.repo.orders && sh.repo.orders[oid] == o && o.status in {Paid, Fulfilling, Completed}
    ensures var (b, p) := Cas(sh, t, oid, ReqClose, o);
            && p == Some(o.(status := Closed, version := o.version + 1)) && Swapped(sh, b, oid, p.value)
  {
    TableLookup(Paid, Closed);
    TableLookup(Fulfilling, Closed);
    TableLookup(Completed, Closed);
    hide CanTransition, Cas;
    Swap(sh, t, oid, ReqClose, o);
  }

  lemma RefundStartSwap(sh: Shared, t: Tid, oid: OrderId, o: Order)
    requires oid in sh.repo.orders && sh.repo.orders[oid] == o && RefundableStatus(o.status)
    ensures var (b, p) := Cas(sh, t, oid, ReqRefundStart, o);
            && p == Some(o.(status := Refunding, version := o.version + 1)) && Swapped(sh, b, oid, p.value)
  {
    TableLookup(o.status, Refunding);
    hide CanTransition, Cas;
    Swap(sh, t, oid, ReqRefundStart, o);
  }

  lemma RefundEndSwap(sh: Shared, t: Tid, oid: OrderId, snap: Order, amount: I64, full: bool)
    requires oid in sh.repo.orders && sh.repo.orders[oid].version == snap.version
    requires sh.repo.orders[oid].status == Refunding && 0 < amount
    requires Fits(sh.repo.orders[oid].amounts.refunded + amount)
    ensures var (b, p) := Cas(sh, t, oid, ReqRefundEnd(amount, full), snap);
            var o := sh.repo.orders[oid];
            && p == Some(o.(status := if full then Refunded else PartialRefunded, version := snap.version + 1,
                            amounts := o.amounts.(refunded := o.amounts.refunded + amount)))
            && Swapped(sh, b, oid, p.value)
  {
    TableLookup(Refunding, Refunded);
    TableLookup(Refunding, PartialRefunded);
    hide CanTransition, Cas;
    Swap(sh, t, oid, ReqRefundEnd(amount, full), snap);
  }

  // Which part of the program a step belongs to.

  lemma CheckoutIsExec(sh: Shared, t: Tid, pc: Pc)
    requires InCheckout(pc)
    ensures Exec(sh, t, pc, Succeed) == CheckoutStep(sh, t, pc, Succeed)
  {
    hide CheckoutStep, PayStep, AfterPaidStep, CancelStep, RefundStep, CloseStep, TicketStep, ReconStep;
  }

  lemma PayIsExec(sh: Shared, t: Tid, pc: Pc)
    requires InPay(pc)
    ensures Exec(sh, t, pc, Succeed) == PayStep(sh, t, pc, Succeed)
  {
    hide CheckoutStep, PayStep, AfterPaidStep, CancelStep, RefundStep, CloseStep, TicketStep, ReconStep;
  }

  lemma AfterIsExec(sh: Shared, t: Tid, pc: Pc)
    requires pc.After?
    ensures Exec(sh, t, pc, Succeed) == AfterPaidStep(sh, t, pc, Succeed)
  {
    hide CheckoutStep, PayStep, AfterPaidStep, CancelStep, RefundStep, CloseStep, TicketStep, ReconStep;
  }

  lemma CancelIsExec(sh: Shared, t: Tid, pc: Pc)
    requires InCancel(pc)
    ensures Exec(sh, t, pc, Succeed) == CancelStep(sh, t, pc, Succeed)
  {
    hide CheckoutStep, PayStep, AfterPaidStep, CancelStep, RefundStep, CloseStep, TicketStep, ReconStep;
  }

  lemma RefundIsExec(sh: Shared, t: Tid, pc: Pc)
    requires InRefund(pc)
    ensures Exec(sh, t, pc, Succeed) == RefundStep(sh, t, pc, Succeed)
  {
    hide CheckoutStep, PayStep, AfterPaidStep, CancelStep, RefundStep, CloseStep, TicketStep, ReconStep;
  }

  lemma CloseIsExec(sh: Shared, t: Tid, pc: Pc)
    requires InClose(pc)
    ensures Exec(sh, t, pc, Succeed) == CloseStep(sh, t, pc, Succeed)
  {
    hide CheckoutStep, PayStep, AfterPaidStep, CancelStep, RefundStep, CloseStep, TicketStep, ReconStep;
  }

  lemma TicketIsExec(sh: Shared, t: Tid, pc: Pc)
    requires InTicket(pc)
    ensures Exec(sh, t, pc, Succeed) == TicketStep(sh, t, pc, Succeed)
  {
    hide CheckoutStep, PayStep, AfterPaidStep, CancelStep, RefundStep, CloseStep, TicketStep, ReconStep;
  }

  lemma ReconIsExec(sh: Shared, t: Tid, pc: Pc)
    requires InRecon(pc)
    ensures Exec(sh, t, pc, Succeed) == ReconStep(sh, t, pc, Succeed)
  {
    hide CheckoutStep, PayStep, AfterPaidStep, CancelStep, RefundStep, CloseStep, TicketStep, ReconStep;
  }
}

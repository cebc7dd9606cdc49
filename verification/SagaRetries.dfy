/**
 * What retrying can achieve for a COMPENSATING order: exactly when it can still leave that status,
 * which scenes can leave one there for good, and what a finished ticket does not mean.
 */
module SagaRetries {
  import opened Base
  import opened Int64
  import opened Amounts
  import opened Orders
  import opened RefundMath
  import opened RefundRuns
  import opened SagaState
  import opened SagaProgram
  import opened SagaInvariant
  import opened SagaCalls
  import opened SagaSteps
  import opened SagaMarks
  import opened SagaRuns
  import opened SagaTheorems
  import opened SagaLimits
  import opened SagaEndings
  import L = Ledger
  import F = Offer

  predicate IsCompensating(s: State, oid: OrderId) {
    oid in s.sh.repo.orders && s.sh.repo.orders[oid].status == Compensating
  }

  /** A released reservation is never committed again. */
  predicate GivenBack(offer: F.Offer, rsv: Option<RsvId>) {
    rsv.Some? && rsv.value in offer.resv && offer.resv[rsv.value].status == F.Released
  }

  /** A call that already has its reservation, on a snapshot of this version. */
  predicate PastCommit(pc: Pc, oid: OrderId, version: nat) {
    pc.After? && pc.oid == oid && pc.snap.version == version && !pc.at.ApCommit?
  }

  /**
   * Its ledger money is frozen, and its reservation is not given back or some call on its current version is past
   * the commit.
   */
  predicate Retriable(s: State, oid: OrderId)
    requires oid in s.sh.repo.orders
  {
    var o := s.sh.repo.orders[oid];
    && !Unfrozen(o)
    && (!GivenBack(s.sh.offer, o.reservation) || exists t :: t in s.threads && PastCommit(s.threads[t], oid, o.version))
  }

  // ---------------------------------------------------------------------------
  // What cannot be retried now can never be
  // ---------------------------------------------------------------------------

  /** Only a commit that was granted takes a call past the commit. */
  lemma NextPastCommit(sh: Shared, t: Tid, pc: Pc, out: Outcome, oid: OrderId, version: nat)
    requires pc.After? && pc.oid == oid && pc.at.ApCommit? ==> GivenBack(sh.offer, pc.snap.reservation)
    ensures PastCommit(Exec(sh, t, pc, out).1, oid, version) ==> PastCommit(pc, oid, version)
  {
    hide CheckoutStep, PayStep, AfterPaidStep, CancelStep, RefundStep, CloseStep, TicketStep, ReconStep;
    if InCheckout(pc) { CheckoutNotAfter(sh, t, pc, out); }
    else if InPay(pc) { PayBeforeCommit(sh, t, pc, out); }
    else if pc.After? { AfterPastCommit(sh, t, pc, out, oid, version); }
    else if InCancel(pc) { CancelNotAfter(sh, t, pc, out); }
    else if InRefund(pc) { RefundNotAfter(sh, t, pc, out); }
    else if InClose(pc) { CloseNotAfter(sh, t, pc, out); }
    else if InTicket(pc) { TicketNotAfter(sh, t, pc, out); }
    else if InRecon(pc) { ReconNotAfter(sh, t, pc, out); }
  }

  lemma CheckoutNotAfter(sh: Shared, t: Tid, pc: Pc, out: Outcome)
    requires InCheckout(pc)
    ensures !CheckoutStep(sh, t, pc, out).1.After?
  {
    hide Mint, Reserve, FreezeFor, Hold, Unhold, ReleaseFreeze, ReleaseReservation, InsertCheckout, AskBalance;
  }

  lemma PayBeforeCommit(sh: Shared, t: Tid, pc: Pc, out: Outcome)
    requires InPay(pc)
    ensures PayStep(sh, t, pc, out).1.After? ==> PayStep(sh, t, pc, out).1.at.ApCommit?
  {
    hide Cas, InsertTicket;
  }

  lemma CancelNotAfter(sh: Shared, t: Tid, pc: Pc, out: Outcome)
    requires InCancel(pc)
    ensures !CancelStep(sh, t, pc, out).1.After?
  {
    hide Cas, InsertTicket, ReleaseFreeze, ReleaseReservation, Unhold, HasLedgerFreeze;
  }

  lemma RefundNotAfter(sh: Shared, t: Tid, pc: Pc, out: Outcome)
    requires InRefund(pc)
    ensures !RefundStep(sh, t, pc, out).1.After?
  {
    hide Cas, InsertTicket, Credit, Reverse, SplitRefund, HasLedgerFreeze, Resolve, IsFull, ReverseDiscount;
  }

  lemma CloseNotAfter(sh: Shared, t: Tid, pc: Pc, out: Outcome)
    requires InClose(pc)
    ensures !CloseStep(sh, t, pc, out).1.After?
  {
    hide Cas, Credit, Reverse, ReleaseReservation, Unhold, SplitRefund, RefundableAmount;
  }

  lemma TicketNotAfter(sh: Shared, t: Tid, pc: Pc, out: Outcome)
    requires InTicket(pc)
    ensures !TicketStep(sh, t, pc, out).1.After?
  {
    hide SetTicket, ReleaseReservation, ReleaseFreeze, Unhold, Reverse;
  }

  lemma ReconNotAfter(sh: Shared, t: Tid, pc: Pc, out: Outcome)
    requires InRecon(pc)
    ensures !ReconStep(sh, t, pc, out).1.After?
  {
    hide InsertTicket, Commit, UpdateRedemption, HasOpenTicket, PaidLike;
  }

  lemma AfterPastCommit(sh: Shared, t: Tid, pc: Pc, out: Outcome, oid: OrderId, version: nat)
    requires pc.After? && (pc.oid == oid && pc.at.ApCommit? ==> GivenBack(sh.offer, pc.snap.reservation))
    ensures PastCommit(AfterPaidStep(sh, t, pc, out).1, oid, version) ==> PastCommit(pc, oid, version)
  {
    hide Capture, Hold, Cas, UpdateRedemption, HasLedgerFreeze;
  }

  /** What the marks of a step know about the order. */
  lemma MarksElsewhere(sh: Shared, t: Tid, pc: Pc, oid: OrderId)
    requires CallOk(sh, t, pc) && oid in sh.repo.orders
    ensures pc.ChInsert? ==> pc.oid != oid
    ensures pc.RfCas? ==> pc.snap.status != Compensating
    ensures pc.After? && pc.oid == oid ==> pc.snap.reservation == sh.repo.orders[oid].reservation
  {
    hide PayCallOk, CancelCallOk, CloseCallOk, TicketCallOk, ReconCallOk;
    hide Intact, HoldsReservation, HoldsFreeze, OriginOk, FieldsOk;
  }

  /** No action takes an order that cannot be retried out of COMPENSATING, or makes it retriable. */
  lemma HopelessStep(s: State, a: Action, oid: OrderId)
    requires Inv(s) && Enabled(s, a) && IsCompensating(s, oid) && !Retriable(s, oid)
    ensures IsCompensating(Apply(s, a), oid) && !Retriable(Apply(s, a), oid)
  {
    hide SharedOk, CallOk, Exec, DebtsOk, RefundersOk, Entry, PastCommit;
    match a
    case Spawn(t, entry) => EntryNotAfter(entry, oid, s.sh.repo.orders[oid].version);
    case Run(t, out) =>
      ExecOk(s.sh, t, s.threads[t], out);
      HopelessExec(s, t, out, oid);
  }

  lemma EntryNotAfter(entry: Pc, oid: OrderId, version: nat)
    requires Entry(entry)
    ensures !PastCommit(entry, oid, version)
  {
    hide BuildAmounts;
  }

  /** The order after a step of call `t`, and where that call is then. */
  lemma HopelessExec(s: State, t: Tid, out: Outcome, oid: OrderId)
    requires t in s.threads && CallOk(s.sh, t, s.threads[t]) && IsCompensating(s, oid) && !Retriable(s, oid)
    requires Guarantee(s.sh, Exec(s.sh, t, s.threads[t], out).0, t)
    ensures IsCompensating(Apply(s, Run(t, out)), oid) && !Retriable(Apply(s, Run(t, out)), oid)
  {
    hide CallOk, Exec, PastCommit, Evolves, GivenBack;
    var o, pc, b := s.sh.repo.orders[oid], s.threads[t], Exec(s.sh, t, s.threads[t], out).0;
    assert Evolves(o, b.repo.orders[oid]) by { hide RefundUndisturbed, MintUndisturbed, ReleasesJustified, BooksGrow; }
    GivenBackForGood(s.sh, b, t, o.reservation);
    if Unfrozen(o) {
      StuckStays(o, b.repo.orders[oid]);
    } else {
      MarksElsewhere(s.sh, t, pc, oid);
      assert !PastCommit(pc, oid, o.version);
      NotAdvancing(pc, oid, o.version);
      ExecKeepsCompensating(s.sh, t, pc, out, oid);
      SameMoney(o, b.repo.orders[oid]);
      NextPastCommit(s.sh, t, pc, out, oid, o.version);
    }
  }

  lemma NotAdvancing(pc: Pc, oid: OrderId, version: nat)
    requires !PastCommit(pc, oid, version)
    ensures pc.After? && pc.at.ApAdvance? ==> pc.oid != oid || pc.snap.version != version
  {
  }

  lemma StuckStays(o: Order, p: Order)
    requires Evolves(o, p) && Stuck(o)
    ensures Stuck(p)
  {
  }

  lemma SameMoney(o: Order, p: Order)
    requires Evolves(o, p) && p.version == o.version
    ensures p.status == o.status && p.reservation == o.reservation && (Unfrozen(p) <==> Unfrozen(o))
  {
  }

  lemma GivenBackForGood(a: Shared, b: Shared, t: Tid, rsv: Option<RsvId>)
    requires Guarantee(a, b, t)
    ensures GivenBack(a.offer, rsv) ==> GivenBack(b.offer, rsv)
  {
    hide OrdersEvolve, RefundUndisturbed, MintUndisturbed, ReleasesJustified, FreezesGrow, TicketsGrow, RecordsGrow,
      HeldShrinks;
  }

  lemma {:induction false} HopelessForever(s: State, oid: OrderId, more: seq<Action>)
    requires Inv(s) && ValidRun(s, more) && IsCompensating(s, oid) && !Retriable(s, oid)
    ensures IsCompensating(Final(s, more), oid) && !Retriable(Final(s, more), oid)
    decreases |more|
  {
    hide Inv, Enabled, Apply, IsCompensating, Retriable;
    if more != [] {
      var before := more[..|more| - 1];
      HopelessForever(s, oid, before);
      InvKept(s, before);
      HopelessStep(Final(s, before), more[|more| - 1], oid);
    }
  }

  // ---------------------------------------------------------------------------
  // What can be retried can leave
  // ---------------------------------------------------------------------------

  /** How many steps a retry has to go. */
  function StepsLeft(at: AfterStep): nat {
    match at
    case ApCommit => 5
    case ApRedemption(_) => 4
    case ApCapture => 3
    case ApFulfil => 2
    case ApAdvance => 1
  }

  /** A call after payment whose snapshot is current and whose next calls will be granted. */
  predicate OnItsWay(sh: Shared, oid: OrderId, pc: Pc) {
    && pc.After? && pc.oid == oid
    && oid in sh.repo.orders && sh.repo.orders[oid].status == Compensating
    && sh.repo.orders[oid].version == pc.snap.version
    && !Unfrozen(pc.snap)
    && (pc.at.ApCommit? ==> !GivenBack(sh.offer, pc.snap.reservation))
  }

  lemma GoesOn(sh: Shared, t: Tid, oid: OrderId, pc: Pc)
    requires SharedOk(sh) && OnItsWay(sh, oid, pc) && !pc.at.ApAdvance?
    requires pc.snap.reservation.Some? ==> pc.snap.reservation.value in sh.offer.resv
    requires pc.snap.freeze.Some? ==> pc.snap.freeze.value < |sh.ledger.freezes|
    ensures var (b, next) := AfterPaidStep(sh, t, pc, Succeed);
            OnItsWay(b, oid, next) && StepsLeft(next.at) < StepsLeft(pc.at)
  {
    hide SharedOk;
  }

  lemma RefsExist(sh: Shared, t: Tid, oid: OrderId, pc: Pc)
    requires SharedOk(sh) && CallOk(sh, t, pc) && pc.After? && pc.oid == oid
    ensures pc.snap.reservation.Some? ==> pc.snap.reservation.value in sh.offer.resv
    ensures pc.snap.freeze.Some? ==> pc.snap.freeze.value < |sh.ledger.freezes|
    ensures oid in sh.repo.orders && pc.snap.reservation == sh.repo.orders[oid].reservation
    ensures sh.repo.orders[oid].version == pc.snap.version ==> (Unfrozen(pc.snap) <==> Unfrozen(sh.repo.orders[oid]))
  {
    hide SharedOk, CheckoutCallOk, PayCallOk, CancelCallOk, RefundCallOk, CloseCallOk, TicketCallOk, ReconCallOk;
    hide OriginOk, FieldsOk, Captured, Committed;
    assert SnapOk(sh, oid, pc.snap);
    SnapRefs(sh, oid, pc.snap);
  }

  lemma AdvanceTakesOut(sh: Shared, t: Tid, oid: OrderId, pc: Pc)
    requires OnItsWay(sh, oid, pc) && pc.at.ApAdvance?
    ensures var b := AfterPaidStep(sh, t, pc, Succeed).0;
            oid in b.repo.orders && b.repo.orders[oid].status != Compensating
  {
    TableLookup(Compensating, NextAfterPaid(pc.snap.scene.autoComplete));
    hide CanTransition;
  }

  lemma AfterExec(sh: Shared, t: Tid, pc: Pc, out: Outcome)
    requires pc.After?
    ensures Exec(sh, t, pc, out) == AfterPaidStep(sh, t, pc, out)
  {
    hide CheckoutStep, PayStep, AfterPaidStep, CancelStep, RefundStep, CloseStep, TicketStep, ReconStep;
  }

  lemma {:induction false} RetryFinishes(s: State, t: Tid, oid: OrderId) returns (more: seq<Action>)
    requires Inv(s) && t in s.threads && OnItsWay(s.sh, oid, s.threads[t])
    ensures ValidRun(s, more) && !IsCompensating(Final(s, more), oid)
    decreases StepsLeft(s.threads[t].at)
  {
    hide SharedOk, DebtsOk, RefundersOk, CallOk, Exec, AfterPaidStep, OnItsWay, StepsLeft, ValidRun, Final;
    var a, pc := Run(t, Succeed), s.threads[t];
    assert pc.After? by { assert OnItsWay(s.sh, oid, pc); OnItsWayIsAfter(s.sh, oid, pc); }
    AfterExec(s.sh, t, pc, Succeed);
    if pc.at.ApAdvance? {
      AdvanceTakesOut(s.sh, t, oid, pc);
      more := [];
      NoSteps(Apply(s, a));
    } else {
      OnItsWayIsAfter(s.sh, oid, pc);
      RefsExist(s.sh, t, oid, pc);
      GoesOn(s.sh, t, oid, pc);
      RunStepOk(s, t, Succeed);
      more := RetryFinishes(Apply(s, a), t, oid);
    }
    RunAfter(s, a, more);
    more := [a] + more;
  }

  lemma NoSteps(s: State)
    ensures ValidRun(s, []) && Final(s, []) == s
  {
  }

  lemma OnItsWayIsAfter(sh: Shared, oid: OrderId, pc: Pc)
    requires OnItsWay(sh, oid, pc)
    ensures pc.After? && pc.oid == oid
  {
  }

  /** Call ids never run out. */
  lemma {:induction false} FreshTid(used: set<Tid>) returns (t: Tid)
    ensures forall u :: u in used ==> u < t
  {
    if u :| u in used {
      t := FreshTid(used - {u});
      forall v | v in used && v != u ensures v < t { assert v in used - {u}; }
      t := if u < t then t else u + 1;
    } else {
      t := 0;
    }
  }

  lemma RetryStarts(sh: Shared, t: Tid, oid: OrderId)
    requires oid in sh.repo.orders && sh.repo.orders[oid].status == Compensating
    ensures Entry(RetryRead(oid, None))
    ensures Exec(sh, t, RetryRead(oid, None), Succeed)
            == (sh, After(oid, sh.repo.orders[oid], FromRetry(None), ApCommit))
  {
    hide CheckoutStep, AfterPaidStep, CancelStep, RefundStep, CloseStep, TicketStep, ReconStep;
  }

  lemma RetriableCanLeave(s: State, oid: OrderId) returns (more: seq<Action>)
    requires Inv(s) && IsCompensating(s, oid) && Retriable(s, oid)
    ensures ValidRun(s, more) && !IsCompensating(Final(s, more), oid)
  {
    hide SharedOk, DebtsOk, RefundersOk, CallOk, Exec, ValidRun, Final, Entry, GivenBack, Unfrozen;
    var o := s.sh.repo.orders[oid];
    if t :| t in s.threads && PastCommit(s.threads[t], oid, o.version) {
      RefsExist(s.sh, t, oid, s.threads[t]);
      more := RetryFinishes(s, t, oid);
    } else {
      var t := FreshTid(s.threads.Keys);
      var start, read := Spawn(t, RetryRead(oid, None)), Run(t, Succeed);
      RetryStarts(s.sh, t, oid);
      SpawnStepOk(s, t, RetryRead(oid, None));
      var begun := Apply(s, start);
      RunStepOk(begun, t, Succeed);
      more := RetryFinishes(Apply(begun, read), t, oid);
      RunAfter(begun, read, more);
      more := [read] + more;
      RunAfter(s, start, more);
      more := [start] + more;
    }
  }

  /**
   * In every reachable state a COMPENSATING order can still leave that status if and only if it is
   * retriable.
   */
  lemma CompensatingLeavesIffRetriable(reliable: bool, acts: seq<Action>, oid: OrderId)
    requires ValidRun(Initial(reliable), acts) && IsCompensating(At(reliable, acts), oid)
    ensures (exists more :: ValidRun(At(reliable, acts), more) && !IsCompensating(Final(At(reliable, acts), more), oid))
            <==> Retriable(At(reliable, acts), oid)
  {
    hide At, ValidRun, Final, Inv, Retriable;
    Holds(reliable, acts);
    var s := At(reliable, acts);
    if Retriable(s, oid) {
      var more := RetriableCanLeave(s, oid);
    } else {
      forall more | ValidRun(s, more) ensures IsCompensating(Final(s, more), oid) {
        HopelessForever(s, oid, more);
      }
    }
  }

  // ---------------------------------------------------------------------------
  // Two ways into it: ledger money that was never frozen, and a reservation given back by a close
  // ---------------------------------------------------------------------------

  /** The steps after payment get no further than the capture. */
  lemma CaptureRefused(sh: Shared, t: Tid, o: Order)
    requires Unfrozen(o)
    ensures Exec(sh, t, After(0, o, FromPay, ApCapture), Succeed) == (sh, PayTicket(0, o))
    ensures o.reservation.None? ==>
            Exec(sh, t, After(0, o, FromPay, ApCommit), Succeed) == (sh, After(0, o, FromPay, ApCapture))
    ensures o.reservation.Some? ==> Exec(sh, t, After(0, o, FromPay, ApCommit), Fail) == (sh, PayTicket(0, o))
  {
    hide CheckoutStep, PayStep, CancelStep, RefundStep, CloseStep, TicketStep, ReconStep, Commit;
  }

  lemma GivesUp(sh: Shared, t: Tid, o: Order)
    requires o.status == Paid && 0 in sh.repo.orders && sh.repo.orders[0] == o
    ensures Exec(sh, t, PayTicket(0, o), Succeed) == (InsertTicket(sh, AfterPaid(0), Succeed), PayCompensate(0, o))
    ensures Exec(sh, t, PayCompensate(0, o), Fail) == (sh, Returned)
    ensures var (b, next) := Exec(sh, t, PayCompensate(0, o), Succeed);
            && b.repo.orders == sh.repo.orders[0 := o.(version := o.version + 1, status := Compensating)]
            && b.offer == sh.offer && next == Returned
  {
    hide CheckoutStep, AfterPaidStep, CancelStep, RefundStep, CloseStep, TicketStep, ReconStep, InsertTicket;
    TableLookup(Paid, Compensating);
    hide CanTransition;
  }

  lemma TicketInserted(sh: Shared, kind: TicketKind)
    ensures var b := InsertTicket(sh, kind, Succeed);
            b == sh.(repo := b.repo) && b.repo == sh.repo.(tickets := sh.repo.tickets + [Ticket(kind, Pending)])
  {
  }

  lemma UnfrozenReached(reliable: bool, scene: Scene) returns (s: State)
    requires scene.currency != "" && scene.ledger == LedgerNone
    ensures Reaches(reliable, s) && 0 in s.sh.repo.orders && Stuck(s.sh.repo.orders[0])
    ensures s.sh.repo.orders[0].scene == scene
  {
    hide Reaches, Entry, Exec, PaidOrder, OneUnit;
    var req := OneUnit(scene, 1, "points");
    OneUnitAdmitted(scene, 1, "points");
    PaidOrderFacts(scene, 1, "points");
    s := Pays(reliable, req);
    var o := PaidOrder(req);
    CaptureRefused(s.sh, 1, o);
    if o.reservation.Some? {
      s := Step(reliable, s, 1, Fail);
    } else {
      s := Step(reliable, s, 1, Succeed);
      s := Step(reliable, s, 1, Succeed);
    }
    s := Compensates(reliable, s, o);
  }

  lemma Compensates(reliable: bool, s0: State, o: Order) returns (s: State)
    requires Reaches(reliable, s0) && 1 in s0.threads && s0.threads[1] == PayTicket(0, o) && o.status == Paid
    requires 0 in s0.sh.repo.orders && s0.sh.repo.orders[0] == o
    ensures Reaches(reliable, s) && 0 in s.sh.repo.orders
    ensures s.sh.repo.orders[0] == o.(version := o.version + 1, status := Compensating)
    ensures s.sh.offer == s0.sh.offer && s.threads == s0.threads[1 := Returned]
  {
    hide Reaches, Exec, InsertTicket;
    s := s0;
    GivesUp(s.sh, 1, o);
    TicketInserted(s.sh, AfterPaid(0));
    s := Step(reliable, s, 1, Succeed);
    GivesUp(s.sh, 1, o);
    s := Step(reliable, s, 1, Succeed);
  }

  /**
   * Some run leaves an order of the scene COMPENSATING for good, for ledger money never frozen, if and only if the
   * scene has no ledger mode.
   */
  lemma StuckIffNoLedgerMode(reliable: bool, scene: Scene)
    requires scene.currency != ""
    ensures (exists s, oid ::
              Reaches(reliable, s) && oid in s.sh.repo.orders && s.sh.repo.orders[oid].scene == scene
              && Stuck(s.sh.repo.orders[oid]))
            <==> scene.ledger == LedgerNone
  {
    hide ValidRun, Inv, SharedOk;
    if scene.ledger == LedgerNone {
      var s := UnfrozenReached(reliable, scene);
      assert 0 in s.sh.repo.orders;
    } else {
      forall s, oid | Reaches(reliable, s) && oid in s.sh.repo.orders && s.sh.repo.orders[oid].scene == scene
        ensures !Stuck(s.sh.repo.orders[oid])
      {
        var acts :| ValidRun(Initial(reliable), acts) && Final(Initial(reliable), acts) == s;
        Holds(reliable, acts);
        if Stuck(s.sh.repo.orders[oid]) { FrozenInLedgerMode(s.sh, oid); }
      }
    }
  }

  lemma FrozenInLedgerMode(sh: Shared, oid: OrderId)
    requires SharedOk(sh) && oid in sh.repo.orders && Unfrozen(sh.repo.orders[oid])
    ensures sh.repo.orders[oid].scene.ledger == LedgerNone
  {
    hide SharedOk, FieldsOk, PathFits, HoldsReservation, HoldsRedemption, CreditsWithin;
    OrderFacts(sh, oid);
  }

  /** The reservation was given back, so the commit is refused. */
  lemma CommitRefused(sh: Shared, t: Tid, o: Order)
    requires GivenBack(sh.offer, o.reservation)
    ensures var (b, next) := Exec(sh, t, After(0, o, FromPay, ApCommit), Succeed);
            next == PayTicket(0, o) && b.repo == sh.repo && b.offer == sh.offer
  {
    hide CheckoutStep, PayStep, CancelStep, RefundStep, CloseStep, TicketStep, ReconStep;
  }

  lemma ReleaseGivesBack(sh: Shared, r: RsvId)
    requires r in sh.offer.resv
    ensures GivenBack(ReleaseReservation(sh, r).offer, Some(r)) && ReleaseReservation(sh, r).repo == sh.repo
  {
  }

  /** A close has read the order PAID and given its reservation back. */
  lemma ClosesFirst(reliable: bool, s0: State, o: Order) returns (s: State)
    requires Reaches(reliable, s0) && 2 !in s0.threads && 0 in s0.sh.repo.orders && s0.sh.repo.orders[0] == o
    requires o.scene.allowClose && o.status == Paid && o.redemption.None?
    requires o.reservation.Some? && o.reservation.value in s0.sh.offer.resv
    ensures Reaches(reliable, s) && s.threads == s0.threads[2 := ClCredit(0, o)]
    ensures s.sh.repo == s0.sh.repo && GivenBack(s.sh.offer, o.reservation)
  {
    hide Reaches, Entry, Exec, GivenBack, ReleaseReservation;
    CloseEffects(s0.sh, 2, o);
    CloseIsEntry();
    ReleaseGivesBack(s0.sh, o.reservation.value);
    s := Start(reliable, s0, 2, ClRead(0));
    s := Step(reliable, s, 2, Succeed);
    s := Step(reliable, s, 2, Succeed);
    assert s.threads == s0.threads[2 := ClCredit(0, o)];
  }

  lemma RefusedThenCompensates(reliable: bool, s0: State, o: Order) returns (s: State)
    requires Reaches(reliable, s0) && 1 in s0.threads && s0.threads[1] == After(0, o, FromPay, ApCommit)
    requires 0 in s0.sh.repo.orders && s0.sh.repo.orders[0] == o && o.status == Paid
    requires GivenBack(s0.sh.offer, o.reservation)
    ensures Reaches(reliable, s) && 0 in s.sh.repo.orders
    ensures s.sh.repo.orders[0] == o.(version := o.version + 1, status := Compensating)
    ensures s.sh.offer == s0.sh.offer && s.threads == s0.threads[1 := Returned]
  {
    hide Reaches, Exec, GivenBack;
    CommitRefused(s0.sh, 1, o);
    s := Step(reliable, s0, 1, Succeed);
    s := Compensates(reliable, s, o);
    assert s.threads == s0.threads[1 := Returned];
  }

  /** A close reads the order PAID and gives its reservation back before payment commits it. */
  lemma GivenBackReached(reliable: bool, scene: Scene) returns (s: State)
    requires scene.currency != "" && scene.offer != OfferNone && scene.allowClose
    ensures Reaches(reliable, s) && IsCompensating(s, 0) && s.sh.repo.orders[0].scene == scene
    ensures GivenBack(s.sh.offer, s.sh.repo.orders[0].reservation)
    ensures forall t :: t in s.threads ==> !s.threads[t].After?
  {
    hide Reaches, Entry, PaidOrder, OneUnit, GivenBack, OnlyFrozen, FreezeOf, Uncalled;
    var req := OneUnit(scene, 0, "points");
    OneUnitAdmitted(scene, 0, "points");
    PaidOrderFacts(scene, 0, "points");
    s := Pays(reliable, req);
    s := ClosesFirst(reliable, s, PaidOrder(req));
    s := RefusedThenCompensates(reliable, s, PaidOrder(req));
  }

  /** Whatever happens next, the order stays COMPENSATING. */
  ghost predicate CompensatingForGood(s: State, oid: OrderId) {
    IsCompensating(s, oid) && forall more :: ValidRun(s, more) ==> IsCompensating(Final(s, more), oid)
  }

  lemma ForGoodIffHopeless(reliable: bool, s: State, oid: OrderId)
    requires Reaches(reliable, s) && IsCompensating(s, oid)
    ensures CompensatingForGood(s, oid) <==> !Retriable(s, oid)
  {
    hide ValidRun, Final, Inv, Retriable;
    var acts :| ValidRun(Initial(reliable), acts) && Final(Initial(reliable), acts) == s;
    assert At(reliable, acts) == s;
    CompensatingLeavesIffRetriable(reliable, acts, oid);
    if !Retriable(s, oid) {
      forall more | ValidRun(s, more) ensures IsCompensating(Final(s, more), oid) {
        assert ValidRun(At(reliable, acts), more) && Final(At(reliable, acts), more) == Final(s, more);
      }
    }
  }

  /** Only a closable scene with an offer mode, or a cancellation, gives a reservation back. */
  lemma GivenBackMayBeFreed(sh: Shared, oid: OrderId)
    requires SharedOk(sh) && oid in sh.repo.orders && GivenBack(sh.offer, sh.repo.orders[oid].reservation)
    ensures MayFree(sh.repo.orders[oid]) && sh.repo.orders[oid].scene.offer != OfferNone
  {
    hide OrdersOk, IndexOk, LogOk, LedgerOk, OpeningOk, FreezeCallsOk, TicketsOk, CompensatingOk, AdvancesOk,
      PaymentsOk, F.Sound;
    hide PathFits, HoldsFreeze, HoldsRedemption, CreditsWithin, MoneyByStatus, VersionWithin;
    OrderFacts(sh, oid);
    assert Rsv(oid) in sh.hist.frees;
  }

  /** A scene whose orders are always frozen for, or whose reservations cannot be given back once paid. */
  lemma RetriableInScene(sh: Shared, oid: OrderId)
    requires SharedOk(sh) && oid in sh.repo.orders && sh.repo.orders[oid].status == Compensating
    requires var scene := sh.repo.orders[oid].scene;
             scene.ledger != LedgerNone && (scene.offer == OfferNone || !scene.allowClose)
    ensures !Unfrozen(sh.repo.orders[oid]) && !GivenBack(sh.offer, sh.repo.orders[oid].reservation)
  {
    hide SharedOk, GivenBack;
    var o := sh.repo.orders[oid];
    if Unfrozen(o) { FrozenInLedgerMode(sh, oid); }
    if GivenBack(sh.offer, o.reservation) { GivenBackMayBeFreed(sh, oid); }
  }

  /**
   * Some run leaves an order of the scene COMPENSATING for good if and only if the scene has no ledger
   * mode, or has an offer mode and allows close.
   */
  lemma StuckForGoodIff(reliable: bool, scene: Scene)
    requires scene.currency != ""
    ensures (exists s, oid ::
              Reaches(reliable, s) && CompensatingForGood(s, oid) && s.sh.repo.orders[oid].scene == scene)
            <==> scene.ledger == LedgerNone || (scene.offer != OfferNone && scene.allowClose)
  {
    hide ValidRun, Final, Inv, SharedOk, GivenBack;
    if scene.ledger == LedgerNone {
      var s := UnfrozenReached(reliable, scene);
      ForGoodIffHopeless(reliable, s, 0);
    } else if scene.offer != OfferNone && scene.allowClose {
      var s := GivenBackReached(reliable, scene);
      ForGoodIffHopeless(reliable, s, 0);
    } else {
      forall s, oid | Reaches(reliable, s) && IsCompensating(s, oid) && s.sh.repo.orders[oid].scene == scene
        ensures !CompensatingForGood(s, oid)
      {
        var acts :| ValidRun(Initial(reliable), acts) && Final(Initial(reliable), acts) == s;
        Holds(reliable, acts);
        RetriableInScene(s.sh, oid);
        ForGoodIffHopeless(reliable, s, oid);
      }
    }
  }

  // ---------------------------------------------------------------------------
  // A finished after-paid ticket does not mean the order was served
  // ---------------------------------------------------------------------------

  /** The first call that payment makes fails. */
  lemma FirstCallFails(sh: Shared, t: Tid, o: Order)
    requires o.amounts.ledgerPay > 0
    ensures Exec(sh, t, After(0, o, FromPay, ApCapture), Fail) == (sh, PayTicket(0, o))
    ensures o.reservation.None? ==>
            Exec(sh, t, After(0, o, FromPay, ApCommit), Succeed) == (sh, After(0, o, FromPay, ApCapture))
    ensures o.reservation.Some? ==> Exec(sh, t, After(0, o, FromPay, ApCommit), Fail) == (sh, PayTicket(0, o))
  {
    hide CheckoutStep, PayStep, CancelStep, RefundStep, CloseStep, TicketStep, ReconStep, Commit, Capture;
  }

  lemma CompleteEffects(sh: Shared, t: Tid, o: Order)
    requires 0 in sh.repo.orders && sh.repo.orders[0] == o && o.status == Paid
    ensures Entry(CoRead(0)) && Exec(sh, t, CoRead(0), Succeed) == (sh, CoCas(0, o))
    ensures var (b, next) := Exec(sh, t, CoCas(0, o), Succeed);
            && next == Returned
            && b == sh.(repo := b.repo, hist := sh.hist.(path := b.hist.path))
            && b.repo
                 == sh.repo.(orders := sh.repo.orders[0 := o.(version := o.version + 1, status := Completed)],
                     log := b.repo.log)
  {
    hide CheckoutStep, PayStep, AfterPaidStep, CancelStep, RefundStep, TicketStep, ReconStep, Cas;
    CompleteCas(sh, t, o);
  }

  lemma CompleteCas(sh: Shared, t: Tid, o: Order)
    requires 0 in sh.repo.orders && sh.repo.orders[0] == o && o.status == Paid
    ensures var b := Cas(sh, t, 0, ReqComplete, o).0;
            && b == sh.(repo := b.repo, hist := sh.hist.(path := b.hist.path))
            && b.repo
                 == sh.repo.(orders := sh.repo.orders[0 := o.(version := o.version + 1, status := Completed)],
                     log := b.repo.log)
  {
    TableLookup(Paid, Completed);
    hide CanTransition;
  }

  lemma TicketEffects(sh: Shared, t: Tid)
    requires 0 in sh.repo.orders && sh.repo.orders[0].status == Completed
    requires sh.repo.tickets == [Ticket(AfterPaid(0), Pending)]
    ensures Entry(TkClaim(0)) && Exec(sh, t, TkClaim(0), Succeed) == (SetTicket(sh, 0, Running), RetryRead(0, Some(0)))
    ensures var b := SetTicket(sh, 0, Running);
            && Exec(b, t, RetryRead(0, Some(0)), Succeed) == (b, TkEnd(0, true))
            && Exec(b, t, TkEnd(0, true), Succeed) == (SetTicket(b, 0, Done), Returned)
            && SetTicket(b, 0, Done) == sh.(repo := sh.repo.(tickets := [Ticket(AfterPaid(0), Done)]))
  {
    hide CheckoutStep, AfterPaidStep, CancelStep, RefundStep, CloseStep, ReconStep;
    assert SetTicket(SetTicket(sh, 0, Running), 0, Done).repo.tickets == [Ticket(AfterPaid(0), Done)];
  }

  /** Every call on the order is over, yet what was acquired for it is untouched: neither used nor given back. */
  predicate Unserved(s: State, oid: OrderId) {
    && oid in s.sh.repo.orders
    && var o := s.sh.repo.orders[oid];
    && o.status == Completed
    && HasTicket(s.sh.repo.tickets, AfterPaid(oid))
    && (forall i :: 0 <= i < |s.sh.repo.tickets| ==> s.sh.repo.tickets[i].status == Done)
    && (forall t :: t in s.threads ==> s.threads[t].Returned? || s.threads[t].Accepted?)
    && (o.reservation.Some? ==> ReservationActive(s.sh, o.reservation) && o.reservation.value !in s.sh.hist.commits)
    && (o.freeze.Some? ==> FreezeOpen(s.sh, o.freeze) && o.freeze.value !in s.sh.hist.captures)
  }

  lemma FirstCallTried(reliable: bool, s0: State, o: Order) returns (s: State)
    requires Reaches(reliable, s0) && 1 in s0.threads && s0.threads[1] == After(0, o, FromPay, ApCommit)
    requires o.amounts.ledgerPay > 0
    ensures Reaches(reliable, s) && s == State(s0.sh, s0.threads[1 := PayTicket(0, o)])
  {
    hide Reaches, Exec;
    FirstCallFails(s0.sh, 1, o);
    if o.reservation.Some? {
      s := Step(reliable, s0, 1, Fail);
    } else {
      s := Step(reliable, s0, 1, Succeed);
      s := Step(reliable, s, 1, Fail);
    }
    assert s.threads == s0.threads[1 := PayTicket(0, o)];
  }

  /** The ticket is inserted, the swap to COMPENSATING fails. */
  lemma Abandons(reliable: bool, s0: State, o: Order) returns (s: State)
    requires Reaches(reliable, s0) && 1 in s0.threads && s0.threads[1] == PayTicket(0, o) && o.status == Paid
    requires 0 in s0.sh.repo.orders && s0.sh.repo.orders[0] == o
    ensures Reaches(reliable, s) && s.threads == s0.threads[1 := Returned]
    ensures s.sh == s0.sh.(repo := s0.sh.repo.(tickets := s0.sh.repo.tickets + [Ticket(AfterPaid(0), Pending)]))
  {
    hide Reaches, Exec, InsertTicket;
    s := s0;
    GivesUp(s.sh, 1, o);
    TicketInserted(s.sh, AfterPaid(0));
    s := Step(reliable, s, 1, Succeed);
    GivesUp(s.sh, 1, o);
    s := Step(reliable, s, 1, Fail);
  }

  /** Order 0 is PAID with a pending ticket, its calls are over, and nothing acquired for it was touched. */
  predicate IsLeftPaid(s: State, scene: Scene) {
    var req := OneUnit(scene, 1, "points");
    && s.threads.Keys == {0, 1} && s.threads[0].Accepted? && s.threads[1] == Returned
    && s.sh.repo.orders == map[0 := PaidOrder(req)]
    && s.sh.repo.tickets == [Ticket(AfterPaid(0), Pending)]
    && Uncalled(s.sh.hist) && OnlyFrozen(s.sh.ledger, req) && ReservedAfresh(s.sh.offer, scene)
  }

  lemma PaymentStarted(s: State, req: CheckoutReq)
    requires JustPaid(s, req)
    ensures 1 in s.threads && s.threads[1] == After(0, PaidOrder(req), FromPay, ApCommit)
    ensures 0 in s.sh.repo.orders && s.sh.repo.orders[0] == PaidOrder(req)
  {
    hide PaidOrder, OnlyFrozen, ReservedAfresh;
  }

  lemma PaymentEnded(s0: State, s: State, scene: Scene)
    requires JustPaid(s0, OneUnit(scene, 1, "points")) && s.threads == s0.threads[1 := Returned]
    requires s.sh == s0.sh.(repo := s0.sh.repo.(tickets := s0.sh.repo.tickets + [Ticket(AfterPaid(0), Pending)]))
    ensures IsLeftPaid(s, scene)
  {
    hide PaidOrder, OnlyFrozen, ReservedAfresh;
  }

  /**
   * Payment fails at its first call after the swap and again at the swap to COMPENSATING, leaving a PAID order and
   * its ticket.
   */
  lemma LeftPaid(reliable: bool, scene: Scene) returns (s: State)
    requires scene.currency != ""
    ensures Reaches(reliable, s) && IsLeftPaid(s, scene)
  {
    hide Reaches, Entry, PaidOrder, OneUnit, JustPaid, IsLeftPaid, RsvOf, FreezeOf;
    var req := OneUnit(scene, 1, "points");
    OneUnitAdmitted(scene, 1, "points");
    PaidOrderFacts(scene, 1, "points");
    var s0 := Pays(reliable, req);
    PaymentStarted(s0, req);
    s := FirstCallTried(reliable, s0, PaidOrder(req));
    s := Abandons(reliable, s, PaidOrder(req));
    assert s.threads == s0.threads[1 := Returned];
    PaymentEnded(s0, s, scene);
  }

  /** A completion of the order straight from PAID. */
  lemma Completes(reliable: bool, s0: State, o: Order) returns (s: State)
    requires Reaches(reliable, s0) && 2 !in s0.threads
    requires 0 in s0.sh.repo.orders && s0.sh.repo.orders[0] == o && o.status == Paid
    ensures Reaches(reliable, s) && s.threads == s0.threads[2 := Returned]
    ensures s.sh == s0.sh.(repo := s.sh.repo, hist := s0.sh.hist.(path := s.sh.hist.path))
    ensures s.sh.repo.orders == s0.sh.repo.orders[0 := o.(version := o.version + 1, status := Completed)]
    ensures s.sh.repo.tickets == s0.sh.repo.tickets
  {
    hide Reaches, Entry, Exec;
    CompleteEffects(s0.sh, 2, o);
    s := Start(reliable, s0, 2, CoRead(0));
    s := Step(reliable, s, 2, Succeed);
    s := Step(reliable, s, 2, Succeed);
    assert s.threads == s0.threads[2 := Returned];
  }

  /** A worker's pass over the after-paid ticket. */
  lemma TicketFinishes(reliable: bool, s0: State) returns (s: State)
    requires Reaches(reliable, s0) && 3 !in s0.threads
    requires 0 in s0.sh.repo.orders && s0.sh.repo.orders[0].status == Completed
    requires s0.sh.repo.tickets == [Ticket(AfterPaid(0), Pending)]
    ensures Reaches(reliable, s) && s.threads == s0.threads[3 := Returned]
    ensures s.sh == s0.sh.(repo := s0.sh.repo.(tickets := [Ticket(AfterPaid(0), Done)]))
  {
    hide Reaches, Entry, Exec, SetTicket;
    TicketEffects(s0.sh, 3);
    s := Start(reliable, s0, 3, TkClaim(0));
    s := Step(reliable, s, 3, Succeed);
    s := Step(reliable, s, 3, Succeed);
    s := Step(reliable, s, 3, Succeed);
    assert s.threads == s0.threads[3 := Returned];
  }

  lemma LeftPaidOrder(s: State, scene: Scene)
    requires IsLeftPaid(s, scene)
    ensures 2 !in s.threads && 3 !in s.threads && s.sh.repo.tickets == [Ticket(AfterPaid(0), Pending)]
    ensures 0 in s.sh.repo.orders && s.sh.repo.orders[0] == PaidOrder(OneUnit(scene, 1, "points"))
  {
    hide PaidOrder, OneUnit, OnlyFrozen, ReservedAfresh;
  }

  /**
   * In every scene some run completes an order straight from PAID, and its after-paid ticket is then done with
   * nothing served.
   */
  lemma CompletedUnserved(reliable: bool, scene: Scene) returns (s: State)
    requires scene.currency != ""
    ensures Reaches(reliable, s) && Unserved(s, 0) && s.sh.repo.orders[0].scene == scene
    ensures scene.offer != OfferNone ==> s.sh.repo.orders[0].reservation.Some?
    ensures scene.ledger != LedgerNone ==> s.sh.repo.orders[0].freeze.Some?
  {
    hide Reaches, PaidOrder, OneUnit, Unserved, IsLeftPaid, RsvOf, FreezeOf;
    PaidOrderFacts(scene, 1, "points");
    var s0 := LeftPaid(reliable, scene);
    LeftPaidOrder(s0, scene);
    var s1 := Completes(reliable, s0, s0.sh.repo.orders[0]);
    s := TicketFinishes(reliable, s1);
    UnservedFrom(s0, s, scene, s0.sh.repo.orders[0]);
  }

  lemma UnservedFrom(s0: State, s: State, scene: Scene, o: Order)
    requires IsLeftPaid(s0, scene) && s.threads == s0.threads[2 := Returned][3 := Returned]
    requires 0 in s.sh.repo.orders && s.sh.repo.orders[0] == o.(version := o.version + 1, status := Completed)
    requires s.sh.repo.tickets == [Ticket(AfterPaid(0), Done)]
    requires s.sh == s0.sh.(repo := s.sh.repo, hist := s0.sh.hist.(path := s.sh.hist.path))
    requires o.reservation == RsvOf(scene) && o.freeze == FreezeOf(scene, 1)
    ensures Unserved(s, 0)
    ensures scene.offer != OfferNone ==> o.reservation.Some?
    ensures scene.ledger != LedgerNone ==> o.freeze.Some?
  {
    hide PaidOrder;
    assert s.sh.repo.tickets[0].kind == AfterPaid(0);
  }
}

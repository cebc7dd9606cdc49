/**
 * Continuations of a run, refunds that never end, and a checkout answered for someone else's request.
 */
module SagaEndings {
  import opened Base
  import opened Int64
  import opened Amounts
  import opened Orders
  import opened Hashing
  import opened RefundMath
  import opened RefundRuns
  import opened SagaState
  import opened SagaProgram
  import opened SagaInvariant
  import opened SagaSteps
  import opened SagaMarks
  import opened SagaRuns
  import opened SagaTheorems
  import opened SagaLimits
  import L = Ledger
  import F = Offer

  // ---------------------------------------------------------------------------
  // Continuations of a run
  // ---------------------------------------------------------------------------

  lemma {:induction false} InvKept(s: State, acts: seq<Action>)
    requires Inv(s) && ValidRun(s, acts)
    ensures Inv(Final(s, acts))
    decreases |acts|
  {
    hide Inv, Enabled, Apply;
    if acts != [] {
      InvKept(s, acts[..|acts| - 1]);
      ActionOk(Final(s, acts[..|acts| - 1]), acts[|acts| - 1]);
    }
  }

  /** An action in front of a run. */
  lemma {:induction false} RunAfter(s: State, a: Action, acts: seq<Action>)
    requires Enabled(s, a) && ValidRun(Apply(s, a), acts)
    ensures ValidRun(s, [a] + acts) && Final(s, [a] + acts) == Final(Apply(s, a), acts)
    decreases |acts|
  {
    hide Enabled, Apply;
    var all := [a] + acts;
    if acts == [] {
      assert all[..0] == [];
    } else {
      var n := |acts| - 1;
      RunAfter(s, a, acts[..n]);
      assert all[..|all| - 1] == [a] + acts[..n];
    }
  }

  // ---------------------------------------------------------------------------
  // Refunds
  // ---------------------------------------------------------------------------

  predicate IsRefunding(s: State, oid: OrderId) { oid in s.sh.repo.orders && s.sh.repo.orders[oid].status == Refunding }

  predicate BeingFinished(s: State, oid: OrderId) { exists t :: t in s.threads && Finishing(s.threads[t], oid) }

  /** The refund's call has ended without taking the order out of REFUNDING. */
  predicate Stranded(s: State, oid: OrderId) {
    && IsRefunding(s, oid)
    && oid in s.sh.hist.trail.refunder && s.sh.hist.trail.refunder[oid] in s.threads
    && s.threads[s.sh.hist.trail.refunder[oid]] == Returned
  }

  lemma StrandedIff(s: State, oid: OrderId)
    requires Inv(s) && IsRefunding(s, oid)
    ensures Stranded(s, oid) <==> !BeingFinished(s, oid)
  {
    hide SharedOk, DebtsOk, CallOk, Finishing;
    assert RefunderOk(s.sh, s.threads, oid, s.sh.repo.orders[oid]);
    NotFinishing(oid);
    if t :| t in s.threads && Finishing(s.threads[t], oid) {
      FinisherOwns(s.sh, t, s.threads[t], oid);
    }
  }

  lemma NotFinishing(oid: OrderId)
    ensures !Finishing(Returned, oid)
  {
  }

  lemma FinisherOwns(sh: Shared, t: Tid, pc: Pc, oid: OrderId)
    requires CallOk(sh, t, pc) && Finishing(pc, oid)
    ensures oid in sh.repo.orders && oid in sh.hist.trail.refunder && sh.hist.trail.refunder[oid] == t
    ensures sh.repo.orders[oid].version == pc.snap.version && sh.repo.orders[oid].status == Refunding
  {
    hide CheckoutCallOk, PayCallOk, AfterCallOk, CancelCallOk, CloseCallOk, TicketCallOk, ReconCallOk, Refunds,
      PaidBack;
    assert Refunds(sh, t, oid, pc.snap, pc.amount);
    RefunderOwns(sh, t, oid, pc.snap, pc.amount);
  }

  lemma RefunderOwns(sh: Shared, t: Tid, oid: OrderId, snap: Order, amount: I64)
    requires Refunds(sh, t, oid, snap, amount)
    ensures oid in sh.repo.orders && oid in sh.hist.trail.refunder && sh.hist.trail.refunder[oid] == t
    ensures sh.repo.orders[oid].version == snap.version && sh.repo.orders[oid].status == Refunding
  {
    hide FieldsOk, SameTerms;
  }

  lemma StrandedStep(s: State, a: Action, oid: OrderId)
    requires Inv(s) && Enabled(s, a) && Stranded(s, oid)
    ensures Stranded(Apply(s, a), oid)
    ensures Apply(s, a).sh.repo.orders[oid].version == s.sh.repo.orders[oid].version
  {
    hide SharedOk, CallOk, Exec, DebtsOk, RefundersOk, Entry, MintUndisturbed, ReleasesJustified, BooksGrow, Evolves;
    hide CreditedTo, ChannelledTo, RefundsOf;
    match a
    case Spawn(t, entry) =>
    case Run(t, out) =>
      EndedStays(s.sh, t, out);
      ExecOk(s.sh, t, s.threads[t], out);
      var b := Exec(s.sh, t, s.threads[t], out).0;
      assert Evolves(s.sh.repo.orders[oid], b.repo.orders[oid]);
      SameVersionSameStatus(s.sh.repo.orders[oid], b.repo.orders[oid]);
  }

  lemma SameVersionSameStatus(o: Order, p: Order)
    requires Evolves(o, p) && o.version == p.version
    ensures o.status == p.status
  {
    hide SameTerms, Compatible;
  }

  /** Once the refund's call has ended, nothing ever moves the order again. */
  lemma {:induction false} StrandedForever(s: State, oid: OrderId, more: seq<Action>)
    requires Inv(s) && Stranded(s, oid) && ValidRun(s, more)
    ensures Stranded(Final(s, more), oid)
    ensures Final(s, more).sh.repo.orders[oid].version == s.sh.repo.orders[oid].version
    decreases |more|
  {
    hide Inv, Enabled, Apply, Stranded;
    if more != [] {
      var before := more[..|more| - 1];
      StrandedForever(s, oid, before);
      InvKept(s, before);
      StrandedStep(Final(s, before), more[|more| - 1], oid);
    }
  }

  /** How many steps a refund has to go. */
  function ToGo(pc: Pc): nat {
    if pc.RfChannel? then 5
    else if pc.RfCredit? then 4
    else if pc.RfReverse? then 3
    else if pc.RfReverseTicket? then 2
    else 1
  }

  lemma FinishingAdvances(sh: Shared, t: Tid, pc: Pc, oid: OrderId)
    requires Finishing(pc, oid) && !pc.RfFinish?
    ensures var next := Exec(sh, t, pc, Succeed).1; Finishing(next, oid) && ToGo(next) < ToGo(pc)
  {
    hide Cas, SplitRefund, Credit, Reverse, InsertTicket, HasLedgerFreeze, IsFull, ReverseDiscount, AccountOf;
    hide CheckoutStep, PayStep, AfterPaidStep, CancelStep, CloseStep, TicketStep, ReconStep;
  }

  lemma FinishTakesOut(sh: Shared, t: Tid, oid: OrderId, snap: Order, amount: I64)
    requires oid in sh.repo.orders && sh.repo.orders[oid].version == snap.version
    requires sh.repo.orders[oid].status == Refunding
    ensures var b := Exec(sh, t, RfFinish(oid, snap, amount), Succeed).0;
            oid in b.repo.orders && b.repo.orders[oid].status != Refunding
  {
    hide CheckoutStep, PayStep, AfterPaidStep, CancelStep, CloseStep, TicketStep, ReconStep, IsFull;
    TableLookup(Refunding, if IsFull(snap, amount) then Refunded else PartialRefunded);
    hide CanTransition;
  }

  /** A refund still at work can always finish. */
  lemma {:induction false} RefundCanFinish(s: State, t: Tid, oid: OrderId) returns (more: seq<Action>)
    requires Inv(s) && t in s.threads && Finishing(s.threads[t], oid)
    ensures ValidRun(s, more) && oid in Final(s, more).sh.repo.orders
    ensures Final(s, more).sh.repo.orders[oid].status != Refunding
    decreases ToGo(s.threads[t])
  {
    hide SharedOk, DebtsOk, RefundersOk, CallOk, Exec, Finishing;
    var a := Run(t, Succeed);
    if s.threads[t].RfFinish? {
      assert CallOk(s.sh, t, s.threads[t]);
      FinisherOwns(s.sh, t, s.threads[t], oid);
      FinishIsOf(s.threads[t], oid);
      FinishTakesOut(s.sh, t, oid, s.threads[t].snap, s.threads[t].amount);
      more := [];
    } else {
      FinishingAdvances(s.sh, t, s.threads[t], oid);
      RunStepOk(s, t, Succeed);
      more := RefundCanFinish(Apply(s, a), t, oid);
    }
    RunAfter(s, a, more);
    more := [a] + more;
  }

  lemma FinishIsOf(pc: Pc, oid: OrderId)
    requires Finishing(pc, oid) && pc.RfFinish?
    ensures pc.oid == oid && pc == RfFinish(oid, pc.snap, pc.amount)
  {
  }

  /**
   * In every reachable state a REFUNDING order can still leave that status if and only if some call
   * is between the two swaps of its refund.
   */
  lemma RefundLeavesIffBeingFinished(reliable: bool, acts: seq<Action>, oid: OrderId)
    requires ValidRun(Initial(reliable), acts) && IsRefunding(At(reliable, acts), oid)
    ensures (exists more :: ValidRun(At(reliable, acts), more) && !IsRefunding(Final(At(reliable, acts), more), oid))
            <==> BeingFinished(At(reliable, acts), oid)
  {
    hide At, ValidRun, Final, Inv, Stranded;
    Holds(reliable, acts);
    var s := At(reliable, acts);
    StrandedIff(s, oid);
    if BeingFinished(s, oid) {
      var t :| t in s.threads && Finishing(s.threads[t], oid);
      var more := RefundCanFinish(s, t, oid);
    } else {
      forall more | ValidRun(s, more) ensures IsRefunding(Final(s, more), oid) {
        StrandedForever(s, oid, more);
        StrandedIsRefunding(Final(s, more), oid);
      }
    }
  }

  lemma StrandedIsRefunding(s: State, oid: OrderId)
    requires Stranded(s, oid)
    ensures IsRefunding(s, oid)
  {
  }

  lemma ChannelFails(sh: Shared, t: Tid, o: Order)
    requires o.amounts == Amounts(o.amounts.currency, 1, 0, 1, 0, 1, 1, 0)
    ensures Exec(sh, t, RfChannel(0, o, 1), Fail) == (sh, Returned)
  {
    hide SplitRefund;
    SplitExact(o.amounts, 1);
  }

  /** A refund of the whole order has read it and made its first swap. */
  lemma RefundStarted(reliable: bool, s0: State, o: Order) returns (s: State)
    requires Reaches(reliable, s0) && 2 !in s0.threads && 0 in s0.sh.repo.orders && s0.sh.repo.orders[0] == o
    requires o.status == Paid && o.amounts.paid == 1 && o.amounts.refunded == 0
    ensures var refunding := o.(version := o.version + 1, status := Refunding);
            && Reaches(reliable, s) && 2 in s.threads && s.threads[2] == RfChannel(0, refunding, 1)
            && s.sh.repo.orders == s0.sh.repo.orders[0 := refunding]
            && 0 in s.sh.hist.trail.refunder && s.sh.hist.trail.refunder[0] == 2
  {
    hide Reaches, Entry, Exec;
    RefundReadEffect(s0.sh, 2, o);
    RefundStartEffect(s0.sh, 2, o);
    RefundIsEntry();
    s := Start(reliable, s0, 2, RfRead(0, RefundCmd(0, [])));
    s := Step(reliable, s, 2, Succeed);
    s := Step(reliable, s, 2, Succeed);
  }

  lemma PaidReached(reliable: bool, scene: Scene) returns (s: State)
    requires scene.currency != ""
    ensures Reaches(reliable, s) && s.threads.Keys == {0, 1} && 0 in s.sh.repo.orders
    ensures var o := s.sh.repo.orders[0];
            && o.scene == scene && o.status == Paid && o.amounts == Amounts(o.amounts.currency, 1, 0, 1, 0, 1, 1, 0)
  {
    hide Reaches, Entry, PaidOrder, OneUnit, OnlyFrozen, ReservedAfresh, RsvOf, FreezeOf;
    OneUnitAdmitted(scene, 0, "points");
    PaidOrderFacts(scene, 0, "points");
    s := Pays(reliable, OneUnit(scene, 0, "points"));
  }

  /** In every scene the channel refund can fail after the first swap, and then the order is REFUNDING for good. */
  lemma RefundCanBeStranded(reliable: bool, scene: Scene) returns (s: State)
    requires scene.currency != ""
    ensures Reaches(reliable, s) && IsRefunding(s, 0) && !BeingFinished(s, 0) && s.sh.repo.orders[0].scene == scene
  {
    hide Reaches, Exec, BeingFinished;
    s := PaidReached(reliable, scene);
    var o := s.sh.repo.orders[0];
    s := RefundStarted(reliable, s, o);
    ChannelFails(s.sh, 2, o.(version := o.version + 1, status := Refunding));
    s := Step(reliable, s, 2, Fail);
    StrandedNow(reliable, s);
  }

  lemma StrandedNow(reliable: bool, s: State)
    requires Reaches(reliable, s) && IsRefunding(s, 0) && 2 in s.threads && s.threads[2] == Returned
    requires 0 in s.sh.hist.trail.refunder && s.sh.hist.trail.refunder[0] == 2
    ensures !BeingFinished(s, 0)
  {
    hide ValidRun, Final, Inv, BeingFinished;
    var acts :| ValidRun(Initial(reliable), acts) && Final(Initial(reliable), acts) == s;
    Reachable(reliable, acts);
    StrandedIff(s, 0);
  }

  // ---------------------------------------------------------------------------
  // A lost insert race
  // ---------------------------------------------------------------------------

  /** A scene without reservations, ledger or inventory. */
  const BARE: Scene := Scene("scene", "CNY", OfferNone, LedgerNone, false, false, false)

  /** Another order under the same idempotency key. */
  function Other(): CheckoutReq {
    OneUnit(BARE, 0, "").(clientId := "other",
        hash := Document(Some("other"), Some(""), "scene", "app", None, [], [], 0, "", None))
  }

  predicate Bare(req: CheckoutReq) { req.scene == BARE && req.amounts.ledgerPay == 0 }

  const NOTHING: Acquired := Acquired(None, None, false)

  lemma RaceAcquires(sh: Shared, t: Tid, req: CheckoutReq, oid: OrderId)
    requires Bare(req)
    ensures Exec(sh, t, ChReserve(req, oid), Succeed) == (sh, ChFreeze(req, oid, NOTHING))
    ensures Exec(sh, t, ChFreeze(req, oid, NOTHING), Succeed) == (sh, ChHold(req, oid, NOTHING))
    ensures Exec(sh, t, ChHold(req, oid, NOTHING), Succeed) == (sh, ChInsert(req, oid, NOTHING))
  {
    hide Reserve, FreezeFor, Hold;
  }

  lemma RaceLost(sh: Shared, t: Tid, req: CheckoutReq, oid: OrderId)
    requires ClientKeyOf(NewOrder(req, None, None)) !in sh.repo.client && IdemKeyOf(req) in sh.repo.idem
    ensures Exec(sh, t, ChInsert(req, oid, NOTHING), Succeed) == (sh, ChUndoHold(req, oid, NOTHING, true))
    ensures Exec(sh, t, ChRefind(req), Succeed)
            == (sh, Accepted(IdemKeyOf(req), sh.repo.idem[IdemKeyOf(req)].order, req.hash, true))
  {
    hide ClientKeyOf, IdemKeyOf, NewOrder;
  }

  lemma NothingToUndo(sh: Shared, t: Tid, req: CheckoutReq, oid: OrderId)
    ensures Exec(sh, t, ChUndoHold(req, oid, NOTHING, true), Succeed) == (sh, ChUndoFreeze(req, oid, NOTHING, true))
    ensures Exec(sh, t, ChUndoFreeze(req, oid, NOTHING, true), Succeed) == (sh, ChUndoOffer(req, oid, NOTHING, true))
    ensures Exec(sh, t, ChUndoOffer(req, oid, NOTHING, true), Succeed) == (sh, ChRefind(req))
  {
    hide ReleaseFreeze, ReleaseReservation, Unhold;
  }

  lemma OtherFacts()
    ensures var first := OneUnit(BARE, 0, "");
            && Entry(ChFind(first)) && Bare(first) && first.hash.clientOrder == Some(first.clientId)
            && Entry(ChFind(Other())) && Bare(Other()) && IdemKeyOf(Other()) == IdemKeyOf(first)
            && Other().hash != first.hash
            && Other().hash.clientOrder != Some(first.clientId)
            && ClientKeyOf(NewOrder(Other(), None, None)) != ClientKeyOf(NewOrder(first, None, None))
  {
    OneUnitAdmitted(BARE, 0, "");
  }

  /** Both lookups of the key find nothing. */
  lemma LooksUp(reliable: bool, s0: State, t: Tid, req: CheckoutReq) returns (s: State)
    requires Reaches(reliable, s0) && t !in s0.threads && Entry(ChFind(req))
    requires IdemKeyOf(req) !in s0.sh.repo.idem && ClientKeyOf(NewOrder(req, None, None)) !in s0.sh.repo.client
    ensures Reaches(reliable, s) && s == State(s0.sh, s0.threads[t := ChMint(req)])
  {
    hide Reaches, Entry, Exec, IdemKeyOf, ClientKeyOf, NewOrder, Mint;
    FindEffects(s0.sh, t, req);
    s := Start(reliable, s0, t, ChFind(req));
    s := Step(reliable, s, t, Succeed);
    s := Step(reliable, s, t, Succeed);
    s := Step(reliable, s, t, Succeed);
    assert s.threads == s0.threads[t := ChMint(req)];
  }

  lemma MintEffect(sh: Shared, t: Tid, req: CheckoutReq)
    ensures Exec(sh, t, ChMint(req), Succeed) == (Mint(sh, t), ChReserve(req, |sh.hist.minter|))
  {
    hide Mint;
  }

  lemma AcquiresNothing(reliable: bool, s0: State, t: Tid, req: CheckoutReq) returns (s: State)
    requires Reaches(reliable, s0) && t in s0.threads && s0.threads[t] == ChMint(req) && Bare(req)
    ensures Reaches(reliable, s)
    ensures s == State(Mint(s0.sh, t), s0.threads[t := ChInsert(req, |s0.sh.hist.minter|, NOTHING)])
  {
    hide Reaches, Exec, Mint;
    var oid := |s0.sh.hist.minter|;
    MintEffect(s0.sh, t, req);
    RaceAcquires(Mint(s0.sh, t), t, req, oid);
    s := Step(reliable, s0, t, Succeed);
    s := Step(reliable, s, t, Succeed);
    s := Step(reliable, s, t, Succeed);
    s := Step(reliable, s, t, Succeed);
    assert s.threads == s0.threads[t := ChInsert(req, oid, NOTHING)];
  }

  /** The insert meets the other call's record; there is nothing to give back, and that record is the answer. */
  lemma LosesTheRace(reliable: bool, s0: State, t: Tid, req: CheckoutReq, oid: OrderId) returns (s: State)
    requires Reaches(reliable, s0) && t in s0.threads && s0.threads[t] == ChInsert(req, oid, NOTHING)
    requires ClientKeyOf(NewOrder(req, None, None)) !in s0.sh.repo.client && IdemKeyOf(req) in s0.sh.repo.idem
    ensures Reaches(reliable, s) && s.sh == s0.sh && t in s.threads
    ensures s.threads[t] == Accepted(IdemKeyOf(req), s0.sh.repo.idem[IdemKeyOf(req)].order, req.hash, true)
  {
    hide Reaches, Exec, IdemKeyOf, ClientKeyOf, NewOrder;
    RaceLost(s0.sh, t, req, oid);
    NothingToUndo(s0.sh, t, req, oid);
    s := Step(reliable, s0, t, Succeed);
    s := Step(reliable, s, t, Succeed);
    s := Step(reliable, s, t, Succeed);
    s := Step(reliable, s, t, Succeed);
    s := Step(reliable, s, t, Succeed);
  }

  /** Two requests under one key, both past their lookups before either inserts; the first then stores its order. */
  lemma FirstWins(reliable: bool) returns (s: State)
    ensures var first := OneUnit(BARE, 0, "");
            && Reaches(reliable, s) && 1 in s.threads && s.threads[1] == ChMint(Other())
            && s.sh.repo.orders == map[0 := NewOrder(first, None, None)]
            && s.sh.repo.idem == map[IdemKeyOf(first) := IdemRecord(first.hash, 0)]
            && s.sh.repo.client == map[ClientKeyOf(NewOrder(first, None, None)) := 0]
  {
    hide Reaches, Entry, Exec, IdemKeyOf, ClientKeyOf, NewOrder, OneUnit, Bare, Other;
    var first := OneUnit(BARE, 0, "");
    OtherFacts();
    ReachesStart(reliable);
    s := LooksUp(reliable, Initial(reliable), 0, first);
    s := LooksUp(reliable, s, 1, Other());
    s := AcquiresNothing(reliable, s, 0, first);
    InsertEffect(s.sh, 0, first, 0, NOTHING);
    s := Step(reliable, s, 0, Succeed);
  }

  /**
   * A run in which a checkout succeeds with the order of a request that is not its own, although no lookup ever
   * fails.
   */
  lemma ForeignAnswer(reliable: bool) returns (s: State)
    ensures Reaches(reliable, s) && 1 in s.threads && s.threads[1].Accepted? && s.threads[1].lost
    ensures var pc := s.threads[1];
            && pc.key in s.sh.repo.idem && s.sh.repo.idem[pc.key].hash != pc.hash
            && pc.order in s.sh.repo.orders && pc.hash.clientOrder != Some(s.sh.repo.orders[pc.order].clientId)
  {
    hide Reaches, Entry, IdemKeyOf, ClientKeyOf, OneUnit, Bare, Other, Exec;
    OtherFacts();
    s := FirstWins(reliable);
    var oid := |s.sh.hist.minter|;
    s := AcquiresNothing(reliable, s, 1, Other());
    s := LosesTheRace(reliable, s, 1, Other(), oid);
  }
}

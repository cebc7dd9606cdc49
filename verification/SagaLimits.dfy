/**
 * How far the guarantees of the saga reach: runs that break the ones whose condition fails, so that
 * each condition is exact.
 */
module SagaLimits {
  import opened Base
  import opened Int64
  import opened Amounts
  import opened Orders
  import opened Hashing
  import opened RefundMath
  import opened RefundRuns
  import opened SagaState
  import opened SagaProgram
  import opened SagaInvariant
  import opened SagaTheorems
  import L = Ledger
  import F = Offer

  ghost predicate Reaches(reliable: bool, s: State) {
    exists acts :: ValidRun(Initial(reliable), acts) && Final(Initial(reliable), acts) == s
  }

  lemma ReachesStart(reliable: bool)
    ensures Reaches(reliable, Initial(reliable))
  {
    assert ValidRun(Initial(reliable), []) && Final(Initial(reliable), []) == Initial(reliable);
  }

  lemma ReachesNext(reliable: bool, s: State, a: Action)
    requires Reaches(reliable, s) && Enabled(s, a)
    ensures Reaches(reliable, Apply(s, a))
  {
    hide Enabled, Apply;
    var acts :| ValidRun(Initial(reliable), acts) && Final(Initial(reliable), acts) == s;
    var more := acts + [a];
    assert more[..|more| - 1] == acts;
    assert ValidRun(Initial(reliable), more) && Final(Initial(reliable), more) == Apply(s, a);
  }

  lemma Start(reliable: bool, s: State, t: Tid, entry: Pc) returns (r: State)
    requires Reaches(reliable, s) && t !in s.threads && Entry(entry)
    ensures Reaches(reliable, r) && r == State(s.sh, s.threads[t := entry])
  {
    hide Reaches;
    ReachesNext(reliable, s, Spawn(t, entry));
    r := Apply(s, Spawn(t, entry));
  }

  lemma Step(reliable: bool, s: State, t: Tid, out: Outcome) returns (r: State)
    requires Reaches(reliable, s) && t in s.threads
    ensures Reaches(reliable, r)
    ensures r == State(Exec(s.sh, t, s.threads[t], out).0, s.threads[t := Exec(s.sh, t, s.threads[t], out).1])
  {
    hide Reaches, Exec;
    ReachesNext(reliable, s, Run(t, out));
    r := Apply(s, Run(t, out));
  }

  // ---------------------------------------------------------------------------
  // A checkout that succeeds and the payment after it
  // ---------------------------------------------------------------------------

  /** A request over one unit, paid through the ledger or the channel. */
  function OneUnit(scene: Scene, ledgerPay: I64, asset: Name): CheckoutReq
    requires 0 <= ledgerPay <= 1
  {
    CheckoutReq("tenant", "buyer", "client", "key",
                Document(Some("client"), Some(""), scene.name, "app", None, [], [], ledgerPay, asset, None), scene,
                  asset,
                Amounts(scene.currency, 1, 0, 1, ledgerPay, 1 - ledgerPay, 0, 0), [], true, 0)
  }

  function RsvOf(scene: Scene): Option<RsvId> { if scene.offer != OfferNone then Some(Rsv(0)) else None }
  function FreezeOf(scene: Scene, ledgerPay: I64): Option<FreezeId> {
    if scene.ledger != LedgerNone && ledgerPay > 0 then Some(0) else None
  }

  predicate ReservedAfresh(o: F.Offer, scene: Scene) {
    scene.offer != OfferNone ==>
      Rsv(0) in o.resv && o.resv[Rsv(0)].status == F.Active && o.resv[Rsv(0)].redemption.None?
  }

  /** At most the buyer's own account was opened, by the freeze, which is open. */
  predicate OnlyFrozen(l: L.Ledger, req: CheckoutReq) {
    && (forall k :: k in l.opening ==>
          FreezeOf(req.scene, req.amounts.ledgerPay).Some? && k == L.Account(req.tenant, req.user, req.asset))
    && (FreezeOf(req.scene, req.amounts.ledgerPay).Some? ==> |l.freezes| > 0 && l.freezes[0].state.Open?)
  }

  /** No commit, capture or credit was issued. */
  predicate Uncalled(h: History) { h.commits == {} && h.captures == {} && h.trail.payments == [] }

  /** Order 0 is stored as the request asked, its reservation is active, its freeze open, and nothing else happened. */
  predicate FreshlyStored(sh: Shared, req: CheckoutReq) {
    && sh.repo.orders == map[0 := NewOrder(req, RsvOf(req.scene), FreezeOf(req.scene, req.amounts.ledgerPay))]
    && sh.repo.idem == map[IdemKeyOf(req) := IdemRecord(req.hash, 0)]
    && sh.repo.client
         == map[ClientKeyOf(NewOrder(req, RsvOf(req.scene), FreezeOf(req.scene, req.amounts.ledgerPay))) := 0]
    && sh.repo.tickets == []
    && Uncalled(sh.hist) && OnlyFrozen(sh.ledger, req)
    && ReservedAfresh(sh.offer, req.scene)
  }

  lemma FindEffects(sh: Shared, t: Tid, req: CheckoutReq)
    requires IdemKeyOf(req) !in sh.repo.idem && ClientKeyOf(NewOrder(req, None, None)) !in sh.repo.client
    ensures Exec(sh, t, ChFind(req), Succeed) == (sh, ChClient(req))
    ensures Exec(sh, t, ChClient(req), Succeed) == (sh, ChFindAgain(req))
    ensures Exec(sh, t, ChFindAgain(req), Succeed) == (sh, ChMint(req))
    ensures Exec(sh, t, ChMint(req), Succeed) == (Mint(sh, t), ChReserve(req, |sh.hist.minter|))
  {
  }

  lemma AcquireEffects(sh: Shared, t: Tid, req: CheckoutReq, oid: OrderId, got: Acquired)
    requires req.hasQuote && 0 <= req.amounts.ledgerPay <= 1
    ensures Exec(sh, t, ChReserve(req, oid), Succeed)
            == (if req.scene.offer != OfferNone then Reserve(sh, oid, req.amounts.discount) else sh,
                ChFreeze(req, oid,
                    Acquired(if req.scene.offer != OfferNone then Some(Rsv(oid)) else None, None, false)))
    ensures Exec(sh, t, ChHold(req, oid, got), Succeed)
            == (if req.scene.reserveInventory then Hold(sh, oid) else sh,
                ChInsert(req, oid, if req.scene.reserveInventory then got.(inventory := true) else got))
  {
    hide Reserve, Hold, ClientKeyOf, IdemKeyOf;
  }

  lemma FreezeEffect(sh: Shared, t: Tid, req: CheckoutReq, oid: OrderId, got: Acquired)
    requires 0 <= req.amounts.ledgerPay <= 1 && sh.ledger == L.EMPTY && got.freeze.None?
    ensures var (b, next) := Exec(sh, t, ChFreeze(req, oid, got), Succeed);
            && next == ChHold(req, oid, got.(freeze := FreezeOf(req.scene, req.amounts.ledgerPay)))
            && b.repo == sh.repo && b.offer == sh.offer && b.hist == sh.hist.(frozenFor := b.hist.frozenFor)
            && OnlyFrozen(b.ledger, req)
  {
    hide PayStep, AfterPaidStep, CancelStep, RefundStep, CloseStep, TicketStep, ReconStep;
  }

  lemma InsertEffect(sh: Shared, t: Tid, req: CheckoutReq, oid: OrderId, got: Acquired)
    requires IdemKeyOf(req) !in sh.repo.idem && ClientKeyOf(NewOrder(req, got.rsv, got.freeze)) !in sh.repo.client
    ensures var (b, next) := Exec(sh, t, ChInsert(req, oid, got), Succeed);
            && next == Accepted(IdemKeyOf(req), oid, req.hash, false)
            && b.repo.orders == sh.repo.orders[oid := NewOrder(req, got.rsv, got.freeze)]
            && b.repo.idem == sh.repo.idem[IdemKeyOf(req) := IdemRecord(req.hash, oid)]
            && b.repo.client == sh.repo.client[ClientKeyOf(NewOrder(req, got.rsv, got.freeze)) := oid]
            && b.repo.tickets == sh.repo.tickets && b.offer == sh.offer
            && b.hist.trail.payments == sh.hist.trail.payments
            && b.hist.captures == sh.hist.captures && b.hist.commits == sh.hist.commits && b.reliable == sh.reliable
            && b.ledger == sh.ledger
  {
    hide NewOrder;
  }

  lemma Finds(reliable: bool, req: CheckoutReq) returns (s: State)
    requires Entry(ChFind(req))
    ensures Reaches(reliable, s) && s == State(Mint(InitialShared(reliable), 0), map[0 := ChReserve(req, 0)])
  {
    hide Reaches, Entry, Exec, IdemKeyOf, ClientKeyOf, Mint;
    ReachesStart(reliable);
    FindEffects(InitialShared(reliable), 0, req);
    s := Start(reliable, Initial(reliable), 0, ChFind(req));
    s := Step(reliable, s, 0, Succeed);
    s := Step(reliable, s, 0, Succeed);
    s := Step(reliable, s, 0, Succeed);
    s := Step(reliable, s, 0, Succeed);
    assert s.threads == map[0 := ChReserve(req, 0)];
  }

  lemma Reserves(reliable: bool, req: CheckoutReq) returns (s: State)
    requires Entry(ChFind(req)) && req.hasQuote && 0 <= req.amounts.ledgerPay <= 1
    ensures Reaches(reliable, s) && s.threads == map[0 := ChFreeze(req, 0, Acquired(RsvOf(req.scene), None, false))]
    ensures s.sh.repo == InitialShared(reliable).repo && Uncalled(s.sh.hist) && s.sh.ledger == L.EMPTY
    ensures ReservedAfresh(s.sh.offer, req.scene)
  {
    hide Reaches, Entry, Exec;
    s := Finds(reliable, req);
    AcquireEffects(s.sh, 0, req, 0, Acquired(None, None, false));
    s := Step(reliable, s, 0, Succeed);
    assert s.threads == map[0 := ChFreeze(req, 0, Acquired(RsvOf(req.scene), None, false))];
  }

  lemma Acquires(reliable: bool, req: CheckoutReq) returns (s: State)
    requires Entry(ChFind(req)) && req.hasQuote && 0 <= req.amounts.ledgerPay <= 1
    ensures Reaches(reliable, s) && s.threads.Keys == {0}
    ensures s.threads[0].ChInsert? && s.threads[0].req == req && s.threads[0].oid == 0
    ensures s.threads[0].got.rsv == RsvOf(req.scene)
    ensures s.threads[0].got.freeze == FreezeOf(req.scene, req.amounts.ledgerPay)
    ensures s.sh.repo == InitialShared(reliable).repo && Uncalled(s.sh.hist) && OnlyFrozen(s.sh.ledger, req)
    ensures ReservedAfresh(s.sh.offer, req.scene)
  {
    hide Reaches, Entry, Exec, FreezeOf, RsvOf, OnlyFrozen, ReservedAfresh;
    s := Reserves(reliable, req);
    var got := Acquired(RsvOf(req.scene), None, false);
    FreezeEffect(s.sh, 0, req, 0, got);
    s := Step(reliable, s, 0, Succeed);
    AcquireEffects(s.sh, 0, req, 0, got.(freeze := FreezeOf(req.scene, req.amounts.ledgerPay)));
    s := Step(reliable, s, 0, Succeed);
  }

  lemma Stores(reliable: bool, req: CheckoutReq) returns (s: State)
    requires Entry(ChFind(req)) && req.hasQuote && 0 <= req.amounts.ledgerPay <= 1
    ensures Reaches(reliable, s) && s.threads.Keys == {0} && s.threads[0].Accepted? && FreshlyStored(s.sh, req)
  {
    hide Reaches, Entry, Exec, FreezeOf, RsvOf, NewOrder, IdemKeyOf, ClientKeyOf, OnlyFrozen;
    s := Acquires(reliable, req);
    InsertEffect(s.sh, 0, req, 0, s.threads[0].got);
    s := Step(reliable, s, 0, Succeed);
  }

  /** Order 0 after payment. */
  function PaidOrder(req: CheckoutReq): Order {
    Updated(NewOrder(req, RsvOf(req.scene), FreezeOf(req.scene, req.amounts.ledgerPay)),
            CommandOf(ReqPay, NewOrder(req, RsvOf(req.scene), FreezeOf(req.scene, req.amounts.ledgerPay))))
  }

  /** The fields of order 0 after payment that later steps look at. */
  lemma PaidOrderFacts(scene: Scene, ledgerPay: I64, asset: Name)
    requires 0 <= ledgerPay <= 1
    ensures var o := PaidOrder(OneUnit(scene, ledgerPay, asset));
            && o.status == Paid && o.scene == scene && o.asset == asset && o.redemption.None?
            && o.amounts == Amounts(scene.currency, 1, 0, 1, ledgerPay, 1 - ledgerPay, 1, 0)
            && o.reservation == RsvOf(scene) && o.freeze == FreezeOf(scene, ledgerPay)
  {
  }

  predicate JustPaid(s: State, req: CheckoutReq) {
    && s.threads.Keys == {0, 1} && s.threads[0].Accepted? && s.threads[1] == After(0, PaidOrder(req), FromPay, ApCommit)
    && s.sh.repo.orders == map[0 := PaidOrder(req)]
    && s.sh.repo.tickets == []
    && Uncalled(s.sh.hist) && OnlyFrozen(s.sh.ledger, req)
    && ReservedAfresh(s.sh.offer, req.scene)
  }

  lemma PayEffects(sh: Shared, t: Tid, oid: OrderId, o: Order)
    requires oid in sh.repo.orders && sh.repo.orders[oid] == o && o.status == PendingPay
    ensures Exec(sh, t, PayRead(oid), Succeed) == (sh, PayCas(oid, o))
    ensures var (b, next) := Exec(sh, t, PayCas(oid, o), Succeed);
            && next == After(oid, Updated(o, CommandOf(ReqPay, o)), FromPay, ApCommit)
            && b.repo.orders == sh.repo.orders[oid := Updated(o, CommandOf(ReqPay, o))]
            && b.repo.tickets == sh.repo.tickets && b.offer == sh.offer && b.reliable == sh.reliable
            && b.ledger == sh.ledger
            && b.hist.trail.payments == sh.hist.trail.payments && b.hist.captures == sh.hist.captures
            && b.hist.commits == sh.hist.commits
  {
    hide Updated, CheckoutStep, AfterPaidStep, CancelStep, RefundStep, CloseStep, TicketStep, ReconStep;
    TableLookup(PendingPay, Paid);
    hide CanTransition;
  }

  lemma Pays(reliable: bool, req: CheckoutReq) returns (s: State)
    requires Entry(ChFind(req)) && req.hasQuote && 0 <= req.amounts.ledgerPay <= 1
    ensures Reaches(reliable, s) && JustPaid(s, req)
  {
    hide Reaches, Exec, FreezeOf, RsvOf, Updated, CommandOf, OnlyFrozen, ReservedAfresh;
    s := Stores(reliable, req);
    var o := s.sh.repo.orders[0];
    PayEffects(s.sh, 1, 0, o);
    s := Start(reliable, s, 1, PayRead(0));
    s := Step(reliable, s, 1, Succeed);
    s := Step(reliable, s, 1, Succeed);
  }

  lemma OneUnitAdmitted(scene: Scene, ledgerPay: I64, asset: Name)
    requires scene.currency != "" && 0 <= ledgerPay <= 1
    ensures Entry(ChFind(OneUnit(scene, ledgerPay, asset)))
    ensures var req := OneUnit(scene, ledgerPay, asset);
            req.hasQuote && req.scene == scene && req.asset == asset && req.amounts.ledgerPay == ledgerPay
  {
    hide BuildAmounts;
    BuildAmountsExact(scene.currency, 1, 0, ledgerPay);
  }

  // ---------------------------------------------------------------------------
  // Close performs its effects before its compare-and-swap
  // ---------------------------------------------------------------------------

  lemma CloseEffects(sh: Shared, t: Tid, o: Order)
    requires 0 in sh.repo.orders && sh.repo.orders[0] == o && o.scene.allowClose && o.status == Paid
    requires o.redemption.None?
    ensures Exec(sh, t, ClRead(0), Succeed) == (sh, ClOffer(0, o))
    ensures Exec(sh, t, ClOffer(0, o), Succeed)
            == (if o.reservation.Some? then ReleaseReservation(sh, o.reservation.value) else sh, ClCredit(0, o))
  {
    hide ReleaseReservation;
  }

  lemma LostCommitEffect(sh: Shared, t: Tid, o: Order)
    requires o.reservation.Some?
    ensures Exec(sh, t, After(0, o, FromPay, ApCommit), Lost) == (Commit(sh, o.reservation.value).0, PayTicket(0, o))
  {
    hide Commit;
  }

  /** Payment commits the reservation and loses the reply; close then finds no redemption on the order and releases. */
  lemma CommitThenRelease(reliable: bool, scene: Scene) returns (s: State)
    requires scene.currency != "" && scene.offer != OfferNone && scene.allowClose
    ensures Reaches(reliable, s) && Rsv(0) in s.sh.hist.commits && Rsv(0) in s.sh.hist.frees
    ensures 0 in s.sh.repo.orders && s.sh.repo.orders[0].scene == scene
  {
    hide Reaches, Exec, Entry, PaidOrder, OneUnit, F.DoCommit, F.DoRelease;
    var req := OneUnit(scene, 0, "points");
    OneUnitAdmitted(scene, 0, "points");
    PaidOrderFacts(scene, 0, "points");
    s := Pays(reliable, req);
    var o := PaidOrder(req);
    LostCommitEffect(s.sh, 1, o);
    s := Step(reliable, s, 1, Lost);
    CloseEffects(s.sh, 2, o);
    CloseIsEntry();
    s := Start(reliable, s, 2, ClRead(0));
    s := Step(reliable, s, 2, Succeed);
    s := Step(reliable, s, 2, Succeed);
  }

  lemma CloseIsEntry()
    ensures Entry(ClRead(0))
  {
  }

  /**
   * In a scene with an offer mode, Commit and Release can meet on one reservation exactly when the scene allows
   * close.
   */
  lemma CommitMeetsReleaseIffClose(reliable: bool, scene: Scene)
    requires scene.currency != "" && scene.offer != OfferNone
    ensures (exists s, r :: Reaches(reliable, s) && r in s.sh.hist.commits && r in s.sh.hist.frees
                            && r.order in s.sh.repo.orders && s.sh.repo.orders[r.order].scene == scene)
            <==> scene.allowClose
  {
    hide ValidRun;
    if scene.allowClose {
      var s := CommitThenRelease(reliable, scene);
      assert Rsv(0) in s.sh.hist.commits && Rsv(0) in s.sh.hist.frees;
    } else {
      forall s, r | Reaches(reliable, s) && r in s.sh.hist.commits && r in s.sh.hist.frees
        ensures r.order in s.sh.repo.orders && s.sh.repo.orders[r.order].scene.allowClose
      {
        var acts :| ValidRun(Initial(reliable), acts) && Final(Initial(reliable), acts) == s;
        CommitExcludesRelease(reliable, acts, r);
      }
    }
  }

  lemma CloseCreditEffect(sh: Shared, t: Tid, o: Order)
    requires o.amounts == Amounts(o.amounts.currency, 1, 0, 1, 1, 0, 1, 0)
    ensures var b := Exec(sh, t, ClCredit(0, o), Succeed).0;
            && CreditedTo(b.hist.trail.payments, 0) == CreditedTo(sh.hist.trail.payments, 0) + 1 && b.repo == sh.repo
            && b.ledger
                 == L.DoCredit(sh.ledger,
                     L.Account(o.tenant, o.buyer, if o.asset == "" then o.amounts.currency else o.asset), 1)
  {
    hide SplitRefund, L.DoCredit;
    SplitExact(o.amounts, 1);
  }

  lemma CloseCredits(reliable: bool, s: State, t: Tid, o: Order) returns (r: State)
    requires Reaches(reliable, s) && t !in s.threads
    requires 0 in s.sh.repo.orders && s.sh.repo.orders[0] == o && o.scene.allowClose && o.status == Paid
    requires o.redemption.None?
    requires o.amounts == Amounts(o.amounts.currency, 1, 0, 1, 1, 0, 1, 0)
    ensures Reaches(reliable, r) && r.sh.repo == s.sh.repo && r.threads.Keys == s.threads.Keys + {t}
    ensures CreditedTo(r.sh.hist.trail.payments, 0) == CreditedTo(s.sh.hist.trail.payments, 0) + 1
    ensures r.sh.ledger
            == L.DoCredit(s.sh.ledger,
                L.Account(o.tenant, o.buyer, if o.asset == "" then o.amounts.currency else o.asset), 1)
  {
    hide Reaches, Exec, Entry, F.DoRelease, L.DoCredit;
    CloseEffects(s.sh, t, o);
    CloseIsEntry();
    r := Start(reliable, s, t, ClRead(0));
    r := Step(reliable, r, t, Succeed);
    r := Step(reliable, r, t, Succeed);
    CloseCreditEffect(r.sh, t, o);
    r := Step(reliable, r, t, Succeed);
  }

  /** Two closes that run side by side both credit before either swaps. */
  lemma CloseCreditsTwice(reliable: bool, scene: Scene) returns (s: State)
    requires scene.currency != "" && scene.allowClose
    ensures Reaches(reliable, s) && 0 in s.sh.repo.orders && s.sh.repo.orders[0].scene == scene
    ensures CreditedTo(s.sh.hist.trail.payments, 0) > s.sh.repo.orders[0].amounts.ledgerPay
  {
    hide Reaches, Entry;
    var req := OneUnit(scene, 1, "points");
    OneUnitAdmitted(scene, 1, "points");
    s := Pays(reliable, req);
    s := CloseCredits(reliable, s, 2, PaidOrder(req));
    s := CloseCredits(reliable, s, 3, PaidOrder(req));
  }

  /** Credits stay within the ledger share in every reachable state exactly when the scene does not allow close. */
  lemma CreditsBoundedIffNoClose(reliable: bool, scene: Scene)
    requires scene.currency != ""
    ensures (forall s, oid ::
              Reaches(reliable, s) && oid in s.sh.repo.orders && s.sh.repo.orders[oid].scene == scene ==>
               CreditedTo(s.sh.hist.trail.payments, oid) <= s.sh.repo.orders[oid].amounts.ledgerPay)
            <==> !scene.allowClose
  {
    hide ValidRun, CreditedTo;
    if scene.allowClose {
      var s := CloseCreditsTwice(reliable, scene);
      assert 0 in s.sh.repo.orders;
    } else {
      forall s, oid | Reaches(reliable, s) && oid in s.sh.repo.orders && s.sh.repo.orders[oid].scene == scene
        ensures CreditedTo(s.sh.hist.trail.payments, oid) <= s.sh.repo.orders[oid].amounts.ledgerPay
      {
        var acts :| ValidRun(Initial(reliable), acts) && Final(Initial(reliable), acts) == s;
        CreditsBounded(reliable, acts, oid);
      }
    }
  }

  // ---------------------------------------------------------------------------
  // Accounts that do not start from the default balance
  // ---------------------------------------------------------------------------

  lemma RefundReadEffect(sh: Shared, t: Tid, o: Order)
    requires 0 in sh.repo.orders && sh.repo.orders[0] == o && o.status == Paid && o.amounts.paid == 1
    requires o.amounts.refunded == 0
    ensures Exec(sh, t, RfRead(0, RefundCmd(0, [])), Succeed) == (sh, RfCas(0, o, 1))
  {
    hide SplitRefund;
  }

  lemma RefundStartEffect(sh: Shared, t: Tid, o: Order)
    requires 0 in sh.repo.orders && sh.repo.orders[0] == o && o.status == Paid
    ensures var (b, next) := Exec(sh, t, RfCas(0, o, 1), Succeed);
            && next == RfChannel(0, o.(version := o.version + 1, status := Refunding), 1) && b.ledger == sh.ledger
            && b.repo.orders == sh.repo.orders[0 := o.(version := o.version + 1, status := Refunding)]
            && 0 in b.hist.trail.refunder && b.hist.trail.refunder[0] == t
  {
    hide Cas, SplitRefund, ReverseDiscount, Resolve;
    RefundStartCas(sh, t, o);
  }

  lemma RefundStartCas(sh: Shared, t: Tid, o: Order)
    requires 0 in sh.repo.orders && sh.repo.orders[0] == o && o.status == Paid
    ensures var (b, p) := Cas(sh, t, 0, ReqRefundStart, o);
            && p.Some? && b.ledger == sh.ledger
            && b.repo.orders == sh.repo.orders[0 := o.(version := o.version + 1, status := Refunding)]
            && 0 in b.hist.trail.refunder && b.hist.trail.refunder[0] == t
  {
    TableLookup(Paid, Refunding);
  }

  lemma RefundCreditEffects(sh: Shared, t: Tid, o: Order)
    requires o.amounts == Amounts(o.amounts.currency, 1, 0, 1, 1, 0, 1, 0)
    ensures Exec(sh, t, RfChannel(0, o, 1), Succeed) == (sh, RfCredit(0, o, 1))
    ensures var b := Exec(sh, t, RfCredit(0, o, 1), Succeed).0;
            b.ledger == L.DoCredit(sh.ledger, AccountOf(o), 1) && b.repo == sh.repo
  {
    hide SplitRefund, L.DoCredit, AccountOf;
    SplitExact(o.amounts, 1);
  }

  lemma CreditOpens(l: L.Ledger, k: L.Account)
    requires k !in l.opening
    ensures k in L.DoCredit(l, k, 1).opening && L.DoCredit(l, k, 1).opening[k] == 0
  {
  }

  /** A refund of a paid one-unit order up to its credit. */
  lemma RefundCredits(reliable: bool, s: State, t: Tid, o: Order) returns (r: State)
    requires Reaches(reliable, s) && t !in s.threads && s.sh.repo.orders == map[0 := o] && o.status == Paid
    requires o.amounts == Amounts(o.amounts.currency, 1, 0, 1, 1, 0, 1, 0)
    ensures Reaches(reliable, r) && r.sh.repo.orders.Keys == {0} && r.sh.repo.orders[0].scene == o.scene
    ensures r.sh.ledger == L.DoCredit(s.sh.ledger, AccountOf(o), 1)
  {
    hide Reaches, Entry, Exec, L.DoCredit;
    RefundReadEffect(s.sh, t, o);
    RefundStartEffect(s.sh, t, o);
    RefundIsEntry();
    r := Start(reliable, s, t, RfRead(0, RefundCmd(0, [])));
    r := Step(reliable, r, t, Succeed);
    r := Step(reliable, r, t, Succeed);
    RefundCreditEffects(r.sh, t, o.(version := o.version + 1, status := Refunding));
    r := Step(reliable, r, t, Succeed);
    r := Step(reliable, r, t, Succeed);
  }

  /** Without a ledger mode nothing is frozen, so the refund's credit is the first contact with the account. */
  lemma RefundOpensAtZero(reliable: bool, scene: Scene) returns (s: State, k: L.Account)
    requires scene.currency != "" && scene.ledger == LedgerNone
    ensures Reaches(reliable, s) && s.sh.repo.orders.Keys == {0} && s.sh.repo.orders[0].scene == scene
    ensures k in s.sh.ledger.opening && s.sh.ledger.opening[k] == 0
  {
    hide Reaches, Entry, L.DoCredit;
    var req := OneUnit(scene, 1, "points");
    OneUnitAdmitted(scene, 1, "points");
    s := Pays(reliable, req);
    k := AccountOf(PaidOrder(req));
    CreditOpens(s.sh.ledger, k);
    s := RefundCredits(reliable, s, 2, PaidOrder(req));
  }

  lemma RefundIsEntry()
    ensures Entry(RfRead(0, RefundCmd(0, [])))
  {
  }

  /** An order that names no asset is frozen on one account and credited by close on another. */
  lemma CloseOpensAtZero(reliable: bool, scene: Scene) returns (s: State, k: L.Account)
    requires scene.currency != "" && scene.allowClose
    ensures Reaches(reliable, s) && s.sh.repo.orders.Keys == {0} && s.sh.repo.orders[0].scene == scene
    ensures k in s.sh.ledger.opening && s.sh.ledger.opening[k] == 0
  {
    hide Reaches, Entry, L.DoCredit;
    var req := OneUnit(scene, 1, "");
    OneUnitAdmitted(scene, 1, "");
    s := Pays(reliable, req);
    var o := PaidOrder(req);
    k := L.Account(o.tenant, o.buyer, o.amounts.currency);
    CreditOpens(s.sh.ledger, k);
    s := CloseCredits(reliable, s, 2, o);
  }

  /**
   * With orders of one scene, some account starts from another balance than the default exactly when the scene has
   * no ledger mode or allows close.
   */
  lemma OddOpeningIffLoose(reliable: bool, scene: Scene)
    requires scene.currency != ""
    ensures (exists s, k ::
              Reaches(reliable, s) && (forall oid :: oid in s.sh.repo.orders ==> s.sh.repo.orders[oid].scene == scene)
                            && k in s.sh.ledger.opening && s.sh.ledger.opening[k] != L.DEFAULT_BALANCE)
            <==> scene.ledger == LedgerNone || scene.allowClose
  {
    hide ValidRun;
    if scene.ledger == LedgerNone {
      var s, k := RefundOpensAtZero(reliable, scene);
      assert k in s.sh.ledger.opening;
    } else if scene.allowClose {
      var s, k := CloseOpensAtZero(reliable, scene);
      assert k in s.sh.ledger.opening;
    } else {
      forall s, k | Reaches(reliable, s)
        && (forall oid :: oid in s.sh.repo.orders ==> s.sh.repo.orders[oid].scene == scene) && k in s.sh.ledger.opening
        ensures s.sh.ledger.opening[k] == L.DEFAULT_BALANCE
      {
        var acts :| ValidRun(Initial(reliable), acts) && Final(Initial(reliable), acts) == s;
        LedgerConserved(reliable, acts, k);
      }
    }
  }

  // ---------------------------------------------------------------------------
  // Ticket insertion
  // ---------------------------------------------------------------------------

  lemma CompensateEffects(sh: Shared, t: Tid, o: Order)
    requires o.reservation.Some? && o.status == Paid && 0 in sh.repo.orders && sh.repo.orders[0] == o
    ensures Exec(sh, t, After(0, o, FromPay, ApCommit), Fail) == (sh, PayTicket(0, o))
    ensures !sh.reliable ==> Exec(sh, t, PayTicket(0, o), Fail) == (sh, PayCompensate(0, o))
    ensures var b := Exec(sh, t, PayCompensate(0, o), Succeed).0;
            0 in b.repo.orders && b.repo.orders[0].status == Compensating && b.repo.tickets == sh.repo.tickets
  {
    TableLookup(Paid, Compensating);
  }

  const PLAIN: Scene := Scene("scene", "CNY", OfferOptional, LedgerNone, false, false, false)

  /** The step after payment fails, its ticket is lost, and the order is left COMPENSATING with nobody to retry it. */
  lemma TicketLost() returns (s: State)
    ensures Reaches(false, s) && 0 in s.sh.repo.orders && s.sh.repo.orders[0].status == Compensating
    ensures s.sh.repo.tickets == []
  {
    hide Reaches, Exec, Entry;
    var req := OneUnit(PLAIN, 0, "points");
    OneUnitAdmitted(PLAIN, 0, "points");
    s := Pays(false, req);
    var o := PaidOrder(req);
    Unreliable(s);
    CompensateEffects(s.sh, 1, o);
    s := Step(false, s, 1, Fail);
    s := Step(false, s, 1, Fail);
    s := Step(false, s, 1, Succeed);
  }

  lemma Unreliable(s: State)
    requires Reaches(false, s)
    ensures !s.sh.reliable
  {
    hide ValidRun, Final;
    var acts :| ValidRun(Initial(false), acts) && Final(Initial(false), acts) == s;
    ReliabilityKept(false, acts);
  }

  /** Every COMPENSATING order keeps a ticket that is not done exactly when inserting tickets cannot fail. */
  lemma TicketedIffReliable(reliable: bool)
    ensures (forall s, oid ::
              Reaches(reliable, s) && oid in s.sh.repo.orders && s.sh.repo.orders[oid].status == Compensating ==>
               Outstanding(s.sh.repo.tickets, AfterPaid(oid)))
            <==> reliable
  {
    hide ValidRun;
    if reliable {
      forall s, oid | Reaches(reliable, s) && oid in s.sh.repo.orders && s.sh.repo.orders[oid].status == Compensating
        ensures Outstanding(s.sh.repo.tickets, AfterPaid(oid))
      {
        var acts :| ValidRun(Initial(reliable), acts) && Final(Initial(reliable), acts) == s;
        CompensatingIsTicketed(acts, oid);
      }
    } else {
      var s := TicketLost();
      assert 0 in s.sh.repo.orders && !Outstanding(s.sh.repo.tickets, AfterPaid(0));
    }
  }
}

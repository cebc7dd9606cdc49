/**
 * What holds between any two steps: the invariant of the shared state, what each call in flight may
 * rely on at its program counter, and what every step guarantees to the other calls.
 */
module SagaInvariant {
  import opened Base
  import opened Int64
  import opened Amounts
  import opened Orders
  import opened Hashing
  import opened RefundMath
  import opened RefundRuns
  import opened SagaState
  import opened SagaProgram
  import L = Ledger
  import F = Offer

  // ---------------------------------------------------------------------------
  // History of one order
  // ---------------------------------------------------------------------------

  /** The events entering a status writes. */
  function EventsOf(s: Status): seq<EventKind> {
    match s
    case PendingPay => [EvCreated]
    case Paid => [EvPaid]
    case Fulfilling => [EvFulfilled]
    case Completed => [EvCompleted]
    case Cancelled => [EvCancelled]
    case Closed => [EvClosed]
    case Refunded => [EvRefunded]
    case PartialRefunded => [EvRefunded]
    case Refunding => []
    case Compensating => []
  }

  function Trace(path: seq<Status>): seq<EventKind> {
    if path == [] then [] else Trace(path[..|path| - 1]) + EventsOf(path[|path| - 1])
  }

  /** The events of one order in the log, in order. */
  function EventsFor(log: seq<Event>, oid: OrderId): seq<EventKind> {
    if log == [] then []
    else
      var e := log[|log| - 1];
      EventsFor(log[..|log| - 1], oid) + (if e.order == oid then [e.kind] else [])
  }

  /** Past payment the order can no longer be cancelled, past cancellation no longer be paid. */
  predicate Compatible(past: Status, now: Status) {
    && (Settled(past) ==> Settled(now))
    && (past == Cancelled ==> now == Cancelled)
  }

  predicate LegalPath(path: seq<Status>) {
    && path != []
    && path[0] == PendingPay
    && (forall i :: 0 < i < |path| ==> CanTransition(path[i - 1], path[i]))
    && (forall i :: 0 <= i < |path| ==> Compatible(path[i], path[|path| - 1]))
  }

  // ---------------------------------------------------------------------------
  // Shared state
  // ---------------------------------------------------------------------------

  /**
   * A credit for this order may reach this account before any freeze has: ledger money without a
   * ledger mode, or a close that credits the currency because the order names no asset.
   */
  predicate LooseOn(o: Order, k: L.Account) {
    && o.amounts.ledgerPay > 0 && k.tenant == o.tenant && k.user == o.buyer
    && (|| (o.scene.ledger == LedgerNone && k.asset == o.asset)
        || (o.scene.allowClose && o.asset == "" && k.asset == o.amounts.currency))
  }

  type OrderMap = map<OrderId, Order>

  /** The freeze was made for this order, on its account. */
  predicate FreezeFits(frozenFor: seq<OrderId>, freezes: seq<L.Hold>, oid: OrderId, f: FreezeId, k: L.Account) {
    && f < |frozenFor| && f < |freezes|
    && frozenFor[f] == oid
    && freezes[f].account == k
  }

  predicate HoldsFreeze(frozenFor: seq<OrderId>, freezes: seq<L.Hold>, oid: OrderId, o: Order) {
    match o.freeze
    case None => o.amounts.ledgerPay > 0 ==> o.scene.ledger == LedgerNone
    case Some(f) => FreezeFits(frozenFor, freezes, oid, f, AccountOf(o)) && o.amounts.ledgerPay > 0
  }

  predicate HoldsReservation(offer: F.Offer, oid: OrderId, rsv: Option<RsvId>, discount: I64) {
    rsv.Some? ==> rsv.value == Rsv(oid) && Rsv(oid) in offer.resv && offer.resv[Rsv(oid)].discount == discount
  }

  predicate HoldsRedemption(offer: F.Offer, oid: OrderId, o: Order) {
    o.redemption.Some? ==> o.redemption == Some(Rd(Rsv(oid))) && o.reservation.Some? && Rd(Rsv(oid)) in offer.redeem
  }

  /** Credits stay below the ledger share of what has been, or while REFUNDING may yet be, refunded. */
  predicate CreditsWithin(credited: int, o: Order) {
    !o.scene.allowClose ==>
      && (o.amounts.payable == 0 ==> credited <= 0)
      && credited * o.amounts.payable
           <= o.amounts.ledgerPay * (if o.status == Refunding then o.amounts.payable else o.amounts.refunded)
  }

  /** The recorded path is legal, ends in the current status and has one version per step. */
  predicate PathFits(path: map<OrderId, seq<Status>>, oid: OrderId, version: nat, status: Status) {
    && oid in path && LegalPath(path[oid])
    && |path[oid]| == version && path[oid][version - 1] == status
  }

  /** Reservations are only made in scenes with an offer mode. */
  predicate Offered(scene: Scene, rsv: Option<RsvId>) { rsv.Some? ==> scene.offer != OfferNone }

  /** What an order's own fields satisfy. */
  predicate FieldsOk(o: Order) {
    && MoneyByStatus(o.status, o.amounts)
    && VersionWithin(o)
    && (o.status == Closed ==> o.scene.allowClose)
    && Offered(o.scene, o.reservation)
  }

  predicate OrderOk(h: History, ledger: L.Ledger, offer: F.Offer, oid: OrderId, o: Order) {
    && oid < |h.minter|
    && FieldsOk(o)
    && PathFits(h.path, oid, o.version, o.status)
    && HoldsFreeze(h.frozenFor, ledger.freezes, oid, o)
    && HoldsReservation(offer, oid, o.reservation, o.amounts.discount)
    && HoldsRedemption(offer, oid, o)
    && CreditsWithin(CreditedTo(h.trail.payments, oid), o)
    && (o.status == Refunding ==> oid in h.trail.refunder)
  }

  ghost predicate OrdersOk(orders: OrderMap, h: History, ledger: L.Ledger, offer: F.Offer) {
    forall oid :: oid in orders ==> OrderOk(h, ledger, offer, oid, orders[oid])
  }

  /** Client keys and idempotency keys each lead to one order and back. */
  ghost predicate IndexOk(orders: OrderMap, client: map<ClientKey, OrderId>, idem: map<IdemKey, IdemRecord>,
                          idemOf: map<OrderId, IdemKey>)
  {
    && ClientsIndexed(orders, client)
    && KeysIndexed(orders, idem, idemOf)
    && RecordsFit(orders, idem)
  }

  ghost predicate KeysIndexed(orders: OrderMap, idem: map<IdemKey, IdemRecord>, idemOf: map<OrderId, IdemKey>) {
    forall oid :: oid in orders ==> oid in idemOf && idemOf[oid] in idem && idem[idemOf[oid]].order == oid
  }

  /** The log holds, for every order, exactly the events of its path. */
  ghost predicate LogOk(orders: OrderMap, log: seq<Event>, path: map<OrderId, seq<Status>>) {
    && orders.Keys == path.Keys
    && (forall oid :: oid in path ==> EventsFor(log, oid) == Trace(path[oid]))
    && (forall i :: 0 <= i < |log| ==> log[i].order in path)
  }

  ghost predicate LedgerOk(ledger: L.Ledger, frozenFor: seq<OrderId>, minter: seq<Tid>) {
    && L.Sound(ledger)
    && |frozenFor| == |ledger.freezes|
    && (forall f :: 0 <= f < |frozenFor| ==> frozenFor[f] < |minter|)
  }

  /** An account that did not start from the default balance was credited for an order loose on it. */
  ghost predicate OpeningOk(opening: map<L.Account, int>, orders: OrderMap) {
    forall k :: k in opening && opening[k] != L.DEFAULT_BALANCE ==> LooselyCredited(orders, k)
  }

  predicate LooselyCredited(orders: OrderMap, k: L.Account) {
    exists oid :: oid in orders && LooseOn(orders[oid], k)
  }

  /** Captures only for orders past payment, releases only for cancelled orders or ids that are no order. */
  ghost predicate FreezeCallsOk(orders: OrderMap, frozenFor: seq<OrderId>, captures: set<FreezeId>,
                                releases: set<FreezeId>)
  {
    && (forall f :: f in captures ==>
          f < |frozenFor| && frozenFor[f] in orders && Settled(orders[frozenFor[f]].status))
    && (forall f :: f in releases ==>
          f < |frozenFor| && (frozenFor[f] in orders ==> orders[frozenFor[f]].status == Cancelled))
  }

  ghost predicate OfferOk(offer: F.Offer, minted: nat, commits: set<RsvId>, frees: set<RsvId>) {
    && F.Sound(offer)
    && (forall r :: r in offer.resv ==> r.order < minted)
    && (forall r :: r in offer.resv && offer.resv[r].redemption.Some? ==> r in commits)
    && (forall r :: r in frees ==> r.order < minted)
    && (forall r :: r in offer.resv && offer.resv[r].status == F.Released ==> r in frees)
  }

  predicate MayFree(o: Order) { o.status == Cancelled || o.scene.allowClose }

  /** Commits only for orders past payment; releases for cancelled orders, closable scenes, or ids that are no order. */
  ghost predicate OfferCallsOk(orders: OrderMap, commits: set<RsvId>, frees: set<RsvId>) {
    && (forall r :: r in commits ==> r.order in orders && Settled(orders[r.order].status))
    && (forall r :: r in frees && r.order in orders ==> MayFree(orders[r.order]))
  }

  /** What a done ticket of this kind says, for good; for an after-paid ticket only that payment is behind the order. */
  predicate Resolved(orders: OrderMap, freezes: seq<L.Hold>, offer: F.Offer, held: set<OrderId>, kind: TicketKind) {
    match kind
    case AfterPaid(oid) => oid in orders && PastPayment(orders[oid].status)
    case LedgerRelease(Some(f), _) => f < |freezes| && !freezes[f].state.Open?
    case LedgerRelease(None, _) => true
    case OfferRelease(r) => r in offer.resv && offer.resv[r].status != F.Active
    case FulfilRelease(oid) => oid in orders && orders[oid].status == Cancelled && oid !in held
    case OfferReverse(id) => id in offer.redeem && offer.redeem[id].reversed >= offer.redeem[id].discount
  }

  /** What a ticket may be trusted to name. */
  predicate KindOk(orders: OrderMap, kind: TicketKind) {
    match kind
    case OfferRelease(r) => r.order in orders && MayFree(orders[r.order]) && orders[r.order].reservation == Some(r)
    case LedgerRelease(f, oid) => oid in orders && orders[oid].status == Cancelled && orders[oid].freeze == f
    case FulfilRelease(oid) => oid in orders && orders[oid].status == Cancelled
    case _ => true
  }

  ghost predicate TicketsOk(tickets: seq<Ticket>, orders: OrderMap, freezes: seq<L.Hold>, offer: F.Offer,
                            held: set<OrderId>)
  {
    forall i :: 0 <= i < |tickets| ==>
      && KindOk(orders, tickets[i].kind)
      && (tickets[i].status == Done ==> Resolved(orders, freezes, offer, held, tickets[i].kind))
  }

  predicate HasTicket(tickets: seq<Ticket>, kind: TicketKind) {
    exists i :: 0 <= i < |tickets| && tickets[i].kind == kind
  }

  /** A COMPENSATING order has its ticket. */
  ghost predicate CompensatingOk(reliable: bool, orders: OrderMap, tickets: seq<Ticket>) {
    reliable ==>
      forall oid :: oid in orders && orders[oid].status == Compensating ==> HasTicket(tickets, AfterPaid(oid))
  }

  predicate Committed(o: Order, redeem: map<RedId, F.Redemption>) {
    o.reservation.Some? ==> Rd(o.reservation.value) in redeem
  }

  predicate Captured(o: Order, captures: set<FreezeId>) {
    if o.freeze.Some? then o.freeze.value in captures else o.amounts.ledgerPay <= 0
  }

  /**
   * The steps after payment were completed for an order with this history: it was fulfilled, or it left
   * COMPENSATING.
   */
  predicate Advanced(path: seq<Status>) {
    Fulfilling in path || exists i :: 0 <= i < |path| - 1 && path[i] == Compensating
  }

  /** An order never is FULFILLING in an autoComplete scene, and leaves COMPENSATING only for where its scene leads. */
  predicate Routed(scene: Scene, path: seq<Status>) {
    && (scene.autoComplete ==> Fulfilling !in path)
    && (forall i :: 0 <= i < |path| - 1 && path[i] == Compensating ==>
          path[i + 1] == if scene.autoComplete then Completed else Fulfilling)
  }

  /**
   * Orders went where their scenes lead, and one that advanced had its reservation committed and its freeze
   * captured.
   */
  ghost predicate AdvancesOk(orders: OrderMap, path: map<OrderId, seq<Status>>, captures: set<FreezeId>,
                             redeem: map<RedId, F.Redemption>)
  {
    forall oid :: oid in orders && oid in path ==>
      && Routed(orders[oid].scene, path[oid])
      && (Advanced(path[oid]) ==> Captured(orders[oid], captures) && Committed(orders[oid], redeem))
  }

  /**
   * Everything the finished refunds owe was paid, through the channel and, unless a close may credit too, to the
   * ledger.
   */
  predicate Repaid(o: Order, rs: seq<I64>, payments: seq<Payment>, oid: OrderId) {
    && ChannelledTo(payments, oid) == ChannelDues(o.amounts, rs)
    && (!o.scene.allowClose ==> CreditedTo(payments, oid) == LedgerDues(o.amounts, rs))
  }

  predicate OwnAccount(payments: seq<Payment>, oid: OrderId, k: L.Account) {
    forall i :: 0 <= i < |payments| && payments[i].order == oid && payments[i].payee.Wallet? ==>
      payments[i].payee.account == k
  }

  predicate RefundsFit(o: Order, rs: seq<I64>, payments: seq<Payment>, oid: OrderId) {
    && (forall i :: 0 <= i < |rs| ==> 0 < rs[i])
    && Sum(rs) == o.amounts.refunded
    && (o.status != Refunding ==> Repaid(o, rs, payments, oid))
    && (!o.scene.allowClose ==> OwnAccount(payments, oid, AccountOf(o)))
  }

  /**
   * Refunds are paid out as recorded, only stored orders are paid for, and the ledger's credits are the payments
   * to it.
   */
  ghost predicate PaymentsOk(orders: OrderMap, refunds: map<OrderId, seq<I64>>, payments: seq<Payment>,
                             credits: map<L.Account, int>)
  {
    && (forall oid :: oid in orders ==> RefundsFit(orders[oid], RefundsOf(refunds, oid), payments, oid))
    && (forall oid :: oid in refunds ==> oid in orders)
    && (forall i :: 0 <= i < |payments| ==> payments[i].order in orders)
    && (forall k :: L.Get(credits, k) == PaidInto(payments, k))
  }

  ghost predicate SharedOk(sh: Shared) {
    && OrdersOk(sh.repo.orders, sh.hist, sh.ledger, sh.offer)
    && IndexOk(sh.repo.orders, sh.repo.client, sh.repo.idem, sh.hist.idemOf)
    && LogOk(sh.repo.orders, sh.repo.log, sh.hist.path)
    && LedgerOk(sh.ledger, sh.hist.frozenFor, sh.hist.minter)
    && OpeningOk(sh.ledger.opening, sh.repo.orders)
    && FreezeCallsOk(sh.repo.orders, sh.hist.frozenFor, sh.hist.captures, sh.hist.releases)
    && OfferOk(sh.offer, |sh.hist.minter|, sh.hist.commits, sh.hist.frees)
    && OfferCallsOk(sh.repo.orders, sh.hist.commits, sh.hist.frees)
    && TicketsOk(sh.repo.tickets, sh.repo.orders, sh.ledger.freezes, sh.offer, sh.held)
    && CompensatingOk(sh.reliable, sh.repo.orders, sh.repo.tickets)
    && AdvancesOk(sh.repo.orders, sh.hist.path, sh.hist.captures, sh.offer.redeem)
    && PaymentsOk(sh.repo.orders, sh.hist.trail.refunds, sh.hist.trail.payments, sh.ledger.credits)
  }

  // ---------------------------------------------------------------------------
  // What one step guarantees to every other call
  // ---------------------------------------------------------------------------

  predicate SameTerms(o: Order, p: Order) {
    && o.tenant == p.tenant && o.buyer == p.buyer && o.clientId == p.clientId
    && o.scene == p.scene && o.asset == p.asset && o.lines == p.lines
    && o.reservation == p.reservation && o.freeze == p.freeze
    && o.amounts.(paid := 0, refunded := 0) == p.amounts.(paid := 0, refunded := 0)
  }

  predicate PastPayment(s: Status) { s !in {PendingPay, Paid, Compensating} }

  /** Ledger money that was never frozen cannot be captured, so the steps after payment never get past it. */
  predicate Unfrozen(o: Order) { o.freeze.None? && o.amounts.ledgerPay > 0 }

  predicate Stuck(o: Order) { o.status == Compensating && Unfrozen(o) }

  /** How an order changes over time; an unchanged version means an unchanged status and unchanged money. */
  predicate Evolves(o: Order, p: Order) {
    && SameTerms(o, p)
    && o.version <= p.version
    && (o.version == p.version ==> o.status == p.status && o.amounts == p.amounts)
    && Compatible(o.status, p.status)
    && (PastPayment(o.status) ==> PastPayment(p.status))
    && (o.redemption.Some? ==> p.redemption.Some?)
    && (Stuck(o) ==> p.version == o.version)
  }

  /** Money and status of an order that another call is refunding stay put. */
  ghost predicate RefundUndisturbed(a: OrderMap, b: OrderMap, trailA: Trail, trailB: Trail, t: Tid) {
    forall oid :: oid in a && a[oid].status == Refunding && oid in trailA.refunder && trailA.refunder[oid] != t ==>
      && oid in b && b[oid].version == a[oid].version
      && oid in trailB.refunder && trailB.refunder[oid] == trailA.refunder[oid]
      && RefundsOf(trailB.refunds, oid) == RefundsOf(trailA.refunds, oid)
      && ChannelledTo(trailB.payments, oid) == ChannelledTo(trailA.payments, oid)
      && (!a[oid].scene.allowClose ==> CreditedTo(trailB.payments, oid) == CreditedTo(trailA.payments, oid))
  }

  /** Order ids minted by another call stay out of the repository and keep what was acquired under them. */
  ghost predicate MintUndisturbed(
    a: OrderMap, b: OrderMap, minterA: seq<Tid>, minterB: seq<Tid>,
    resvA: map<RsvId, F.Reservation>, resvB: map<RsvId, F.Reservation>, freesA: set<RsvId>, freesB: set<RsvId>, t: Tid)
  {
    && minterA <= minterB
    && (forall oid :: 0 <= oid < |minterA| && minterA[oid] != t && oid !in a ==>
          && oid !in b
          && (Rsv(oid) in resvB ==> Rsv(oid) in resvA)
          && (Rsv(oid) in freesB ==> Rsv(oid) in freesA))
  }

  /** A new release is of a known freeze whose order is cancelled or was minted by the releasing call. */
  ghost predicate ReleasesJustified(
    a: OrderMap, minter: seq<Tid>, frozenFor: seq<OrderId>, releasesA: set<FreezeId>, releasesB: set<FreezeId>, t: Tid)
  {
    forall f :: f in releasesB && f !in releasesA ==>
      f < |frozenFor| && (frozenFor[f] !in a ==> frozenFor[f] < |minter| && minter[frozenFor[f]] == t)
  }

  ghost predicate FreezesGrow(a: seq<L.Hold>, b: seq<L.Hold>) {
    && |a| <= |b|
    && (forall f :: 0 <= f < |a| ==> b[f].account == a[f].account && (b[f].state.Open? ==> a[f].state.Open?))
  }

  ghost predicate OfferGrows(a: F.Offer, b: F.Offer) {
    && (forall r :: r in a.resv ==>
          && r in b.resv && b.resv[r].discount == a.resv[r].discount
          && (b.resv[r].status == F.Active ==> a.resv[r].status == F.Active)
          && (a.resv[r].status == F.Released ==> b.resv[r].status == F.Released))
    && F.RedemptionsGrow(a.redeem, b.redeem)
  }

  ghost predicate TicketsGrow(a: seq<Ticket>, b: seq<Ticket>) {
    |a| <= |b| && (forall i :: 0 <= i < |a| ==> b[i].kind == a[i].kind)
  }

  ghost predicate RecordsGrow(a: map<IdemKey, IdemRecord>, b: map<IdemKey, IdemRecord>) {
    forall k :: k in a ==> k in b && b[k] == a[k]
  }

  /** Nothing is held again for a cancelled order. */
  ghost predicate HeldShrinks(orders: OrderMap, a: set<OrderId>, b: set<OrderId>) {
    forall oid :: oid in orders && orders[oid].status == Cancelled && oid in b ==> oid in a
  }

  ghost predicate BooksGrow(a: Shared, b: Shared) {
    && a.hist.frozenFor <= b.hist.frozenFor
    && FreezesGrow(a.ledger.freezes, b.ledger.freezes)
    && OfferGrows(a.offer, b.offer)
    && a.hist.commits <= b.hist.commits
    && a.hist.captures <= b.hist.captures
    && TicketsGrow(a.repo.tickets, b.repo.tickets)
    && RecordsGrow(a.repo.idem, b.repo.idem)
    && HeldShrinks(a.repo.orders, a.held, b.held)
    && a.reliable == b.reliable
  }

  ghost predicate OrdersEvolve(a: OrderMap, b: OrderMap) {
    forall oid :: oid in a ==> oid in b && Evolves(a[oid], b[oid])
  }

  /** A step of call `t` from `a` to `b`. */
  ghost predicate Guarantee(a: Shared, b: Shared, t: Tid) {
    && OrdersEvolve(a.repo.orders, b.repo.orders)
    && RefundUndisturbed(a.repo.orders, b.repo.orders, a.hist.trail, b.hist.trail, t)
    && MintUndisturbed(a.repo.orders, b.repo.orders, a.hist.minter, b.hist.minter,
                       a.offer.resv, b.offer.resv, a.hist.frees, b.hist.frees, t)
    && ReleasesJustified(a.repo.orders, a.hist.minter, a.hist.frozenFor, a.hist.releases, b.hist.releases, t)
    && BooksGrow(a, b)
  }

  // ---------------------------------------------------------------------------
  // What a call may rely on at its program counter
  // ---------------------------------------------------------------------------

  /** A snapshot read earlier: it still describes the order if the version has not moved. */
  predicate SnapFits(snap: Order, o: Order, oid: OrderId) {
    && SameTerms(snap, o)
    && snap.version <= o.version
    && (snap.version == o.version ==> snap.status == o.status && snap.amounts == o.amounts)
    && Compatible(snap.status, o.status)
    && FieldsOk(snap)
    && (snap.redemption.Some? ==> snap.redemption == Some(Rd(Rsv(oid))))
  }

  predicate SnapOk(sh: Shared, oid: OrderId, snap: Order) {
    oid in sh.repo.orders && SnapFits(snap, sh.repo.orders[oid], oid)
  }

  predicate Owned(sh: Shared, t: Tid, oid: OrderId) {
    oid < |sh.hist.minter| && sh.hist.minter[oid] == t && oid !in sh.repo.orders
  }

  /** Nothing acquired under this id has been given back. */
  ghost predicate Intact(sh: Shared, oid: OrderId) {
    && Rsv(oid) !in sh.hist.frees
    && (forall f :: f in sh.hist.releases ==> f < |sh.hist.frozenFor| && sh.hist.frozenFor[f] != oid)
  }

  predicate ReqOk(req: CheckoutReq) {
    && Balanced(req.amounts) && req.amounts.paid == 0 && req.amounts.refunded == 0
    && req.hash.clientOrder == Some(req.clientId)
  }

  /** Another request holds this request's key. */
  predicate LostRace(idem: map<IdemKey, IdemRecord>, req: CheckoutReq) {
    IdemKeyOf(req) in idem && idem[IdemKeyOf(req)].hash != req.hash
  }

  predicate GotOk(sh: Shared, oid: OrderId, got: Acquired) {
    && (got.rsv.Some? ==> got.rsv.value == Rsv(oid))
    && (got.freeze.Some? ==> got.freeze.value < |sh.hist.frozenFor| && sh.hist.frozenFor[got.freeze.value] == oid)
  }

  /** The refund in progress belongs to this call, and the order waits for it. */
  predicate Refunds(sh: Shared, t: Tid, oid: OrderId, snap: Order, amount: I64) {
    && SnapOk(sh, oid, snap)
    && snap.status == Refunding
    && sh.repo.orders[oid].version == snap.version
    && oid in sh.hist.trail.refunder && sh.hist.trail.refunder[oid] == t
    && 0 < amount <= snap.amounts.paid - snap.amounts.refunded
  }

  /**
   * How far this refund has been paid out: everything earlier refunds owe was paid, and of this one the
   * channel part, the ledger part, or neither yet; credits stay within the share of what is refunded.
   */
  predicate PaidBack(sh: Shared, oid: OrderId, snap: Order, amount: I64, channel: bool, ledger: bool) {
    var rs, payments := RefundsOf(sh.hist.trail.refunds, oid), sh.hist.trail.payments;
    && ChannelledTo(payments, oid)
       == ChannelDues(snap.amounts, rs) + (if channel then ChannelDue(snap.amounts, amount) else 0)
    && (!snap.scene.allowClose ==>
          && CreditedTo(payments, oid)
             == LedgerDues(snap.amounts, rs) + (if ledger then LedgerDue(snap.amounts, amount) else 0)
          && CreditedTo(payments, oid) * snap.amounts.payable
             <= snap.amounts.ledgerPay * (snap.amounts.refunded + (if ledger then amount else 0)))
  }

  predicate TicketAt(sh: Shared, i: nat, kind: TicketKind) {
    i < |sh.repo.tickets| && sh.repo.tickets[i].kind == kind
  }

  predicate OriginOk(sh: Shared, oid: OrderId, snap: Order, origin: Origin) {
    match origin
    case FromPay => snap.status == Paid
    case FromRetry(Some(i)) => TicketAt(sh, i, AfterPaid(oid))
    case FromRetry(None) => true
  }

  ghost predicate CheckoutCallOk(sh: Shared, t: Tid, pc: Pc) {
    if pc.ChFind? then var ChFind(req) := pc; ReqOk(req)
    else if pc.ChClient? then var ChClient(req) := pc; ReqOk(req)
    else if pc.ChFindAgain? then var ChFindAgain(req) := pc; ReqOk(req)
    else if pc.ChMint? then var ChMint(req) := pc; ReqOk(req)
    else if pc.ChReserve? then
      var ChReserve(req, oid) := pc;
      ReqOk(req) && Owned(sh, t, oid) && Intact(sh, oid) && Rsv(oid) !in sh.offer.resv
    else if pc.ChFreeze? then
      var ChFreeze(req, oid, got) := pc;
      ReqOk(req) && Owned(sh, t, oid) && Intact(sh, oid) && GotOk(sh, oid, got) && got.freeze.None?
      && Offered(req.scene, got.rsv)
      && HoldsReservation(sh.offer, oid, got.rsv, req.amounts.discount)
    else if pc.ChHold? then
      var ChHold(req, oid, got) := pc;
      ReqOk(req) && Owned(sh, t, oid) && Intact(sh, oid) && GotOk(sh, oid, got) && Offered(req.scene, got.rsv)
      && HoldsReservation(sh.offer, oid, got.rsv, req.amounts.discount)
      && HoldsFreeze(sh.hist.frozenFor, sh.ledger.freezes, oid, NewOrder(req, got.rsv, got.freeze))
    else if pc.ChInsert? then
      var ChInsert(req, oid, got) := pc;
      ReqOk(req) && Owned(sh, t, oid) && Intact(sh, oid) && GotOk(sh, oid, got) && Offered(req.scene, got.rsv)
      && HoldsReservation(sh.offer, oid, got.rsv, req.amounts.discount)
      && HoldsFreeze(sh.hist.frozenFor, sh.ledger.freezes, oid, NewOrder(req, got.rsv, got.freeze))
    else if pc.ChUndoHold? then
      var ChUndoHold(req, oid, got, again) := pc;
      Owned(sh, t, oid) && GotOk(sh, oid, got) && (again ==> LostRace(sh.repo.idem, req))
    else if pc.ChUndoFreeze? then
      var ChUndoFreeze(req, oid, got, again) := pc;
      Owned(sh, t, oid) && GotOk(sh, oid, got) && (again ==> LostRace(sh.repo.idem, req))
    else if pc.ChUndoOffer? then
      var ChUndoOffer(req, oid, got, again) := pc;
      Owned(sh, t, oid) && GotOk(sh, oid, got) && (again ==> LostRace(sh.repo.idem, req))
    else if pc.ChRefind? then var ChRefind(req) := pc; LostRace(sh.repo.idem, req)
    else true
  }

  ghost predicate PayCallOk(sh: Shared, t: Tid, pc: Pc) {
    if pc.PayCas? then var PayCas(oid, snap) := pc; SnapOk(sh, oid, snap) && snap.status == PendingPay
    else if pc.PayTicket? then var PayTicket(oid, snap) := pc; SnapOk(sh, oid, snap) && snap.status == Paid
    else if pc.PayCompensate? then
      var PayCompensate(oid, snap) := pc;
      SnapOk(sh, oid, snap) && snap.status == Paid && (sh.reliable ==> HasTicket(sh.repo.tickets, AfterPaid(oid)))
    else if pc.RetryRead? then
      var RetryRead(oid, ticket) := pc; ticket.Some? ==> TicketAt(sh, ticket.value, AfterPaid(oid))
    else true
  }

  predicate IsCancelled(sh: Shared, oid: OrderId) { oid in sh.repo.orders && sh.repo.orders[oid].status == Cancelled }

  ghost predicate CancelCallOk(sh: Shared, t: Tid, pc: Pc) {
    if pc.CnCas? then var CnCas(oid, snap) := pc; SnapOk(sh, oid, snap) && snap.status == PendingPay
    else if pc.CnOffer? then var CnOffer(oid, snap) := pc; SnapOk(sh, oid, snap) && snap.status == Cancelled
    else if pc.CnOfferTicket? then var CnOfferTicket(oid, snap) := pc; SnapOk(sh, oid, snap) && snap.status == Cancelled
    else if pc.CnLedger? then var CnLedger(oid, snap) := pc; SnapOk(sh, oid, snap) && snap.status == Cancelled
    else if pc.CnLedgerTicket? then
      var CnLedgerTicket(oid, snap) := pc; SnapOk(sh, oid, snap) && snap.status == Cancelled
    else if pc.CnFulfil? then var CnFulfil(oid) := pc; IsCancelled(sh, oid)
    else if pc.CnFulfilTicket? then var CnFulfilTicket(oid) := pc; IsCancelled(sh, oid)
    else true
  }

  ghost predicate RefundCallOk(sh: Shared, t: Tid, pc: Pc) {
    if pc.RfCas? then
      var RfCas(oid, snap, amount) := pc;
      SnapOk(sh, oid, snap) && RefundableStatus(snap.status) && 0 < amount <= snap.amounts.paid - snap.amounts.refunded
    else if pc.RfChannel? then
      var RfChannel(oid, snap, amount) := pc;
      Refunds(sh, t, oid, snap, amount) && PaidBack(sh, oid, snap, amount, false, false)
    else if pc.RfCredit? then
      var RfCredit(oid, snap, amount) := pc;
      Refunds(sh, t, oid, snap, amount) && PaidBack(sh, oid, snap, amount, true, false)
    else if pc.RfReverse? then
      var RfReverse(oid, snap, amount) := pc;
      Refunds(sh, t, oid, snap, amount) && PaidBack(sh, oid, snap, amount, true, true)
    else if pc.RfReverseTicket? then
      var RfReverseTicket(oid, snap, amount) := pc;
      Refunds(sh, t, oid, snap, amount) && PaidBack(sh, oid, snap, amount, true, true)
    else if pc.RfFinish? then
      var RfFinish(oid, snap, amount) := pc;
      Refunds(sh, t, oid, snap, amount) && PaidBack(sh, oid, snap, amount, true, true)
    else true
  }

  ghost predicate CloseCallOk(sh: Shared, t: Tid, pc: Pc) {
    if pc.CoCas? then var CoCas(oid, snap) := pc; SnapOk(sh, oid, snap)
    else if pc.ClOffer? then
      var ClOffer(oid, snap) := pc;
      SnapOk(sh, oid, snap) && snap.scene.allowClose && snap.status in {Paid, Fulfilling, Completed}
    else if pc.ClCredit? then
      var ClCredit(oid, snap) := pc;
      SnapOk(sh, oid, snap) && snap.scene.allowClose && snap.status in {Paid, Fulfilling, Completed}
    else if pc.ClFulfil? then
      var ClFulfil(oid, snap) := pc;
      SnapOk(sh, oid, snap) && snap.scene.allowClose && snap.status in {Paid, Fulfilling, Completed}
    else if pc.ClCas? then
      var ClCas(oid, snap) := pc;
      SnapOk(sh, oid, snap) && snap.scene.allowClose && snap.status in {Paid, Fulfilling, Completed}
    else true
  }

  ghost predicate TicketCallOk(sh: Shared, t: Tid, pc: Pc) {
    if pc.TkOffer? then var TkOffer(i, rsv) := pc; TicketAt(sh, i, OfferRelease(rsv))
    else if pc.TkLedger? then
      var TkLedger(i, freeze) := pc;
      i < |sh.repo.tickets| && sh.repo.tickets[i].kind.LedgerRelease? && sh.repo.tickets[i].kind.freeze == freeze
    else if pc.TkFulfil? then var TkFulfil(i, oid) := pc; TicketAt(sh, i, FulfilRelease(oid))
    else if pc.TkReverse? then var TkReverse(i, redemption) := pc; TicketAt(sh, i, OfferReverse(redemption))
    else if pc.TkEnd? then
      var TkEnd(i, ok) := pc;
      i < |sh.repo.tickets|
        && (ok ==> Resolved(sh.repo.orders, sh.ledger.freezes, sh.offer, sh.held, sh.repo.tickets[i].kind))
    else true
  }

  ghost predicate ReconCallOk(sh: Shared, t: Tid, pc: Pc) {
    if pc.RcLookup? then var RcLookup(oid, snap) := pc; SnapOk(sh, oid, snap)
    else if pc.RcOpen? then
      var RcOpen(kind) := pc; KindOk(sh.repo.orders, kind) && (kind.AfterPaid? || kind.OfferRelease?)
    else if pc.RcInsert? then
      var RcInsert(kind) := pc; KindOk(sh.repo.orders, kind) && (kind.AfterPaid? || kind.OfferRelease?)
    else if pc.RcCommit? then
      var RcCommit(oid, rsv) := pc;
      && rsv == Rsv(oid) && rsv in sh.hist.commits
      && oid in sh.repo.orders && sh.repo.orders[oid].reservation.Some?
    else if pc.RcBackfill? then
      var RcBackfill(oid, id) := pc;
      && id == Rd(Rsv(oid)) && id in sh.offer.redeem
      && oid in sh.repo.orders && sh.repo.orders[oid].reservation.Some?
    else true
  }

  predicate AfterCallOk(sh: Shared, oid: OrderId, snap: Order, origin: Origin, at: AfterStep) {
    && SnapOk(sh, oid, snap) && snap.status in {Paid, Compensating} && OriginOk(sh, oid, snap, origin)
    && (at.ApRedemption? ==> at.id == Rd(Rsv(oid)) && at.id in sh.offer.redeem && snap.reservation.Some?)
    && (!at.ApCommit? ==> Committed(snap, sh.offer.redeem))
    && (at.ApFulfil? || at.ApAdvance? ==> Captured(snap, sh.hist.captures))
  }

  /** A checkout is answered from the record of its key; the record is its own unless it lost the race. */
  predicate Answered(idem: map<IdemKey, IdemRecord>, key: IdemKey, order: OrderId, hash: Document, lost: bool) {
    key in idem && idem[key].order == order && (idem[key].hash == hash <==> !lost)
  }

  /** What call `t` knows at its program counter. */
  ghost predicate CallOk(sh: Shared, t: Tid, pc: Pc) {
    var known :=
      if InCheckout(pc) then CheckoutCallOk(sh, t, pc)
      else if InPay(pc) then PayCallOk(sh, t, pc)
      else if pc.After? then AfterCallOk(sh, pc.oid, pc.snap, pc.origin, pc.at)
      else if InCancel(pc) then CancelCallOk(sh, t, pc)
      else if InRefund(pc) then RefundCallOk(sh, t, pc)
      else if InClose(pc) then CloseCallOk(sh, t, pc)
      else if InTicket(pc) then TicketCallOk(sh, t, pc)
      else if InRecon(pc) then ReconCallOk(sh, t, pc)
      else pc.Accepted? ==> Answered(sh.repo.idem, pc.key, pc.order, pc.hash, pc.lost);
    known
  }

  // ---------------------------------------------------------------------------
  // Debts of cancelled orders
  // ---------------------------------------------------------------------------

  /** The cancelling call has not yet released the reservation or left a ticket for it. */
  predicate OwesOffer(pc: Pc, oid: OrderId) {
    (pc.CnOffer? || pc.CnOfferTicket?) && pc.oid == oid
  }

  predicate OwesLedger(pc: Pc, oid: OrderId) {
    (pc.CnOffer? || pc.CnOfferTicket? || pc.CnLedger? || pc.CnLedgerTicket?) && pc.oid == oid
  }

  predicate OwesFulfil(pc: Pc, oid: OrderId) {
    OwesLedger(pc, oid) || ((pc.CnFulfil? || pc.CnFulfilTicket?) && pc.oid == oid)
  }

  predicate FreezeOpen(sh: Shared, f: Option<FreezeId>) {
    f.Some? && f.value < |sh.ledger.freezes| && sh.ledger.freezes[f.value].state.Open?
  }

  predicate ReservationActive(sh: Shared, r: Option<RsvId>) {
    r.Some? && r.value in sh.offer.resv && sh.offer.resv[r.value].status == F.Active
  }

  predicate DebtOk(sh: Shared, threads: map<Tid, Pc>, oid: OrderId, o: Order) {
    o.status == Cancelled ==>
      && oid in sh.hist.canceller && sh.hist.canceller[oid] in threads
      && (FreezeOpen(sh, o.freeze) && sh.reliable ==>
            OwesLedger(threads[sh.hist.canceller[oid]], oid)
              || HasTicket(sh.repo.tickets, LedgerRelease(o.freeze, oid)))
      && (ReservationActive(sh, o.reservation) && sh.reliable ==>
            OwesOffer(threads[sh.hist.canceller[oid]], oid)
              || HasTicket(sh.repo.tickets, OfferRelease(o.reservation.value)))
      && (oid in sh.held && sh.reliable ==>
            OwesFulfil(threads[sh.hist.canceller[oid]], oid) || HasTicket(sh.repo.tickets, FulfilRelease(oid)))
  }

  ghost predicate DebtsOk(s: State) {
    forall oid :: oid in s.sh.repo.orders ==> DebtOk(s.sh, s.threads, oid, s.sh.repo.orders[oid])
  }

  /** The refunding call has taken the order to REFUNDING and not yet tried to take it out again. */
  predicate Finishing(pc: Pc, oid: OrderId) {
    (pc.RfChannel? || pc.RfCredit? || pc.RfReverse? || pc.RfReverseTicket? || pc.RfFinish?) && pc.oid == oid
  }

  /** A REFUNDING order has its refunding call, still at work on it or over. */
  predicate RefunderOk(sh: Shared, threads: map<Tid, Pc>, oid: OrderId, o: Order) {
    o.status == Refunding ==>
      && oid in sh.hist.trail.refunder && sh.hist.trail.refunder[oid] in threads
      && (Finishing(threads[sh.hist.trail.refunder[oid]], oid) || threads[sh.hist.trail.refunder[oid]] == Returned)
  }

  ghost predicate RefundersOk(s: State) {
    forall oid :: oid in s.sh.repo.orders ==> RefunderOk(s.sh, s.threads, oid, s.sh.repo.orders[oid])
  }

  ghost predicate CallsOk(s: State) {
    forall t :: t in s.threads ==> CallOk(s.sh, t, s.threads[t])
  }

  ghost predicate Inv(s: State) {
    SharedOk(s.sh) && CallsOk(s) && DebtsOk(s) && RefundersOk(s)
  }
}

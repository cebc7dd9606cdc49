/**
 * Shared state of the saga: the order repository, the ledger, the offer hub, held inventory, and a
 * history that no program reads. Each function below is the effect of one atomic repository or
 * downstream call.
 */
module SagaState {
  import opened Base
  import opened Int64
  import opened Amounts
  import opened Orders
  import opened Hashing
  import L = Ledger
  import F = Offer

  /** One service call in flight; ids are never reused. */
  type Tid = nat

  /** What a compensation ticket asks for: its kind, ref and payload. */
  datatype TicketKind =
    | AfterPaid(order: OrderId)
    | OfferRelease(rsv: RsvId)
    | LedgerRelease(freeze: Option<FreezeId>, order: OrderId)
    | FulfilRelease(order: OrderId)
    | OfferReverse(redemption: RedId)

  datatype TicketStatus = Pending | Running | Done | Failed
  datatype Ticket = Ticket(kind: TicketKind, status: TicketStatus)

  datatype ClientKey = ClientKey(tenant: Name, buyer: Name, clientId: Name)
  datatype IdemKey = IdemKey(tenant: Name, actor: Name, key: Name)
  datatype IdemRecord = IdemRecord(hash: Document, order: OrderId)
  datatype Event = Event(order: OrderId, kind: EventKind)

  /** A priced checkout request: everything known before the first reservation. */
  datatype CheckoutReq = CheckoutReq(
    tenant: Name,
    user: Name,
    clientId: Name,
    key: Name,
    hash: Document,
    scene: Scene,
    asset: Name,
    amounts: Amounts,
    lines: seq<Line>,
    hasQuote: bool,
    coupons: nat)

  /** `log` keeps every event ever written to the outbox. */
  datatype Repo = Repo(
    orders: map<OrderId, Order>,
    idem: map<IdemKey, IdemRecord>,
    client: map<ClientKey, OrderId>,
    tickets: seq<Ticket>,
    log: seq<Event>)

  /** Money paid out for an order, back to the payment channel or to a ledger account. */
  datatype Payee = Channel | Wallet(account: L.Account)
  datatype Payment = Payment(order: OrderId, payee: Payee, amount: int)

  /** Who took each order to REFUNDING, the amounts of its finished refunds, and every payment made. */
  datatype Trail = Trail(refunder: map<OrderId, Tid>, refunds: map<OrderId, seq<I64>>, payments: seq<Payment>)

  /**
   * Who minted each order id, which order each freeze was made for, which ledger and offer calls
   * were issued, the statuses each order went through, who cancelled it, what became of its refunds,
   * and the idempotency key it was stored under.
   */
  datatype History = History(
    minter: seq<Tid>,
    frozenFor: seq<OrderId>,
    captures: set<FreezeId>,
    releases: set<FreezeId>,
    commits: set<RsvId>,
    frees: set<RsvId>,
    path: map<OrderId, seq<Status>>,
    canceller: map<OrderId, Tid>,
    trail: Trail,
    idemOf: map<OrderId, IdemKey>)

  /** `reliable` says whether inserting a compensation ticket always succeeds. */
  datatype Shared = Shared(
    repo: Repo,
    ledger: L.Ledger,
    offer: F.Offer,
    held: set<OrderId>,
    hist: History,
    reliable: bool)

  function InitialShared(reliable: bool): Shared {
    Shared(Repo(map[], map[], map[], [], []), L.EMPTY, F.EMPTY, {},
           History([], [], {}, {}, {}, {}, map[], map[], Trail(map[], map[], []), map[]), reliable)
  }

  function AccountOf(o: Order): L.Account { L.Account(o.tenant, o.buyer, o.asset) }
  function ClientKeyOf(o: Order): ClientKey { ClientKey(o.tenant, o.buyer, o.clientId) }
  function IdemKeyOf(req: CheckoutReq): IdemKey { IdemKey(req.tenant, req.user, req.key) }

  function PathOf(path: map<OrderId, seq<Status>>, oid: OrderId): seq<Status> { if oid in path then path[oid] else [] }

  function RefundsOf(refunds: map<OrderId, seq<I64>>, oid: OrderId): seq<I64> {
    if oid in refunds then refunds[oid] else []
  }

  /** What was credited to ledger accounts for an order. */
  function CreditedTo(payments: seq<Payment>, oid: OrderId): int {
    if payments == [] then 0
    else
      var p := payments[|payments| - 1];
      CreditedTo(payments[..|payments| - 1], oid) + (if p.order == oid && p.payee.Wallet? then p.amount else 0)
  }

  /** What was paid back through the channel for an order. */
  function ChannelledTo(payments: seq<Payment>, oid: OrderId): int {
    if payments == [] then 0
    else
      var p := payments[|payments| - 1];
      ChannelledTo(payments[..|payments| - 1], oid) + (if p.order == oid && p.payee.Channel? then p.amount else 0)
  }

  /** What was credited to an account, for whatever order. */
  function PaidInto(payments: seq<Payment>, k: L.Account): int {
    if payments == [] then 0
    else
      var p := payments[|payments| - 1];
      PaidInto(payments[..|payments| - 1], k) + (if p.payee == Wallet(k) then p.amount else 0)
  }

  /** One more payment counts for its order and its payee and for nothing else. */
  lemma PaymentAdded(payments: seq<Payment>, p: Payment, oid: OrderId, k: L.Account)
    ensures CreditedTo(payments + [p], oid)
            == CreditedTo(payments, oid) + (if p.order == oid && p.payee.Wallet? then p.amount else 0)
    ensures ChannelledTo(payments + [p], oid)
            == ChannelledTo(payments, oid) + (if p.order == oid && p.payee.Channel? then p.amount else 0)
    ensures PaidInto(payments + [p], k) == PaidInto(payments, k) + (if p.payee == Wallet(k) then p.amount else 0)
  {
    assert (payments + [p])[..|payments|] == payments;
  }

  lemma {:induction false} NoPayments(payments: seq<Payment>, oid: OrderId)
    requires forall i :: 0 <= i < |payments| ==> payments[i].order != oid
    ensures CreditedTo(payments, oid) == 0 && ChannelledTo(payments, oid) == 0
  {
    if payments != [] { NoPayments(payments[..|payments| - 1], oid); }
  }

  /** How a downstream call turns out; a lost reply is an effect whose caller sees an error. */
  datatype Outcome = Succeed | Fail | Lost

  predicate TakesEffect(out: Outcome) { out != Fail }
  predicate Replies(out: Outcome) { out == Succeed }

  // ---------------------------------------------------------------------------
  // Repository
  // ---------------------------------------------------------------------------

  function Rows(oid: OrderId, event: Option<EventKind>): seq<Event> {
    if event.Some? then [Event(oid, event.value)] else []
  }

  function TrailAfter(trail: Trail, t: Tid, oid: OrderId, req: Request): Trail {
    match req
    case ReqRefundStart => trail.(refunder := trail.refunder[oid := t])
    case ReqRefundEnd(amount, _) => trail.(refunds := trail.refunds[oid := RefundsOf(trail.refunds, oid) + [amount]])
    case _ => trail
  }

  function Stored(sh: Shared, t: Tid, oid: OrderId, req: Request, o: Order, event: Option<EventKind>): Shared {
    sh.(repo := sh.repo.(orders := sh.repo.orders[oid := o], log := sh.repo.log + Rows(oid, event)),
        hist := sh.hist.(
          path := sh.hist.path[oid := PathOf(sh.hist.path, oid) + [o.status]],
          trail := TrailAfter(sh.hist.trail, t, oid, req),
          canceller := if req.ReqCancel? then sh.hist.canceller[oid := t] else sh.hist.canceller))
  }

  /** Compare-and-swap on version and status. */
  function Cas(sh: Shared, t: Tid, oid: OrderId, req: Request, snap: Order): (Shared, Option<Order>) {
    if oid !in sh.repo.orders then (sh, None)
    else
      match Transition(sh.repo.orders[oid], CommandOf(req, snap))
      case Err(_) => (sh, None)
      case Ok(o) => (Stored(sh, t, oid, req, o, CommandOf(req, snap).event), Some(o))
  }

  function NewOrder(req: CheckoutReq, rsv: Option<RsvId>, fz: Option<FreezeId>): Order {
    Order(req.tenant, req.user, req.clientId, req.scene, req.asset, PendingPay, 1, req.amounts, req.lines, rsv, None,
        fz)
  }

  /** One transaction: order, client index, idempotency record and creation event, or a conflict and nothing. */
  function InsertCheckout(sh: Shared, oid: OrderId, req: CheckoutReq, rsv: Option<RsvId>, fz: Option<FreezeId>)
    : (Shared, Result<()>)
  {
    var o := NewOrder(req, rsv, fz);
    if ClientKeyOf(o) in sh.repo.client then (sh, Err(ClientOrderConflict))
    else if IdemKeyOf(req) in sh.repo.idem then (sh, Err(IdempotencyConflict))
    else
      (sh.(repo := sh.repo.(
             orders := sh.repo.orders[oid := o],
             idem := sh.repo.idem[IdemKeyOf(req) := IdemRecord(req.hash, oid)],
             client := sh.repo.client[ClientKeyOf(o) := oid],
             log := sh.repo.log + [Event(oid, EvCreated)]),
           hist := sh.hist.(path := sh.hist.path[oid := [PendingPay]],
               idemOf := sh.hist.idemOf[oid := IdemKeyOf(req)])),
       Ok(()))
  }

  /** A record answers for an order of the same tenant and buyer, and its hash names that order's client id. */
  predicate RecordFits(orders: map<OrderId, Order>, k: IdemKey, rec: IdemRecord) {
    && rec.order in orders
    && orders[rec.order].tenant == k.tenant && orders[rec.order].buyer == k.actor
    && rec.hash.clientOrder == Some(orders[rec.order].clientId)
  }

  ghost predicate RecordsFit(orders: map<OrderId, Order>, idem: map<IdemKey, IdemRecord>) {
    forall k :: k in idem ==> RecordFits(orders, k, idem[k])
  }

  ghost predicate ClientsIndexed(orders: map<OrderId, Order>, client: map<ClientKey, OrderId>) {
    forall oid :: oid in orders ==> ClientKeyOf(orders[oid]) in client && client[ClientKeyOf(orders[oid])] == oid
  }

  /** The client key is tested first, so whoever meets the record of its key at insert asked for something else. */
  lemma ConflictIsForeign(sh: Shared, oid: OrderId, req: CheckoutReq, rsv: Option<RsvId>, fz: Option<FreezeId>)
    requires RecordsFit(sh.repo.orders, sh.repo.idem) && ClientsIndexed(sh.repo.orders, sh.repo.client)
    requires req.hash.clientOrder == Some(req.clientId)
    requires InsertCheckout(sh, oid, req, rsv, fz).1 == Err(IdempotencyConflict)
    ensures IdemKeyOf(req) in sh.repo.idem && sh.repo.idem[IdemKeyOf(req)].hash != req.hash
  {
    var k := IdemKeyOf(req);
    assert RecordFits(sh.repo.orders, k, sh.repo.idem[k]);
  }

  lemma InsertClients(orders: map<OrderId, Order>, client: map<ClientKey, OrderId>, oid: OrderId, o: Order)
    requires ClientsIndexed(orders, client) && oid !in orders && ClientKeyOf(o) !in client
    ensures ClientsIndexed(orders[oid := o], client[ClientKeyOf(o) := oid])
  {
    hide ClientKeyOf;
  }

  lemma InsertRecords(orders: map<OrderId, Order>, idem: map<IdemKey, IdemRecord>, oid: OrderId, req: CheckoutReq,
                      o: Order)
    requires RecordsFit(orders, idem) && oid !in orders && req.hash.clientOrder == Some(req.clientId)
    requires o.tenant == req.tenant && o.buyer == req.user && o.clientId == req.clientId
    ensures RecordsFit(orders[oid := o], idem[IdemKeyOf(req) := IdemRecord(req.hash, oid)])
  {
  }

  /** The redemption id is written outside any version check. */
  function UpdateRedemption(sh: Shared, oid: OrderId, id: RedId): Shared {
    if oid !in sh.repo.orders then sh
    else sh.(repo := sh.repo.(orders := sh.repo.orders[oid := sh.repo.orders[oid].(redemption := Some(id))]))
  }

  function InsertTicket(sh: Shared, kind: TicketKind, out: Outcome): Shared {
    if !sh.reliable && out == Fail then sh
    else sh.(repo := sh.repo.(tickets := sh.repo.tickets + [Ticket(kind, Pending)]))
  }

  function SetTicket(sh: Shared, i: nat, status: TicketStatus): Shared {
    if i >= |sh.repo.tickets| then sh
    else sh.(repo := sh.repo.(tickets := sh.repo.tickets[i := sh.repo.tickets[i].(status := status)]))
  }

  predicate HasOpenTicket(sh: Shared, kind: TicketKind) {
    exists i :: 0 <= i < |sh.repo.tickets| && sh.repo.tickets[i].kind == kind
                && (sh.repo.tickets[i].status == Pending || sh.repo.tickets[i].status == Running)
  }

  // ---------------------------------------------------------------------------
  // Downstream calls
  // ---------------------------------------------------------------------------

  /** A fresh order id. */
  function Mint(sh: Shared, t: Tid): Shared {
    sh.(hist := sh.hist.(minter := sh.hist.minter + [t]))
  }

  function Reserve(sh: Shared, oid: OrderId, discount: I64): Shared {
    sh.(offer := F.DoReserve(sh.offer, oid, discount))
  }

  /** A preview asks for a balance, which opens the account. */
  function AskBalance(sh: Shared, k: L.Account): Shared { sh.(ledger := L.Touch(sh.ledger, k)) }

  function FreezeFor(sh: Shared, oid: OrderId, k: L.Account, amount: int): (Shared, Result<FreezeId>) {
    var r := L.DoFreeze(sh.ledger, k, amount);
    (sh.(ledger := r.0,
         hist := if r.1.Ok? then sh.hist.(frozenFor := sh.hist.frozenFor + [oid]) else sh.hist),
     r.1)
  }

  function Capture(sh: Shared, f: Option<FreezeId>): (Shared, Result<()>) {
    var r := L.DoCapture(sh.ledger, f);
    (sh.(ledger := r.0,
         hist := if f.Some? then sh.hist.(captures := sh.hist.captures + {f.value}) else sh.hist),
     r.1)
  }

  function ReleaseFreeze(sh: Shared, f: Option<FreezeId>): Shared {
    sh.(ledger := L.DoRelease(sh.ledger, f),
        hist := if f.Some? then sh.hist.(releases := sh.hist.releases + {f.value}) else sh.hist)
  }

  function Credit(sh: Shared, oid: OrderId, k: L.Account, amount: int): Shared {
    sh.(ledger := L.DoCredit(sh.ledger, k, amount),
        hist := sh.hist.(trail := sh.hist.trail.(
          payments := sh.hist.trail.payments + [Payment(oid, Wallet(k), amount)])))
  }

  function PayChannel(sh: Shared, oid: OrderId, amount: int): Shared {
    sh.(hist := sh.hist.(trail := sh.hist.trail.(
          payments := sh.hist.trail.payments + [Payment(oid, Channel, amount)])))
  }

  function Commit(sh: Shared, r: RsvId): (Shared, Result<RedId>) {
    var c := F.DoCommit(sh.offer, r);
    (sh.(offer := c.0, hist := sh.hist.(commits := sh.hist.commits + {r})), c.1)
  }

  function ReleaseReservation(sh: Shared, r: RsvId): Shared {
    sh.(offer := F.DoRelease(sh.offer, r), hist := sh.hist.(frees := sh.hist.frees + {r}))
  }

  function Reverse(sh: Shared, id: RedId, amount: I64): (Shared, Result<()>) {
    var r := F.DoReverse(sh.offer, id, amount);
    (sh.(offer := r.0), r.1)
  }

  function Hold(sh: Shared, oid: OrderId): Shared { sh.(held := sh.held + {oid}) }
  function Unhold(sh: Shared, oid: OrderId): Shared { sh.(held := sh.held - {oid}) }
}

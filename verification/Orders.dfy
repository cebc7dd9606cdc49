/** Orders, scenes and the state machine (internal/domain), and the two repositories' conditional updates. */
module Orders {
  import opened Base
  import opened Int64
  import opened Amounts

  // ---------------------------------------------------------------------------
  // Entities
  // ---------------------------------------------------------------------------

  datatype Status =
    | PendingPay | Paid | Fulfilling | Completed | Cancelled
    | Closed | Refunding | Refunded | PartialRefunded | Compensating

  datatype OfferMode = OfferRequiredOrSkip | OfferOptional | OfferNone
  datatype LedgerMode = LedgerNone | LedgerOptional | LedgerFreezeCapture

  datatype Scene = Scene(
    name: Name,
    currency: Name,
    offer: OfferMode,
    ledger: LedgerMode,
    reserveInventory: bool,
    autoComplete: bool,
    allowClose: bool)

  predicate NeedsOffer(s: Scene, hasQuote: bool, coupons: nat) {
    s.offer != OfferNone && (hasQuote || coupons > 0 || s.offer == OfferRequiredOrSkip)
  }

  predicate NeedsLedger(s: Scene, ledgerPay: I64) {
    s.ledger != LedgerNone && (s.ledger == LedgerFreezeCapture || ledgerPay > 0)
  }

  /** When a reservation is wanted: always, never, or for a quote or coupons, as the mode of the scene says. */
  predicate OfferWanted(mode: OfferMode, hasQuote: bool, coupons: nat) {
    match mode
    case OfferRequiredOrSkip => true
    case OfferOptional => hasQuote || coupons > 0
    case OfferNone => false
  }

  type OrderId = nat

  /** The reservation id is derived from the order id, the redemption id from the reservation id. */
  datatype RsvId = Rsv(order: OrderId)
  datatype RedId = Rd(rsv: RsvId)
  type FreezeId = nat

  /** `None` stands for the empty id of the source. */
  datatype Order = Order(
    tenant: Name,
    buyer: Name,
    clientId: Name,
    scene: Scene,
    asset: Name,
    status: Status,
    version: nat,
    amounts: Amounts,
    lines: seq<Line>,
    reservation: Option<RsvId>,
    redemption: Option<RedId>,
    freeze: Option<FreezeId>)

  function RefundableAmount(o: Order): I64 { Wrap(o.amounts.paid - o.amounts.refunded) }

  predicate HasLedgerFreeze(o: Order) { o.freeze.Some? || o.amounts.ledgerPay > 0 }

  datatype EventKind = EvCreated | EvPaid | EvFulfilled | EvCompleted | EvCancelled | EvClosed | EvRefunded

  // ---------------------------------------------------------------------------
  // The transition table and the commands
  // ---------------------------------------------------------------------------

  function Transitions(from: Status): seq<Status> {
    match from
    case PendingPay => [Paid, Cancelled]
    case Paid => [Fulfilling, Completed, Refunding, Refunded, PartialRefunded, Compensating, Closed]
    case Fulfilling => [Completed, Refunding, Refunded, PartialRefunded, Closed]
    case Completed => [Refunding, Refunded, PartialRefunded, Closed]
    case Refunding => [Refunded, PartialRefunded, Completed, Fulfilling]
    case PartialRefunded => [Refunding, Refunded]
    case Compensating => [Paid, Completed, Fulfilling]
    case _ => []
  }

  predicate CanTransition(from: Status, to: Status) { to in Transitions(from) }

  function NextAfterPaid(autoComplete: bool): Status { if autoComplete then Completed else Fulfilling }

  datatype Cmd = Cmd(
    from: seq<Status>,
    to: Status,
    version: nat,
    paid: Option<I64>,
    refundedAdd: I64,
    redemption: Option<RedId>,
    event: Option<EventKind>)

  predicate FromMatches(cmd: Cmd, s: Status) { cmd.from == [] || s in cmd.from }

  /** The row after an accepted command, in both repositories. */
  function Updated(o: Order, cmd: Cmd): Order {
    o.(status := cmd.to,
       version := o.version + 1,
       amounts := o.amounts.(
         paid := if cmd.paid.Some? then cmd.paid.value else o.amounts.paid,
         refunded := if cmd.refundedAdd > 0 then Wrap(o.amounts.refunded + cmd.refundedAdd) else o.amounts.refunded),
       redemption := if cmd.redemption.Some? then cmd.redemption else o.redemption)
  }

  /** The in-memory repository: version, then source statuses, then the transition table. */
  function Transition(o: Order, cmd: Cmd): Result<Order> {
    if o.version != cmd.version then Err(VersionConflict)
    else if !FromMatches(cmd, o.status) then Err(VersionConflict)
    else if !CanTransition(o.status, cmd.to) then
      if o.status == Paid && cmd.to == Cancelled then Err(AlreadyPaid) else Err(StatusNotAllowed)
    else Ok(Updated(o, cmd))
  }

  /** The SQL repository: one conditional update that never consults the table. */
  function SqlTransition(o: Order, cmd: Cmd): Result<Order> {
    if o.version == cmd.version && FromMatches(cmd, o.status) then Ok(Updated(o, cmd)) else Err(VersionConflict)
  }

  // ---------------------------------------------------------------------------
  // The commands the services issue, each from a snapshot the caller read earlier
  // ---------------------------------------------------------------------------

  datatype Request =
    | ReqPay
    | ReqCompensate
    | ReqAdvance
    | ReqComplete
    | ReqCancel
    | ReqClose
    | ReqRefundStart
    | ReqRefundEnd(amount: I64, full: bool)

  function CommandOf(req: Request, snap: Order): Cmd {
    match req
    case ReqPay => Cmd([PendingPay], Paid, snap.version, Some(snap.amounts.payable), 0, None, Some(EvPaid))
    case ReqCompensate => Cmd([Paid], Compensating, snap.version, None, 0, None, None)
    case ReqAdvance =>
      Cmd([Paid, Compensating], NextAfterPaid(snap.scene.autoComplete), snap.version, None, 0, None,
          Some(if snap.scene.autoComplete then EvCompleted else EvFulfilled))
    case ReqComplete => Cmd([Fulfilling, Paid], Completed, snap.version, None, 0, None, Some(EvCompleted))
    case ReqCancel => Cmd([PendingPay], Cancelled, snap.version, None, 0, None, Some(EvCancelled))
    case ReqClose => Cmd([Paid, Fulfilling, Completed], Closed, snap.version, None, 0, None, Some(EvClosed))
    case ReqRefundStart => Cmd([snap.status], Refunding, snap.version, None, 0, None, None)
    case ReqRefundEnd(amount, full) =>
      Cmd([Refunding], if full then Refunded else PartialRefunded, snap.version, None, amount, None, Some(EvRefunded))
  }

  predicate RefundableStatus(s: Status) { s in {Paid, Fulfilling, Completed, PartialRefunded} }

  /** The guard each service puts on its snapshot before it issues the command. */
  predicate Admissible(req: Request, snap: Order) {
    req == ReqRefundStart ==> RefundableStatus(snap.status)
  }

  /** Every source status the command names leads to its target in the table. */
  predicate TableBacked(cmd: Cmd) {
    forall s :: FromMatches(cmd, s) ==> CanTransition(s, cmd.to)
  }

  /**
   * The two repositories give the same answer on every order exactly when the table backs the
   * command; otherwise some order is refused in memory and updated in SQL.
   */
  lemma RepositoriesAgreeIffTableBacked(cmd: Cmd, sample: Order)
    ensures (forall o :: Transition(o, cmd) == SqlTransition(o, cmd)) <==> TableBacked(cmd)
  {
    if s :| FromMatches(cmd, s) && !CanTransition(s, cmd.to) {
      var o := sample.(status := s, version := cmd.version);
      assert Transition(o, cmd) != SqlTransition(o, cmd);
    }
  }

  /** Every command a service issues is backed by the table, so the repositories are interchangeable for it. */
  lemma SqlRefinesMemory(req: Request, snap: Order, o: Order)
    requires Admissible(req, snap)
    ensures TableBacked(CommandOf(req, snap))
    ensures SqlTransition(o, CommandOf(req, snap)) == Transition(o, CommandOf(req, snap))
  {
    var cmd := CommandOf(req, snap);
    forall s | FromMatches(cmd, s) ensures CanTransition(s, cmd.to)
    {
      TableLookup(s, cmd.to);
    }
    RepositoriesAgreeIffTableBacked(cmd, o);
  }

  /** The table as a relation. */
  lemma TableLookup(from: Status, to: Status)
    ensures CanTransition(from, to) <==>
            match from
            case PendingPay => to.Paid? || to.Cancelled?
            case Paid => to !in {PendingPay, Paid, Cancelled}
            case Fulfilling => to in {Completed, Refunding, Refunded, PartialRefunded, Closed}
            case Completed => to in {Refunding, Refunded, PartialRefunded, Closed}
            case Refunding => to in {Refunded, PartialRefunded, Completed, Fulfilling}
            case PartialRefunded => to in {Refunding, Refunded}
            case Compensating => to in {Paid, Completed, Fulfilling}
            case _ => false
  {
  }

  // ---------------------------------------------------------------------------
  // What the status says about the money
  // ---------------------------------------------------------------------------

  /** The order went through payment at some point. */
  predicate Settled(s: Status) { s != PendingPay && s != Cancelled }

  predicate MoneyByStatus(s: Status, a: Amounts) {
    && Balanced(a)
    && (!Settled(s) ==> a.paid == 0)
    && (Settled(s) ==> a.paid == a.payable)
    && (s in {Paid, Fulfilling, Completed, Compensating, Closed} ==> a.refunded == 0)
    && (s == Refunding ==> a.refunded < a.paid)
    && (s == PartialRefunded ==> 0 < a.refunded < a.paid)
    && (s == Refunded ==> 0 < a.refunded == a.paid)
  }

  /** Position of a status on its way through the table, before refunds. */
  function Rank(s: Status): nat {
    match s
    case PendingPay => 1
    case Paid => 2
    case Cancelled => 2
    case Compensating => 3
    case Fulfilling => 4
    case Completed => 5
    case Closed => 6
    case Refunding => 6
    case PartialRefunded => 5
    case Refunded => 5
  }

  /** Each refund takes two versions and at least one unit of money. */
  predicate VersionWithin(o: Order) {
    1 <= o.version <= Rank(o.status) + 2 * o.amounts.refunded
  }
}

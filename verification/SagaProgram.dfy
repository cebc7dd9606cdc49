/**
 * The service calls as programs. A program counter names the next atomic call; `Exec` performs it.
 * A call that is never scheduled again has been abandoned, so every reachable state is also the
 * state after any number of abandoned calls.
 */
module SagaProgram {
  import opened Base
  import opened Int64
  import opened Amounts
  import opened Orders
  import opened Hashing
  import opened RefundMath
  import opened RefundRuns
  import opened SagaState
  import L = Ledger
  import F = Offer

  /** Who runs the steps after payment: the payment call itself, or a retry with or without a ticket. */
  datatype Origin = FromPay | FromRetry(ticket: Option<nat>)

  datatype AfterStep = ApCommit | ApRedemption(id: RedId) | ApCapture | ApFulfil | ApAdvance

  /** What a checkout has acquired so far. */
  datatype Acquired = Acquired(rsv: Option<RsvId>, freeze: Option<FreezeId>, inventory: bool)

  datatype Pc =
    | Returned
    | Accepted(key: IdemKey, order: OrderId, hash: Document, lost: bool)
    // Preview and checkout
    | PvBalance(account: L.Account)
    | ChFind(req: CheckoutReq)
    | ChClient(req: CheckoutReq)
    | ChFindAgain(req: CheckoutReq)
    | ChMint(req: CheckoutReq)
    | ChReserve(req: CheckoutReq, oid: OrderId)
    | ChFreeze(req: CheckoutReq, oid: OrderId, got: Acquired)
    | ChHold(req: CheckoutReq, oid: OrderId, got: Acquired)
    | ChInsert(req: CheckoutReq, oid: OrderId, got: Acquired)
    | ChUndoHold(req: CheckoutReq, oid: OrderId, got: Acquired, again: bool)
    | ChUndoFreeze(req: CheckoutReq, oid: OrderId, got: Acquired, again: bool)
    | ChUndoOffer(req: CheckoutReq, oid: OrderId, got: Acquired, again: bool)
    | ChRefind(req: CheckoutReq)
    // Payment and what follows it
    | PayRead(oid: OrderId)
    | PayCas(oid: OrderId, snap: Order)
    | After(oid: OrderId, snap: Order, origin: Origin, at: AfterStep)
    | PayTicket(oid: OrderId, snap: Order)
    | PayCompensate(oid: OrderId, snap: Order)
    | RetryRead(oid: OrderId, ticket: Option<nat>)
    // Cancellation
    | CnRead(oid: OrderId)
    | CnCas(oid: OrderId, snap: Order)
    | CnOffer(oid: OrderId, snap: Order)
    | CnOfferTicket(oid: OrderId, snap: Order)
    | CnLedger(oid: OrderId, snap: Order)
    | CnLedgerTicket(oid: OrderId, snap: Order)
    | CnFulfil(oid: OrderId)
    | CnFulfilTicket(oid: OrderId)
    // Refund
    | RfRead(oid: OrderId, cmd: RefundCmd)
    | RfCas(oid: OrderId, snap: Order, amount: I64)
    | RfChannel(oid: OrderId, snap: Order, amount: I64)
    | RfCredit(oid: OrderId, snap: Order, amount: I64)
    | RfReverse(oid: OrderId, snap: Order, amount: I64)
    | RfReverseTicket(oid: OrderId, snap: Order, amount: I64)
    | RfFinish(oid: OrderId, snap: Order, amount: I64)
    // Completion and close
    | CoRead(oid: OrderId)
    | CoCas(oid: OrderId, snap: Order)
    | ClRead(oid: OrderId)
    | ClOffer(oid: OrderId, snap: Order)
    | ClCredit(oid: OrderId, snap: Order)
    | ClFulfil(oid: OrderId, snap: Order)
    | ClCas(oid: OrderId, snap: Order)
    // Compensation tickets
    | TkClaim(i: nat)
    | TkFind(i: nat)
    | TkOffer(i: nat, rsv: RsvId)
    | TkLedger(i: nat, freeze: Option<FreezeId>)
    | TkFulfil(i: nat, oid: OrderId)
    | TkReverse(i: nat, redemption: RedId)
    | TkEnd(i: nat, ok: bool)
    // Reconciliation
    | RcRead(oid: OrderId)
    | RcLookup(oid: OrderId, snap: Order)
    | RcOpen(kind: TicketKind)
    | RcInsert(kind: TicketKind)
    | RcCommit(oid: OrderId, rsv: RsvId)
    | RcBackfill(oid: OrderId, id: RedId)

  /** Calls that may be started at any time with any arguments. */
  predicate Entry(pc: Pc) {
    if pc.ChFind? then
      var ChFind(req) := pc;
      && req.clientId != "" && req.key != "" && req.hash.clientOrder == Some(req.clientId)
      && BuildAmounts(req.scene.currency, req.amounts.original, req.amounts.discount, req.amounts.ledgerPay)
           == Ok(req.amounts)
    else if pc.RetryRead? then pc.ticket.None?
    else
      pc.PvBalance? || pc.PayRead? || pc.CnRead? || pc.RfRead? || pc.CoRead? || pc.ClRead? || pc.TkClaim? || pc.TkFind?
        || pc.RcRead?
  }

  predicate InCheckout(pc: Pc) {
    pc.PvBalance? || pc.ChFind? || pc.ChClient? || pc.ChFindAgain? || pc.ChMint? || pc.ChReserve? || pc.ChFreeze?
      || pc.ChHold?
    || pc.ChInsert? || pc.ChUndoHold? || pc.ChUndoFreeze? || pc.ChUndoOffer? || pc.ChRefind?
  }

  predicate InPay(pc: Pc) { pc.PayRead? || pc.PayCas? || pc.PayTicket? || pc.PayCompensate? || pc.RetryRead? }

  predicate InCancel(pc: Pc) {
    pc.CnRead? || pc.CnCas? || pc.CnOffer? || pc.CnOfferTicket? || pc.CnLedger? || pc.CnLedgerTicket? || pc.CnFulfil?
      || pc.CnFulfilTicket?
  }

  predicate InRefund(pc: Pc) {
    pc.RfRead? || pc.RfCas? || pc.RfChannel? || pc.RfCredit? || pc.RfReverse? || pc.RfReverseTicket? || pc.RfFinish?
  }

  predicate InClose(pc: Pc) {
    pc.CoRead? || pc.CoCas? || pc.ClRead? || pc.ClOffer? || pc.ClCredit? || pc.ClFulfil? || pc.ClCas?
  }

  predicate InTicket(pc: Pc) {
    pc.TkClaim? || pc.TkFind? || pc.TkOffer? || pc.TkLedger? || pc.TkFulfil? || pc.TkReverse? || pc.TkEnd?
  }

  predicate InRecon(pc: Pc) {
    pc.RcRead? || pc.RcLookup? || pc.RcOpen? || pc.RcInsert? || pc.RcCommit? || pc.RcBackfill?
  }

  /** One atomic step of call `t`: the new shared state and where the call continues. */
  function Exec(sh: Shared, t: Tid, pc: Pc, out: Outcome): (Shared, Pc) {
    if InCheckout(pc) then CheckoutStep(sh, t, pc, out)
    else if InPay(pc) then PayStep(sh, t, pc, out)
    else if pc.After? then AfterPaidStep(sh, t, pc, out)
    else if InCancel(pc) then CancelStep(sh, t, pc, out)
    else if InRefund(pc) then RefundStep(sh, t, pc, out)
    else if InClose(pc) then CloseStep(sh, t, pc, out)
    else if InTicket(pc) then TicketStep(sh, t, pc, out)
    else if InRecon(pc) then ReconStep(sh, t, pc, out)
    else (sh, pc)
  }

  // ---------------------------------------------------------------------------
  // Checkout
  // ---------------------------------------------------------------------------

  /** The stored answer for the request's idempotency key, if any. */
  function Recorded(sh: Shared, req: CheckoutReq): Option<IdemRecord> {
    if IdemKeyOf(req) in sh.repo.idem then Some(sh.repo.idem[IdemKeyOf(req)]) else None
  }

  function CheckoutStep(sh: Shared, t: Tid, pc: Pc, out: Outcome): (Shared, Pc) {
    if pc.PvBalance? then var PvBalance(k) := pc; (if TakesEffect(out) then AskBalance(sh, k) else sh, Returned)
    else if pc.ChFind? then
      var ChFind(req) := pc;
      if Replies(out) && Recorded(sh, req).Some? then (sh, Answer(req, Recorded(sh, req).value))
      else (sh, ChClient(req))
    else if pc.ChClient? then
      var ChClient(req) := pc;
      var o := NewOrder(req, None, None);
      if Replies(out) && ClientKeyOf(o) !in sh.repo.client then (sh, ChFindAgain(req)) else (sh, Returned)
    else if pc.ChFindAgain? then
      var ChFindAgain(req) := pc;
      if Replies(out) && Recorded(sh, req).Some? then (sh, Answer(req, Recorded(sh, req).value)) else (sh, ChMint(req))
    else if pc.ChMint? then
      var ChMint(req) := pc;
      if Replies(out) then (Mint(sh, t), ChReserve(req, |sh.hist.minter|)) else (sh, Returned)
    else if pc.ChReserve? then
      var ChReserve(req, oid) := pc;
      if !NeedsOffer(req.scene, req.hasQuote, req.coupons) then (sh, ChFreeze(req, oid, Acquired(None, None, false)))
      else
        var sh' := if TakesEffect(out) then Reserve(sh, oid, req.amounts.discount) else sh;
        if Replies(out) then (sh', ChFreeze(req, oid, Acquired(Some(Rsv(oid)), None, false))) else (sh', Returned)
    else if pc.ChFreeze? then
      var ChFreeze(req, oid, got) := pc;
      if !(NeedsLedger(req.scene, req.amounts.ledgerPay) && req.amounts.ledgerPay > 0) then (sh, ChHold(req, oid, got))
      else if !TakesEffect(out) then (sh, ChUndoHold(req, oid, got, false))
      else
        var (sh', r) := FreezeFor(sh, oid, L.Account(req.tenant, req.user, req.asset), req.amounts.ledgerPay);
        if r.Ok? && Replies(out) then (sh', ChHold(req, oid, got.(freeze := Some(r.value))))
        else (sh', ChUndoHold(req, oid, got, false))
    else if pc.ChHold? then
      var ChHold(req, oid, got) := pc;
      if !req.scene.reserveInventory then (sh, ChInsert(req, oid, got))
      else
        var sh' := if TakesEffect(out) then Hold(sh, oid) else sh;
        if Replies(out) then (sh', ChInsert(req, oid, got.(inventory := true)))
        else (sh', ChUndoHold(req, oid, got, false))
    else if pc.ChInsert? then
      var ChInsert(req, oid, got) := pc;
      if !Replies(out) then (sh, ChUndoHold(req, oid, got, false))
      else
        var (sh', r) := InsertCheckout(sh, oid, req, got.rsv, got.freeze);
        if r.Ok? then (sh', Accepted(IdemKeyOf(req), oid, req.hash, false))
        else (sh, ChUndoHold(req, oid, got, r.error == IdempotencyConflict))
    else if pc.ChUndoHold? then
      var ChUndoHold(req, oid, got, again) := pc;
      (if got.inventory && TakesEffect(out) then Unhold(sh, oid) else sh, ChUndoFreeze(req, oid, got, again))
    else if pc.ChUndoFreeze? then
      var ChUndoFreeze(req, oid, got, again) := pc;
      (if got.freeze.Some? && TakesEffect(out) then ReleaseFreeze(sh, got.freeze) else sh,
       ChUndoOffer(req, oid, got, again))
    else if pc.ChUndoOffer? then
      var ChUndoOffer(req, oid, got, again) := pc;
      (if got.rsv.Some? && TakesEffect(out) then ReleaseReservation(sh, got.rsv.value) else sh,
       if again then ChRefind(req) else Returned)
    else if pc.ChRefind? then
      var ChRefind(req) := pc;
      // The record that won the race is returned without comparing request hashes.
      if Replies(out) && Recorded(sh, req).Some? then
        (sh, Accepted(IdemKeyOf(req), Recorded(sh, req).value.order, req.hash, true))
      else (sh, Returned)
    else (sh, pc)
  }

  function Answer(req: CheckoutReq, rec: IdemRecord): Pc {
    if rec.hash == req.hash then Accepted(IdemKeyOf(req), rec.order, req.hash, false) else Returned
  }

  // ---------------------------------------------------------------------------
  // Payment
  // ---------------------------------------------------------------------------

  function PayStep(sh: Shared, t: Tid, pc: Pc, out: Outcome): (Shared, Pc) {
    if pc.PayRead? then
      var PayRead(oid) := pc;
      if Replies(out) && oid in sh.repo.orders && sh.repo.orders[oid].status == PendingPay
      then (sh, PayCas(oid, sh.repo.orders[oid]))
      else (sh, Returned)
    else if pc.PayCas? then
      var PayCas(oid, snap) := pc;
      if !Replies(out) then (sh, Returned)
      else
        var (sh', o) := Cas(sh, t, oid, ReqPay, snap);
        if o.Some? then (sh', After(oid, o.value, FromPay, ApCommit)) else (sh', Returned)
    else if pc.PayTicket? then
      var PayTicket(oid, snap) := pc; (InsertTicket(sh, AfterPaid(oid), out), PayCompensate(oid, snap))
    else if pc.PayCompensate? then
      var PayCompensate(oid, snap) := pc;
      if Replies(out) then (Cas(sh, t, oid, ReqCompensate, snap).0, Returned) else (sh, Returned)
    else if pc.RetryRead? then
      var RetryRead(oid, ticket) := pc;
      if !Replies(out) || oid !in sh.repo.orders then (sh, EndRetry(ticket, false))
      else
        var o := sh.repo.orders[oid];
        if o.status == Fulfilling || o.status == Completed then (sh, EndRetry(ticket, true))
        else if o.status == Paid || o.status == Compensating then (sh, After(oid, o, FromRetry(ticket), ApCommit))
        else (sh, EndRetry(ticket, false))
    else (sh, pc)
  }

  function EndRetry(ticket: Option<nat>, ok: bool): Pc {
    if ticket.Some? then TkEnd(ticket.value, ok) else Returned
  }

  /** Where a failed step after payment goes. */
  function AfterFailed(oid: OrderId, snap: Order, origin: Origin): Pc {
    match origin
    case FromPay => PayTicket(oid, snap)
    case FromRetry(ticket) => EndRetry(ticket, false)
  }

  function AfterDone(origin: Origin): Pc {
    match origin
    case FromPay => Returned
    case FromRetry(ticket) => EndRetry(ticket, true)
  }

  function AfterPaidStep(sh: Shared, t: Tid, pc: Pc, out: Outcome): (Shared, Pc)
    requires pc.After?
  {
    var After(oid, snap, origin, at) := pc;
    match at
    case ApCommit =>
      if snap.reservation.None? then (sh, pc.(at := ApCapture))
      else if !TakesEffect(out) then (sh, AfterFailed(oid, snap, origin))
      else
        var (sh', r) := Commit(sh, snap.reservation.value);
        if r.Ok? && Replies(out) then (sh', pc.(at := ApRedemption(r.value))) else (sh', AfterFailed(oid, snap, origin))
    case ApRedemption(id) =>
      (if TakesEffect(out) then UpdateRedemption(sh, oid, id) else sh,
       pc.(snap := snap.(redemption := Some(id)), at := ApCapture))
    case ApCapture =>
      if !HasLedgerFreeze(snap) then (sh, pc.(at := ApFulfil))
      else if !TakesEffect(out) then (sh, AfterFailed(oid, snap, origin))
      else
        var (sh', r) := Capture(sh, snap.freeze);
        if r.Ok? && Replies(out) then (sh', pc.(at := ApFulfil)) else (sh', AfterFailed(oid, snap, origin))
    case ApFulfil =>
      var sh' := if TakesEffect(out) then Hold(sh, oid) else sh;
      if Replies(out) then (sh', pc.(at := ApAdvance)) else (sh', AfterFailed(oid, snap, origin))
    case ApAdvance =>
      if !Replies(out) then (sh, AfterFailed(oid, snap, origin))
      else
        var (sh', o) := Cas(sh, t, oid, ReqAdvance, snap);
        if o.Some? then (sh', AfterDone(origin)) else (sh', AfterFailed(oid, snap, origin))
  }

  // ---------------------------------------------------------------------------
  // Cancellation
  // ---------------------------------------------------------------------------

  function CancelStep(sh: Shared, t: Tid, pc: Pc, out: Outcome): (Shared, Pc) {
    if pc.CnRead? then
      var CnRead(oid) := pc;
      if Replies(out) && oid in sh.repo.orders && sh.repo.orders[oid].status == PendingPay
      then (sh, CnCas(oid, sh.repo.orders[oid]))
      else (sh, Returned)
    else if pc.CnCas? then
      var CnCas(oid, snap) := pc;
      if !Replies(out) then (sh, Returned)
      else
        var (sh', o) := Cas(sh, t, oid, ReqCancel, snap);
        if o.Some? then (sh', CnOffer(oid, o.value)) else (sh', Returned)
    else if pc.CnOffer? then
      var CnOffer(oid, snap) := pc;
      if snap.reservation.None? then (sh, CnLedger(oid, snap))
      else
        var sh' := if TakesEffect(out) then ReleaseReservation(sh, snap.reservation.value) else sh;
        if Replies(out) then (sh', CnLedger(oid, snap)) else (sh', CnOfferTicket(oid, snap))
    else if pc.CnOfferTicket? then
      var CnOfferTicket(oid, snap) := pc;
      (if snap.reservation.Some? then InsertTicket(sh, OfferRelease(snap.reservation.value), out) else sh,
       CnLedger(oid, snap))
    else if pc.CnLedger? then
      var CnLedger(oid, snap) := pc;
      if !HasLedgerFreeze(snap) then (sh, CnFulfil(oid))
      else
        var sh' := if TakesEffect(out) then ReleaseFreeze(sh, snap.freeze) else sh;
        if Replies(out) then (sh', CnFulfil(oid)) else (sh', CnLedgerTicket(oid, snap))
    else if pc.CnLedgerTicket? then
      var CnLedgerTicket(oid, snap) := pc;
      (InsertTicket(sh, LedgerRelease(snap.freeze, oid), out), CnFulfil(oid))
    else if pc.CnFulfil? then
      var CnFulfil(oid) := pc;
      (if TakesEffect(out) then Unhold(sh, oid) else sh, if Replies(out) then Returned else CnFulfilTicket(oid))
    else if pc.CnFulfilTicket? then var CnFulfilTicket(oid) := pc; (InsertTicket(sh, FulfilRelease(oid), out), Returned)
    else (sh, pc)
  }

  // ---------------------------------------------------------------------------
  // Refund
  // ---------------------------------------------------------------------------

  predicate IsFull(snap: Order, amount: I64) { Wrap(snap.amounts.refunded + amount) == snap.amounts.paid }

  function RefundStep(sh: Shared, t: Tid, pc: Pc, out: Outcome): (Shared, Pc) {
    if pc.RfRead? then
      var RfRead(oid, cmd) := pc;
      if !Replies(out) || oid !in sh.repo.orders then (sh, Returned)
      else
        var o := sh.repo.orders[oid];
        if !RefundableStatus(o.status) then (sh, Returned)
        else
          var r := Resolve(o.lines, RefundableAmount(o), cmd);
          if r.Ok? then (sh, RfCas(oid, o, r.value)) else (sh, Returned)
    else if pc.RfCas? then
      var RfCas(oid, snap, amount) := pc;
      if !Replies(out) then (sh, Returned)
      else
        var (sh', o) := Cas(sh, t, oid, ReqRefundStart, snap);
        if o.None? then (sh', Returned)
        else (sh', RfChannel(oid, snap.(version := snap.version + 1, status := Refunding), amount))
    else if pc.RfChannel? then
      var RfChannel(oid, snap, amount) := pc;
      var channelAmt := SplitRefund(snap.amounts, amount).channel;
      if channelAmt <= 0 then (sh, RfCredit(oid, snap, amount))
      else
        (if TakesEffect(out) then PayChannel(sh, oid, channelAmt) else sh,
         if Replies(out) then RfCredit(oid, snap, amount) else Returned)
    else if pc.RfCredit? then
      var RfCredit(oid, snap, amount) := pc;
      var ledgerAmt := SplitRefund(snap.amounts, amount).ledger;
      if !(ledgerAmt > 0 && HasLedgerFreeze(snap)) then (sh, RfReverse(oid, snap, amount))
      else
        var sh' := if TakesEffect(out) then Credit(sh, oid, AccountOf(snap), ledgerAmt) else sh;
        if Replies(out) then (sh', RfReverse(oid, snap, amount)) else (sh', Returned)
    else if pc.RfReverse? then
      var RfReverse(oid, snap, amount) := pc;
      if snap.redemption.None? then (sh, RfFinish(oid, snap, amount))
      else if !TakesEffect(out) then (sh, RfReverseTicket(oid, snap, amount))
      else
        var (sh', r) := Reverse(sh, snap.redemption.value, ReverseDiscount(snap.amounts, amount, IsFull(snap, amount)));
        if r.Ok? && Replies(out) then (sh', RfFinish(oid, snap, amount)) else (sh', RfReverseTicket(oid, snap, amount))
    else if pc.RfReverseTicket? then
      var RfReverseTicket(oid, snap, amount) := pc;
      (if snap.redemption.Some? then InsertTicket(sh, OfferReverse(snap.redemption.value), out) else sh,
       RfFinish(oid, snap, amount))
    else if pc.RfFinish? then
      var RfFinish(oid, snap, amount) := pc;
      if Replies(out) then (Cas(sh, t, oid, ReqRefundEnd(amount, IsFull(snap, amount)), snap).0, Returned)
      else (sh, Returned)
    else (sh, pc)
  }

  // ---------------------------------------------------------------------------
  // Completion and close
  // ---------------------------------------------------------------------------

  function CloseStep(sh: Shared, t: Tid, pc: Pc, out: Outcome): (Shared, Pc) {
    if pc.CoRead? then
      var CoRead(oid) := pc;
      if Replies(out) && oid in sh.repo.orders && sh.repo.orders[oid].status in {Fulfilling, Paid}
      then (sh, CoCas(oid, sh.repo.orders[oid]))
      else (sh, Returned)
    else if pc.CoCas? then
      var CoCas(oid, snap) := pc;
      if Replies(out) then (Cas(sh, t, oid, ReqComplete, snap).0, Returned) else (sh, Returned)
    else if pc.ClRead? then
      var ClRead(oid) := pc;
      if Replies(out) && oid in sh.repo.orders && sh.repo.orders[oid].scene.allowClose
         && sh.repo.orders[oid].status in {Paid, Fulfilling, Completed}
      then (sh, ClOffer(oid, sh.repo.orders[oid]))
      else (sh, Returned)
    else if pc.ClOffer? then
      var ClOffer(oid, snap) := pc;
      if snap.redemption.Some? && snap.amounts.discount > 0 then
        if !TakesEffect(out) then (sh, Returned)
        else
          var (sh', r) := Reverse(sh, snap.redemption.value, 0);
          (sh', if r.Ok? && Replies(out) then ClCredit(oid, snap) else Returned)
      else if snap.reservation.Some? && snap.redemption.None? then
        (if TakesEffect(out) then ReleaseReservation(sh, snap.reservation.value) else sh,
         if Replies(out) then ClCredit(oid, snap) else Returned)
      else (sh, ClCredit(oid, snap))
    else if pc.ClCredit? then
      var ClCredit(oid, snap) := pc;
      var remain := RefundableAmount(snap);
      var ledgerAmt := SplitRefund(snap.amounts, remain).ledger;
      if !(remain > 0 && snap.amounts.ledgerPay > 0 && ledgerAmt > 0) then (sh, ClFulfil(oid, snap))
      else
        var asset := if snap.asset == "" then snap.amounts.currency else snap.asset;
        (if TakesEffect(out) then Credit(sh, oid, L.Account(snap.tenant, snap.buyer, asset), ledgerAmt) else sh,
         if Replies(out) then ClFulfil(oid, snap) else Returned)
    else if pc.ClFulfil? then
      var ClFulfil(oid, snap) := pc;
      (if TakesEffect(out) then Unhold(sh, oid) else sh, if Replies(out) then ClCas(oid, snap) else Returned)
    else if pc.ClCas? then
      var ClCas(oid, snap) := pc;
      if Replies(out) then (Cas(sh, t, oid, ReqClose, snap).0, Returned) else (sh, Returned)
    else (sh, pc)
  }

  // ---------------------------------------------------------------------------
  // Compensation tickets: a worker claims, an operator retries any ticket
  // ---------------------------------------------------------------------------

  function Handler(i: nat, kind: TicketKind): Pc {
    match kind
    case AfterPaid(oid) => RetryRead(oid, Some(i))
    case OfferRelease(rsv) => TkOffer(i, rsv)
    case LedgerRelease(freeze, _) => TkLedger(i, freeze)
    case FulfilRelease(oid) => TkFulfil(i, oid)
    case OfferReverse(redemption) => TkReverse(i, redemption)
  }

  function TicketStep(sh: Shared, t: Tid, pc: Pc, out: Outcome): (Shared, Pc) {
    if pc.TkClaim? then
      var TkClaim(i) := pc;
      if i < |sh.repo.tickets| && (sh.repo.tickets[i].status == Pending || sh.repo.tickets[i].status == Running)
      then (SetTicket(sh, i, Running), Handler(i, sh.repo.tickets[i].kind))
      else (sh, Returned)
    else if pc.TkFind? then
      var TkFind(i) := pc;
      if i < |sh.repo.tickets| then (sh, Handler(i, sh.repo.tickets[i].kind)) else (sh, Returned)
    else if pc.TkOffer? then
      var TkOffer(i, rsv) := pc;
      (if TakesEffect(out) then ReleaseReservation(sh, rsv) else sh, TkEnd(i, Replies(out)))
    else if pc.TkLedger? then
      var TkLedger(i, freeze) := pc;
      (if TakesEffect(out) then ReleaseFreeze(sh, freeze) else sh, TkEnd(i, Replies(out)))
    else if pc.TkFulfil? then
      var TkFulfil(i, oid) := pc;
      (if TakesEffect(out) && oid in sh.repo.orders then Unhold(sh, oid) else sh,
       TkEnd(i, Replies(out) && oid in sh.repo.orders))
    else if pc.TkReverse? then
      var TkReverse(i, redemption) := pc;
      if !TakesEffect(out) then (sh, TkEnd(i, false))
      else
        var (sh', r) := Reverse(sh, redemption, 0);
        (sh', TkEnd(i, r.Ok? && Replies(out)))
    else if pc.TkEnd? then
      var TkEnd(i, ok) := pc;
      // A failed attempt goes back to pending, or to failed once the attempts are used up.
      (SetTicket(sh, i, if ok then Done else if out == Fail then Failed else Pending), Returned)
    else (sh, pc)
  }

  // ---------------------------------------------------------------------------
  // Reconciliation of one listed order
  // ---------------------------------------------------------------------------

  predicate PaidLike(s: Status) {
    s in {Paid, Fulfilling, Completed, Compensating, Refunding, Refunded, PartialRefunded}
  }

  function ReconStep(sh: Shared, t: Tid, pc: Pc, out: Outcome): (Shared, Pc) {
    if pc.RcRead? then
      var RcRead(oid) := pc;
      if Replies(out) && oid in sh.repo.orders && sh.repo.orders[oid].reservation.Some?
      then (sh, RcLookup(oid, sh.repo.orders[oid]))
      else (sh, Returned)
    else if pc.RcLookup? then
      var RcLookup(oid, snap) := pc;
      if !Replies(out) || snap.reservation.None? || snap.reservation.value !in sh.offer.resv then (sh, Returned)
      else
        var rsv := sh.offer.resv[snap.reservation.value];
        if PaidLike(snap.status) && rsv.status == F.Active then (sh, RcOpen(AfterPaid(oid)))
        else if snap.status in {Cancelled, Closed} && rsv.status == F.Active then
          (sh, RcOpen(OfferRelease(snap.reservation.value)))
        else if rsv.status == F.Committed && snap.redemption.None? then (sh, RcCommit(oid, snap.reservation.value))
        else (sh, Returned)
    else if pc.RcOpen? then
      var RcOpen(kind) := pc;
      (sh, if Replies(out) && !HasOpenTicket(sh, kind) then RcInsert(kind) else Returned)
    else if pc.RcInsert? then var RcInsert(kind) := pc; (InsertTicket(sh, kind, out), Returned)
    else if pc.RcCommit? then
      var RcCommit(oid, rsv) := pc;
      if !TakesEffect(out) then (sh, RcOpen(AfterPaid(oid)))
      else
        var (sh', r) := Commit(sh, rsv);
        if r.Ok? && Replies(out) then (sh', RcBackfill(oid, r.value)) else (sh', RcOpen(AfterPaid(oid)))
    else if pc.RcBackfill? then
      var RcBackfill(oid, id) := pc;
      (if TakesEffect(out) then UpdateRedemption(sh, oid, id) else sh, Returned)
    else (sh, pc)
  }

  // ---------------------------------------------------------------------------
  // Runs
  // ---------------------------------------------------------------------------

  datatype State = State(sh: Shared, threads: map<Tid, Pc>)

  datatype Action = Spawn(t: Tid, entry: Pc) | Run(t: Tid, out: Outcome)

  predicate Enabled(s: State, a: Action) {
    match a
    case Spawn(t, entry) => t !in s.threads && Entry(entry)
    case Run(t, _) => t in s.threads
  }

  function Apply(s: State, a: Action): State
    requires Enabled(s, a)
  {
    match a
    case Spawn(t, entry) => s.(threads := s.threads[t := entry])
    case Run(t, out) =>
      var (sh, pc) := Exec(s.sh, t, s.threads[t], out);
      State(sh, s.threads[t := pc])
  }

  function Initial(reliable: bool): State { State(InitialShared(reliable), map[]) }

  /** A schedule: any interleaving of started calls, each step with any outcome. */
  predicate ValidRun(s: State, acts: seq<Action>)
    decreases |acts|, 0
  {
    acts == [] || (ValidRun(s, acts[..|acts| - 1]) && Enabled(Final(s, acts[..|acts| - 1]), acts[|acts| - 1]))
  }

  function Final(s: State, acts: seq<Action>): State
    requires ValidRun(s, acts)
    decreases |acts|, 1
  {
    if acts == [] then s else Apply(Final(s, acts[..|acts| - 1]), acts[|acts| - 1])
  }
}

/** One checkout from start to end, with its rollback: all or nothing. */
module Checkout {
  import opened Base
  import opened Int64
  import opened Amounts
  import opened Orders
  import opened Hashing
  import opened Quoting
  import opened SagaState
  import opened Repository
  import L = Ledger
  import F = Offer

  // ---------------------------------------------------------------------------
  // What others can see of the ledger and the offer hub
  // ---------------------------------------------------------------------------

  /** What a balance query would answer. */
  function Available(l: L.Ledger, k: L.Account): int { if k in l.balance then l.balance[k] else L.DEFAULT_BALANCE }

  /** Same balances, same open and captured freezes, same credits for everyone. */
  ghost predicate SameMoney(a: L.Ledger, b: L.Ledger) {
    forall k ::
      && Available(a, k) == Available(b, k)
      && L.Total(a.freezes, k, L.Open) == L.Total(b.freezes, k, L.Open)
      && L.Total(a.freezes, k, L.Captured) == L.Total(b.freezes, k, L.Captured)
      && L.Get(a.credits, k) == L.Get(b.credits, k)
  }

  /** Freezing and releasing again, or failing to freeze, moves no money. */
  lemma FreezeUndone(l: L.Ledger, k: L.Account, amount: int)
    ensures var (b, r) := L.DoFreeze(l, k, amount); SameMoney(l, if r.Ok? then L.DoRelease(b, Some(r.value)) else b)
  {
    var (b, r) := L.DoFreeze(l, k, amount);
    if r.Ok? {
      forall x, st | st != L.Released ensures L.Total(L.DoRelease(b, Some(r.value)).freezes, x, st)
        == L.Total(l.freezes, x, st) {
        L.TotalAppend(l.freezes, L.Hold(k, amount, L.Open), x, st);
        L.TotalMove(b.freezes, r.value, L.Released, x, st);
      }
    }
  }

  /** A freeze is granted exactly when the balance covers it. */
  lemma FreezeIffAvailable(l: L.Ledger, k: L.Account, amount: int)
    ensures L.DoFreeze(l, k, amount).1.Ok? <==> amount <= Available(l, k)
  {
  }

  /** Only the reservation of this order may differ, and then it is released. */
  ghost predicate OnlyReleased(a: F.Offer, b: F.Offer, oid: OrderId) {
    && b.redeem == a.redeem
    && (forall r :: r != Rsv(oid) ==> (r in b.resv <==> r in a.resv) && (r in b.resv ==> b.resv[r] == a.resv[r]))
    && (Rsv(oid) in b.resv ==> b.resv[Rsv(oid)].status == F.Released)
  }

  // ---------------------------------------------------------------------------
  // The service
  // ---------------------------------------------------------------------------

  datatype Buyer = Buyer(tenant: Name, user: Name)

  /** How the calls of one checkout turn out. */
  datatype Env = Env(
    find: bool,
    findClient: bool,
    lock: bool,
    findAgain: bool,
    cached: Option<Result<Snapshot>>,
    now: int,
    quote: Result<Quote>,
    again: Option<Snapshot>,
    reserve: bool,
    freeze: bool,
    hold: bool,
    insert: bool,
    findWinner: bool)

  datatype CheckoutCmd = CheckoutCmd(clientId: Name, key: Name, cmd: Command, items: seq<Line>)

  /** The idempotency key defaults to the client's order id. */
  function RecordKey(buyer: Buyer, c: CheckoutCmd): IdemKey {
    IdemKey(buyer.tenant, buyer.user, if c.key == "" then c.clientId else c.key)
  }

  /** The request that reaches the reservations. */
  function Placed(buyer: Buyer, c: CheckoutCmd, hash: Document, scene: Scene, bill: Bill): CheckoutReq {
    CheckoutReq(buyer.tenant, buyer.user, c.clientId, RecordKey(buyer, c).key, hash, scene, bill.asset, bill.amounts,
        bill.lines, bill.quote.id != "", |bill.coupons|)
  }

  function RequestDoc(c: CheckoutCmd): Document {
    CheckoutDoc(c.clientId, c.cmd.quote,
                HashInput(c.cmd.scene, ChannelOf(c.cmd), "", c.cmd.coupons, c.items, AmountOf(c.cmd), AssetOf(c.cmd),
                    c.cmd.ext))
  }

  /** The inputs the checkout is priced at: the buyer's own, completed from a cited snapshot. */
  predicate Resolves(scene: Scene, c: CheckoutCmd, env: Env, m: Resolved) {
    if Cites(c.cmd, env.cached)
    then env.cached.value.Ok? && Stands(scene, c.cmd, c.items, env.cached.value.value, env.now)
      && m == Merged(c.cmd, c.items, env.cached.value.value)
    else m == Resolved(c.items, c.cmd.coupons, AmountOf(c.cmd), AssetOf(c.cmd), c.cmd.ext)
  }

  lemma BilledBalanced(scene: Scene, cmd: Command, m: Resolved, q: Quote, again: Option<Snapshot>, now: int, bill: Bill)
    requires Billed(scene, cmd, m, q, again, now, bill)
    ensures Balanced(bill.amounts) && bill.amounts.paid == bill.amounts.refunded == 0
    ensures bill.amounts.discount == q.discount && bill.quote == q
  {
    hide BuildAmounts, Charged, ValidLines, Billable, TrueTotal;
    BuildAmountsExact(scene.currency, q.original, q.discount,
        DefaultLedgerPay(scene, q.original, q.discount, m.ledgerPay));
  }

  lemma BilledIsPriceable(scene: Scene, cmd: Command, m: Resolved, q: Quote, again: Option<Snapshot>, now: int,
                          bill: Bill)
    requires Billed(scene, cmd, m, q, again, now, bill)
    ensures ValidLines(m.items) && Billable(m.items) && QuoteFits(q, scene.currency, m.items)
    ensures 0 <= q.discount <= TrueTotal(m.items) && StillPromised(cmd, q, again, now)
    ensures CheckoutAmounts(scene, q.original, q.discount, m.ledgerPay).Ok?
  {
  }

  predicate WantsOffer(req: CheckoutReq) {
    OfferWanted(req.scene.offer, req.hasQuote, req.coupons) && req.amounts.discount >= 0
  }
  predicate WantsFreeze(req: CheckoutReq) { req.scene.ledger != LedgerNone && req.amounts.ledgerPay > 0 }
  function BuyerAccount(req: CheckoutReq): L.Account { L.Account(req.tenant, req.user, req.asset) }

  /** The buyer's inputs resolve and have a price. */
  predicate Prices(scene: Scene, c: CheckoutCmd, env: Env, m: Resolved, bill: Bill) {
    Resolves(scene, c, env, m) && env.quote.Ok? && Billed(scene, c.cmd, m, env.quote.value, env.again, env.now, bill)
  }

  /** There is one price at most, and it is for some items. */
  lemma PricedOnce(scene: Scene, c: CheckoutCmd, env: Env, m: Resolved, bill: Bill, m': Resolved, bill': Bill)
    requires Prices(scene, c, env, m, bill) && Resolves(scene, c, env, m')
    ensures m == m' && m.items != []
    ensures Billed(scene, c.cmd, m, env.quote.value, env.again, env.now, bill') ==> bill == bill'
  {
    hide Stands, Merged, Billable, TrueTotal, QuoteFits, StillPromised, CheckoutAmounts, Charged;
  }

  class CheckoutService {
    const repo: OrderRepo
    const ledger: L.LedgerMock
    const offer: F.OfferMock
    var held: set<OrderId>

    constructor ()
      ensures fresh(repo) && fresh(ledger) && fresh(offer) && held == {}
      ensures repo.View() == Repo(map[], map[], map[], [], []) && L.Sound(ledger.Books())
    {
      repo := new OrderRepo();
      ledger := new L.LedgerMock();
      offer := new F.OfferMock();
      held := {};
    }

    ghost predicate Valid()
      reads this, repo, ledger, offer
    {
      L.Sound(ledger.Books()) && RecordsFit(repo.orders, repo.idem) && ClientsIndexed(repo.orders, repo.client)
    }

    /** The id was never used. */
    ghost predicate Unused(oid: OrderId)
      reads this, repo, offer
    {
      oid !in repo.orders && Rsv(oid) !in offer.resv && oid !in held
    }

    /** Whatever the request needs can be had: its quote reserved, its ledger part frozen, its inventory held. */
    ghost predicate CanAcquire(req: CheckoutReq, quote: Name, env: Env)
      reads offer, ledger
    {
      && (WantsOffer(req) ==> env.reserve && quote in offer.quotes)
      && (WantsFreeze(req) ==>
            env.freeze && req.amounts.ledgerPay <= Available(ledger.Books(), BuyerAccount(req)))
      && (req.scene.reserveInventory ==> env.hold)
    }

    /** And the order can be stored: both its keys are free. */
    ghost predicate CanPlace(req: CheckoutReq, quote: Name, env: Env)
      reads offer, ledger, repo
    {
      && CanAcquire(req, quote, env) && env.insert
      && IdemKeyOf(req) !in repo.idem && ClientKey(req.tenant, req.user, req.clientId) !in repo.client
    }

    /** Everything could be had and the insert was tried, but another request took the key first; its order is found. */
    ghost predicate LosesRace(req: CheckoutReq, quote: Name, env: Env)
      reads offer, ledger, repo
    {
      && CanAcquire(req, quote, env) && env.insert && env.findWinner
      && IdemKeyOf(req) in repo.idem && ClientKey(req.tenant, req.user, req.clientId) !in repo.client
    }

    ghost predicate Raced(scene: Scene, buyer: Buyer, c: CheckoutCmd, env: Env)
      reads offer, ledger, repo
    {
      exists m, bill ::
        Prices(scene, c, env, m, bill) && LosesRace(Placed(buyer, c, RequestDoc(c), scene, bill), bill.quote.id, env)
    }

    /** A lookup finds the answer to this very request. */
    predicate Remembered(key: IdemKey, ck: ClientKey, hash: Document, env: Env)
      reads repo
    {
      && key in repo.idem && repo.idem[key].hash == hash
      && (env.find || (env.findClient && ck !in repo.client && env.lock && env.findAgain))
    }

    /** The request has a price, and can be placed at it. */
    ghost predicate Orderable(scene: Scene, buyer: Buyer, c: CheckoutCmd, env: Env)
      reads offer, ledger, repo
    {
      exists m, bill ::
        Prices(scene, c, env, m, bill) && CanPlace(Placed(buyer, c, RequestDoc(c), scene, bill), bill.quote.id, env)
    }

    /** The lookups find neither an earlier answer nor a conflict. */
    predicate Unheard(key: IdemKey, ck: ClientKey, env: Env)
      reads repo
    {
      && (key in repo.idem ==> !env.find && !env.findAgain)
      && env.findClient && ck !in repo.client && env.lock
    }

    /** Gives back what was acquired, newest first. */
    method Rollback(oid: OrderId, rsv: Option<RsvId>, fz: Option<FreezeId>, inventory: bool)
      requires L.Sound(ledger.Books())
      modifies this, ledger, offer
      ensures L.Sound(ledger.Books())
      ensures held == old(held) - (if inventory then {oid} else {})
      ensures ledger.Books() == if fz.Some? then L.DoRelease(old(ledger.Books()), fz) else old(ledger.Books())
      ensures offer.Books() == if rsv.Some? then F.DoRelease(old(offer.Books()), rsv.value) else old(offer.Books())
    {
      if inventory {
        held := held - {oid};
      }
      if fz.Some? {
        ledger.Release(fz);
      }
      if rsv.Some? {
        offer.Release(rsv.value);
      }
    }

    /** Reservation, freeze, inventory, in this order; a failure gives everything back. */
    method Acquire(oid: OrderId, req: CheckoutReq, quote: Name, env: Env)
      returns (err: Option<Error>, rsv: Option<RsvId>, fz: Option<FreezeId>, inventory: bool)
      requires L.Sound(ledger.Books()) && Rsv(oid) !in offer.resv && oid !in held && req.amounts.ledgerPay >= 0
      requires quote in offer.quotes ==> offer.quotes[quote] == req.amounts.discount
      modifies this, ledger, offer
      ensures L.Sound(ledger.Books())
      ensures err.None? <==> old(CanAcquire(req, quote, env))
      ensures err.Some? ==>
              SameMoney(old(ledger.Books()), ledger.Books()) && OnlyReleased(old(offer.Books()), offer.Books(), oid)
                && held == old(held)
      ensures err.None? ==>
                && rsv == (if WantsOffer(req) then Some(Rsv(oid)) else None)
                && offer.Books()
                     == (if WantsOffer(req) then F.DoReserve(old(offer.Books()), oid, req.amounts.discount)
                         else old(offer.Books()))
                && fz == (if WantsFreeze(req) then Some(|old(ledger.freezes)|) else None)
                && (WantsFreeze(req) ==>
                     L.DoFreeze(old(ledger.Books()), BuyerAccount(req), req.amounts.ledgerPay)
                     == (ledger.Books(), Ok(|old(ledger.freezes)|)))
                && (!WantsFreeze(req) ==> ledger.Books() == old(ledger.Books()))
                && inventory == req.scene.reserveInventory
                && held == old(held) + (if inventory then {oid} else {})
    {
      hide L.Sound, L.DoFreeze, L.DoRelease, SameMoney, OnlyReleased, F.DoRelease, F.DoReserve;
      ghost var books := offer.Books();
      SoundIsBooked(ledger.Books());
      SameMoneyItself(ledger.Books());
      UntouchedOffer(books, oid);
      ReleasedOffer(books, oid, req.amounts.discount);
      rsv, fz, inventory := None, None, false;
      if NeedsOffer(req.scene, req.hasQuote, req.coupons) && req.amounts.discount >= 0 {
        if !env.reserve {
          return Some(OfferReserve), None, None, false;
        }
        var id := offer.Reserve(quote, oid);
        if id.Err? {
          return Some(OfferReserve), None, None, false;
        }
        rsv := Some(id.value);
      }
      if NeedsLedger(req.scene, req.amounts.ledgerPay) && req.amounts.ledgerPay > 0 {
        FreezeUndone(ledger.Books(), BuyerAccount(req), req.amounts.ledgerPay);
        FreezeIffAvailable(ledger.Books(), BuyerAccount(req), req.amounts.ledgerPay);
        if !env.freeze {
          Rollback(oid, rsv, None, false);
          return Some(LedgerFreeze), None, None, false;
        }
        var f := ledger.Freeze(BuyerAccount(req), req.amounts.ledgerPay);
        if f.Err? {
          Rollback(oid, rsv, None, false);
          return Some(LedgerFreeze), None, None, false;
        }
        fz := Some(f.value);
      }
      if req.scene.reserveInventory {
        if !env.hold {
          Rollback(oid, rsv, fz, false);
          return Some(InventoryReserve), None, None, false;
        }
        held := held + {oid};
        inventory := true;
      }
      err := None;
    }

    /** The state after a checkout that stored its order with exactly what the order references. */
    twostate predicate Stored(oid: OrderId, req: CheckoutReq)
      reads this, repo, ledger, offer
    {
      var rsv := if WantsOffer(req) then Some(Rsv(oid)) else None;
      var fz := if WantsFreeze(req) then Some(|old(ledger.freezes)|) else None;
      && (repo.View(), Ok(())) == Inserted(old(repo.View()), oid, req, rsv, fz)
      && offer.Books()
           == (if WantsOffer(req) then F.DoReserve(old(offer.Books()), oid, req.amounts.discount)
               else old(offer.Books()))
      && (WantsFreeze(req) ==>
           L.DoFreeze(old(ledger.Books()), BuyerAccount(req), req.amounts.ledgerPay)
           == (ledger.Books(), Ok(|old(ledger.freezes)|)))
      && (!WantsFreeze(req) ==> ledger.Books() == old(ledger.Books()))
      && held == old(held) + (if req.scene.reserveInventory then {oid} else {})
    }

    /** Nothing is left of a checkout that stored no order. */
    twostate predicate Undone(oid: OrderId)
      reads this, repo, ledger, offer
    {
      && repo.View() == old(repo.View()) && held == old(held)
      && SameMoney(old(ledger.Books()), ledger.Books())
      && OnlyReleased(old(offer.Books()), offer.Books(), oid)
    }

    /** Acquires, inserts, and rolls back when the insert is refused; a lost race answers with the winner's order. */
    method Place(oid: OrderId, req: CheckoutReq, quote: Name, env: Env) returns (r: Result<OrderId>, ghost stored: bool)
      requires Valid() && Unused(oid) && req.amounts.ledgerPay >= 0 && req.hash.clientOrder == Some(req.clientId)
      requires quote in offer.quotes ==> offer.quotes[quote] == req.amounts.discount
      modifies this, repo, ledger, offer
      ensures Valid()
      ensures stored <==> old(CanPlace(req, quote, env))
      ensures stored ==> r == Ok(oid) && Stored(oid, req)
      ensures !stored ==> Undone(oid)
      ensures r.Ok? && !stored <==> old(LosesRace(req, quote, env))
      ensures r.Ok? && !stored ==>
                IdemKeyOf(req) in repo.idem && r.value == repo.idem[IdemKeyOf(req)].order
                  && repo.idem[IdemKeyOf(req)].hash != req.hash
    {
      hide L.Sound, L.DoFreeze, L.DoRelease, SameMoney, Inserted, RecordsFit, ClientsIndexed, OnlyReleased;
      UntouchedOffer(offer.Books(), oid);
      ReleasedOffer(offer.Books(), oid, req.amounts.discount);
      stored := false;
      ghost var before := ledger.Books();
      var err, rsv, fz, inventory := Acquire(oid, req, quote, env);
      if err.Some? {
        return Err(err.value), false;
      }
      FreezeUndone(before, BuyerAccount(req), req.amounts.ledgerPay);
      SameMoneyItself(before);
      InsertedOrNot(repo.View(), oid, req, rsv, fz);
      InsertedKeeps(repo.View(), oid, req, rsv, fz);
      if !env.insert {
        Rollback(oid, rsv, fz, inventory);
        return Err(Unavailable), false;
      }
      var inserted := repo.InsertCheckout(oid, req, rsv, fz);
      if inserted.Err? {
        Rollback(oid, rsv, fz, inventory);
        if inserted.error == IdempotencyConflict && env.findWinner {
          var rec := repo.FindIdempotency(IdemKeyOf(req));
          if rec.Some? {
            return Ok(rec.value.order), false;
          }
        }
        return Err(inserted.error), false;
      }
      return Ok(oid), true;
    }

    /** The lookups before anything is done: an earlier answer, a conflict, or nothing. */
    method Recall(key: IdemKey, ck: ClientKey, hash: Document, env: Env) returns (answer: Option<Result<OrderId>>)
      ensures answer.Some? && answer.value.Ok? ==>
                key in repo.idem && repo.idem[key].hash == hash && answer.value.value == repo.idem[key].order
                  && (env.find || env.findAgain)
      ensures key in repo.idem && env.find ==>
                answer == Some(if repo.idem[key].hash == hash then Ok(repo.idem[key].order)
                    else Err(IdempotencyConflict))
      ensures answer.None? <==> Unheard(key, ck, env)
      ensures answer.Some? && answer.value.Ok? <==> Remembered(key, ck, hash, env)
    {
      if env.find {
        var rec := repo.FindIdempotency(key);
        if rec.Some? {
          return Some(if rec.value.hash == hash then Ok(rec.value.order) else Err(IdempotencyConflict));
        }
      }
      if !env.findClient {
        return Some(Err(Unavailable));
      }
      if ck in repo.client {
        return Some(Err(ClientOrderConflict));
      }
      if !env.lock {
        return Some(Err(IdempotencyConflict));
      }
      if env.findAgain {
        var rec := repo.FindIdempotency(key);
        if rec.Some? {
          return Some(if rec.value.hash == hash then Ok(rec.value.order) else Err(IdempotencyConflict));
        }
      }
      return None;
    }

    /** What a checkout that stored its order did: the inputs it was priced at, the bill, and the order. */
    twostate predicate Done(scene: Scene, buyer: Buyer, c: CheckoutCmd, oid: OrderId, env: Env, m: Resolved, bill: Bill)
      reads this, repo, ledger, offer
    {
      && env.quote.Ok?
      && Resolves(scene, c, env, m)
      && Billed(scene, c.cmd, m, env.quote.value, env.again, env.now, bill)
      && Stored(oid, Placed(buyer, c, RequestDoc(c), scene, bill))
      && oid in repo.orders
      && repo.orders[oid] == Order(
           buyer.tenant, buyer.user, c.clientId, scene, bill.asset, PendingPay, 1, bill.amounts, bill.lines,
           if OfferWanted(scene.offer, bill.quote.id != "", |bill.coupons|) then Some(Rsv(oid)) else None, None,
           if scene.ledger != LedgerNone && bill.amounts.ledgerPay > 0 then Some(|old(ledger.freezes)|) else None)
      && var key := IdemKey(buyer.tenant, buyer.user, if c.key == "" then c.clientId else c.key);
      key in repo.idem && repo.idem[key] == IdemRecord(RequestDoc(c), oid)
    }

    /** The pricing of a new request. */
    static method Price(scene: Scene, c: CheckoutCmd, env: Env) returns (r: Result<(Resolved, Bill)>)
      ensures r.Ok? ==> Prices(scene, c, env, r.value.0, r.value.1)
      ensures forall m, bill :: Prices(scene, c, env, m, bill) ==> r == Ok((m, bill))
    {
      hide Billed, Stands, Merged, Billable, TrueTotal, QuoteFits, StillPromised, CheckoutAmounts, ValidLines;
      var m := ResolveSnapshot(scene, c.cmd, c.items, env.cached, env.now);
      forall x, bill | Prices(scene, c, env, x, bill) ensures m.Ok? && x == m.value {
        PricedOnce(scene, c, env, x, bill, x, bill);
      }
      if m.Err? {
        return Err(m.error);
      }
      var bill := PriceCheckout(scene, c.cmd, m.value, env.quote, env.again, env.now);
      forall x | Prices(scene, c, env, m.value, x) ensures bill.Ok? && x == bill.value {
        BilledIsPriceable(scene, c.cmd, m.value, env.quote.value, env.again, env.now, x);
        PricedOnce(scene, c, env, m.value, x, m.value, bill.value);
      }
      return if bill.Ok? then Ok((m.value, bill.value)) else Err(bill.error);
    }

    /** Prices a new request and places it. */
    method PriceAndPlace(scene: Scene, buyer: Buyer, c: CheckoutCmd, hash: Document, oid: OrderId, env: Env)
      returns (r: Result<OrderId>, ghost done: Option<(Resolved, Bill)>)
      requires Valid() && Unused(oid) && hash == RequestDoc(c)
      requires env.quote.Ok? && env.quote.value.id in offer.quotes ==>
               offer.quotes[env.quote.value.id] == env.quote.value.discount
      modifies this, repo, ledger, offer
      ensures Valid()
      ensures done.Some? <==> old(Orderable(scene, buyer, c, env))
      ensures r.Ok? <==> old(Orderable(scene, buyer, c, env)) || old(Raced(scene, buyer, c, env))
      ensures done.None? ==> Undone(oid)
      ensures done.Some? ==> r == Ok(oid) && Done(scene, buyer, c, oid, env, done.value.0, done.value.1)
      ensures r.Ok? ==>
                var key := RecordKey(buyer, c);
                && key in repo.idem && repo.idem[key].order == r.value
                && (repo.idem[key].hash == hash <==> done.Some?)
    {
      hide L.Sound, SameMoney, Billed, Stands, Inserted, RecordsFit, ClientsIndexed, Sort, Keys, OnlyReleased;
      hide CanPlace, LosesRace, Cites, Merged, L.DoFreeze, F.DoReserve, OfferWanted, Resolves;
      SameMoneyItself(ledger.Books());
      UntouchedOffer(offer.Books(), oid);
      done := None;
      var priced := Price(scene, c, env);
      if priced.Err? {
        return Err(priced.error), None;
      }
      var (m, bill) := priced.value;
      BilledBalanced(scene, c.cmd, m, env.quote.value, env.again, env.now, bill);
      var req := Placed(buyer, c, hash, scene, bill);
      ghost var stored;
      InsertedStores(repo.View(), oid, req);
      r, stored := Place(oid, req, bill.quote.id, env);
      if stored {
        done := Some((m, bill));
      }
    }

    /** One checkout. `done` carries the resolved inputs and the bill when the order was stored by this call. */
    method Checkout(scenes: map<Name, Scene>, buyer: Buyer, c: CheckoutCmd, oid: OrderId, env: Env)
      returns (r: Result<OrderId>, ghost done: Option<(Resolved, Bill)>)
      requires Valid() && Unused(oid)
      requires env.quote.Ok? && env.quote.value.id in offer.quotes ==>
               offer.quotes[env.quote.value.id] == env.quote.value.discount
      modifies this, repo, ledger, offer
      ensures Valid()
      ensures done.Some? <==>
                && c.clientId != "" && c.cmd.scene in scenes
                && old(Unheard(RecordKey(buyer, c), ClientKey(buyer.tenant, buyer.user, c.clientId), env))
                && old(Orderable(scenes[c.cmd.scene], buyer, c, env))
      ensures r.Ok? <==>
                && c.clientId != "" && c.cmd.scene in scenes
                && var key, ck := RecordKey(buyer, c), ClientKey(buyer.tenant, buyer.user, c.clientId);
                || old(Remembered(key, ck, RequestDoc(c), env))
                || (old(Unheard(key, ck, env)) && (done.Some? || old(Raced(scenes[c.cmd.scene], buyer, c, env))))
      ensures r.Err? ==> done.None?
      ensures done.None? ==> Undone(oid)
      ensures done.Some? ==>
              r == Ok(oid) && c.cmd.scene in scenes
                && Done(scenes[c.cmd.scene], buyer, c, oid, env, done.value.0, done.value.1)
      ensures r.Ok? ==>
                var key := RecordKey(buyer, c);
                && key in repo.idem && repo.idem[key].order == r.value && r.value in repo.orders
                && (repo.idem[key].hash == RequestDoc(c) <==> done.Some? || env.find || env.findAgain)
    {
      hide L.Sound, SameMoney, Inserted, RecordsFit, ClientsIndexed, CheckoutDoc, OnlyReleased, Orderable, Raced;
      hide NewOrder, WantsOffer, WantsFreeze, Billed, Resolves, L.DoFreeze;
      SameMoneyItself(ledger.Books());
      UntouchedOffer(offer.Books(), oid);
      done := None;
      if c.clientId == "" {
        return Err(InvalidArgument), None;
      }
      if c.cmd.scene !in scenes {
        return Err(SceneNotFound), None;
      }
      var key := RecordKey(buyer, c);
      var hash := CheckoutHash(c.clientId, c.cmd.quote,
                               HashInput(c.cmd.scene, ChannelOf(c.cmd), "", c.cmd.coupons, c.items, AmountOf(c.cmd),
                                   AssetOf(c.cmd), c.cmd.ext));
      RecordsStored(repo.orders, repo.idem);
      var answer := Recall(key, ClientKey(buyer.tenant, buyer.user, c.clientId), hash, env);
      if answer.Some? {
        return answer.value, None;
      }
      r, done := PriceAndPlace(scenes[c.cmd.scene], buyer, c, hash, oid, env);
      RecordsStored(repo.orders, repo.idem);
    }
  }

  lemma SoundIsBooked(l: L.Ledger)
    requires L.Sound(l)
    ensures L.Booked(l)
  {
    hide L.Booked;
  }

  lemma ReleasedOffer(o: F.Offer, oid: OrderId, discount: I64)
    requires Rsv(oid) !in o.resv
    ensures OnlyReleased(o, F.DoRelease(F.DoReserve(o, oid, discount), Rsv(oid)), oid)
  {
  }

  lemma RecordsStored(orders: map<OrderId, Order>, idem: map<IdemKey, IdemRecord>)
    requires RecordsFit(orders, idem)
    ensures forall k :: k in idem ==> idem[k].order in orders
  {
    forall k | k in idem ensures idem[k].order in orders { assert RecordFits(orders, k, idem[k]); }
  }

  lemma UntouchedOffer(o: F.Offer, oid: OrderId)
    requires Rsv(oid) !in o.resv
    ensures OnlyReleased(o, o, oid)
  {
  }

  lemma SameMoneyItself(l: L.Ledger)
    ensures SameMoney(l, l)
  {
  }

  lemma InsertedOrNot(repo: Repo, oid: OrderId, req: CheckoutReq, rsv: Option<RsvId>, fz: Option<FreezeId>)
    ensures var (b, r) := Inserted(repo, oid, req, rsv, fz);
            && (r.Ok? ==> r == Ok(()))
            && (r.Ok? <==>
                  && IdemKeyOf(req) !in repo.idem
                  && ClientKey(req.tenant, req.user, req.clientId) !in repo.client)
            && (r.Err? ==>
                  && b == repo
                  && (r.error == IdempotencyConflict <==>
                        ClientKey(req.tenant, req.user, req.clientId) !in repo.client))
  {
  }

  /** An insert keeps the indexes; a key conflict is with another request. */
  lemma InsertedKeeps(repo: Repo, oid: OrderId, req: CheckoutReq, rsv: Option<RsvId>, fz: Option<FreezeId>)
    requires RecordsFit(repo.orders, repo.idem) && ClientsIndexed(repo.orders, repo.client)
    requires oid !in repo.orders && req.hash.clientOrder == Some(req.clientId)
    ensures var (b, r) := Inserted(repo, oid, req, rsv, fz);
            && RecordsFit(b.orders, b.idem) && ClientsIndexed(b.orders, b.client)
            && (r == Err(IdempotencyConflict) ==> repo.idem[IdemKeyOf(req)].hash != req.hash)
  {
    hide RecordsFit, ClientsIndexed;
    var sh, o := InitialShared(true).(repo := repo), NewOrder(req, rsv, fz);
    if ClientKeyOf(o) !in repo.client && IdemKeyOf(req) !in repo.idem {
      InsertClients(repo.orders, repo.client, oid, o);
      InsertRecords(repo.orders, repo.idem, oid, req, o);
    } else if ClientKeyOf(o) !in repo.client {
      ConflictIsForeign(sh, oid, req, rsv, fz);
    }
  }

  /** What storing the order leaves in the repository. */
  lemma InsertedStores(repo: Repo, oid: OrderId, req: CheckoutReq)
    ensures forall rsv, fz :: Inserted(repo, oid, req, rsv, fz).1.Ok? ==>
              var b := Inserted(repo, oid, req, rsv, fz).0;
              && b.orders == repo.orders[oid := NewOrder(req, rsv, fz)]
              && b.idem == repo.idem[IdemKeyOf(req) := IdemRecord(req.hash, oid)]
  {
  }
}

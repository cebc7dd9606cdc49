/** The in-memory order repository as an object: the transactions the saga treats as atomic steps. */
module Repository {
  import opened Base
  import opened Int64
  import opened Orders
  import opened SagaState

  /** The saga's insert step, seen on the repository alone. */
  function Inserted(repo: Repo, oid: OrderId, req: CheckoutReq, rsv: Option<RsvId>, fz: Option<FreezeId>)
    : (Repo, Result<()>)
  {
    var r := SagaState.InsertCheckout(InitialShared(true).(repo := repo), oid, req, rsv, fz);
    (r.0.repo, r.1)
  }

  lemma InsertedIsTheStep(sh: Shared, oid: OrderId, req: CheckoutReq, rsv: Option<RsvId>, fz: Option<FreezeId>)
    ensures var r := SagaState.InsertCheckout(sh, oid, req, rsv, fz);
            Inserted(sh.repo, oid, req, rsv, fz) == (r.0.repo, r.1)
  {
  }

  class OrderRepo {
    var orders: map<OrderId, Order>
    var idem: map<IdemKey, IdemRecord>
    var client: map<ClientKey, OrderId>
    var tickets: seq<Ticket>
    var events: seq<Event>

    function View(): Repo
      reads this
    {
      Repo(orders, idem, client, tickets, events)
    }

    constructor ()
      ensures View() == Repo(map[], map[], map[], [], [])
    {
      orders, idem, client, tickets, events := map[], map[], map[], [], [];
    }

    method FindIdempotency(key: IdemKey) returns (rec: Option<IdemRecord>)
      ensures rec == if key in idem then Some(idem[key]) else None
    {
      if key in idem {
        return Some(idem[key]);
      }
      return None;
    }

    /** Order, index, record and event together, or nothing. */
    method InsertCheckout(oid: OrderId, req: CheckoutReq, rsv: Option<RsvId>, fz: Option<FreezeId>)
      returns (r: Result<()>)
      modifies this
      ensures (View(), r) == Inserted(old(View()), oid, req, rsv, fz)
    {
      var o := NewOrder(req, rsv, fz);
      var ck := ClientKeyOf(o);
      if ck in client {
        return Err(ClientOrderConflict);
      }
      var ik := IdemKeyOf(req);
      if ik in idem {
        return Err(IdempotencyConflict);
      }
      idem := idem[ik := IdemRecord(req.hash, oid)];
      orders := orders[oid := o];
      client := client[ck := oid];
      events := events + [Event(oid, EvCreated)];
      return Ok(());
    }

    /** The compare-and-swap, field by field as the source writes them. */
    method Transition(oid: OrderId, cmd: Cmd) returns (r: Result<Order>)
      modifies this
      ensures oid !in old(orders) ==> r == Err(OrderNotFound)
      ensures oid in old(orders) ==> r == Orders.Transition(old(orders)[oid], cmd)
      ensures r.Ok? ==>
              View() == old(View()).(orders := old(orders)[oid := r.value], log := old(events) + Rows(oid, cmd.event))
      ensures r.Err? ==> View() == old(View())
    {
      if oid !in orders {
        return Err(OrderNotFound);
      }
      var o := orders[oid];
      if o.version != cmd.version {
        return Err(VersionConflict);
      }
      if |cmd.from| > 0 {
        var okFrom := false;
        for i := 0 to |cmd.from|
          invariant !okFrom && o.status !in cmd.from[..i]
        {
          if o.status == cmd.from[i] {
            okFrom := true;
            break;
          }
        }
        assert cmd.from[..|cmd.from|] == cmd.from;
        if !okFrom {
          return Err(VersionConflict);
        }
      }
      if !CanTransition(o.status, cmd.to) {
        return Err(if o.status == Paid && cmd.to == Cancelled then AlreadyPaid else StatusNotAllowed);
      }
      o := o.(status := cmd.to, version := o.version + 1);
      if cmd.paid.Some? {
        o := o.(amounts := o.amounts.(paid := cmd.paid.value));
      }
      if cmd.refundedAdd > 0 {
        o := o.(amounts := o.amounts.(refunded := Wrap(o.amounts.refunded + cmd.refundedAdd)));
      }
      if cmd.redemption.Some? {
        o := o.(redemption := cmd.redemption);
      }
      orders := orders[oid := o];
      if cmd.event.Some? {
        events := events + [Event(oid, cmd.event.value)];
      }
      assert o == Updated(old(orders)[oid], cmd);
      return Ok(o);
    }
  }
}

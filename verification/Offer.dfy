/** The offer hub stand-in of internal/infra/offerclient: reservations, redemptions and their reversal. */
module Offer {
  import opened Base
  import opened Int64
  import opened Orders

  datatype ReservationStatus = Active | Committed | Released

  /** A reservation carries the discount of its quote; quotes never change once issued. */
  datatype Reservation = Reservation(discount: I64, status: ReservationStatus, redemption: Option<RedId>)
  datatype Redemption = Redemption(discount: I64, reversed: I64)
  datatype Offer = Offer(resv: map<RsvId, Reservation>, redeem: map<RedId, Redemption>)

  const EMPTY: Offer := Offer(map[], map[])

  function DoReserve(o: Offer, order: OrderId, discount: I64): Offer {
    o.(resv := o.resv[Rsv(order) := Reservation(discount, Active, None)])
  }

  /** Committing a released or unknown reservation is refused; committing twice returns the same redemption. */
  function DoCommit(o: Offer, r: RsvId): (Offer, Result<RedId>) {
    if r !in o.resv || o.resv[r].status == Released then (o, Err(OfferReserve))
    else if o.resv[r].redemption.Some? then (o, Ok(o.resv[r].redemption.value))
    else
      (Offer(o.resv[r := o.resv[r].(status := Committed, redemption := Some(Rd(r)))],
             o.redeem[Rd(r) := Redemption(o.resv[r].discount, 0)]),
       Ok(Rd(r)))
  }

  function DoRelease(o: Offer, r: RsvId): Offer {
    if r in o.resv then o.(resv := o.resv[r := o.resv[r].(status := Released)]) else o
  }

  /** Reversing a non-positive amount means reversing all that remains. */
  function Reversal(rd: Redemption, amount: I64): Result<Redemption> {
    var remain := Wrap(rd.discount - rd.reversed);
    var n := if amount <= 0 then remain else amount;
    if n == 0 then Ok(rd)
    else if n < 0 || n > remain then Err(InvalidArgument)
    else Ok(rd.(reversed := Wrap(rd.reversed + n)))
  }

  function DoReverse(o: Offer, id: RedId, amount: I64): (Offer, Result<()>) {
    if id !in o.redeem then (o, Err(OrderNotFound))
    else
      match Reversal(o.redeem[id], amount)
      case Err(e) => (o, Err(e))
      case Ok(rd) => (o.(redeem := o.redeem[id := rd]), Ok(()))
  }

  predicate ReversedWithin(rd: Redemption) { 0 <= rd.reversed <= rd.discount }

  /** Any reversal of any amount keeps the reversed total within the redeemed discount. */
  lemma ReversalWithin(rd: Redemption, amount: I64)
    requires ReversedWithin(rd)
    ensures var r := Reversal(rd, amount);
            && (r.Ok? ==> ReversedWithin(r.value) && rd.reversed <= r.value.reversed && r.value.discount == rd.discount)
            && (r.Err? <==> amount > rd.discount - rd.reversed && amount > 0)
            && (amount <= 0 ==> r == Ok(rd.(reversed := rd.discount)))
            && (0 < amount <= rd.discount - rd.reversed ==> r == Ok(rd.(reversed := rd.reversed + amount)))
  {
  }

  /** A reservation and the redemption made from it agree, and nothing is over-reversed. */
  ghost predicate Sound(o: Offer) {
    && (forall id :: id in o.redeem ==> ReversedWithin(o.redeem[id]) && id.rsv in o.resv
                                        && o.resv[id.rsv].redemption == Some(id)
                                        && o.redeem[id].discount == o.resv[id.rsv].discount)
    && (forall r :: r in o.resv ==> 0 <= o.resv[r].discount)
    && (forall r ::
         r in o.resv && o.resv[r].redemption.Some? ==> o.resv[r].redemption.value == Rd(r) && Rd(r) in o.redeem)
    && (forall r :: r in o.resv && o.resv[r].status == Committed ==> o.resv[r].redemption.Some?)
    && (forall r :: r in o.resv && o.resv[r].status == Active ==> o.resv[r].redemption.None?)
  }

  lemma ReserveSound(o: Offer, order: OrderId, discount: I64)
    requires Sound(o) && Rsv(order) !in o.resv && 0 <= discount
    ensures Sound(DoReserve(o, order, discount))
  {
  }

  /** Redemptions stay, for the same discount, and what is reversed stays reversed. */
  ghost predicate RedemptionsGrow(a: map<RedId, Redemption>, b: map<RedId, Redemption>) {
    forall id :: id in a ==> id in b && b[id].discount == a[id].discount && a[id].reversed <= b[id].reversed
  }

  lemma CommitSound(o: Offer, r: RsvId)
    requires Sound(o)
    ensures Sound(DoCommit(o, r).0) && RedemptionsGrow(o.redeem, DoCommit(o, r).0.redeem)
    ensures DoCommit(o, r).1.Ok? ==> DoCommit(o, r).1.value == Rd(r) && Rd(r) in DoCommit(o, r).0.redeem
  {
  }

  lemma ReleaseSound(o: Offer, r: RsvId)
    requires Sound(o)
    ensures Sound(DoRelease(o, r))
  {
  }

  lemma ReverseSound(o: Offer, id: RedId, amount: I64)
    requires Sound(o)
    ensures Sound(DoReverse(o, id, amount).0) && RedemptionsGrow(o.redeem, DoReverse(o, id, amount).0.redeem)
    ensures var (b, r) := DoReverse(o, id, amount);
            r.Ok? && amount <= 0 ==> id in b.redeem && b.redeem[id].reversed == b.redeem[id].discount
  {
    if id in o.redeem {
      ReversalWithin(o.redeem[id], amount);
    }
  }

  class OfferMock {
    /** The discount of every quote issued. */
    var quotes: map<Name, I64>
    var resv: map<RsvId, Reservation>
    var redeem: map<RedId, Redemption>

    function Books(): Offer
      reads this
    {
      Offer(resv, redeem)
    }

    constructor ()
      ensures Books() == EMPTY && quotes == map[]
    {
      quotes, resv, redeem := map[], map[], map[];
    }

    /** Only a quote the hub issued can be reserved. */
    method Reserve(quote: Name, order: OrderId) returns (r: Result<RsvId>)
      modifies this
      ensures r == if quote in quotes then Ok(Rsv(order)) else Err(OfferReserve)
      ensures Books() == if quote in quotes then DoReserve(old(Books()), order, quotes[quote]) else old(Books())
      ensures quotes == old(quotes)
    {
      if quote !in quotes {
        return Err(OfferReserve);
      }
      var id := Rsv(order);
      resv := resv[id := Reservation(quotes[quote], Active, None)];
      return Ok(id);
    }

    method Commit(r: RsvId) returns (id: Result<RedId>)
      modifies this
      ensures (Books(), id) == DoCommit(old(Books()), r) && quotes == old(quotes)
    {
      if r !in resv {
        return Err(OfferReserve);
      }
      var rsv := resv[r];
      if rsv.status == Released {
        return Err(OfferReserve);
      }
      if rsv.redemption.Some? {
        return Ok(rsv.redemption.value);
      }
      var rid := Rd(r);
      resv := resv[r := rsv.(status := Committed, redemption := Some(rid))];
      redeem := redeem[rid := Redemption(rsv.discount, 0)];
      return Ok(rid);
    }

    method Release(r: RsvId)
      modifies this
      ensures Books() == DoRelease(old(Books()), r) && quotes == old(quotes)
    {
      if r in resv {
        resv := resv[r := resv[r].(status := Released)];
      }
    }

    method Reverse(id: RedId, amount: I64) returns (r: Result<()>)
      modifies this
      ensures (Books(), r) == DoReverse(old(Books()), id, amount) && quotes == old(quotes)
    {
      if id !in redeem {
        return Err(OrderNotFound);
      }
      var rd := redeem[id];
      var remain := Wrap(rd.discount - rd.reversed);
      var n := amount;
      if n <= 0 {
        n := remain;
      }
      if n == 0 {
        assert redeem[id := rd] == redeem;
        return Ok(());
      }
      if n < 0 || n > remain {
        return Err(InvalidArgument);
      }
      redeem := redeem[id := rd.(reversed := Wrap(rd.reversed + n))];
      return Ok(());
    }
  }
}

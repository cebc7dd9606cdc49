/** The ledger stand-in of internal/infra/ledgerclient: balances, freezes, captures, releases and credits. */
module Ledger {
  import opened Base
  import opened Orders

  datatype Account = Account(tenant: Name, user: Name, asset: Name)

  /** The source keeps one `open` flag; the model also remembers which call cleared it. */
  datatype HoldState = Open | Captured | Released
  datatype Hold = Hold(account: Account, amount: int, state: HoldState)

  /**
   * Freeze ids are handed out consecutively, so the freeze with id f is `freezes[f]`.
   * `opening` and `credits` are the books: the balance an account started with, and what was
   * credited to it. No operation reads them.
   */
  datatype Ledger = Ledger(
    balance: map<Account, int>,
    freezes: seq<Hold>,
    opening: map<Account, int>,
    credits: map<Account, int>)

  const DEFAULT_BALANCE: int := 100000

  function Get(m: map<Account, int>, k: Account): int { if k in m then m[k] else 0 }

  const EMPTY: Ledger := Ledger(map[], [], map[], map[])

  // ---------------------------------------------------------------------------
  // Operations
  // ---------------------------------------------------------------------------

  /** First contact by a balance query or a freeze opens the account with the default balance. */
  function Touch(l: Ledger, k: Account): Ledger {
    if k in l.balance then l
    else l.(balance := l.balance[k := DEFAULT_BALANCE], opening := l.opening[k := DEFAULT_BALANCE])
  }

  function DoFreeze(l: Ledger, k: Account, amount: int): (r: (Ledger, Result<FreezeId>))
    ensures r.1.Ok? ==> r.1.value == |l.freezes| && r.0.freezes == l.freezes + [Hold(k, amount, Open)]
    ensures r.1.Err? ==> r.0.freezes == l.freezes
  {
    var t := Touch(l, k);
    if amount > t.balance[k] then (t, Err(LedgerFreeze))
    else
      (t.(balance := t.balance[k := t.balance[k] - amount], freezes := t.freezes + [Hold(k, amount, Open)]),
       Ok(|l.freezes|))
  }

  /** A capture closes the freeze whatever its state; only an unknown id is refused. */
  function DoCapture(l: Ledger, f: Option<FreezeId>): (Ledger, Result<()>) {
    if f.None? || f.value >= |l.freezes| then (l, Err(LedgerFreeze))
    else
      var fz := l.freezes[f.value];
      (l.(freezes := l.freezes[f.value := fz.(state := if fz.state.Open? then Captured else fz.state)]), Ok(()))
  }

  /** A release pays back an open freeze once and ignores everything else. */
  function DoRelease(l: Ledger, f: Option<FreezeId>): Ledger {
    if f.None? || f.value >= |l.freezes| then l
    else
      var fz := l.freezes[f.value];
      if !fz.state.Open? then l
      else
        l.(balance := l.balance[fz.account := Get(l.balance, fz.account) + fz.amount],
           freezes := l.freezes[f.value := fz.(state := Released)])
  }

  /** A credit to an account nobody touched starts it from zero, not from the default. */
  function DoCredit(l: Ledger, k: Account, amount: int): Ledger {
    l.(balance := l.balance[k := Get(l.balance, k) + amount],
       credits := l.credits[k := Get(l.credits, k) + amount],
       opening := if k in l.opening then l.opening else l.opening[k := 0])
  }

  // ---------------------------------------------------------------------------
  // Conservation
  // ---------------------------------------------------------------------------

  /** Total of the account's freezes in one state. */
  function Total(freezes: seq<Hold>, k: Account, st: HoldState): int {
    if freezes == [] then 0
    else
      var fz := freezes[|freezes| - 1];
      Total(freezes[..|freezes| - 1], k, st) + (if fz.account == k && fz.state == st then fz.amount else 0)
  }

  /** Money in the account, frozen and captured is what the account started with plus its credits. */
  predicate Conserved(l: Ledger, k: Account) {
    Get(l.balance, k) + Total(l.freezes, k, Open) + Total(l.freezes, k, Captured)
      == Get(l.opening, k) + Get(l.credits, k)
  }

  /** The books add up: nothing here depends on the sign of an amount. */
  ghost predicate Booked(l: Ledger) {
    && (forall k :: Conserved(l, k))
    && l.opening.Keys == l.balance.Keys
    && (forall k :: k in l.opening ==> l.opening[k] == 0 || l.opening[k] == DEFAULT_BALANCE)
    && (forall f :: 0 <= f < |l.freezes| ==> l.freezes[f].account in l.balance)
  }

  ghost predicate NonNegative(l: Ledger) {
    && (forall k :: k in l.balance ==> 0 <= l.balance[k])
    && (forall f :: 0 <= f < |l.freezes| ==> 0 <= l.freezes[f].amount)
  }

  ghost predicate Sound(l: Ledger) { Booked(l) && NonNegative(l) }

  lemma {:induction false} TotalAppend(freezes: seq<Hold>, fz: Hold, k: Account, st: HoldState)
    ensures Total(freezes + [fz], k, st)
            == Total(freezes, k, st) + (if fz.account == k && fz.state == st then fz.amount else 0)
  {
    assert (freezes + [fz])[..|freezes|] == freezes;
  }

  /** Moving one freeze to another state moves its amount between the totals. */
  lemma {:induction false} TotalMove(freezes: seq<Hold>, f: nat, next: HoldState, k: Account, st: HoldState)
    requires f < |freezes|
    ensures var fz := freezes[f];
            Total(freezes[f := fz.(state := next)], k, st)
            == Total(freezes, k, st)
               - (if fz.account == k && fz.state == st then fz.amount else 0)
               + (if fz.account == k && next == st then fz.amount else 0)
  {
    var n, fz := |freezes| - 1, freezes[f];
    var after := freezes[f := fz.(state := next)];
    if f < n {
      assert after[..n] == freezes[..n][f := fz.(state := next)];
      TotalMove(freezes[..n], f, next, k, st);
    } else {
      assert after[..n] == freezes[..n];
    }
  }

  lemma TouchBooked(l: Ledger, k: Account)
    requires Booked(l)
    ensures Booked(Touch(l, k))
  {
    hide Total;
    var t := Touch(l, k);
    if k !in l.balance {
      assert t.opening.Keys == t.balance.Keys;
      forall a ensures Conserved(t, a) { assert Conserved(l, a); }
    }
  }

  /** A freeze of any amount, even a negative one, conserves money. */
  lemma FreezeBooked(l: Ledger, k: Account, amount: int)
    requires Booked(l)
    ensures Booked(DoFreeze(l, k, amount).0)
  {
    hide Total;
    TouchBooked(l, k);
    var t, r := Touch(l, k), DoFreeze(l, k, amount).0;
    if amount <= t.balance[k] {
      assert r.opening.Keys == r.balance.Keys;
      forall a ensures Conserved(r, a) {
        assert Conserved(t, a);
        TotalAppend(t.freezes, Hold(k, amount, Open), a, Open);
        TotalAppend(t.freezes, Hold(k, amount, Open), a, Captured);
      }
    }
  }

  lemma CaptureBooked(l: Ledger, f: Option<FreezeId>)
    requires Booked(l)
    ensures Booked(DoCapture(l, f).0)
  {
    hide Total;
    var r := DoCapture(l, f).0;
    if f.Some? && f.value < |l.freezes| {
      var next := if l.freezes[f.value].state.Open? then Captured else l.freezes[f.value].state;
      forall a ensures Conserved(r, a) {
        assert Conserved(l, a);
        TotalMove(l.freezes, f.value, next, a, Open);
        TotalMove(l.freezes, f.value, next, a, Captured);
      }
    }
  }

  lemma ReleaseBooked(l: Ledger, f: Option<FreezeId>)
    requires Booked(l)
    ensures Booked(DoRelease(l, f))
  {
    hide Total;
    var r := DoRelease(l, f);
    if f.Some? && f.value < |l.freezes| && l.freezes[f.value].state.Open? {
      assert r.opening.Keys == r.balance.Keys;
      forall a ensures Conserved(r, a) {
        assert Conserved(l, a);
        TotalMove(l.freezes, f.value, Released, a, Open);
        TotalMove(l.freezes, f.value, Released, a, Captured);
      }
    }
  }

  /** A credit of any amount is booked as such. */
  lemma CreditBooked(l: Ledger, k: Account, amount: int)
    requires Booked(l)
    ensures Booked(DoCredit(l, k, amount))
  {
    hide Total;
    var r := DoCredit(l, k, amount);
    assert r.opening.Keys == r.balance.Keys;
    forall a ensures Conserved(r, a) { assert Conserved(l, a); }
  }

  /**
   * A captured open freeze goes from frozen to captured money; it is never open again and a release then pays
   * nothing.
   */
  lemma CaptureSettles(l: Ledger, f: FreezeId, k: Account)
    requires f < |l.freezes|
    ensures var (b, r) := DoCapture(l, Some(f));
            var moved := if l.freezes[f].state.Open? && l.freezes[f].account == k then l.freezes[f].amount else 0;
            && r == Ok(()) && |b.freezes| == |l.freezes| && !b.freezes[f].state.Open?
            && Total(b.freezes, k, Open) == Total(l.freezes, k, Open) - moved
            && Total(b.freezes, k, Captured) == Total(l.freezes, k, Captured) + moved
            && b.balance == l.balance
            && DoRelease(b, Some(f)) == b && DoCapture(b, Some(f)).0 == b
  {
    hide Total;
    var next := if l.freezes[f].state.Open? then Captured else l.freezes[f].state;
    TotalMove(l.freezes, f, next, k, Open);
    TotalMove(l.freezes, f, next, k, Captured);
  }

  /** A released open freeze goes back into its account, once; a later capture takes nothing. */
  lemma ReleaseSettles(l: Ledger, f: FreezeId, k: Account)
    requires f < |l.freezes|
    ensures var b := DoRelease(l, Some(f));
            var moved := if l.freezes[f].state.Open? && l.freezes[f].account == k then l.freezes[f].amount else 0;
            && |b.freezes| == |l.freezes| && !b.freezes[f].state.Open?
            && Get(b.balance, k) == Get(l.balance, k) + moved
            && Total(b.freezes, k, Open) == Total(l.freezes, k, Open) - moved
            && Total(b.freezes, k, Captured) == Total(l.freezes, k, Captured)
            && DoRelease(b, Some(f)) == b && DoCapture(b, Some(f)).0 == b
  {
    hide Total;
    if l.freezes[f].state.Open? {
      TotalMove(l.freezes, f, Released, k, Open);
      TotalMove(l.freezes, f, Released, k, Captured);
    }
  }

  lemma TouchSound(l: Ledger, k: Account)
    requires Sound(l)
    ensures Sound(Touch(l, k))
  {
    hide Booked;
    TouchBooked(l, k);
  }

  /** While no amount is negative, no balance is. */
  lemma FreezeSound(l: Ledger, k: Account, amount: int)
    requires Sound(l) && 0 <= amount
    ensures Sound(DoFreeze(l, k, amount).0)
  {
    hide Booked;
    FreezeBooked(l, k, amount);
  }

  lemma CaptureSound(l: Ledger, f: Option<FreezeId>)
    requires Sound(l)
    ensures Sound(DoCapture(l, f).0)
  {
    hide Booked;
    CaptureBooked(l, f);
  }

  lemma ReleaseSound(l: Ledger, f: Option<FreezeId>)
    requires Sound(l)
    ensures Sound(DoRelease(l, f))
  {
    hide Booked;
    ReleaseBooked(l, f);
  }

  lemma CreditSound(l: Ledger, k: Account, amount: int)
    requires Sound(l) && 0 <= amount
    ensures Sound(DoCredit(l, k, amount))
  {
    hide Booked;
    CreditBooked(l, k, amount);
  }

  // ---------------------------------------------------------------------------
  // The object
  // ---------------------------------------------------------------------------

  class LedgerMock {
    var balance: map<Account, int>
    var freezes: seq<Hold>
    ghost var opening: map<Account, int>
    ghost var credits: map<Account, int>

    ghost function Books(): Ledger
      reads this
    {
      Ledger(balance, freezes, opening, credits)
    }

    constructor ()
      ensures Books() == EMPTY && Sound(Books())
    {
      balance, freezes, opening, credits := map[], [], map[], map[];
    }

    method GetBalance(k: Account) returns (b: int)
      requires Booked(Books())
      modifies this
      ensures Books() == Touch(old(Books()), k) && Booked(Books())
      ensures b == Books().balance[k]
      ensures old(Sound(Books())) ==> Sound(Books())
    {
      hide Booked, NonNegative;
      TouchBooked(Books(), k);
      if Sound(Books()) { TouchSound(Books(), k); }
      if k !in balance {
        balance := balance[k := DEFAULT_BALANCE];
        opening := opening[k := DEFAULT_BALANCE];
      }
      b := balance[k];
    }

    method Freeze(k: Account, amount: int) returns (r: Result<FreezeId>)
      requires Booked(Books())
      modifies this
      ensures (Books(), r) == DoFreeze(old(Books()), k, amount) && Booked(Books())
      ensures old(Sound(Books())) && 0 <= amount ==> Sound(Books())
    {
      hide Booked, NonNegative;
      FreezeBooked(Books(), k, amount);
      if Sound(Books()) && 0 <= amount { FreezeSound(Books(), k, amount); }
      if k !in balance {
        balance := balance[k := DEFAULT_BALANCE];
        opening := opening[k := DEFAULT_BALANCE];
      }
      if amount > balance[k] {
        return Err(LedgerFreeze);
      }
      balance := balance[k := balance[k] - amount];
      freezes := freezes + [Hold(k, amount, Open)];
      return Ok(|freezes| - 1);
    }

    method Capture(f: Option<FreezeId>) returns (r: Result<()>)
      requires Booked(Books())
      modifies this
      ensures (Books(), r) == DoCapture(old(Books()), f) && Booked(Books())
      ensures r.Ok? ==> f.Some? && f.value < |freezes| && !freezes[f.value].state.Open?
      ensures old(Sound(Books())) ==> Sound(Books())
    {
      hide Booked, NonNegative;
      CaptureBooked(Books(), f);
      if Sound(Books()) { CaptureSound(Books(), f); }
      if f.None? || f.value >= |freezes| {
        return Err(LedgerFreeze);
      }
      var fz := freezes[f.value];
      if fz.state.Open? {
        fz := fz.(state := Captured);
      }
      freezes := freezes[f.value := fz];
      return Ok(());
    }

    method Release(f: Option<FreezeId>)
      requires Booked(Books())
      modifies this
      ensures Books() == DoRelease(old(Books()), f) && Booked(Books())
      ensures f.Some? && f.value < |freezes| ==> !freezes[f.value].state.Open?
      ensures old(Sound(Books())) ==> Sound(Books())
    {
      hide Booked, NonNegative;
      ReleaseBooked(Books(), f);
      if Sound(Books()) { ReleaseSound(Books(), f); }
      if f.None? || f.value >= |freezes| {
        return;
      }
      var fz := freezes[f.value];
      if fz.state.Open? {
        balance := balance[fz.account := Get(balance, fz.account) + fz.amount];
        freezes := freezes[f.value := fz.(state := Released)];
      }
    }

    method Credit(k: Account, amount: int)
      requires Booked(Books())
      modifies this
      ensures Books() == DoCredit(old(Books()), k, amount) && Booked(Books())
      ensures old(Sound(Books())) && 0 <= amount ==> Sound(Books())
    {
      hide Booked, NonNegative;
      CreditBooked(Books(), k, amount);
      if Sound(Books()) && 0 <= amount { CreditSound(Books(), k, amount); }
      balance := balance[k := Get(balance, k) + amount];
      credits := credits[k := Get(credits, k) + amount];
      if k !in opening {
        opening := opening[k := 0];
      }
    }
  }
}

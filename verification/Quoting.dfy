/** Preview, the cached quote, and how a checkout that cites the quote is priced. */
module Quoting {
  import opened Base
  import opened Int64
  import opened Amounts
  import opened Allocation
  import opened Orders
  import opened Hashing
  import L = Ledger

  datatype LedgerPay = LedgerPay(asset: Name, amount: I64)
  datatype Quote = Quote(id: Name, currency: Name, original: I64, discount: I64)

  /** `ext` stands for the free-form context map; `None` is the absent map. */
  datatype Command = Command(
    scene: Name,
    channel: Name,
    quote: Name,
    coupons: seq<Name>,
    ledgerPay: Option<LedgerPay>,
    ext: Option<Name>)

  datatype Snapshot = Snapshot(
    quote: Name,
    hash: Document,
    scene: Name,
    coupons: seq<Name>,
    items: seq<Line>,
    amounts: Amounts,
    asset: Name,
    ext: Option<Name>,
    expires: int)

  function ChannelOf(cmd: Command): Name { if cmd.channel == "" then "app" else cmd.channel }
  function AmountOf(cmd: Command): I64 { if cmd.ledgerPay.Some? then cmd.ledgerPay.value.amount else 0 }
  function AssetOf(cmd: Command): Name { if cmd.ledgerPay.Some? then cmd.ledgerPay.value.asset else "" }

  // ---------------------------------------------------------------------------
  // Lines
  // ---------------------------------------------------------------------------

  predicate Named(l: Line) {
    l.id != "" && l.objectType != "" && l.objectId != "" && 0 < l.quantity && 0 <= l.unitPrice
  }

  predicate ValidLines(items: seq<Line>) {
    && items != []
    && (forall i :: 0 <= i < |items| ==> Named(items[i]))
    && (forall i, j :: 0 <= i < j < |items| ==> items[i].id != items[j].id)
  }

  method ValidateLines(items: seq<Line>) returns (err: Option<Error>)
    ensures err.None? <==> ValidLines(items)
  {
    if |items| == 0 {
      return Some(InvalidArgument);
    }
    var seen: set<Name> := {};
    for i := 0 to |items|
      invariant forall id :: id in seen <==> exists k :: 0 <= k < i && items[k].id == id
      invariant ValidLines(items[..i]) || i == 0
    {
      var it := items[i];
      if it.id == "" || it.objectType == "" || it.objectId == "" {
        assert !Named(items[i]);
        return Some(InvalidArgument);
      }
      if it.id in seen {
        return Some(InvalidArgument);
      }
      seen := seen + {it.id};
      if it.quantity <= 0 || it.unitPrice < 0 {
        assert !Named(items[i]);
        return Some(InvalidArgument);
      }
    }
    assert items[..|items|] == items;
    return None;
  }

  /** The lines with their originals computed. */
  function Repriced(lines: seq<Line>): (r: seq<Line>)
    ensures |r| == |lines|
  {
    seq(|lines|, i requires 0 <= i < |lines| => lines[i].(original := Wrap(lines[i].unitPrice * lines[i].quantity)))
  }

  /** The lines as an order stores them: priced, and carrying their share of the discount. */
  function Charged(lines: seq<Line>, discount: I64): seq<Line> {
    Allocated(Repriced(lines), discount, Wrap(TrueTotal(lines)))
  }

  lemma {:induction false} RepricedTotal(lines: seq<Line>)
    requires forall i :: 0 <= i < |lines| ==> WellFormed(lines[i]) && Fits(lines[i].unitPrice * lines[i].quantity)
    ensures SumOriginals(Repriced(lines)) == TrueTotal(lines) && PricedLines(Repriced(lines))
  {
    if lines != [] {
      var n := |lines| - 1;
      RepricedTotal(lines[..n]);
      assert Repriced(lines)[..n] == Repriced(lines[..n]);
      LineOriginalExact(lines[n].unitPrice, lines[n].quantity);
      assert forall i :: 0 <= i < n ==> PricedLine(Repriced(lines)[..n][i]);
    }
  }

  /** After SumOriginal the allocation runs on the repriced lines and their true total. */
  lemma RepricedFill(lines: seq<Line>, after: seq<Line>)
    requires Billable(lines) && |after| == |lines| && forall i :: 0 <= i < |lines| ==> Priced(lines[i], after[i])
    ensures after == Repriced(lines) && FillAll(after) == Ok((after, TrueTotal(lines)))
    ensures PricedLines(after) && SumOriginals(after) == TrueTotal(lines)
  {
    assert after == Repriced(lines);
    RepricedTotal(lines);
    FillKeepsPriced(after);
  }

  /** A quote that fits the scene and the lines. */
  predicate QuoteFits(q: Quote, currency: Name, lines: seq<Line>) {
    q.currency == currency && q.original == TrueTotal(lines)
  }

  /** Charges priced lines in place. */
  method Charge(items: array<Line>, ghost before: seq<Line>, discount: I64) returns (err: Option<Error>)
    requires Billable(before) && items[..] == Repriced(before)
    requires FillAll(items[..]) == Ok((items[..], TrueTotal(before)))
    modifies items
    ensures err.None? <==> 0 <= discount <= TrueTotal(before)
    ensures err.None? ==> items[..] == Charged(before, discount)
  {
    hide FillAll, Allocated, Repriced, TrueTotal;
    err := AllocateDiscount(items, discount);
  }

  // ---------------------------------------------------------------------------
  // Amounts
  // ---------------------------------------------------------------------------

  /** Preview builds the amounts first and defaults the ledger share to everything payable. */
  function PreviewAmounts(scene: Scene, original: I64, discount: I64, ledgerPay: I64): Result<Amounts> {
    match BuildAmounts(scene.currency, original, discount, ledgerPay)
    case Err(e) => Err(e)
    case Ok(a) =>
      if scene.ledger == LedgerFreezeCapture && ledgerPay == 0
      then BuildAmounts(scene.currency, original, discount, a.payable)
      else Ok(a)
  }

  /** Checkout defaults the ledger share before building the amounts. */
  function DefaultLedgerPay(scene: Scene, original: I64, discount: I64, ledgerPay: I64): I64 {
    if scene.ledger == LedgerFreezeCapture && ledgerPay == 0 then Wrap(original - discount) else ledgerPay
  }

  function DefaultAsset(scene: Scene, ledgerPay: I64, asset: Name): Name {
    if scene.ledger == LedgerFreezeCapture && ledgerPay == 0 && asset == "" then scene.currency else asset
  }

  function CheckoutAmounts(scene: Scene, original: I64, discount: I64, ledgerPay: I64): Result<Amounts> {
    BuildAmounts(scene.currency, original, discount, DefaultLedgerPay(scene, original, discount, ledgerPay))
  }

  /** The two orders of defaulting give the same amounts, also when the defaulted share is fed back in. */
  lemma DefaultsAgree(scene: Scene, original: I64, discount: I64, ledgerPay: I64)
    requires 0 <= discount <= original
    ensures PreviewAmounts(scene, original, discount, ledgerPay).Ok?
            <==> CheckoutAmounts(scene, original, discount, ledgerPay).Ok?
    ensures var p := PreviewAmounts(scene, original, discount, ledgerPay);
            p.Ok? ==> && p.value.ledgerPay == (if scene.ledger == LedgerFreezeCapture && ledgerPay == 0
                                               then original - discount else ledgerPay)
                      && CheckoutAmounts(scene, original, discount, ledgerPay) == p
                      && CheckoutAmounts(scene, original, discount, p.value.ledgerPay) == p
  {
    hide BuildAmounts;
    BuildAmountsExact(scene.currency, original, discount, ledgerPay);
    BuildAmountsExact(scene.currency, original, discount, original - discount);
  }

  // ---------------------------------------------------------------------------
  // Preview
  // ---------------------------------------------------------------------------

  class PreviewCache {
    var entries: map<(Name, Name), Snapshot>

    constructor ()
      ensures entries == map[]
    {
      entries := map[];
    }

    method Put(tenant: Name, quote: Name, snap: Snapshot)
      modifies this
      ensures entries == old(entries)[(tenant, quote) := snap]
    {
      entries := entries[(tenant, quote) := snap];
    }
  }

  /** What preview hashes: the command with the resolved ledger share. */
  function PreviewInput(scene: Scene, cmd: Command, items: seq<Line>, ledgerPay: I64, asset: Name): HashInput {
    HashInput(cmd.scene, ChannelOf(cmd), scene.currency, cmd.coupons, items, ledgerPay, asset, cmd.ext)
  }

  /** A successful preview of these lines under this quote and the snapshot it leaves. */
  predicate Previewed(scene: Scene, cmd: Command, lines: seq<Line>, q: Quote, snap: Snapshot) {
    && ValidLines(lines) && Billable(lines) && QuoteFits(q, scene.currency, lines)
    && 0 <= q.discount <= TrueTotal(lines)
    && PreviewAmounts(scene, q.original, q.discount, AmountOf(cmd)) == Ok(snap.amounts)
    && snap.items == Charged(lines, q.discount)
    && snap.asset == DefaultAsset(scene, AmountOf(cmd), AssetOf(cmd))
    && snap.quote == q.id && snap.scene == cmd.scene && snap.coupons == cmd.coupons && snap.ext == cmd.ext
    && snap.hash == ContextDoc(PreviewInput(scene, cmd, snap.items, snap.amounts.ledgerPay, snap.asset))
  }

  /** The amounts of a preview, with the ledger share and the asset it resolves to. */
  method PreviewShare(scene: Scene, cmd: Command, original: I64, discount: I64)
    returns (amounts: Result<Amounts>, ledgerPay: I64, asset: Name)
    ensures amounts == PreviewAmounts(scene, original, discount, AmountOf(cmd))
    ensures amounts.Ok? ==>
            ledgerPay == amounts.value.ledgerPay && asset == DefaultAsset(scene, AmountOf(cmd), AssetOf(cmd))
  {
    hide BuildAmounts;
    ledgerPay, asset := 0, "";
    if cmd.ledgerPay.Some? {
      ledgerPay, asset := cmd.ledgerPay.value.amount, cmd.ledgerPay.value.asset;
    }
    amounts := BuildAmounts(scene.currency, original, discount, ledgerPay);
    BuildKeepsShare(scene.currency, original, discount, ledgerPay);
    if amounts.Ok? && scene.ledger == LedgerFreezeCapture && ledgerPay == 0 {
      amounts := BuildAmounts(scene.currency, original, discount, amounts.value.payable);
      if amounts.Ok? {
        ledgerPay := amounts.value.ledgerPay;
        if asset == "" {
          asset := scene.currency;
        }
      }
    }
  }

  /**
   * `quote` is the offer hub's answer, `expires` its expiry or the default one, and `reached` says
   * whether the ledger answers the balance query, which is ignored when it does not.
   */
  method Preview(scenes: map<Name, Scene>, tenant: Name, user: Name, cmd: Command, items: array<Line>,
                 quote: Result<Quote>, expires: int, cache: PreviewCache, ledger: L.LedgerMock, reached: bool)
    returns (r: Result<Snapshot>, balance: Option<int>)
    requires L.Booked(ledger.Books())
    modifies items, cache, ledger
    ensures r.Ok? <==> && cmd.scene in scenes && ValidLines(old(items[..])) && Billable(old(items[..]))
                       && quote.Ok? && QuoteFits(quote.value, scenes[cmd.scene].currency, old(items[..]))
                       && 0 <= quote.value.discount <= quote.value.original
                       && PreviewAmounts(scenes[cmd.scene], quote.value.original, quote.value.discount,
                            AmountOf(cmd)).Ok?
    ensures r.Ok? ==> && Previewed(scenes[cmd.scene], cmd, old(items[..]), quote.value, r.value)
                      && items[..] == r.value.items && r.value.expires == expires
                      && cache.entries == old(cache.entries)[(tenant, r.value.quote) := r.value]
    ensures r.Err? ==> cache.entries == old(cache.entries)
    ensures L.Booked(ledger.Books())
    ensures if r.Ok? && r.value.asset != "" && reached
            then var k := L.Account(tenant, user, r.value.asset);
                 ledger.Books() == L.Touch(old(ledger.Books()), k) && balance == Some(ledger.Books().balance[k])
            else ledger.Books() == old(ledger.Books()) && balance.None?
  {
    hide L.Booked, PreviewAmounts, DefaultAsset;
    hide FillAll, Allocated, Repriced, TrueTotal, WellFormed, Billable, Charged, ValidLines, ContextDoc;
    balance := None;
    if cmd.scene !in scenes {
      return Err(SceneNotFound), None;
    }
    var scene := scenes[cmd.scene];
    var invalid := ValidateLines(items[..]);
    if invalid.Some? {
      return Err(invalid.value), None;
    }
    ghost var before := items[..];
    var original := SumOriginal(items);
    if original.Err? {
      return Err(original.error), None;
    }
    RepricedFill(before, items[..]);
    if quote.Err? {
      return Err(quote.error), None;
    }
    var q := quote.value;
    if q.currency != scene.currency || q.original != original.value {
      return Err(QuoteStale), None;
    }
    var refused := Charge(items, before, q.discount);
    if refused.Some? {
      return Err(refused.value), None;
    }
    var amounts, ledgerPay, asset := PreviewShare(scene, cmd, original.value, q.discount);
    if amounts.Err? {
      return Err(amounts.error), None;
    }
    if asset != "" && reached {
      var b := ledger.GetBalance(L.Account(tenant, user, asset));
      balance := Some(b);
    }
    var hash := ContextHash(PreviewInput(scene, cmd, items[..], ledgerPay, asset));
    var snap := Snapshot(q.id, hash, cmd.scene, cmd.coupons, items[..], amounts.value, asset, cmd.ext, expires);
    cache.Put(tenant, q.id, snap);
    return Ok(snap), balance;
  }

  lemma BuildKeepsShare(currency: Name, original: I64, discount: I64, ledgerPay: I64)
    ensures var r := BuildAmounts(currency, original, discount, ledgerPay); r.Ok? ==> r.value.ledgerPay == ledgerPay
  {
    hide BuildAmounts;
    BuildAmountsExact(currency, original, discount, ledgerPay);
  }

  // ---------------------------------------------------------------------------
  // A checkout that cites a quote
  // ---------------------------------------------------------------------------

  datatype Resolved = Resolved(items: seq<Line>, coupons: seq<Name>, ledgerPay: I64, asset: Name, ext: Option<Name>)

  /** What the buyer left out is taken from the snapshot. */
  function Merged(cmd: Command, items: seq<Line>, snap: Snapshot): Resolved {
    Resolved(
      if items == [] then snap.items else items,
      if cmd.coupons == [] then snap.coupons else cmd.coupons,
      if cmd.ledgerPay.None? then snap.amounts.ledgerPay else AmountOf(cmd),
      if cmd.ledgerPay.None? then snap.asset else AssetOf(cmd),
      if cmd.ext.None? then snap.ext else cmd.ext)
  }

  function CheckoutInput(scene: Scene, cmd: Command, m: Resolved): HashInput {
    HashInput(cmd.scene, ChannelOf(cmd), scene.currency, m.coupons, m.items, m.ledgerPay, m.asset, m.ext)
  }

  /** The snapshot still stands for this command. */
  predicate Stands(scene: Scene, cmd: Command, items: seq<Line>, snap: Snapshot, now: int) {
    && now <= snap.expires && cmd.scene == snap.scene
    && ContextDoc(CheckoutInput(scene, cmd, Merged(cmd, items, snap))) == snap.hash
  }

  /** A cited quote with a cache configured: the snapshot decides. */
  predicate Cites(cmd: Command, cached: Option<Result<Snapshot>>) { cmd.quote != "" && cached.Some? }

  /** `cached` is absent when no cache is configured, and an error when the read fails. */
  method ResolveSnapshot(scene: Scene, cmd: Command, items: seq<Line>, cached: Option<Result<Snapshot>>, now: int)
    returns (r: Result<Resolved>)
    ensures !Cites(cmd, cached) ==>
              r == if items == [] then Err(InvalidArgument)
                   else Ok(Resolved(items, cmd.coupons, AmountOf(cmd), AssetOf(cmd), cmd.ext))
    ensures Cites(cmd, cached) ==>
              && (r.Ok? <==> && cached.value.Ok? && Stands(scene, cmd, items, cached.value.value, now)
                             && Merged(cmd, items, cached.value.value).items != [])
              && (r.Ok? ==> r.value == Merged(cmd, items, cached.value.value))
  {
    hide ContextDoc;
    var found, coupons, ext, ledgerPay, asset: Name := items, cmd.coupons, cmd.ext, 0, "";
    if cmd.ledgerPay.Some? {
      ledgerPay, asset := cmd.ledgerPay.value.amount, cmd.ledgerPay.value.asset;
    }
    if cmd.quote != "" && cached.Some? {
      if cached.value.Err? {
        return Err(QuoteStale);
      }
      var snap := cached.value.value;
      if now > snap.expires {
        return Err(QuoteStale);
      }
      if |found| == 0 {
        found := snap.items;
      }
      if |coupons| == 0 {
        coupons := snap.coupons;
      }
      if cmd.ledgerPay.None? {
        ledgerPay, asset := snap.amounts.ledgerPay, snap.asset;
      }
      if ext.None? {
        ext := snap.ext;
      }
      if cmd.scene != snap.scene {
        return Err(QuoteStale);
      }
      var want :=
        ContextHash(HashInput(cmd.scene, ChannelOf(cmd), scene.currency, coupons, found, ledgerPay, asset, ext));
      if want != snap.hash {
        return Err(QuoteStale);
      }
    }
    if |found| == 0 {
      return Err(InvalidArgument);
    }
    return Ok(Resolved(found, coupons, ledgerPay, asset, ext));
  }

  datatype Bill = Bill(lines: seq<Line>, amounts: Amounts, asset: Name, quote: Quote, coupons: seq<Name>,
      ext: Option<Name>)

  /**
   * When the hub issued another quote, the cached one, if still found, must promise the same discount and not have
   * expired.
   */
  predicate StillPromised(cmd: Command, q: Quote, again: Option<Snapshot>, now: int) {
    cmd.quote != "" && q.id != cmd.quote && again.Some? ==>
      again.value.amounts.discount == q.discount && now <= again.value.expires
  }

  /** A checkout priced at these resolved inputs under the quote `q`. */
  predicate Billed(scene: Scene, cmd: Command, m: Resolved, q: Quote, again: Option<Snapshot>, now: int, bill: Bill) {
    && ValidLines(m.items) && Billable(m.items) && QuoteFits(q, scene.currency, m.items)
    && 0 <= q.discount <= TrueTotal(m.items) && StillPromised(cmd, q, again, now)
    && CheckoutAmounts(scene, q.original, q.discount, m.ledgerPay) == Ok(bill.amounts)
    && bill == Bill(Charged(m.items, q.discount), bill.amounts, DefaultAsset(scene, m.ledgerPay, m.asset), q, m.coupons,
         m.ext)
  }

  /** The pricing part of checkout, on a copy of the lines. */
  method PriceCheckout(scene: Scene, cmd: Command, m: Resolved, quote: Result<Quote>, again: Option<Snapshot>, now: int)
    returns (r: Result<Bill>)
    ensures r.Ok? <==> && ValidLines(m.items) && Billable(m.items)
                       && quote.Ok? && QuoteFits(quote.value, scene.currency, m.items)
                       && 0 <= quote.value.discount <= TrueTotal(m.items) && StillPromised(cmd, quote.value, again, now)
                       && CheckoutAmounts(scene, quote.value.original, quote.value.discount, m.ledgerPay).Ok?
    ensures r.Ok? ==> Billed(scene, cmd, m, quote.value, again, now, r.value)
  {
    hide FillAll, Allocated, Repriced, TrueTotal, WellFormed, Billable, Charged, ValidLines;
    var items := new Line[|m.items|](i requires 0 <= i < |m.items| => m.items[i]);
    assert items[..] == m.items;
    var invalid := ValidateLines(items[..]);
    if invalid.Some? {
      return Err(invalid.value);
    }
    var original := SumOriginal(items);
    if original.Err? {
      return Err(original.error);
    }
    RepricedFill(m.items, items[..]);
    if quote.Err? {
      return Err(quote.error);
    }
    var q := quote.value;
    if q.currency != scene.currency || q.original != original.value {
      return Err(QuoteStale);
    }
    if cmd.quote != "" && q.id != cmd.quote && again.Some? {
      if again.value.amounts.discount != q.discount || now > again.value.expires {
        return Err(QuoteStale);
      }
    }
    var refused := Charge(items, m.items, q.discount);
    if refused.Some? {
      return Err(refused.value);
    }
    var ledgerPay, asset := m.ledgerPay, m.asset;
    if scene.ledger == LedgerFreezeCapture && ledgerPay == 0 {
      ledgerPay := Wrap(original.value - q.discount);
      if asset == "" {
        asset := scene.currency;
      }
    }
    var amounts := BuildAmounts(scene.currency, original.value, q.discount, ledgerPay);
    if amounts.Err? {
      return Err(amounts.error);
    }
    return Ok(Bill(items[..], amounts.value, asset, q, m.coupons, m.ext));
  }

  /** The lines of a bill add up to its amounts, and each carries a lawful share of the discount. */
  lemma BilledLinesLawful(scene: Scene, cmd: Command, m: Resolved, q: Quote, again: Option<Snapshot>, now: int,
                          bill: Bill)
    requires Billed(scene, cmd, m, q, again, now, bill) && ProductsFit(Repriced(m.items), q.discount)
    ensures m.items != [] && |bill.lines| == |m.items| && Lawful(Repriced(m.items), q.discount, bill.lines)
    ensures SumDiscounts(bill.lines) == bill.amounts.discount && SumPayables(bill.lines) == bill.amounts.payable
  {
    hide BuildAmounts, ProductsFit, SumDiscounts, SumPayables;
    var lines := Repriced(m.items);
    forall i | 0 <= i < |m.items| ensures Priced(m.items[i], lines[i]) {
      TotalGrows(m.items, i);
      TotalGrows(m.items, i + 1);
      assert m.items[..i + 1][..i] == m.items[..i];
    }
    RepricedFill(m.items, lines);
    assert NonNegativeLines(lines);
    AllocationLaw(lines, q.discount);
    BuildAmountsExact(scene.currency, q.original, q.discount,
        DefaultLedgerPay(scene, q.original, q.discount, m.ledgerPay));
  }

  // ---------------------------------------------------------------------------
  // Preview and checkout agree
  // ---------------------------------------------------------------------------

  lemma {:induction false} SameKeysTotal(a: seq<Line>, b: seq<Line>)
    requires SameKeys(a, b)
    ensures TrueTotal(a) == TrueTotal(b)
  {
    if a != [] {
      var n := |a| - 1;
      assert KeyOf(a[n]) == KeyOf(b[n]);
      assert SameKeys(a[..n], b[..n]);
      SameKeysTotal(a[..n], b[..n]);
    }
  }

  lemma {:induction false} SameHanded(a: seq<Line>, b: seq<Line>, n: nat, total: I64, original: I64)
    requires |a| == |b| && n <= |a| && original != 0 && forall i :: 0 <= i < |a| ==> a[i].original == b[i].original
    ensures Handed(a, n, total, original) == Handed(b, n, total, original)
  {
    if n > 0 { SameHanded(a, b, n - 1, total, original); }
  }

  lemma SameLineDiscount(a: seq<Line>, b: seq<Line>, i: nat, total: I64, original: I64)
    requires |a| == |b| && i < |a| && forall i :: 0 <= i < |a| ==> a[i].original == b[i].original
    ensures LineDiscount(a, i, total, original) == LineDiscount(b, i, total, original)
  {
    hide Handed, MulDiv;
    if original != 0 { SameHanded(a, b, i, total, original); }
  }

  lemma SameKeysRepriced(a: seq<Line>, b: seq<Line>, i: nat)
    requires SameKeys(a, b) && i < |a|
    ensures var x, y := Repriced(a)[i], Repriced(b)[i];
            x.(discount := 0, payable := 0) == y.(discount := 0, payable := 0)
  {
    assert KeyOf(a[i]) == KeyOf(b[i]);
  }

  /** Lines with equal keys are charged alike, whatever amounts they carried. */
  lemma SameKeysCharged(a: seq<Line>, b: seq<Line>, discount: I64)
    requires SameKeys(a, b)
    ensures Charged(a, discount) == Charged(b, discount)
  {
    hide Repriced, LineDiscount, TrueTotal, SameKeys;
    SameKeysTotal(a, b);
    assert |a| == |b| by { SameLength(a, b); }
    var x, y, original := Repriced(a), Repriced(b), Wrap(TrueTotal(a));
    forall i | 0 <= i < |a| ensures x[i].(discount := 0, payable := 0) == y[i].(discount := 0, payable := 0) {
      SameKeysRepriced(a, b, i);
    }
    forall i | 0 <= i < |a| ensures LineDiscount(x, i, discount, original) == LineDiscount(y, i, discount, original) {
      SameLineDiscount(x, y, i, discount, original);
    }
  }

  lemma SameLength(a: seq<Line>, b: seq<Line>)
    requires SameKeys(a, b)
    ensures |a| == |b|
  {
  }

  lemma ChargedKeys(lines: seq<Line>, discount: I64)
    ensures SameKeys(Charged(lines, discount), lines)
  {
  }

  /**
   * A previewed quote stands for a later command exactly when it has not expired and the command
   * repeats or omits the items, the coupons in any order, the ledger share as preview resolved it,
   * and the context.
   */
  lemma StandsIffRepeatedOrOmitted(scene: Scene, cmd: Command, lines: seq<Line>, q: Quote, snap: Snapshot,
                                   later: Command, items: seq<Line>, now: int)
    requires Previewed(scene, cmd, lines, q, snap)
    ensures Stands(scene, later, items, snap, now) <==>
              && now <= snap.expires && later.scene == cmd.scene && ChannelOf(later) == ChannelOf(cmd)
              && (items == [] || SameKeys(items, lines))
              && (later.coupons == [] || multiset(later.coupons) == multiset(cmd.coupons))
              && (later.ledgerPay.None? || (AmountOf(later) == snap.amounts.ledgerPay && AssetOf(later) == snap.asset))
              && (later.ext.None? || later.ext == cmd.ext)
  {
    hide Charged, ContextDoc, PreviewAmounts, Billable, QuoteFits, TrueTotal;
    ChargedKeys(lines, q.discount);
    ContextsAgree(CheckoutInput(scene, later, Merged(later, items, snap)),
        PreviewInput(scene, cmd, snap.items, snap.amounts.ledgerPay, snap.asset));
    assert SameKeys(snap.items, lines);
  }

  /**
   * A checkout under a cited preview reproduces its amounts and lines exactly when the hub gives the same discount
   * again.
   */
  lemma AmountsMatchIffSameDiscount(scene: Scene, cmd: Command, lines: seq<Line>, q: Quote, snap: Snapshot,
                                    later: Command, items: seq<Line>, q2: Quote, again: Option<Snapshot>, now: int,
                                      bill: Bill)
    requires Previewed(scene, cmd, lines, q, snap) && Stands(scene, later, items, snap, now)
    requires Billed(scene, later, Merged(later, items, snap), q2, again, now, bill)
    ensures bill.amounts == snap.amounts <==> q2.discount == q.discount
    ensures q2.discount == q.discount ==> bill.lines == snap.items
    ensures bill.amounts.original == snap.amounts.original && multiset(bill.coupons) == multiset(cmd.coupons)
  {
    hide Charged, ContextDoc, BuildAmounts, ValidLines, Billable, TrueTotal;
    var m := Merged(later, items, snap);
    StandsIffRepeatedOrOmitted(scene, cmd, lines, q, snap, later, items, now);
    ChargedKeys(lines, q.discount);
    assert SameKeys(m.items, lines);
    SameKeysTotal(m.items, lines);
    SameKeysCharged(m.items, lines, q.discount);
    DefaultsAgree(scene, q.original, q.discount, AmountOf(cmd));
    DiscountKept(scene, q.original, q.discount, AmountOf(cmd));
    DiscountKept(scene, q2.original, q2.discount, m.ledgerPay);
  }

  lemma DiscountKept(scene: Scene, original: I64, discount: I64, ledgerPay: I64)
    ensures var p := PreviewAmounts(scene, original, discount, ledgerPay);
            p.Ok? ==> p.value.discount == discount && p.value.original == original
    ensures var c := CheckoutAmounts(scene, original, discount, ledgerPay);
            c.Ok? ==> c.value.discount == discount && c.value.original == original
  {
    hide BuildAmounts;
    BuildAmountsExact(scene.currency, original, discount, ledgerPay);
    var a := BuildAmounts(scene.currency, original, discount, ledgerPay);
    if a.Ok? { BuildAmountsExact(scene.currency, original, discount, a.value.payable); }
    BuildAmountsExact(scene.currency, original, discount, DefaultLedgerPay(scene, original, discount, ledgerPay));
  }

  /**
   * A successful checkout citing a previewed quote charges what the preview showed, provided equal
   * quote ids mean equal discounts and the cache still holds the snapshot when another id comes back.
   */
  lemma CheckoutMatchesPreview(scene: Scene, cmd: Command, lines: seq<Line>, q: Quote, snap: Snapshot,
                               later: Command, items: seq<Line>, q2: Quote, again: Option<Snapshot>, now: int,
                                 bill: Bill)
    requires Previewed(scene, cmd, lines, q, snap) && later.quote == q.id != ""
    requires Stands(scene, later, items, snap, now)
    requires Billed(scene, later, Merged(later, items, snap), q2, again, now, bill)
    requires q2.id == q.id ==> q2.discount == q.discount
    requires q2.id != q.id ==> again == Some(snap)
    ensures bill.amounts == snap.amounts && bill.lines == snap.items
  {
    hide Charged, ContextDoc, BuildAmounts, ValidLines, Billable, TrueTotal, Stands, PreviewAmounts, CheckoutAmounts;
    assert snap.amounts.discount == q.discount by { DiscountKept(scene, q.original, q.discount, AmountOf(cmd)); }
    AmountsMatchIffSameDiscount(scene, cmd, lines, q, snap, later, items, q2, again, now, bill);
  }

  /** The discounts a later checkout with this ledger share would accept. */
  lemma AdmissibleIff(scene: Scene, original: I64, discount: I64, ledgerPay: I64)
    requires scene.currency != "" && 0 <= original && 0 <= ledgerPay
    ensures (0 <= discount <= original && CheckoutAmounts(scene, original, discount, ledgerPay).Ok?)
            <==> 0 <= discount <= original - ledgerPay
  {
    hide BuildAmounts;
    BuildAmountsExact(scene.currency, original, discount, DefaultLedgerPay(scene, original, discount, ledgerPay));
  }

  /** Whatever the hub answers under this id, every checkout it leads to repeats the preview. */
  ghost predicate AlwaysRepeats(scene: Scene, q: Quote, snap: Snapshot, later: Command, items: seq<Line>, id: Name,
                                again: Option<Snapshot>, now: int)
  {
    forall q2: Quote, bill: Bill ::
      q2.id == id && (id == q.id ==> q2.discount == q.discount)
        && Billed(scene, later, Merged(later, items, snap), q2, again, now, bill) ==>
        bill.amounts == snap.amounts && bill.lines == snap.items
  }

  /**
   * Over all answers of the hub: a checkout citing a preview is bound to repeat it if and only if the
   * quote id repeats, or the cached snapshot is found a second time, or the ledger share leaves no
   * room for another discount, or the resent lines cannot be billed at all.
   */
  lemma RepeatsIffRemembered(scene: Scene, cmd: Command, lines: seq<Line>, q: Quote, snap: Snapshot,
                             later: Command, items: seq<Line>, id: Name, again: Option<Snapshot>, now: int)
    requires Previewed(scene, cmd, lines, q, snap) && later.quote == q.id != ""
    requires Stands(scene, later, items, snap, now)
    requires again.Some? ==> again.value == snap
    ensures AlwaysRepeats(scene, q, snap, later, items, id, again, now) <==>
              || id == q.id || again.Some? || snap.amounts.original == snap.amounts.ledgerPay
              || !Billable(Merged(later, items, snap).items)
  {
    hide Charged, ContextDoc, BuildAmounts, ValidLines, Billable, TrueTotal, Stands, PreviewAmounts, CheckoutAmounts,
      Previewed;
    var m := Merged(later, items, snap);
    if id == q.id || again.Some? || snap.amounts.original == snap.amounts.ledgerPay || !Billable(m.items) {
      forall q2: Quote, bill: Bill | q2.id == id && (id == q.id ==> q2.discount == q.discount)
        && Billed(scene, later, m, q2, again, now, bill)
        ensures bill.amounts == snap.amounts && bill.lines == snap.items
      {
        AnswerRepeats(scene, cmd, lines, q, snap, later, items, q2, again, now, bill);
      }
    } else {
      var bill := OtherDiscount(scene, cmd, lines, q, snap, later, items, id, now);
      assert Billed(scene, later, m, bill.quote, None, now, bill);
    }
  }

  lemma AnswerRepeats(scene: Scene, cmd: Command, lines: seq<Line>, q: Quote, snap: Snapshot,
                      later: Command, items: seq<Line>, q2: Quote, again: Option<Snapshot>, now: int, bill: Bill)
    requires Previewed(scene, cmd, lines, q, snap) && later.quote == q.id != ""
    requires Stands(scene, later, items, snap, now)
    requires Billed(scene, later, Merged(later, items, snap), q2, again, now, bill)
    requires q2.id == q.id ==> q2.discount == q.discount
    requires q2.id == q.id || again == Some(snap) || snap.amounts.original == snap.amounts.ledgerPay
    ensures bill.amounts == snap.amounts && bill.lines == snap.items
  {
    hide Charged, ContextDoc, BuildAmounts, ValidLines, Billable, TrueTotal, CheckoutAmounts, PreviewAmounts;
    SnapFacts(scene, cmd, lines, q, snap);
    ShareRepeated(scene, cmd, lines, q, snap, later, items, now);
    BillTotals(scene, cmd, lines, q, snap, later, items, q2, again, now, bill);
    AmountsMatchIffSameDiscount(scene, cmd, lines, q, snap, later, items, q2, again, now, bill);
  }

  /** The amounts a preview showed. */
  lemma SnapFacts(scene: Scene, cmd: Command, lines: seq<Line>, q: Quote, snap: Snapshot)
    requires Previewed(scene, cmd, lines, q, snap)
    ensures scene.currency != "" && snap.amounts.original == q.original && snap.amounts.discount == q.discount
    ensures 0 <= snap.amounts.ledgerPay <= snap.amounts.payable == q.original - q.discount && 0 <= q.discount
  {
    hide Charged, ContextDoc, BuildAmounts, ValidLines, Billable, TrueTotal;
    BuildAmountsExact(scene.currency, q.original, q.discount, AmountOf(cmd));
    BuildAmountsExact(scene.currency, q.original, q.discount, q.original - q.discount);
  }

  /** A standing command carries the ledger share the preview resolved. */
  lemma ShareRepeated(scene: Scene, cmd: Command, lines: seq<Line>, q: Quote, snap: Snapshot, later: Command,
                      items: seq<Line>, now: int)
    requires Previewed(scene, cmd, lines, q, snap) && Stands(scene, later, items, snap, now)
    ensures var m := Merged(later, items, snap);
            m.ledgerPay == snap.amounts.ledgerPay && SameKeys(m.items, lines) && TrueTotal(m.items) == q.original
              && ValidLines(m.items)
  {
    hide Charged, ContextDoc, BuildAmounts, Billable, TrueTotal, PreviewAmounts;
    StandsIffRepeatedOrOmitted(scene, cmd, lines, q, snap, later, items, now);
    ChargedKeys(lines, q.discount);
    var m := Merged(later, items, snap);
    assert SameKeys(m.items, lines);
    SameKeysTotal(m.items, lines);
    SameKeysValid(m.items, lines);
  }

  lemma SameKeysValid(a: seq<Line>, b: seq<Line>)
    requires SameKeys(a, b) && ValidLines(b)
    ensures ValidLines(a)
  {
    assert forall i :: 0 <= i < |a| ==> KeyOf(a[i]) == KeyOf(b[i]) && Named(b[i]);
  }

  /** Without room for another discount the hub can only repeat the one shown. */
  lemma BillTotals(scene: Scene, cmd: Command, lines: seq<Line>, q: Quote, snap: Snapshot,
                   later: Command, items: seq<Line>, q2: Quote, again: Option<Snapshot>, now: int, bill: Bill)
    requires Previewed(scene, cmd, lines, q, snap) && Stands(scene, later, items, snap, now)
    requires Billed(scene, later, Merged(later, items, snap), q2, again, now, bill)
    ensures q2.original == q.original && (snap.amounts.original == snap.amounts.ledgerPay ==> q2.discount == q.discount)
  {
    hide Charged, ContextDoc, BuildAmounts, ValidLines, Billable, TrueTotal, CheckoutAmounts, PreviewAmounts, Stands;
    SnapFacts(scene, cmd, lines, q, snap);
    ShareRepeated(scene, cmd, lines, q, snap, later, items, now);
    AdmissibleIff(scene, q2.original, q2.discount, snap.amounts.ledgerPay);
  }

  /** The hub issues another id, the snapshot is gone, and another discount fits: the checkout is accepted at it. */
  lemma OtherDiscount(scene: Scene, cmd: Command, lines: seq<Line>, q: Quote, snap: Snapshot,
                      later: Command, items: seq<Line>, id: Name, now: int) returns (bill: Bill)
    requires Previewed(scene, cmd, lines, q, snap) && Stands(scene, later, items, snap, now) && id != q.id
    requires snap.amounts.original != snap.amounts.ledgerPay && Billable(Merged(later, items, snap).items)
    ensures bill.quote.id == id && bill.quote.discount != q.discount && bill.amounts != snap.amounts
    ensures Billed(scene, later, Merged(later, items, snap), bill.quote, None, now, bill)
  {
    hide Charged, ContextDoc, BuildAmounts, ValidLines, Billable, TrueTotal, Stands, PreviewAmounts, CheckoutAmounts;
    var m := Merged(later, items, snap);
    SnapFacts(scene, cmd, lines, q, snap);
    ShareRepeated(scene, cmd, lines, q, snap, later, items, now);
    var q2 := Quote(id, scene.currency, q.original, if q.discount == 0 then 1 else 0);
    AdmissibleIff(scene, q2.original, q2.discount, m.ledgerPay);
    DiscountKept(scene, q2.original, q2.discount, m.ledgerPay);
    var a := CheckoutAmounts(scene, q2.original, q2.discount, m.ledgerPay).value;
    bill := Bill(Charged(m.items, q2.discount), a, DefaultAsset(scene, m.ledgerPay, m.asset), q2, m.coupons, m.ext);
  }

  /**
   * Resending the previewed command word for word stands if and only if it has not expired, unless it
   * spelled out a ledger share of zero that preview replaced by a default.
   */
  lemma ResendStandsIff(scene: Scene, cmd: Command, lines: seq<Line>, q: Quote, snap: Snapshot, now: int)
    requires Previewed(scene, cmd, lines, q, snap)
    ensures Stands(scene, cmd.(quote := q.id), lines, snap, now) <==>
              && now <= snap.expires
              && !(cmd.ledgerPay.Some? && AmountOf(cmd) == 0 && scene.ledger == LedgerFreezeCapture
                   && (snap.amounts.payable > 0 || AssetOf(cmd) == ""))
  {
    hide Charged, ContextDoc, BuildAmounts, Billable, TrueTotal, ValidLines, Stands;
    StandsIffRepeatedOrOmitted(scene, cmd, lines, q, snap, cmd.(quote := q.id), lines, now);
    SnapFacts(scene, cmd, lines, q, snap);
    BuildAmountsExact(scene.currency, q.original, q.discount, AmountOf(cmd));
    BuildAmountsExact(scene.currency, q.original, q.discount, q.original - q.discount);
  }
}

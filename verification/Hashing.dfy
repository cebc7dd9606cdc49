/**
 * The documents hashed by internal/domain/hash.go. SHA-256 over the JSON text is taken to be
 * injective, so a hash is represented by the document itself.
 */
module Hashing {
  import opened Base
  import opened Int64
  import opened Amounts

  // ---------------------------------------------------------------------------
  // Sorted coupons
  // ---------------------------------------------------------------------------

  /** Lexicographic order of strings. */
  predicate Leq(a: Name, b: Name) {
    a == [] || (b != [] && (a[0] < b[0] || (a[0] == b[0] && Leq(a[1..], b[1..]))))
  }

  lemma {:induction false} LeqTotal(a: Name, b: Name)
    ensures Leq(a, b) || Leq(b, a)
  {
    if a != [] && b != [] && a[0] == b[0] { LeqTotal(a[1..], b[1..]); }
  }

  lemma {:induction false} LeqAntisymmetric(a: Name, b: Name)
    requires Leq(a, b) && Leq(b, a)
    ensures a == b
  {
    if a != [] && b != [] {
      LeqAntisymmetric(a[1..], b[1..]);
      assert a == [a[0]] + a[1..] && b == [b[0]] + b[1..];
    }
  }

  lemma {:induction false} LeqTransitive(a: Name, b: Name, c: Name)
    requires Leq(a, b) && Leq(b, c)
    ensures Leq(a, c)
  {
    if a != [] && b != [] && c != [] && a[0] == b[0] == c[0] { LeqTransitive(a[1..], b[1..], c[1..]); }
  }

  predicate Sorted(s: seq<Name>) { forall i, j :: 0 <= i < j < |s| ==> Leq(s[i], s[j]) }

  function Insert(x: Name, s: seq<Name>): seq<Name> {
    if s == [] then [x] else if Leq(x, s[0]) then [x] + s else [s[0]] + Insert(x, s[1..])
  }

  function Sort(s: seq<Name>): seq<Name> {
    if s == [] then [] else Insert(s[0], Sort(s[1..]))
  }

  lemma ConsSorted(x: Name, s: seq<Name>)
    requires Sorted(s) && forall j :: 0 <= j < |s| ==> Leq(x, s[j])
    ensures Sorted([x] + s)
  {
    hide Leq;
  }

  lemma {:induction false} InsertSorts(x: Name, s: seq<Name>)
    requires Sorted(s)
    ensures Sorted(Insert(x, s)) && multiset(Insert(x, s)) == multiset(s) + multiset{x}
  {
    hide Leq;
    if s != [] {
      assert s == [s[0]] + s[1..];
      if Leq(x, s[0]) {
        forall j | 0 <= j < |s| ensures Leq(x, s[j]) { if j > 0 { LeqTransitive(x, s[0], s[j]); } }
        ConsSorted(x, s);
      } else {
        LeqTotal(x, s[0]);
        InsertSorts(x, s[1..]);
        var r := Insert(x, s[1..]);
        forall j | 0 <= j < |r| ensures Leq(s[0], r[j]) {
          assert r[j] in multiset(s[1..]) + multiset{x};
        }
        ConsSorted(s[0], r);
      }
    }
  }

  lemma {:induction false} SortSorts(s: seq<Name>)
    ensures Sorted(Sort(s)) && multiset(Sort(s)) == multiset(s)
  {
    if s != [] {
      SortSorts(s[1..]);
      InsertSorts(s[0], Sort(s[1..]));
      assert s == [s[0]] + s[1..];
    }
  }

  lemma TailMultiset(s: seq<Name>)
    requires s != []
    ensures multiset(s[1..]) == multiset(s) - multiset{s[0]}
  {
    assert s == [s[0]] + s[1..];
  }

  lemma SmallestFirst(s: seq<Name>, x: Name)
    requires Sorted(s) && x in multiset(s)
    ensures s != [] && Leq(s[0], x)
  {
    hide Leq;
    var i :| 0 <= i < |s| && s[i] == x;
    SelfLeq(x);
  }

  lemma {:induction false} SortedUnique(s: seq<Name>, t: seq<Name>)
    requires Sorted(s) && Sorted(t) && multiset(s) == multiset(t)
    ensures s == t
  {
    hide Leq, Sorted;
    assert |s| == |multiset(s)| == |multiset(t)| == |t|;
    if s != [] {
      SmallestFirst(s, t[0]);
      SmallestFirst(t, s[0]);
      LeqAntisymmetric(s[0], t[0]);
      TailMultiset(s);
      TailMultiset(t);
      TailSorted(s);
      TailSorted(t);
      SortedUnique(s[1..], t[1..]);
    }
  }

  lemma TailSorted(s: seq<Name>)
    requires Sorted(s) && s != []
    ensures Sorted(s[1..])
  {
    hide Leq;
  }

  lemma {:induction false} SelfLeq(a: Name)
    ensures Leq(a, a)
  {
    if a != [] { SelfLeq(a[1..]); }
  }

  /** Sorting forgets exactly the order. */
  lemma SortCanonical(s: seq<Name>, t: seq<Name>)
    ensures Sort(s) == Sort(t) <==> multiset(s) == multiset(t)
  {
    SortSorts(s);
    SortSorts(t);
    if multiset(s) == multiset(t) { SortedUnique(Sort(s), Sort(t)); }
  }

  // ---------------------------------------------------------------------------
  // Documents
  // ---------------------------------------------------------------------------

  datatype HashInput = HashInput(
    scene: Name,
    channel: Name,
    currency: Name,
    coupons: seq<Name>,
    items: seq<Line>,
    ledgerPay: I64,
    asset: Name,
    ext: Option<Name>)

  /** What of a line enters the hash: everything the buyer chose, nothing that is computed. */
  datatype ItemKey = ItemKey(id: Name, objectType: Name, objectId: Name, quantity: I64, unitPrice: I64,
      attributes: Name)

  datatype Document = Document(
    clientOrder: Option<Name>,
    quote: Option<Name>,
    scene: Name,
    channel: Name,
    currency: Option<Name>,
    coupons: seq<Name>,
    items: seq<ItemKey>,
    ledgerPay: I64,
    asset: Name,
    ext: Option<Name>)

  function KeyOf(l: Line): ItemKey { ItemKey(l.id, l.objectType, l.objectId, l.quantity, l.unitPrice, l.attributes) }
  function Keys(lines: seq<Line>): seq<ItemKey> { seq(|lines|, i requires 0 <= i < |lines| => KeyOf(lines[i])) }

  function ContextDoc(x: HashInput): Document {
    Document(None, None, x.scene, x.channel, Some(x.currency), Sort(x.coupons), Keys(x.items), x.ledgerPay, x.asset,
        x.ext)
  }

  function CheckoutDoc(clientOrder: Name, quote: Name, x: HashInput): Document {
    Document(Some(clientOrder), Some(quote), x.scene, x.channel, None, Sort(x.coupons), Keys(x.items), x.ledgerPay,
        x.asset, x.ext)
  }

  method ItemKeys(lines: seq<Line>) returns (items: seq<ItemKey>)
    ensures items == Keys(lines)
  {
    items := [];
    for i := 0 to |lines|
      invariant items == Keys(lines[..i])
    {
      assert Keys(lines[..i + 1]) == Keys(lines[..i]) + [KeyOf(lines[i])];
      items := items + [KeyOf(lines[i])];
    }
    assert lines[..|lines|] == lines;
  }

  method ContextHash(x: HashInput) returns (h: Document)
    ensures h == ContextDoc(x)
  {
    var items := ItemKeys(x.items);
    h := Document(None, None, x.scene, x.channel, Some(x.currency), Sort(x.coupons), items, x.ledgerPay, x.asset,
        x.ext);
  }

  method CheckoutHash(clientOrder: Name, quote: Name, x: HashInput) returns (h: Document)
    ensures h == CheckoutDoc(clientOrder, quote, x)
  {
    var items := ItemKeys(x.items);
    h := Document(Some(clientOrder), Some(quote), x.scene, x.channel, None, Sort(x.coupons), items, x.ledgerPay,
        x.asset, x.ext);
  }

  predicate SameKeys(a: seq<Line>, b: seq<Line>) {
    |a| == |b| && forall i :: 0 <= i < |a| ==> KeyOf(a[i]) == KeyOf(b[i])
  }

  lemma KeysEqual(a: seq<Line>, b: seq<Line>)
    ensures Keys(a) == Keys(b) <==> SameKeys(a, b)
  {
    if Keys(a) == Keys(b) {
      forall i | 0 <= i < |a| ensures KeyOf(a[i]) == KeyOf(b[i]) {
        assert Keys(a)[i] == Keys(b)[i];
      }
    }
  }

  /** Two contexts hash alike exactly when they agree on everything but coupon order and computed amounts. */
  lemma ContextsAgree(x: HashInput, y: HashInput)
    ensures ContextDoc(x) == ContextDoc(y) <==>
              && x.scene == y.scene && x.channel == y.channel && x.currency == y.currency
              && multiset(x.coupons) == multiset(y.coupons) && SameKeys(x.items, y.items)
              && x.ledgerPay == y.ledgerPay && x.asset == y.asset && x.ext == y.ext
  {
    SortCanonical(x.coupons, y.coupons);
    KeysEqual(x.items, y.items);
  }

  /**
   * Two checkout requests hash alike exactly when they also name the same client order and quote; the currency
   * does not enter.
   */
  lemma CheckoutsAgree(client: Name, quote: Name, x: HashInput, client': Name, quote': Name, y: HashInput)
    ensures CheckoutDoc(client, quote, x) == CheckoutDoc(client', quote', y) <==>
              && client == client' && quote == quote'
              && x.scene == y.scene && x.channel == y.channel
              && multiset(x.coupons) == multiset(y.coupons) && SameKeys(x.items, y.items)
              && x.ledgerPay == y.ledgerPay && x.asset == y.asset && x.ext == y.ext
  {
    SortCanonical(x.coupons, y.coupons);
    KeysEqual(x.items, y.items);
  }
}

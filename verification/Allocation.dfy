/** Spreading an order discount over its lines, the remainder going to the last line. */
module Allocation {
  import opened Base
  import opened Int64
  import opened Arith
  import opened Amounts

  /** A line without an original amount gets its price first. */
  function Fill(l: Line): Result<Line> {
    if l.original != 0 then Ok(l)
    else
      match LineOriginal(l.unitPrice, l.quantity)
      case Ok(v) => Ok(l.(original := v))
      case Err(e) => Err(e)
  }

  /** The lines with their originals filled in, and the checked sum of the originals. */
  function FillAll(lines: seq<Line>): Result<(seq<Line>, I64)> {
    if lines == [] then Ok(([], 0))
    else
      match FillAll(lines[..|lines| - 1])
      case Err(e) => Err(e)
      case Ok((done, sum)) =>
        match Fill(lines[|lines| - 1])
        case Err(e) => Err(e)
        case Ok(l) =>
          match Add(sum, l.original)
          case Err(e) => Err(e)
          case Ok(total) => Ok((done + [l], total))
  }

  function Share(l: Line, total: I64, original: I64): I64
    requires original != 0
  {
    MulDiv(l.original, total, original)
  }

  /** The running total handed out to the first `n` lines. */
  function Handed(lines: seq<Line>, n: nat, total: I64, original: I64): I64
    requires n <= |lines| && original != 0
  {
    if n == 0 then 0 else Wrap(Handed(lines, n - 1, total, original) + Share(lines[n - 1], total, original))
  }

  function LineDiscount(lines: seq<Line>, i: nat, total: I64, original: I64): I64
    requires i < |lines|
  {
    if original == 0 then 0
    else if i == |lines| - 1 then Wrap(total - Handed(lines, i, total, original))
    else Share(lines[i], total, original)
  }

  function Discounted(l: Line, d: I64, original: I64): Line {
    l.(discount := d, payable := if original == 0 then 0 else Wrap(l.original - d))
  }

  /** What the allocation leaves in the lines. */
  function Allocated(lines: seq<Line>, total: I64, original: I64): (r: seq<Line>)
    ensures |r| == |lines|
  {
    seq(|lines|, i requires 0 <= i < |lines| => Discounted(lines[i], LineDiscount(lines, i, total, original), original))
  }

  method AllocateDiscount(lines: array<Line>, total: I64) returns (err: Option<Error>)
    modifies lines
    ensures err.None? <==> var f := FillAll(old(lines[..])); total >= 0 && f.Ok? && total <= f.value.1
    ensures err.None? ==> var f := FillAll(old(lines[..])); lines[..] == Allocated(f.value.0, total, f.value.1)
    ensures err.Some? ==> forall i :: 0 <= i < lines.Length ==>
      lines[i] == old(lines[i]) || Fill(old(lines[i])) == Ok(lines[i])
  {
    if total < 0 {
      return Some(InvalidArgument);
    }
    var filled := FillLines(lines);
    if filled.Err? {
      return Some(filled.error);
    }
    var original := filled.value;
    if total > original {
      return Some(AmountInvariant);
    }
    if original == 0 {
      ClearLines(lines, total);
    } else {
      SpreadLines(lines, total, original);
    }
    return None;
  }

  /** First pass: price the lines that have no original yet and add the originals up. */
  method FillLines(lines: array<Line>) returns (r: Result<I64>)
    modifies lines
    ensures r.Ok? <==> FillAll(old(lines[..])).Ok?
    ensures r.Ok? ==> FillAll(old(lines[..])) == Ok((lines[..], r.value))
    ensures forall i :: 0 <= i < lines.Length ==> lines[i] == old(lines[i]) || Fill(old(lines[i])) == Ok(lines[i])
  {
    hide Fill, Add;
    ghost var was := lines[..];
    var original: I64 := 0;
    var i := 0;
    while i < lines.Length
      invariant 0 <= i <= lines.Length
      invariant forall k :: i <= k < lines.Length ==> lines[k] == was[k]
      invariant forall k :: 0 <= k < i ==> Fill(was[k]) == Ok(lines[k])
      invariant FillAll(was[..i]) == Ok((lines[..i], original))
    {
      assert was[..i + 1][..i] == was[..i];
      ghost var before := lines[..i];
      var l := Fill(lines[i]);
      if l.Err? {
        FillAllFails(was, i + 1);
        return Err(l.error);
      }
      lines[i] := l.value;
      var sum := Add(original, l.value.original);
      if sum.Err? {
        FillAllFails(was, i + 1);
        return Err(sum.error);
      }
      original := sum.value;
      i := i + 1;
      assert lines[..i] == before + [l.value];
    }
    assert was[..i] == was && lines[..i] == lines[..];
    return Ok(original);
  }

  /** A free order: every line discount and payable is zero. */
  method ClearLines(lines: array<Line>, ghost total: I64)
    modifies lines
    ensures lines[..] == Allocated(old(lines[..]), total, 0)
  {
    ghost var was := lines[..];
    var i := 0;
    while i < lines.Length
      invariant 0 <= i <= lines.Length
      invariant forall k :: i <= k < lines.Length ==> lines[k] == was[k]
      invariant forall k :: 0 <= k < i ==> lines[k] == was[k].(discount := 0, payable := 0)
    {
      lines[i] := lines[i].(discount := 0, payable := 0);
      i := i + 1;
    }
  }

  /** Second pass: floor shares, the remainder on the last line. */
  method SpreadLines(lines: array<Line>, total: I64, original: I64)
    requires original != 0
    modifies lines
    ensures lines[..] == Allocated(old(lines[..]), total, original)
  {
    hide MulDiv, Discounted;
    ghost var was := lines[..];
    var handed: I64 := 0;
    var last := lines.Length - 1;
    var i := 0;
    while i < lines.Length
      invariant 0 <= i <= lines.Length
      invariant forall k :: i <= k < lines.Length ==> lines[k] == was[k]
      invariant forall k :: 0 <= k < i ==>
        lines[k] == Discounted(was[k], LineDiscount(was, k, total, original), original)
      invariant i <= last ==> handed == Handed(was, i, total, original)
    {
      var d: I64;
      if i == last {
        d := Wrap(total - handed);
      } else {
        d := Share(lines[i], total, original);
        handed := Wrap(handed + d);
      }
      lines[i] := Discounted(lines[i], d, original);
      i := i + 1;
    }
  }

  /** A prefix that cannot be filled spoils the whole. */
  lemma {:induction false} FillAllFails(lines: seq<Line>, i: nat)
    requires i <= |lines| && FillAll(lines[..i]).Err?
    ensures FillAll(lines).Err?
    decreases |lines| - i
  {
    if i == |lines| {
      assert lines[..i] == lines;
    } else {
      assert lines[..i + 1][..i] == lines[..i];
      FillAllFails(lines, i + 1);
    }
  }

  // ---------------------------------------------------------------------------
  // What the allocation guarantees on priced lines
  // ---------------------------------------------------------------------------

  function SumOriginals(lines: seq<Line>): int {
    if lines == [] then 0 else SumOriginals(lines[..|lines| - 1]) + lines[|lines| - 1].original
  }

  function SumDiscounts(lines: seq<Line>): int {
    if lines == [] then 0 else SumDiscounts(lines[..|lines| - 1]) + lines[|lines| - 1].discount
  }

  function SumPayables(lines: seq<Line>): int {
    if lines == [] then 0 else SumPayables(lines[..|lines| - 1]) + lines[|lines| - 1].payable
  }

  /** Lines as SumOriginal leaves them. */
  predicate PricedLine(l: Line) {
    0 <= l.unitPrice && 0 < l.quantity && l.original == l.unitPrice * l.quantity && 0 <= l.original
  }

  predicate PricedLines(lines: seq<Line>) {
    forall i :: 0 <= i < |lines| ==> PricedLine(lines[i])
  }

  /** On priced lines the filling pass changes nothing and finds the true total. */
  lemma {:induction false} FillKeepsPriced(lines: seq<Line>)
    requires PricedLines(lines) && SumOriginals(lines) <= MAX
    ensures 0 <= SumOriginals(lines)
    ensures FillAll(lines) == Ok((lines, SumOriginals(lines)))
  {
    if lines != [] {
      var n := |lines| - 1;
      var l := lines[n];
      assert PricedLine(l);
      FillKeepsPriced(lines[..n]);
      LineOriginalExact(l.unitPrice, l.quantity);
      AddExact(SumOriginals(lines[..n]), l.original);
      assert lines == lines[..n] + [l];
    }
  }

  /** A line keeps the original it has and gets the true product of price and quantity where it has none. */
  predicate FilledAs(l: Line, d: Line) {
    if l.original != 0 then d == l
    else
      && 0 <= l.unitPrice && 0 < l.quantity && Fits(l.unitPrice * l.quantity)
      && d == l.(original := l.unitPrice * l.quantity)
  }

  /** The filling pass prices every line that has no original, touches no other, and adds up truly. */
  lemma {:induction false} FillPrices(lines: seq<Line>)
    requires FillAll(lines).Ok?
    ensures var (done, sum) := FillAll(lines).value;
            && |done| == |lines| && sum == SumOriginals(done)
            && forall i :: 0 <= i < |lines| ==> FilledAs(lines[i], done[i])
  {
    hide LineOriginal, Add;
    if lines != [] {
      var n := |lines| - 1;
      FillPrices(lines[..n]);
      var (front, sum) := FillAll(lines[..n]).value;
      FillExact(lines[n]);
      AddExact(sum, Fill(lines[n]).value.original);
      assert (front + [Fill(lines[n]).value])[..n] == front;
    }
  }

  lemma FillExact(l: Line)
    requires Fill(l).Ok?
    ensures FilledAs(l, Fill(l).value)
  {
    if 0 <= l.unitPrice && 0 < l.quantity { LineOriginalExact(l.unitPrice, l.quantity); }
  }

  predicate NonNegativeLines(lines: seq<Line>) {
    forall i :: 0 <= i < |lines| ==> 0 <= lines[i].original
  }

  /** The products formed for the lines before the last one stay within int64. */
  predicate ProductsFit(lines: seq<Line>, total: I64) {
    forall i :: 0 <= i < |lines| - 1 ==> Fits(lines[i].original * total)
  }

  /** A line before the last gets its floor share exactly when its product fits. */
  lemma ShareIsFloorIffFits(l: Line, total: I64, original: I64)
    requires 0 <= l.original && 0 <= total && 0 < original
    ensures Share(l, total, original) == l.original * total / original <==> Fits(l.original * total)
  {
    MulDivExact(l.original, total, original);
  }

  lemma ShareBounds(l: Line, total: I64, original: I64)
    requires 0 <= l.original && 0 <= total <= original && 0 < original && Fits(l.original * total)
    ensures 0 <= Share(l, total, original) <= l.original
    ensures l.original * total - (original - 1) <= Share(l, total, original) * original <= l.original * total
  {
    MulDivExact(l.original, total, original);
    Euclid(l.original * total, original);
    MulMono(total, original, l.original);
    var s := Share(l, total, original);
    if s > l.original {
      MulMono(l.original + 1, s, original);
      Distribute(l.original, 1, original);
    }
  }

  /** The accumulator lags the proportional amount by less than one unit per line. */
  lemma {:induction false} HandedBounds(lines: seq<Line>, n: nat, total: I64, original: I64)
    requires n < |lines| && NonNegativeLines(lines) && ProductsFit(lines, total)
    requires 0 <= total <= original && 0 < original && SumOriginals(lines[..n]) <= original
    ensures 0 <= SumOriginals(lines[..n])
    ensures 0 <= Handed(lines, n, total, original) <= total
    ensures SumOriginals(lines[..n]) * total - n * (original - 1)
            <= Handed(lines, n, total, original) * original
            <= SumOriginals(lines[..n]) * total
    ensures n > 0 ==> Handed(lines, n, total, original)
                      == Handed(lines, n - 1, total, original) + Share(lines[n - 1], total, original)
  {
    hide Share;
    if n > 0 {
      var l := lines[n - 1];
      assert lines[..n][..n - 1] == lines[..n - 1];
      HandedBounds(lines, n - 1, total, original);
      assert Fits(l.original * total);
      ShareBounds(l, total, original);
      HandedStep(Handed(lines, n - 1, total, original), Share(l, total, original),
                 SumOriginals(lines[..n - 1]), l.original, total, original, n);
    }
  }

  /** One more floor share keeps the accumulator within its bounds. */
  lemma HandedStep(h: int, s: int, sum: int, o: int, total: int, original: int, n: nat)
    requires n > 0 && 0 < original && 0 <= total && sum + o <= original
    requires sum * total - (n - 1) * (original - 1) <= h * original <= sum * total
    requires o * total - (original - 1) <= s * original <= o * total
    ensures (sum + o) * total - n * (original - 1) <= (h + s) * original <= (sum + o) * total
    ensures h + s <= total
  {
    Distribute(h, s, original);
    Distribute(sum, o, total);
    Distribute(n - 1, 1, original - 1);
    MulMono(sum + o, original, total);
    Distribute(total, 1, original);
    MulCancel(h + s, total + 1, original);
  }

  lemma ShareWithin(lines: seq<Line>, i: nat, total: I64, original: I64)
    requires i < |lines| - 1 && NonNegativeLines(lines) && ProductsFit(lines, total)
    requires 0 <= total <= original && 0 < original
    ensures 0 <= Share(lines[i], total, original) <= lines[i].original
  {
    assert Fits(lines[i].original * total);
    ShareBounds(lines[i], total, original);
  }

  lemma HandedWithin(lines: seq<Line>, n: nat, total: I64, original: I64)
    requires n < |lines| && NonNegativeLines(lines) && ProductsFit(lines, total)
    requires 0 <= total <= original && 0 < original && SumOriginals(lines[..n]) <= original
    ensures 0 <= Handed(lines, n, total, original) <= total
    ensures n > 0 ==> Handed(lines, n, total, original)
                      == Handed(lines, n - 1, total, original) + Share(lines[n - 1], total, original)
  {
    HandedBounds(lines, n, total, original);
  }

  /** Sums over the allocated prefix, line by line. */
  lemma {:induction false} PrefixSums(lines: seq<Line>, n: nat, total: I64, original: I64)
    requires n < |lines| && NonNegativeLines(lines) && ProductsFit(lines, total)
    requires 0 <= total <= original && 0 < original && SumOriginals(lines[..n]) <= original
    ensures var a := Allocated(lines, total, original);
            && SumDiscounts(a[..n]) == Handed(lines, n, total, original)
            && SumPayables(a[..n]) == SumOriginals(lines[..n]) - Handed(lines, n, total, original)
  {
    hide MulDiv, ProductsFit;
    if n > 0 {
      var a := Allocated(lines, total, original);
      var l := lines[n - 1];
      assert lines[..n][..n - 1] == lines[..n - 1] && a[..n][..n - 1] == a[..n - 1];
      HandedWithin(lines, n, total, original);
      PrefixSums(lines, n - 1, total, original);
      ShareWithin(lines, n - 1, total, original);
    }
  }

  /** The last line's share lies between 0 and its original plus one unit per earlier line but one. */
  lemma LastDiscountBounds(lines: seq<Line>, total: I64)
    requires |lines| >= 2 && NonNegativeLines(lines) && ProductsFit(lines, total)
    requires 0 <= total <= SumOriginals(lines) <= MAX && 0 < SumOriginals(lines)
    ensures var n := |lines|;
            var d := total - Handed(lines, n - 1, total, SumOriginals(lines));
            0 <= d <= lines[n - 1].original + (n - 2)
  {
    hide Handed, NonNegativeLines, ProductsFit;
    var n, original := |lines|, SumOriginals(lines);
    var h, sum, last := Handed(lines, n - 1, total, original), SumOriginals(lines[..n - 1]), lines[n - 1].original;
    assert original == sum + last;
    assert 0 <= last by { LastNonNegative(lines); }
    HandedBounds(lines, n - 1, total, original);
    LastShare(total, h, original, sum, last, n);
  }

  lemma LastNonNegative(lines: seq<Line>)
    requires lines != [] && NonNegativeLines(lines)
    ensures 0 <= lines[|lines| - 1].original
  {
  }

  lemma LastShare(total: int, h: int, original: int, sum: int, last: int, n: nat)
    requires n >= 2 && 0 <= total <= original == sum + last && 0 < original && 0 <= last
    requires sum * total - (n - 1) * (original - 1) <= h * original
    ensures total - h <= last + (n - 2)
  {
    var d := total - h;
    Distribute(total, h, original);
    Distribute(original, sum, total);
    assert d * original <= last * total + (n - 1) * (original - 1);
    MulMono(total, original, last);
    Distribute(original, 1, n - 1);
    Distribute(last, n - 1, original);
    assert d * original < (last + (n - 1)) * original;
    MulCancel(d, last + (n - 1), original);
  }

  /**
   * Whatever the rounding, the discounts add up to the order discount and the payables to the
   * order payable; lines before the last stay within their original; the last one can go past
   * its original by at most the number of other lines minus one.
   */
  ghost predicate Lawful(lines: seq<Line>, total: I64, a: seq<Line>)
    requires lines != [] && |a| == |lines|
  {
    var n := |lines|;
    && SumDiscounts(a) == total
    && SumPayables(a) == SumOriginals(lines) - total
    && (forall i :: 0 <= i < n - 1 ==> 0 <= a[i].discount <= lines[i].original)
    && (forall i :: 0 <= i < n ==> a[i].payable == a[i].original - a[i].discount)
    && 0 <= a[n - 1].discount <= lines[n - 1].original + (if n >= 2 then n - 2 else 0)
  }

  /** The allocation law holds for every discount up to the original total. */
  lemma AllocationLaw(lines: seq<Line>, total: I64)
    requires lines != [] && NonNegativeLines(lines) && ProductsFit(lines, total)
    requires 0 <= total <= SumOriginals(lines) <= MAX
    ensures Lawful(lines, total, Allocated(lines, total, SumOriginals(lines)))
  {
    hide Allocated, Handed, SumOriginals, SumDiscounts, SumPayables, NonNegativeLines, ProductsFit;
    if SumOriginals(lines) == 0 {
      FreeLaw(lines);
    } else {
      SpreadSums(lines, total, SumOriginals(lines));
      SpreadWithin(lines, total, SumOriginals(lines));
    }
  }

  lemma FreeLaw(lines: seq<Line>)
    requires lines != [] && NonNegativeLines(lines) && SumOriginals(lines) == 0
    ensures Lawful(lines, 0, Allocated(lines, 0, 0))
  {
    var n := |lines|;
    assert lines[..n] == lines;
    AllZero(lines, 0, n);
    assert Allocated(lines, 0, 0)[..n] == Allocated(lines, 0, 0);
  }

  lemma SpreadSums(lines: seq<Line>, total: I64, original: I64)
    requires lines != [] && NonNegativeLines(lines) && ProductsFit(lines, total)
    requires 0 <= total <= original == SumOriginals(lines) && 0 < original
    ensures var a := Allocated(lines, total, original);
            && SumDiscounts(a) == total
            && SumPayables(a) == original - total
            && a[|lines| - 1].discount == total - Handed(lines, |lines| - 1, total, original)
            && a[|lines| - 1].payable == a[|lines| - 1].original - a[|lines| - 1].discount
  {
    hide Handed, ProductsFit, LineDiscount;
    var n := |lines|;
    var a := Allocated(lines, total, original);
    NonNegative(lines, n - 1);
    LastNonNegative(lines);
    PrefixSums(lines, n - 1, total, original);
    LastLine(lines, total, original);
  }

  lemma LastLine(lines: seq<Line>, total: I64, original: I64)
    requires lines != [] && NonNegativeLines(lines) && ProductsFit(lines, total)
    requires 0 <= total <= original == SumOriginals(lines) && 0 < original
    ensures var l, d := Allocated(lines, total, original)[|lines| - 1],
            total - Handed(lines, |lines| - 1, total, original);
            l.discount == d && l.payable == l.original - d && l.original == lines[|lines| - 1].original
  {
    hide Handed, ProductsFit, SumOriginals;
    var n := |lines|;
    assert SumOriginals(lines[..n - 1]) <= original by { FrontSum(lines); }
    HandedWithin(lines, n - 1, total, original);
    LastNonNegative(lines);
  }

  lemma FrontSum(lines: seq<Line>)
    requires lines != [] && NonNegativeLines(lines)
    ensures SumOriginals(lines[..|lines| - 1]) <= SumOriginals(lines)
  {
    LastNonNegative(lines);
  }

  lemma SpreadWithin(lines: seq<Line>, total: I64, original: I64)
    requires lines != [] && NonNegativeLines(lines) && ProductsFit(lines, total)
    requires 0 <= total <= original == SumOriginals(lines) && 0 < original
    ensures var a := Allocated(lines, total, original);
            var n := |lines|;
            && (forall i :: 0 <= i < n - 1 ==> 0 <= a[i].discount <= lines[i].original)
            && (forall i :: 0 <= i < n - 1 ==> a[i].payable == a[i].original - a[i].discount)
            && 0 <= total - Handed(lines, n - 1, total, original)
                 <= lines[n - 1].original + (if n >= 2 then n - 2 else 0)
  {
    var n := |lines|;
    var a := Allocated(lines, total, original);
    if n >= 2 {
      LastDiscountBounds(lines, total);
    } else {
      assert lines[..0] == [];
    }
    forall i | 0 <= i < n - 1
      ensures 0 <= a[i].discount <= lines[i].original
      ensures a[i].payable == a[i].original - a[i].discount
    {
      ShareWithin(lines, i, total, original);
    }
  }

  /** A free order has nothing to allocate. */
  lemma {:induction false} AllZero(lines: seq<Line>, total: I64, n: nat)
    requires n <= |lines| && NonNegativeLines(lines) && SumOriginals(lines[..n]) == 0
    ensures SumDiscounts(Allocated(lines, total, 0)[..n]) == SumPayables(Allocated(lines, total, 0)[..n]) == 0
    ensures forall i :: 0 <= i < n ==> lines[i].original == 0
  {
    if n > 0 {
      var a := Allocated(lines, total, 0);
      assert lines[..n][..n - 1] == lines[..n - 1] && a[..n][..n - 1] == a[..n - 1];
      NonNegative(lines, n - 1);
      AllZero(lines, total, n - 1);
    }
  }

  lemma {:induction false} NonNegative(lines: seq<Line>, n: nat)
    requires n <= |lines| && NonNegativeLines(lines)
    ensures 0 <= SumOriginals(lines[..n])
  {
    if n > 0 {
      assert lines[..n][..n - 1] == lines[..n - 1];
      NonNegative(lines, n - 1);
    }
  }

  // ---------------------------------------------------------------------------
  // The bound on the last line is sharp for every number of lines
  // ---------------------------------------------------------------------------

  /** n - 1 lines of one unit each, then a free line. */
  function SharpLines(n: nat): (lines: seq<Line>)
    requires n >= 2
    ensures |lines| == n
  {
    seq(n, i => if i < n - 1 then Line("", "", "", "", 1, 1, 1, 0, 0) else Line("", "", "", "", 1, 0, 0, 0, 0))
  }

  lemma {:induction false} SharpPrefix(n: nat, k: nat)
    requires 2 <= n <= MAX && k < n
    ensures SumOriginals(SharpLines(n)[..k]) == k
    ensures Handed(SharpLines(n), k, n - 2, n - 1) == 0
  {
    hide Share;
    if k > 0 {
      SharpPrefix(n, k - 1);
      var lines := SharpLines(n);
      assert lines[..k][..k - 1] == lines[..k - 1] && lines[k - 1].original == 1;
      UnitShare(lines[k - 1], n);
    }
  }

  /** A line of one unit gets nothing of a discount below the total. */
  lemma UnitShare(l: Line, n: nat)
    requires 2 <= n <= MAX && l.original == 1
    ensures Share(l, n - 2, n - 1) == 0
  {
    MulDivExact(1, n - 2, n - 1);
    FloorIs(n - 2, n - 1, 0);
  }

  /** For every n there are n lines whose last discount exceeds its original by exactly n - 2. */
  lemma LastBoundAttained(n: nat)
    requires 2 <= n <= MAX
    ensures var lines := SharpLines(n);
            && PricedLines(lines) && ProductsFit(lines, n - 2) && SumOriginals(lines) == n - 1
            && Allocated(lines, n - 2, n - 1)[n - 1].discount == lines[n - 1].original + (n - 2)
  {
    var lines := SharpLines(n);
    SharpPrefix(n, n - 1);
    assert lines[..n] == lines;
  }

  // ---------------------------------------------------------------------------
  // Products that wrap
  // ---------------------------------------------------------------------------

  /** A discount of everything, over two lines whose product wraps. */
  lemma WrappedShareUnlawful(lines: seq<Line>, total: I64)
    requires |lines| == 2 && NonNegativeLines(lines) && total == SumOriginals(lines) && !Fits(lines[0].original * total)
    ensures !Lawful(lines, total, Allocated(lines, total, total))
  {
    hide SumDiscounts, SumPayables, MulDiv, NonNegativeLines;
    var l := lines[0];
    TwoOriginals(lines);
    if total == 0 { MulNonNeg(l.original, 0); }
    ShareIsFloorIffFits(l, total, total);
    MulDivExact(l.original, total, total);
    FloorIs(l.original * total, total, l.original);
    TwoDiscounts(lines, total);
  }

  lemma TwoOriginals(lines: seq<Line>)
    requires |lines| == 2 && NonNegativeLines(lines)
    ensures SumOriginals(lines) == lines[0].original + lines[1].original && 0 <= lines[0].original
    ensures 0 <= lines[1].original
  {
    assert lines[..1][..0] == [];
    assert SumOriginals(lines[..1]) == lines[0].original;
  }

  lemma TwoDiscounts(lines: seq<Line>, total: I64)
    requires |lines| == 2 && total != 0
    ensures var a, share := Allocated(lines, total, total), Share(lines[0], total, total);
            a[0].discount == share && a[1].discount == Wrap(total - share)
  {
    hide MulDiv;
    assert Handed(lines, 0, total, total) == 0;
  }

  /**
   * Over two lines the allocation law holds for every discount if and only if the first line's largest product
   * fits int64.
   */
  lemma TwoLinesLawfulIff(lines: seq<Line>)
    requires |lines| == 2 && NonNegativeLines(lines) && SumOriginals(lines) <= MAX
    ensures (forall total: I64 :: 0 <= total <= SumOriginals(lines) ==>
               Lawful(lines, total, Allocated(lines, total, SumOriginals(lines))))
            <==> Fits(lines[0].original * SumOriginals(lines))
  {
    hide Lawful, Allocated, SumOriginals, NonNegativeLines;
    TwoOriginals(lines);
    var sum: I64 := SumOriginals(lines);
    if Fits(lines[0].original * sum) {
      forall total: I64 | 0 <= total <= sum ensures Lawful(lines, total, Allocated(lines, total, sum)) {
        MulMono(total, sum, lines[0].original);
        MulNonNeg(lines[0].original, total);
        AllocationLaw(lines, total);
      }
    } else {
      WrappedShareUnlawful(lines, sum);
    }
  }
}

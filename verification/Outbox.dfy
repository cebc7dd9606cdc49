/**
 * The outbox of the in-memory repository and the worker that drains it. The rows live in an array
 * that the in-place filter rewrites; a listing of more rows than the limit is a window into that
 * same array, a shorter one is a copy.
 */
module Outbox {
  import opened Base

  type EventId = nat

  /** A row; `payload` stands for the event itself. */
  datatype Row = Row(id: EventId, payload: Name)

  const LIMIT: nat := 200

  function Without(rows: seq<Row>, id: EventId): seq<Row> {
    if rows == [] then []
    else Without(rows[..|rows| - 1], id) + (if rows[|rows| - 1].id == id then [] else [rows[|rows| - 1]])
  }

  lemma {:induction false} WithoutMembers(rows: seq<Row>, id: EventId)
    ensures forall e :: e in Without(rows, id) <==> e in rows && e.id != id
  {
    if rows != [] {
      WithoutMembers(rows[..|rows| - 1], id);
      assert rows == rows[..|rows| - 1] + [rows[|rows| - 1]];
    }
  }

  lemma {:induction false} WithoutStep(rows: seq<Row>, i: nat, id: EventId)
    requires i < |rows|
    ensures Without(rows[..i + 1], id) == Without(rows[..i], id) + (if rows[i].id == id then [] else [rows[i]])
  {
    assert rows[..i + 1][..i] == rows[..i];
  }

  /** Event ids are never reused. */
  predicate Distinct(rows: seq<Row>) {
    forall i, j :: 0 <= i < j < |rows| ==> rows[i].id != rows[j].id
  }

  function Flat(batches: seq<seq<Row>>): seq<Row> {
    if batches == [] then [] else batches[0] + Flat(batches[1..])
  }

  /** Removing the only row with its id. */
  lemma {:induction false} WithoutAt(rows: seq<Row>, k: nat)
    requires Distinct(rows) && k < |rows|
    ensures Without(rows, rows[k].id) == rows[..k] + rows[k + 1..]
  {
    hide Without;
    var n := |rows| - 1;
    assert rows[..n + 1] == rows;
    WithoutStep(rows, n, rows[k].id);
    if k < n {
      WithoutAt(rows[..n], k);
      assert rows[..n][..k] + rows[..n][k + 1..] + [rows[n]] == rows[..k] + rows[k + 1..];
    } else {
      WithoutNone(rows[..n], rows[k].id);
    }
  }

  lemma {:induction false} WithoutNone(rows: seq<Row>, id: EventId)
    requires forall i :: 0 <= i < |rows| ==> rows[i].id != id
    ensures Without(rows, id) == rows
  {
    if rows != [] {
      WithoutNone(rows[..|rows| - 1], id);
      assert rows == rows[..|rows| - 1] + [rows[|rows| - 1]];
    }
  }

  lemma {:induction false} WithoutDistinct(rows: seq<Row>, id: EventId)
    requires Distinct(rows)
    ensures Distinct(Without(rows, id))
  {
    if rows != [] {
      var front, e := rows[..|rows| - 1], rows[|rows| - 1];
      WithoutDistinct(front, id);
      WithoutMembers(front, id);
      forall i | 0 <= i < |Without(front, id)| ensures Without(front, id)[i].id != e.id {
        assert Without(front, id)[i] in front;
      }
    }
  }

  // ---------------------------------------------------------------------------
  // A pass in which some publish calls fail
  // ---------------------------------------------------------------------------

  /** The rows whose call succeeds, or those whose call fails. */
  function Chosen(rows: seq<Row>, delivered: seq<bool>, which: bool): seq<Row>
    requires |rows| <= |delivered|
  {
    if rows == [] then []
    else
      var n := |rows| - 1;
      Chosen(rows[..n], delivered, which) + (if delivered[n] == which then [rows[n]] else [])
  }

  lemma ChosenStep(rows: seq<Row>, delivered: seq<bool>, k: nat, which: bool)
    requires k < |rows| <= |delivered|
    ensures Chosen(rows[..k + 1], delivered, which)
            == Chosen(rows[..k], delivered, which) + (if delivered[k] == which then [rows[k]] else [])
  {
    assert rows[..k + 1][..k] == rows[..k];
  }

  /** Every row is chosen once, in order: behind as many as have been chosen before it. */
  lemma {:induction false} ChosenInOrder(rows: seq<Row>, delivered: seq<bool>)
    requires |rows| <= |delivered|
    ensures var sent, left := Chosen(rows, delivered, true), Chosen(rows, delivered, false);
            && |sent| == Count(delivered[..|rows|]) && |left| == |rows| - |sent|
            && (forall i :: 0 <= i < |rows| ==>
                  Count(delivered[..i]) <= i
                  && if delivered[i] then Count(delivered[..i]) < |sent| && sent[Count(delivered[..i])] == rows[i]
                     else i - Count(delivered[..i]) < |left| && left[i - Count(delivered[..i])] == rows[i])
  {
    hide Count;
    if rows == [] {
      NoCalls(delivered[..0]);
    } else {
      var n := |rows| - 1;
      ChosenInOrder(rows[..n], delivered);
      CountStep(delivered, n);
      forall i | 0 <= i < n ensures rows[..n][i] == rows[i] {}
    }
  }

  lemma {:induction false} FlatStep(batches: seq<seq<Row>>, k: nat)
    requires k < |batches|
    ensures Flat(batches[..k + 1]) == Flat(batches[..k]) + batches[k]
    decreases k
  {
    if k == 0 {
      assert batches[..1] == [batches[0]] && batches[..0] == [];
      assert Flat([batches[0]]) == batches[0] + Flat([batches[0]][1..]);
    } else {
      FlatStep(batches[1..], k - 1);
      assert batches[..k + 1][1..] == batches[1..][..k] && batches[..k][1..] == batches[1..][..k - 1];
    }
  }

  /** The outbox after `k` attempts on a copied batch: the failed rows, the rows not yet tried, what arrived. */
  function Waiting(rows: seq<Row>, delivered: seq<bool>, arrivals: seq<seq<Row>>, k: nat): seq<Row>
    requires k <= |rows| <= |delivered| == |arrivals|
  {
    Chosen(rows[..k], delivered, false) + rows[k..] + Flat(arrivals[..k])
  }

  lemma WaitingStep(rows: seq<Row>, delivered: seq<bool>, arrivals: seq<seq<Row>>, k: nat)
    requires k < |rows| <= |delivered| == |arrivals| && Distinct(Waiting(rows, delivered, arrivals, k))
    ensures var pending := Waiting(rows, delivered, arrivals, k);
            (if delivered[k] then Without(pending, rows[k].id) else pending) + arrivals[k]
            == Waiting(rows, delivered, arrivals, k + 1)
  {
    hide Distinct, Without, Flat, Chosen;
    var pending, kept := Waiting(rows, delivered, arrivals, k), Chosen(rows[..k], delivered, false);
    ChosenStep(rows, delivered, k, false);
    FlatStep(arrivals, k);
    assert pending[|kept|] == rows[k] && pending[..|kept|] == kept;
    assert pending[|kept| + 1..] == rows[k + 1..] + Flat(arrivals[..k]);
    if delivered[k] { WithoutAt(pending, |kept|); }
    assert rows[k..] == [rows[k]] + rows[k + 1..];
  }

  lemma NothingWaiting(rows: seq<Row>, delivered: seq<bool>, arrivals: seq<seq<Row>>)
    requires |rows| <= |delivered| == |arrivals|
    ensures Waiting(rows, delivered, arrivals, 0) == rows
    ensures Waiting(rows, delivered, arrivals, |rows|) == Chosen(rows, delivered, false) + Flat(arrivals[..|rows|])
  {
    hide Chosen, Flat;
    NoneChosen(delivered, false);
    assert rows[..0] == [] && rows[0..] == rows && arrivals[..0] == [];
    assert Flat(arrivals[..0]) == [] by { NoBatches(); }
    assert rows[..|rows|] == rows && rows[|rows|..] == [];
  }

  lemma NoBatches()
    ensures Flat([]) == []
  {
  }

  // ---------------------------------------------------------------------------
  // A pass in which all of them succeed
  // ---------------------------------------------------------------------------

  /** Every publish call succeeds and nobody appends meanwhile. */
  predicate Quiet(delivered: seq<bool>, arrivals: seq<seq<Row>>)
    requires |delivered| == |arrivals|
  {
    forall k :: 0 <= k < |delivered| ==> delivered[k] && arrivals[k] == []
  }

  /**
   * How many rows are left after `k` attempts that all succeed. A window runs into the rows the
   * filter left behind once half of them are gone, and then at most one more removal succeeds.
   */
  function LeftSize(n: nat, k: nat, window: bool): (size: nat)
    requires k <= n
    ensures size <= n
  {
    if window && k > (n + 1) / 2 then (n - 1) / 2 else n - k
  }

  /**
   * What is left then: a copy is worked off from the front, while in a window each removal shifts
   * the next row out of the worker's sight.
   */
  function Left(rows: seq<Row>, k: nat, window: bool): (r: seq<Row>)
    requires k <= |rows|
    ensures |r| == LeftSize(|rows|, k, window)
  {
    seq(LeftSize(|rows|, k, window), i requires 0 <= i < LeftSize(|rows|, k, window) =>
      if window && i < k && 2 * i + 1 < |rows| then rows[2 * i + 1] else rows[i + k])
  }

  /** Which row attempt `i` publishes: a window skips every other row, and past its end repeats the last one. */
  function SentAt(rows: seq<Row>, i: nat, window: bool): Row
    requires i < |rows|
  {
    if !window then rows[i] else if 2 * i < |rows| then rows[2 * i] else rows[|rows| - 1]
  }

  function Sent(rows: seq<Row>, k: nat, window: bool): (r: seq<Row>)
    requires k <= |rows|
    ensures |r| == k
  {
    seq(k, i requires 0 <= i < k => SentAt(rows, i, window))
  }

  /** A copied batch is published whole and in order, and leaves nothing. */
  lemma CopyDrains(rows: seq<Row>)
    ensures Sent(rows, |rows|, false) == rows && Left(rows, |rows|, false) == []
  {
  }

  /** Attempts that all succeed publish the oldest rows once each in order exactly when the batch is a copy. */
  lemma InOrderIffCopied(rows: seq<Row>, k: nat, window: bool)
    requires Distinct(rows) && 2 <= k <= |rows| && (window ==> k < |rows|)
    ensures Sent(rows, k, window) == rows[..k] <==> !window
    ensures window ==> Left(rows, k, window)[0] == rows[1] && Sent(rows, k, window)[1] == rows[2]
  {
    if window {
      assert Sent(rows, k, window)[1] == rows[2] && rows[..k][1] == rows[1];
      assert rows[1].id != rows[2].id;
    }
  }

  /** A window publishes some row twice exactly when the attempts run more than one past its middle. */
  lemma RepeatsIff(rows: seq<Row>, k: nat)
    requires Distinct(rows) && k < |rows|
    ensures (exists i, j :: 0 <= i < j < k && Sent(rows, k, true)[i] == Sent(rows, k, true)[j])
            <==> 3 <= |rows| <= 2 * k - 3
  {
    var sent := Sent(rows, k, true);
    if |rows| <= 2 * k - 3 {
      assert sent[k - 2] == rows[|rows| - 1] == sent[k - 1];
    } else {
      forall i, j | 0 <= i < j < k ensures sent[i] != sent[j] {
        assert sent[i] == rows[2 * i];
        assert sent[j] == rows[if 2 * j < |rows| then 2 * j else |rows| - 1];
      }
    }
  }

  /** How often the last row goes out: once per attempt from the middle on. */
  lemma {:induction false} LastRepeats(rows: seq<Row>, k: nat)
    requires Distinct(rows) && |rows| / 2 <= k <= |rows| && rows != []
    ensures multiset(Sent(rows, k, true))[rows[|rows| - 1]] == k - |rows| / 2
    decreases k
  {
    var last := rows[|rows| - 1];
    if k == |rows| / 2 {
      forall i | 0 <= i < k ensures Sent(rows, k, true)[i] != last {
        assert rows[2 * i].id != last.id;
      }
    } else {
      LastRepeats(rows, k - 1);
      assert SentAt(rows, k - 1, true) == last;
      assert Sent(rows, k, true) == Sent(rows, k - 1, true) + [last];
    }
  }

  lemma LeftDistinct(rows: seq<Row>, k: nat, window: bool)
    requires Distinct(rows) && k <= |rows|
    ensures Distinct(Left(rows, k, window))
  {
  }

  /** Each attempt removes the row it published, if that is still there. */
  lemma LeftStep(rows: seq<Row>, k: nat, window: bool)
    requires Distinct(rows) && k < |rows|
    ensures Without(Left(rows, k, window), SentAt(rows, k, window).id) == Left(rows, k + 1, window)
  {
    hide Distinct, Without;
    var left, n := Left(rows, k, window), |rows|;
    LeftDistinct(rows, k, window);
    if !window || 2 * k < n {
      RemoveAt(left, if window then k else 0, Left(rows, k + 1, window));
    } else if 2 * k == n {
      RemoveAt(left, k - 1, Left(rows, k + 1, window));
    } else {
      LastGone(rows, k);
      WithoutNone(left, rows[n - 1].id);
    }
  }

  lemma LastGone(rows: seq<Row>, k: nat)
    requires Distinct(rows) && |rows| < 2 * k <= 2 * |rows|
    ensures forall i :: 0 <= i < |Left(rows, k, true)| ==> Left(rows, k, true)[i].id != rows[|rows| - 1].id
  {
  }

  lemma RemoveAt(left: seq<Row>, at: nat, after: seq<Row>)
    requires Distinct(left) && at < |left| && |after| == |left| - 1
    requires forall i :: 0 <= i < |after| ==> after[i] == left[if i < at then i else i + 1]
    ensures Without(left, left[at].id) == after
  {
    hide Distinct, Without;
    WithoutAt(left, at);
    assert left[..at] + left[at + 1..] == after;
  }

  /** The cells the worker reads: a copy stays as it was; in a window the last row fills what the filter left behind. */
  predicate Cells(rows: seq<Row>, window: bool, pending: seq<Row>, cells: seq<Row>) {
    if window
    then
      && |pending| <= |rows| <= |cells|
      && cells[..|pending|] == pending
      && (forall j :: |pending| <= j < |rows| ==> cells[j] == rows[|rows| - 1])
    else cells == rows
  }

  /** After `k` successful attempts the outbox holds what is left and the log what was sent. */
  predicate OnTrack(rows: seq<Row>, log: seq<Row>, k: nat, window: bool, pending: seq<Row>, published: seq<Row>)
    requires k <= |rows|
  {
    pending == Left(rows, k, window) && published == log + Sent(rows, k, window)
  }

  lemma NothingYet(rows: seq<Row>, log: seq<Row>, window: bool, cells: seq<Row>)
    requires if window then rows <= cells else cells == rows
    ensures OnTrack(rows, log, 0, window, rows, log) && Cells(rows, window, rows, cells)
  {
  }

  lemma CellRead(rows: seq<Row>, k: nat, window: bool, cells: seq<Row>)
    requires k < |rows| && Cells(rows, window, Left(rows, k, window), cells)
    ensures k < |cells| && cells[k] == SentAt(rows, k, window)
  {
    var left := Left(rows, k, window);
    if window && k < |left| { assert cells[k] == cells[..|left|][k] == left[k]; }
  }

  /** While rows are being removed, the last of them is the last row. */
  lemma LastLeft(rows: seq<Row>, k: nat)
    requires k < |rows| && LeftSize(|rows|, k + 1, true) < LeftSize(|rows|, k, true)
    ensures LeftSize(|rows|, k, true) == LeftSize(|rows|, k + 1, true) + 1
    ensures Left(rows, k, true)[LeftSize(|rows|, k, true) - 1] == rows[|rows| - 1]
  {
  }

  /** The attempt leaves the cells behind the remaining rows alone, so they all hold the last row. */
  lemma CellsStep(rows: seq<Row>, k: nat, cells: seq<Row>, after: seq<Row>)
    requires k < |rows| && Cells(rows, true, Left(rows, k, true), cells)
    requires var left := Left(rows, k + 1, true);
             && |after| == |cells| && after[..|left|] == left
             && (forall j :: |left| <= j < |rows| ==> after[j] == cells[j])
    ensures Cells(rows, true, Left(rows, k + 1, true), after)
  {
    var n, was, now := |rows|, Left(rows, k, true), Left(rows, k + 1, true);
    hide Left;
    forall j | |now| <= j < n ensures after[j] == rows[n - 1] {
      if j < |was| {
        LastLeft(rows, k);
        assert cells[j] == cells[..|was|][j];
      }
    }
  }

  /** The attempt publishes the row in its cell, and stays on track. */
  lemma TrackStep(rows: seq<Row>, log: seq<Row>, k: nat, window: bool, pending: seq<Row>, published: seq<Row>,
                  cells: seq<Row>, after: seq<Row>)
    requires Distinct(rows) && k < |rows| && OnTrack(rows, log, k, window, pending, published)
    requires Cells(rows, window, pending, cells)
    requires k < |cells| && if window then Shifted(Without(pending, cells[k].id), cells, after) else after == cells
    ensures OnTrack(rows, log, k + 1, window, Without(pending, cells[k].id), published + [cells[k]])
    ensures Cells(rows, window, Without(pending, cells[k].id), after)
  {
    hide Distinct, Left, Without, Cells;
    CellRead(rows, k, window, cells);
    LeftStep(rows, k, window);
    assert Sent(rows, k + 1, window) == Sent(rows, k, window) + [cells[k]];
    assert log + Sent(rows, k + 1, window) == log + Sent(rows, k, window) + [cells[k]];
    if window {
      TrackCells(rows, k, pending, cells, after);
    } else {
      CopyCells(rows, pending, Without(pending, cells[k].id), cells);
    }
  }

  lemma CopyCells(rows: seq<Row>, pending: seq<Row>, later: seq<Row>, cells: seq<Row>)
    requires Cells(rows, false, pending, cells)
    ensures Cells(rows, false, later, cells)
  {
  }

  lemma TrackCells(rows: seq<Row>, k: nat, pending: seq<Row>, cells: seq<Row>, after: seq<Row>)
    requires k < |rows| && pending == Left(rows, k, true) && Cells(rows, true, pending, cells)
    requires Shifted(Left(rows, k + 1, true), cells, after)
    ensures Cells(rows, true, Left(rows, k + 1, true), after)
  {
    hide Left;
    CellsStep(rows, k, cells, after);
  }

  /** A whole pass publishes its batch in order exactly when the batch was a copy. */
  lemma QuietOutcome(rows: seq<Row>, log: seq<Row>, k: nat, window: bool, pending: seq<Row>, published: seq<Row>)
    requires Distinct(rows) && k <= |rows| && OnTrack(rows, log, k, window, pending, published)
    requires if window then k == LIMIT < |rows| else k == |rows|
    ensures published == log + rows[..k] <==> !window
  {
    var sent := Sent(rows, k, window);
    if window {
      InOrderIffCopied(rows, k, window);
      assert (log + sent)[|log|..] == sent && (log + rows[..k])[|log|..] == rows[..k];
    } else {
      CopyDrains(rows);
    }
  }

  lemma NoneChosen(delivered: seq<bool>, which: bool)
    ensures Chosen([], delivered, which) == []
  {
  }

  /** One more attempt sends its row if the call succeeds. */
  lemma TriedStep(tried: seq<Row>, row: Row, delivered: seq<bool>, log: seq<Row>, published: seq<Row>)
    requires |tried| < |delivered| && published == log + Chosen(tried, delivered, true)
    ensures published + (if delivered[|tried|] then [row] else [])
            == log + Chosen(tried + [row], delivered, true)
  {
    assert (tried + [row])[..|tried|] == tried;
  }

  /** The filter rewrites the cells of the kept rows and no others. */
  predicate Shifted(kept: seq<Row>, cells: seq<Row>, after: seq<Row>) {
    && |kept| <= |after| == |cells|
    && after[..|kept|] == kept
    && (forall j :: |kept| <= j < |cells| ==> after[j] == cells[j])
  }

  lemma QuietAt(delivered: seq<bool>, arrivals: seq<seq<Row>>, k: nat)
    requires |delivered| == |arrivals| && Quiet(delivered, arrivals) && k < |arrivals|
    ensures delivered[k] && arrivals[k] == []
  {
  }

  lemma NextArrivals(appended: seq<Row>, arrivals: seq<seq<Row>>, k: nat)
    requires k < |arrivals| && Distinct(appended + Flat(arrivals[k..]))
    ensures Flat(arrivals[k..]) == arrivals[k] + Flat(arrivals[k + 1..])
    ensures Distinct(appended + arrivals[k])
  {
    assert arrivals[k..][1..] == arrivals[k + 1..];
    var all := appended + Flat(arrivals[k..]);
    assert forall i :: 0 <= i < |appended + arrivals[k]| ==> (appended + arrivals[k])[i] == all[i];
  }

  /** Every one of these rows is still pending or was published. */
  predicate Covered(rows: seq<Row>, pending: seq<Row>, sent: seq<Row>) {
    forall e :: e in rows ==> e in pending || e in sent
  }

  /** Every row ever appended is pending or published, and nothing else is. */
  predicate Accounted(pending: seq<Row>, appended: seq<Row>, published: seq<Row>) {
    && Distinct(appended) && Distinct(pending)
    && Covered(pending, appended, [])
    && Covered(published, appended, [])
    && Covered(appended, pending, published)
  }

  lemma PublishAccounted(pending: seq<Row>, appended: seq<Row>, published: seq<Row>, row: Row)
    requires Accounted(pending, appended, published) && row in appended
    ensures Accounted(Without(pending, row.id), appended, published + [row])
    ensures Covered(pending, Without(pending, row.id), [row])
  {
    WithoutDistinct(pending, row.id);
    WithoutMembers(pending, row.id);
    assert forall e :: e in appended && e.id == row.id ==> e == row;
  }

  lemma PendingDistinct(pending: seq<Row>, appended: seq<Row>, published: seq<Row>)
    requires Accounted(pending, appended, published)
    ensures Distinct(pending)
  {
  }

  lemma PendingAppended(pending: seq<Row>, appended: seq<Row>, published: seq<Row>, i: nat)
    requires Accounted(pending, appended, published) && i < |pending|
    ensures pending[i] in appended
  {
  }

  lemma AppendAccounted(pending: seq<Row>, appended: seq<Row>, published: seq<Row>, e: Row)
    requires Accounted(pending, appended, published) && Distinct(appended + [e])
    ensures Accounted(pending + [e], appended + [e], published)
  {
    forall i | 0 <= i < |pending| ensures pending[i].id != e.id {
      assert pending[i] in appended;
      var p :| 0 <= p < |appended| && appended[p] == pending[i];
      assert (appended + [e])[p] == pending[i] && (appended + [e])[|appended|] == e;
    }
  }

  lemma DistinctPrefix(rows: seq<Row>, n: nat)
    requires Distinct(rows) && n <= |rows|
    ensures Distinct(rows[..n])
  {
  }

  lemma CoveredAtFirst(rows: seq<Row>)
    ensures Covered(rows, rows, [])
  {
  }

  lemma CoveredStep(rows: seq<Row>, pending: seq<Row>, later: seq<Row>, log: nat, sent: seq<Row>, more: seq<Row>)
    requires log <= |sent| && Covered(rows, pending, sent[log..]) && Covered(pending, later, more)
    ensures Covered(rows, later, (sent + more)[log..])
  {
    assert (sent + more)[log..] == sent[log..] + more;
  }

  class OutboxStore {
    var buf: array<Row>
    var len: nat
    /** Everything ever appended and everything ever published, in order. */
    ghost var appended: seq<Row>
    ghost var published: seq<Row>

    ghost function Pending(): seq<Row>
      reads this, buf
      requires len <= buf.Length
    {
      buf[..len]
    }

    ghost predicate Valid()
      reads this, buf
    {
      len <= buf.Length && Accounted(Pending(), appended, published)
    }

    constructor ()
      ensures Valid() && appended == [] && published == [] && Pending() == [] && fresh(buf)
    {
      buf := new Row[0];
      len, appended, published := 0, [], [];
    }

    /** Moves to a larger array. */
    method Grow(filler: Row)
      requires len <= buf.Length
      modifies `buf
      ensures fresh(buf) && len < buf.Length && Pending() == old(Pending())
    {
      var bigger := new Row[2 * len + 1](_ => filler);
      for i := 0 to len
        invariant len == old(len) && buf == old(buf) && bigger.Length == 2 * len + 1 && len <= buf.Length
        invariant bigger[..i] == buf[..i] && buf[..] == old(buf[..])
      {
        bigger[i] := buf[i];
      }
      buf := bigger;
    }

    /** Appends at the end, moving to a larger array when the old one is full. */
    method Append(e: Row)
      requires Valid() && Distinct(appended + [e])
      modifies this, buf
      ensures Valid() && appended == old(appended) + [e] && published == old(published)
      ensures Pending() == old(Pending()) + [e]
      ensures buf == old(buf) || fresh(buf)
      ensures forall i :: 0 <= i < old(buf.Length) && i != old(len) ==> old(buf)[i] == old(buf[i])
      ensures old(len) < old(buf.Length) ==> old(buf)[old(len)] == e
    {
      hide Accounted, Distinct;
      ghost var before := Pending();
      AppendAccounted(before, appended, published, e);
      if len == buf.Length {
        Grow(e);
      }
      buf[len] := e;
      len := len + 1;
      appended := appended + [e];
      assert Pending() == before + [e];
    }

    /** The first rows: a window into the array when there are more than `limit`, a copy otherwise. */
    method List(limit: nat) returns (rows: array<Row>, n: nat)
      requires Valid()
      ensures n == (if len > limit then limit else len) && n <= rows.Length
      ensures forall i :: 0 <= i < n ==> rows[i] in appended
      ensures rows[..n] == buf[..n]
      ensures if len > limit then rows == buf else fresh(rows) && rows.Length == n
    {
      if len > limit {
        return buf, limit;
      }
      n := len;
      rows := new Row[n](i requires 0 <= i < len && len <= buf.Length reads this, buf => buf[i]);
    }

    /** Removes the row by filtering the array into itself. */
    method MarkPublished(id: EventId)
      requires len <= buf.Length
      modifies `len, buf
      ensures len <= buf.Length && Pending() == Without(old(Pending()), id)
      ensures forall i :: len <= i < buf.Length ==> buf[i] == old(buf[i])
    {
      hide Without;
      ghost var before := Pending();
      WithoutNone(before[..0], id);
      var kept := 0;
      for i := 0 to len
        invariant kept <= i && len == old(len)
        invariant buf[..kept] == Without(before[..i], id)
        invariant forall k :: kept <= k < buf.Length ==> buf[k] == old(buf[k])
      {
        WithoutStep(before, i, id);
        if buf[i].id != id {
          buf[kept] := buf[i];
          kept := kept + 1;
        }
      }
      assert before[..len] == before;
      len := kept;
    }

    /** Publishes the row that stands at position `k` of the batch right now, and removes it from the outbox. */
    method Deliver(rows: array<Row>, k: nat, ghost size: nat)
      requires Valid() && k < size <= rows.Length && forall i :: 0 <= i < size ==> rows[i] in appended
      modifies `len, `published, buf
      ensures Valid() && published == old(published) + [old(rows[k])]
      ensures Pending() == Without(old(Pending()), old(rows[k]).id)
      ensures Covered(old(Pending()), Pending(), [old(rows[k])])
      ensures forall i :: 0 <= i < size ==> rows[i] in appended
      ensures forall i :: len <= i < buf.Length ==> buf[i] == old(buf[i])
    {
      hide Accounted, Distinct, Covered, Without;
      var row := rows[k];
      ghost var all := rows[..size];
      PublishAccounted(Pending(), appended, published, row);
      published := published + [row];
      MarkPublished(row.id);
      forall i | 0 <= i < size ensures rows[i] in appended {
        if rows == buf && i < len {
          PendingAppended(Pending(), appended, published, i);
        } else {
          assert rows[i] == all[i];
        }
      }
    }

    /** Rows appended by other calls meanwhile. */
    method Arrive(more: seq<Row>, rows: array<Row>, ghost size: nat)
      requires Valid() && Distinct(appended + more)
      requires size <= rows.Length && forall i :: 0 <= i < size ==> rows[i] in appended
      modifies this, buf
      ensures Valid() && appended == old(appended) + more && published == old(published)
      ensures Pending() == old(Pending()) + more
      ensures buf == old(buf) || fresh(buf)
      ensures forall i :: 0 <= i < size ==> rows[i] in appended
      ensures more == [] ==> unchanged(rows)
    {
      hide Accounted, Distinct;
      for i := 0 to |more|
        invariant Valid() && appended == old(appended) + more[..i] && published == old(published)
        invariant Pending() == old(Pending()) + more[..i]
        invariant buf == old(buf) || fresh(buf)
        invariant forall k :: 0 <= k < size ==> rows[k] in appended
        invariant more == [] ==> unchanged(rows)
      {
        DistinctPrefix(old(appended) + more, |appended| + 1);
        assert (old(appended) + more)[..|appended| + 1] == appended + [more[i]];
        Append(more[i]);
      }
    }

    /** One attempt of the worker, and what arrives after it. */
    method Attempt(rows: array<Row>, k: nat, ghost size: nat, ok: bool, more: seq<Row>)
      requires Valid() && k < size <= rows.Length && (forall i :: 0 <= i < size ==> rows[i] in appended)
      requires Distinct(appended + more)
      modifies this, buf
      ensures Valid() && appended == old(appended) + more
      ensures published == old(published) + (if ok then [old(rows[k])] else [])
      ensures Pending() == (if ok then Without(old(Pending()), old(rows[k]).id) else old(Pending())) + more
      ensures more == [] && ok ==> Pending() == Without(old(Pending()), old(rows[k]).id)
      ensures Covered(old(Pending()), Pending(), if ok then [old(rows[k])] else [])
      ensures forall i :: 0 <= i < size ==> rows[i] in appended
      ensures buf == old(buf) || fresh(buf)
      ensures more == [] ==>
              buf == old(buf) && (rows != buf ==> rows[..] == old(rows[..]))
                && (rows == buf ==> Shifted(Pending(), old(rows[..]), rows[..]))
    {
      if ok {
        Deliver(rows, k, size);
      }
      if more != [] {
        Arrive(more, rows, size);
      }
    }

    /**
     * One pass of the worker. `delivered` says which publish calls succeed; `arrivals` are the rows
     * that other calls append after each attempt.
     */
    method Tick(delivered: seq<bool>, arrivals: seq<seq<Row>>) returns (n: nat, ghost tried: seq<Row>)
      requires Valid() && |delivered| == |arrivals| == LIMIT && Distinct(appended + Flat(arrivals))
      modifies this, buf
      ensures Valid() && old(published) <= published && old(appended) <= appended <= old(appended) + Flat(arrivals)
      ensures Covered(old(Pending()), Pending(), published[|old(published)|..])
      ensures |tried| == (if old(len) > LIMIT then LIMIT else old(len)) && n == Count(delivered[..|tried|])
      ensures published == old(published) + Chosen(tried, delivered, true) && |published| == |old(published)| + n
      ensures old(len) <= LIMIT ==>
                && tried == old(Pending())
                && Pending() == Chosen(tried, delivered, false) + Flat(arrivals[..|tried|])
      ensures var rows, window := old(Pending()), old(len) > LIMIT; var k := if window then LIMIT else |rows|;
              Quiet(delivered, arrivals) ==>
                && OnTrack(rows, old(published), k, window, Pending(), published)
                && (published == old(published) + rows[..k] <==> |rows| <= LIMIT)
    {
      hide Accounted, Distinct, Without, OnTrack, Quiet, Flat, Covered, Cells, Shifted, Count, Chosen, Waiting;
      var rows, size := List(LIMIT);
      n, tried := 0, [];
      NoCalls(delivered[..0]);
      NoneChosen(delivered, true);
      ghost var before, log, window, exact := Pending(), published, len > LIMIT, Quiet(delivered, arrivals);
      NothingYet(before, log, window, rows[..]);
      CoveredAtFirst(before);
      PendingDistinct(before, appended, published);
      assert published[|log|..] == [];
      if !window { NothingWaiting(before, delivered, arrivals); }
      for k := 0 to size
        invariant Valid() && size <= LIMIT && size <= rows.Length && size <= |before|
        invariant rows == old(buf) || fresh(rows)
        invariant buf == old(buf) || fresh(buf)
        invariant forall i :: 0 <= i < size ==> rows[i] in appended
        invariant log <= published && old(appended) <= appended
        invariant appended + Flat(arrivals[k..]) == old(appended) + Flat(arrivals)
        invariant Covered(before, Pending(), published[|log|..])
        invariant |tried| == k && n == Count(delivered[..k]) && published == log + Chosen(tried, delivered, true)
        invariant !window ==>
                    && size == |before| && rows != buf && rows[..] == before && tried == before[..k]
                    && Pending() == Waiting(before, delivered, arrivals, k)
        invariant exact ==> OnTrack(before, log, k, window, Pending(), published)
        invariant exact ==> if window then rows == buf else rows != buf
        invariant exact ==> Cells(before, window, Pending(), rows[..])
      {
        if exact { QuietAt(delivered, arrivals, k); }
        NextArrivals(appended, arrivals, k);
        ghost var pending, sent, row, cells := Pending(), published, rows[k], rows[..];
        if !window {
          PendingDistinct(pending, appended, published);
          WaitingStep(before, delivered, arrivals, k);
        }
        CountStep(delivered, k);
        TriedStep(tried, row, delivered, log, published);
        tried := tried + [row];
        Attempt(rows, k, size, delivered[k], arrivals[k]);
        CoveredStep(before, pending, Pending(), |log|, sent, if delivered[k] then [row] else []);
        assert row == cells[k];
        if exact { TrackStep(before, log, k, window, pending, sent, cells, rows[..]); }
        if delivered[k] {
          n := n + 1;
        }
      }
      ChosenInOrder(tried, delivered);
      if exact { QuietOutcome(before, log, size, window, Pending(), published); }
    }
  }
}

/**
 * Compensation tickets: the store's claim and update loops, the worker's pass and the operator's
 * retry over it, and how far each ticket's retry budget holds.
 */
module Tickets {
  import opened Base
  import opened Arith
  import opened SagaState

  /** Time is an integer count of nanoseconds. */
  const SECOND: int := 1_000_000_000
  const MAX_ATTEMPTS: int := 20
  const BATCH: nat := 50

  datatype Job = Job(id: nat, kind: TicketKind, status: TicketStatus, attempts: nat, next: Option<int>)

  // ---------------------------------------------------------------------------
  // Backoff
  // ---------------------------------------------------------------------------

  /** Seconds until the next attempt after `attempts` of them. */
  function Backoff(attempts: int): (sec: nat)
    ensures 1 <= sec <= 60
  {
    var n := if attempts < 1 then 1 else attempts;
    if n < 7 then assert Pow2(5) == 32; PowMonotone(n - 1, 5); Pow2(n - 1) else 60
  }

  lemma BackoffMonotone(a: int, b: int)
    requires a <= b
    ensures Backoff(a) <= Backoff(b)
  {
    var m, n := if a < 1 then 1 else a, if b < 1 then 1 else b;
    if n < 7 { PowMonotone(m - 1, n - 1); }
  }

  /** Seconds that must pass between the first and the n-th attempt. */
  function WaitBefore(n: nat): nat { if n <= 1 then 0 else WaitBefore(n - 1) + Backoff(n - 1) }

  lemma LastWait()
    ensures WaitBefore(20) == 843
  {
    assert WaitBefore(7) == 63;
    assert WaitBefore(13) == 63 + 6 * 60;
  }

  // ---------------------------------------------------------------------------
  // One ticket and the times at which it was claimed
  // ---------------------------------------------------------------------------

  predicate Spaced(claims: seq<int>) {
    forall k :: 0 < k < |claims| ==> claims[k] >= claims[k - 1] + Backoff(k) * SECOND
  }

  /** Budget of a ticket whose claims are known. */
  predicate Budgeted(j: Job, claims: seq<int>, clock: int) {
    && |claims| == j.attempts <= MAX_ATTEMPTS
    && Spaced(claims)
    && (claims != [] ==> claims[|claims| - 1] <= clock)
  }

  /** Between ticks: a pending ticket has attempts left and waits for its backoff. */
  predicate Resting(j: Job, claims: seq<int>, clock: int) {
    && Budgeted(j, claims, clock)
    && j.status != Running
    && (j.status == Pending ==>
          && j.attempts < MAX_ATTEMPTS
          && (j.attempts > 0 ==> j.next.Some? && j.next.value >= claims[|claims| - 1] + Backoff(j.attempts) * SECOND))
  }

  /** In the worker's hand. */
  predicate InHand(j: Job, claims: seq<int>, clock: int) {
    Budgeted(j, claims, clock) && j.status == Running && j.attempts > 0
  }

  predicate Claimable(j: Job, now: int) {
    (j.status == Pending || j.status == Running) && (j.next.Some? ==> j.next.value <= now)
  }

  function Claimed(j: Job): Job { j.(attempts := j.attempts + 1, status := Running) }

  lemma ClaimKeepsBudget(j: Job, claims: seq<int>, clock: int, now: int)
    requires Resting(j, claims, clock) && clock <= now && Claimable(j, now)
    ensures InHand(Claimed(j), claims + [now], now)
  {
    var c := claims + [now];
    forall k | 0 < k < |c| ensures c[k] >= c[k - 1] + Backoff(k) * SECOND {
      if k < |claims| { assert c[k] == claims[k] && c[k - 1] == claims[k - 1]; }
    }
  }

  /** The n-th claim comes at least the accumulated backoff after the first. */
  lemma {:induction false} ClaimsApart(claims: seq<int>, n: nat)
    requires Spaced(claims) && 0 < n <= |claims|
    ensures claims[n - 1] >= claims[0] + WaitBefore(n) * SECOND
  {
    if n > 1 { ClaimsApart(claims, n - 1); }
  }

  predicate Numbered(jobs: seq<Job>) { forall i :: 0 <= i < |jobs| ==> jobs[i].id == i + 1 }

  /** What a claim scan over these tickets hands out, in order. */
  function Picked(jobs: seq<Job>, now: int): seq<Job> {
    if jobs == [] then []
    else
      var j := jobs[|jobs| - 1];
      Picked(jobs[..|jobs| - 1], now) + (if Claimable(j, now) then [Claimed(j)] else [])
  }

  lemma {:induction false} PickedAt(jobs: seq<Job>, now: int, m: nat)
    requires m < |Picked(jobs, now)| && forall i :: 0 <= i < |jobs| ==> jobs[i].id == i + 1
    ensures var j := Picked(jobs, now)[m];
            && 1 <= j.id <= |jobs| && Claimable(jobs[j.id - 1], now) && j == Claimed(jobs[j.id - 1])
            && (m > 0 ==> Picked(jobs, now)[m - 1].id < j.id)
    decreases |jobs|
  {
    var front := jobs[..|jobs| - 1];
    if m < |Picked(front, now)| {
      PickedAt(front, now, m);
    } else if m > 0 {
      PickedAt(front, now, m - 1);
    }
  }

  lemma {:induction false} PickedHas(jobs: seq<Job>, now: int, i: nat)
    requires i < |jobs| && Claimable(jobs[i], now)
    ensures Claimed(jobs[i]) in Picked(jobs, now)
    decreases |jobs|
  {
    if i < |jobs| - 1 { PickedHas(jobs[..|jobs| - 1], now, i); }
  }

  lemma {:induction false} PickedApart(jobs: seq<Job>, now: int, m: nat, n: nat)
    requires m < n < |Picked(jobs, now)| && forall i :: 0 <= i < |jobs| ==> jobs[i].id == i + 1
    ensures Picked(jobs, now)[m].id < Picked(jobs, now)[n].id
    decreases n
  {
    PickedAt(jobs, now, n);
    if m < n - 1 { PickedApart(jobs, now, m, n - 1); }
  }

  predicate Increasing(out: seq<Job>) { forall m, n :: 0 <= m < n < |out| ==> out[m].id < out[n].id }

  /** The batch is full of tickets that come before position `i`. */
  predicate FullBefore(out: seq<Job>, i: nat) { |out| == BATCH && forall m :: 0 <= m < |out| ==> out[m].id <= i }

  predicate HasId(out: seq<Job>, k: nat, id: nat) { exists m :: k <= m < |out| && out[m].id == id }

  /** The job in hand is the claimed form of the stored one. */
  predicate ClaimedFrom(jobs: seq<Job>, j: Job, now: int) {
    1 <= j.id <= |jobs| && Claimable(jobs[j.id - 1], now) && j == Claimed(jobs[j.id - 1])
  }

  lemma PickedIncreasing(jobs: seq<Job>, now: int)
    requires Numbered(jobs)
    ensures Increasing(Picked(jobs, now))
  {
    forall m, n | 0 <= m < n < |Picked(jobs, now)| ensures Picked(jobs, now)[m].id < Picked(jobs, now)[n].id {
      PickedApart(jobs, now, m, n);
    }
  }

  lemma PickedFrom(jobs: seq<Job>, upto: nat, now: int, m: nat)
    requires upto <= |jobs| && Numbered(jobs) && m < |Picked(jobs[..upto], now)|
    ensures ClaimedFrom(jobs, Picked(jobs[..upto], now)[m], now) && Picked(jobs[..upto], now)[m].id <= upto
  {
    hide Picked;
    PickedAt(jobs[..upto], now, m);
  }

  lemma PickedAll(jobs: seq<Job>, upto: nat, now: int, i: nat)
    requires i < upto <= |jobs| && Numbered(jobs) && Claimable(jobs[i], now)
    ensures HasId(Picked(jobs[..upto], now), 0, i + 1)
  {
    hide Picked;
    PickedHas(jobs[..upto], now, i);
    var out := Picked(jobs[..upto], now);
    var m :| 0 <= m < |out| && out[m] == Claimed(jobs[i]);
    assert out[m].id == i + 1;
  }

  /** Still to be claimed although its attempts are used up. */
  predicate Spent(j: Job) { j.attempts >= MAX_ATTEMPTS && (j.status == Pending || j.status == Running) }

  /** A claim scan hands out an attempt past the twentieth if and only if it meets a spent ticket that is due. */
  lemma OverrunIffSpent(jobs: seq<Job>, upto: nat, now: int)
    requires upto <= |jobs| && Numbered(jobs)
    ensures (exists j :: j in Picked(jobs[..upto], now) && j.attempts > MAX_ATTEMPTS)
            <==> (exists i :: 0 <= i < upto && Spent(jobs[i]) && Claimable(jobs[i], now))
  {
    hide Picked;
    var out := Picked(jobs[..upto], now);
    if i :| 0 <= i < upto && Spent(jobs[i]) && Claimable(jobs[i], now) {
      PickedHas(jobs[..upto], now, i);
      assert Claimed(jobs[i]) in out;
    }
    if j :| j in out && j.attempts > MAX_ATTEMPTS {
      var m :| 0 <= m < |out| && out[m] == j;
      PickedFrom(jobs, upto, now, m);
      assert Spent(jobs[j.id - 1]);
    }
  }

  /**
   * A worker's report on an attempt: `seen` is the attempt it was handed, `at` what the clock says. A
   * slow worker may report on an earlier attempt than the ticket's last.
   */
  function Reported(j: Job, seen: nat, ok: bool, at: int): Job {
    if ok then j.(status := Done, next := None)
    else if seen >= MAX_ATTEMPTS then j.(status := Failed, next := None)
    else j.(status := Pending, next := Some(at + Backoff(seen) * SECOND))
  }

  /** The ticket after its own attempt. */
  function Settle(j: Job, ok: bool, at: int): Job { Reported(j, j.attempts, ok, at) }

  /** An operator's retry: it takes a ticket in any status, leaves its attempts alone and never fails it. */
  function Retried(j: Job, seen: nat, ok: bool, at: int): Job {
    if ok then j.(status := Done, next := None)
    else j.(status := Pending, next := Some(at + Backoff(seen + 1) * SECOND))
  }

  lemma SettleRests(j: Job, claims: seq<int>, clock: int, ok: bool, at: int)
    requires InHand(j, claims, clock) && clock <= at
    ensures Resting(Settle(j, ok, at), claims, at)
  {
  }

  lemma SettledAs(j: Job, ok: bool, at: int)
    ensures Settle(j, ok, at) == Reported(j, j.attempts, ok, at) && Settle(j, ok, at).id == j.id
  {
  }

  lemma TimePasses(j: Job, claims: seq<int>, clock: int, at: int)
    requires clock <= at
    ensures Resting(j, claims, clock) ==> Resting(j, claims, at)
    ensures InHand(j, claims, clock) ==> InHand(j, claims, at)
  {
  }

  // ---------------------------------------------------------------------------
  // What can happen to one ticket
  // ---------------------------------------------------------------------------

  /**
   * Claimed by a pass; a worker's report on the attempt `seen`; an operator's retry of the ticket read at `seen`
   * attempts.
   */
  datatype TicketEvent =
    | Attempt(now: int)
    | Report(seen: nat, ok: bool, at: int)
    | Manual(seen: nat, ok: bool, at: int)

  function After(j: Job, e: TicketEvent): Job {
    match e
    case Attempt(_) => Claimed(j)
    case Report(seen, ok, at) => Reported(j, seen, ok, at)
    case Manual(seen, ok, at) => Retried(j, seen, ok, at)
  }

  /** Only a claimable ticket is claimed, and only an attempt already made is reported on. */
  predicate Possible(j: Job, e: TicketEvent) {
    match e
    case Attempt(now) => Claimable(j, now)
    case Report(seen, _, _) => 1 <= seen <= j.attempts
    case Manual(seen, _, _) => seen <= j.attempts
  }

  function Replay(j: Job, events: seq<TicketEvent>): Job {
    if events == [] then j else After(Replay(j, events[..|events| - 1]), events[|events| - 1])
  }

  predicate Legal(j: Job, events: seq<TicketEvent>) {
    events == []
      || (Legal(j, events[..|events| - 1]) && Possible(Replay(j, events[..|events| - 1]), events[|events| - 1]))
  }

  function Fresh(id: nat, kind: TicketKind): Job { Job(id, kind, Pending, 0, None) }

  /** The ticket is what its events made of a new one. */
  predicate Follows(j: Job, events: seq<TicketEvent>) {
    Legal(Fresh(j.id, j.kind), events) && j == Replay(Fresh(j.id, j.kind), events)
  }

  lemma FollowsOn(j: Job, events: seq<TicketEvent>, e: TicketEvent)
    requires Follows(j, events) && Possible(j, e)
    ensures Follows(After(j, e), events + [e])
  {
    hide Possible;
    var more := events + [e];
    assert more[..|more| - 1] == events;
  }

  /** When the ticket was claimed. */
  function Times(events: seq<TicketEvent>): seq<int> {
    if events == [] then []
    else
      var e := events[|events| - 1];
      Times(events[..|events| - 1]) + (if e.Attempt? then [e.now] else [])
  }

  lemma TimesOn(events: seq<TicketEvent>, e: TicketEvent)
    ensures Times(events + [e]) == Times(events) + (if e.Attempt? then [e.now] else [])
  {
    var more := events + [e];
    assert more[..|more| - 1] == events;
  }

  lemma {:induction false} TriesCounted(j: Job, events: seq<TicketEvent>)
    requires j.attempts == 0
    ensures Replay(j, events).attempts == |Times(events)|
  {
    if events != [] { TriesCounted(j, events[..|events| - 1]); }
  }

  /**
   * With all attempts made, the last thing that happened was an attempt nobody has reported on, a
   * failed manual retry, or a failed report on an earlier attempt than the twentieth.
   */
  predicate LeavesSpent(events: seq<TicketEvent>) {
    && events != [] && |Times(events)| >= MAX_ATTEMPTS
    && var e := events[|events| - 1];
    && (e.Attempt? || (!e.ok && (e.Manual? || e.seen < MAX_ATTEMPTS)))
  }

  /**
   * Over any mix of passes, crashes, overlapping workers and manual retries, exactly these events leave a ticket
   * spent.
   */
  lemma SpentIff(j: Job, events: seq<TicketEvent>)
    requires Follows(j, events)
    ensures Spent(j) <==> LeavesSpent(events)
  {
    hide Possible, Times;
    TriesCounted(Fresh(j.id, j.kind), events);
  }

  /** A ticket is tried more than twenty times if and only if some attempt comes right after one of these events. */
  lemma {:induction false} PastBudgetIff(j: Job, events: seq<TicketEvent>)
    requires Follows(j, events)
    ensures j.attempts > MAX_ATTEMPTS
            <==> exists i :: 0 < i < |events| && events[i].Attempt? && LeavesSpent(events[..i])
    decreases |events|
  {
    TriesCounted(Fresh(j.id, j.kind), events);
    if events != [] {
      var n := |events| - 1;
      var front := events[..n];
      var before := Replay(Fresh(j.id, j.kind), front);
      ReplayKeepsName(Fresh(j.id, j.kind), front);
      PastBudgetIff(before, front);
      SpentIff(before, front);
      forall i | 0 < i < n ensures front[..i] == events[..i] {}
      if events[n].Attempt? && before.attempts >= MAX_ATTEMPTS { assert LeavesSpent(events[..n]); }
    }
  }

  /** `n` failed attempts, one a minute. */
  function Failures(n: nat): seq<TicketEvent> {
    if n == 0 then []
    else Failures(n - 1) + [Attempt(60 * (n - 1) * SECOND), Report(n, false, 60 * (n - 1) * SECOND)]
  }

  lemma {:induction false} FailuresLegal(kind: TicketKind, n: nat) returns (j: Job)
    requires n <= MAX_ATTEMPTS
    ensures Follows(j, Failures(n)) && j.attempts == n && j.status == (if n == MAX_ATTEMPTS then Failed else Pending)
    ensures j.next.Some? ==> j.next.value <= 60 * n * SECOND
  {
    hide Follows;
    if n == 0 {
      j := Fresh(1, kind);
      assert Follows(j, []) by { assert Legal(j, []) && Replay(j, []) == j; FollowsFresh(j); }
    } else {
      var at := 60 * (n - 1) * SECOND;
      j := FailuresLegal(kind, n - 1);
      FollowsOn(j, Failures(n - 1), Attempt(at));
      FollowsOn(Claimed(j), Failures(n - 1) + [Attempt(at)], Report(n, false, at));
      assert Failures(n - 1) + [Attempt(at)] + [Report(n, false, at)] == Failures(n);
      j := Reported(Claimed(j), n, false, at);
    }
  }

  lemma FollowsFresh(j: Job)
    requires j == Fresh(j.id, j.kind)
    ensures Follows(j, [])
  {
  }

  /** A pass that dies after the twentieth attempt: the ticket is claimed again at once. */
  lemma PassDies(kind: TicketKind) returns (j: Job, events: seq<TicketEvent>)
    ensures Follows(j, events) && j.attempts == 21 && |events| >= 2 && events[|events| - 2].Attempt?
  {
    hide Follows, Failures;
    var at := 60 * 19 * SECOND;
    j := FailuresLegal(kind, 19);
    events := Failures(19);
    FollowsOn(j, events, Attempt(at));
    FollowsOn(Claimed(j), events + [Attempt(at)], Attempt(at));
    j, events := Claimed(Claimed(j)), events + [Attempt(at)] + [Attempt(at)];
  }

  /** A ticket that failed for good, retried by hand in vain, and claimed a twenty-first time. */
  lemma RetriedInVain(kind: TicketKind) returns (j: Job, events: seq<TicketEvent>)
    ensures Follows(j, events) && j.attempts == 21 && |events| >= 2 && events[|events| - 2].Manual?
  {
    hide Follows, Failures;
    var at := 60 * 20 * SECOND;
    j := FailuresLegal(kind, 20);
    events := Failures(20);
    var manual, again := Manual(20, false, at), Attempt(at + 60 * SECOND);
    FollowsOn(j, events, manual);
    FollowsOn(Retried(j, 20, false, at), events + [manual], again);
    j, events := Claimed(Retried(j, 20, false, at)), events + [manual] + [again];
  }

  /** A slow worker reports its nineteenth attempt after another worker made the twentieth. */
  lemma ReportedLate(kind: TicketKind) returns (j: Job, events: seq<TicketEvent>)
    ensures Follows(j, events) && j.attempts == 21 && |events| >= 2 && events[|events| - 2].Report?
  {
    hide Follows, Failures;
    var at := 60 * 19 * SECOND;
    j := FailuresLegal(kind, 19);
    events := Failures(19);
    var late, again := Report(19, false, at), Attempt(at + 60 * SECOND);
    FollowsOn(j, events, Attempt(at));
    FollowsOn(Claimed(j), events + [Attempt(at)], late);
    FollowsOn(Reported(Claimed(j), 19, false, at), events + [Attempt(at)] + [late], again);
    j, events := Claimed(Reported(Claimed(j), 19, false, at)), events + [Attempt(at)] + [late] + [again];
  }

  lemma {:induction false} ReplayKeepsName(j: Job, events: seq<TicketEvent>)
    ensures Replay(j, events).id == j.id && Replay(j, events).kind == j.kind
  {
    if events != [] { ReplayKeepsName(j, events[..|events| - 1]); }
  }

  /** From position `k` on, the batch is what the store holds, in order of the ids. */
  predicate InStore(jobs: seq<Job>, out: seq<Job>, k: nat) {
    && Numbered(jobs) && Increasing(out)
    && (forall m :: k <= m < |out| ==> 1 <= out[m].id <= |jobs| && jobs[out[m].id - 1] == out[m] && out[m].attempts > 0)
  }

  lemma InStoreStep(jobs: seq<Job>, out: seq<Job>, k: nat, ok: bool, at: int)
    requires InStore(jobs, out, k) && k < |out|
    ensures InStore(jobs[out[k].id - 1 := Settle(out[k], ok, at)], out, k + 1)
  {
    hide Settle;
    SettledAs(out[k], ok, at);
  }

  /** The first `k` tickets of the batch are reported on; the others, and those outside the batch, are as they were. */
  predicate WorkedOff(jobs: seq<Job>, events: seq<seq<TicketEvent>>, out: seq<Job>, ok: seq<bool>, at: seq<int>, k: nat,
                      jobs': seq<Job>, events': seq<seq<TicketEvent>>)
    requires k <= |out| <= |ok| && |out| <= |at|
  {
    && |jobs| == |events| == |jobs'| == |events'|
    && (forall m :: 0 <= m < |out| ==> 1 <= out[m].id <= |jobs|)
    && (forall m :: 0 <= m < k ==>
          && jobs'[out[m].id - 1] == Settle(out[m], ok[m], at[m])
          && events'[out[m].id - 1] == events[out[m].id - 1] + [Report(out[m].attempts, ok[m], at[m])])
    && (forall m :: k <= m < |out| ==> events'[out[m].id - 1] == events[out[m].id - 1])
    && (forall i :: 0 <= i < |jobs| ==> (jobs'[i] == jobs[i] && events'[i] == events[i]) || HasId(out, 0, i + 1))
  }

  lemma WorkStep(jobs: seq<Job>, events: seq<seq<TicketEvent>>, out: seq<Job>, ok: seq<bool>, at: seq<int>, k: nat,
                 jobs': seq<Job>, events': seq<seq<TicketEvent>>)
    requires k < |out| <= |ok| && |out| <= |at| && InStore(jobs', out, k)
    requires WorkedOff(jobs, events, out, ok, at, k, jobs', events')
    ensures 1 <= out[k].id <= |jobs'| && jobs'[out[k].id - 1] == out[k] && out[k].attempts > 0
    ensures Settle(out[k], ok[k], at[k]) == Reported(out[k], out[k].attempts, ok[k], at[k])
    ensures WorkedOff(jobs, events, out, ok, at, k + 1, jobs'[out[k].id - 1 := Settle(out[k], ok[k], at[k])],
                      events'[out[k].id - 1 := events'[out[k].id - 1] + [Report(out[k].attempts, ok[k], at[k])]])
  {
    hide HasId;
    SettledAs(out[k], ok[k], at[k]);
    IdAt(out, k);
    hide Settle;
  }

  /** The clock readings of one pass run forward. */
  predicate Forward(clock: int, now: int, at: seq<int>) {
    clock <= now && (forall k :: 0 <= k < |at| ==> now <= at[k])
      && (forall k, l :: 0 <= k < l < |at| ==> at[k] <= at[l])
  }

  /** What one pass does to a ticket of its batch: claimed, and reported on. */
  predicate Passed(jobs: seq<Job>, events: seq<seq<TicketEvent>>, now: int, j: Job, ok: bool, at: int,
                   jobs': seq<Job>, events': seq<seq<TicketEvent>>)
  {
    && |events| == |jobs| == |jobs'| == |events'|
    && ClaimedFrom(jobs, j, now)
    && jobs'[j.id - 1] == Settle(j, ok, at)
    && events'[j.id - 1] == events[j.id - 1] + [Attempt(now)] + [Report(j.attempts, ok, at)]
  }

  lemma TicketRests(jobs: seq<Job>, events: seq<seq<TicketEvent>>, clock: int, now: int, batch: seq<Job>,
                    ok: seq<bool>, at: seq<int>,
                    jobs': seq<Job>, events': seq<seq<TicketEvent>>, clock': int, i: nat)
    requires i < |jobs| == |events| == |jobs'| == |events'| && |batch| <= |ok| == |at|
    requires Resting(jobs[i], Times(events[i]), clock) && Forward(clock, now, at)
    requires clock' == if batch == [] then now else at[|batch| - 1]
    requires forall m :: 0 <= m < |batch| ==> Passed(jobs, events, now, batch[m], ok[m], at[m], jobs', events')
    requires (jobs'[i] == jobs[i] && events'[i] == events[i]) || HasId(batch, 0, i + 1)
    ensures Resting(jobs'[i], Times(events'[i]), clock') && clock' >= now
  {
    hide Resting, Settle, Claimable, Times;
    if HasId(batch, 0, i + 1) {
      var m :| 0 <= m < |batch| && batch[m].id == i + 1;
      assert Passed(jobs, events, now, batch[m], ok[m], at[m], jobs', events');
      assert m == |batch| - 1 || at[m] <= at[|batch| - 1];
      TimesOn(events[i], Attempt(now));
      TimesOn(events[i] + [Attempt(now)], Report(batch[m].attempts, ok[m], at[m]));
      assert Times(events'[i]) == Times(events[i]) + [now];
      PassKeepsBudget(jobs[i], Times(events[i]), clock, now, ok[m], at[m], clock');
    } else {
      TimePasses(jobs[i], Times(events[i]), clock, clock');
    }
  }

  /** One ticket through one pass: claimed and settled within its budget. */
  lemma PassKeepsBudget(j: Job, claims: seq<int>, clock: int, now: int, ok: bool, at: int, later: int)
    requires Resting(j, claims, clock) && Claimable(j, now) && clock <= now <= at <= later
    ensures Resting(Settle(Claimed(j), ok, at), claims + [now], later)
  {
    hide Resting, InHand, Settle, Claimable;
    ClaimKeepsBudget(j, claims, clock, now);
    SettleRests(Claimed(j), claims + [now], now, ok, at);
    TimePasses(Settle(Claimed(j), ok, at), claims + [now], at, later);
  }

  lemma ClaimFollows(j: Job, events: seq<TicketEvent>, now: int)
    requires Follows(j, events) && Claimable(j, now)
    ensures Follows(Claimed(j), events + [Attempt(now)]) && Claimed(j).id == j.id
  {
    FollowsOn(j, events, Attempt(now));
  }

  class TicketStore {
    var jobs: seq<Job>
    /** What happened to each ticket, and the latest time seen. */
    ghost var events: seq<seq<TicketEvent>>
    ghost var clock: int

    ghost predicate Indexed()
      reads this
    {
      |events| == |jobs| && Numbered(jobs) && forall i :: 0 <= i < |jobs| ==> Follows(jobs[i], events[i])
    }

    ghost predicate Valid()
      reads this
    {
      Indexed() && forall i :: 0 <= i < |jobs| ==> Resting(jobs[i], Times(events[i]), clock)
    }

    constructor ()
      ensures Valid() && jobs == []
    {
      jobs, events, clock := [], [], 0;
    }

    method Insert(kind: TicketKind)
      requires Indexed()
      modifies this
      ensures Indexed() && (old(Valid()) ==> Valid()) && clock == old(clock)
      ensures jobs == old(jobs) + [Job(|old(jobs)| + 1, kind, Pending, 0, None)]
      ensures events == old(events) + [[]]
    {
      hide Follows;
      FollowsFresh(Fresh(|jobs| + 1, kind));
      jobs := jobs + [Job(|jobs| + 1, kind, Pending, 0, None)];
      events := events + [[]];
    }

    /** Claims in place, front to back, until `limit` tickets are in hand; tickets left running are claimed again. */
    method Claim(now: int, limit: nat) returns (out: seq<Job>, ghost upto: nat)
      requires Indexed() && limit > 0
      modifies this
      ensures Indexed() && |jobs| == |old(jobs)| && upto <= |jobs| && clock == now
      ensures out == Picked(old(jobs)[..upto], now) && |out| <= limit && (upto < |jobs| ==> |out| == limit)
      ensures forall i :: 0 <= i < |jobs| ==>
                if i < upto && Claimable(old(jobs[i]), now)
                then jobs[i] == Claimed(old(jobs[i])) && events[i] == old(events[i]) + [Attempt(now)]
                else jobs[i] == old(jobs[i]) && events[i] == old(events[i])
    {
      hide Claimable, Follows, Claimed;
      out := [];
      var i := 0;
      clock := now;
      while i < |jobs| && |out| < limit
        invariant 0 <= i <= |jobs| == |old(jobs)| && Indexed()
        invariant clock == now
        invariant out == Picked(old(jobs)[..i], now) && |out| <= limit
        invariant forall k :: 0 <= k < i ==>
                    if Claimable(old(jobs[k]), now)
                    then jobs[k] == Claimed(old(jobs[k])) && events[k] == old(events[k]) + [Attempt(now)]
                    else jobs[k] == old(jobs[k]) && events[k] == old(events[k])
        invariant forall k :: i <= k < |jobs| ==> jobs[k] == old(jobs[k]) && events[k] == old(events[k])
      {
        var j := jobs[i];
        assert old(jobs)[..i + 1][..i] == old(jobs)[..i];
        if Claimable(j, now) {
          ClaimFollows(j, events[i], now);
          jobs := jobs[i := Claimed(j)];
          events := events[i := events[i] + [Attempt(now)]];
          out := out + [jobs[i]];
        }
        i := i + 1;
      }
      upto := i;
    }

    /** The ticket with this id, if any. */
    method Find(id: nat) returns (r: Result<Job>)
      requires Numbered(jobs)
      ensures r == if 1 <= id <= |jobs| then Ok(jobs[id - 1]) else Err(OrderNotFound)
    {
      for i := 0 to |jobs|
        invariant id < 1 || id > i
      {
        if jobs[i].id == id {
          return Ok(jobs[i]);
        }
      }
      return Err(OrderNotFound);
    }

    /** Looks the ticket up by id and overwrites it in place. */
    method Update(id: nat, status: TicketStatus, next: Option<int>) returns (found: bool)
      requires Numbered(jobs)
      modifies `jobs
      ensures found <==> 1 <= id <= |old(jobs)|
      ensures found ==> jobs == old(jobs)[id - 1 := old(jobs)[id - 1].(status := status, next := next)]
      ensures !found ==> jobs == old(jobs)
    {
      for i := 0 to |jobs|
        invariant jobs == old(jobs)
        invariant id < 1 || id > i
      {
        if jobs[i].id == id {
          jobs := jobs[i := jobs[i].(status := status, next := next)];
          return true;
        }
      }
      return false;
    }

    /** The claim of one pass. */
    method Take(now: int) returns (out: seq<Job>)
      requires Indexed()
      modifies this
      ensures Indexed() && InStore(jobs, out, 0) && |jobs| == |old(jobs)| && |out| <= BATCH && clock == now
      ensures forall m :: 0 <= m < |out| ==>
                && ClaimedFrom(old(jobs), out[m], now)
                && events[out[m].id - 1] == old(events)[out[m].id - 1] + [Attempt(now)]
      ensures forall i :: 0 <= i < |jobs| ==>
                || (jobs[i] == old(jobs)[i] && events[i] == old(events)[i])
                || HasId(out, 0, i + 1)
      ensures forall i :: 0 <= i < |jobs| && Claimable(old(jobs)[i], now) ==> HasId(out, 0, i + 1) || FullBefore(out, i)
    {
      hide Claimable, Picked, HasId, Follows;
      ghost var before, upto := jobs, 0;
      out, upto := Claim(now, BATCH);
      PickedIncreasing(before[..upto], now);
      forall m | 0 <= m < |out| ensures ClaimedFrom(before, out[m], now) && out[m].id <= upto {
        PickedFrom(before, upto, now, m);
      }
      forall i | 0 <= i < upto && Claimable(before[i], now) ensures HasId(out, 0, i + 1) {
        PickedAll(before, upto, now, i);
      }
    }

    /** Records how an attempt went; `t` is the ticket as it was handed out, which may no longer be how it is stored. */
    method Finish(t: Job, ok: bool, at: int)
      requires Indexed() && 1 <= t.id <= |jobs| && 1 <= t.attempts <= jobs[t.id - 1].attempts
      modifies this
      ensures Indexed() && jobs == old(jobs)[t.id - 1 := Reported(old(jobs)[t.id - 1], t.attempts, ok, at)]
      ensures events == old(events)[t.id - 1 := old(events)[t.id - 1] + [Report(t.attempts, ok, at)]]
      ensures clock == at
    {
      hide Follows;
      FollowsOn(jobs[t.id - 1], events[t.id - 1], Report(t.attempts, ok, at));
      if ok {
        var _ := Update(t.id, Done, None);
      } else if t.attempts >= MAX_ATTEMPTS {
        var _ := Update(t.id, Failed, None);
      } else {
        var _ := Update(t.id, Pending, Some(at + Backoff(t.attempts) * SECOND));
      }
      events := events[t.id - 1 := events[t.id - 1] + [Report(t.attempts, ok, at)]];
      clock := at;
    }

    /** Records how a manual retry went; `t` is the ticket as it was read before its handler ran. */
    method FinishRetry(t: Job, ok: bool, at: int)
      requires Indexed() && 1 <= t.id <= |jobs| && t.attempts <= jobs[t.id - 1].attempts
      modifies this
      ensures Indexed() && jobs == old(jobs)[t.id - 1 := Retried(old(jobs)[t.id - 1], t.attempts, ok, at)]
      ensures events == old(events)[t.id - 1 := old(events)[t.id - 1] + [Manual(t.attempts, ok, at)]]
      ensures clock == at
    {
      hide Follows;
      FollowsOn(jobs[t.id - 1], events[t.id - 1], Manual(t.attempts, ok, at));
      if ok {
        var _ := Update(t.id, Done, None);
      } else {
        var _ := Update(t.id, Pending, Some(at + Backoff(t.attempts + 1) * SECOND));
      }
      events := events[t.id - 1 := events[t.id - 1] + [Manual(t.attempts, ok, at)]];
      clock := at;
    }

    /**
     * An operator's retry of a ticket in any status, when nothing else runs. Under a forward clock it
     * keeps every budget unless it fails on a ticket whose attempts are used up.
     */
    method Retry(id: nat, ok: bool, at: int) returns (r: Result<()>)
      requires Indexed()
      modifies this
      ensures Indexed()
      ensures !(1 <= id <= |old(jobs)|) ==> r == Err(OrderNotFound) && jobs == old(jobs) && events == old(events)
      ensures 1 <= id <= |old(jobs)| ==>
                var t := old(jobs)[id - 1];
                && r == (if ok then Ok(()) else Err(Unavailable))
                && jobs == old(jobs)[id - 1 := Retried(t, t.attempts, ok, at)]
                && events == old(events)[id - 1 := old(events)[id - 1] + [Manual(t.attempts, ok, at)]]
      ensures old(Valid()) && old(clock) <= at && 1 <= id <= |jobs| ==>
                (Valid() <==> ok || jobs[id - 1].attempts < MAX_ATTEMPTS)
    {
      hide Follows, Resting, Times;
      var t := Find(id);
      if t.Err? {
        return Err(t.error);
      }
      FinishRetry(t.value, ok, at);
      if old(Valid()) && old(clock) <= at {
        RetriedRests(old(jobs), old(events), old(clock), id - 1, ok, at, jobs, events);
      }
      return if ok then Ok(()) else Err(Unavailable);
    }

    /** Works off what was taken: `ok` says how each handler call went, `at` what the clock said after it. */
    method Work(out: seq<Job>, ok: seq<bool>, at: seq<int>) returns (n: nat)
      requires Indexed() && InStore(jobs, out, 0) && |out| <= |ok| == |at|
      modifies this
      ensures Indexed() && |jobs| == |old(jobs)| && clock == if out == [] then old(clock) else at[|out| - 1]
      ensures forall m :: 0 <= m < |out| ==>
                && jobs[out[m].id - 1] == Settle(out[m], ok[m], at[m])
                && events[out[m].id - 1] == old(events)[out[m].id - 1] + [Report(out[m].attempts, ok[m], at[m])]
      ensures forall i ::
                0 <= i < |jobs| ==> (jobs[i] == old(jobs)[i] && events[i] == old(events)[i]) || HasId(out, 0, i + 1)
      ensures n == Count(ok[..|out|])
    {
      hide Settle, Reported, HasId, Follows, Numbered, Increasing, Count;
      NoCalls(ok[..0]);
      n := 0;
      for k := 0 to |out|
        invariant Indexed() && InStore(jobs, out, k) && n == Count(ok[..k])
        invariant clock == if k == 0 then old(clock) else at[k - 1]
        invariant WorkedOff(old(jobs), old(events), out, ok, at, k, jobs, events)
      {
        InStoreStep(jobs, out, k, ok[k], at[k]);
        WorkStep(old(jobs), old(events), out, ok, at, k, jobs, events);
        CountStep(ok, k);
        Finish(out[k], ok[k], at[k]);
        if ok[k] {
          n := n + 1;
        }
      }
    }

    /**
     * One pass of the worker over any store. The batch are the tickets that are due, in order of their
     * ids, as far as it reaches; it is worked off whole, and the successes are counted. Tickets outside
     * the batch, and so all that are done or failed, stay as they are. The budget of every ticket is kept when all were
     * within it and the
     * clock runs forward.
     */
    method Tick(now: int, ok: seq<bool>, at: seq<int>) returns (n: nat, ghost batch: seq<Job>)
      requires Indexed() && |ok| == |at| == BATCH
      modifies this
      ensures Indexed() && |jobs| == |old(jobs)| && |batch| <= BATCH && n == Count(ok[..|batch|])
      ensures forall m, l :: 0 <= m < l < |batch| ==> batch[m].id < batch[l].id
      ensures forall i :: 0 <= i < |jobs| ==>
                var j := old(jobs)[i];
                var due := j.status in {Pending, Running} && (j.next.None? || j.next.value <= now);
                && (HasId(batch, 0, i + 1) ==> due)
                && (due ==> HasId(batch, 0, i + 1) || FullBefore(batch, i))
      ensures forall m :: 0 <= m < |batch| ==> Passed(old(jobs), old(events), now, batch[m], ok[m], at[m], jobs, events)
      ensures forall i :: 0 <= i < |jobs| ==>
                || (jobs[i] == old(jobs)[i] && events[i] == old(events)[i])
                || HasId(batch, 0, i + 1)
      ensures forall i ::
                0 <= i < |jobs| && old(jobs)[i].status in {Done, Failed} ==>
                  jobs[i] == old(jobs)[i] && events[i] == old(events)[i]
      ensures old(Valid()) && Forward(old(clock), now, at) ==> Valid()
      ensures clock == if batch == [] then now else at[|batch| - 1]
    {
      hide Settle, Resting, Forward, HasId, InStore, Follows, Times;
      var tickets := Take(now);
      batch := tickets;
      BatchIsDue(jobs, old(jobs), batch, now);
      n := Work(tickets, ok, at);
      forall i | 0 <= i < |jobs| && old(jobs)[i].status in {Done, Failed} ensures !HasId(batch, 0, i + 1) {
        OverIsNotClaimed(old(jobs), batch, now, i);
      }
      if old(Valid()) && Forward(old(clock), now, at) {
        forall i | 0 <= i < |jobs| ensures Resting(jobs[i], Times(events[i]), clock) {
          TicketRests(old(jobs), old(events), old(clock), now, batch, ok, at, jobs, events, clock, i);
        }
      }
    }
  }

  /** A manual retry under a forward clock leaves the ticket within its budget unless it fails at the last attempt. */
  lemma RetriedRests(jobs: seq<Job>, events: seq<seq<TicketEvent>>, clock: int, i: nat, ok: bool, at: int,
                     jobs': seq<Job>, events': seq<seq<TicketEvent>>)
    requires |jobs| == |events| && i < |jobs| && clock <= at
    requires forall k :: 0 <= k < |jobs| ==> Resting(jobs[k], Times(events[k]), clock)
    requires jobs' == jobs[i := Retried(jobs[i], jobs[i].attempts, ok, at)]
    requires events' == events[i := events[i] + [Manual(jobs[i].attempts, ok, at)]]
    ensures (forall k :: 0 <= k < |jobs| ==> Resting(jobs'[k], Times(events'[k]), at))
            <==> ok || jobs[i].attempts < MAX_ATTEMPTS
  {
    hide Resting, Times;
    TimesOn(events[i], Manual(jobs[i].attempts, ok, at));
    assert Times(events'[i]) == Times(events[i]);
    RetriedAt(jobs[i], Times(events[i]), clock, ok, at);
    assert Resting(jobs'[i], Times(events'[i]), at) <==> ok || jobs[i].attempts < MAX_ATTEMPTS;
    forall k | 0 <= k < |jobs| && k != i ensures Resting(jobs'[k], Times(events'[k]), at) {
      TimePasses(jobs[k], Times(events[k]), clock, at);
    }
  }

  lemma RetriedAt(j: Job, claims: seq<int>, clock: int, ok: bool, at: int)
    requires Resting(j, claims, clock) && clock <= at
    ensures Resting(Retried(j, j.attempts, ok, at), claims, at) <==> ok || j.attempts < MAX_ATTEMPTS
  {
    BackoffMonotone(j.attempts, j.attempts + 1);
  }

  /** A batch taken from the store holds due tickets in order. */
  lemma BatchIsDue(jobs: seq<Job>, before: seq<Job>, batch: seq<Job>, now: int)
    requires InStore(jobs, batch, 0) && forall m :: 0 <= m < |batch| ==> ClaimedFrom(before, batch[m], now)
    ensures forall m, l :: 0 <= m < l < |batch| ==> batch[m].id < batch[l].id
    ensures forall i :: 0 <= i < |before| && HasId(batch, 0, i + 1) ==> Claimable(before[i], now)
  {
  }

  lemma OverIsNotClaimed(jobs: seq<Job>, batch: seq<Job>, now: int, i: nat)
    requires i < |jobs| && jobs[i].status in {Done, Failed}
    requires forall m :: 0 <= m < |batch| ==> ClaimedFrom(jobs, batch[m], now)
    ensures !HasId(batch, 0, i + 1)
  {
  }

  lemma IdAt(out: seq<Job>, m: nat)
    requires m < |out|
    ensures HasId(out, 0, out[m].id)
  {
  }

  /**
   * Under ticks, inserts and retries that keep the budget no ticket is tried more than twenty times, and a
   * twentieth try comes 843 seconds after the first.
   */
  lemma RetryBudget(store: TicketStore, i: nat)
    requires store.Valid() && i < |store.jobs|
    ensures var claims := Times(store.events[i]);
            && store.jobs[i].attempts == |claims| <= 20
            && (|claims| == 20 ==> claims[19] - claims[0] >= 843 * SECOND)
  {
    hide Times, Follows;
    var claims := Times(store.events[i]);
    if |claims| == 20 {
      ClaimsApart(claims, 20);
      LastWait();
    }
  }

  /**
   * In any store, whatever was called on it in whatever order, exactly these tickets are spent or past their
   * budget.
   */
  lemma OverBudgetIff(store: TicketStore, i: nat)
    requires store.Indexed() && i < |store.jobs|
    ensures Spent(store.jobs[i]) <==> LeavesSpent(store.events[i])
    ensures store.jobs[i].attempts > MAX_ATTEMPTS
            <==> exists k ::
                0 < k < |store.events[i]| && store.events[i][k].Attempt? && LeavesSpent(store.events[i][..k])
  {
    hide Follows, LeavesSpent;
    SpentIff(store.jobs[i], store.events[i]);
    PastBudgetIff(store.jobs[i], store.events[i]);
  }
}

/** The local id generator of internal/infra/idgen/snowflake.go under an arbitrary clock. */
module Snowflake {
  import opened Base
  import opened Int64
  import opened Arith

  const EPOCH: int := 1704067200000
  const MACHINES: int := 1024   // 2^10
  const SEQUENCES: int := 4096  // 2^12
  const TICK: int := 4194304    // 2^22, the value of one millisecond in an id

  /** The fields of an id. */
  datatype Stamp = Stamp(ms: int, machine: int, sequence: int)

  predicate WellFormed(st: Stamp) { 0 <= st.machine < MACHINES && 0 <= st.sequence < SEQUENCES }

  /** The millisecond field fits into the bits left for it. */
  predicate MsFits(ms: int) { -2199023255552 <= ms - EPOCH < 2199023255552 }

  // ---------------------------------------------------------------------------
  // The id as the generator computes it, on 64-bit words
  // ---------------------------------------------------------------------------

  /** The word that represents an int64. */
  function Bits(x: I64): (w: nat)
    ensures w < MODULUS
  {
    x % MODULUS
  }

  function BitOr(a: nat, b: nat): nat
    decreases a + b
  {
    if a == 0 then b
    else if b == 0 then a
    else 2 * BitOr(a / 2, b / 2) + (if a % 2 == 1 || b % 2 == 1 then 1 else 0)
  }

  function Or(a: I64, b: I64): I64 { Wrap(BitOr(Bits(a), Bits(b))) }

  function Encode(st: Stamp): I64 {
    Or(Or(Wrap((st.ms - EPOCH) * TICK), Wrap(st.machine * SEQUENCES)), Wrap(st.sequence))
  }

  /** Where the lower `k` bits of one operand are clear and the other has no more than those, or is a sum. */
  lemma {:induction false} OrIsSum(high: nat, k: nat, low: nat)
    requires low < Pow2(k)
    ensures BitOr(high * Pow2(k), low) == high * Pow2(k) + low
  {
    if k > 0 && high > 0 && low > 0 {
      var h := high * Pow2(k - 1);
      assert high * Pow2(k) == 2 * h;
      MulMono(1, high, Pow2(k - 1));
      OrIsSum(high, k - 1, low / 2);
    }
  }

  lemma FieldWidths()
    ensures Pow2(12) == SEQUENCES && Pow2(22) == TICK
  {
    assert Pow2(10) == 1024;
    assert Pow2(12) == 4096;
    assert Pow2(20) == 1048576;
  }

  /** What is left of the millisecond field after wrapping to its 42 bits. */
  function MsField(ms: int): (m: int)
    ensures -2199023255552 <= m < 2199023255552
    ensures m == ms - EPOCH <==> MsFits(ms)
  {
    (ms - EPOCH + 2199023255552) % 4398046511104 - 2199023255552
  }

  /** On int64, or joins a multiple of 2^k with a field of k bits by adding them. */
  lemma OrAdds(q: int, p: nat, k: nat, low: int, lift: int)
    requires p == Pow2(k) && p * lift == MODULUS && 0 < lift && lift % 2 == 0 && 0 <= low < p && -lift <= 2 * q < lift
    ensures Fits(q * p) && Fits(q * p + low) && Fits(low) && Or(q * p, low) == q * p + low
  {
    hide BitOr, Pow2;
    RangeOf(q, p, low, lift);
    var h := if q < 0 then q + lift else q;
    Distribute(q, lift, p);
    OrIsSum(h, k, low);
    OrOf(q * p, low, h * p);
  }

  /** Or on int64, given what it is on the words. */
  lemma OrOf(x: I64, low: I64, word: nat)
    requires 0 <= low && word == (if x < 0 then x + MODULUS else x) && Fits(x + low) && BitOr(word, low) == word + low
    ensures Or(x, low) == x + low
  {
    hide BitOr;
    WrapIs(word + low, x + low, if x < 0 then 1 else 0);
  }

  lemma RangeOf(q: int, p: nat, low: int, lift: int)
    requires p > 0 && p * lift == MODULUS && 0 < lift && lift % 2 == 0 && 0 <= low < p && -lift <= 2 * q < lift
    ensures MIN <= q * p && q * p + low <= MAX && (q < 0 <==> q * p < 0)
  {
    var half := lift / 2;
    assert half * p * 2 == MODULUS;
    MulMono(-half, q, p);
    MulMono(q + 1, half, p);
    Distribute(q, 1, p);
    if q < 0 { MulMono(q, -1, p); } else { MulNonNeg(q, p); }
  }

  /** Shifting and joining by or puts the three fields side by side; only the millisecond field can lose bits. */
  lemma EncodeIsSum(st: Stamp)
    requires WellFormed(st)
    ensures Encode(st) == MsField(st.ms) * TICK + st.machine * SEQUENCES + st.sequence
  {
    hide Or, Pow2;
    FieldWidths();
    var t, f := st.ms - EPOCH, MsField(st.ms);
    var turns := (t + 2199023255552) / 4398046511104;
    WrapIs(t * TICK, f * TICK, turns);
    OrAdds(f, TICK, 22, st.machine * SEQUENCES, 4398046511104);
    OrAdds(f * MACHINES + st.machine, SEQUENCES, 12, st.sequence, 4503599627370496);
  }

  /** The id is the plain sum of its fields exactly when the millisecond field does not overflow. */
  lemma EncodeExact(st: Stamp)
    requires WellFormed(st)
    ensures Encode(st) == (st.ms - EPOCH) * TICK + st.machine * SEQUENCES + st.sequence <==> MsFits(st.ms)
  {
    hide Encode, MsField;
    EncodeIsSum(st);
  }

  function Decode(id: I64): Stamp {
    Stamp(id / TICK + EPOCH, id % TICK / SEQUENCES, id % SEQUENCES)
  }

  /** Machine and sequence are recovered from every id, the timestamp exactly when it did not overflow. */
  lemma FieldsRecovered(st: Stamp)
    requires WellFormed(st)
    ensures var back := Decode(Encode(st));
            && back.machine == st.machine && back.sequence == st.sequence
            && back.ms == MsField(st.ms) + EPOCH
            && (back.ms == st.ms <==> MsFits(st.ms))
  {
    hide Encode, MsField;
    EncodeIsSum(st);
    var f, low := MsField(st.ms), st.machine * SEQUENCES + st.sequence;
    assert 0 <= low < TICK;
    Digits(f, TICK, low);
    Digits(st.machine, SEQUENCES, st.sequence);
    Digits(f * MACHINES + st.machine, SEQUENCES, st.sequence);
  }

  /**
   * Two stamps give one id exactly when machine and sequence agree and the milliseconds differ by whole turns of
   * their field.
   */
  lemma SameIdIff(a: Stamp, b: Stamp)
    requires WellFormed(a) && WellFormed(b)
    ensures Encode(a) == Encode(b) <==>
              a.machine == b.machine && a.sequence == b.sequence && (a.ms - b.ms) % 4398046511104 == 0
  {
    hide Encode, Decode, MsField;
    FieldsRecovered(a);
    FieldsRecovered(b);
    EncodeIsSum(a);
    EncodeIsSum(b);
    SameFieldIff(a.ms, b.ms);
  }

  lemma SameFieldIff(a: int, b: int)
    ensures MsField(a) == MsField(b) <==> (a - b) % 4398046511104 == 0
  {
    var n := 4398046511104;
    var x, y := a - EPOCH + 2199023255552, b - EPOCH + 2199023255552;
    assert a - b == x - y == (x / n - y / n) * n + (x % n - y % n);
  }

  lemma Digits(high: int, base: int, low: int)
    requires 0 <= low < base
    ensures (high * base + low) / base == high && (high * base + low) % base == low
  {
    FloorIs(high * base + low, base, high);
  }

  /** The order in which one generator issues its stamps. */
  predicate Earlier(a: Stamp, b: Stamp) { a.ms < b.ms || (a.ms == b.ms && a.sequence < b.sequence) }

  lemma EarlierIsSmaller(a: Stamp, b: Stamp)
    requires WellFormed(a) && WellFormed(b) && MsFits(a.ms) && MsFits(b.ms) && a.machine == b.machine && Earlier(a, b)
    ensures Encode(a) < Encode(b)
  {
    hide Encode;
    EncodeExact(a);
    EncodeExact(b);
  }

  class Generator {
    const machine: int
    var lastMs: int
    var sequence: int
    /** Everything issued so far, in order. */
    ghost var issued: seq<Stamp>

    ghost predicate Valid()
      reads this
    {
      && 0 <= machine < MACHINES
      && 0 <= sequence < SEQUENCES
      && (forall i :: 0 <= i < |issued| ==> WellFormed(issued[i]) && issued[i].machine == machine)
      && (forall i, j :: 0 <= i < j < |issued| ==> Earlier(issued[i], issued[j]))
      && (issued != [] ==> issued[|issued| - 1] == Stamp(lastMs, machine, sequence))
    }

    constructor (machineId: int)
      ensures Valid() && issued == [] && machine == machineId % MACHINES
    {
      machine, lastMs, sequence, issued := machineId % MACHINES, 0, 0, [];
    }

    /**
     * Takes the clock readings the call sees, which may run in any direction. A reading is consumed
     * each time the clock is asked; when they run out the call is still spinning and returns nothing.
     */
    method Next(readings: seq<int>) returns (id: Option<I64>)
      requires Valid() && readings != []
      modifies this
      ensures id.Some? ==> && Valid() && |issued| == |old(issued)| + 1 && issued[..|old(issued)|] == old(issued)
                           && id.value == Encode(issued[|old(issued)|]) && old(lastMs) <= lastMs
                           && (lastMs == old(lastMs) || lastMs in readings)
      ensures id.None? <==> old(sequence) == SEQUENCES - 1 && forall i ::
                0 <= i < |readings| ==> readings[i] <= old(lastMs)
      ensures id.None? ==> issued == old(issued) && lastMs == old(lastMs)
    {
      hide Encode;
      var now, used := readings[0], 1;
      if now < lastMs {
        now := lastMs;
      }
      if now == lastMs {
        sequence := (sequence + 1) % SEQUENCES;
        if sequence == 0 {
          while now <= lastMs && used < |readings|
            invariant 1 <= used <= |readings|
            invariant now == lastMs || now in readings
            invariant forall i :: 0 <= i < used - 1 ==> readings[i] <= lastMs
            invariant readings[used - 1] <= lastMs <==> now <= lastMs
            decreases |readings| - used
          {
            now, used := readings[used], used + 1;
          }
          if now <= lastMs {
            return None;
          }
          lastMs := now;
        }
      } else {
        sequence := 0;
        lastMs := now;
      }
      var st := Stamp(now, machine, sequence);
      issued := issued + [st];
      id := Some(Encode(st));
    }
  }

  /** Ids from one generator strictly increase while the millisecond field does not overflow. */
  lemma IdsIncrease(g: Generator, i: nat, j: nat)
    requires g.Valid() && i < j < |g.issued| && MsFits(g.issued[i].ms) && MsFits(g.issued[j].ms)
    ensures Encode(g.issued[i]) < Encode(g.issued[j])
  {
    EarlierIsSmaller(g.issued[i], g.issued[j]);
  }

  /** Generators with different machine ids never issue the same id, whatever their clocks do. */
  lemma MachinesNeverCollide(g: Generator, h: Generator, i: nat, j: nat)
    requires g.Valid() && h.Valid() && g.machine != h.machine && i < |g.issued| && j < |h.issued|
    ensures Encode(g.issued[i]) != Encode(h.issued[j])
  {
    hide Encode;
    FieldsRecovered(g.issued[i]);
    FieldsRecovered(h.issued[j]);
  }
}

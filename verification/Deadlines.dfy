/**
 The timeouts of the next steps, in nanoseconds, with the 64-bit arithmetic of durations.
 */
module Deadlines {
  import opened AgreementTypes

  const INT64_MAX := 0x7fff_ffff_ffff_ffff

  const SMALL_LAMBDA := 2_000_000_000
  const BIG_LAMBDA := 15_000_000_000

  const DEADLINE_TIMEOUT := BIG_LAMBDA + SMALL_LAMBDA
  const RECOVERY_EXTRA := SMALL_LAMBDA

  /** The value a signed 64-bit duration takes. */
  function Wrap(x: int): int {
    (x + 0x8000_0000_0000_0000) % UINT64 - 0x8000_0000_0000_0000
  }

  function Pow2(k: nat): (r: nat)
    ensures r >= 1
  {
    if k == 0 then 1 else 2 * Pow2(k - 1)
  }

  /** How many steps past the first next step. */
  function Past(s: Step): nat {
    if s <= NEXT then 0 else s - NEXT
  }

  /** The range of step `s` before wrapping. */
  function ExactLower(s: Step): int {
    DEADLINE_TIMEOUT + RECOVERY_EXTRA * (Pow2(Past(s)) - 1)
  }

  function ExactUpper(s: Step): int {
    DEADLINE_TIMEOUT + RECOVERY_EXTRA * (Pow2(Past(s) + 1) - 1)
  }

  lemma WrapAdd(a: int, b: int)
    ensures Wrap(Wrap(a) + Wrap(b)) == Wrap(a + b)
  {
    WrapShift(a);
    WrapShift(b);
    var i :| Wrap(a) == a + i * UINT64;
    var j :| Wrap(b) == b + j * UINT64;
    assert Wrap(a) + Wrap(b) == a + b + (i + j) * UINT64;
    WrapPeriodic(a + b, i + j);
  }

  lemma WrapShift(a: int)
    ensures exists i :: Wrap(a) == a + i * UINT64
  {
    var x := a + 0x8000_0000_0000_0000;
    assert x == (x / UINT64) * UINT64 + x % UINT64;
    assert Wrap(a) == a + (-(x / UINT64)) * UINT64;
  }

  lemma WrapPeriodic(a: int, i: int)
    ensures Wrap(a + i * UINT64) == Wrap(a)
  {
    var x := a + 0x8000_0000_0000_0000;
    assert (x + i * UINT64) % UINT64 == x % UINT64 by {
      assert x + i * UINT64 == (x / UINT64 + i) * UINT64 + x % UINT64;
    }
  }

  lemma WrapSmall(x: int)
    requires 0 <= x <= INT64_MAX
    ensures Wrap(x) == x
  {
  }

  /** The loop doubles the extra time and moves the range along once per step past the first. */
  method NextVoteRanges(s: Step) returns (lower: int, upper: int)
    ensures lower == Wrap(ExactLower(s)) && upper == Wrap(ExactUpper(s))
  {
    var extra := RECOVERY_EXTRA;
    lower := DEADLINE_TIMEOUT;
    upper := lower + extra;
    var i := NEXT;
    assert Pow2(1) == 2 * Pow2(0) == 2;
    while i < s
      invariant NEXT <= i && (i <= s || i == NEXT)
      invariant extra == Wrap(RECOVERY_EXTRA * Pow2(i - NEXT))
      invariant lower == Wrap(ExactLower(i)) && upper == Wrap(ExactUpper(i))
    {
      var e := RECOVERY_EXTRA * Pow2(i - NEXT);
      WrapAdd(e, e);
      WrapAdd(ExactUpper(i), 2 * e);
      extra := Wrap(extra + extra);
      lower := upper;
      upper := Wrap(lower + extra);
      i := i + 1;
    }
  }

  /** Consecutive ranges abut. */
  /** The first next step lasts from 17 to 19 seconds, in nanoseconds. */
  lemma FirstRange()
    ensures ExactLower(NEXT) == 17_000_000_000 && ExactUpper(NEXT) == 19_000_000_000
    ensures DEADLINE_TIMEOUT == 17_000_000_000
  {
  }

  lemma RangesAbut(s: Step)
    requires s >= NEXT
    ensures ExactUpper(s) == ExactLower(s + 1) && ExactUpper(s) == ExactLower(s) + RECOVERY_EXTRA * Pow2(s - NEXT)
  {
  }

  lemma {:induction false} Pow2Grows(j: nat, k: nat)
    requires j <= k
    ensures Pow2(j) <= Pow2(k)
    decreases k
  {
    if j < k { Pow2Grows(j, k - 1); }
  }

  lemma Pow2At32()
    ensures Pow2(32) == 0x1_0000_0000
  {
    assert Pow2(8) == 256;
    assert Pow2(16) == 0x1_0000;
    assert Pow2(24) == 0x100_0000;
  }

  /** With the configured lambdas nothing overflows up to 31 steps past the first next step. */
  lemma NoOverflow(s: Step)
    requires s <= NEXT + 31
    ensures 0 < ExactLower(s) < ExactUpper(s) <= INT64_MAX
    ensures Wrap(ExactLower(s)) == ExactLower(s) && Wrap(ExactUpper(s)) == ExactUpper(s)
  {
    Pow2At32();
    Pow2Grows(Past(s) + 1, 32);
  }

  /** The length of a range as an unsigned 64-bit number, by which random entropy is reduced. */
  function Span(s: Step): nat {
    (Wrap(ExactUpper(s)) - Wrap(ExactLower(s))) % UINT64
  }

  lemma SpanExact(s: Step)
    requires s <= NEXT + 31
    ensures Span(s) == ExactUpper(s) - ExactLower(s) > 0
  {
    NoOverflow(s);
  }

  lemma {:induction false} Pow2Add(j: nat, k: nat)
    ensures Pow2(j + k) == Pow2(j) * Pow2(k)
  {
    if k > 0 {
      Pow2Add(j, k - 1);
      assert Pow2(j) * Pow2(k) == 2 * (Pow2(j) * Pow2(k - 1));
    }
  }

  lemma Pow2At54()
    ensures RECOVERY_EXTRA * Pow2(54) == 1953125 * UINT64
  {
    Pow2At32();
    Pow2Add(32, 22);
    assert Pow2(8) == 256;
    assert Pow2(16) == 0x1_0000;
    assert Pow2(22) == 0x40_0000;
  }

  /** From 54 steps past the first, the length wraps to zero, and reducing by it panics. */
  lemma SpanVanishes(s: Step)
    requires s >= NEXT + 54
    ensures Span(s) == 0
  {
    var k := s - NEXT - 54;
    var n := 1953125 * Pow2(k);
    Pow2At54();
    Pow2Add(54, k);
    assert RECOVERY_EXTRA * Pow2(s - NEXT) == n * UINT64 by {
      assert RECOVERY_EXTRA * (Pow2(54) * Pow2(k)) == RECOVERY_EXTRA * Pow2(54) * Pow2(k);
      assert 1953125 * UINT64 * Pow2(k) == n * UINT64;
    }
    RangesAbut(s);
    WrapPeriodic(ExactLower(s), n);
  }

  /** The length of a range is, modulo 2^64, the extra time of its step. */
  lemma SpanIsExtra(s: Step)
    requires s >= NEXT
    ensures Span(s) == (RECOVERY_EXTRA * Pow2(s - NEXT)) % UINT64
  {
    RangesAbut(s);
    WrapShift(ExactUpper(s));
    WrapShift(ExactLower(s));
    var i :| Wrap(ExactUpper(s)) == ExactUpper(s) + i * UINT64;
    var j :| Wrap(ExactLower(s)) == ExactLower(s) + j * UINT64;
    var e := RECOVERY_EXTRA * Pow2(s - NEXT);
    assert Wrap(ExactUpper(s)) - Wrap(ExactLower(s)) == e + (i - j) * UINT64;
    ModPeriodic(e, i - j);
  }

  lemma ModPeriodic(a: int, i: int)
    ensures (a + i * UINT64) % UINT64 == a % UINT64
  {
    assert a + i * UINT64 == (a / UINT64 + i) * UINT64 + a % UINT64;
  }

  lemma Pow2At53()
    ensures RECOVERY_EXTRA * Pow2(53) == 976562 * UINT64 + 0x8000_0000_0000_0000
  {
    Pow2At54();
    assert Pow2(54) == 2 * Pow2(53);
  }

  lemma SpanPositive(s: Step)
    requires NEXT <= s < NEXT + 54
    ensures Span(s) > 0
  {
    hide Span, Pow2;
    SpanIsExtra(s);
    Pow2Add(s - NEXT, NEXT + 53 - s);
    Pow2At53();
    NotMultiple(Pow2(s - NEXT), Pow2(NEXT + 53 - s));
  }

  lemma NotMultiple(p: nat, m: nat)
    requires RECOVERY_EXTRA * (p * m) == 976562 * UINT64 + 0x8000_0000_0000_0000
    ensures (RECOVERY_EXTRA * p) % UINT64 > 0
  {
    var e := RECOVERY_EXTRA * p;
    var n, r := e / UINT64, e % UINT64;
    assert e == r + n * UINT64;
    assert e * m == RECOVERY_EXTRA * (p * m);
    assert e * m == r * m + (n * m) * UINT64;
    ModPeriodic(r * m, n * m);
    ModPeriodic(0x8000_0000_0000_0000, 976562);
    assert (r * m) % UINT64 == 0x8000_0000_0000_0000;
  }

  lemma SpanZeroIff(s: Step)
    requires s >= NEXT
    ensures Span(s) == 0 <==> s >= NEXT + 54
  {
    if s >= NEXT + 54 { SpanVanishes(s); } else { SpanPositive(s); }
  }

  // ---------------------------------------------------------------- how long deadlines rise

  /** The end of a step's range is exact up to 31 steps past the first next step, and no further. */
  lemma NoOverflowIff(s: Step)
    ensures Wrap(ExactUpper(s)) == ExactUpper(s) <==> s <= NEXT + 31
  {
    if s <= NEXT + 31 {
      NoOverflow(s);
    } else {
      Pow2At32();
      assert Pow2(33) == 2 * Pow2(32);
      Pow2Grows(33, Past(s) + 1);
    }
  }

  /** The nap's deadline in step `s` for one random entropy. */
  function Drawn(s: Step, entropy: nat): int
    requires Span(s) > 0
  {
    Wrap(Wrap(ExactLower(s)) + Wrap(entropy % Span(s)))
  }

  /** From the deadline before step `s` to its nap and on to its vote the deadline does not decrease. */
  predicate Rises(s: Step, entropy: nat) {
    Span(s) > 0 && Wrap(ExactLower(s)) <= Drawn(s, entropy) <= Wrap(ExactUpper(s))
  }

  /** Up to step next+31 the nap of every random entropy ends within the step's range. */
  lemma RandomDeadline(s: Step, entropy: nat)
    requires NEXT < s <= NEXT + 31
    ensures Span(s) > 0 && Rises(s, entropy)
    ensures ExactUpper(s - 1) == ExactLower(s) <= Drawn(s, entropy) < ExactUpper(s)
  {
    hide Span, Wrap, Pow2;
    NoOverflow(s);
    SpanExact(s);
    RangesAbut(s - 1);
    var delta := entropy % Span(s);
    WrapSmall(delta);
    WrapSmall(ExactLower(s) + delta);
  }

  /** Step next+32 starts at a positive deadline and its vote sets a negative one, for every random entropy. */
  lemma DeadlineFalls(entropy: nat)
    ensures Wrap(ExactUpper(NEXT + 32)) < 0 < Wrap(ExactLower(NEXT + 32)) && !Rises(NEXT + 32, entropy)
  {
    hide Pow2, Span;
    Pow2At32();
    Pow2Add(32, 1);
    assert Pow2(1) == 2 by { PowOne(); }
  }

  lemma PowOne()
    ensures Pow2(1) == 2
  {
    assert Pow2(0) == 1;
  }

  /** So the deadline rises through all steps up to `s`, whatever the entropies, exactly up to step next+31. */
  lemma RisesIff(s: Step, entropy: Step -> nat)
    requires NEXT < s
    ensures (forall t :: NEXT < t <= s ==> Rises(t, entropy(t))) <==> s <= NEXT + 31
  {
    hide Rises;
    if s <= NEXT + 31 {
      forall t | NEXT < t <= s ensures Rises(t, entropy(t)) {
        RandomDeadline(t, entropy(t));
      }
    } else {
      DeadlineFalls(entropy(NEXT + 32));
      assert !Rises(NEXT + 32, entropy(NEXT + 32));
    }
  }
}

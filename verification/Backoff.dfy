/** pkg/retry/exponential.go: capped exponential backoff with full jitter, in int64 nanoseconds. */
module Backoff {
  import opened Prelude

  const MILLISECOND := 1_000_000
  const MAX_DELAY := 3_600_000_000_000
  const LARGEST_SAFE_BASE_MS := 4_611_686_018_427

  function Pow2(n: nat): nat { if n == 0 then 1 else 2 * Pow2(n - 1) }

  /** The remaining iterations of the doubling loop, with the machine's wrap-around and the clamp. */
  function Doubled(iterations: nat, delay: int64): int64
  {
    if iterations == 0 then delay
    else
      var next := Wrap64(delay * 2);
      if next > MAX_DELAY then MAX_DELAY else Doubled(iterations - 1, next)
  }

  /** The argument handed to the random source, for every pair of Go ints. */
  function Delay(attempt: int64, baseMs: int64): int64 {
    Doubled(Max(0, attempt), Wrap64(baseMs * MILLISECOND))
  }

  /** The random wait: a draw below the window. */
  function Drawn(attempt: int64, baseMs: int64, draw: nat): nat {
    var window := Delay(attempt, baseMs);
    if window > 0 then draw % window else 0
  }

  /** What the documentation promises the window to be: base * 2^attempt, capped at one hour. */
  function Ceiling(attempt: nat, baseMs: nat): nat {
    Min(baseMs * MILLISECOND * Pow2(attempt), MAX_DELAY)
  }

  /** The loop. The random source panics on a non-positive argument, reported here as None;
      otherwise it may return any value below its argument, picked by `draw`. */
  method CalculateBackoff(attempt: int64, baseMs: int64, draw: nat) returns (jitter: Option<nat>)
    ensures Delay(attempt, baseMs) <= 0 ==> jitter == None
    ensures Delay(attempt, baseMs) > 0 ==> jitter == Some(Drawn(attempt, baseMs, draw))
  {
    var base := Wrap64(baseMs * MILLISECOND);
    var delay: int64 := base;
    var i := 0;
    while i < attempt
      invariant 0 <= i <= Max(0, attempt)
      invariant Doubled(Max(0, attempt) - i, delay) == Delay(attempt, baseMs)
    {
      delay := Wrap64(delay * 2);
      if delay > MAX_DELAY {
        delay := MAX_DELAY;
        break;
      }
      i := i + 1;
    }
    if delay <= 0 {
      return None;
    }
    return Some(draw % delay);
  }

  /** Full jitter: the wait is always below the window, and every wait below it is drawn by some draw. */
  lemma EveryWaitIsDrawn(attempt: int64, baseMs: int64, wait: nat)
    requires Delay(attempt, baseMs) > 0
    ensures (exists draw :: Drawn(attempt, baseMs, draw) == wait) <==> wait < Delay(attempt, baseMs)
  {
    if draw :| Drawn(attempt, baseMs, draw) == wait {
      Remainder(draw, Delay(attempt, baseMs));
    }
    Remainder(wait, Delay(attempt, baseMs));
    assert wait < Delay(attempt, baseMs) ==> Drawn(attempt, baseMs, wait) == wait;
  }

  lemma Remainder(draw: nat, window: int)
    requires window > 0
    ensures 0 <= draw % window < window && (draw < window ==> draw % window == draw)
  {
  }

  lemma WrapIsIdentity(x: int64)
    ensures Wrap64(x) == x
  {
  }

  lemma {:induction false} Pow2Positive(n: nat)
    ensures Pow2(n) >= 1
  {
    if n > 0 { Pow2Positive(n - 1); }
  }

  lemma {:induction false} Pow2Monotone(m: nat, n: nat)
    requires m <= n
    ensures Pow2(m) <= Pow2(n)
    decreases n
  {
    if m < n { Pow2Monotone(m, n - 1); }
  }

  /** The doubling loop never wraps when it starts at or below half the register. */
  lemma {:induction false} DoubledClosedForm(iterations: nat, delay: int64)
    requires 1 <= iterations
    requires 1 <= delay <= INT64_MAX / 2
    ensures Doubled(iterations, delay) == Min(delay * Pow2(iterations), MAX_DELAY)
  {
    WrapIsIdentity(delay * 2);
    OneDoubling(iterations, delay);
    if delay * 2 <= MAX_DELAY && iterations > 1 {
      DoubledClosedForm(iterations - 1, delay * 2);
    }
  }

  lemma OneDoubling(iterations: nat, delay: nat)
    requires 1 <= iterations
    ensures delay * Pow2(iterations) == delay * 2 * Pow2(iterations - 1) >= delay * 2
  {
    Pow2Positive(iterations - 1);
    ProductMonotone(delay * 2, delay * 2, 1, Pow2(iterations - 1));
  }

  /** For every attempt from 1 on and every base up to the largest whose doubling fits, however large
      the attempt: the window is exactly base * 2^attempt capped at an hour, so nothing overflowed. */
  lemma DelayIsCeiling(attempt: int64, baseMs: int64)
    requires attempt >= 1 && 1 <= baseMs <= 4_611_686_018_427
    ensures Delay(attempt, baseMs) == Ceiling(attempt, baseMs)
    ensures Delay(attempt, baseMs) == Min(baseMs * 1_000_000 * Pow2(attempt), 3_600_000_000_000)
    ensures 1 <= Delay(attempt, baseMs) <= MAX_DELAY
  {
    WrapIsIdentity(baseMs * MILLISECOND);
    DoubledClosedForm(attempt, baseMs * MILLISECOND);
    Pow2Positive(attempt);
    assert baseMs * MILLISECOND * Pow2(attempt) >= 1;
  }

  /** Above that base the first doubling wraps to a negative window, which panics. */
  lemma FirstDoublingWraps(baseMs: int64)
    requires LARGEST_SAFE_BASE_MS < baseMs <= INT64_MAX / MILLISECOND
    ensures Delay(1, baseMs) < 0
  {
    WrapIsIdentity(baseMs * MILLISECOND);
    assert Doubled(1, baseMs * MILLISECOND) == Doubled(0, Wrap64(2 * baseMs * MILLISECOND));
  }

  /** So the bound on the base is sharp: of the bases that fit in the register as nanoseconds, exactly those up
      to it follow the law at every attempt from 1 on. */
  lemma LargestSafeBaseIsSharp(baseMs: int64)
    requires 1 <= baseMs <= INT64_MAX / MILLISECOND
    ensures (forall attempt: int64 :: attempt >= 1 ==> Delay(attempt, baseMs) == Ceiling(attempt, baseMs))
            <==> baseMs <= 4_611_686_018_427
  {
    if baseMs <= LARGEST_SAFE_BASE_MS {
      forall attempt: int64 | attempt >= 1
        ensures Delay(attempt, baseMs) == Ceiling(attempt, baseMs)
      {
        DelayIsCeiling(attempt, baseMs);
      }
    } else {
      FirstDoublingWraps(baseMs);
      var first: int64 := 1;
      assert Delay(first, baseMs) != Ceiling(first, baseMs);
    }
  }

  /** A longer wait is never shorter: monotone in the attempt and in the base. */
  lemma DelayMonotone(attempt: int64, baseMs: int64, attempt': int64, baseMs': int64)
    requires 1 <= attempt <= attempt' && 1 <= baseMs <= baseMs' <= LARGEST_SAFE_BASE_MS
    ensures Delay(attempt, baseMs) <= Delay(attempt', baseMs')
  {
    DelayIsCeiling(attempt, baseMs);
    DelayIsCeiling(attempt', baseMs');
    Pow2Monotone(attempt, attempt');
    ProductMonotone(baseMs * MILLISECOND, baseMs' * MILLISECOND, Pow2(attempt), Pow2(attempt'));
  }

  lemma ProductMonotone(a: nat, a': nat, b: nat, b': nat)
    requires a <= a' && b <= b'
    ensures a * b <= a' * b'
  {
    assert a * b <= a * b';
    assert a * b' <= a' * b';
  }

  /** Attempt 0 is not capped: the window is the base itself. */
  lemma AttemptZeroIsUncapped(attempt: int64, baseMs: int64)
    requires attempt <= 0 && INT64_MIN <= baseMs * MILLISECOND <= INT64_MAX
    ensures Delay(attempt, baseMs) == baseMs * MILLISECOND
  {
    WrapIsIdentity(baseMs * MILLISECOND);
  }

  /** Four doublings of a 32-bit millisecond base stay inside the register, so at the dispatcher's call
      site (attempts 1 to 4, a 32-bit column) the random source panics exactly for a base of zero or less. */
  lemma CallSitePanicsIffBaseNotPositive(attempt: int64, baseMs: int64)
    requires 1 <= attempt <= 4 && -0x8000_0000 <= baseMs <= 0x7FFF_FFFF
    ensures Delay(attempt, baseMs) > 0 <==> baseMs >= 1
  {
    if baseMs >= 1 {
      DelayIsCeiling(attempt, baseMs);
    } else {
      WrapIsIdentity(baseMs * MILLISECOND);
      Pow2Monotone(attempt, 4);
      assert Pow2(4) == 16;
      assert baseMs * MILLISECOND * Pow2(attempt) >= baseMs * MILLISECOND * 16;
      NonPositiveStays(attempt, baseMs * MILLISECOND);
    }
  }

  lemma NegativeGrows(d: int, factor: nat)
    requires d <= 0 && factor >= 1
    ensures d * factor <= d
  {
    assert d * factor == d + d * (factor - 1);
    assert d * (factor - 1) <= 0;
  }

  lemma {:induction false} NonPositiveStays(iterations: nat, delay: int64)
    requires delay * Pow2(iterations) >= INT64_MIN && delay <= 0
    ensures Doubled(iterations, delay) <= 0
  {
    if iterations > 0 {
      Pow2Positive(iterations - 1);
      assert delay * Pow2(iterations) == delay * 2 * Pow2(iterations - 1);
      NegativeGrows(delay * 2, Pow2(iterations - 1));
      WrapIsIdentity(delay * 2);
      NonPositiveStays(iterations - 1, delay * 2);
    }
  }

  /** The base a new tenant is stored with: zero means 1000, below 100 is refused. */
  function BaseOnCreate(baseMs: int64): Option<int64> {
    if baseMs != 0 && baseMs < 100 then None else Some(if baseMs == 0 then 1000 else baseMs)
  }

  /** The base an update stores; here zero is refused as well. */
  function BaseOnUpdate(baseMs: int64): Option<int64> {
    if baseMs < 100 then None else Some(baseMs)
  }

  /** Which bases are accepted, and as what. */
  lemma AcceptedBases(baseMs: int64)
    ensures BaseOnCreate(baseMs) == (if baseMs == 0 then Some(1000) else if baseMs >= 100 then Some(baseMs) else None)
    ensures BaseOnUpdate(baseMs) == if baseMs >= 100 then Some(baseMs) else None
  {
  }

  /** Validation plus the 32-bit column rule out the panic at every attempt, not only at the call site. */
  lemma AcceptedBaseNeverPanics(baseMs: int64, stored: int64, attempt: int64)
    requires BaseOnCreate(baseMs) == Some(stored) || BaseOnUpdate(baseMs) == Some(stored)
    requires stored <= 0x7FFF_FFFF && attempt >= 1
    ensures 1 <= Delay(attempt, stored) <= MAX_DELAY
    ensures Delay(attempt, stored) == Ceiling(attempt, stored)
  {
    DelayIsCeiling(attempt, stored);
  }
}

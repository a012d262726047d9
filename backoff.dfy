/** The jittered exponential backoff of packages/ingestion/src/util/backoff.ts. */
module Backoff {

  const DEFAULT_BASE_MS: nat := 500
  const DEFAULT_MAX_MS: nat := 10_000
  /** The jitter never exceeds this many milliseconds (less one). */
  const JITTER_CAP_MS: nat := 250

  /** `Math.random()` returns a double in [0, 1), that is `d / 2^53` for a
      whole number `d` below `2^53`; the model takes `d` as an input. */
  const RANDOM_SCALE: nat := 0x20_0000_0000_0000
  type RandomDraw = d: nat | d < RANDOM_SCALE

  function Min(a: int, b: int): int {
    if a <= b then a else b
  }

  function Max(a: int, b: int): int {
    if a >= b then a else b
  }

  function Pow2(n: nat): (r: nat)
    ensures r >= 1
  {
    if n == 0 then 1 else 2 * Pow2(n - 1)
  }

  lemma {:induction false} Pow2Monotone(m: nat, n: nat)
    requires m <= n
    ensures Pow2(m) <= Pow2(n)
  {
    if m < n {
      Pow2Monotone(m, n - 1);
    }
  }

  /** The deterministic part, `min(maxMs, baseMs * 2 ** max(0, attempt))`. */
  function ExpDelay(attempt: int, baseMs: nat, maxMs: nat): (e: nat)
    ensures e <= maxMs
    ensures attempt <= 0 ==> e == Min(maxMs, baseMs)
  {
    Min(maxMs, baseMs * Pow2(Max(0, attempt)))
  }

  /** `floor(random * min(250, exp))` for the draw `d`. */
  function Jitter(exp: nat, d: RandomDraw): (j: nat)
    ensures exp >= 1 ==> j < Min(JITTER_CAP_MS, exp)
    ensures exp == 0 ==> j == 0
  {
    d * Min(JITTER_CAP_MS, exp) / RANDOM_SCALE
  }

  /** `computeBackoffMs(attempt, baseMs, maxMs)` with `Math.random()` drawn as `d`. */
  function ComputeBackoffMs(attempt: int, baseMs: nat, maxMs: nat, d: RandomDraw): (r: nat)
    ensures ExpDelay(attempt, baseMs, maxMs) <= r
    ensures ExpDelay(attempt, baseMs, maxMs) >= 1 ==>
              r <= ExpDelay(attempt, baseMs, maxMs) + Min(JITTER_CAP_MS, ExpDelay(attempt, baseMs, maxMs)) - 1
    ensures ExpDelay(attempt, baseMs, maxMs) == 0 ==> r == 0
    ensures r <= maxMs + JITTER_CAP_MS - 1 || r == 0
  {
    var exp := ExpDelay(attempt, baseMs, maxMs);
    exp + Jitter(exp, d)
  }

  /** The deterministic part never shrinks as the attempt grows. */
  lemma ExpDelayMonotone(a: int, b: int, baseMs: nat, maxMs: nat)
    requires a <= b
    ensures ExpDelay(a, baseMs, maxMs) <= ExpDelay(b, baseMs, maxMs)
  {
    Pow2Monotone(Max(0, a), Max(0, b));
  }

  /** Once the cap is reached it stays reached. */
  lemma ExpDelaySaturates(a: int, b: int, baseMs: nat, maxMs: nat)
    requires a <= b
    requires ExpDelay(a, baseMs, maxMs) == maxMs
    ensures ExpDelay(b, baseMs, maxMs) == maxMs
  {
    ExpDelayMonotone(a, b, baseMs, maxMs);
  }

  /** With the defaults the schedule is 500, 1000, 2000, 4000, 8000 and then
      10000 for every later attempt; negative attempts behave like attempt 0. */
  lemma DefaultSchedule(attempt: int)
    ensures attempt <= 0 ==> ExpDelay(attempt, DEFAULT_BASE_MS, DEFAULT_MAX_MS) == 500
    ensures ExpDelay(1, DEFAULT_BASE_MS, DEFAULT_MAX_MS) == 1000
    ensures ExpDelay(2, DEFAULT_BASE_MS, DEFAULT_MAX_MS) == 2000
    ensures ExpDelay(3, DEFAULT_BASE_MS, DEFAULT_MAX_MS) == 4000
    ensures ExpDelay(4, DEFAULT_BASE_MS, DEFAULT_MAX_MS) == 8000
    ensures attempt >= 5 ==> ExpDelay(attempt, DEFAULT_BASE_MS, DEFAULT_MAX_MS) == 10_000
  {
    assert Pow2(4) == 16;
    if attempt >= 5 {
      Pow2Monotone(5, attempt);
      assert Pow2(5) == 32;
    }
  }

  /** The overall ceilings: 10249 ms with the defaults and 5249 ms with the
      worker's bounds (200, 5000). */
  lemma BackoffCeilings(attempt: int, d: RandomDraw)
    ensures ComputeBackoffMs(attempt, DEFAULT_BASE_MS, DEFAULT_MAX_MS, d) <= 10_249
    ensures ComputeBackoffMs(attempt, 200, 5_000, d) <= 5_249
  {
  }
}

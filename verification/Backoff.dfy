/**
  Retry backoff: exponential growth in 64-bit arithmetic that saturates before
  it is capped, then jitter.  `f64` is modelled by `real`.
 */
module Backoff {
  import opened Tables

  function Pow2(n: nat): nat {
    if n == 0 then 1 else 2 * Pow2(n - 1)
  }

  /** `1_i64.checked_shl(n).filter(|v| *v > 0).unwrap_or(i64::MAX)`: bit 63 is the sign. */
  function Multiplier(n: nat): int {
    if n >= 63 then I64_MAX else Pow2(n)
  }

  function SaturatingMul(a: int, b: int): int {
    if a * b > I64_MAX then I64_MAX else if a * b < -I64_MAX - 1 then -I64_MAX - 1 else a * b
  }

  function Min(a: int, b: int): int {
    if a < b then a else b
  }

  function RetryDelay(base: int, cap: int, attempt: nat): int {
    if base == 0 then 0
    else Min(SaturatingMul(base, Multiplier(if attempt == 0 then 0 else attempt - 1)), cap)
  }

  lemma {:induction false} Pow2Grows(m: nat, n: nat)
    requires m <= n
    ensures 1 <= Pow2(m) <= Pow2(n)
    decreases n
  {
    if n > 0 {
      Pow2Grows(if m == n then n - 1 else m, n - 1);
      if m == n { Pow2Grows(0, n - 1); }
    }
  }

  lemma Pow2At63()
    ensures Pow2(63) == I64_MAX + 1
  {
    assert Pow2(8) == 0x100;
    assert Pow2(16) == 0x1_0000;
    assert Pow2(24) == 0x100_0000;
    assert Pow2(32) == 0x1_0000_0000;
    assert Pow2(40) == 0x100_0000_0000;
    assert Pow2(48) == 0x1_0000_0000_0000;
    assert Pow2(56) == 0x100_0000_0000_0000;
  }

  lemma Scale(a: nat, x: int, y: int)
    requires x <= y
    ensures a * x <= a * y
    ensures a >= 1 && x >= 0 ==> x <= a * x
  {
  }

  /** Saturation never shows: the delay is the exact doubled base, capped. */
  lemma RetryDelayExact(base: nat, cap: nat, attempt: nat)
    requires cap <= I64_MAX && attempt >= 1
    ensures RetryDelay(base, cap, attempt) == Min(base * Pow2(attempt - 1), cap)
  {
    var n := attempt - 1;
    if base > 0 {
      if n >= 63 {
        Pow2At63();
        Pow2Grows(63, n);
        Scale(base, Pow2(63), Pow2(n));
        Scale(base, I64_MAX, I64_MAX);
      } else {
        Pow2Grows(0, n);
      }
    }
  }

  lemma RetryDelayMonotone(base: nat, cap: nat, m: nat, n: nat)
    requires cap <= I64_MAX && 1 <= m <= n
    ensures 0 <= RetryDelay(base, cap, m) <= RetryDelay(base, cap, n) <= cap
  {
    RetryDelayExact(base, cap, m);
    RetryDelayExact(base, cap, n);
    Pow2Grows(m - 1, n - 1);
    Scale(base, Pow2(m - 1), Pow2(n - 1));
  }

  /** `f64::round` for a nonnegative argument. */
  function Round(x: real): int {
    (x + 0.5).Floor
  }

  function ApplyJitter(delay: int, jitter: real, rand: real): int {
    if jitter <= 0.0 || delay <= 0 then delay
    else
      var j := if jitter > 1.0 then 1.0 else jitter;
      var d := delay as real;
      var jittered := Round((1.0 - j) * d + j * rand * d);
      if jittered < 0 then 0 else if jittered > delay then delay else jittered
  }

  lemma ScaleReal(a: real, x: real, y: real)
    requires 0.0 <= a && x <= y
    ensures a * x <= a * y
  {
  }

  /** Jitter takes off at most the jittered fraction, and the clamp never acts. */
  lemma JitterBounds(delay: nat, jitter: real, rand: real)
    requires 0.0 <= jitter <= 1.0 && 0.0 <= rand < 1.0
    ensures 0 <= ApplyJitter(delay, jitter, rand) <= delay
    ensures (1.0 - jitter) * (delay as real) - 0.5 <= ApplyJitter(delay, jitter, rand) as real
    ensures jitter > 0.0 && delay > 0 ==>
              ApplyJitter(delay, jitter, rand) ==
              Round((1.0 - jitter) * (delay as real) + jitter * rand * (delay as real))
  {
    if jitter > 0.0 && delay > 0 {
      var d := delay as real;
      var exact := (1.0 - jitter) * d + jitter * rand * d;
      ScaleReal(jitter, rand, 1.0);
      ScaleReal(d, jitter * rand, jitter);
      ScaleReal(jitter, 0.0, rand);
      ScaleReal(d, 0.0, jitter * rand);
      ScaleReal(d, 0.0, 1.0 - jitter);
      assert (1.0 - jitter) * d <= exact <= d;
      assert 0 <= Round(exact) <= delay;
    }
  }

  /** A retried job is rescheduled no earlier than now and no later than now plus its cap. */
  lemma RescheduleBounds(now: int, retry: Retry, attempt: nat, rand: real)
    requires 0 <= retry.base && 0 <= retry.cap <= I64_MAX && 0.0 <= retry.jitter <= 1.0
    requires attempt >= 1 && 0.0 <= rand < 1.0 && -I64_MAX <= now <= I64_MAX
    ensures var delay := ApplyJitter(RetryDelay(retry.base, retry.cap, attempt), retry.jitter, rand);
            0 <= delay && now <= SatAdd(now, delay) <= now + retry.cap
  {
    RetryDelayMonotone(retry.base, retry.cap, attempt, attempt);
    JitterBounds(RetryDelay(retry.base, retry.cap, attempt), retry.jitter, rand);
  }
}

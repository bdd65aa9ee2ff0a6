/**
  The reconnect delay of internal/transport/backoff.go: `base << attempt`,
  capped at `max`, then a "full jitter" draw `rand.Int63n(d)` in `[0, d)`.

  Durations are Go `time.Duration` values, signed 64-bit nanosecond counts, and
  the shift is Go's: it wraps around modulo 2^64. The random draw is the
  parameter `r`; `rand.Int63n(n)` panics when `n <= 0`, which is the `Panic`
  outcome.
*/
module Backoff {

  const MinInt64: int := -0x8000_0000_0000_0000
  const MaxInt64: int := 0x7fff_ffff_ffff_ffff

  type Int64 = x: int | MinInt64 <= x <= MaxInt64

  /** What `backoff` does: sleep this long, or panic inside `rand.Int63n`. */
  datatype Outcome = Delay(nanos: Int64) | Panic

  function Pow2(n: nat): (p: nat)
    ensures p >= 1
  {
    if n == 0 then 1 else 2 * Pow2(n - 1)
  }

  /** Two's-complement wrap-around of an integer into the int64 range. */
  function Wrap64(v: int): (w: Int64)
    ensures MinInt64 <= v <= MaxInt64 ==> w == v
  {
    (v - MinInt64) % 0x1_0000_0000_0000_0000 + MinInt64
  }

  /** Go's `x << n` on an int64: `x * 2^n`, wrapped. */
  function ShiftLeft(x: Int64, n: nat): Int64
  {
    Wrap64(x * Pow2(n))
  }

  /** The clamped cap `d` of backoff.go:17-23, with a negative attempt read as 0. */
  function Cap(attempt: int, base: Int64, max: Int64): (d: Int64)
    ensures d <= max
  {
    var a := if attempt < 0 then 0 else attempt;
    var d := ShiftLeft(base, a);
    if d > max then max else d
  }

  /**
    `backoff(attempt, base, max)` where the random source returns `r`: the delay
    lies in `[0, d)`, and the call panics exactly when `d` is not positive.
  */
  function BackoffDelay(attempt: int, base: Int64, max: Int64, r: int): (o: Outcome)
    requires Cap(attempt, base, max) > 0 ==> 0 <= r < Cap(attempt, base, max)
    ensures o.Panic? <==> Cap(attempt, base, max) <= 0
    ensures o.Delay? ==> 0 <= o.nanos < Cap(attempt, base, max) && o.nanos < max
  {
    var d := Cap(attempt, base, max);
    if d <= 0 then Panic else Delay(r)
  }

  /** A negative attempt behaves exactly as attempt 0. */
  lemma NegativeAttemptIsZero(attempt: int, base: Int64, max: Int64)
    requires attempt < 0
    ensures Cap(attempt, base, max) == Cap(0, base, max)
  {
  }

  /**
    While `base * 2^attempt` fits in an int64, the cap is the intended
    `min(base * 2^attempt, max)`; with positive `base` and `max` it is then
    positive, so the draw never panics and the delay stays below both bounds.
  */
  lemma CapWhenShiftFits(attempt: nat, base: Int64, max: Int64)
    requires base > 0 && max > 0
    requires base * Pow2(attempt) <= MaxInt64
    ensures Cap(attempt, base, max) == if base * Pow2(attempt) > max then max else base * Pow2(attempt)
    ensures Cap(attempt, base, max) > 0
  {
    assert base * Pow2(attempt) >= base by {
      MulGrows(base, Pow2(attempt));
    }
  }

  lemma MulGrows(a: nat, b: nat)
    requires b >= 1
    ensures a * b >= a
  {
  }

  lemma DelayBelowBothBounds(attempt: nat, base: Int64, max: Int64, r: int)
    requires base > 0 && max > 0
    requires base * Pow2(attempt) <= MaxInt64
    requires 0 <= r < Cap(attempt, base, max)
    ensures BackoffDelay(attempt, base, max, r).Delay?
    ensures 0 <= BackoffDelay(attempt, base, max, r).nanos < max
    ensures BackoffDelay(attempt, base, max, r).nanos < base * Pow2(attempt)
  {
    CapWhenShiftFits(attempt, base, max);
  }

  // ---------------------------------------------------------------------
  // The overflow: transport.Dial increments its attempt counter on every
  // failed dial with no bound, and the defaults are base = 500ms, max = 30s.

  const DefaultBase: Int64 := 500_000_000
  const DefaultMax: Int64 := 30_000_000_000

  lemma Pow2Of35()
    ensures Pow2(35) == 34_359_738_368
  {
    assert Pow2(5) == 32;
    assert Pow2(10) == 1024;
    assert Pow2(15) == 32768;
    assert Pow2(20) == 1048576;
    assert Pow2(25) == 33554432;
    assert Pow2(30) == 1073741824;
  }

  /**
    At the 36th consecutive failed dial (attempt 35) the shift overflows to a
    negative value, which is below `max`, so `rand.Int63n` gets a negative
    argument and panics, whatever the random source would have returned.
  */
  lemma DefaultBackoffPanicsAtAttempt35(r: int)
    ensures Cap(35, DefaultBase, DefaultMax) < 0
    ensures BackoffDelay(35, DefaultBase, DefaultMax, r) == Panic
  {
    Pow2Of35();
    assert DefaultBase * Pow2(35) == 17_179_869_184_000_000_000;
    assert Wrap64(17_179_869_184_000_000_000) == -1_266_874_889_709_551_616;
  }

  /**
    The delay the code evidently intends: exponential growth clamped to `max`,
    full jitter, and no sleep when the cap is zero, with the exponential
    computed without wrap-around.
  */
  function IntendedCap(attempt: int, base: int, max: int): int
  {
    var a := if attempt < 0 then 0 else attempt;
    var grown := base * Pow2(a);
    if grown > max then max else grown
  }

  function IntendedDelay(attempt: int, base: int, max: int, r: int): (delay: int)
    requires IntendedCap(attempt, base, max) > 0 ==> 0 <= r < IntendedCap(attempt, base, max)
    ensures 0 <= delay
    ensures IntendedCap(attempt, base, max) > 0 ==> delay < IntendedCap(attempt, base, max)
  {
    var d := IntendedCap(attempt, base, max);
    if d <= 0 then 0 else r
  }

  /** With positive base and cap the intended delay never panics and stays below `max`, for every attempt. */
  lemma IntendedNeverPanics(attempt: int, base: int, max: int, r: int)
    requires base > 0 && max > 0
    requires 0 <= r < IntendedCap(attempt, base, max)
    ensures IntendedCap(attempt, base, max) > 0
    ensures IntendedDelay(attempt, base, max, r) < max
    ensures attempt >= 0 ==> IntendedDelay(attempt, base, max, r) < base * Pow2(attempt)
  {
    var a := if attempt < 0 then 0 else attempt;
    MulGrows(base, Pow2(a));
  }

  /** Where the shift fits, the code and the intended delay agree. */
  lemma AgreesWhileShiftFits(attempt: nat, base: Int64, max: Int64, r: int)
    requires base > 0 && max > 0
    requires base * Pow2(attempt) <= MaxInt64
    requires 0 <= r < Cap(attempt, base, max)
    ensures IntendedCap(attempt, base, max) == Cap(attempt, base, max)
    ensures BackoffDelay(attempt, base, max, r) == Delay(IntendedDelay(attempt, base, max, r))
  {
    CapWhenShiftFits(attempt, base, max);
  }
}

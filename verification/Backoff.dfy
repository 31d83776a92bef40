/** How long a pod backs off after a number of failed attempts (minisched/queue/queue.go). */
module Backoff {

  /** Go's time.Duration: nanoseconds in a signed 64-bit integer. */
  newtype Duration = x: int | -0x8000_0000_0000_0000 <= x < 0x8000_0000_0000_0000

  const SECOND: Duration := 1_000_000_000
  const POD_INITIAL_BACKOFF: Duration := 1 * SECOND
  const POD_MAX_BACKOFF: Duration := 10 * SECOND

  function Pow2(n: nat): (p: nat)
    ensures p >= 1
  {
    if n == 0 then 1 else 2 * Pow2(n - 1)
  }

  /** Doubled once for each attempt after the first, capped at `max`. */
  function Capped(initial: int, max: int, attempts: int): int {
    var doubled := initial * Pow2(if attempts <= 1 then 0 else attempts - 1);
    if doubled <= max then doubled else max
  }

  /** The backoff the scheduler uses. */
  function BackoffOf(attempts: int): int {
    Capped(POD_INITIAL_BACKOFF as int, POD_MAX_BACKOFF as int, attempts)
  }

  /** The doubling loop. Every value it computes is a `Duration`, so no step wraps around. */
  method CalculateBackoffDuration(initial: Duration, max: Duration, attempts: int) returns (duration: Duration)
    requires 0 < initial <= max
    ensures duration as int == Capped(initial as int, max as int, attempts)
    ensures initial <= duration <= max
  {
    duration := initial;
    var i := 1;
    while i < attempts
      invariant 1 <= i
      invariant attempts <= 1 ==> i == 1
      invariant 1 < attempts ==> i <= attempts
      invariant initial <= duration <= max
      invariant duration as int == initial as int * Pow2(i - 1)
    {
      if duration > max - duration {
        DoublingMonotone(initial as int, i, attempts - 1);
        assert initial as int * Pow2(i) == 2 * (initial as int * Pow2(i - 1));
        return max;
      }
      assert initial as int * Pow2(i) == 2 * (initial as int * Pow2(i - 1));
      duration := duration + duration;
      i := i + 1;
    }
  }

  lemma {:induction false} DoublingMonotone(initial: int, m: nat, n: nat)
    requires 0 <= initial && m <= n
    ensures initial * Pow2(m) <= initial * Pow2(n)
    decreases n
  {
    if m < n {
      DoublingMonotone(initial, m, n - 1);
      assert initial * Pow2(n) == 2 * (initial * Pow2(n - 1));
    }
  }

  /** More attempts never shorten the backoff. */
  lemma CappedMonotone(initial: int, max: int, m: int, n: int)
    requires 0 < initial <= max && m <= n
    ensures initial <= Capped(initial, max, m) <= Capped(initial, max, n) <= max
  {
    var steps := (a: int) => if a <= 1 then 0 else a - 1;
    DoublingMonotone(initial, steps(m), steps(n));
    DoublingMonotone(initial, 0, steps(m));
  }

  /** The first attempt waits the initial time. Together with `CappedStep` this fixes every backoff. */
  lemma CappedFirst(initial: int, max: int, attempts: int)
    requires 0 < initial <= max && attempts <= 1
    ensures Capped(initial, max, attempts) == initial
  {
    assert Pow2(0) == 1;
  }

  /** The scheduler's backoffs, in nanoseconds. */
  function BackoffTable(attempts: int): int {
    if attempts <= 1 then 1_000_000_000
    else if attempts == 2 then 2_000_000_000
    else if attempts == 3 then 4_000_000_000
    else if attempts == 4 then 8_000_000_000
    else 10_000_000_000
  }

  lemma BackoffIsTable(attempts: int)
    ensures BackoffOf(attempts) == BackoffTable(attempts)
  {
    assert Pow2(0) == 1 && Pow2(1) == 2 && Pow2(2) == 4 && Pow2(3) == 8 && Pow2(4) == 16;
    if attempts > 5 {
      CappedMonotone(POD_INITIAL_BACKOFF as int, POD_MAX_BACKOFF as int, 5, attempts);
    }
  }

  /** One more attempt doubles the backoff until the cap is met, and the cap is met for good. */
  lemma CappedStep(initial: int, max: int, attempts: int)
    requires 0 < initial <= max && 1 <= attempts
    ensures var now, next := Capped(initial, max, attempts), Capped(initial, max, attempts + 1);
            next == if 2 * now <= max then 2 * now else max
  {
    assert initial * Pow2(attempts) == 2 * (initial * Pow2(attempts - 1));
  }
}

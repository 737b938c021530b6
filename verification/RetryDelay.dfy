/**
 The wait before a failed user's retry (internal/aml/scheduler.go, retryDelay).
 Durations are whole nanoseconds; the jitter is a real in [0, 1).
 */
module RetryDelay {

  const SECOND: int := 1_000_000_000
  const RETRY_BASE: int := 30 * SECOND
  const RETRY_MAX: int := 600 * SECOND
  const RESERVE_PAUSE: int := 600 * SECOND
  const MAX_INT64: int := 0x7FFF_FFFF_FFFF_FFFF

  function Pow2(n: nat): (r: int)
    ensures r >= 1
  {
    if n == 0 then 1 else 2 * Pow2(n - 1)
  }

  /** math.Round on a nonnegative number: half away from zero. */
  function Round(x: real): int {
    (x + 0.5).Floor
  }

  predicate Jitter(j: real) {
    0.0 <= j < 1.0
  }

  /** retryBase << max(failures-1, 0), or retryMax past ten failures. */
  function Doubled(failures: nat): int {
    if failures <= 10 then RETRY_BASE * Pow2(if failures == 0 then 0 else failures - 1) else RETRY_MAX
  }

  function Cap(jitter: real): int {
    Round(RETRY_MAX as real * (0.8 + 0.2 * jitter))
  }

  lemma Pow2Table()
    ensures Pow2(0) == 1 && Pow2(1) == 2 && Pow2(2) == 4 && Pow2(3) == 8 && Pow2(4) == 16
    ensures Pow2(5) == 32 && Pow2(6) == 64 && Pow2(7) == 128 && Pow2(8) == 256 && Pow2(9) == 512
  {
    assert Pow2(4) == 2 * Pow2(3);
    assert Pow2(5) == 2 * Pow2(4);
    assert Pow2(6) == 2 * Pow2(5);
    assert Pow2(7) == 2 * Pow2(6);
    assert Pow2(8) == 2 * Pow2(7);
    assert Pow2(9) == 2 * Pow2(8);
  }

  /** The shift stays far below the 64-bit range for every count of failures. */
  lemma NoOverflow(failures: nat)
    ensures 0 < Doubled(failures) <= 512 * RETRY_BASE < MAX_INT64
  {
    Pow2Table();
    if failures <= 10 {
      var n := if failures == 0 then 0 else failures - 1;
      assert n == 0 || n == 1 || n == 2 || n == 3 || n == 4 || n == 5 || n == 6 || n == 7 || n == 8 || n == 9;
    }
  }

  function Jittered(delay: int, jitter: real): int {
    Round(delay as real * (0.8 + 0.4 * jitter))
  }

  function Delay(failures: nat, jitter: real): int {
    Min(Jittered(Doubled(failures), jitter), Cap(jitter))
  }

  function Min(a: int, b: int): int {
    if a <= b then a else b
  }

  lemma RoundMonotone(x: real, y: real)
    requires x <= y
    ensures Round(x) <= Round(y)
  {
  }

  lemma Scale(a: real, b: real, c: real)
    requires a <= b && 0.0 <= c
    ensures a * c <= b * c
  {
  }

  lemma JitteredMonotone(a: int, b: int, jitter: real)
    requires a <= b && Jitter(jitter)
    ensures Jittered(a, jitter) <= Jittered(b, jitter)
  {
    Scale(a as real, b as real, 0.8 + 0.4 * jitter);
    RoundMonotone(a as real * (0.8 + 0.4 * jitter), b as real * (0.8 + 0.4 * jitter));
  }

  /** The cap lies between what 480 and what 600 seconds would give. */
  lemma CapBetween(jitter: real)
    requires Jitter(jitter)
    ensures Jittered(480 * SECOND, jitter) <= Cap(jitter) <= Jittered(RETRY_MAX, jitter)
  {
    RoundMonotone((480 * SECOND) as real * (0.8 + 0.4 * jitter), RETRY_MAX as real * (0.8 + 0.2 * jitter));
    RoundMonotone(RETRY_MAX as real * (0.8 + 0.2 * jitter), RETRY_MAX as real * (0.8 + 0.4 * jitter));
  }

  lemma DoubledTable(failures: nat)
    ensures failures <= 1 ==> Doubled(failures) == RETRY_BASE
    ensures 2 <= failures <= 10 ==> Doubled(failures) == 2 * Doubled(failures - 1)
    ensures failures <= 5 ==> RETRY_BASE <= Doubled(failures) <= 480 * SECOND
    ensures failures >= 6 ==> Doubled(failures) >= RETRY_MAX
  {
    Pow2Table();
    if failures <= 10 {
      assert failures == 0 || failures == 1 || failures == 2 || failures == 3 || failures == 4 || failures == 5
        || failures == 6 || failures == 7 || failures == 8 || failures == 9 || failures == 10;
    }
  }

  /**
   The delay in closed form: the doubling with its own jitter for the first
   five failures in a row, the jittered cap from the sixth on, also past ten,
   where the code stops doubling.
   */
  lemma ClosedForm(failures: nat, jitter: real)
    requires Jitter(jitter)
    ensures failures <= 5 ==> Delay(failures, jitter) == Jittered(Doubled(failures), jitter)
    ensures failures >= 6 ==> Delay(failures, jitter) == Cap(jitter)
  {
    DoubledTable(failures);
    CapBetween(jitter);
    if failures >= 6 {
      JitteredMonotone(RETRY_MAX, Doubled(failures), jitter);
    } else {
      JitteredMonotone(Doubled(failures), 480 * SECOND, jitter);
    }
  }

  lemma DoubledMonotone(m: nat, n: nat)
    requires m <= n <= 5
    ensures Doubled(m) <= Doubled(n)
  {
    if m < n {
      DoubledMonotone(m, n - 1);
      DoubledTable(n);
      DoubledTable(n - 1);
    }
  }

  /** More failures in a row never shorten the wait, at any one jitter. */
  lemma Monotone(m: nat, n: nat, jitter: real)
    requires m <= n && Jitter(jitter)
    ensures Delay(m, jitter) <= Delay(n, jitter)
  {
    ClosedForm(m, jitter);
    ClosedForm(n, jitter);
    if n <= 5 {
      DoubledMonotone(m, n);
      JitteredMonotone(Doubled(m), Doubled(n), jitter);
    }
  }

  /** A retry is always strictly later, by 24 seconds at least, and never by more than retryMax. */
  lemma Bounds(failures: nat, jitter: real)
    requires Jitter(jitter)
    ensures 24 * SECOND <= Delay(failures, jitter) <= RETRY_MAX
  {
    Monotone(0, failures, jitter);
    ClosedForm(0, jitter);
    DoubledTable(0);
    Scale(0.8, 0.8 + 0.4 * jitter, RETRY_BASE as real);
    RoundMonotone(RETRY_BASE as real * 0.8, RETRY_BASE as real * (0.8 + 0.4 * jitter));
    Scale(0.8 + 0.2 * jitter, 1.0, RETRY_MAX as real);
    RoundMonotone(RETRY_MAX as real * (0.8 + 0.2 * jitter), RETRY_MAX as real);
  }

  lemma JitterMonotone(delay: int, j: real, k: real)
    requires 0 <= delay && Jitter(j) && Jitter(k) && j <= k
    ensures Jittered(delay, j) <= Jittered(delay, k)
  {
    Scale(0.8 + 0.4 * j, 0.8 + 0.4 * k, delay as real);
    RoundMonotone(delay as real * (0.8 + 0.4 * j), delay as real * (0.8 + 0.4 * k));
  }

  /**
   The jitter spreads a delay evenly around it, by a fifth to either side, and
   the cap below retryMax, by a fifth; more jitter is never a shorter wait.
   */
  lemma Spread(delay: int, j: real, k: real)
    requires 0 <= delay && Jitter(j) && Jitter(k) && j <= k
    ensures Jittered(5 * delay, 0.0) == 4 * delay && Jittered(delay, 0.5) == delay
    ensures Jittered(5 * delay, j) <= 6 * delay && Jittered(delay, j) <= Jittered(delay, k)
    ensures Cap(0.0) == 480 * SECOND && Cap(0.5) == 540 * SECOND && Cap(j) <= Cap(k) <= 600 * SECOND
  {
    JitterMonotone(delay, j, k);
    Scale(0.8 + 0.4 * j, 1.2, (5 * delay) as real);
    RoundMonotone((5 * delay) as real * (0.8 + 0.4 * j), (5 * delay) as real * 1.2);
    RoundMonotone(RETRY_MAX as real * (0.8 + 0.2 * j), RETRY_MAX as real * (0.8 + 0.2 * k));
    RoundMonotone(RETRY_MAX as real * (0.8 + 0.2 * k), RETRY_MAX as real);
  }
}

/** The jittered backoff of the poll loop after failed claims, in the saturating
    integer arithmetic of `Duration`, `u32` and `u64`. */
module ClaimBackoff {
  import opened Powers

  const NANOS_PER_MILLI: nat := 1_000_000
  const U32_MAX: nat := 0xFFFF_FFFF
  const U64_MAX: nat := 0xFFFF_FFFF_FFFF_FFFF
  const DURATION_MAX: nat := 0x1_0000_0000_0000_0000 * 1_000_000_000 - 1

  /** A `Duration` in nanoseconds. */
  type Duration = d: nat | d <= DURATION_MAX

  function Min(a: nat, b: nat): nat {
    if a <= b then a else b
  }

  function SaturatingAdd(a: Duration, b: nat): Duration {
    Min(a + b, DURATION_MAX)
  }

  function SaturatingSub(a: nat, b: nat): nat {
    if a >= b then a - b else 0
  }

  /** `2u32.saturating_pow(e)` */
  function SaturatingPow2(e: nat): nat {
    if e < 32 then Min(Pow2(e), U32_MAX) else U32_MAX
  }

  /** The upper end of the jitter draw, in milliseconds. */
  function JitterRange(capped: Duration, maxBackoff: Duration): nat {
    var millis := SaturatingSub(maxBackoff, capped) / NANOS_PER_MILLI;
    if millis > U64_MAX then 0 else Min(millis, U64_MAX - 1)
  }

  function CappedBase(poll: Duration, maxBackoff: Duration, errorsBefore: nat): Duration {
    Min(Min(poll * SaturatingPow2(SaturatingSub(errorsBefore, 1)), DURATION_MAX), maxBackoff)
  }

  /** `random_range(0..=range)`, for any source of randomness. */
  predicate Drawn(jitter: nat, poll: Duration, maxBackoff: Duration, errorsBefore: nat) {
    jitter <= JitterRange(CappedBase(poll, maxBackoff, errorsBefore), maxBackoff)
  }

  /** The delay after an error that follows `errorsBefore` errors in a row. */
  function Delay(poll: Duration, maxBackoff: Duration, errorsBefore: nat, jitter: nat): Duration {
    SaturatingAdd(CappedBase(poll, maxBackoff, errorsBefore), jitter * NANOS_PER_MILLI)
  }

  function CountError(errors: nat): nat {
    Min(errors + 1, U32_MAX)
  }

  /** The least delay after the k-th consecutive error. */
  function LeastDelay(poll: Duration, maxBackoff: Duration, k: nat): nat
    requires k >= 1
  {
    Min(poll * Min(Pow2(SaturatingSub(k, 2)), U32_MAX), maxBackoff)
  }

  lemma Pow2Of32()
    ensures Pow2(32) == 0x1_0000_0000
  {
    assert Pow2(4) == 16;
    assert Pow2(8) == 256;
    assert Pow2(12) == 4096;
    assert Pow2(16) == 65536;
    assert Pow2(20) == 1048576;
    assert Pow2(24) == 16777216;
    assert Pow2(28) == 268435456;
  }

  lemma SaturatingPow2IsMin(e: nat)
    ensures SaturatingPow2(e) == Min(Pow2(e), U32_MAX)
  {
    if e >= 32 {
      Pow2Grows(32, e);
      Pow2Of32();
    }
  }

  /** For every draw, the delay after the k-th consecutive error lies between the
      doubling base and `max_claim_backoff`. */
  lemma DelayBounds(poll: Duration, maxBackoff: Duration, k: nat, jitter: nat)
    requires k >= 1 && Drawn(jitter, poll, maxBackoff, k - 1)
    ensures LeastDelay(poll, maxBackoff, k) <= Delay(poll, maxBackoff, k - 1, jitter) <= maxBackoff
  {
    var capped := CappedBase(poll, maxBackoff, k - 1);
    SaturatingPow2IsMin(SaturatingSub(k, 2));
    assert SaturatingSub(k - 1, 1) == SaturatingSub(k, 2);
    assert jitter * NANOS_PER_MILLI <= maxBackoff - capped;
  }

  lemma ScaleGrows(d: nat, a: nat, b: nat)
    requires a <= b
    ensures d * a <= d * b
  {
  }

  lemma LeastDelayGrows(poll: Duration, maxBackoff: Duration, k: nat, l: nat)
    requires 1 <= k <= l
    ensures LeastDelay(poll, maxBackoff, k) <= LeastDelay(poll, maxBackoff, l)
  {
    Pow2Grows(SaturatingSub(k, 2), SaturatingSub(l, 2));
    ScaleGrows(poll, Min(Pow2(SaturatingSub(k, 2)), U32_MAX), Min(Pow2(SaturatingSub(l, 2)), U32_MAX));
  }

  /** Counting the errors in 32 bits does not weaken the bound: once the counter
      sticks at its maximum, so does the doubling. */
  lemma SaturatedCountKeepsBound(poll: Duration, maxBackoff: Duration, k: nat)
    requires k >= 1
    ensures LeastDelay(poll, maxBackoff, Min(k - 1, U32_MAX) + 1) == LeastDelay(poll, maxBackoff, k)
  {
    if k - 1 > U32_MAX {
      Pow2Grows(32, k - 2);
      Pow2Grows(32, U32_MAX - 1);
      Pow2Of32();
    }
  }
}

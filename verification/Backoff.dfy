/** The retry delays of internal/orchestrator/actor_retry.go: a quota override, a fixed
    continuation delay, or an exponential failure backoff under a ceiling. Durations are
    nanoseconds. */
module Backoff {

  datatype RetryKind = Failure | Continuation | QuotaBackoff

  datatype RetryRequest = RetryRequest(kind: RetryKind, attempt: int, delayOverride: int)

  const SECOND: int := 1_000_000_000
  const CONTINUATION_DELAY: int := SECOND
  const BASE_DELAY: int := 10 * SECOND
  const DEFAULT_MAX_BACKOFF: int := 300 * SECOND
  const MAX_INT64: int := 0x7fff_ffff_ffff_ffff

  function Pow2(n: nat): (p: nat)
    ensures 1 <= p
  {
    if n == 0 then 1 else 2 * Pow2(n - 1)
  }

  function Min(a: int, b: int): int {
    if a <= b then a else b
  }

  function Max(a: int, b: int): int {
    if a <= b then b else a
  }

  /** A non-positive ceiling selects the five-minute default. */
  function EffectiveMax(maxBackoff: int): (m: int)
    ensures 0 < m
  {
    if maxBackoff <= 0 then DEFAULT_MAX_BACKOFF else maxBackoff
  }

  /** The attempt number counts from one; smaller values mean the first attempt. */
  function EffectiveAttempt(attempt: int): (n: nat)
    ensures 1 <= n
  {
    if attempt < 1 then 1 else attempt
  }

  /** The delay promised by section 8.4 of the Symphony SPEC. */
  function SpecFailureDelay(maxBackoff: int, attempt: int): int {
    Min(BASE_DELAY * Pow2(EffectiveAttempt(attempt) - 1), EffectiveMax(maxBackoff))
  }

  /** The one family of inputs on which halving the ceiling rounds the wrong way: an odd
      ceiling one nanosecond above the delay this attempt should get. */
  predicate RoundsUp(maxBackoff: int, attempt: int) {
    EffectiveAttempt(attempt) >= 2 &&
    EffectiveMax(maxBackoff) == BASE_DELAY * Pow2(EffectiveAttempt(attempt) - 1) + 1
  }

  /** What the scheduler's doubling loop returns for a failure or quota retry. */
  function FailureDelay(maxBackoff: int, attempt: int): (d: int)
  {
    if RoundsUp(maxBackoff, attempt) then EffectiveMax(maxBackoff) else SpecFailureDelay(maxBackoff, attempt)
  }

  function Delay(maxBackoff: int, req: RetryRequest): int {
    if req.delayOverride > 0 then req.delayOverride
    else if req.kind == Continuation then CONTINUATION_DELAY
    else FailureDelay(maxBackoff, req.attempt)
  }

  lemma {:induction false} Pow2Monotone(m: nat, n: nat)
    requires m <= n
    ensures Pow2(m) <= Pow2(n)
    decreases n - m
  {
    if m < n {
      Pow2Monotone(m, n - 1);
    }
  }

  /** NextDelay with its loop. No value the loop computes exceeds the larger of ten seconds and
      the ceiling, so with a ceiling that fits in 64 bits nothing overflows. */
  method NextDelay(maxBackoff: int, req: RetryRequest) returns (d: int, ghost widest: int)
    ensures d == Delay(maxBackoff, req)
    ensures req.delayOverride > 0 ==> d == req.delayOverride
    ensures req.delayOverride <= 0 && req.kind == Continuation ==> d == 1_000_000_000
    ensures req.delayOverride <= 0 && req.kind != Continuation ==>
              var ceiling := if maxBackoff <= 0 then 300_000_000_000 else maxBackoff;
              var doubled := 10_000_000_000 * Pow2(if req.attempt <= 1 then 0 else req.attempt - 1);
              if req.attempt >= 2 && ceiling == doubled + 1 then d == ceiling else d == Min(doubled, ceiling)
    ensures req.delayOverride <= 0 && req.kind != Continuation ==> d <= EffectiveMax(maxBackoff)
    ensures widest <= Max(BASE_DELAY, EffectiveMax(maxBackoff))
    ensures maxBackoff <= MAX_INT64 ==> widest <= MAX_INT64
  {
    widest := 0;
    if req.delayOverride > 0 {
      return req.delayOverride, 0;
    }
    if req.kind == Continuation {
      return CONTINUATION_DELAY, 0;
    }
    var attempt := if req.attempt < 1 then 1 else req.attempt;
    var limit := maxBackoff;
    if limit <= 0 {
      limit := DEFAULT_MAX_BACKOFF;
    }
    var delay := BASE_DELAY;
    widest := delay;
    var i := 1;
    while i < attempt
      invariant 1 <= i <= attempt
      invariant delay == BASE_DELAY * Pow2(i - 1)
      invariant i == 1 || delay + 1 < limit
      invariant widest == delay
    {
      if delay >= limit / 2 {
        StopsAtCeiling(limit, i, attempt);
        return limit, widest;
      }
      delay := delay * 2;
      widest := delay;
      i := i + 1;
    }
    if delay > limit {
      return limit, widest;
    }
    return delay, widest;
  }

  /** Leaving the loop early returns the right ceiling: later attempts are at the ceiling, and
      this one is unless it rounds up. */
  lemma StopsAtCeiling(limit: int, i: nat, attempt: nat)
    requires 0 < limit && 1 <= i < attempt
    requires BASE_DELAY * Pow2(i - 1) >= limit / 2
    ensures FailureDelay(limit, attempt) == limit
  {
    Pow2Monotone(i, attempt - 1);
    assert BASE_DELAY * Pow2(i) == 2 * (BASE_DELAY * Pow2(i - 1));
    if attempt - 1 > i {
      Pow2Monotone(i + 1, attempt - 1);
      assert Pow2(i + 1) == 2 * Pow2(i);
    }
  }

  /** Even ceilings never round up, so there the SPEC's formula holds for every attempt. */
  lemma EvenCeilingIsSpec(maxBackoff: int, attempt: int)
    requires maxBackoff % 2 == 0
    ensures FailureDelay(maxBackoff, attempt) == SpecFailureDelay(maxBackoff, attempt)
  {
  }

  /** A later attempt never waits less, whatever the ceiling. */
  lemma DelayMonotone(maxBackoff: int, early: int, late: int)
    requires early <= late
    ensures FailureDelay(maxBackoff, early) <= FailureDelay(maxBackoff, late)
  {
    var m, n := EffectiveAttempt(early), EffectiveAttempt(late);
    Pow2Monotone(m - 1, n - 1);
    if RoundsUp(maxBackoff, early) && m < n {
      Pow2Monotone(m, n - 1);
      assert Pow2(m) == 2 * Pow2(m - 1);
    }
  }

  /** An odd ceiling one nanosecond above 20 s makes the second attempt wait one nanosecond more
      than the formula says. */
  lemma OddCeilingRoundsUp()
    ensures SpecFailureDelay(20 * SECOND + 1, 2) == 20 * SECOND
    ensures FailureDelay(20 * SECOND + 1, 2) == 20 * SECOND + 1
  {
  }
}

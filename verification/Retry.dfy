/**
 Capped exponential backoff: internal/delivery/retry.go. The peer and the caller's context
 are arbitrary: `send(i)` is the outcome of the i-th send of the process, `cancelled(i)`
 whether the context is found done in the wait that follows it, and `clock(i)` the Unix time
 read after it.
 */
module Retry {
  import opened Clock
  import opened Dlq
  import opened Wrappers

  datatype RetryPolicy = RetryPolicy(baseDelay: Duration, multiplier: real, cap: Duration, maxAttempts: int)

  const DEFAULT_RETRY_POLICY := RetryPolicy(SECOND, 2.0, 5 * MINUTE, 10)

  // ---------------------------------------------------------------------------
  // Delays
  // ---------------------------------------------------------------------------

  function Times(x: real, m: real): real {
    x * m
  }

  /** Conversion to a whole number of nanoseconds drops the fraction. */
  function Truncated(x: real): int {
    if x >= 0.0 then x.Floor else -(-x).Floor
  }

  function NextDelay(p: RetryPolicy, delay: Duration): Duration {
    var d := Truncated(Times(delay as real, p.multiplier));
    if d > p.cap then p.cap else d
  }

  /** The k-th wait, counting from 1. */
  function Wait(p: RetryPolicy, k: nat): Duration
    requires k >= 1
  {
    if k == 1 then p.baseDelay else NextDelay(p, Wait(p, k - 1))
  }

  function Power(m: real, k: nat): real {
    if k == 0 then 1.0 else Power(m, k - 1) * m
  }

  /** The uncapped schedule the policy describes. */
  function Ideal(p: RetryPolicy, k: nat): real
    requires k >= 1
  {
    p.baseDelay as real * Power(p.multiplier, k - 1)
  }

  function Capped(p: RetryPolicy, k: nat): real
    requires k >= 1
  {
    if Ideal(p, k) < p.cap as real then Ideal(p, k) else p.cap as real
  }

  predicate Whole(x: real) {
    x.Floor as real == x
  }

  ghost predicate Growing(p: RetryPolicy) {
    p.multiplier >= 1.0 && 0 <= p.baseDelay <= p.cap
  }

  lemma Scales(x: real, m: real)
    requires x >= 0.0 && m >= 1.0
    ensures Times(x, m) >= x
  {
    assert x * (m - 1.0) >= 0.0;
  }

  lemma {:induction false} IdealGrows(p: RetryPolicy, k: nat)
    requires Growing(p) && k >= 1
    ensures Ideal(p, k) >= 0.0 && Ideal(p, k + 1) == Times(Ideal(p, k), p.multiplier) >= Ideal(p, k)
  {
    if k > 1 {
      IdealGrows(p, k - 1);
    }
    assert Power(p.multiplier, k) == Power(p.multiplier, k - 1) * p.multiplier;
    Scales(Ideal(p, k), p.multiplier);
  }

  /** Waits never decrease and never exceed the cap, whatever the multiplier. */
  lemma {:induction false} WaitsNeverDecrease(p: RetryPolicy, k: nat)
    requires Growing(p) && k >= 1
    ensures 0 <= Wait(p, k) <= Wait(p, k + 1) <= p.cap
  {
    if k > 1 {
      WaitsNeverDecrease(p, k - 1);
    }
    Scales(Wait(p, k) as real, p.multiplier);
  }

  lemma CapStep(p: RetryPolicy, delay: Duration, ideal: real, next: real)
    requires Growing(p) && ideal >= 0.0 && next == Times(ideal, p.multiplier)
    requires delay as real == if ideal < p.cap as real then ideal else p.cap as real
    requires next < p.cap as real ==> Whole(next)
    ensures NextDelay(p, delay) as real == if next < p.cap as real then next else p.cap as real
  {
    Scales(ideal, p.multiplier);
    if ideal < p.cap as real {
      assert Times(delay as real, p.multiplier) == next;
    } else {
      assert delay == p.cap;
      Scales(delay as real, p.multiplier);
    }
  }

  lemma {:induction false} WaitIsCapped(p: RetryPolicy, k: nat)
    requires Growing(p) && k >= 1
    requires forall i :: 1 <= i <= k && Ideal(p, i) < p.cap as real ==> Whole(Ideal(p, i))
    ensures Wait(p, k) as real == Capped(p, k)
  {
    if k > 1 {
      WaitIsCapped(p, k - 1);
      IdealGrows(p, k - 1);
      CapStep(p, Wait(p, k - 1), Ideal(p, k - 1), Ideal(p, k));
    }
  }

  /**
   The first n waits are exactly min(cap, base * multiplier^(k-1)) if and only if every
   term below the cap is a whole number of nanoseconds; otherwise truncation shows.
   */
  lemma WaitsExactIff(p: RetryPolicy, n: nat)
    requires Growing(p)
    ensures (forall k :: 1 <= k <= n ==> Wait(p, k) as real == Capped(p, k)) <==>
            (forall k :: 1 <= k <= n && Ideal(p, k) < p.cap as real ==> Whole(Ideal(p, k)))
  {
    if forall k :: 1 <= k <= n && Ideal(p, k) < p.cap as real ==> Whole(Ideal(p, k)) {
      forall k | 1 <= k <= n
        ensures Wait(p, k) as real == Capped(p, k)
      {
        WaitIsCapped(p, k);
      }
    } else {
      var k :| 1 <= k <= n && Ideal(p, k) < p.cap as real && !Whole(Ideal(p, k));
      assert Wait(p, k) as real != Capped(p, k) by {
        WholeInt(Wait(p, k));
      }
    }
  }

  lemma WholeInt(i: int)
    ensures Whole(i as real)
  {
  }

  lemma WholeTimes(x: real, m: real)
    requires Whole(x) && Whole(m)
    ensures Whole(Times(x, m))
  {
    var a, b := x.Floor, m.Floor;
    assert Times(x, m) == (a * b) as real;
    WholeInt(a * b);
  }

  /** An integral multiplier, such as the default, is always exact. */
  lemma {:induction false} IntegralMultiplierIsExact(p: RetryPolicy, k: nat)
    requires Growing(p) && Whole(p.multiplier) && k >= 1
    ensures Wait(p, k) as real == Capped(p, k)
  {
    forall i | 1 <= i <= k
      ensures Whole(Ideal(p, i))
    {
      IdealWhole(p, i);
    }
    WaitIsCapped(p, k);
  }

  lemma {:induction false} IdealWhole(p: RetryPolicy, k: nat)
    requires Growing(p) && Whole(p.multiplier) && k >= 1
    ensures Whole(Ideal(p, k))
  {
    if k == 1 {
      WholeInt(p.baseDelay);
    } else {
      IdealWhole(p, k - 1);
      IdealGrows(p, k - 1);
      WholeTimes(Ideal(p, k - 1), p.multiplier);
    }
  }

  /** A fractional multiplier on a delay too short to gain a nanosecond never backs off at all. */
  lemma {:induction false} ShortDelayStalls(p: RetryPolicy, k: nat)
    requires Growing(p) && Times(p.baseDelay as real, p.multiplier) < p.baseDelay as real + 1.0 && k >= 1
    ensures Wait(p, k) == p.baseDelay
  {
    if k > 1 {
      ShortDelayStalls(p, k - 1);
      Scales(p.baseDelay as real, p.multiplier);
    }
  }

  function TotalWait(p: RetryPolicy, n: nat): Duration {
    if n == 0 then 0 else TotalWait(p, n - 1) + Wait(p, n)
  }

  /** Ten attempts of the default policy wait 511 seconds in all, and never reach the cap. */
  lemma DefaultPolicyWaits()
    ensures TotalWait(DEFAULT_RETRY_POLICY, 9) == 511_000_000_000
    ensures Wait(DEFAULT_RETRY_POLICY, 9) == 256_000_000_000 < DEFAULT_RETRY_POLICY.cap == 300_000_000_000
    ensures DEFAULT_RETRY_POLICY.maxAttempts == 10
  {
    var p := DEFAULT_RETRY_POLICY;
    assert Wait(p, 1) == SECOND;
    assert Wait(p, 2) == 2 * SECOND;
    assert Wait(p, 3) == 4 * SECOND;
    assert Wait(p, 4) == 8 * SECOND;
    assert Wait(p, 5) == 16 * SECOND;
    assert Wait(p, 6) == 32 * SECOND;
    assert Wait(p, 7) == 64 * SECOND;
    assert Wait(p, 8) == 128 * SECOND;
    assert TotalWait(p, 1) == SECOND;
    assert TotalWait(p, 2) == 3 * SECOND;
    assert TotalWait(p, 3) == 7 * SECOND;
    assert TotalWait(p, 4) == 15 * SECOND;
    assert TotalWait(p, 5) == 31 * SECOND;
    assert TotalWait(p, 6) == 63 * SECOND;
    assert TotalWait(p, 7) == 127 * SECOND;
    assert TotalWait(p, 8) == 255 * SECOND;
  }

  // ---------------------------------------------------------------------------
  // The loop
  // ---------------------------------------------------------------------------

  datatype SendError = SendFailed(message: string) | ContextDone

  type Sender = nat -> Result<string, string>

  /** The retries that start with send number `start` stop after n sends. */
  predicate Stops(p: RetryPolicy, send: Sender, cancelled: nat -> bool, start: nat, n: nat)
    requires n >= 1
  {
    send(start + n - 1).Ok? || n == p.maxAttempts || cancelled(start + n - 1)
  }

  /** They make exactly n sends: as many as it takes to stop, and none if no attempt is allowed. */
  ghost predicate Makes(p: RetryPolicy, send: Sender, cancelled: nat -> bool, start: nat, n: nat) {
    if p.maxAttempts <= 0 then n == 0
    else
      && 1 <= n <= p.maxAttempts
      && Stops(p, send, cancelled, start, n)
      && forall k :: 1 <= k < n ==> !Stops(p, send, cancelled, start, k)
  }

  /** The total number of sends, when the first k of them have failed and their waits have passed. */
  function SendsAfter(p: RetryPolicy, send: Sender, cancelled: nat -> bool, start: nat, k: nat): (n: nat)
    ensures n >= k
    decreases p.maxAttempts - k
  {
    if k >= p.maxAttempts then k
    else if send(start + k).Ok? || cancelled(start + k) then k + 1
    else SendsAfter(p, send, cancelled, start, k + 1)
  }

  function SendCount(p: RetryPolicy, send: Sender, cancelled: nat -> bool, start: nat): nat {
    SendsAfter(p, send, cancelled, start, 0)
  }

  lemma {:induction false} SendsAfterMakes(p: RetryPolicy, send: Sender, cancelled: nat -> bool, start: nat, k: nat)
    requires p.maxAttempts <= 0 ==> k == 0
    requires p.maxAttempts > 0 ==> k < p.maxAttempts
    requires forall i :: 1 <= i <= k ==> !Stops(p, send, cancelled, start, i)
    ensures Makes(p, send, cancelled, start, SendsAfter(p, send, cancelled, start, k))
    decreases p.maxAttempts - k
  {
    if k < p.maxAttempts && !send(start + k).Ok? && !cancelled(start + k) && k + 1 < p.maxAttempts {
      SendsAfterMakes(p, send, cancelled, start, k + 1);
    } else if k < p.maxAttempts {
      assert Stops(p, send, cancelled, start, k + 1);
    }
  }

  /** Said without reference to when retries stop: every send but the last fails and is followed by a wait that passes. */
  lemma MakesMeans(p: RetryPolicy, send: Sender, cancelled: nat -> bool, start: nat, n: nat)
    requires Makes(p, send, cancelled, start, n)
    ensures p.maxAttempts <= 0 ==> n == 0
    ensures p.maxAttempts >= 1 ==>
              && 1 <= n <= p.maxAttempts
              && (forall k :: start <= k < start + n - 1 ==> send(k).Err? && !cancelled(k))
              && (send(start + n - 1).Ok? || n == p.maxAttempts || cancelled(start + n - 1))
  {
    forall k | start <= k < start + n - 1 && p.maxAttempts >= 1
      ensures send(k).Err? && !cancelled(k)
    {
      assert !Stops(p, send, cancelled, start, k - start + 1);
    }
  }

  method SendWithRetry(p: RetryPolicy, send: Sender, cancelled: nat -> bool, start: nat,
                       dlq: DLQ?, entry: DlqEntry, clock: nat -> int, queuedAt: int)
    returns (err: Option<SendError>, sends: nat, waits: seq<Duration>)
    modifies dlq
    ensures sends == SendCount(p, send, cancelled, start)
    ensures Makes(p, send, cancelled, start, sends)
    ensures p.maxAttempts <= 0 ==> sends == 0
    ensures p.maxAttempts >= 1 ==>
              && 1 <= sends <= p.maxAttempts
              && (forall k :: start <= k < start + sends - 1 ==> send(k).Err? && !cancelled(k))
              && (send(start + sends - 1).Ok? || sends == p.maxAttempts || cancelled(start + sends - 1))
    ensures err.Some? && err.value.SendFailed? ==> sends >= 1 && send(start + sends - 1) == Err(err.value.message)
    ensures err.None? <==> p.maxAttempts <= 0 || send(start + sends - 1).Ok?
    ensures err == Some(ContextDone) <==> 1 <= sends < p.maxAttempts && send(start + sends - 1).Err?
    ensures |waits| == (if sends == 0 then 0 else sends - 1)
    ensures forall k :: 0 <= k < |waits| ==> waits[k] == Wait(p, k + 1)
    ensures dlq != null ==>
              dlq.entries == if p.maxAttempts <= 0 then
                               old(dlq.entries) + [Stamped(entry, queuedAt)]
                             else if err.Some? && err.value.SendFailed? then
                               old(dlq.entries) + [Stamped(entry.(attempts := sends, lastErr := Some(err.value.message),
                                                                  lastAttemptUnix := clock(start + sends - 1)), queuedAt)]
                             else
                               old(dlq.entries)
  {
    var delay := p.baseDelay;
    var entry' := entry;
    err, sends, waits := None, 0, [];
    var attempt := 1;
    while attempt <= p.maxAttempts
      invariant sends == attempt - 1 == |waits|
      invariant attempt > 1 ==> attempt <= p.maxAttempts
      invariant SendCount(p, send, cancelled, start) == SendsAfter(p, send, cancelled, start, sends)
      invariant delay == Wait(p, attempt)
      invariant forall k :: 0 <= k < |waits| ==> waits[k] == Wait(p, k + 1)
      invariant forall k :: 1 <= k < attempt ==> !Stops(p, send, cancelled, start, k)
      invariant forall k :: start <= k < start + sends ==> send(k).Err? && !cancelled(k)
      invariant attempt == 1 ==> err.None? && entry' == entry
      invariant entry' == entry.(attempts := entry'.attempts, lastErr := entry'.lastErr,
                                 lastAttemptUnix := entry'.lastAttemptUnix)
      invariant dlq != null ==> dlq.entries == old(dlq.entries)
      decreases p.maxAttempts - attempt
    {
      var r := send(start + sends);
      sends := sends + 1;
      if r.Ok? {
        return None, sends, waits;
      }
      err := Some(SendFailed(r.error));
      entry' := entry'.(attempts := attempt, lastErr := Some(r.error), lastAttemptUnix := clock(start + sends - 1));
      if attempt == p.maxAttempts {
        break;
      }
      if cancelled(start + sends - 1) {
        return Some(ContextDone), sends, waits;
      }
      waits := waits + [delay];
      delay := NextDelay(p, delay);
      attempt := attempt + 1;
    }
    if dlq != null {
      dlq.Append(entry', queuedAt);
    }
  }

  /** Retries that are never cancelled and never succeed make exactly `maxAttempts` sends. */
  lemma ExhaustionUsesEveryAttempt(p: RetryPolicy, send: Sender, cancelled: nat -> bool, start: nat, n: nat)
    requires p.maxAttempts >= 1 && Makes(p, send, cancelled, start, n)
    requires forall i :: start <= i ==> send(i).Err? && !cancelled(i)
    ensures n == p.maxAttempts
  {
  }
}

/**
 The per-key token-bucket limiter of internal/ratelimit/tokenbucket.go. Instants are whole
 nanoseconds; tokens are real numbers, and floating-point rounding is not modelled.
 */
module RateLimit {
  import opened Clock

  const IDLE_EVICT_AFTER: Duration := 5 * MINUTE

  /** The shortest idle time after which a bucket may be evicted: the comparison is strict. */
  const FIRST_EVICTABLE: Duration := IDLE_EVICT_AFTER + 1

  const DEFAULT_RATE := 10.0
  const DEFAULT_BURST := 20

  datatype BucketState = BucketState(tokens: real, lastSeen: Time)

  function Min(x: real, y: real): real {
    if x > y then y else x
  }

  function Seconds(d: Duration): real {
    d as real / 1_000_000_000.0
  }

  function Gain(rate: real, elapsed: Duration): real {
    Seconds(elapsed) * rate
  }

  /** What the laws below count in: tokens per second times seconds, a second being a billion nanoseconds. */
  lemma GainIs(rate: real, elapsed: Duration)
    ensures Gain(rate, elapsed) == elapsed as real / 1_000_000_000.0 * rate
    ensures forall n: int :: elapsed == n * 1_000_000_000 ==> Gain(rate, elapsed) == n as real * rate
  {
  }

  lemma GainAdds(rate: real, a: Duration, b: Duration)
    ensures Gain(rate, a) + Gain(rate, b) == Gain(rate, a + b)
  {
    assert Seconds(a) + Seconds(b) == Seconds(a + b);
  }

  lemma GainMonotone(rate: real, a: Duration, b: Duration)
    requires rate > 0.0 && a <= b
    ensures Gain(rate, a) <= Gain(rate, b)
  {
    assert (Seconds(b) - Seconds(a)) * rate >= 0.0;
  }

  /** Tokens after the refill of a call at `now`, before it is decided. */
  function Refilled(b: BucketState, rate: real, capacity: real, now: Time): real {
    Min(b.tokens + Gain(rate, now - b.lastSeen), capacity)
  }

  predicate Admits(b: BucketState, rate: real, capacity: real, now: Time) {
    !(Refilled(b, rate, capacity, now) < 1.0)
  }

  function Called(b: BucketState, rate: real, capacity: real, now: Time): BucketState {
    var t := Refilled(b, rate, capacity, now);
    BucketState(if t < 1.0 then t else t - 1.0, now)
  }

  class Bucket {
    var tokens: real
    const capacity: real
    const rate: real
    var lastSeen: Time

    constructor (capacity: real, rate: real, now: Time)
      ensures State() == BucketState(capacity, now) && this.capacity == capacity && this.rate == rate
    {
      this.tokens, this.capacity, this.rate, this.lastSeen := capacity, capacity, rate, now;
    }

    ghost function State(): BucketState
      reads this
    {
      BucketState(tokens, lastSeen)
    }

    method Allow(now: Time) returns (ok: bool)
      modifies this
      ensures ok == Admits(old(State()), rate, capacity, now)
      ensures State() == Called(old(State()), rate, capacity, now)
      ensures var refilled := old(tokens) + (now - old(lastSeen)) as real / 1_000_000_000.0 * rate;
        var level := if refilled > capacity then capacity else refilled;
        ok == (level >= 1.0) && tokens == (if ok then level - 1.0 else level) && lastSeen == now
    {
      GainIs(rate, now - lastSeen);
      var elapsed := now - lastSeen;
      lastSeen := now;
      tokens := tokens + Gain(rate, elapsed);
      if tokens > capacity {
        tokens := capacity;
      }
      if tokens < 1.0 {
        return false;
      }
      tokens := tokens - 1.0;
      return true;
    }
  }

  // ---------------------------------------------------------------------------
  // One bucket: which calls are admitted
  // ---------------------------------------------------------------------------

  function Fresh(capacity: real, now: Time): BucketState {
    BucketState(capacity, now)
  }

  /** The bucket before the j-th call at the instants `ts`, created full by the first call. */
  function Before(rate: real, capacity: real, ts: seq<Time>, j: nat): BucketState
    requires j < |ts|
  {
    if j == 0 then Fresh(capacity, ts[0])
    else Called(Before(rate, capacity, ts, j - 1), rate, capacity, ts[j - 1])
  }

  predicate Admitted(rate: real, capacity: real, ts: seq<Time>, j: nat)
    requires j < |ts|
  {
    Admits(Before(rate, capacity, ts, j), rate, capacity, ts[j])
  }

  /** Admissions among the calls i, .., j - 1. */
  function Count(rate: real, capacity: real, ts: seq<Time>, i: nat, j: nat): (n: nat)
    requires i <= j <= |ts|
    decreases j - i
  {
    if i == j then 0
    else Count(rate, capacity, ts, i, j - 1) + (if Admitted(rate, capacity, ts, j - 1) then 1 else 0)
  }

  /** What the calls i, .., j - 1 leave of a full bucket and of the refill since call i. */
  function Budget(rate: real, capacity: real, ts: seq<Time>, i: nat, j: nat): real
    requires i <= j < |ts|
  {
    capacity + Gain(rate, ts[j] - ts[i]) - Count(rate, capacity, ts, i, j) as real
  }

  /** The refilled level is the least budget over all earlier starting points. */
  lemma {:induction false} LevelIsLeastBudget(rate: real, capacity: real, ts: seq<Time>, j: nat)
    requires j < |ts|
    ensures var level := Refilled(Before(rate, capacity, ts, j), rate, capacity, ts[j]);
      && (forall i :: 0 <= i <= j ==> level <= Budget(rate, capacity, ts, i, j))
      && (exists i :: 0 <= i <= j && level == Budget(rate, capacity, ts, i, j))
  {
    var level := Refilled(Before(rate, capacity, ts, j), rate, capacity, ts[j]);
    assert Budget(rate, capacity, ts, j, j) == capacity;
    if j > 0 {
      LevelIsLeastBudget(rate, capacity, ts, j - 1);
      var last := Refilled(Before(rate, capacity, ts, j - 1), rate, capacity, ts[j - 1]);
      var used := if Admitted(rate, capacity, ts, j - 1) then 1.0 else 0.0;
      var carried := last - used + Gain(rate, ts[j] - ts[j - 1]);
      assert level == if carried > capacity then capacity else carried;
      forall i | 0 <= i < j
        ensures Budget(rate, capacity, ts, i, j) - carried == Budget(rate, capacity, ts, i, j - 1) - last
      {
        GainAdds(rate, ts[j - 1] - ts[i], ts[j] - ts[j - 1]);
        assert ts[j - 1] - ts[i] + (ts[j] - ts[j - 1]) == ts[j] - ts[i];
      }
      if level == carried {
        var i :| 0 <= i <= j - 1 && last == Budget(rate, capacity, ts, i, j - 1);
        assert level == Budget(rate, capacity, ts, i, j);
      } else {
        assert level == Budget(rate, capacity, ts, j, j);
      }
    }
  }

  /**
   A call is admitted exactly when no window that ends in it would then hold more than
   burst + rate * length admissions, `Gain` being that product (`GainIs`). The instants may
   come in any order, since the clock is read before the lock is taken.
   */
  lemma AdmittedIffNoWindowOverflows(rate: real, capacity: real, ts: seq<Time>, j: nat)
    requires j < |ts|
    ensures Admitted(rate, capacity, ts, j) <==>
              forall i :: 0 <= i <= j ==>
                Count(rate, capacity, ts, i, j) as real + 1.0 <= capacity + Gain(rate, ts[j] - ts[i])
  {
    LevelIsLeastBudget(rate, capacity, ts, j);
    var level := Refilled(Before(rate, capacity, ts, j), rate, capacity, ts[j]);
    forall i | 0 <= i <= j
      ensures Budget(rate, capacity, ts, i, j) >= 1.0 <==>
                Count(rate, capacity, ts, i, j) as real + 1.0 <= capacity + Gain(rate, ts[j] - ts[i])
    {
    }
    if level < 1.0 {
      var i :| 0 <= i <= j && level == Budget(rate, capacity, ts, i, j);
      assert !(Count(rate, capacity, ts, i, j) as real + 1.0 <= capacity + Gain(rate, ts[j] - ts[i]));
    }
  }

  /** Hence the bound on every window that ends in an admitted call. */
  lemma WindowBound(rate: real, capacity: real, ts: seq<Time>, i: nat, j: nat)
    requires i <= j < |ts| && Admitted(rate, capacity, ts, j)
    ensures Count(rate, capacity, ts, i, j + 1) as real <= capacity + Gain(rate, ts[j] - ts[i])
  {
    AdmittedIffNoWindowOverflows(rate, capacity, ts, j);
  }

  /** Calls at one instant empty a full bucket one token at a time. */
  lemma {:induction false} EmptiedBy(rate: real, n: nat, ts: seq<Time>, i: nat)
    requires 1 <= i <= n < |ts| && forall k :: 0 <= k < n ==> ts[k] == ts[0]
    ensures Before(rate, n as real, ts, i) == BucketState((n - i) as real, ts[0])
  {
    if i > 1 {
      EmptiedBy(rate, n, ts, i - 1);
    }
    Spend((n - i + 1) as real, ts[0], rate, n as real);
  }

  /** After a burst of n calls at one instant the next call is admitted if and only if 1/rate seconds have passed. */
  lemma AdmittedAgainIff(rate: real, n: nat, ts: seq<Time>)
    requires rate > 0.0 && n >= 1 && |ts| == n + 1 && forall k :: 0 <= k < n ==> ts[k] == ts[0]
    ensures Admitted(rate, n as real, ts, n) <==> (ts[n] - ts[0]) as real / 1_000_000_000.0 >= 1.0 / rate
  {
    EmptiedBy(rate, n, ts, n);
    GainIs(rate, ts[n] - ts[0]);
    var x := (ts[n] - ts[0]) as real / 1_000_000_000.0;
    TimesRate(rate, x);
  }

  lemma TimesRate(rate: real, x: real)
    requires rate > 0.0
    ensures x * rate >= 1.0 <==> x >= 1.0 / rate
  {
    var y := 1.0 / rate;
    assert y * rate == 1.0;
    assert (x - y) * rate == x * rate - 1.0;
  }

  // ---------------------------------------------------------------------------
  // The limiter: one bucket per key, created on demand and evicted when idle
  // ---------------------------------------------------------------------------

  type Buckets = map<string, BucketState>

  function BucketFor(m: Buckets, capacity: real, key: string, now: Time): BucketState {
    if key in m then m[key] else Fresh(capacity, now)
  }

  function Swept(m: Buckets, at: Time): Buckets {
    map k | k in m && !(at - m[k].lastSeen > IDLE_EVICT_AFTER) :: m[k]
  }

  class Limiter {
    var buckets: map<string, Bucket>
    const rate: real
    const burst: real

    ghost predicate Valid()
      reads this, buckets.Values
    {
      && (forall k :: k in buckets ==> buckets[k].rate == rate && buckets[k].capacity == burst)
      && (forall j, k :: j in buckets && k in buckets && j != k ==> buckets[j] != buckets[k])
    }

    ghost function State(): Buckets
      reads this, buckets.Values
    {
      map k | k in buckets :: buckets[k].State()
    }

    constructor (rate: real, burst: int)
      ensures Valid() && State() == map[] && fresh(buckets.Values)
      ensures this.rate == (if rate <= 0.0 then 10.0 else rate)
      ensures this.burst == (if burst <= 0 then 20 else burst) as real
    {
      this.rate := if rate <= 0.0 then DEFAULT_RATE else rate;
      this.burst := (if burst <= 0 then DEFAULT_BURST else burst) as real;
      this.buckets := map[];
    }

    method Allow(key: string, now: Time) returns (ok: bool)
      requires Valid()
      modifies this, buckets.Values
      ensures Valid() && fresh(buckets.Values - old(buckets.Values))
      ensures ok == Admits(BucketFor(old(State()), burst, key, now), rate, burst, now)
      ensures State() == Apply(rate, burst, old(State()), Call(key, now))
    {
      ghost var was := State();
      var b;
      if key in buckets {
        b := buckets[key];
      } else {
        b := new Bucket(burst, rate, now);
        buckets := buckets[key := b];
      }
      assert b.State() == BucketFor(was, burst, key, now);
      ok := b.Allow(now);
    }

    /** The body of one tick of `cleanup`. */
    method Cleanup(now: Time)
      requires Valid()
      modifies this
      ensures Valid() && buckets.Values <= old(buckets.Values)
      ensures State() == Swept(old(State()), now)
      ensures forall k :: k in buckets <==> k in old(buckets) && now - old(buckets)[k].lastSeen <= 300_000_000_000
    {
      var todo := buckets.Keys;
      while todo != {}
        invariant todo <= buckets.Keys
        invariant forall k :: k in buckets <==>
                    k in old(buckets) && (k in todo || !(now - old(buckets)[k].lastSeen > IDLE_EVICT_AFTER))
        invariant forall k :: k in buckets ==> buckets[k] == old(buckets)[k]
        decreases todo
      {
        var k :| k in todo;
        todo := todo - {k};
        if now - buckets[k].lastSeen > IDLE_EVICT_AFTER {
          buckets := buckets - {k};
        }
      }
    }
  }

  /** Every lock-protected region of the limiter; a sweep compares against an older reading `at`. */
  datatype Op = Call(key: string, now: Time) | Sweep(at: Time, now: Time)

  function Apply(rate: real, capacity: real, m: Buckets, op: Op): Buckets {
    match op
    case Call(key, now) => m[key := Called(BucketFor(m, capacity, key, now), rate, capacity, now)]
    case Sweep(at, _) => Swept(m, at)
  }

  /** The limiter after the first n operations, with idle buckets evicted or kept forever. */
  function After(evict: bool, rate: real, capacity: real, ops: seq<Op>, n: nat): Buckets
    requires n <= |ops|
  {
    if n == 0 then map[]
    else
      var m := After(evict, rate, capacity, ops, n - 1);
      if ops[n - 1].Sweep? && !evict then m else Apply(rate, capacity, m, ops[n - 1])
  }

  predicate Answer(evict: bool, rate: real, capacity: real, ops: seq<Op>, j: nat)
    requires j < |ops| && ops[j].Call?
  {
    Admits(BucketFor(After(evict, rate, capacity, ops, j), capacity, ops[j].key, ops[j].now), rate, capacity, ops[j].now)
  }

  /** The instants of the calls on `key` among the first n operations. */
  function Instants(ops: seq<Op>, key: string, n: nat): seq<Time>
    requires n <= |ops|
  {
    if n == 0 then []
    else if ops[n - 1].Call? && ops[n - 1].key == key then Instants(ops, key, n - 1) + [ops[n - 1].now]
    else Instants(ops, key, n - 1)
  }

  lemma {:induction false} BeforeIgnoresLater(rate: real, capacity: real, ts: seq<Time>, more: seq<Time>, j: nat)
    requires j < |ts|
    ensures Before(rate, capacity, ts + more, j) == Before(rate, capacity, ts, j)
  {
    if j > 0 {
      BeforeIgnoresLater(rate, capacity, ts, more, j - 1);
    }
  }

  lemma {:induction false} KeyHasItsOwnBucket(rate: real, capacity: real, ops: seq<Op>, key: string, n: nat, now: Time)
    requires n <= |ops|
    ensures var ts := Instants(ops, key, n);
      BucketFor(After(false, rate, capacity, ops, n), capacity, key, now)
        == Before(rate, capacity, ts + [now], |ts|)
    ensures key in After(false, rate, capacity, ops, n) <==> Instants(ops, key, n) != []
  {
    if n > 0 {
      var op := ops[n - 1];
      KeyHasItsOwnBucket(rate, capacity, ops, key, n - 1, now);
      if op.Call? && op.key == key {
        var ts := Instants(ops, key, n);
        KeyHasItsOwnBucket(rate, capacity, ops, key, n - 1, op.now);
        BeforeIgnoresLater(rate, capacity, ts, [now], |ts| - 1);
      }
    }
  }

  /**
   Keys do not disturb each other: a limiter that keeps its buckets admits a call exactly
   when no window of calls on that key overflows.
   */
  lemma AnswerIffNoWindowOverflows(rate: real, capacity: real, ops: seq<Op>, j: nat)
    requires j < |ops| && ops[j].Call?
    ensures var ts := Instants(ops, ops[j].key, j) + [ops[j].now];
      Answer(false, rate, capacity, ops, j) <==>
        forall i :: 0 <= i < |ts| ==>
          Count(rate, capacity, ts, i, |ts| - 1) as real + 1.0 <= capacity + Gain(rate, ops[j].now - ts[i])
  {
    var ts := Instants(ops, ops[j].key, j) + [ops[j].now];
    KeyHasItsOwnBucket(rate, capacity, ops, ops[j].key, j, ops[j].now);
    AdmittedIffNoWindowOverflows(rate, capacity, ts, |ts| - 1);
  }

  ghost predicate WellTimed(ops: seq<Op>) {
    && (forall i, j :: 0 <= i <= j < |ops| ==> ops[i].now <= ops[j].now)
    && (forall i :: 0 <= i < |ops| && ops[i].Sweep? ==> ops[i].at <= ops[i].now)
  }

  ghost predicate Agree(m: Buckets, kept: Buckets, now: Time) {
    && (forall k :: k in m ==> k in kept && m[k] == kept[k])
    && (forall k :: k in kept ==> kept[k].tokens >= 0.0 && kept[k].lastSeen <= now)
    && (forall k :: k in kept && k !in m ==> now - kept[k].lastSeen > IDLE_EVICT_AFTER)
  }

  lemma RefillsWhileIdle(b: BucketState, rate: real, capacity: real, now: Time)
    requires rate > 0.0 && Gain(rate, FIRST_EVICTABLE) >= capacity
    requires b.tokens >= 0.0 && now - b.lastSeen > IDLE_EVICT_AFTER
    ensures Refilled(b, rate, capacity, now) == capacity
  {
    GainMonotone(rate, FIRST_EVICTABLE, now - b.lastSeen);
  }

  lemma RefillNonNegative(b: BucketState, rate: real, capacity: real, now: Time)
    requires rate > 0.0 && capacity >= 0.0 && b.tokens >= 0.0 && b.lastSeen <= now
    ensures Refilled(b, rate, capacity, now) >= 0.0
  {
    GainMonotone(rate, 0, now - b.lastSeen);
  }

  lemma {:induction false} AfterAgrees(rate: real, capacity: real, ops: seq<Op>, n: nat, now: Time)
    requires rate > 0.0 && capacity >= 0.0 && Gain(rate, FIRST_EVICTABLE) >= capacity
    requires WellTimed(ops) && n <= |ops|
    requires forall i :: 0 <= i < n ==> ops[i].now <= now
    ensures Agree(After(true, rate, capacity, ops, n), After(false, rate, capacity, ops, n), now)
  {
    if n > 0 {
      var op := ops[n - 1];
      AfterAgrees(rate, capacity, ops, n - 1, op.now);
      if op.Call? {
        CallAgrees(rate, capacity, After(true, rate, capacity, ops, n - 1), After(false, rate, capacity, ops, n - 1),
                   op.key, op.now, now);
      }
    }
  }

  lemma CallAgrees(rate: real, capacity: real, m: Buckets, kept: Buckets, key: string, at: Time, now: Time)
    requires rate > 0.0 && capacity >= 0.0 && Gain(rate, FIRST_EVICTABLE) >= capacity
    requires Agree(m, kept, at) && at <= now
    ensures Refilled(BucketFor(m, capacity, key, at), rate, capacity, at)
         == Refilled(BucketFor(kept, capacity, key, at), rate, capacity, at)
    ensures Agree(Apply(rate, capacity, m, Call(key, at)), Apply(rate, capacity, kept, Call(key, at)), now)
  {
    RefillNonNegative(BucketFor(kept, capacity, key, at), rate, capacity, at);
    if key in kept && key !in m {
      RefillsWhileIdle(kept[key], rate, capacity, at);
    }
  }

  /**
   If an idle bucket is full again by the time it may be evicted, eviction is invisible:
   with nondecreasing instants every call is answered as by a limiter that keeps its buckets.
   */
  lemma EvictionIsInvisible(rate: real, capacity: real, ops: seq<Op>, j: nat)
    requires rate > 0.0 && capacity >= 0.0 && rate * 300_000_000_001.0 / 1_000_000_000.0 >= capacity
    requires WellTimed(ops) && j < |ops| && ops[j].Call?
    ensures Answer(true, rate, capacity, ops, j) == Answer(false, rate, capacity, ops, j)
  {
    GainIs(rate, FIRST_EVICTABLE);
    AfterAgrees(rate, capacity, ops, j, ops[j].now);
    CallAgrees(rate, capacity, After(true, rate, capacity, ops, j), After(false, rate, capacity, ops, j),
               ops[j].key, ops[j].now, ops[j].now);
  }

  // ---------------------------------------------------------------------------
  // ... and only then
  // ---------------------------------------------------------------------------

  /** n calls at 0, a sweep at t, and n more calls at t, all on one key. */
  function DrainAndReturn(n: nat, t: Time): (ops: seq<Op>)
    ensures |ops| == 2 * n + 1
    ensures forall i :: 0 <= i < n ==> ops[i] == Call("", 0)
    ensures ops[n] == Sweep(t, t)
    ensures forall i :: n < i < |ops| ==> ops[i] == Call("", t)
  {
    seq(n, _ => Call("", 0)) + [Sweep(t, t)] + seq(n, _ => Call("", t))
  }

  /** A call at the instant of the last one is charged and gets no refill. */
  lemma Spend(tokens: real, t: Time, rate: real, capacity: real)
    requires 1.0 <= tokens <= capacity
    ensures Called(BucketState(tokens, t), rate, capacity, t) == BucketState(tokens - 1.0, t)
  {
    FreshBucketIsNotRefilled(tokens, t, rate, capacity);
  }

  lemma {:induction false} Drained(evict: bool, rate: real, n: nat, t: Time, i: nat)
    requires 1 <= i <= n
    ensures After(evict, rate, n as real, DrainAndReturn(n, t), i) == map["" := BucketState((n - i) as real, 0)]
  {
    Spend((n - i + 1) as real, 0, rate, n as real);
    if i > 1 {
      Drained(evict, rate, n, t, i - 1);
    }
  }

  /** With eviction the client comes back to a full bucket ... */
  lemma {:induction false} ReturnedToFull(rate: real, n: nat, t: Time, i: nat)
    requires n >= 1 && t > IDLE_EVICT_AFTER && i <= n
    ensures BucketFor(After(true, rate, n as real, DrainAndReturn(n, t), n + 1 + i), n as real, "", t)
         == BucketState((n - i) as real, t)
  {
    if i == 0 {
      Drained(true, rate, n, t, n);
    } else {
      ReturnedToFull(rate, n, t, i - 1);
      Spend((n - i + 1) as real, t, rate, n as real);
    }
  }

  /** ... and without it to what it gained meanwhile. */
  lemma {:induction false} ReturnedToGain(rate: real, n: nat, t: Time, i: nat)
    requires n >= 1 && i <= n && i as real <= Gain(rate, t) < n as real
    ensures var b := BucketFor(After(false, rate, n as real, DrainAndReturn(n, t), n + 1 + i), n as real, "", t);
      if i == 0 then b == BucketState(0.0, 0) else b == BucketState(Gain(rate, t) - i as real, t)
  {
    if i == 0 {
      Drained(false, rate, n, t, n);
    } else {
      ReturnedToGain(rate, n, t, i - 1);
      if i > 1 {
        Spend(Gain(rate, t) - (i - 1) as real, t, rate, n as real);
      }
    }
  }

  lemma DrainAndReturnIsWellTimed(n: nat, t: Time)
    requires t >= 0
    ensures WellTimed(DrainAndReturn(n, t))
  {
  }

  /** After q more calls the evicted bucket was full and still admits; the kept one has less than a token. */
  lemma ReturnedAnswers(rate: real, n: nat, t: Time, q: nat)
    requires n >= 1 && t > IDLE_EVICT_AFTER && q < n && q as real <= Gain(rate, t) < q as real + 1.0
    requires Gain(rate, t) < n as real
    ensures var ops := DrainAndReturn(n, t); var j := n + 1 + q;
      Answer(true, rate, n as real, ops, j) && !Answer(false, rate, n as real, ops, j)
  {
    ReturnedToFull(rate, n, t, q);
    ReturnedToGain(rate, n, t, q);
    FreshBucketIsNotRefilled((n - q) as real, t, rate, n as real);
    FreshBucketIsNotRefilled(Gain(rate, t) - q as real, t, rate, n as real);
  }

  lemma FreshBucketIsNotRefilled(tokens: real, t: Time, rate: real, capacity: real)
    requires tokens <= capacity
    ensures Refilled(BucketState(tokens, t), rate, capacity, t) == tokens
  {
  }

  /** A burst too large to refill within the idle period: a client gets more calls by going quiet. */
  lemma EvictionShows(rate: real, n: nat) returns (ops: seq<Op>, j: nat)
    requires rate > 0.0 && n >= 1 && rate * 300_000_000_001.0 / 1_000_000_000.0 < n as real
    ensures WellTimed(ops) && j < |ops| && ops[j].Call?
    ensures Answer(true, rate, n as real, ops, j) && !Answer(false, rate, n as real, ops, j)
  {
    var t := FIRST_EVICTABLE;
    GainIs(rate, t);
    GainMonotone(rate, 0, t);
    var q := Gain(rate, t).Floor;
    ops, j := DrainAndReturn(n, t), n + 1 + q;
    DrainAndReturnIsWellTimed(n, t);
    ReturnedAnswers(rate, n, t, q);
  }

  /** So the exact condition on a clock of whole nanoseconds, for every rate and every burst of at least one call. */
  lemma EvictionInvisibleIff(rate: real, n: nat)
    requires rate > 0.0 && n >= 1
    ensures rate * 300_000_000_001.0 / 1_000_000_000.0 >= n as real <==>
              forall ops: seq<Op>, j: nat :: WellTimed(ops) && 0 <= j < |ops| && ops[j].Call? ==>
                Answer(true, rate, n as real, ops, j) == Answer(false, rate, n as real, ops, j)
  {
    if rate * 300_000_000_001.0 / 1_000_000_000.0 >= n as real {
      forall ops: seq<Op>, j: nat | WellTimed(ops) && 0 <= j < |ops| && ops[j].Call?
        ensures Answer(true, rate, n as real, ops, j) == Answer(false, rate, n as real, ops, j)
      {
        EvictionIsInvisible(rate, n as real, ops, j);
      }
    } else {
      var ops, j := EvictionShows(rate, n);
    }
  }

  /** The discovery limiter's setting, 10 per second with a burst of 20, meets the condition. */
  lemma DeployedSettingIsTransparent(ops: seq<Op>, j: nat)
    requires WellTimed(ops) && j < |ops| && ops[j].Call?
    ensures Answer(true, 10.0, 20.0, ops, j) == Answer(false, 10.0, 20.0, ops, j)
  {
    EvictionIsInvisible(10.0, 20.0, ops, j);
  }
}

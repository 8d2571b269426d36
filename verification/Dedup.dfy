/**
 The idempotency-key index of internal/dedup/index.go: sixteen independently locked
 shards, per-call TTLs, and a periodic `Purge` that takes one clock reading and then
 visits the shards one lock at a time.

 The class is the code; the functions above it say what each locked region computes; the
 lemmas below say what every run of those regions, in any interleaving, answers.
 */
module Dedup {
  import opened Clock

  const NUM_SHARDS := 16

  type Shard = map<string, Time>

  /** `shardFor`, for an arbitrary hash; masking with 15 is the remainder modulo 16. */
  function ShardOf(hash: string -> nat, key: string): (i: nat)
    ensures i < NUM_SHARDS
  {
    hash(key) % NUM_SHARDS
  }

  predicate Live(m: Shard, key: string, now: Time) {
    key in m && now < m[key]
  }

  function Register(m: Shard, key: string, ttl: Duration, now: Time): Shard {
    if Live(m, key, now) then m else m[key := now + ttl]
  }

  function PurgeMap(m: Shard, at: Time): Shard {
    map k | k in m && !(m[k] < at) :: m[k]
  }

  class Index {
    const shards: array<Shard>
    const ttl: Duration
    const hash: string -> nat

    ghost predicate Valid()
      reads this
    {
      shards.Length == NUM_SHARDS
    }

    constructor (ttl: Duration, hash: string -> nat)
      ensures Valid() && fresh(shards)
      ensures this.ttl == ttl && this.hash == hash
      ensures shards[..] == Empty()
    {
      this.ttl := ttl;
      this.hash := hash;
      shards := new Shard[NUM_SHARDS](_ => map[]);
    }

    method SeenOrAdd(key: string, now: Time) returns (seen: bool)
      requires Valid()
      modifies shards
      ensures seen == Live(old(shards[..])[ShardOf(hash, key)], key, now)
      ensures shards[..] == Apply(hash, old(shards[..]), Touch(key, ttl, now))
    {
      seen := SeenOrAddWithTTL(key, ttl, now);
    }

    method SeenOrAddWithTTL(key: string, ttl: Duration, now: Time) returns (seen: bool)
      requires Valid()
      modifies shards
      ensures seen == Live(old(shards[..])[ShardOf(hash, key)], key, now)
      ensures shards[..] == Apply(hash, old(shards[..]), Touch(key, ttl, now))
    {
      var i := ShardOf(hash, key);
      if key in shards[i] && now < shards[i][key] {
        return true;
      }
      shards[i] := shards[i][key := now + ttl];
      return false;
    }

    /** The critical section of `Purge` on one shard: delete while ranging over the map. */
    method PurgeShard(i: nat, at: Time)
      requires Valid() && i < NUM_SHARDS
      modifies shards
      ensures shards[..] == Apply(hash, old(shards[..]), Sweep(i, at, at))
      ensures forall k :: k in shards[i] <==> k in old(shards[..])[i] && at <= old(shards[..])[i][k]
    {
      ghost var was := shards[..];
      var todo := shards[i].Keys;
      while todo != {}
        invariant todo <= was[i].Keys && todo <= shards[i].Keys
        invariant forall k :: k in shards[i] <==> k in was[i] && (k in todo || !(was[i][k] < at))
        invariant forall k :: k in shards[i] ==> shards[i][k] == was[i][k]
        invariant forall j :: 0 <= j < NUM_SHARDS && j != i ==> shards[j] == was[j]
        decreases todo
      {
        var k :| k in todo;
        todo := todo - {k};
        if shards[i][k] < at {
          shards[i] := shards[i] - {k};
        }
      }
      assert shards[i] == PurgeMap(was[i], at);
    }

    /** `Purge` when no other call takes a shard lock meanwhile. */
    method Purge(now: Time)
      requires Valid()
      modifies shards
      ensures forall i :: 0 <= i < NUM_SHARDS ==> shards[i] == PurgeMap(old(shards[..])[i], now)
      ensures forall i, k :: 0 <= i < 16 ==>
                (k in shards[i] <==> k in old(shards[..])[i] && now <= old(shards[..])[i][k])
      ensures forall i, k :: 0 <= i < 16 && k in shards[i] ==> shards[i][k] == old(shards[..])[i][k]
    {
      for i := 0 to NUM_SHARDS
        invariant forall j :: 0 <= j < i ==> shards[j] == PurgeMap(old(shards[..])[j], now)
        invariant forall j :: i <= j < NUM_SHARDS ==> shards[j] == old(shards[..])[j]
      {
        ghost var was := shards[..];
        PurgeShard(i, now);
        assert forall j :: 0 <= j < NUM_SHARDS ==> shards[j] == shards[..][j];
      }
    }
  }

  // ---------------------------------------------------------------------------
  // Runs. Every shard-locked region is one operation. `now` is the clock when the
  // lock is held; a purge also carries `at`, the older reading it compares against.
  // ---------------------------------------------------------------------------

  datatype Op =
    | Touch(key: string, ttl: Duration, now: Time)
    | Sweep(shard: nat, at: Time, now: Time)

  function Empty(): seq<Shard> {
    seq(NUM_SHARDS, _ => map[])
  }

  function Apply(hash: string -> nat, shards: seq<Shard>, op: Op): (shards': seq<Shard>)
    requires |shards| == NUM_SHARDS
    ensures |shards'| == NUM_SHARDS
  {
    match op
    case Touch(key, ttl, now) =>
      var i := ShardOf(hash, key);
      shards[i := Register(shards[i], key, ttl, now)]
    case Sweep(i, at, _) =>
      if i < NUM_SHARDS then shards[i := PurgeMap(shards[i], at)] else shards
  }

  ghost predicate WellTimed(ops: seq<Op>) {
    && (forall i, j :: 0 <= i <= j < |ops| ==> ops[i].now <= ops[j].now)
    && (forall i :: 0 <= i < |ops| && ops[i].Sweep? ==> ops[i].at <= ops[i].now)
  }

  /** The sharded, purged index after a run. */
  function After(hash: string -> nat, ops: seq<Op>): (shards: seq<Shard>)
    ensures |shards| == NUM_SHARDS
  {
    if ops == [] then Empty() else Apply(hash, After(hash, ops[..|ops| - 1]), ops[|ops| - 1])
  }

  /** What the sharded index answers to the j-th operation: was the key seen? */
  predicate Seen(hash: string -> nat, ops: seq<Op>, j: nat)
    requires j < |ops|
  {
    && ops[j].Touch?
    && Live(After(hash, ops[..j])[ShardOf(hash, ops[j].key)], ops[j].key, ops[j].now)
  }

  /** One map, never sharded and never purged. */
  function FlatAfter(ops: seq<Op>): Shard {
    if ops == [] then map[]
    else
      var m := FlatAfter(ops[..|ops| - 1]);
      match ops[|ops| - 1]
      case Touch(key, ttl, now) => Register(m, key, ttl, now)
      case Sweep(_, _, _) => m
  }

  predicate FlatSeen(ops: seq<Op>, j: nat)
    requires j < |ops|
  {
    ops[j].Touch? && Live(FlatAfter(ops[..j]), ops[j].key, ops[j].now)
  }

  /** The two agree on every key, except for keys that expired before the clock `now`. */
  ghost predicate Agree(hash: string -> nat, shards: seq<Shard>, flat: Shard, now: Time)
    requires |shards| == NUM_SHARDS
  {
    forall key ::
      var m := shards[ShardOf(hash, key)];
      && (key in m ==> key in flat && flat[key] == m[key])
      && (key in flat && key !in m ==> flat[key] < now)
  }

  lemma {:induction false} AfterAgrees(hash: string -> nat, ops: seq<Op>, now: Time)
    requires WellTimed(ops)
    requires forall i :: 0 <= i < |ops| ==> ops[i].now <= now
    ensures Agree(hash, After(hash, ops), FlatAfter(ops), now)
  {
    if ops != [] {
      var n := |ops| - 1;
      AfterAgrees(hash, ops[..n], ops[n].now);
    }
  }

  /**
   Refinement: whatever the hash, the TTLs and the purges, including purges whose clock
   reading predates the shard lock, every answer is the flat, never-purged map's answer.
   */
  lemma ShardedRefinesFlat(hash: string -> nat, ops: seq<Op>, j: nat)
    requires WellTimed(ops) && j < |ops|
    ensures Seen(hash, ops, j) == FlatSeen(ops, j)
  {
    AfterAgrees(hash, ops[..j], ops[j].now);
  }

  // ---------------------------------------------------------------------------
  // What the answers mean, in terms of the calls alone.
  // ---------------------------------------------------------------------------

  /** The i-th operation registered `key`: it was a call on it that was not answered "seen". */
  predicate Registers(hash: string -> nat, ops: seq<Op>, i: nat, key: string)
    requires i < |ops|
  {
    ops[i].Touch? && ops[i].key == key && !Seen(hash, ops, i)
  }

  ghost predicate Covered(hash: string -> nat, ops: seq<Op>, n: nat, key: string, t: Time)
    requires n <= |ops|
  {
    exists i :: 0 <= i < n && Registers(hash, ops, i, key) && t < ops[i].now + ops[i].ttl
  }

  lemma {:induction false} FlatIsCovered(hash: string -> nat, ops: seq<Op>, n: nat, key: string, t: Time)
    requires WellTimed(ops) && n <= |ops|
    requires forall i :: 0 <= i < n ==> ops[i].now <= t
    ensures Live(FlatAfter(ops[..n]), key, t) <==> Covered(hash, ops, n, key, t)
  {
    if n > 0 {
      var i := n - 1;
      assert ops[..n][..i] == ops[..i];
      FlatIsCovered(hash, ops, i, key, t);
      ShardedRefinesFlat(hash, ops, i);
      if Registers(hash, ops, i, key) {
        // the registration found nothing live, so no older one can reach past it
        FlatIsCovered(hash, ops, i, key, ops[i].now);
        forall k | 0 <= k < i && Registers(hash, ops, k, key)
          ensures ops[k].now + ops[k].ttl <= t
        {
          assert !Covered(hash, ops, i, key, ops[i].now);
        }
      }
    }
  }

  /**
   A call is answered "seen" exactly when some earlier call that registered the same key
   still has it within that call's own TTL. Neither shards nor purges show.
   */
  lemma SeenIffRegisteredWithinTtl(hash: string -> nat, ops: seq<Op>, j: nat)
    requires WellTimed(ops) && j < |ops| && ops[j].Touch?
    ensures Seen(hash, ops, j) <==> Covered(hash, ops, j, ops[j].key, ops[j].now)
  {
    ShardedRefinesFlat(hash, ops, j);
    FlatIsCovered(hash, ops, j, ops[j].key, ops[j].now);
  }
}

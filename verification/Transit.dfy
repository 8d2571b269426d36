/**
 The bounded transit buffer of internal/transit/cache.go. What is buffered is a type
 parameter: the gateway buffers an envelope and the address of the peer it was meant for.
 */
module Transit {
  import opened Clock
  import opened Collections

  const MAX_ENTRIES := 1000
  const MAX_TTL: Duration := 60 * SECOND
  const DEFAULT_TTL: Duration := 30 * SECOND

  datatype Entry<T> = Entry(item: T, expires: Time)

  type Buffer<T> = map<string, Entry<T>>

  /** The TTL `New` settles on. */
  function EffectiveTtl(ttl: Duration): (d: Duration)
    ensures 0 < d <= MAX_TTL
    ensures ttl <= 0 ==> d == 30_000_000_000
    ensures 0 < ttl <= 60_000_000_000 ==> d == ttl
    ensures ttl > 60_000_000_000 ==> d == 60_000_000_000
  {
    var d := if ttl <= 0 then DEFAULT_TTL else ttl;
    if d > MAX_TTL then MAX_TTL else d
  }

  // ---------------------------------------------------------------------------
  // Eviction
  // ---------------------------------------------------------------------------

  /** The key `evictOldest` holds after ranging over the first n keys; "" means none yet. */
  function Candidate<T>(m: Buffer<T>, order: seq<string>, n: nat): (k: string)
    requires n <= |order| && forall i :: 0 <= i < |order| ==> order[i] in m
    ensures k != "" ==> k in m
  {
    if n == 0 then ""
    else
      var k := Candidate(m, order, n - 1);
      if k == "" || m[order[n - 1]].expires < m[k].expires then order[n - 1] else k
  }

  function Evicted<T>(m: Buffer<T>, order: seq<string>): string
    requires forall i :: 0 <= i < |order| ==> order[i] in m
  {
    Candidate(m, order, |order|)
  }

  ghost predicate Earliest<T>(m: Buffer<T>, k: string) {
    k in m && forall j :: j in m ==> m[k].expires <= m[j].expires
  }

  /** Once an earliest entry with a proper key has been visited, an earliest one stays the candidate. */
  lemma {:induction false} EarliestStays<T>(m: Buffer<T>, order: seq<string>, n: nat, k: string)
    requires n <= |order| && forall i :: 0 <= i < |order| ==> order[i] in m
    requires k != "" && Earliest(m, k) && k in order[..n]
    ensures Candidate(m, order, n) != "" && Earliest(m, Candidate(m, order, n))
  {
    assert order[..n] == order[..n - 1] + [order[n - 1]];
    if k in order[..n - 1] {
      EarliestStays(m, order, n - 1, k);
    }
  }

  lemma {:induction false} SomeEarliest<T>(m: Buffer<T>, keys: set<string>) returns (k: string)
    requires keys <= m.Keys && keys != {}
    ensures k in keys && forall j :: j in keys ==> m[k].expires <= m[j].expires
  {
    k :| k in keys;
    if keys != {k} {
      var j := SomeEarliest(m, keys - {k});
      if m[j].expires < m[k].expires {
        k := j;
      }
    }
  }

  ghost function SomeOrder(keys: set<string>): (order: seq<string>)
    ensures Enumerates(order, keys)
  {
    if keys == {} then [] else
      var k :| k in keys;
      SomeOrder(keys - {k}) + [k]
  }

  /** With non-empty keys, as the gateway guarantees, the evicted entry is always one that expires first. */
  lemma EvictsEarliest<T>(m: Buffer<T>, order: seq<string>)
    requires m != map[] && "" !in m && Enumerates(order, m.Keys)
    ensures Earliest(m, Evicted(m, order))
  {
    var k := SomeEarliest(m, m.Keys);
    assert order[..|order|] == order;
    EarliestStays(m, order, |order|, k);
  }

  /** An empty key doubles as "none yet". Eviction still finds an earliest entry in these cases only. */
  ghost predicate EmptyKeyHarmless<T>(m: Buffer<T>) {
    "" !in m || m.Keys == {""} || exists k :: k in m && k != "" && m[k].expires <= m[""].expires
  }

  lemma EvictsEarliestIff<T>(m: Buffer<T>)
    requires m != map[]
    ensures (forall order :: Enumerates(order, m.Keys) ==> Earliest(m, Evicted(m, order))) <==> EmptyKeyHarmless(m)
  {
    if EmptyKeyHarmless(m) {
      forall order | Enumerates(order, m.Keys)
        ensures Earliest(m, Evicted(m, order))
      {
        HarmlessEvictsEarliest(m, order);
      }
    } else {
      var order := [""] + SomeOrder(m.Keys - {""});
      assert Enumerates(order, m.Keys);
      SkipsEmptyKey(m, order, |order|);
    }
  }

  lemma HarmlessEvictsEarliest<T>(m: Buffer<T>, order: seq<string>)
    requires m != map[] && EmptyKeyHarmless(m) && Enumerates(order, m.Keys)
    ensures Earliest(m, Evicted(m, order))
  {
    if m.Keys == {""} {
      assert Evicted(m, order) == "";
    } else {
      var proper := m.Keys - {""};
      assert m.Keys == proper || m.Keys == proper + {""};
      var k := SomeEarliest(m, proper);
      assert order[..|order|] == order;
      EarliestStays(m, order, |order|, k);
    }
  }

  lemma {:induction false} SkipsEmptyKey<T>(m: Buffer<T>, order: seq<string>, n: nat)
    requires Enumerates(order, m.Keys) && 1 <= n <= |order| && order[0] == ""
    ensures Candidate(m, order, n) == "" <==> n == 1
  {
    if n > 1 {
      SkipsEmptyKey(m, order, n - 1);
      assert order[n - 1] != order[0];
    }
  }

  // ---------------------------------------------------------------------------
  // Operations
  // ---------------------------------------------------------------------------

  function MakeRoom<T>(m: Buffer<T>, order: seq<string>): Buffer<T>
    requires forall i :: 0 <= i < |order| ==> order[i] in m
  {
    if |m| >= MAX_ENTRIES then m - {Evicted(m, order)} else m
  }

  predicate Expired<T>(e: Entry<T>, now: Time) {
    e.expires < now
  }

  function Unexpired<T>(m: Buffer<T>, now: Time): Buffer<T> {
    map k | k in m && !Expired(m[k], now) :: m[k]
  }

  /** `out` holds the entries under these keys, each once, in some order. */
  ghost predicate Lists<T>(m: Buffer<T>, keys: set<string>, out: seq<Entry<T>>) {
    exists order :: Enumerates(order, keys) && |out| == |order|
      && forall i :: 0 <= i < |out| ==> order[i] in m && out[i] == m[order[i]]
  }

  class Cache<T> {
    var entries: Buffer<T>
    const ttl: Duration

    constructor (ttl: Duration)
      ensures entries == map[] && this.ttl == EffectiveTtl(ttl)
    {
      this.entries := map[];
      this.ttl := EffectiveTtl(ttl);
    }

    method EvictOldest() returns (ghost order: seq<string>)
      modifies this
      ensures Enumerates(order, old(entries).Keys)
      ensures entries == old(entries) - {Evicted(old(entries), order)}
    {
      order := [];
      var oldestKey, oldestExp := "", 0;
      var todo := entries.Keys;
      while todo != {}
        invariant entries == old(entries) && todo <= entries.Keys && Enumerates(order, entries.Keys - todo)
        invariant oldestKey == Candidate(entries, order, |order|)
        invariant oldestKey != "" ==> oldestExp == entries[oldestKey].expires
        decreases todo
      {
        var k :| k in todo;
        CandidateAppend(entries, order, k);
        if oldestKey == "" || entries[k].expires < oldestExp {
          oldestKey, oldestExp := k, entries[k].expires;
        }
        todo, order := todo - {k}, order + [k];
      }
      assert entries.Keys - todo == entries.Keys;
      entries := entries - {oldestKey};
    }

    method Put(key: string, item: T, now: Time)
      modifies this
      ensures PutStep(ttl, old(entries), key, item, now, entries)
      ensures key in entries && entries[key].item == item && entries[key].expires == now + ttl
      ensures forall k :: k in entries && k != key ==> k in old(entries) && entries[k] == old(entries)[k]
    {
      ghost var order := [];
      if |entries| >= MAX_ENTRIES {
        order := EvictOldest();
      }
      entries := entries[key := Entry(item, now + ttl)];
      assert Step(ttl, old(entries), Op<T>.Put(key, item, now, order), entries);
    }

    /** The entries that have not expired. */
    method Pending(now: Time) returns (out: seq<Entry<T>>)
      ensures Lists(entries, Unexpired(entries, now).Keys, out)
      ensures forall e :: e in out <==> exists k :: k in entries && entries[k] == e && now <= e.expires
    {
      out := [];
      ghost var keys: seq<string> := [];
      var todo := entries.Keys;
      while todo != {}
        invariant todo <= entries.Keys && |out| == |keys|
        invariant forall k :: k in keys <==> k in entries && k !in todo && !Expired(entries[k], now)
        invariant Distinct(keys)
        invariant forall i :: 0 <= i < |out| ==> out[i] == entries[keys[i]]
        decreases todo
      {
        var k :| k in todo;
        todo := todo - {k};
        if !Expired(entries[k], now) {
          out, keys := out + [entries[k]], keys + [k];
        }
      }
      assert Enumerates(keys, Unexpired(entries, now).Keys);
    }

    /** Returns and removes exactly the entries that `Pending` at the same instant would not return. */
    method Drain(now: Time) returns (out: seq<Entry<T>>)
      modifies this
      ensures entries == Unexpired(old(entries), now)
      ensures Lists(old(entries), old(entries).Keys - entries.Keys, out)
      ensures forall k :: k in entries <==> k in old(entries) && now <= old(entries)[k].expires
      ensures forall k :: k in entries ==> entries[k] == old(entries)[k]
      ensures forall e :: e in out <==> exists k :: k in old(entries) && old(entries)[k] == e && e.expires < now
    {
      out := [];
      ghost var keys: seq<string> := [];
      var todo := entries.Keys;
      while todo != {}
        invariant todo <= entries.Keys && |out| == |keys|
        invariant forall k :: k in entries <==> k in old(entries) && k !in keys
        invariant forall k :: k in entries ==> entries[k] == old(entries)[k]
        invariant forall k :: k in keys <==> k in old(entries) && k !in todo && Expired(old(entries)[k], now)
        invariant Distinct(keys)
        invariant forall i :: 0 <= i < |out| ==> keys[i] in old(entries) && out[i] == old(entries)[keys[i]]
        decreases todo
      {
        var k :| k in todo;
        todo := todo - {k};
        if Expired(entries[k], now) {
          out, keys := out + [entries[k]], keys + [k];
          entries := entries - {k};
        }
      }
      assert Enumerates(keys, old(entries).Keys - entries.Keys);
    }

    method Delete(key: string)
      modifies this
      ensures entries == old(entries) - {key}
    {
      entries := entries - {key};
    }
  }

  lemma CandidateAppend<T>(m: Buffer<T>, order: seq<string>, k: string)
    requires k in m && forall i :: 0 <= i < |order| ==> order[i] in m
    ensures Candidate(m, order + [k], |order|) == Candidate(m, order, |order|)
  {
    CandidatePrefix(m, order, k, |order|);
  }

  lemma {:induction false} CandidatePrefix<T>(m: Buffer<T>, order: seq<string>, k: string, n: nat)
    requires k in m && n <= |order| && forall i :: 0 <= i < |order| ==> order[i] in m
    ensures Candidate(m, order + [k], n) == Candidate(m, order, n)
  {
    if n > 0 {
      CandidatePrefix(m, order, k, n - 1);
    }
  }

  // ---------------------------------------------------------------------------
  // Runs
  // ---------------------------------------------------------------------------

  datatype Op<T> = Put(key: string, item: T, now: Time, order: seq<string>) | Drain(now: Time) | Delete(key: string)

  /** At capacity the map is ranged over, in some order. */
  ghost predicate Ordered<T>(m: Buffer<T>, order: seq<string>) {
    && (forall i :: 0 <= i < |order| ==> order[i] in m)
    && (|m| >= MAX_ENTRIES ==> Enumerates(order, m.Keys))
  }

  ghost predicate Step<T>(ttl: Duration, m: Buffer<T>, op: Op<T>, m': Buffer<T>) {
    match op
    case Put(key, item, now, order) =>
      Ordered(m, order) && m' == MakeRoom(m, order)[key := Entry(item, now + ttl)]
    case Drain(now) => m' == Unexpired(m, now)
    case Delete(key) => m' == m - {key}
  }

  /** A `Put` under some iteration order of the map. */
  ghost predicate PutStep<T>(ttl: Duration, m: Buffer<T>, key: string, item: T, now: Time, m': Buffer<T>) {
    exists order :: Step(ttl, m, Op<T>.Put(key, item, now, order), m')
  }

  lemma PutOrder<T>(ttl: Duration, m: Buffer<T>, key: string, item: T, now: Time, m': Buffer<T>) returns (order: seq<string>)
    requires PutStep(ttl, m, key, item, now, m')
    ensures Ordered(m, order) && m' == MakeRoom(m, order)[key := Entry(item, now + ttl)]
  {
    order :| Step(ttl, m, Op<T>.Put(key, item, now, order), m');
  }

  ghost predicate Run<T>(ttl: Duration, ms: seq<Buffer<T>>, ops: seq<Op<T>>) {
    && |ms| == |ops| + 1 && ms[0] == map[]
    && (forall i :: 0 <= i < |ops| ==> Step(ttl, ms[i], ops[i], ms[i + 1]))
    && (forall i :: 0 <= i < |ops| && ops[i].Put? ==> ops[i].key != "")
  }

  /** The entry under k is the one some `Put` among the first n operations made, with that call's expiry. */
  ghost predicate FromPut<T>(ttl: Duration, e: Entry<T>, ops: seq<Op<T>>, n: nat, k: string)
    requires n <= |ops|
  {
    exists i :: 0 <= i < n && ops[i].Put? && ops[i].key == k && e == Entry(ops[i].item, ops[i].now + ttl)
  }

  /** At most MAX_ENTRIES entries, none under the empty key, each as its `Put` made it. */
  ghost predicate Bounded<T>(ttl: Duration, m: Buffer<T>, ops: seq<Op<T>>, n: nat)
    requires n <= |ops|
  {
    |m| <= MAX_ENTRIES && "" !in m && forall k :: k in m ==> FromPut(ttl, m[k], ops, n, k)
  }

  /**
   Over every run with non-empty keys: never more than MAX_ENTRIES entries, every entry
   expires one TTL after the `Put` that made it, and so within sixty seconds of it.
   */
  lemma {:induction false} RunStaysBounded<T>(ttl: Duration, ms: seq<Buffer<T>>, ops: seq<Op<T>>, n: nat)
    requires Run(EffectiveTtl(ttl), ms, ops) && n <= |ops|
    ensures Bounded(EffectiveTtl(ttl), ms[n], ops, n) && |ms[n]| <= 1000 && EffectiveTtl(ttl) <= 60_000_000_000
  {
    if n > 0 {
      RunStaysBounded(ttl, ms, ops, n - 1);
      RunStepStaysBounded(EffectiveTtl(ttl), ms, ops, n);
    }
  }

  lemma RunStepStaysBounded<T>(ttl: Duration, ms: seq<Buffer<T>>, ops: seq<Op<T>>, n: nat)
    requires Run(ttl, ms, ops) && 0 < n <= |ops| && Bounded(ttl, ms[n - 1], ops, n - 1)
    ensures Bounded(ttl, ms[n], ops, n)
  {
    var m, m' := ms[n - 1], ms[n];
    assert Step(ttl, m, ops[n - 1], m');
    StepStaysBounded(ttl, m, ops[n - 1], m');
    forall k | k in m'
      ensures FromPut(ttl, m'[k], ops, n, k)
    {
      StepKeepsFromPut(ttl, m, ops, n, m', k);
    }
  }

  lemma StepKeepsFromPut<T>(ttl: Duration, m: Buffer<T>, ops: seq<Op<T>>, n: nat, m': Buffer<T>, k: string)
    requires 0 < n <= |ops| && Step(ttl, m, ops[n - 1], m') && k in m'
    requires k in m ==> FromPut(ttl, m[k], ops, n - 1, k)
    ensures FromPut(ttl, m'[k], ops, n, k)
  {
    if !(ops[n - 1].Put? && ops[n - 1].key == k) {
      assert m'[k] == m[k];
    }
  }

  /** Over every run, a `Put` into a full buffer drops one entry, none expires before it, and keeps the others. */
  lemma RunEvictsEarliest<T>(ttl: Duration, ms: seq<Buffer<T>>, ops: seq<Op<T>>, i: nat) returns (victim: string)
    requires Run(EffectiveTtl(ttl), ms, ops) && i < |ops| && ops[i].Put? && |ms[i]| >= 1000
    ensures Earliest(ms[i], victim)
    ensures ms[i + 1] == (ms[i] - {victim})[ops[i].key := Entry(ops[i].item, ops[i].now + EffectiveTtl(ttl))]
  {
    RunStaysBounded(ttl, ms, ops, i);
    assert Step(EffectiveTtl(ttl), ms[i], ops[i], ms[i + 1]);
    EvictsEarliest(ms[i], ops[i].order);
    victim := Evicted(ms[i], ops[i].order);
  }

  /** Below capacity a `Put` drops nothing but what was under its own key. */
  lemma RoomLeftDropsNone<T>(ttl: Duration, m: Buffer<T>, key: string, item: T, now: Time, order: seq<string>, m': Buffer<T>)
    requires Step(ttl, m, Op<T>.Put(key, item, now, order), m') && |m| < 1000
    ensures m' == m[key := Entry(item, now + ttl)]
  {
  }

  lemma StepStaysBounded<T>(ttl: Duration, m: Buffer<T>, op: Op<T>, m': Buffer<T>)
    requires Step(ttl, m, op, m') && |m| <= MAX_ENTRIES && "" !in m && (op.Put? ==> op.key != "")
    ensures |m'| <= MAX_ENTRIES && "" !in m'
  {
    match op
    case Put(key, item, now, order) =>
      if |m| >= MAX_ENTRIES {
        EvictsEarliest(m, order);
        var k := Evicted(m, order);
        assert (m - {k}).Keys == m.Keys - {k};
      }
      var room := MakeRoom(m, order);
      assert room[key := Entry(item, now + ttl)].Keys == room.Keys + {key};
    case Drain(now) =>
      SubsetSize(m'.Keys, m.Keys);
    case Delete(key) =>
      SubsetSize(m'.Keys, m.Keys);
  }
}

/**
 The persistent copy of the audit log: internal/store/bbolt/store.go over a byte-ordered
 bucket, and the writes that internal/audit/log.go issues after releasing the log's lock.
 */
module AuditStore {
  import opened Audit
  import opened Collections

  // ---------------------------------------------------------------------------
  // Keys
  // ---------------------------------------------------------------------------

  type Byte = b: nat | b < 256
  type Key = seq<Byte>

  const UINT64 := 0x1_0000_0000_0000_0000

  function BigEndian(n: nat, width: nat): (k: Key)
    ensures |k| == width
  {
    if width == 0 then [] else BigEndian(n / 256, width - 1) + [n % 256]
  }

  /** `binary.BigEndian.PutUint64` */
  function SeqKey(n: nat): Key {
    BigEndian(n, 8)
  }

  function Power256(width: nat): (p: nat)
    ensures p > 0
  {
    if width == 0 then 1 else 256 * Power256(width - 1)
  }

  /** The order of keys in a bucket: byte-wise, first difference decides. */
  predicate KeyLess(a: Key, b: Key) {
    |b| > 0 && (|a| == 0 || a[0] < b[0] || (a[0] == b[0] && KeyLess(a[1..], b[1..])))
  }

  lemma {:induction false} KeyLessSnoc(a: Key, b: Key, x: Byte, y: Byte)
    requires |a| == |b|
    ensures KeyLess(a + [x], b + [y]) <==> KeyLess(a, b) || (a == b && x < y)
  {
    if a != [] {
      KeyLessSnoc(a[1..], b[1..], x, y);
      assert (a + [x])[1..] == a[1..] + [x] && (b + [y])[1..] == b[1..] + [y];
      assert a == b <==> a[0] == b[0] && a[1..] == b[1..];
    }
  }

  /** Fixed-width big-endian keys compare as the numbers they encode. */
  lemma {:induction false} BigEndianOrder(m: nat, n: nat, width: nat)
    requires m < Power256(width) && n < Power256(width)
    ensures KeyLess(BigEndian(m, width), BigEndian(n, width)) <==> m < n
    ensures BigEndian(m, width) == BigEndian(n, width) <==> m == n
  {
    if width > 0 {
      BigEndianOrder(m / 256, n / 256, width - 1);
      var a, b := BigEndian(m / 256, width - 1), BigEndian(n / 256, width - 1);
      KeyLessSnoc(a, b, m % 256, n % 256);
      assert (a + [m % 256])[..|a|] == a && (b + [n % 256])[..|b|] == b;
      assert (a + [m % 256])[|a|] == m % 256 && (b + [n % 256])[|b|] == n % 256;
    }
  }

  lemma SeqKeyOrder(m: nat, n: nat)
    requires m < UINT64 && n < UINT64
    ensures KeyLess(SeqKey(m), SeqKey(n)) <==> m < n
    ensures SeqKey(m) == SeqKey(n) <==> m == n
  {
    assert Power256(8) == UINT64 by {
      assert Power256(4) == 0x1_0000_0000;
      assert Power256(6) == 0x1_0000_0000_0000;
    }
    BigEndianOrder(m, n, 8);
  }

  // ---------------------------------------------------------------------------
  // The bucket
  // ---------------------------------------------------------------------------

  /** The columns of an entry that are persisted. */
  datatype StoreEntry = StoreEntry(
    seqNo: nat,
    timestamp: int,
    decision: string,
    senderRegion: string,
    recipientRegion: string,
    policyVersion: string,
    profile: string,
    applicableLaw: string,
    reason: string,
    schemaType: string,
    schemaVersion: string,
    retainLong: bool,
    settlementFinal: bool)

  function ToStore(e: Entry): StoreEntry {
    var p := e.payload;
    StoreEntry(p.seqNo, p.timestamp, p.decision, p.senderRegion, p.recipientRegion, p.policyVersion, p.profile,
               p.applicableLaw, p.reason, p.schemaType, p.schemaVersion, p.retainLong, p.settlementFinal)
  }

  /** The columns that are not persisted come back empty, the hashes among them. */
  function FromStore(s: StoreEntry): Entry {
    Entry(Payload(s.seqNo, s.timestamp, s.decision, s.reason, 0, s.senderRegion, s.recipientRegion, s.policyVersion,
                  s.profile, s.applicableLaw, 0, "", "", "", s.schemaType, s.schemaVersion, s.retainLong,
                  s.settlementFinal, ""),
          "")
  }

  /** `nums` are the `Clamp(n, |rows|)` greatest sequence numbers, greatest first. */
  ghost predicate GreatestRows<R>(rows: map<nat, R>, n: int, nums: seq<nat>) {
    && |nums| == Clamp(n, |rows|)
    && (forall i :: 0 <= i < |nums| ==> nums[i] in rows)
    && (forall i, j :: 0 <= i < j < |nums| ==> nums[j] < nums[i])
    && (forall i, m :: 0 <= i < |nums| && m in rows && m !in nums ==> m < nums[i])
  }

  /** The keys are those of exactly these numbers. */
  ghost predicate KeysOf(ks: set<Key>, ns: set<nat>) {
    && (forall n :: n in ns ==> n < UINT64 && SeqKey(n) in ks)
    && (forall k :: k in ks ==> exists n :: n in ns && k == SeqKey(n))
  }

  /** A cursor has visited `nums`, greatest first, and has `left` still before it. */
  ghost predicate Walked(all: set<nat>, left: set<nat>, nums: seq<nat>) {
    && left <= all && |left| + |nums| == |all|
    && (forall i :: 0 <= i < |nums| ==> nums[i] in all)
    && (forall m :: m in all ==> m in left || m in nums)
    && (forall i, j :: 0 <= i < j < |nums| ==> nums[j] < nums[i])
    && (forall i, m :: 0 <= i < |nums| && m in left ==> m < nums[i])
  }

  lemma WalkOn(all: set<nat>, left: set<nat>, nums: seq<nat>, m: nat)
    requires Walked(all, left, nums) && m in left && forall n :: n in left ==> n <= m
    ensures Walked(all, left - {m}, nums + [m])
  {
    assert forall x :: x in nums + [m] <==> x in nums || x == m;
  }

  lemma WalkedIsGreatest<R>(rows: map<nat, R>, left: set<nat>, nums: seq<nat>, n: int)
    requires Walked(rows.Keys, left, nums)
    requires |nums| == 0 || |nums| <= n
    requires left == {} || |nums| >= n
    ensures GreatestRows(rows, n, nums)
  {
    assert |rows| == |rows.Keys|;
  }

  /** Position a cursor on the last key of `ks` in byte order. */
  method Last(ks: set<Key>, ghost ns: set<nat>) returns (k: Key, ghost m: nat)
    requires ks != {} && KeysOf(ks, ns)
    ensures k in ks && m in ns && k == SeqKey(m)
    ensures forall n :: n in ns ==> n <= m
    ensures KeysOf(ks - {k}, ns - {m})
  {
    k :| k in ks;
    m :| m in ns && k == SeqKey(m);
    RemoveKey(ks, ns, m);
    var todo := ks - {k};
    ghost var left := ns - {m};
    while todo != {}
      invariant k in ks && m in ns && k == SeqKey(m)
      invariant todo <= ks && left <= ns && KeysOf(todo, left)
      invariant forall n :: n in ns ==> n in left || n <= m
      decreases todo
    {
      var j :| j in todo;
      ghost var i: nat :| i in left && j == SeqKey(i);
      SeqKeyOrder(m, i);
      RemoveKey(todo, left, i);
      todo, left := todo - {j}, left - {i};
      if KeyLess(k, j) {
        k, m := j, i;
      }
    }
    RemoveKey(ks, ns, m);
  }

  ghost predicate Encodes<R(!new)>(bucket: map<Key, R>, rows: map<nat, R>) {
    KeysOf(bucket.Keys, rows.Keys) && forall n :: n in rows ==> bucket[SeqKey(n)] == rows[n]
  }

  ghost predicate ReadFrom<R>(rows: map<nat, R>, nums: seq<nat>, out: seq<R>) {
    |out| == |nums| && forall i :: 0 <= i < |nums| ==> nums[i] in rows && out[i] == rows[nums[i]]
  }

  lemma ReadOn<R>(rows: map<nat, R>, nums: seq<nat>, out: seq<R>, m: nat)
    requires ReadFrom(rows, nums, out) && m in rows
    ensures ReadFrom(rows, nums + [m], out + [rows[m]])
  {
  }

  /** `out` are the rows of the n greatest sequence numbers, greatest first. */
  ghost predicate Latest<R(!new)>(rows: map<nat, R>, n: int, out: seq<R>) {
    exists nums :: GreatestRows(rows, n, nums) && ReadFrom(rows, nums, out)
  }

  /** Walk a cursor backwards from the last key, collecting at most n values. */
  method Walk<R(!new)>(bucket: map<Key, R>, n: int, ghost rows: map<nat, R>) returns (out: seq<R>)
    requires Encodes(bucket, rows)
    ensures Latest(rows, n, out)
  {
    out := [];
    ghost var nums: seq<nat> := [];
    var before := bucket.Keys;
    ghost var left := rows.Keys;
    while before != {} && |out| < n
      invariant |out| == 0 || |out| <= n
      invariant before <= bucket.Keys && KeysOf(before, left) && Walked(rows.Keys, left, nums)
      invariant ReadFrom(rows, nums, out)
      decreases before
    {
      var k, m := Last(before, left);
      WalkOn(rows.Keys, left, nums, m);
      ReadOn(rows, nums, out, m);
      out, nums := out + [bucket[k]], nums + [m];
      before, left := before - {k}, left - {m};
    }
    assert before == {} ==> left == {};
    WalkedIsGreatest(rows, left, nums, n);
  }

  class Store {
    var audit: map<Key, StoreEntry>
    ghost var rows: map<nat, StoreEntry>  // what the bucket means

    ghost predicate Valid()
      reads this
    {
      Encodes(audit, rows)
    }

    constructor ()
      ensures Valid() && rows == map[]
    {
      audit, rows := map[], map[];
    }

    method AuditAppend(e: StoreEntry)
      requires Valid() && e.seqNo < UINT64
      modifies this
      ensures Valid() && rows == old(rows)[e.seqNo := e]
    {
      audit := audit[SeqKey(e.seqNo) := e];
      rows := rows[e.seqNo := e];
      forall n | n in rows
        ensures SeqKey(n) in audit && audit[SeqKey(n)] == rows[n]
      {
        SeqKeyOrder(n, e.seqNo);
      }
      forall k | k in audit
        ensures exists n :: n in rows && k == SeqKey(n)
      {
        if k == SeqKey(e.seqNo) {
          assert e.seqNo in rows;
        } else {
          var n :| n in old(rows) && k == SeqKey(n);
          assert n in rows;
        }
      }
    }

    method AuditLatest(n: int) returns (out: seq<StoreEntry>)
      requires Valid()
      ensures Latest(rows, n, out)
    {
      out := Walk(audit, n, rows);
    }
  }

  /** `Log.Recent`: the store's rows if there are any, else the entries in memory. */
  method Recent(log: Log, store: Store?, n: int) returns (out: seq<Entry>)
    requires store != null ==> store.Valid()
    ensures store == null || n <= 0 || store.rows == map[] ==> out == NewestFirst(log.entries, n)
    ensures store != null && n > 0 && store.rows != map[] ==>
              exists rows :: Latest(store.rows, n, rows) && out == ReadBack(rows)
  {
    if store != null {
      var rows := store.AuditLatest(n);
      if |rows| > 0 {
        return ReadBack(rows);
      }
    }
    out := log.RecentInMemory(n);
  }

  function ReadBack(rows: seq<StoreEntry>): seq<Entry> {
    seq(|rows|, i requires 0 <= i < |rows| => FromStore(rows[i]))
  }

  lemma RemoveKey(ks: set<Key>, ns: set<nat>, m: nat)
    requires KeysOf(ks, ns) && m in ns
    ensures KeysOf(ks - {SeqKey(m)}, ns - {m})
  {
    forall n | n in ns - {m}
      ensures SeqKey(n) in ks - {SeqKey(m)}
    {
      SeqKeyOrder(n, m);
    }
    forall k | k in ks - {SeqKey(m)}
      ensures exists n :: n in ns - {m} && k == SeqKey(n)
    {
      var n :| n in ns && k == SeqKey(n);
      assert n in ns - {m};
    }
  }

  // ---------------------------------------------------------------------------
  // Writes that land after the log's lock is released, in any order
  // ---------------------------------------------------------------------------

  /**
   `log` is the in-memory log as the store would keep it. `pending` and `failed` hold the
   sequence numbers of entries whose write has not landed yet, or never will because
   `AuditAppend` returned an error that the log discards.
   */
  datatype State<R> = State(log: seq<R>, pending: set<nat>, failed: set<nat>, rows: map<nat, R>)

  datatype Step<R> = Append(row: R) | Land(n: nat) | Fail(n: nat)

  /** `num` reads a row's sequence number, which is also the number it is written under. */
  ghost predicate Next<R(!new)>(num: R -> nat, s: State<R>, s': State<R>, step: Step<R>) {
    match step
    case Append(row) =>
      && num(row) == |s.log| + 1
      && s' == s.(log := s.log + [row], pending := s.pending + {num(row)})
    case Land(n) =>
      && n in s.pending && 1 <= n <= |s.log|
      && s' == s.(pending := s.pending - {n}, rows := s.rows[num(s.log[n - 1]) := s.log[n - 1]])
    case Fail(n) =>
      n in s.pending && s' == s.(pending := s.pending - {n}, failed := s.failed + {n})
  }

  ghost predicate Run<R(!new)>(num: R -> nat, states: seq<State<R>>, steps: seq<Step<R>>) {
    && |states| == |steps| + 1 && states[0] == State([], {}, {}, map[])
    && forall i :: 0 <= i < |steps| ==> Next(num, states[i], states[i + 1], steps[i])
  }

  /** The rows are exactly the entries whose write landed. */
  ghost predicate Inv<R(!new)>(num: R -> nat, s: State<R>) {
    && (forall i :: 0 <= i < |s.log| ==> num(s.log[i]) == i + 1)
    && (forall n :: n in s.pending || n in s.failed ==> 1 <= n <= |s.log|)
    && (forall n :: n in s.pending ==> n !in s.failed)
    && (forall n :: n in s.rows <==> 1 <= n <= |s.log| && n !in s.pending && n !in s.failed)
    && (forall n :: n in s.rows ==> s.rows[n] == s.log[n - 1])
  }

  lemma NextKeepsInv<R(!new)>(num: R -> nat, s: State<R>, s': State<R>, step: Step<R>)
    requires Inv(num, s) && Next(num, s, s', step)
    ensures Inv(num, s')
  {
    match step
    case Append(_) =>
    case Land(n) => assert num(s.log[n - 1]) == n;
    case Fail(_) =>
  }

  lemma {:induction false} RunKeepsInv<R(!new)>(num: R -> nat, states: seq<State<R>>, steps: seq<Step<R>>)
    requires Run(num, states, steps)
    ensures Inv(num, states[|steps|])
  {
    if steps != [] {
      var n := |steps| - 1;
      assert Next(num, states[n], states[n + 1], steps[n]);
      RunKeepsInv(num, states[..n + 1], steps[..n]);
      NextKeepsInv(num, states[n], states[n + 1], steps[n]);
    }
  }

  ghost function UpTo(n: nat): (ns: set<nat>)
    ensures forall i :: i in ns <==> 1 <= i <= n
    ensures |ns| == n
  {
    if n == 0 then {} else UpTo(n - 1) + {n}
  }

  /** A descending list of numbers that leaves out only smaller ones counts down from the total. */
  lemma {:induction false} CountsDown<R>(rows: map<nat, R>, n: int, nums: seq<nat>, total: nat, i: nat)
    requires GreatestRows(rows, n, nums) && i < |nums|
    requires forall m :: m in rows <==> 1 <= m <= total
    ensures nums[i] == total - i
  {
    if i > 0 {
      CountsDown(rows, n, nums, total, i - 1);
      var m: nat := total - i;
      assert nums[i] < nums[i - 1] && m in rows;
      var p :| 0 <= p < |nums| && nums[p] == m;
    } else {
      assert nums[0] in rows && total in rows;
    }
  }

  lemma GreatestAreNewest<R>(rows: map<nat, R>, log: seq<R>, n: int, nums: seq<nat>, out: seq<R>)
    requires (forall m :: m in rows <==> 1 <= m <= |log|) && forall m :: m in rows ==> rows[m] == log[m - 1]
    requires GreatestRows(rows, n, nums) && ReadFrom(rows, nums, out)
    ensures out == NewestFirst(log, n)
  {
    assert |rows| == |log| by {
      assert rows.Keys == UpTo(|log|) && |rows| == |rows.Keys|;
    }
    forall i | 0 <= i < |out|
      ensures out[i] == NewestFirst(log, n)[i]
    {
      CountsDown(rows, n, nums, |log|, i);
    }
  }

  /**
   Within one run from an empty bucket, whatever order the writes land in: once none is
   pending and none failed, the store's latest n are the in-memory log's latest n, newest first.
   */
  lemma LatestIsNewestFirst<R(!new)>(num: R -> nat, states: seq<State<R>>, steps: seq<Step<R>>, n: int, out: seq<R>)
    requires Run(num, states, steps) && Latest(states[|steps|].rows, n, out)
    requires states[|steps|].pending == {} && states[|steps|].failed == {}
    ensures out == NewestFirst(states[|steps|].log, n)
  {
    var s := states[|steps|];
    RunKeepsInv(num, states, steps);
    var nums :| GreatestRows(s.rows, n, nums) && ReadFrom(s.rows, nums, out);
    GreatestAreNewest(s.rows, s.log, n, nums, out);
  }

  /** And only then: while a write is pending or lost, asking for the whole log returns too few entries. */
  lemma WholeLogIffNothingMissing<R(!new)>(num: R -> nat, states: seq<State<R>>, steps: seq<Step<R>>, out: seq<R>)
    requires Run(num, states, steps) && Latest(states[|steps|].rows, |states[|steps|].log|, out)
    ensures var s := states[|steps|];
      out == NewestFirst(s.log, |s.log|) <==> s.pending == {} && s.failed == {}
  {
    var s := states[|steps|];
    RunKeepsInv(num, states, steps);
    if s.pending == {} && s.failed == {} {
      LatestIsNewestFirst(num, states, steps, |s.log|, out);
    } else {
      var x :| x in s.pending || x in s.failed;
      MissingRow(s.rows, |s.log|, x);
    }
  }

  lemma MissingRow<R>(rows: map<nat, R>, total: nat, x: nat)
    requires (forall n :: n in rows ==> 1 <= n <= total) && 1 <= x <= total && x !in rows
    ensures |rows| < total
  {
    SmallerSet(rows.Keys, UpTo(total), x);
  }

  /** What persistence keeps of an entry: every column but the hashes, trust tier, TTL, scope, alliance and region. */
  function Persisted(e: Entry): Entry {
    FromStore(ToStore(e))
  }

  /**
   So what `Recent` reads back from such a store is the persisted part of the in-memory
   log's latest n entries, newest first.
   */
  lemma RecentReadsBackTheLog(es: seq<Entry>, states: seq<State<StoreEntry>>, steps: seq<Step<StoreEntry>>, n: int,
                              rows: seq<StoreEntry>)
    requires Run((r: StoreEntry) => r.seqNo, states, steps) && Latest(states[|steps|].rows, n, rows)
    requires var s := states[|steps|];
      && s.pending == {} && s.failed == {}
      && |s.log| == |es| && forall i :: 0 <= i < |es| ==> s.log[i] == ToStore(es[i])
    ensures |ReadBack(rows)| == |NewestFirst(es, n)|
    ensures forall i :: 0 <= i < |ReadBack(rows)| ==> ReadBack(rows)[i] == Persisted(NewestFirst(es, n)[i])
    ensures |ReadBack(rows)| == (if n <= 0 then 0 else if n > |es| then |es| else n)
    ensures forall i :: 0 <= i < |ReadBack(rows)| ==> SameColumns(ReadBack(rows)[i].payload, es[|es| - 1 - i].payload)
  {
    LatestIsNewestFirst((r: StoreEntry) => r.seqNo, states, steps, n, rows);
    forall i | 0 <= i < |ReadBack(rows)|
      ensures SameColumns(ReadBack(rows)[i].payload, es[|es| - 1 - i].payload)
    {
      PersistedKeeps(es[|es| - 1 - i]);
    }
  }

  /** The columns that are persisted. */
  ghost predicate SameColumns(p: Payload, q: Payload) {
    && p.seqNo == q.seqNo && p.timestamp == q.timestamp && p.decision == q.decision && p.reason == q.reason
    && p.senderRegion == q.senderRegion && p.recipientRegion == q.recipientRegion
    && p.policyVersion == q.policyVersion && p.profile == q.profile && p.applicableLaw == q.applicableLaw
    && p.schemaType == q.schemaType && p.schemaVersion == q.schemaVersion
    && p.retainLong == q.retainLong && p.settlementFinal == q.settlementFinal
  }

  lemma PersistedKeeps(e: Entry)
    ensures SameColumns(Persisted(e).payload, e.payload)
  {
  }
}

/**
 The hash-chained audit log of internal/audit/log.go.

 SHA-256 over the JSON rendering of an entry enters as an arbitrary function `digest` from
 the hashed fields to a string. Nothing is assumed about it: the tamper-evidence results
 either give equality of logs or name the inputs on which `digest` was broken.
 */
module Audit {
  import opened Clock
  import opened Wrappers
  import opened Config
  import Schema

  const ALLOW := "ALLOW"
  const DENY := "DENY"
  const DUPLICATE := "DUPLICATE"
  const DUMMY := "ALLOW/DUMMY"
  const SETTLEMENT_FINAL := "SETTLEMENT/FINAL"

  /** The fields `hashEntry` covers: all of an entry except its own hash. */
  datatype Payload = Payload(
    seqNo: nat,
    timestamp: int,
    decision: string,
    reason: string,
    trustTier: nat,
    senderRegion: string,
    recipientRegion: string,
    policyVersion: string,
    profile: string,
    applicableLaw: string,
    dedupTtlHours: nat,
    nodeScope: string,
    allianceId: string,
    nodeRegion: string,
    schemaType: string,
    schemaVersion: string,
    retainLong: bool,
    settlementFinal: bool,
    previousHash: string)

  datatype Entry = Entry(payload: Payload, entryHash: string)

  type Digest = Payload -> string

  const ZERO_HASH := "sha256:0000000000000000000000000000000000000000000000000000000000000000"

  // ---------------------------------------------------------------------------
  // Appending
  // ---------------------------------------------------------------------------

  /** What a caller asks to be recorded; the rest of an entry comes from the configuration and the log. */
  datatype Event = Event(
    decision: string,
    reason: string,
    trustTier: nat,
    senderRegion: string,
    recipientRegion: string,
    schemaType: string,
    schemaVersion: string,
    retainLong: bool,
    settlementFinal: bool)

  function DecisionEvent(cfg: Config, decision: string, reason: string, trustTier: nat,
                         sender: string, recipient: string, schemaType: string, version: string): Event
  {
    Event(decision, reason, trustTier, sender, recipient, schemaType, version,
          schemaType == Schema.ISO20022 || cfg.iso20022.retainLong, false)
  }

  function FinalityEvent(sender: string, recipient: string, version: string): Event {
    Event(SETTLEMENT_FINAL, "ISO20022_SETTLEMENT_FINAL", 0, sender, recipient, Schema.ISO20022, version, true, true)
  }

  /** Whole hours of the dedup TTL: truncating division, then conversion to 64 unsigned bits. */
  function TtlHours(ttl: Duration): nat {
    (if ttl >= 0 then ttl / HOUR else -(-ttl / HOUR)) % 0x1_0000_0000_0000_0000
  }

  /** The columns that describe the node are those of the configuration in force. */
  ghost predicate OfNode(p: Payload, cfg: Config) {
    && p.policyVersion == cfg.node.policyVersion && p.profile == cfg.profile.name && p.applicableLaw == cfg.node.applicableLaw
    && p.nodeScope == cfg.node.nodeScope && p.allianceId == cfg.node.allianceId && p.nodeRegion == cfg.node.region
    && (0 <= cfg.profile.dedupTtl < 0x8000_0000_0000_0000 ==>
          p.dedupTtlHours * 3_600_000_000_000 <= cfg.profile.dedupTtl < (p.dedupTtlHours + 1) * 3_600_000_000_000)
  }

  function PayloadFor(cfg: Config, ev: Event, timestamp: int, seqNo: nat, previousHash: string): Payload {
    Payload(seqNo, timestamp, ev.decision, ev.reason, ev.trustTier, ev.senderRegion, ev.recipientRegion,
            cfg.node.policyVersion, cfg.profile.name, cfg.node.applicableLaw, TtlHours(cfg.profile.dedupTtl),
            cfg.node.nodeScope, cfg.node.allianceId, cfg.node.region, ev.schemaType, ev.schemaVersion,
            ev.retainLong, ev.settlementFinal, previousHash)
  }

  function Extend(digest: Digest, es: seq<Entry>, cfg: Config, ev: Event, timestamp: int): seq<Entry> {
    var p := PayloadFor(cfg, ev, timestamp, |es| + 1, Root(es));
    es + [Entry(p, digest(p))]
  }

  // ---------------------------------------------------------------------------
  // Chains
  // ---------------------------------------------------------------------------

  /** The hash that entry i must name as its predecessor. */
  function HashBefore(es: seq<Entry>, i: nat): string
    requires i <= |es|
  {
    if i == 0 then ZERO_HASH else es[i - 1].entryHash
  }

  function Root(es: seq<Entry>): string {
    HashBefore(es, |es|)
  }

  predicate Linked(digest: Digest, es: seq<Entry>, i: nat)
    requires i < |es|
  {
    es[i].payload.previousHash == HashBefore(es, i) && digest(es[i].payload) == es[i].entryHash
  }

  predicate Chain(digest: Digest, es: seq<Entry>) {
    forall i :: 0 <= i < |es| ==> Linked(digest, es, i)
  }

  predicate Numbered(es: seq<Entry>) {
    forall i :: 0 <= i < |es| ==> es[i].payload.seqNo == i + 1
  }

  datatype Fault =
    | PreviousHashMismatch(index: nat)
    | EntryHashMismatch(index: nat)
    | RootMismatch

  /** The fault a front-to-back scan reports for the first entry that is not linked. */
  ghost predicate FirstFault(digest: Digest, es: seq<Entry>, f: Fault) {
    && !f.RootMismatch?
    && f.index < |es|
    && (forall k :: 0 <= k < f.index ==> Linked(digest, es, k))
    && f.PreviousHashMismatch? == (es[f.index].payload.previousHash != HashBefore(es, f.index))
    && (f.EntryHashMismatch? ==> digest(es[f.index].payload) != es[f.index].entryHash)
  }

  /** The loop shared by `Verify` and `VerifyFile`. */
  method Scan(digest: Digest, es: seq<Entry>) returns (fault: Option<Fault>)
    ensures fault.None? <==> Chain(digest, es)
    ensures fault.Some? ==> FirstFault(digest, es, fault.value)
  {
    var expectedPrev := ZERO_HASH;
    for i := 0 to |es|
      invariant expectedPrev == HashBefore(es, i)
      invariant forall k :: 0 <= k < i ==> Linked(digest, es, k)
    {
      if es[i].payload.previousHash != expectedPrev {
        assert !Linked(digest, es, i);
        return Some(PreviousHashMismatch(i));
      }
      if digest(es[i].payload) != es[i].entryHash {
        assert !Linked(digest, es, i);
        return Some(EntryHashMismatch(i));
      }
      expectedPrev := es[i].entryHash;
    }
    return None;
  }

  /** `VerifyFile` after the JSON array has been decoded. */
  method VerifyFile(digest: Digest, es: seq<Entry>) returns (r: Result<string, Fault>)
    ensures r.Ok? <==> Chain(digest, es)
    ensures r.Ok? ==> r.value == Root(es)
    ensures r.Err? ==> FirstFault(digest, es, r.error)
  {
    var fault := Scan(digest, es);
    if fault.Some? {
      return Err(fault.value);
    }
    if |es| == 0 {
      return Ok(ZERO_HASH);
    }
    return Ok(es[|es| - 1].entryHash);
  }

  class Log {
    const digest: Digest
    var entries: seq<Entry>
    var root: string

    ghost predicate Valid()
      reads this
    {
      Chain(digest, entries) && Numbered(entries) && root == Root(entries)
    }

    constructor (digest: Digest)
      ensures Valid() && entries == [] && this.digest == digest
    {
      this.digest := digest;
      entries, root := [], ZERO_HASH;
    }

    method AppendEntry(cfg: Config, ev: Event, timestamp: int) returns (e: Entry)
      requires Valid()
      modifies this
      ensures Valid()
      ensures entries == Extend(digest, old(entries), cfg, ev, timestamp)
      ensures entries == old(entries) + [e]
      ensures e.entryHash == digest(e.payload)
      ensures e.payload.previousHash == if |old(entries)| == 0 then ZERO_HASH else old(entries)[|old(entries)| - 1].entryHash
    {
      var p := PayloadFor(cfg, ev, timestamp, |entries| + 1, root);
      e := Entry(p, digest(p));
      entries := entries + [e];
      root := e.entryHash;
      ExtendKeepsChain(digest, old(entries), cfg, ev, timestamp);
    }

    method Append(cfg: Config, decision: string, reason: string, trustTier: nat, sender: string,
                  recipient: string, schemaType: string, version: string, timestamp: int) returns (e: Entry)
      requires Valid()
      modifies this
      ensures Valid()
      ensures entries == Extend(digest, old(entries), cfg,
                                DecisionEvent(cfg, decision, reason, trustTier, sender, recipient, schemaType, version),
                                timestamp)
      ensures entries == old(entries) + [e]
      ensures var p := e.payload;
        && p.seqNo == |entries| && p.timestamp == timestamp && p.decision == decision && p.reason == reason
        && p.trustTier == trustTier && p.senderRegion == sender && p.recipientRegion == recipient
        && p.schemaType == schemaType && p.schemaVersion == version && !p.settlementFinal
        && (p.retainLong <==> schemaType == "iso20022" || cfg.iso20022.retainLong)
        && OfNode(p, cfg)
    {
      var ev := DecisionEvent(cfg, decision, reason, trustTier, sender, recipient, schemaType, version);
      e := AppendEntry(cfg, ev, timestamp);
    }

    method AppendFinality(cfg: Config, sender: string, recipient: string, version: string, timestamp: int)
      returns (e: Entry)
      requires Valid()
      modifies this
      ensures Valid()
      ensures entries == Extend(digest, old(entries), cfg, FinalityEvent(sender, recipient, version), timestamp)
      ensures entries == old(entries) + [e]
      ensures var p := e.payload;
        && p.seqNo == |entries| && p.timestamp == timestamp && p.decision == "SETTLEMENT/FINAL"
        && p.reason == "ISO20022_SETTLEMENT_FINAL" && p.trustTier == 0 && p.senderRegion == sender
        && p.recipientRegion == recipient && p.schemaType == "iso20022" && p.schemaVersion == version
        && p.settlementFinal && p.retainLong && OfNode(p, cfg)
    {
      e := AppendEntry(cfg, FinalityEvent(sender, recipient, version), timestamp);
    }

    /** Accepts exactly the intact chains whose stored root is the root of the chain. */
    method Verify() returns (fault: Option<Fault>)
      ensures fault.None? <==> Chain(digest, entries) && root == Root(entries)
      ensures fault.Some? && !fault.value.RootMismatch? ==> FirstFault(digest, entries, fault.value)
      ensures fault == Some(RootMismatch) <==> Chain(digest, entries) && root != Root(entries)
      ensures Valid() ==> fault.None?
    {
      fault := Scan(digest, entries);
      if fault.Some? {
        return;
      }
      if |entries| == 0 && root != ZERO_HASH {
        return Some(RootMismatch);
      }
      if |entries| > 0 && root != entries[|entries| - 1].entryHash {
        return Some(RootMismatch);
      }
    }

    /** `Recent` when the store is absent, fails or is empty: the in-memory entries, newest first. */
    method RecentInMemory(n: int) returns (out: seq<Entry>)
      ensures out == NewestFirst(entries, n)
      ensures |out| == (if n <= 0 then 0 else if n > |entries| then |entries| else n)
      ensures forall i :: 0 <= i < |out| ==> out[i] == entries[|entries| - 1 - i]
    {
      var total := |entries|;
      if n <= 0 || total == 0 {
        return [];
      }
      var m := if n > total then total else n;
      out := [];
      for i := 0 to m
        invariant |out| == i
        invariant forall k :: 0 <= k < i ==> out[k] == entries[total - 1 - k]
      {
        out := out + [entries[total - 1 - i]];
      }
    }
  }

  /** How many of `total` items a request for the latest `n` returns. */
  function Clamp(n: int, total: nat): (m: nat)
    ensures m <= total
  {
    if n <= 0 then 0 else if n > total then total else n
  }

  function NewestFirst<T>(es: seq<T>, n: int): seq<T> {
    seq(Clamp(n, |es|), i requires 0 <= i < Clamp(n, |es|) => es[|es| - 1 - i])
  }

  /** What an appended entry says, for every event: who decided what about whom, when, and under which configuration. */
  lemma ExtendRecords(digest: Digest, es: seq<Entry>, cfg: Config, ev: Event, timestamp: int)
    ensures var es' := Extend(digest, es, cfg, ev, timestamp);
      && |es'| == |es| + 1 && es'[..|es|] == es
      && (var p := es'[|es|].payload;
          && p.seqNo == |es| + 1 && p.timestamp == timestamp && p.decision == ev.decision && p.reason == ev.reason
          && p.trustTier == ev.trustTier && p.senderRegion == ev.senderRegion && p.recipientRegion == ev.recipientRegion
          && p.schemaType == ev.schemaType && p.schemaVersion == ev.schemaVersion && p.retainLong == ev.retainLong
          && p.settlementFinal == ev.settlementFinal && OfNode(p, cfg)
          && p.previousHash == (if es == [] then ZERO_HASH else es[|es| - 1].entryHash)
          && es'[|es|].entryHash == digest(p))
  {
  }

  lemma ExtendKeepsChain(digest: Digest, es: seq<Entry>, cfg: Config, ev: Event, timestamp: int)
    requires Chain(digest, es) && Numbered(es)
    ensures Chain(digest, Extend(digest, es, cfg, ev, timestamp))
    ensures Numbered(Extend(digest, es, cfg, ev, timestamp))
  {
    var es' := Extend(digest, es, cfg, ev, timestamp);
    forall i | 0 <= i < |es'|
      ensures Linked(digest, es', i)
    {
      assert i < |es| ==> Linked(digest, es, i);
    }
  }

  // ---------------------------------------------------------------------------
  // Tamper evidence
  // ---------------------------------------------------------------------------

  ghost predicate Collides(digest: Digest, xs: seq<Entry>, ys: seq<Entry>) {
    exists i, j :: 0 <= i < |xs| && 0 <= j < |ys|
      && xs[i].payload != ys[j].payload && digest(xs[i].payload) == digest(ys[j].payload)
  }

  ghost predicate HitsZero(digest: Digest, xs: seq<Entry>) {
    exists i :: 0 <= i < |xs| && digest(xs[i].payload) == ZERO_HASH
  }

  /** The only ways two different verifying logs can share a root. */
  ghost predicate DigestBroken(digest: Digest, xs: seq<Entry>, ys: seq<Entry>) {
    Collides(digest, xs, ys) || HitsZero(digest, xs) || HitsZero(digest, ys)
  }

  lemma BrokenInPrefix(digest: Digest, xs: seq<Entry>, ys: seq<Entry>)
    requires xs != [] && ys != []
    requires DigestBroken(digest, xs[..|xs| - 1], ys[..|ys| - 1])
    ensures DigestBroken(digest, xs, ys)
  {
    var xs', ys' := xs[..|xs| - 1], ys[..|ys| - 1];
    if Collides(digest, xs', ys') {
      var i, j :| 0 <= i < |xs'| && 0 <= j < |ys'|
        && xs'[i].payload != ys'[j].payload && digest(xs'[i].payload) == digest(ys'[j].payload);
      assert xs[i] == xs'[i] && ys[j] == ys'[j];
    } else if HitsZero(digest, xs') {
      var i :| 0 <= i < |xs'| && digest(xs'[i].payload) == ZERO_HASH;
      assert xs[i] == xs'[i];
    } else {
      var j :| 0 <= j < |ys'| && digest(ys'[j].payload) == ZERO_HASH;
      assert ys[j] == ys'[j];
    }
  }

  /**
   Any two entry lists, of any lengths, that both verify and end in the same root are equal
   in every field, unless they contain two different payloads with one digest, or a payload
   whose digest is the zero hash.
   */
  lemma {:induction false} TamperEvidence(digest: Digest, xs: seq<Entry>, ys: seq<Entry>)
    requires Chain(digest, xs) && Chain(digest, ys) && Root(xs) == Root(ys)
    ensures xs == ys || DigestBroken(digest, xs, ys)
    decreases |xs|
  {
    if xs == [] || ys == [] {
      if ys != [] {
        assert Linked(digest, ys, |ys| - 1);
      }
      if xs != [] {
        assert Linked(digest, xs, |xs| - 1);
      }
    } else {
      var m, n := |xs| - 1, |ys| - 1;
      assert Linked(digest, xs, m) && Linked(digest, ys, n);
      if xs[m].payload == ys[n].payload {
        assert Chain(digest, xs[..m]) by { PrefixChain(digest, xs, m); }
        assert Chain(digest, ys[..n]) by { PrefixChain(digest, ys, n); }
        assert Root(xs[..m]) == HashBefore(xs, m) && Root(ys[..n]) == HashBefore(ys, n);
        TamperEvidence(digest, xs[..m], ys[..n]);
        if xs[..m] == ys[..n] {
          assert xs == xs[..m] + [xs[m]] && ys == ys[..n] + [ys[n]];
        } else {
          BrokenInPrefix(digest, xs, ys);
        }
      }
    }
  }

  lemma PrefixChain(digest: Digest, es: seq<Entry>, n: nat)
    requires Chain(digest, es) && n <= |es|
    ensures Chain(digest, es[..n])
  {
    forall i | 0 <= i < n
      ensures Linked(digest, es[..n], i)
    {
      assert Linked(digest, es, i);
    }
  }

  /** The log after a whole run of appends, from the empty log. */
  function Appended(digest: Digest, run: seq<(Config, Event, int)>): seq<Entry> {
    if run == [] then []
    else
      var last := run[|run| - 1];
      Extend(digest, Appended(digest, run[..|run| - 1]), last.0, last.1, last.2)
  }

  lemma {:induction false} AppendedIsChain(digest: Digest, run: seq<(Config, Event, int)>)
    ensures Chain(digest, Appended(digest, run)) && Numbered(Appended(digest, run))
    ensures |Appended(digest, run)| == |run|
    ensures run != [] ==>
              Appended(digest, run)[0].payload.previousHash == "sha256:0000000000000000000000000000000000000000000000000000000000000000"
  {
    if run != [] {
      var n := |run| - 1;
      assert n == 0 ==> Appended(digest, run[..n]) == [];
      AppendedIsChain(digest, run[..n]);
      ExtendKeepsChain(digest, Appended(digest, run[..n]), run[n].0, run[n].1, run[n].2);
    }
  }

  /**
   A file that verifies to the root a node reached after any run of appends is that node's
   log, so its sequence numbers are 1..n although verification never looks at them.
   */
  lemma {:induction false} FileWithNodeRootIsNodeLog(digest: Digest, run: seq<(Config, Event, int)>, file: seq<Entry>)
    requires Chain(digest, file) && Root(file) == Root(Appended(digest, run))
    ensures file == Appended(digest, run) || DigestBroken(digest, file, Appended(digest, run))
    ensures !DigestBroken(digest, file, Appended(digest, run)) ==> Numbered(file) && |file| == |run|
  {
    AppendedIsChain(digest, run);
    TamperEvidence(digest, file, Appended(digest, run));
  }
}

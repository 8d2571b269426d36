/**
 `Gateway.SendEnvelope` of internal/core/gateway.go on the real components, run without
 interference: what one call answers and what it leaves behind in each of them. The
 interleavings of many calls are the subject of the module `Gateway`; that an undisturbed
 call is a run of that machine is proved in `SendIsARun`.
 */
module SendEnvelope {
  import opened Clock
  import opened Config
  import opened Envelopes
  import opened Gateway
  import opened Wrappers
  import Audit
  import Dedup
  import Dlq
  import Forwarder
  import Policy
  import Retry
  import Schema
  import Transit

  datatype SendResponse = SendResponse(
    decision: string,
    reason: string,
    profile: string,
    nodeId: string,
    auditRootHash: string,
    peerAuditRootHash: string)

  datatype SendError = EmptyIdempotencyKey

  /** How far a call got. */
  datatype Path =
    | Rejected                      // no idempotency key
    | Dummy
    | Duplicate
    | Denied
    | AllowedOnly                   // no forwarder, or the jitter wait was cancelled
    | Forwarded(result: Result<string, Forwarder.ForwardError>)

  /** The clock readings of one call, each taken where it is needed. */
  datatype Readings = Readings(
    lookup: Time,    // under the index's lock
    record: Time,    // under the log's lock, for the decision
    window: Time,    // when the processing window is checked
    setAside: Time,  // when the envelope is queued or buffered
    finality: Time)  // under the log's lock, for the finality entry

  /** The envelopes that are kept between calls. */
  datatype Kept = Kept(queue: seq<Dlq.DlqEntry>, buffer: Transit.Buffer<Forwarder.Buffered>)

  // ---------------------------------------------------------------------------
  // What a call does
  // ---------------------------------------------------------------------------

  /** Exactly when a call meets which end; `forwards` says that there is a forwarder and the jitter wait passes. */
  predicate Meets(request: Envelope, seen: bool, verdict: Policy.Verdict, forwards: bool, path: Path) {
    if request.idempotencyKey == "" then path == Rejected
    else if request.isDummy then path == Dummy
    else if seen then path == Duplicate
    else if verdict.decision != Audit.ALLOW then path == Denied
    else if !forwards then path == AllowedOnly
    else path.Forwarded?
  }

  function ShardsAfter(setup: Setup, env: Envelope, lookup: Time, path: Path, shards: seq<Dedup.Shard>): seq<Dedup.Shard>
    requires |shards| == Dedup.NUM_SHARDS
  {
    if path.Rejected? || path.Dummy? then shards
    else Dedup.Apply(setup.hash, shards, Dedup.Touch(env.idempotencyKey, DedupTtl(setup, env), lookup))
  }

  /** One decision entry, and a finality entry on top of it for a delivered financial message. */
  function LogAfter(setup: Setup, env: Envelope, verdict: Policy.Verdict, engineCfg: Config, at: Readings, path: Path,
                    log: seq<Audit.Entry>): seq<Audit.Entry>
  {
    match path
    case Rejected => log
    case Dummy => Audit.Extend(setup.digest, log, setup.cfg, DummyEvent(setup.cfg, env), UnixMilli(at.record))
    case Duplicate => Audit.Extend(setup.digest, log, setup.cfg, DuplicateEvent(setup.cfg, env), UnixMilli(at.record))
    case _ =>
      SettledLog(setup, env, at.finality, path, DecidedLog(setup, env, verdict, engineCfg, at.record, log))
  }

  function DecidedLog(setup: Setup, env: Envelope, verdict: Policy.Verdict, engineCfg: Config, record: Time, log: seq<Audit.Entry>)
    : seq<Audit.Entry>
  {
    Audit.Extend(setup.digest, log, engineCfg, Policy.VerdictEvent(engineCfg, verdict, RequestOf(env)), UnixMilli(record))
  }

  function SettledLog(setup: Setup, env: Envelope, finality: Time, path: Path, log: seq<Audit.Entry>): seq<Audit.Entry> {
    if path.Forwarded? && path.result.Ok? && Settles(setup, env) then
      Audit.Extend(setup.digest, log, setup.cfg,
                   Audit.FinalityEvent(env.senderRegion, env.recipientRegion, env.schemaVersion), UnixMilli(finality))
    else log
  }

  /** What a forwarded call leaves in queue and buffer; any other call leaves nothing. */
  ghost predicate SetAside(setup: Setup, env: Envelope, at: Readings, path: Path, t: Forwarder.Attempt,
                           kept: Kept, kept': Kept)
  {
    && kept'.queue == kept.queue + (if path.Forwarded? && setup.hasDlq then
                                      Forwarder.DeadLetters(setup.forwarderCfg, env, at.window, at.setAside, path.result, t,
                                                            setup.hasTransit)
                                    else [])
    && if path.Forwarded? && setup.hasTransit then
         Forwarder.Buffers(setup.transitTtl, env, at.setAside, path.result, t, kept.buffer, kept'.buffer)
       else kept'.buffer == kept.buffer
  }

  function ResponseFor(cfg: Config, path: Path, verdict: Policy.Verdict, root: string): SendResponse {
    match path
    case Dummy => SendResponse(Audit.ALLOW, "DUMMY_TRAFFIC", cfg.profile.name, cfg.node.nodeId, root, "")
    case Duplicate =>
      SendResponse(Audit.DUPLICATE, "idempotency_key already processed", cfg.profile.name, cfg.node.nodeId, root, "")
    case _ =>
      SendResponse(verdict.decision, verdict.reason, verdict.profile, cfg.node.nodeId, root,
                   if path.Forwarded? && path.result.Ok? then path.result.value else "")
  }

  // ---------------------------------------------------------------------------
  // What the answer means
  // ---------------------------------------------------------------------------

  /**
   What a caller learns from an answer and an auditor from the log. The first new entry
   records the decision; the answer repeats it, except that dummy traffic is answered ALLOW.
   The answer carries the hash of the last entry, and a peer's root only if a peer accepted.
   */
  ghost predicate Tells(env: Envelope, at: Readings, path: Path, nodeId: string, resp: SendResponse, log: seq<Audit.Entry>,
                        log': seq<Audit.Entry>)
  {
    && |log| < |log'| && log == log'[..|log|]
    && (var p := log'[|log|].payload;
        && p.senderRegion == env.senderRegion && p.recipientRegion == env.recipientRegion
        && p.timestamp == UnixMilli(at.record) && resp.profile == p.profile
        && (if path.Dummy? then
              resp.decision == "ALLOW" && resp.reason == "DUMMY_TRAFFIC"
              && p.decision == "ALLOW/DUMMY" && p.reason == "DUMMY_TRAFFIC" && p.trustTier == 0 && p.schemaType == ""
            else
              p.trustTier == env.trustTier && p.schemaType == env.schemaType && p.schemaVersion == env.schemaVersion)
        && (path.Duplicate? ==>
              && resp.decision == "DUPLICATE" && resp.reason == "idempotency_key already processed"
              && p.decision == "DUPLICATE" && p.reason == "DUPLICATE_IDEMPOTENCY_KEY")
        && (!path.Dummy? && !path.Duplicate? ==>
              resp.decision == p.decision && resp.reason == p.reason))
    && resp.auditRootHash == log'[|log'| - 1].entryHash && resp.nodeId == nodeId
    && resp.peerAuditRootHash == (if path.Forwarded? && path.result.Ok? then path.result.value else "")
  }

  /** The second new entry, where there is one, is the finality of a delivered financial message. */
  ghost predicate TellsFinality(env: Envelope, at: Readings, path: Path, wanted: bool, log: seq<Audit.Entry>,
                                log': seq<Audit.Entry>)
  {
    if path.Forwarded? && path.result.Ok? && env.schemaType == "iso20022" && wanted then
      && |log'| == |log| + 2
      && (var p := log'[|log| + 1].payload;
          && p.decision == "SETTLEMENT/FINAL" && p.settlementFinal && p.retainLong && p.timestamp == UnixMilli(at.finality)
          && p.senderRegion == env.senderRegion && p.recipientRegion == env.recipientRegion
          && p.schemaType == "iso20022" && p.schemaVersion == env.schemaVersion)
    else |log'| == |log| + 1
  }

  /** Which end a call meets, end by end; `held` says that the index still holds the key. */
  predicate EndsAs(request: Envelope, held: bool, allowed: bool, forwards: bool, path: Path) {
    && (path.Rejected? <==> request.idempotencyKey == "")
    && (path.Dummy? <==> request.idempotencyKey != "" && request.isDummy)
    && (path.Duplicate? <==> request.idempotencyKey != "" && !request.isDummy && held)
    && (path.Denied? <==> request.idempotencyKey != "" && !request.isDummy && !held && !allowed)
    && (path.AllowedOnly? <==> request.idempotencyKey != "" && !request.isDummy && !held && allowed && !forwards)
  }

  /** A key that was let through is held for its TTL from the lookup on; any other call leaves the index alone. */
  predicate Registers(key: string, ttl: Duration, lookup: Time, path: Path, i: nat, shards: seq<Dedup.Shard>,
                      shards': seq<Dedup.Shard>)
    requires i < |shards|
  {
    shards' == if path.Denied? || path.AllowedOnly? || path.Forwarded? then shards[i := shards[i][key := lookup + ttl]]
               else shards
  }

  lemma EndIsTold(setup: Setup, request: Envelope, shards: seq<Dedup.Shard>, lookup: Time, verdict: Policy.Verdict,
                  forwards: bool, path: Path)
    requires |shards| == Dedup.NUM_SHARDS
    requires Meets(request, Seen(setup, shards, request.idempotencyKey, lookup), verdict, forwards, path)
    ensures var i := Dedup.ShardOf(setup.hash, request.idempotencyKey);
      var held := request.idempotencyKey in shards[i] && lookup < shards[i][request.idempotencyKey];
      && EndsAs(request, held, verdict.decision == "ALLOW", forwards, path)
      && Registers(request.idempotencyKey, DedupTtl(setup, Normalized(request)), lookup, path, i, shards,
                   ShardsAfter(setup, Normalized(request), lookup, path, shards))
  {
  }

  lemma AnswerTells(setup: Setup, env: Envelope, verdict: Policy.Verdict, engineCfg: Config, at: Readings, path: Path,
                    log: seq<Audit.Entry>)
    requires !path.Rejected? && verdict.profile == engineCfg.profile.name
    ensures var log' := LogAfter(setup, env, verdict, engineCfg, at, path, log);
      && Tells(env, at, path, setup.cfg.node.nodeId, ResponseFor(setup.cfg, path, verdict, Audit.Root(log')), log, log')
      && TellsFinality(env, at, path, setup.cfg.iso20022.settlementFinality, log, log')
  {
    if path.Dummy? {
      Audit.ExtendRecords(setup.digest, log, setup.cfg, DummyEvent(setup.cfg, env), UnixMilli(at.record));
    } else if path.Duplicate? {
      Audit.ExtendRecords(setup.digest, log, setup.cfg, DuplicateEvent(setup.cfg, env), UnixMilli(at.record));
    } else {
      VerdictTells(setup, env, verdict, engineCfg, at, path, log);
    }
  }

  lemma VerdictTells(setup: Setup, env: Envelope, verdict: Policy.Verdict, engineCfg: Config, at: Readings, path: Path,
                     log: seq<Audit.Entry>)
    requires path.Denied? || path.AllowedOnly? || path.Forwarded?
    requires verdict.profile == engineCfg.profile.name
    ensures var log' := LogAfter(setup, env, verdict, engineCfg, at, path, log);
      && Tells(env, at, path, setup.cfg.node.nodeId, ResponseFor(setup.cfg, path, verdict, Audit.Root(log')), log, log')
      && TellsFinality(env, at, path, setup.cfg.iso20022.settlementFinality, log, log')
  {
    var decided := DecidedLog(setup, env, verdict, engineCfg, at.record, log);
    Audit.ExtendRecords(setup.digest, log, engineCfg, Policy.VerdictEvent(engineCfg, verdict, RequestOf(env)), UnixMilli(at.record));
    Audit.ExtendRecords(setup.digest, decided, setup.cfg,
                        Audit.FinalityEvent(env.senderRegion, env.recipientRegion, env.schemaVersion), UnixMilli(at.finality));
  }

  /** Some peer on the route answered one of the sends with this root. */
  ghost predicate AnsweredBy(net: Forwarder.Network, start: nat, t: Forwarder.Attempt, root: string) {
    exists i, n: nat :: 0 <= i < |t.peers| && start <= n < start + t.sends && net(t.peers[i].addr, n) == Ok(root)
  }

  /** With an attempt allowed, a peer's root in the answer is what a peer on the route answered to a send. */
  lemma PeerAnswered(cfg: Config, p: Retry.RetryPolicy, env: Envelope, net: Forwarder.Network, cancelled: nat -> bool, start: nat,
                     checkedAt: Time, root: string, t: Forwarder.Attempt)
    requires Forwarder.ComesTo(cfg, p, env, net, cancelled, start, checkedAt, Ok(root), t) && p.maxAttempts >= 1
    ensures AnsweredBy(net, start, t, root)
  {
    Forwarder.AcceptedWasSentIff(p, net, cancelled, start, t.peers, t.tried - 1, root);
  }

  class SendingGateway {
    const cfg: Config
    const engine: Policy.Engine
    const audit: Audit.Log
    const dedup: Dedup.Index
    const forwarder: Forwarder.Forwarder?

    constructor (cfg: Config, engine: Policy.Engine, audit: Audit.Log, dedup: Dedup.Index, forwarder: Forwarder.Forwarder?)
      ensures this.cfg == cfg && this.engine == engine && this.audit == audit && this.dedup == dedup
      ensures this.forwarder == forwarder
    {
      this.cfg, this.engine, this.audit, this.dedup, this.forwarder := cfg, engine, audit, dedup, forwarder;
    }

    ghost predicate Valid()
      reads this, engine, audit, dedup
    {
      engine.audit == audit && audit.Valid() && dedup.Valid()
    }

    /** Where forwarding may leave an envelope. */
    ghost function Holders(): set<object?>
      reads this
    {
      if forwarder == null then {} else {forwarder.dlq, forwarder.transitCache}
    }

    /** How this gateway is wired. */
    ghost function Wiring(): Setup {
      Setup(cfg, dedup.ttl, dedup.hash, audit.digest, if forwarder != null then forwarder.cfg else cfg, forwarder != null,
            forwarder != null && forwarder.transitCache != null,
            if forwarder != null && forwarder.transitCache != null then forwarder.transitCache.ttl else 0,
            forwarder != null && forwarder.dlq != null)
    }

    ghost function KeptNow(): Kept
      reads this, Holders()
    {
      Kept(if forwarder != null && forwarder.dlq != null then forwarder.dlq.entries else [],
           if forwarder != null && forwarder.transitCache != null then forwarder.transitCache.entries else map[])
    }

    ghost function Verdict(env: Envelope): Policy.Verdict
      reads this, engine, engine.crl
    {
      Policy.Decide(engine.cfg, engine.Revoked(env.senderNodeId), RequestOf(env))
    }

    lemma VerdictNamesProfile(env: Envelope)
      ensures Verdict(env).profile == engine.cfg.profile.name
    {
      Policy.DecisionMatchesReason(engine.cfg, engine.Revoked(env.senderNodeId), RequestOf(env));
    }

    /** The index call with the TTL that the schema type asks for. */
    method SeenBefore(env: Envelope, now: Time) returns (seen: bool)
      requires dedup.Valid()
      modifies dedup.shards
      ensures seen == Seen(Wiring(), old(dedup.shards[..]), env.idempotencyKey, now)
      ensures dedup.shards[..] == ShardsAfter(Wiring(), env, now, Duplicate, old(dedup.shards[..]))
      ensures KeptNow() == old(KeptNow()) && Verdict(env) == old(Verdict(env))
    {
      if env.schemaType == Schema.ISO20022 {
        var dedupH := cfg.iso20022.dedupTtlH;
        if dedupH < ISO20022_FLOOR_HOURS {
          dedupH := ISO20022_FLOOR_HOURS;
        }
        seen := dedup.SeenOrAddWithTTL(env.idempotencyKey, ToInt64(dedupH * HOUR), now);
      } else {
        seen := dedup.SeenOrAdd(env.idempotencyKey, now);
      }
    }

    /** The last leg of an allowed call: forward, and record finality for a delivered financial message. */
    method ForwardAllowed(env: Envelope, jitterCancelled: bool, net: Forwarder.Network, cancelled: nat -> bool,
                          start: nat, at: Readings)
      returns (path: Path, t: Forwarder.Attempt)
      requires audit.Valid()
      modifies audit, Holders()
      ensures audit.Valid()
      ensures if forwarder == null || jitterCancelled then path == AllowedOnly && t == Forwarder.NO_ATTEMPT
              else
                && path.Forwarded?
                && Forwarder.ComesTo(forwarder.cfg, forwarder.policy, env, net, cancelled, start, at.window, path.result, t)
      ensures audit.entries == SettledLog(Wiring(), env, at.finality, path, old(audit.entries))
      ensures SetAside(Wiring(), env, at, path, t, old(KeptNow()), KeptNow())
    {
      if forwarder == null || jitterCancelled {
        return AllowedOnly, Forwarder.NO_ATTEMPT;
      }
      var r;
      r, t := forwarder.Forward(env, net, cancelled, start, at.window, at.setAside);
      path := Forwarded(r);
      if r.Ok? && env.schemaType == Schema.ISO20022 && cfg.iso20022.settlementFinality {
        var _ := audit.AppendFinality(cfg, env.senderRegion, env.recipientRegion, env.schemaVersion, UnixMilli(at.finality));
      }
    }

    /** Record a call that goes no further, and answer it. */
    method Record(ev: Audit.Event, decision: string, reason: string, now: Time) returns (resp: SendResponse)
      requires audit.Valid()
      modifies audit
      ensures audit.Valid() && audit.entries == Audit.Extend(audit.digest, old(audit.entries), cfg, ev, UnixMilli(now))
      ensures resp == SendResponse(decision, reason, cfg.profile.name, cfg.node.nodeId, Audit.Root(audit.entries), "")
    {
      var _ := audit.AppendEntry(cfg, ev, UnixMilli(now));
      resp := SendResponse(decision, reason, cfg.profile.name, cfg.node.nodeId, audit.root, "");
    }

    /** The rest of a call that the index let through: policy, then forwarding. */
    method SendAdmitted(env: Envelope, jitterCancelled: bool, net: Forwarder.Network, cancelled: nat -> bool, start: nat,
                        at: Readings)
      returns (resp: SendResponse, path: Path, t: Forwarder.Attempt)
      requires Valid()
      modifies audit, Holders()
      ensures Valid()
      ensures if old(Verdict(env)).decision != Audit.ALLOW then path == Denied
              else if forwarder == null || jitterCancelled then path == AllowedOnly
              else path.Forwarded?
      ensures if path.Forwarded? then
                && forwarder != null
                && Forwarder.ComesTo(forwarder.cfg, forwarder.policy, env, net, cancelled, start, at.window, path.result, t)
              else t == Forwarder.NO_ATTEMPT
      ensures audit.entries == LogAfter(Wiring(), env, old(Verdict(env)), engine.cfg, at, path, old(audit.entries))
      ensures SetAside(Wiring(), env, at, path, t, old(KeptNow()), KeptNow())
      ensures resp == ResponseFor(cfg, path, old(Verdict(env)), Audit.Root(audit.entries))
    {
      var verdict := Judge(env, at.record);
      ghost var log := audit.entries;
      resp, path, t := Conclude(env, verdict, jitterCancelled, net, cancelled, start, at);
      assert path.Denied? || path.AllowedOnly? || path.Forwarded?;
      assert audit.entries == SettledLog(Wiring(), env, at.finality, path, log);
    }

    /** The policy decides, and its verdict is recorded. */
    method Judge(env: Envelope, now: Time) returns (verdict: Policy.Verdict)
      requires Valid()
      modifies audit
      ensures Valid() && verdict == old(Verdict(env)) && KeptNow() == old(KeptNow())
      ensures audit.entries == DecidedLog(Wiring(), env, verdict, engine.cfg, now, old(audit.entries))
    {
      verdict := engine.Evaluate(RequestOf(env), UnixMilli(now));
    }

    /** The rest of a call once the policy has decided. */
    method Conclude(env: Envelope, verdict: Policy.Verdict, jitterCancelled: bool, net: Forwarder.Network,
                    cancelled: nat -> bool, start: nat, at: Readings)
      returns (resp: SendResponse, path: Path, t: Forwarder.Attempt)
      requires audit.Valid()
      modifies audit, Holders()
      ensures audit.Valid()
      ensures if verdict.decision != Audit.ALLOW then path == Denied
              else if forwarder == null || jitterCancelled then path == AllowedOnly
              else path.Forwarded?
      ensures if path.Forwarded? then
                && forwarder != null
                && Forwarder.ComesTo(forwarder.cfg, forwarder.policy, env, net, cancelled, start, at.window, path.result, t)
              else t == Forwarder.NO_ATTEMPT
      ensures audit.entries == SettledLog(Wiring(), env, at.finality, path, old(audit.entries))
      ensures SetAside(Wiring(), env, at, path, t, old(KeptNow()), KeptNow())
      ensures resp == ResponseFor(cfg, path, verdict, Audit.Root(audit.entries))
    {
      path, t := Denied, Forwarder.NO_ATTEMPT;
      if verdict.decision == Audit.ALLOW {
        path, t := ForwardAllowed(env, jitterCancelled, net, cancelled, start, at);
      }
      resp := SendResponse(verdict.decision, verdict.reason, verdict.profile, cfg.node.nodeId, audit.root,
                           if path.Forwarded? && path.result.Ok? then path.result.value else "");
    }

    /**
     Which end a call meets and exactly when, what forwarding came to if it got that far,
     what the call leaves in index, log, queue and buffer, and the whole answer.
     */
    method Send(request: Envelope, jitterCancelled: bool, net: Forwarder.Network, cancelled: nat -> bool, start: nat, at: Readings)
      returns (r: Result<SendResponse, SendError>, path: Path, t: Forwarder.Attempt)
      requires Valid()
      modifies dedup.shards, audit, Holders()
      ensures Valid()
      ensures if path.Forwarded? then
                && forwarder != null
                && Forwarder.ComesTo(forwarder.cfg, forwarder.policy, Normalized(request), net, cancelled, start, at.window,
                                     path.result, t)
              else t == Forwarder.NO_ATTEMPT
      ensures var i, key := Dedup.ShardOf(dedup.hash, request.idempotencyKey), request.idempotencyKey;
        var held := key in old(dedup.shards[..])[i] && at.lookup < old(dedup.shards[..])[i][key];
        && EndsAs(request, held, old(Verdict(Normalized(request))).decision == "ALLOW", forwarder != null && !jitterCancelled, path)
        && Registers(key, if Schema.Normalize(request.schemaType) == "iso20022" then IsoTtl(cfg.iso20022.dedupTtlH) else dedup.ttl,
                     at.lookup, path, i, old(dedup.shards[..]), dedup.shards[..])
      ensures if path.Rejected? then r == Err(EmptyIdempotencyKey) else r.Ok?
      ensures audit.entries ==
                LogAfter(Wiring(), Normalized(request), old(Verdict(Normalized(request))), engine.cfg, at, path, old(audit.entries))
      ensures SetAside(Wiring(), Normalized(request), at, path, t, old(KeptNow()), KeptNow())
      ensures r.Ok? ==> Tells(Normalized(request), at, path, cfg.node.nodeId, r.value, old(audit.entries), audit.entries)
      ensures path.Denied? || path.AllowedOnly? || path.Forwarded? ==>
                && r.value.decision == old(Verdict(Normalized(request))).decision
                && r.value.reason == old(Verdict(Normalized(request))).reason
      ensures r.Ok? ==>
                TellsFinality(Normalized(request), at, path, cfg.iso20022.settlementFinality, old(audit.entries), audit.entries)
      ensures path.Forwarded? && path.result.Ok? && forwarder.policy.maxAttempts >= 1 ==>
                AnsweredBy(net, start, t, path.result.value)
    {
      ghost var verdict, shards := Verdict(Normalized(request)), dedup.shards[..];
      r, path, t := SendAnswered(request, jitterCancelled, net, cancelled, start, at);
      EndIsTold(Wiring(), request, shards, at.lookup, verdict, forwarder != null && !jitterCancelled, path);
      if path.Forwarded? && path.result.Ok? && forwarder.policy.maxAttempts >= 1 {
        PeerAnswered(forwarder.cfg, forwarder.policy, Normalized(request), net, cancelled, start, at.window, path.result.value, t);
      }
    }

    /** What the answer and the log tell, next to the end of the call by `Meets`. */
    method SendAnswered(request: Envelope, jitterCancelled: bool, net: Forwarder.Network, cancelled: nat -> bool, start: nat,
                        at: Readings)
      returns (r: Result<SendResponse, SendError>, path: Path, t: Forwarder.Attempt)
      requires Valid()
      modifies dedup.shards, audit, Holders()
      ensures Valid()
      ensures Meets(request, Seen(Wiring(), old(dedup.shards[..]), request.idempotencyKey, at.lookup),
                    old(Verdict(Normalized(request))), forwarder != null && !jitterCancelled, path)
      ensures if path.Forwarded? then
                && forwarder != null
                && Forwarder.ComesTo(forwarder.cfg, forwarder.policy, Normalized(request), net, cancelled, start, at.window,
                                     path.result, t)
              else t == Forwarder.NO_ATTEMPT
      ensures dedup.shards[..] == ShardsAfter(Wiring(), Normalized(request), at.lookup, path, old(dedup.shards[..]))
      ensures SetAside(Wiring(), Normalized(request), at, path, t, old(KeptNow()), KeptNow())
      ensures audit.entries ==
                LogAfter(Wiring(), Normalized(request), old(Verdict(Normalized(request))), engine.cfg, at, path, old(audit.entries))
      ensures if path.Rejected? then r == Err(EmptyIdempotencyKey) else r.Ok?
      ensures r.Ok? ==> Tells(Normalized(request), at, path, cfg.node.nodeId, r.value, old(audit.entries), audit.entries)
      ensures path.Denied? || path.AllowedOnly? || path.Forwarded? ==>
                && r.value.decision == old(Verdict(Normalized(request))).decision
                && r.value.reason == old(Verdict(Normalized(request))).reason
      ensures r.Ok? ==>
                TellsFinality(Normalized(request), at, path, cfg.iso20022.settlementFinality, old(audit.entries), audit.entries)
    {
      ghost var verdict, log := Verdict(Normalized(request)), audit.entries;
      VerdictNamesProfile(Normalized(request));
      r, path, t := SendBySpec(request, jitterCancelled, net, cancelled, start, at);
      if !path.Rejected? {
        AnswerTells(Wiring(), Normalized(request), verdict, engine.cfg, at, path, log);
      }
    }

    /** The same by the functions above, which say what a call does step by step. */
    method SendBySpec(request: Envelope, jitterCancelled: bool, net: Forwarder.Network, cancelled: nat -> bool, start: nat, at: Readings)
      returns (r: Result<SendResponse, SendError>, path: Path, t: Forwarder.Attempt)
      requires Valid()
      modifies dedup.shards, audit, Holders()
      ensures Valid()
      ensures Meets(request, Seen(Wiring(), old(dedup.shards[..]), request.idempotencyKey, at.lookup),
                    old(Verdict(Normalized(request))), forwarder != null && !jitterCancelled, path)
      ensures if path.Forwarded? then
                && forwarder != null
                && Forwarder.ComesTo(forwarder.cfg, forwarder.policy, Normalized(request), net, cancelled, start, at.window,
                                     path.result, t)
              else t == Forwarder.NO_ATTEMPT
      ensures dedup.shards[..] == ShardsAfter(Wiring(), Normalized(request), at.lookup, path, old(dedup.shards[..]))
      ensures audit.entries ==
                LogAfter(Wiring(), Normalized(request), old(Verdict(Normalized(request))), engine.cfg, at, path, old(audit.entries))
      ensures SetAside(Wiring(), Normalized(request), at, path, t, old(KeptNow()), KeptNow())
      ensures r == if path.Rejected? then Err(EmptyIdempotencyKey)
                   else Ok(ResponseFor(cfg, path, old(Verdict(Normalized(request))), Audit.Root(audit.entries)))
    {
      if request.idempotencyKey == "" {
        return Err(EmptyIdempotencyKey), Rejected, Forwarder.NO_ATTEMPT;
      }
      var env := Normalized(request);
      var resp;
      if env.isDummy {
        resp := Record(DummyEvent(cfg, env), Audit.ALLOW, "DUMMY_TRAFFIC", at.record);
        path, t := Dummy, Forwarder.NO_ATTEMPT;
      } else {
        resp, path, t := SendLive(env, jitterCancelled, net, cancelled, start, at);
      }
      r := Ok(resp);
    }

    /** A call that is not dummy traffic. */
    method SendLive(env: Envelope, jitterCancelled: bool, net: Forwarder.Network, cancelled: nat -> bool, start: nat, at: Readings)
      returns (resp: SendResponse, path: Path, t: Forwarder.Attempt)
      requires Valid() && env.idempotencyKey != "" && !env.isDummy
      modifies dedup.shards, audit, Holders()
      ensures Valid()
      ensures Meets(env, Seen(Wiring(), old(dedup.shards[..]), env.idempotencyKey, at.lookup), old(Verdict(env)),
                    forwarder != null && !jitterCancelled, path)
      ensures if path.Forwarded? then
                && forwarder != null
                && Forwarder.ComesTo(forwarder.cfg, forwarder.policy, env, net, cancelled, start, at.window, path.result, t)
              else t == Forwarder.NO_ATTEMPT
      ensures dedup.shards[..] == ShardsAfter(Wiring(), env, at.lookup, path, old(dedup.shards[..]))
      ensures audit.entries == LogAfter(Wiring(), env, old(Verdict(env)), engine.cfg, at, path, old(audit.entries))
      ensures SetAside(Wiring(), env, at, path, t, old(KeptNow()), KeptNow())
      ensures resp == ResponseFor(cfg, path, old(Verdict(env)), Audit.Root(audit.entries))
    {
      var seen := SeenBefore(env, at.lookup);
      ghost var shards := dedup.shards[..];
      resp, path, t := AfterLookup(env, seen, jitterCancelled, net, cancelled, start, at);
      assert dedup.shards[..] == shards;
    }

    method AfterLookup(env: Envelope, seen: bool, jitterCancelled: bool, net: Forwarder.Network, cancelled: nat -> bool,
                       start: nat, at: Readings)
      returns (resp: SendResponse, path: Path, t: Forwarder.Attempt)
      requires Valid() && env.idempotencyKey != "" && !env.isDummy
      modifies audit, Holders()
      ensures Valid()
      ensures Meets(env, seen, old(Verdict(env)), forwarder != null && !jitterCancelled, path)
      ensures if path.Forwarded? then
                && forwarder != null
                && Forwarder.ComesTo(forwarder.cfg, forwarder.policy, env, net, cancelled, start, at.window, path.result, t)
              else t == Forwarder.NO_ATTEMPT
      ensures audit.entries == LogAfter(Wiring(), env, old(Verdict(env)), engine.cfg, at, path, old(audit.entries))
      ensures SetAside(Wiring(), env, at, path, t, old(KeptNow()), KeptNow())
      ensures resp == ResponseFor(cfg, path, old(Verdict(env)), Audit.Root(audit.entries))
    {
      if seen {
        resp := Record(DuplicateEvent(cfg, env), Audit.DUPLICATE, "idempotency_key already processed", at.record);
        path, t := Duplicate, Forwarder.NO_ATTEMPT;
      } else {
        resp, path, t := SendAdmitted(env, jitterCancelled, net, cancelled, start, at);
      }
    }
  }
}

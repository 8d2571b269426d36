/**
 The envelope pipeline of internal/core/gateway.go as a step machine. `SendEnvelope` takes
 the locks of the dedup index, the audit log, the transit buffer and the dead-letter queue
 one after the other, so concurrent calls interleave between any two of these steps; the
 purge of the index, the drain of the buffer (internal/app/app.go) and the operator's queue
 actions (internal/server/http.go) run alongside.

 Each step is what one lock protects. Inside a step the model uses the functions that
 specify the code of the component: `Dedup.Apply`, `Audit.Extend`, `Policy.Decide`,
 `Transit.MakeRoom`.
 */
module Gateway {
  import opened Clock
  import opened Collections
  import opened Config
  import opened Envelopes
  import opened Wrappers
  import Audit
  import Dedup
  import Dlq
  import Forwarder
  import Policy
  import Schema
  import Transit

  /** How a gateway is wired: which optional parts it has, and what stays fixed while it runs. */
  datatype Setup = Setup(
    cfg: Config,
    indexTtl: Duration,
    hash: string -> nat,
    digest: Audit.Digest,
    forwarderCfg: Config,
    hasForwarder: bool,
    hasTransit: bool,
    transitTtl: Duration,
    hasDlq: bool)

  // ---------------------------------------------------------------------------
  // Dedup TTL
  // ---------------------------------------------------------------------------

  const ISO20022_FLOOR_HOURS := 72

  /** Two's-complement wrap-around of 64-bit durations. */
  function ToInt64(x: int): int {
    var m := x % 0x1_0000_0000_0000_0000;
    if m >= 0x8000_0000_0000_0000 then m - 0x1_0000_0000_0000_0000 else m
  }

  function IsoTtl(hours: int): Duration {
    ToInt64((if hours < ISO20022_FLOOR_HOURS then ISO20022_FLOOR_HOURS else hours) * HOUR)
  }

  function DedupTtl(setup: Setup, env: Envelope): Duration {
    if env.schemaType == Schema.ISO20022 then IsoTtl(setup.cfg.iso20022.dedupTtlH) else setup.indexTtl
  }

  // ---------------------------------------------------------------------------
  // States
  // ---------------------------------------------------------------------------

  datatype Phase =
    | Started                     // nothing shared touched yet
    | FoundDuplicate              // seen by the index; the DUPLICATE entry is still to be appended
    | Admitted                    // registered by the index; policy not consulted yet
    | Forwarding                  // allowed and recorded; the outcome of forwarding is open
    | Settling                    // delivered; the SETTLEMENT/FINAL entry is still to be appended
    | Answered(decision: string)

  /** A call of `SendEnvelope`; `admission` is its place in the order in which the index let calls through. */
  datatype Call = Call(env: Envelope, phase: Phase, admission: Option<nat>)

  /** The index let a call through at `at` and registered its key for `ttl`. */
  datatype Admission = Admission(call: nat, key: string, at: Time, ttl: Duration)

  datatype Loss =
    | NoForwarder
    | JitterCancelled
    | NoPeer
    | NoQueue
    | TransitEvicted
    | TransitOverwritten
    | DeadLetterRemoved

  /**
   A replay of a dead letter from the operator's interface: it read dead letter `letter` at
   `index`, sends its envelope again as call `call`, and then removes whatever is at `index`.
   */
  datatype Replay = Replay(index: int, letter: nat, call: nat, waiting: bool)

  /** Calls are known by their number. Buffer, drain and queue hold the calls whose envelopes they hold. */
  datatype State = State(
    clock: Time,
    shards: seq<Dedup.Shard>,
    log: seq<Audit.Entry>,
    calls: seq<Call>,
    admissions: seq<Admission>,
    allowed: set<nat>,
    delivered: set<nat>,
    transit: Transit.Buffer<nat>,
    draining: seq<nat>,
    dlq: seq<nat>,
    lost: map<nat, Loss>,
    replays: seq<Replay>)

  ghost predicate Init(s: State) {
    && s.shards == Dedup.Empty() && s.log == [] && s.calls == [] && s.admissions == []
    && s.allowed == {} && s.delivered == {} && s.transit == map[] && s.draining == [] && s.dlq == []
    && s.lost == map[] && s.replays == []
  }

  // ---------------------------------------------------------------------------
  // Steps
  // ---------------------------------------------------------------------------

  datatype Outcome = Delivered | WindowClosed | NoPeerFound | PeersExhausted

  datatype Step =
    | Tick(now: Time)
    | Arrive(env: Envelope)
    | AppendDummy(c: nat)
    | CheckDuplicate(c: nat)
    | AppendDuplicate(c: nat)
    | Evaluate(c: nat, engineCfg: Config, revoked: bool)
    | CancelJitter(c: nat)
    | Forward(c: nat, outcome: Outcome, order: seq<string>, checkedAt: Time)
    | AppendFinality(c: nat)
    | PurgeShard(shard: nat, at: Time)
    | Drain(keys: seq<string>)
    | Promote
    | RemoveDeadLetter(index: int)
    | StartReplay(index: int)
    | FinishReplay(r: nat)

  predicate InPhase(s: State, c: nat, phase: Phase) {
    c < |s.calls| && s.calls[c].phase == phase
  }

  /** The index still holds the key. */
  predicate Seen(setup: Setup, shards: seq<Dedup.Shard>, key: string, now: Time)
    requires |shards| == Dedup.NUM_SHARDS
  {
    Dedup.Live(shards[Dedup.ShardOf(setup.hash, key)], key, now)
  }

  function Moved(s: State, c: nat, phase: Phase): seq<Call>
    requires c < |s.calls|
  {
    s.calls[c := s.calls[c].(phase := phase)]
  }

  function Logged(setup: Setup, s: State, cfg: Config, ev: Audit.Event): seq<Audit.Entry> {
    Audit.Extend(setup.digest, s.log, cfg, ev, UnixMilli(s.clock))
  }

  function Normalized(env: Envelope): Envelope {
    env.(schemaType := Schema.Normalize(env.schemaType))
  }

  function DummyEvent(cfg: Config, env: Envelope): Audit.Event {
    Audit.DecisionEvent(cfg, Audit.DUMMY, "DUMMY_TRAFFIC", 0, env.senderRegion, env.recipientRegion, "", "")
  }

  function DuplicateEvent(cfg: Config, env: Envelope): Audit.Event {
    Audit.DecisionEvent(cfg, Audit.DUPLICATE, "DUPLICATE_IDEMPOTENCY_KEY", env.trustTier, env.senderRegion,
                        env.recipientRegion, env.schemaType, env.schemaVersion)
  }

  /** `DLQ.Remove`: out of range it changes nothing. */
  function Discarded(s: State, index: int): State {
    if 0 <= index < |s.dlq| then
      s.(dlq := Dlq.Without(s.dlq, index), lost := s.lost[s.dlq[index] := DeadLetterRemoved])
    else s
  }

  function RequestOf(env: Envelope): Policy.Request {
    Policy.Request(env.senderNodeId, env.senderRegion, env.recipientRegion, env.trustTier, env.schemaType,
                   env.schemaVersion)
  }

  predicate Settles(setup: Setup, env: Envelope) {
    env.schemaType == Schema.ISO20022 && setup.cfg.iso20022.settlementFinality
  }

  /** The buffer makes room, which can lose one entry, and replaces an entry under the same key, which can lose another. */
  function PutLosses(transit: Transit.Buffer<nat>, lost: map<nat, Loss>, key: string, order: seq<string>): map<nat, Loss>
    requires forall i :: 0 <= i < |order| ==> order[i] in transit
  {
    var room := Transit.MakeRoom(transit, order);
    var victim := Transit.Evicted(transit, order);
    lost
      + (if |transit| >= Transit.MAX_ENTRIES && victim in transit then map[transit[victim].item := TransitEvicted] else map[])
      + (if key in room then map[room[key].item := TransitOverwritten] else map[])
  }

  /**
   What forwarding can come to under the forwarder's configuration, which never changes. The
   window is checked first, at `checkedAt`, and the peers are looked up right after it.
   */
  ghost predicate CanEnd(setup: Setup, env: Envelope, checkedAt: Time, outcome: Outcome) {
    var closed := Forwarder.WindowFor(setup.forwarderCfg, env, checkedAt).Closed?;
    && (outcome.WindowClosed? <==> closed)
    && (outcome.NoPeerFound? <==> !closed && !HasPeer(setup, env))
  }

  ghost predicate HasPeer(setup: Setup, env: Envelope) {
    exists key :: Forwarder.Eligible(setup.forwarderCfg, env.recipientRegion, key)
  }

  /** The check came after the index let the call through, and not later than now. */
  ghost predicate CheckedInTime(s: State, c: nat, checkedAt: Time)
    requires c < |s.calls|
  {
    var i := s.calls[c].admission;
    checkedAt <= s.clock && (i.Some? && i.value < |s.admissions| ==> s.admissions[i.value].at <= checkedAt)
  }

  ghost predicate NextForward(setup: Setup, s: State, s': State, c: nat, outcome: Outcome, order: seq<string>)
    requires c < |s.calls|
  {
    var env := s.calls[c].env;
    var answered := Moved(s, c, Answered(Audit.ALLOW));
    match outcome
    case Delivered =>
      s' == s.(delivered := s.delivered + {c},
               calls := if Settles(setup, env) then Moved(s, c, Settling) else answered)
    case WindowClosed =>
      s' == if setup.hasDlq then s.(calls := answered, dlq := s.dlq + [c])
            else s.(calls := answered, lost := s.lost[c := NoQueue])
    case NoPeerFound =>
      s' == s.(calls := answered, lost := s.lost[c := NoPeer])
    case PeersExhausted =>
      if setup.hasTransit then
        && Transit.Ordered(s.transit, order)
        && s' == s.(calls := answered,
                    transit := Transit.MakeRoom(s.transit, order)
                                 [env.idempotencyKey := Transit.Entry(c, s.clock + setup.transitTtl)],
                    lost := PutLosses(s.transit, s.lost, env.idempotencyKey, order))
      else if setup.hasDlq then
        s' == s.(calls := answered, dlq := s.dlq + [c])
      else
        s' == s.(calls := answered, lost := s.lost[c := NoQueue])
  }

  ghost predicate Next(setup: Setup, s: State, s': State, step: Step) {
    match step
    case Tick(now) =>
      s.clock <= now && s' == s.(clock := now)

    case Arrive(env) =>
      && env.idempotencyKey != ""
      && s' == s.(calls := s.calls + [Call(Normalized(env), Started, None)])

    case AppendDummy(c) =>
      && InPhase(s, c, Started) && s.calls[c].env.isDummy
      && s' == s.(calls := Moved(s, c, Answered(Audit.DUMMY)),
                  log := Logged(setup, s, setup.cfg, DummyEvent(setup.cfg, s.calls[c].env)))

    case CheckDuplicate(c) =>
      && InPhase(s, c, Started) && !s.calls[c].env.isDummy && |s.shards| == Dedup.NUM_SHARDS
      && (var env := s.calls[c].env;
          var ttl := DedupTtl(setup, env);
          var shards := Dedup.Apply(setup.hash, s.shards, Dedup.Touch(env.idempotencyKey, ttl, s.clock));
          if Seen(setup, s.shards, env.idempotencyKey, s.clock) then
            s' == s.(shards := shards, calls := Moved(s, c, FoundDuplicate))
          else
            s' == s.(shards := shards,
                     calls := s.calls[c := Call(env, Admitted, Some(|s.admissions|))],
                     admissions := s.admissions + [Admission(c, env.idempotencyKey, s.clock, ttl)]))

    case AppendDuplicate(c) =>
      && InPhase(s, c, FoundDuplicate)
      && s' == s.(calls := Moved(s, c, Answered(Audit.DUPLICATE)),
                  log := Logged(setup, s, setup.cfg, DuplicateEvent(setup.cfg, s.calls[c].env)))

    // The engine's configuration may have been reloaded, and the revocation store consulted, at any earlier time.
    case Evaluate(c, engineCfg, revoked) =>
      && InPhase(s, c, Admitted)
      && (var env := s.calls[c].env;
          var verdict := Policy.Decide(engineCfg, revoked, RequestOf(env));
          var log := Logged(setup, s, engineCfg, Policy.VerdictEvent(engineCfg, verdict, RequestOf(env)));
          if verdict.decision != Audit.ALLOW then
            s' == s.(log := log, calls := Moved(s, c, Answered(verdict.decision)))
          else if !setup.hasForwarder then
            s' == s.(log := log, calls := Moved(s, c, Answered(Audit.ALLOW)), allowed := s.allowed + {c},
                     lost := s.lost[c := NoForwarder])
          else
            s' == s.(log := log, calls := Moved(s, c, Forwarding), allowed := s.allowed + {c}))

    case CancelJitter(c) =>
      && InPhase(s, c, Forwarding)
      && s' == s.(calls := Moved(s, c, Answered(Audit.ALLOW)), lost := s.lost[c := JitterCancelled])

    case Forward(c, outcome, order, checkedAt) =>
      && InPhase(s, c, Forwarding) && CheckedInTime(s, c, checkedAt)
      && CanEnd(setup, s.calls[c].env, checkedAt, outcome)
      && NextForward(setup, s, s', c, outcome, order)

    case AppendFinality(c) =>
      && InPhase(s, c, Settling)
      && (var env := s.calls[c].env;
          s' == s.(calls := Moved(s, c, Answered(Audit.ALLOW)),
                   log := Logged(setup, s, setup.cfg,
                                 Audit.FinalityEvent(env.senderRegion, env.recipientRegion, env.schemaVersion))))

    case PurgeShard(shard, at) =>
      && at <= s.clock && |s.shards| == Dedup.NUM_SHARDS
      && s' == s.(shards := Dedup.Apply(setup.hash, s.shards, Dedup.Sweep(shard, at, s.clock)))

    // One goroutine drains: it takes what has expired out of the buffer, then queues it entry by entry.
    case Drain(keys) =>
      && s.draining == []
      && Enumerates(keys, s.transit.Keys - Transit.Unexpired(s.transit, s.clock).Keys)
      && s' == s.(transit := Transit.Unexpired(s.transit, s.clock),
                  draining := seq(|keys|, i requires 0 <= i < |keys| => s.transit[keys[i]].item))

    case Promote =>
      s.draining != [] && s' == s.(draining := s.draining[1..], dlq := s.dlq + [s.draining[0]])

    case RemoveDeadLetter(index) =>
      s' == Discarded(s, index)

    case StartReplay(index) =>
      && 0 <= index < |s.dlq| && s.dlq[index] < |s.calls|
      && s' == s.(calls := s.calls + [Call(Normalized(s.calls[s.dlq[index]].env), Started, None)],
                  replays := s.replays + [Replay(index, s.dlq[index], |s.calls|, true)])

    case FinishReplay(r) =>
      && r < |s.replays| && s.replays[r].waiting
      && s.replays[r].call < |s.calls| && s.calls[s.replays[r].call].phase.Answered?
      && s' == Discarded(s, s.replays[r].index).(replays := s.replays[r := s.replays[r].(waiting := false)])
  }

  ghost predicate Run(setup: Setup, states: seq<State>, steps: seq<Step>) {
    && |states| == |steps| + 1 && Init(states[0])
    && forall i :: 0 <= i < |steps| ==> Next(setup, states[i], states[i + 1], steps[i])
  }

  lemma RunSnoc(setup: Setup, states: seq<State>, steps: seq<Step>, step: Step, s': State)
    requires Run(setup, states, steps) && Next(setup, states[|steps|], s', step)
    ensures Run(setup, states + [s'], steps + [step])
  {
  }

  lemma RunPrefix(setup: Setup, states: seq<State>, steps: seq<Step>, n: nat)
    requires Run(setup, states, steps) && n <= |steps|
    ensures Run(setup, states[..n + 1], steps[..n])
  {
  }

  // ---------------------------------------------------------------------------
  // How calls progress
  // ---------------------------------------------------------------------------

  /** The phases a call goes through after the index has been asked. */
  predicate Progress(call: Call, phase: Phase) {
    match call.phase
    case Started => call.env.isDummy && phase == Answered(Audit.DUMMY)
    case FoundDuplicate => phase == Answered(Audit.DUPLICATE)
    case Admitted => phase == Forwarding || phase == Answered(Audit.ALLOW) || phase == Answered(Audit.DENY)
    case Forwarding => phase == Settling || phase == Answered(Audit.ALLOW)
    case Settling => phase == Answered(Audit.ALLOW)
    case Answered(_) => false
  }

  /** A step other than a question to the index adds a call, moves one on, or leaves them all alone. */
  ghost predicate CallsProgress(cs: seq<Call>, cs': seq<Call>) {
    || cs' == cs
    || (|cs'| == |cs| + 1 && cs' == cs + [cs'[|cs|]] && cs'[|cs|].phase == Started && cs'[|cs|].admission == None)
    || (exists c: nat, phase :: c < |cs| && Progress(cs[c], phase) && cs' == cs[c := cs[c].(phase := phase)])
  }

  lemma Moves(s: State, s': State, c: nat, phase: Phase)
    requires c < |s.calls| && Progress(s.calls[c], phase) && s'.calls == Moved(s, c, phase)
    ensures CallsProgress(s.calls, s'.calls)
  {
  }

  lemma EvaluateMakesProgress(setup: Setup, s: State, s': State, c: nat, engineCfg: Config, revoked: bool)
    requires Next(setup, s, s', Evaluate(c, engineCfg, revoked))
    ensures CallsProgress(s.calls, s'.calls) && s'.admissions == s.admissions
  {
    Moves(s, s', c, s'.calls[c].phase);
  }

  lemma ForwardMakesProgress(setup: Setup, s: State, s': State, step: Step)
    requires step.Forward? && Next(setup, s, s', step)
    ensures CallsProgress(s.calls, s'.calls) && s'.admissions == s.admissions
  {
    Moves(s, s', step.c, s'.calls[step.c].phase);
  }

  predicate IsArrival(step: Step) {
    step.Arrive? || step.StartReplay?
  }

  predicate IsDiscard(step: Step) {
    step.RemoveDeadLetter? || step.FinishReplay?
  }

  /** The position a discarding step removes from. */
  function DiscardIndex(s: State, step: Step): int
    requires IsDiscard(step)
  {
    match step
    case RemoveDeadLetter(index) => index
    case FinishReplay(r) => if r < |s.replays| then s.replays[r].index else -1
    case _ => -1
  }

  predicate IsAppend(step: Step) {
    step.AppendDummy? || step.AppendDuplicate? || step.AppendFinality?
  }

  lemma AppendMakesProgress(setup: Setup, s: State, s': State, step: Step)
    requires IsAppend(step) && Next(setup, s, s', step)
    ensures CallsProgress(s.calls, s'.calls) && s'.admissions == s.admissions
  {
    Moves(s, s', step.c, s'.calls[step.c].phase);
  }

  /** A new call, and nothing else that other calls see. */
  lemma ArrivalAdds(setup: Setup, s: State, s': State, step: Step)
    requires IsArrival(step) && Next(setup, s, s', step)
    ensures |s'.calls| == |s.calls| + 1 && s'.calls == s.calls + [s'.calls[|s.calls|]]
    ensures s'.calls[|s.calls|].phase == Started && s'.calls[|s.calls|].admission == None
    ensures s' == s.(calls := s'.calls, replays := s'.replays)
  {
  }

  /** Forwarding ends for one call: it is answered, or delivered and about to be settled. */
  lemma ForwardMoves(setup: Setup, s: State, s': State, step: Step)
    requires step.Forward? && Next(setup, s, s', step)
    ensures InPhase(s, step.c, Forwarding) && s'.log == s.log && |s'.calls| == |s.calls|
    ensures s'.calls == s.calls[step.c := s.calls[step.c].(phase := s'.calls[step.c].phase)]
    ensures s'.delivered == if step.outcome.Delivered? then s.delivered + {step.c} else s.delivered
    ensures s'.calls[step.c].phase ==
              if step.outcome.Delivered? && Settles(setup, s.calls[step.c].env) then Settling else Answered(Audit.ALLOW)
  {
  }

  /** Time, the purge, the drain and the queue leave calls and log alone. */
  lemma QuietStep(setup: Setup, s: State, s': State, step: Step)
    requires Next(setup, s, s', step)
    requires step.Tick? || step.PurgeShard? || step.Drain? || step.Promote? || IsDiscard(step)
    ensures s'.calls == s.calls && s'.log == s.log && s'.admissions == s.admissions
    ensures s'.allowed == s.allowed && s'.delivered == s.delivered
  {
  }

  lemma StepsMakeProgress(setup: Setup, s: State, s': State, step: Step)
    requires Next(setup, s, s', step) && !step.CheckDuplicate?
    ensures CallsProgress(s.calls, s'.calls) && s'.admissions == s.admissions
  {
    if step.Evaluate? {
      EvaluateMakesProgress(setup, s, s', step.c, step.engineCfg, step.revoked);
    } else if step.Forward? {
      ForwardMakesProgress(setup, s, s', step);
    } else if IsAppend(step) {
      AppendMakesProgress(setup, s, s', step);
    } else if step.CancelJitter? {
      Moves(s, s', step.c, Answered(Audit.ALLOW));
    }
  }
}

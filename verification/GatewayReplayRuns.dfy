/** Runs in which a replay goes wrong, whatever the engine's configuration. */
module GatewayReplayRuns {
  import opened Clock
  import opened Config
  import opened Envelopes
  import opened Gateway
  import opened GatewayReplay
  import opened GatewayRuns
  import opened Wrappers
  import Audit
  import Dedup
  import Forwarder
  import Policy
  import Schema

  /** A gateway with a forwarder and a dead-letter queue, but no transit buffer. */
  predicate QueuesDirectly(setup: Setup) {
    setup.hasForwarder && setup.hasDlq && !setup.hasTransit
  }

  // ---------------------------------------------------------------------------
  // The steps of a replay
  // ---------------------------------------------------------------------------

  lemma Restart(setup: Setup, states: seq<State>, steps: seq<Step>, index: int, env: Envelope)
      returns (states': seq<State>, steps': seq<Step>)
    requires Run(setup, states, steps) && Normalized(env) == env
    requires var s := Last(states); 0 <= index < |s.dlq| && s.dlq[index] < |s.calls| && s.calls[s.dlq[index]].env == env
    ensures Run(setup, states', steps') && Continues(states, steps, states', steps')
    ensures |steps'| == |steps| + 1 && steps'[|steps|] == StartReplay(index)
    ensures var s := Last(states);
      Last(states') == s.(calls := s.calls + [Call(env, Started, None)],
                          replays := s.replays + [Replay(index, s.dlq[index], |s.calls|, true)])
  {
    var s := Last(states);
    states', steps' := Take(setup, states, steps, StartReplay(index),
                            s.(calls := s.calls + [Call(env, Started, None)],
                               replays := s.replays + [Replay(index, s.dlq[index], |s.calls|, true)]));
  }

  lemma Remove(setup: Setup, states: seq<State>, steps: seq<Step>, index: int)
      returns (states': seq<State>, steps': seq<Step>)
    requires Run(setup, states, steps)
    ensures Run(setup, states', steps') && Continues(states, steps, states', steps')
    ensures Last(states') == Discarded(Last(states), index)
  {
    states', steps' := Take(setup, states, steps, RemoveDeadLetter(index), Discarded(Last(states), index));
  }

  lemma Finish(setup: Setup, states: seq<State>, steps: seq<Step>, r: nat)
      returns (states': seq<State>, steps': seq<Step>)
    requires Run(setup, states, steps)
    requires var s := Last(states);
      r < |s.replays| && s.replays[r].waiting && s.replays[r].call < |s.calls| && s.calls[s.replays[r].call].phase.Answered?
    ensures Run(setup, states', steps') && Continues(states, steps, states', steps')
    ensures |steps'| == |steps| + 1 && steps'[|steps|] == FinishReplay(r)
    ensures var s := Last(states);
      Last(states') == Discarded(s, s.replays[r].index).(replays := s.replays[r := s.replays[r].(waiting := false)])
  {
    var s := Last(states);
    states', steps' := Take(setup, states, steps, FinishReplay(r),
                            Discarded(s, s.replays[r].index).(replays := s.replays[r := s.replays[r].(waiting := false)]));
  }

  /** The key of call d is held: it is answered DUPLICATE. */
  lemma AnswerDuplicate(setup: Setup, states: seq<State>, steps: seq<Step>, d: nat)
      returns (states': seq<State>, steps': seq<Step>)
    requires Run(setup, states, steps) && InPhase(Last(states), d, Started)
    requires var s := Last(states);
      !s.calls[d].env.isDummy && |s.shards| == Dedup.NUM_SHARDS && Seen(setup, s.shards, s.calls[d].env.idempotencyKey, s.clock)
    ensures Run(setup, states', steps') && Continues(states, steps, states', steps')
    ensures var s := Last(states); SameButLog(s.(calls := Moved(s, d, Answered(Audit.DUPLICATE))), Last(states'))
  {
    var s := Last(states);
    var found := s.(calls := Moved(s, d, FoundDuplicate));
    states', steps' := Take(setup, states, steps, CheckDuplicate(d), found);
    var answered := found.(calls := Moved(found, d, Answered(Audit.DUPLICATE)),
                           log := Logged(setup, found, setup.cfg, DuplicateEvent(setup.cfg, s.calls[d].env)));
    states', steps' := Take(setup, states', steps', AppendDuplicate(d), answered);
    assert answered.calls == Moved(s, d, Answered(Audit.DUPLICATE));
  }

  /** Call d is let through. */
  lemma Readmit(setup: Setup, states: seq<State>, steps: seq<Step>, d: nat, env: Envelope)
      returns (states': seq<State>, steps': seq<Step>)
    requires Run(setup, states, steps) && InPhase(Last(states), d, Started) && Last(states).calls[d].env == env
    requires Free(setup, Last(states), env.idempotencyKey) && !env.isDummy
    ensures Run(setup, states', steps') && Continues(states, steps, states', steps')
    ensures var s := Last(states); var s' := Last(states');
      && |s'.calls| == |s.calls| && JustAdmitted(s', d, env)
      && s' == s.(calls := s'.calls, admissions := s'.admissions, shards := s'.shards)
  {
    var s := Last(states);
    var ttl := DedupTtl(setup, env);
    states', steps' := Take(setup, states, steps, CheckDuplicate(d),
                            s.(shards := Dedup.Apply(setup.hash, s.shards, Dedup.Touch(env.idempotencyKey, ttl, s.clock)),
                               calls := s.calls[d := Call(env, Admitted, Some(|s.admissions|))],
                               admissions := s.admissions + [Admission(d, env.idempotencyKey, s.clock, ttl)]));
  }

  /** Call d, let through, is denied because its sender was revoked meanwhile. */
  lemma AnswerDenied(setup: Setup, states: seq<State>, steps: seq<Step>, d: nat, cfg: Config, env: Envelope)
      returns (states': seq<State>, steps': seq<Step>)
    requires Run(setup, states, steps) && JustAdmitted(Last(states), d, env)
    ensures Run(setup, states', steps') && Continues(states, steps, states', steps')
    ensures var s := Last(states); SameButLog(s.(calls := Moved(s, d, Answered(Audit.DENY))), Last(states'))
  {
    var s := Last(states);
    var verdict := Policy.Decide(cfg, true, RequestOf(env));
    states', steps' := Take(setup, states, steps, Evaluate(d, cfg, true),
                            s.(calls := Moved(s, d, Answered(verdict.decision)),
                               log := Logged(setup, s, cfg, Policy.VerdictEvent(cfg, verdict, RequestOf(env)))));
  }

  /** Call d is allowed, and its client goes away during the jitter wait. */
  lemma AnswerCancelled(setup: Setup, states: seq<State>, steps: seq<Step>, d: nat, cfg: Config, env: Envelope)
      returns (states': seq<State>, steps': seq<Step>)
    requires Run(setup, states, steps) && JustAdmitted(Last(states), d, env) && Sendable(cfg, env) && setup.hasForwarder
    ensures Run(setup, states', steps') && Continues(states, steps, states', steps')
    ensures var s := Last(states);
      SameButLog(s.(calls := Moved(s, d, Answered(Audit.ALLOW)), allowed := s.allowed + {d},
                    lost := s.lost[d := JitterCancelled]),
                 Last(states'))
  {
    states', steps' := Allow(setup, states, steps, d, cfg, env);
    var s := Last(states');
    var cancelled := s.(calls := Moved(s, d, Answered(Audit.ALLOW)), lost := s.lost[d := JitterCancelled]);
    states', steps' := Take(setup, states', steps', CancelJitter(d), cancelled);
    assert cancelled.calls == Moved(Last(states), d, Answered(Audit.ALLOW));
  }

  // ---------------------------------------------------------------------------
  // One letter, sent again
  // ---------------------------------------------------------------------------

  /** Letter 0, the only one, is being sent again as call 1 since step a. */
  ghost predicate Resending(setup: Setup, states: seq<State>, steps: seq<Step>, a: nat) {
    && Run(setup, states, steps) && a < |steps| && steps[a] == StartReplay(0)
    && QueuedAt(states[a], 0, 0) && |states[a].calls| == 1 && |states[a].replays| == 0
    && (var s := Last(states);
        && |s.calls| == 2 && s.dlq == [0] && s.replays == [Replay(0, 0, 1, true)]
        && s.delivered == {} && s.transit == map[] && s.draining == [])
  }

  /** A letter queued at t, because no peer took it or its window was closed. */
  lemma OneLetter(setup: Setup, cfg: Config, env: Envelope, outcome: Outcome, t: Time)
      returns (states: seq<State>, steps: seq<Step>)
    requires QueuesDirectly(setup) && Sendable(cfg, env) && CanEnd(setup, env, t, outcome)
    requires outcome.PeersExhausted? || outcome.WindowClosed?
    ensures Run(setup, states, steps)
    ensures var s := Last(states);
      && s.clock == t && s.calls == [Call(env, Answered(Audit.ALLOW), Some(0))] && s.dlq == [0] && s.replays == []
      && s.delivered == {} && s.transit == map[] && s.draining == []
      && |s.shards| == Dedup.NUM_SHARDS
      && forall u :: Seen(setup, s.shards, env.idempotencyKey, u) <==> u < t + DedupTtl(setup, env)
  {
    states, steps := Begin(setup, t);
    HeldFor(setup, Last(states), env);
    states, steps := SendInVain(setup, states, steps, cfg, env, outcome);
  }

  /** A key let in is held for its TTL. */
  lemma HeldFor(setup: Setup, s: State, env: Envelope)
    requires Free(setup, s, env.idempotencyKey)
    ensures forall u :: Seen(setup, LetIn(setup, s, env).shards, env.idempotencyKey, u) <==> u < s.clock + DedupTtl(setup, env)
  {
  }

  /** It was queued at t, and its replay starts at u. */
  lemma Resend(setup: Setup, cfg: Config, env: Envelope, outcome: Outcome, t: Time, u: Time)
      returns (states: seq<State>, steps: seq<Step>, a: nat)
    requires QueuesDirectly(setup) && Sendable(cfg, env) && CanEnd(setup, env, t, outcome) && t <= u
    requires outcome.PeersExhausted? || outcome.WindowClosed?
    ensures Resending(setup, states, steps, a) && InPhase(Last(states), 1, Started)
    ensures Last(states).calls[1].env == env && Last(states).clock == u && |Last(states).shards| == Dedup.NUM_SHARDS
    ensures Seen(setup, Last(states).shards, env.idempotencyKey, u) <==> u < t + DedupTtl(setup, env)
  {
    states, steps := OneLetter(setup, cfg, env, outcome, t);
    states, steps := Wait(setup, states, steps, u);
    a := |steps|;
    states, steps := Restart(setup, states, steps, 0, env);
  }

  /** Once the new call is answered without a trace, its removal of the letter loses the envelope. */
  lemma FinishInVain(setup: Setup, states: seq<State>, steps: seq<Step>, a: nat)
      returns (states': seq<State>, steps': seq<Step>, m: nat)
    requires Resending(setup, states, steps, a) && Last(states).calls[1].phase.Answered?
    ensures Lost(setup, states', steps', a, m)
  {
    m := |steps|;
    states', steps' := Finish(setup, states, steps, 0);
    assert Last(states').dlq == [];
  }

  /** A replay from step a to step m of letter 0 as call 1, after which neither is safe. */
  ghost predicate Lost(setup: Setup, states: seq<State>, steps: seq<Step>, a: nat, m: nat) {
    Replays(setup, states, steps, a, m, 0, 0, 1) && !Safe(states[m + 1], 0) && !Safe(states[m + 1], 1)
  }

  /** A letter no peer took, replayed while its key is held: answered DUPLICATE, and the envelope is gone. */
  lemma HeldReplayLoses(setup: Setup, cfg: Config, env: Envelope) returns (states: seq<State>, steps: seq<Step>, a: nat, m: nat)
    requires QueuesDirectly(setup) && Sendable(cfg, env) && CanEnd(setup, env, 0, PeersExhausted) && DedupTtl(setup, env) > 0
    ensures Lost(setup, states, steps, a, m)
  {
    states, steps, a := Resend(setup, cfg, env, PeersExhausted, 0, 0);
    states, steps := AnswerDuplicate(setup, states, steps, 1);
    states, steps, m := FinishInVain(setup, states, steps, a);
  }

  /** A replay after the key expired, whose sender was revoked meanwhile: let through, denied, and gone as well. */
  lemma DeniedReplayLoses(setup: Setup, cfg: Config, env: Envelope) returns (states: seq<State>, steps: seq<Step>, a: nat, m: nat)
    requires QueuesDirectly(setup) && Sendable(cfg, env) && CanEnd(setup, env, 0, PeersExhausted)
    ensures Lost(setup, states, steps, a, m)
  {
    states, steps, a := ResendExpired(setup, cfg, env);
    states, steps := AnswerDenied(setup, states, steps, 1, cfg, env);
    states, steps, m := FinishInVain(setup, states, steps, a);
  }

  /** A replay that is let through and allowed, and whose jitter wait is cancelled. */
  lemma CancelledReplayLoses(setup: Setup, cfg: Config, env: Envelope) returns (states: seq<State>, steps: seq<Step>, a: nat, m: nat)
    requires QueuesDirectly(setup) && Sendable(cfg, env) && CanEnd(setup, env, 0, PeersExhausted)
    ensures Lost(setup, states, steps, a, m)
  {
    states, steps, a := ResendExpired(setup, cfg, env);
    states, steps := AnswerCancelled(setup, states, steps, 1, cfg, env);
    states, steps, m := FinishInVain(setup, states, steps, a);
  }

  /** A letter no peer took at 0, whose replay is let through once its key has expired. */
  lemma ResendExpired(setup: Setup, cfg: Config, env: Envelope) returns (states: seq<State>, steps: seq<Step>, a: nat)
    requires QueuesDirectly(setup) && Sendable(cfg, env) && CanEnd(setup, env, 0, PeersExhausted)
    ensures Resending(setup, states, steps, a) && JustAdmitted(Last(states), 1, env)
  {
    var ttl := DedupTtl(setup, env);
    states, steps, a := Resend(setup, cfg, env, PeersExhausted, 0, if ttl < 0 then 0 else ttl);
    states, steps := Readmit(setup, states, steps, 1, env);
  }

  /**
   A financial message for a region no peer serves. It is queued at t, outside its window, and
   replayed at u, when its key has expired and the window is open: allowed, without a peer, and
   gone.
   */
  lemma UnroutedReplayLoses(setup: Setup, cfg: Config, env: Envelope, t: Time, u: Time)
      returns (states: seq<State>, steps: seq<Step>, a: nat, m: nat)
    requires QueuesDirectly(setup) && Sendable(cfg, env) && t <= u && t + DedupTtl(setup, env) <= u
    requires CanEnd(setup, env, t, WindowClosed) && CanEnd(setup, env, u, NoPeerFound)
    ensures Lost(setup, states, steps, a, m)
  {
    states, steps, a := Resend(setup, cfg, env, WindowClosed, t, u);
    states, steps := Readmit(setup, states, steps, 1, env);
    states, steps := ForwardInVain(setup, states, steps, 1, cfg, env, NoPeerFound);
    states, steps, m := FinishInVain(setup, states, steps, a);
  }

  /**
   The replay is queued again behind its letter, the operator discards the letter meanwhile,
   and the replay removes its own new entry.
   */
  lemma ReplayRemovesItself(setup: Setup, cfg: Config, env: Envelope) returns (states: seq<State>, steps: seq<Step>, a: nat, m: nat)
    requires QueuesDirectly(setup) && Sendable(cfg, env) && forall u :: CanEnd(setup, env, u, PeersExhausted)
    ensures Lost(setup, states, steps, a, m)
  {
    states, steps, a := ResendExpired(setup, cfg, env);
    states, steps := QueuedAgain(setup, states, steps, a, cfg, env);
    m := |steps|;
    states, steps := Finish(setup, states, steps, 0);
    assert Last(states).dlq == [];
  }

  lemma QueuedAgain(setup: Setup, states: seq<State>, steps: seq<Step>, a: nat, cfg: Config, env: Envelope)
      returns (states': seq<State>, steps': seq<Step>)
    requires Resending(setup, states, steps, a) && JustAdmitted(Last(states), 1, env)
    requires QueuesDirectly(setup) && Sendable(cfg, env) && CanEnd(setup, env, Last(states).clock, PeersExhausted)
    ensures Run(setup, states', steps') && Continues(states, steps, states', steps')
    ensures var s := Last(states'); var was := Last(states);
      && |s.calls| == 2 && s.calls[1].phase.Answered? && s.dlq == [1] && s.replays == was.replays
      && s.delivered == was.delivered && s.transit == was.transit && s.draining == was.draining
  {
    states', steps' := ForwardInVain(setup, states, steps, 1, cfg, env, PeersExhausted);
    assert Last(states').dlq == [0, 1];
    states', steps' := Remove(setup, states', steps', 0);
  }

  // ---------------------------------------------------------------------------
  // Three letters
  // ---------------------------------------------------------------------------

  /** Registering one key leaves another as it is. */
  lemma OthersUnchanged(setup: Setup, s: State, env: Envelope, key: string, u: Time)
    requires |s.shards| == Dedup.NUM_SHARDS && key != env.idempotencyKey
    ensures Seen(setup, LetIn(setup, s, env).shards, key, u) <==> Seen(setup, s.shards, key, u)
  {
  }

  /** These envelopes were queued at 0, in this order, and nothing else happened. */
  ghost predicate Letters(s: State, envs: seq<Envelope>) {
    && s.clock == 0 && |s.calls| == |envs| && (forall i :: 0 <= i < |envs| ==> s.calls[i].env == envs[i])
    && |s.dlq| == |envs| && (forall i :: 0 <= i < |envs| ==> s.dlq[i] == i)
    && s.replays == [] && s.delivered == {} && s.transit == map[] && s.draining == [] && |s.shards| == Dedup.NUM_SHARDS
  }

  lemma QueueAnother(setup: Setup, states: seq<State>, steps: seq<Step>, cfg: Config, envs: seq<Envelope>, env: Envelope)
      returns (states': seq<State>, steps': seq<Step>)
    requires Run(setup, states, steps) && Letters(Last(states), envs) && !Seen(setup, Last(states).shards, env.idempotencyKey, 0)
    requires QueuesDirectly(setup) && Sendable(cfg, env) && CanEnd(setup, env, 0, PeersExhausted)
    ensures Run(setup, states', steps') && Letters(Last(states'), envs + [env])
    ensures forall key :: key != env.idempotencyKey ==>
              (Seen(setup, Last(states').shards, key, 0) <==> Seen(setup, Last(states).shards, key, 0))
    ensures DedupTtl(setup, env) > 0 ==> Seen(setup, Last(states').shards, env.idempotencyKey, 0)
  {
    var s := Last(states);
    forall key | key != env.idempotencyKey
      ensures Seen(setup, LetIn(setup, s, env).shards, key, 0) <==> Seen(setup, s.shards, key, 0)
    {
      OthersUnchanged(setup, s, env, key, 0);
    }
    HeldFor(setup, s, env);
    states', steps' := SendInVain(setup, states, steps, cfg, env, PeersExhausted);
  }

  lemma ThreeLetters(setup: Setup, cfg: Config, x: Envelope, y: Envelope, z: Envelope)
      returns (states: seq<State>, steps: seq<Step>)
    requires QueuesDirectly(setup) && Sendable(cfg, x) && Sendable(cfg, y) && Sendable(cfg, z) && DedupTtl(setup, y) > 0
    requires x.idempotencyKey != y.idempotencyKey && x.idempotencyKey != z.idempotencyKey && y.idempotencyKey != z.idempotencyKey
    requires CanEnd(setup, x, 0, PeersExhausted) && CanEnd(setup, y, 0, PeersExhausted) && CanEnd(setup, z, 0, PeersExhausted)
    ensures Run(setup, states, steps) && Letters(Last(states), [x, y, z])
    ensures Seen(setup, Last(states).shards, y.idempotencyKey, 0)
  {
    states, steps := Begin(setup, 0);
    states, steps := QueueAnother(setup, states, steps, cfg, [], x);
    states, steps := QueueAnother(setup, states, steps, cfg, [x], y);
    assert [x] + [y] == [x, y];
    states, steps := QueueAnother(setup, states, steps, cfg, [x, y], z);
    assert [x, y] + [z] == [x, y, z];
  }

  /** Letter 1 of three is being sent again as call 3 since step a, and letter 0 has been discarded. */
  ghost predicate Overtaken(setup: Setup, states: seq<State>, steps: seq<Step>, a: nat) {
    && Run(setup, states, steps) && a < |steps| && steps[a] == StartReplay(1)
    && QueuedAt(states[a], 1, 1) && |states[a].calls| == 3 && |states[a].replays| == 0
    && (var s := Last(states);
        && |s.calls| == 4 && s.dlq == [1, 2] && s.replays == [Replay(1, 1, 3, true)]
        && s.delivered == {} && s.transit == map[] && s.draining == [])
  }

  lemma Overtake(setup: Setup, states: seq<State>, steps: seq<Step>, x: Envelope, y: Envelope, z: Envelope)
      returns (states': seq<State>, steps': seq<Step>)
    requires Run(setup, states, steps) && Letters(Last(states), [x, y, z]) && Normalized(y) == y
    ensures Overtaken(setup, states', steps', |steps|) && InPhase(Last(states'), 3, Started)
    ensures Last(states').calls[3].env == y && Last(states').shards == Last(states).shards && Last(states').clock == 0
  {
    states', steps' := Restart(setup, states, steps, 1, y);
    states', steps' := Remove(setup, states', steps', 0);
    assert Last(states').dlq == [1, 2];
  }

  lemma FinishOvertaken(setup: Setup, states: seq<State>, steps: seq<Step>, a: nat)
      returns (states': seq<State>, steps': seq<Step>, m: nat)
    requires Overtaken(setup, states, steps, a) && Last(states).calls[3].phase.Answered?
    ensures Replays(setup, states', steps', a, m, 1, 1, 3) && states'[m + 1].replays == [Replay(1, 1, 3, false)]
    ensures Safe(states'[m + 1], 1) && !Safe(states'[m + 1], 2) && 2 in states'[m + 1].lost
  {
    m := |steps|;
    states', steps' := Finish(setup, states, steps, 0);
    assert Last(states').dlq == [1];
  }

  /**
   A discard of a lower letter while a replay is under way: the replay of letter 1 removes
   letter 2, which nobody sent again, and letter 1 stays in the queue.
   */
  lemma ReplayRemovesAnother(setup: Setup, cfg: Config, x: Envelope, y: Envelope, z: Envelope)
      returns (states: seq<State>, steps: seq<Step>, a: nat, m: nat)
    requires QueuesDirectly(setup) && Sendable(cfg, x) && Sendable(cfg, y) && Sendable(cfg, z) && DedupTtl(setup, y) > 0
    requires x.idempotencyKey != y.idempotencyKey && x.idempotencyKey != z.idempotencyKey && y.idempotencyKey != z.idempotencyKey
    requires CanEnd(setup, x, 0, PeersExhausted) && CanEnd(setup, y, 0, PeersExhausted) && CanEnd(setup, z, 0, PeersExhausted)
    ensures Replays(setup, states, steps, a, m, 1, 1, 3) && states[m + 1].replays == [Replay(1, 1, 3, false)]
    ensures Safe(states[m + 1], 1) && !Safe(states[m + 1], 2) && 2 in states[m + 1].lost
  {
    states, steps := ThreeLetters(setup, cfg, x, y, z);
    a := |steps|;
    states, steps := Overtake(setup, states, steps, x, y, z);
    states, steps := AnswerDuplicate(setup, states, steps, 3);
    states, steps, m := FinishOvertaken(setup, states, steps, a);
  }

  // ---------------------------------------------------------------------------
  // A configuration in which all of this happens
  // ---------------------------------------------------------------------------

  /** A regional node with one peer and a processing window from 8:00 to 17:00 UTC towards Brazil, which the peer does not serve. */
  function SampleConfig(): Config {
    Config(NodeConfig("node-eu", "regional", "EU", "", "v1", "GDPR"), ProfileConfig("balanced", 24 * HOUR),
           PolicyConfig(0, [], [], [], []), map["US" := PeerConfig("US", "us:9443", "regional", [])],
           Iso20022Config(72, true, true, map["EU-BR" := Some(CutoffWindow(8 * 60, 17 * 60, 0))]))
  }

  function SampleSetup(hash: string -> nat, digest: Audit.Digest): Setup {
    Setup(SampleConfig(), 24 * HOUR, hash, digest, SampleConfig(), true, false, 0, true)
  }

  function SampleEnvelope(key: string, schemaType: string, recipient: string): Envelope {
    Envelope(key, "node-fr", "EU", recipient, 1, false, schemaType, "1", "")
  }

  /** Letters to the United States find their peer, and no one else does. */
  lemma SampleRoutes(hash: string -> nat, digest: Audit.Digest, key: string, u: Time)
    requires key != ""
    ensures var setup := SampleSetup(hash, digest); var env := SampleEnvelope(key, Schema.MESSAGING, "US");
      && QueuesDirectly(setup) && Sendable(SampleConfig(), env) && CanEnd(setup, env, u, PeersExhausted)
      && DedupTtl(setup, env) == 24 * HOUR
  {
    NamedSchemaIsNormal(Schema.MESSAGING);
    assert Schema.MESSAGING[0] != Schema.ISO20022[0] && Schema.MESSAGING[0] != Schema.HL7FHIR[0]
        && Schema.MESSAGING[0] != Schema.EDIFACT[0];
    assert Forwarder.Eligible(SampleConfig(), "US", "US");
  }

  /** A financial message to Brazil: outside the window at midnight, inside it at 8:00 three days later, and never with a peer. */
  lemma SampleUnrouted(hash: string -> nat, digest: Audit.Digest, key: string)
    requires key != ""
    ensures var setup := SampleSetup(hash, digest); var env := SampleEnvelope(key, Schema.ISO20022, "BR");
      && Sendable(SampleConfig(), env) && DedupTtl(setup, env) == 72 * HOUR
      && CanEnd(setup, env, 0, WindowClosed) && CanEnd(setup, env, 80 * HOUR, NoPeerFound)
  {
    NamedSchemaIsNormal(Schema.ISO20022);
    assert Schema.ISO20022[0] != Schema.HL7FHIR[0] && Schema.ISO20022[0] != Schema.EDIFACT[0];
    assert "EU" + "-" + "BR" == "EU-BR";
    assert "US"[0] != "BR"[0];
  }
}

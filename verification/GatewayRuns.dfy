/** Runs of the gateway put together step by step, for the results that say what some run does. */
module GatewayRuns {
  import opened Clock
  import opened Config
  import opened Envelopes
  import opened Gateway
  import opened Wrappers
  import Audit
  import Dedup
  import Policy
  import Schema

  ghost function Last(states: seq<State>): State
    requires states != []
  {
    states[|states| - 1]
  }

  /** The second run goes on where the first one stops. */
  ghost predicate Continues(states: seq<State>, steps: seq<Step>, states': seq<State>, steps': seq<Step>) {
    && |steps| <= |steps'| && |states| <= |states'|
    && (forall i :: 0 <= i < |steps| ==> steps'[i] == steps[i])
    && (forall i :: 0 <= i < |states| ==> states'[i] == states[i])
  }

  function Letter(key: string, schemaType: string): Envelope {
    Envelope(key, "", "", "", 0, false, schemaType, "", "")
  }

  /** An envelope that an engine with this configuration allows, unless its sender is revoked. */
  predicate Sendable(cfg: Config, env: Envelope) {
    && env.idempotencyKey != "" && !env.isDummy && Normalized(env) == env
    && Policy.Decide(cfg, false, RequestOf(env)).decision == Audit.ALLOW
  }

  lemma NamedSchemaIsNormal(t: string)
    requires t == Schema.MESSAGING || t == Schema.ISO20022
    ensures Schema.Normalize(t) == t
  {
    assert !Schema.IsSpace(t[0]);
  }

  /** The index has no live entry for the key. */
  ghost predicate Free(setup: Setup, s: State, key: string) {
    && |s.shards| == Dedup.NUM_SHARDS
    && !Seen(setup, s.shards, key, s.clock)
  }

  /** The state after a call with a fresh key arrived and was let through. */
  ghost function LetIn(setup: Setup, s: State, env: Envelope): State
    requires |s.shards| == Dedup.NUM_SHARDS
  {
    var ttl := DedupTtl(setup, env);
    s.(shards := Dedup.Apply(setup.hash, s.shards, Dedup.Touch(env.idempotencyKey, ttl, s.clock)),
       calls := s.calls + [Call(env, Admitted, Some(|s.admissions|))],
       admissions := s.admissions + [Admission(|s.calls|, env.idempotencyKey, s.clock, ttl)])
  }

  /** A key is free again once its TTL is over. */
  lemma FreeAgain(setup: Setup, s: State, env: Envelope, later: Time)
    requires Free(setup, s, env.idempotencyKey) && s.clock + DedupTtl(setup, env) <= later
    ensures Free(setup, LetIn(setup, s, env).(clock := later), env.idempotencyKey)
  {
  }

  lemma Admit(setup: Setup, states: seq<State>, steps: seq<Step>, env: Envelope)
      returns (states': seq<State>, steps': seq<Step>)
    requires Run(setup, states, steps) && Free(setup, Last(states), env.idempotencyKey)
    requires env.idempotencyKey != "" && !env.isDummy && Normalized(env) == env
    ensures Run(setup, states', steps') && Last(states') == LetIn(setup, Last(states), env)
    ensures Continues(states, steps, states', steps')
  {
    var s := Last(states);
    var arrived := s.(calls := s.calls + [Call(env, Started, None)]);
    var step := CheckDuplicate(|s.calls|);
    RunSnoc(setup, states, steps, Arrive(env), arrived);
    states', steps' := states + [arrived], steps + [Arrive(env)];
    assert arrived.calls[|s.calls|] == Call(env, Started, None);
    var admitted := LetIn(setup, s, env);
    assert admitted.calls == arrived.calls[|s.calls| := Call(env, Admitted, Some(|s.admissions|))];
    RunSnoc(setup, states', steps', step, admitted);
    states', steps' := states' + [admitted], steps' + [step];
  }

  /** Let time pass. */
  lemma Wait(setup: Setup, states: seq<State>, steps: seq<Step>, now: Time)
      returns (states': seq<State>, steps': seq<Step>)
    requires Run(setup, states, steps) && Last(states).clock <= now
    ensures Run(setup, states', steps') && Last(states') == Last(states).(clock := now)
    ensures Continues(states, steps, states', steps')
  {
    var s' := Last(states).(clock := now);
    RunSnoc(setup, states, steps, Tick(now), s');
    states', steps' := states + [s'], steps + [Tick(now)];
  }

  lemma Begin(setup: Setup, clock: Time) returns (states: seq<State>, steps: seq<Step>)
    ensures Run(setup, states, steps) && Init(Last(states)) && Last(states).clock == clock
  {
    states, steps := [State(clock, Dedup.Empty(), [], [], [], {}, {}, map[], [], [], map[], [])], [];
  }

  /** One more step. */
  lemma Take(setup: Setup, states: seq<State>, steps: seq<Step>, step: Step, s': State)
      returns (states': seq<State>, steps': seq<Step>)
    requires Run(setup, states, steps) && Next(setup, Last(states), s', step)
    ensures Run(setup, states', steps') && Continues(states, steps, states', steps')
    ensures |steps'| == |steps| + 1 && steps'[|steps|] == step && Last(states') == s'
  {
    RunSnoc(setup, states, steps, step, s');
    states', steps' := states + [s'], steps + [step];
  }

  /** What matters of a state for the runs below: all but the log. */
  ghost predicate SameButLog(s: State, s': State) {
    s' == s.(log := s'.log)
  }

  /** Call c has been let through, and not in the future. */
  ghost predicate JustAdmitted(s: State, c: nat, env: Envelope) {
    InPhase(s, c, Admitted) && s.calls[c].env == env && CheckedInTime(s, c, s.clock)
  }

  /** Call c is evaluated and allowed. */
  lemma Allow(setup: Setup, states: seq<State>, steps: seq<Step>, c: nat, cfg: Config, env: Envelope)
      returns (states': seq<State>, steps': seq<Step>)
    requires Run(setup, states, steps) && JustAdmitted(Last(states), c, env) && Sendable(cfg, env) && setup.hasForwarder
    ensures Run(setup, states', steps') && Continues(states, steps, states', steps')
    ensures var s := Last(states);
      SameButLog(s.(calls := Moved(s, c, Forwarding), allowed := s.allowed + {c}), Last(states'))
  {
    var s := Last(states);
    var verdict := Policy.Decide(cfg, false, RequestOf(env));
    var allowed := s.(log := Logged(setup, s, cfg, Policy.VerdictEvent(cfg, verdict, RequestOf(env))),
                      calls := Moved(s, c, Forwarding), allowed := s.allowed + {c});
    states', steps' := Take(setup, states, steps, Evaluate(c, cfg, false), allowed);
  }

  /** The state after call c was forwarded in vain: it is queued, or lost if it has no peer. */
  ghost function Unsent(s: State, c: nat, outcome: Outcome): State
    requires c < |s.calls|
  {
    var answered := s.(calls := Moved(s, c, Answered(Audit.ALLOW)), allowed := s.allowed + {c});
    if outcome.NoPeerFound? then answered.(lost := s.lost[c := NoPeer]) else answered.(dlq := s.dlq + [c])
  }

  /** Call c is allowed, and forwarding fails. */
  lemma ForwardInVain(setup: Setup, states: seq<State>, steps: seq<Step>, c: nat, cfg: Config, env: Envelope, outcome: Outcome)
      returns (states': seq<State>, steps': seq<Step>)
    requires Run(setup, states, steps) && JustAdmitted(Last(states), c, env) && Sendable(cfg, env)
    requires setup.hasForwarder && setup.hasDlq && !setup.hasTransit && !outcome.Delivered?
    requires CanEnd(setup, env, Last(states).clock, outcome)
    ensures Run(setup, states', steps') && Continues(states, steps, states', steps')
    ensures SameButLog(Unsent(Last(states), c, outcome), Last(states'))
  {
    states', steps' := Allow(setup, states, steps, c, cfg, env);
    var allowed := Last(states');
    var s' := Unsent(allowed, c, outcome);
    states', steps' := Take(setup, states', steps', Forward(c, outcome, [], allowed.clock), s');
    assert s'.calls == Moved(Last(states), c, Answered(Audit.ALLOW));
  }

  /** An envelope whose key is free arrives and is forwarded in vain. */
  lemma SendInVain(setup: Setup, states: seq<State>, steps: seq<Step>, cfg: Config, env: Envelope, outcome: Outcome)
      returns (states': seq<State>, steps': seq<Step>)
    requires Run(setup, states, steps) && Free(setup, Last(states), env.idempotencyKey) && Sendable(cfg, env)
    requires setup.hasForwarder && setup.hasDlq && !setup.hasTransit && !outcome.Delivered?
    requires CanEnd(setup, env, Last(states).clock, outcome)
    ensures Run(setup, states', steps') && Continues(states, steps, states', steps')
    ensures SameButLog(Unsent(LetIn(setup, Last(states), env), |Last(states).calls|, outcome), Last(states'))
  {
    states', steps' := Admit(setup, states, steps, env);
    states', steps' := ForwardInVain(setup, states', steps', |Last(states).calls|, cfg, env, outcome);
  }
}

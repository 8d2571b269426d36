/** At-most-once: how far apart the gateway lets through calls with one idempotency key. */
module GatewayDedup {
  import opened Clock
  import opened Envelopes
  import opened Wrappers
  import opened Gateway
  import Audit
  import Dedup
  import GatewayRuns
  import Schema

  /** The largest number of hours a 64-bit duration can hold. */
  const MAX_TTL_HOURS := 2_562_047

  /** The configured number of hours, raised to the floor, is what calls get if and only if it can be represented. */
  lemma IsoTtlExactIff(hours: int)
    requires hours < 0x8000_0000_0000_0000
    ensures IsoTtl(hours) == (if hours < 72 then 72 else hours) * 3_600_000_000_000 <==> hours <= 2_562_047
    ensures hours <= 2_562_047 ==> IsoTtl(hours) >= 72 * 3_600_000_000_000
  {
    var x := (if hours < 72 then 72 else hours) * HOUR;
    if hours <= MAX_TTL_HOURS {
      assert 0 <= x < 0x8000_0000_0000_0000;
    } else {
      assert x >= 0x8000_0000_0000_0000;
    }
  }

  /** One hour more, and the TTL wraps around to a time in the past: the key is not held at all. */
  lemma IsoFloorOverflows()
    ensures IsoTtl(MAX_TTL_HOURS + 1) < 0
  {
  }

  /** The configured hours, raised to 72 and taken as a 64-bit duration, still come to 72 hours or more. */
  predicate FloorFits(hours: int) {
    72 * HOUR <= (if hours < 72 then 72 else hours) * HOUR % 0x1_0000_0000_0000_0000 < 0x8000_0000_0000_0000
  }

  lemma IsoFloorIff(hours: int)
    ensures IsoTtl(hours) >= 72 * HOUR <==> FloorFits(hours)
  {
  }

  /** Wrapping around is neither necessary nor sufficient for a short TTL: these hours come to less than one, those to 72. */
  lemma WrappedHours()
    ensures !FloorFits(5_124_096) && 0 < IsoTtl(5_124_096) < HOUR
    ensures 5_124_168 > MAX_TTL_HOURS && FloorFits(5_124_168)
  {
  }

  ghost predicate Expires(a: Admission, shards: seq<Dedup.Shard>, hash: string -> nat, clock: Time)
    requires |shards| == Dedup.NUM_SHARDS
  {
    var m := shards[Dedup.ShardOf(hash, a.key)];
    a.at + a.ttl <= clock || (a.key in m && m[a.key] == a.at + a.ttl)
  }

  ghost predicate Spaced(admissions: seq<Admission>) {
    forall i, j :: 0 <= i < j < |admissions| && admissions[i].key == admissions[j].key ==>
      admissions[i].at + admissions[i].ttl <= admissions[j].at
  }

  ghost predicate CallOk(setup: Setup, s: State, c: nat)
    requires c < |s.calls|
  {
    var call := s.calls[c];
    && (call.admission.Some? ==>
          && call.admission.value < |s.admissions|
          && (var a := s.admissions[call.admission.value];
              a.call == c && a.key == call.env.idempotencyKey && a.ttl == DedupTtl(setup, call.env)))
    && (call.admission.None? ==>
          call.phase in {Started, FoundDuplicate, Answered(Audit.DUPLICATE), Answered(Audit.DUMMY)})
    && (call.phase == Answered(Audit.DUMMY) ==> call.env.isDummy || call.admission.Some?)
    && (call.phase == Started ==> call.admission.None?)
  }

  ghost predicate Inv(setup: Setup, s: State) {
    && |s.shards| == Dedup.NUM_SHARDS
    && (forall i :: 0 <= i < |s.admissions| ==> Expires(s.admissions[i], s.shards, setup.hash, s.clock))
    && Spaced(s.admissions)
    && (forall c :: 0 <= c < |s.calls| ==> CallOk(setup, s, c))
  }

  lemma CheckKeepsInv(setup: Setup, s: State, s': State, step: Step)
    requires Inv(setup, s) && step.CheckDuplicate? && Next(setup, s, s', step)
    ensures Inv(setup, s')
  {
    assert CallOk(setup, s, step.c);
    forall i | 0 <= i < |s.admissions|
      ensures Expires(s.admissions[i], s'.shards, setup.hash, s.clock)
    {
      assert Expires(s.admissions[i], s.shards, setup.hash, s.clock);
    }
    forall d | 0 <= d < |s'.calls|
      ensures CallOk(setup, s', d)
    {
      assert CallOk(setup, s, d);
    }
  }

  lemma OtherKeepsExpiry(setup: Setup, s: State, s': State, step: Step)
    requires Inv(setup, s) && Next(setup, s, s', step) && !step.CheckDuplicate?
    ensures |s'.shards| == Dedup.NUM_SHARDS && s'.admissions == s.admissions
    ensures forall i :: 0 <= i < |s.admissions| ==> Expires(s.admissions[i], s'.shards, setup.hash, s'.clock)
  {
    if step.Tick? || step.PurgeShard? {
      forall i | 0 <= i < |s.admissions|
        ensures Expires(s.admissions[i], s'.shards, setup.hash, s'.clock)
      {
        assert Expires(s.admissions[i], s.shards, setup.hash, s.clock);
      }
    } else {
      assert s'.shards == s.shards && s'.clock == s.clock;
    }
  }

  lemma ProgressKeepsCall(setup: Setup, s: State, s': State, c: nat)
    requires CallsProgress(s.calls, s'.calls) && s'.admissions == s.admissions && c < |s'.calls|
    requires c < |s.calls| ==> CallOk(setup, s, c)
    ensures CallOk(setup, s', c)
  {
  }

  lemma OtherKeepsInv(setup: Setup, s: State, s': State, step: Step)
    requires Inv(setup, s) && Next(setup, s, s', step) && !step.CheckDuplicate?
    ensures Inv(setup, s')
  {
    OtherKeepsExpiry(setup, s, s', step);
    StepsMakeProgress(setup, s, s', step);
    forall c | 0 <= c < |s'.calls|
      ensures CallOk(setup, s', c)
    {
      ProgressKeepsCall(setup, s, s', c);
    }
  }

  lemma {:induction false} RunKeepsInv(setup: Setup, states: seq<State>, steps: seq<Step>, n: nat)
    requires Run(setup, states, steps) && n <= |steps|
    ensures Inv(setup, states[n])
  {
    if n > 0 {
      RunKeepsInv(setup, states, steps, n - 1);
      if steps[n - 1].CheckDuplicate? {
        CheckKeepsInv(setup, states[n - 1], states[n], steps[n - 1]);
      } else {
        OtherKeepsInv(setup, states[n - 1], states[n], steps[n - 1]);
      }
    }
  }

  /** A call that was answered, other than as a duplicate or as dummy traffic, was let through by the index. */
  lemma AnsweredWasAdmitted(setup: Setup, states: seq<State>, steps: seq<Step>, c: nat)
    requires Run(setup, states, steps) && c < |states[|steps|].calls|
    requires var call := states[|steps|].calls[c];
      call.phase.Answered? && call.phase.decision != Audit.DUPLICATE && !call.env.isDummy
    ensures states[|steps|].calls[c].admission.Some?
  {
    RunKeepsInv(setup, states, steps, |steps|);
    assert CallOk(setup, states[|steps|], c);
  }

  /**
   In every interleaving of calls, purges and everything else: two calls with one key that
   are both let through are at least the first one's TTL apart, which is at least 72 hours
   when the first is a financial message and the configured TTL fits, whatever the profile.
   */
  lemma LetThroughOncePerTtl(setup: Setup, states: seq<State>, steps: seq<Step>, c: nat, d: nat, i: nat, j: nat)
    requires Run(setup, states, steps) && c < |states[|steps|].calls| && d < |states[|steps|].calls|
    requires states[|steps|].calls[c].admission == Some(i) && states[|steps|].calls[d].admission == Some(j) && i < j
    requires states[|steps|].calls[c].env.idempotencyKey == states[|steps|].calls[d].env.idempotencyKey
    ensures var s := states[|steps|];
      && j < |s.admissions| && s.admissions[i].call == c && s.admissions[j].call == d
      && s.admissions[j].at - s.admissions[i].at >= DedupTtl(setup, s.calls[c].env)
      && (s.calls[c].env.schemaType == Schema.ISO20022 && FloorFits(setup.cfg.iso20022.dedupTtlH) ==>
            s.admissions[j].at - s.admissions[i].at >= 72 * HOUR)
  {
    var s := states[|steps|];
    RunKeepsInv(setup, states, steps, |steps|);
    assert CallOk(setup, s, c) && CallOk(setup, s, d);
    IsoFloorIff(setup.cfg.iso20022.dedupTtlH);
  }

  /** While a key is held, another call with it can only be found a duplicate: a replay from the queue, for one. */
  lemma HeldKeyIsDuplicate(setup: Setup, states: seq<State>, steps: seq<Step>, i: nat, c: nat, s': State)
    requires Run(setup, states, steps) && i < |states[|steps|].admissions|
    requires Next(setup, states[|steps|], s', CheckDuplicate(c))
    requires var s := states[|steps|];
      s.calls[c].env.idempotencyKey == s.admissions[i].key && s.clock < s.admissions[i].at + s.admissions[i].ttl
    ensures s'.calls[c].phase == FoundDuplicate && s'.admissions == states[|steps|].admissions
  {
    RunKeepsInv(setup, states, steps, |steps|);
    assert Expires(states[|steps|].admissions[i], states[|steps|].shards, setup.hash, states[|steps|].clock);
  }

  // ---------------------------------------------------------------------------
  // Nothing else is a duplicate
  // ---------------------------------------------------------------------------

  ghost predicate FromAdmission(admissions: seq<Admission>, key: string, expires: Time) {
    exists i :: 0 <= i < |admissions| && admissions[i].key == key && admissions[i].at + admissions[i].ttl == expires
  }

  /** Whatever the index holds, some call registered. */
  ghost predicate Sourced(s: State) {
    forall j, key :: 0 <= j < |s.shards| && key in s.shards[j] ==> FromAdmission(s.admissions, key, s.shards[j][key])
  }

  lemma CheckKeepsSourced(setup: Setup, s: State, s': State, step: Step)
    requires Sourced(s) && step.CheckDuplicate? && Next(setup, s, s', step)
    ensures Sourced(s')
  {
    forall j, key | 0 <= j < |s'.shards| && key in s'.shards[j]
      ensures FromAdmission(s'.admissions, key, s'.shards[j][key])
    {
      if key in s.shards[j] && s.shards[j][key] == s'.shards[j][key] {
        var i :| 0 <= i < |s.admissions| && s.admissions[i].key == key
          && s.admissions[i].at + s.admissions[i].ttl == s.shards[j][key];
        assert s'.admissions[i] == s.admissions[i];
      } else {
        assert s'.admissions[|s.admissions|].key == key;
      }
    }
  }

  lemma PurgeKeepsSourced(setup: Setup, s: State, s': State, step: Step)
    requires Sourced(s) && step.PurgeShard? && Next(setup, s, s', step)
    ensures Sourced(s')
  {
  }

  lemma OtherKeepsShards(setup: Setup, s: State, s': State, step: Step)
    requires !step.CheckDuplicate? && !step.PurgeShard? && Next(setup, s, s', step)
    ensures s'.shards == s.shards && s'.admissions == s.admissions
  {
  }

  lemma {:induction false} RunKeepsSourced(setup: Setup, states: seq<State>, steps: seq<Step>, n: nat)
    requires Run(setup, states, steps) && n <= |steps|
    ensures Sourced(states[n])
  {
    if n > 0 {
      RunKeepsSourced(setup, states, steps, n - 1);
      if steps[n - 1].CheckDuplicate? {
        CheckKeepsSourced(setup, states[n - 1], states[n], steps[n - 1]);
      } else if steps[n - 1].PurgeShard? {
        PurgeKeepsSourced(setup, states[n - 1], states[n], steps[n - 1]);
      } else {
        OtherKeepsShards(setup, states[n - 1], states[n], steps[n - 1]);
      }
    }
  }

  /** Some admission under this key is still within its TTL. */
  ghost predicate Held(s: State, key: string) {
    exists i :: 0 <= i < |s.admissions| && s.admissions[i].key == key && s.clock < s.admissions[i].at + s.admissions[i].ttl
  }

  /** A call is let through exactly when no earlier admission still holds its key; else it is a duplicate. */
  lemma LetThroughIffNotHeld(setup: Setup, states: seq<State>, steps: seq<Step>, c: nat, s': State)
    requires Run(setup, states, steps) && Next(setup, states[|steps|], s', CheckDuplicate(c))
    ensures var held := Held(states[|steps|], states[|steps|].calls[c].env.idempotencyKey);
      (InPhase(s', c, Admitted) <==> !held) && (InPhase(s', c, FoundDuplicate) <==> held)
  {
    var s := states[|steps|];
    var key := s.calls[c].env.idempotencyKey;
    if i :| 0 <= i < |s.admissions| && s.admissions[i].key == key && s.clock < s.admissions[i].at + s.admissions[i].ttl {
      HeldKeyIsDuplicate(setup, states, steps, i, c, s');
    } else {
      RunKeepsSourced(setup, states, steps, |steps|);
    }
  }

  // ---------------------------------------------------------------------------
  // Exactly when the 72 hours hold
  // ---------------------------------------------------------------------------

  /** Two calls with one key, let through as admissions i and j, the first a financial message. */
  ghost predicate Repeated(s: State, c: nat, d: nat, i: nat, j: nat) {
    && c < |s.calls| && d < |s.calls| && i < j < |s.admissions|
    && s.calls[c].admission == Some(i) && s.calls[d].admission == Some(j)
    && s.calls[c].env.idempotencyKey == s.calls[d].env.idempotencyKey
    && s.calls[c].env.schemaType == Schema.ISO20022
  }

  ghost predicate FloorKept(s: State) {
    forall c: nat, d: nat, i: nat, j: nat :: Repeated(s, c, d, i, j) ==>
      s.admissions[j].at - s.admissions[i].at >= 72 * HOUR
  }

  /** In every run financial messages with one key are let through 72 hours apart, if and only if the configured TTL fits. */
  lemma FloorHoldsIff(setup: Setup)
    ensures (forall states, steps :: Run(setup, states, steps) ==> FloorKept(states[|steps|])) <==>
            FloorFits(setup.cfg.iso20022.dedupTtlH)
  {
    if FloorFits(setup.cfg.iso20022.dedupTtlH) {
      forall states: seq<State>, steps: seq<Step> | Run(setup, states, steps)
        ensures FloorKept(states[|steps|])
      {
        forall c: nat, d: nat, i: nat, j: nat | Repeated(states[|steps|], c, d, i, j)
          ensures states[|steps|].admissions[j].at - states[|steps|].admissions[i].at >= 72 * HOUR
        {
          LetThroughOncePerTtl(setup, states, steps, c, d, i, j);
        }
      }
    } else {
      var states, steps := FloorBroken(setup);
    }
  }

  /** Otherwise this run lets a message through a second time as soon as its short TTL is over. */
  lemma FloorBroken(setup: Setup) returns (states: seq<State>, steps: seq<Step>)
    requires !FloorFits(setup.cfg.iso20022.dedupTtlH)
    ensures Run(setup, states, steps) && !FloorKept(states[|steps|])
  {
    var env := GatewayRuns.Letter("k", Schema.ISO20022);
    var ttl := IsoTtl(setup.cfg.iso20022.dedupTtlH);
    var later := if ttl < 0 then 0 else ttl;
    IsoFloorIff(setup.cfg.iso20022.dedupTtlH);
    GatewayRuns.NamedSchemaIsNormal(Schema.ISO20022);
    states, steps := TwoAdmissions(setup, env, later);
    assert Repeated(states[|steps|], 0, 1, 0, 1);
  }

  /** A key let through at 0 and, its TTL over, again. */
  lemma TwoAdmissions(setup: Setup, env: Envelope, later: Time) returns (states: seq<State>, steps: seq<Step>)
    requires env.idempotencyKey != "" && !env.isDummy && Normalized(env) == env && 0 <= later && DedupTtl(setup, env) <= later
    ensures Run(setup, states, steps)
    ensures states[|steps|].calls == [Call(env, Admitted, Some(0)), Call(env, Admitted, Some(1))]
    ensures var ttl := DedupTtl(setup, env);
      states[|steps|].admissions == [Admission(0, env.idempotencyKey, 0, ttl), Admission(1, env.idempotencyKey, later, ttl)]
  {
    states, steps := GatewayRuns.Begin(setup, 0);
    GatewayRuns.FreeAgain(setup, GatewayRuns.Last(states), env, later);
    states, steps := GatewayRuns.Admit(setup, states, steps, env);
    states, steps := GatewayRuns.Wait(setup, states, steps, later);
    states, steps := GatewayRuns.Admit(setup, states, steps, env);
  }
}

/**
 An undisturbed call of `SendEnvelope.SendingGateway.Send` extends any run of the step machine
 `Gateway` by the steps of one call.
 */
module SendIsARun {
  import opened Clock
  import opened Config
  import opened Envelopes
  import opened Gateway
  import opened GatewayRegions
  import opened GatewayRuns
  import opened SendEnvelope
  import opened Wrappers
  import Audit
  import Dedup
  import Forwarder
  import Policy
  import Retry
  import Transit

  /** Readings come one after the other. */
  predicate InOrder(clock: Time, at: Readings) {
    clock <= at.lookup <= at.record <= at.window <= at.setAside <= at.finality
  }

  // ---------------------------------------------------------------------------
  // What a call comes to in the machine
  // ---------------------------------------------------------------------------

  /** The decision the machine files an ended call under. */
  function Filed(path: Path, verdict: Policy.Verdict): string {
    match path
    case Dummy => Audit.DUMMY
    case Duplicate => Audit.DUPLICATE
    case _ => verdict.decision
  }

  predicate Allowed(path: Path) {
    path.AllowedOnly? || path.Forwarded?
  }

  predicate Accepted(path: Path) {
    path.Forwarded? && path.result.Ok?
  }

  /** What ending call c on this path adds to the losses; `order` matters only if the buffer takes the call. */
  ghost function LostAfter(setup: Setup, transit: Transit.Buffer<nat>, lost: map<nat, Loss>, c: nat, key: string, path: Path,
                           order: seq<string>): map<nat, Loss>
    requires Transit.Ordered(transit, order)
  {
    match path
    case AllowedOnly => lost[c := if setup.hasForwarder then JitterCancelled else NoForwarder]
    case Forwarded(Err(NoPeer)) => lost[c := NoPeer]
    case Forwarded(Err(OutsideWindow)) => if setup.hasDlq then lost else lost[c := NoQueue]
    case Forwarded(Err(Exhausted)) =>
      if setup.hasTransit then PutLosses(transit, lost, key, order)
      else if setup.hasDlq then lost else lost[c := NoQueue]
    case _ => lost
  }

  /** Call c of s' has ended on this path; the other calls are as in s. */
  ghost predicate EndsOn(setup: Setup, s: State, s': State, c: nat, env: Envelope, verdict: Policy.Verdict, path: Path,
                         order: seq<string>)
  {
    && c < |s'.calls| && s'.calls[c].env == env && InPhase(s', c, Answered(Filed(path, verdict)))
    && (forall d :: 0 <= d < |s.calls| && d != c ==> d < |s'.calls| && s'.calls[d] == s.calls[d])
    && s'.allowed == (if Allowed(path) then s.allowed + {c} else s.allowed)
    && s'.delivered == (if Accepted(path) then s.delivered + {c} else s.delivered)
    && Transit.Ordered(s.transit, order) && s'.lost == LostAfter(setup, s.transit, s.lost, c, env.idempotencyKey, path, order)
  }

  // ---------------------------------------------------------------------------
  // Forwarding and finality
  // ---------------------------------------------------------------------------

  /** The state after forwarding of call c has ended and, if it is due, finality has been recorded. */
  ghost function Concluded(setup: Setup, s: State, c: nat, outcome: Outcome, order: seq<string>, finality: Time): State
    requires c < |s.calls| && Transit.Ordered(s.transit, order)
  {
    var ended := Ended(setup, s, c, outcome, order);
    if outcome.Delivered? && Settles(setup, s.calls[c].env) then Settled(setup, Later(ended, finality), c) else ended
  }

  lemma ForwardRun(setup: Setup, states: seq<State>, steps: seq<Step>, c: nat, at: Readings, outcome: Outcome, order: seq<string>)
      returns (states': seq<State>, steps': seq<Step>)
    requires Run(setup, states, steps) && InPhase(Last(states), c, Forwarding)
    requires Last(states).clock <= at.setAside <= at.finality && at.window <= at.setAside
    requires CheckedInTime(Later(Last(states), at.setAside), c, at.window)
    requires CanEnd(setup, Last(states).calls[c].env, at.window, outcome) && Transit.Ordered(Last(states).transit, order)
    ensures GoesOn(setup, states, steps, states', steps',
                   Concluded(setup, Later(Last(states), at.setAside), c, outcome, order, at.finality))
  {
    states', steps' := Ends(setup, states, steps, c, outcome, order, at.window, at.setAside);
    if outcome.Delivered? && Settles(setup, Last(states).calls[c].env) {
      states', steps' := SettlesIt(setup, states', steps', c, at.finality);
    }
  }

  /** What the end of forwarding changes, besides queue and buffer. */
  lemma EndedIs(setup: Setup, s: State, c: nat, path: Path, order: seq<string>)
    requires c < |s.calls| && Transit.Ordered(s.transit, order) && path.Forwarded?
    ensures var s' := Ended(setup, s, c, OutcomeOf(path.result), order); var env := s.calls[c].env;
      && s'.calls == Moved(s, c, if Accepted(path) && Settles(setup, env) then Settling else Answered(Audit.ALLOW))
      && s'.shards == s.shards && s'.allowed == s.allowed && s'.log == s.log
      && s'.delivered == (if Accepted(path) then s.delivered + {c} else s.delivered)
      && s'.lost == LostAfter(setup, s.transit, s.lost, c, env.idempotencyKey, path, order)
  {
    match path.result
    case Ok(_) =>
    case Err(OutsideWindow) =>
    case Err(NoPeer) =>
    case Err(Exhausted) =>
  }

  /** What the end of forwarding and finality change together. */
  lemma ConcludedIs(setup: Setup, s: State, c: nat, path: Path, order: seq<string>, at: Readings)
    requires c < |s.calls| && Transit.Ordered(s.transit, order) && path.Forwarded?
    ensures var s' := Concluded(setup, s, c, OutcomeOf(path.result), order, at.finality); var env := s.calls[c].env;
      && s'.calls == Moved(s, c, Answered(Audit.ALLOW)) && s'.shards == s.shards && s'.allowed == s.allowed
      && s'.delivered == (if Accepted(path) then s.delivered + {c} else s.delivered)
      && s'.log == SettledLog(setup, env, at.finality, path, s.log)
      && s'.lost == LostAfter(setup, s.transit, s.lost, c, env.idempotencyKey, path, order)
  {
    EndedIs(setup, s, c, path, order);
    var ended := Ended(setup, s, c, OutcomeOf(path.result), order);
    if Accepted(path) && Settles(setup, s.calls[c].env) {
      SettledIs(setup, Later(ended, at.finality), c);
      assert Moved(ended, c, Answered(Audit.ALLOW)) == Moved(s, c, Answered(Audit.ALLOW));
    }
  }

  lemma SettledIs(setup: Setup, s: State, c: nat)
    requires c < |s.calls|
    ensures var s' := Settled(setup, s, c);
      s' == s.(calls := Moved(s, c, Answered(Audit.ALLOW)), log := s'.log)
  {
  }

  /** What a verdict changes. */
  lemma JudgedIs(setup: Setup, s: State, c: nat, engineCfg: Config, verdict: Policy.Verdict)
    requires c < |s.calls|
    ensures var s' := Judged(setup, s, c, engineCfg, verdict); var allowed := verdict.decision == Audit.ALLOW;
      && s'.calls == Moved(s, c, if allowed && setup.hasForwarder then Forwarding else Answered(verdict.decision))
      && s' == s.(calls := s'.calls, log := s'.log, allowed := s'.allowed, lost := s'.lost)
      && s'.log == DecidedLog(setup, s.calls[c].env, verdict, engineCfg, s.clock, s.log)
      && s'.allowed == (if allowed then s.allowed + {c} else s.allowed)
      && s'.lost == (if allowed && !setup.hasForwarder then s.lost[c := NoForwarder] else s.lost)
  {
  }

  // ---------------------------------------------------------------------------
  // From the verdict to the end
  // ---------------------------------------------------------------------------

  /** What forwarding came to can come to pass under the machine's configuration. */
  ghost predicate Fits(setup: Setup, env: Envelope, at: Readings, path: Path, t: Forwarder.Attempt) {
    path.Forwarded? ==>
      && CanEnd(setup, env, at.window, OutcomeOf(path.result))
      && (path.result == Err(Forwarder.Exhausted) ==> t.peers != [])
  }

  /** Call c waits for the forwarder or, not allowed or without one, has ended. */
  ghost predicate Decided(setup: Setup, s: State, c: nat, env: Envelope, verdict: Policy.Verdict, at: Readings, path: Path) {
    && InPhase(s, c, if verdict.decision == Audit.ALLOW && setup.hasForwarder then Forwarding else Answered(verdict.decision))
    && s.calls[c].env == env && s.clock == at.record && CheckedInTime(Later(s, at.setAside), c, at.window)
    && if verdict.decision == Audit.ALLOW then path == AllowedOnly || (path.Forwarded? && setup.hasForwarder)
       else path == Denied
  }

  lemma DecidedRun(setup: Setup, states: seq<State>, steps: seq<Step>, c: nat, env: Envelope, verdict: Policy.Verdict,
                   at: Readings, path: Path, t: Forwarder.Attempt, kept: Kept, kept': Kept)
      returns (states': seq<State>, steps': seq<Step>, order: seq<string>)
    requires Run(setup, states, steps) && Decided(setup, Last(states), c, env, verdict, at, path)
    requires InOrder(at.lookup, at) && SameKept(Last(states), kept) && Fits(setup, env, at, path, t)
    requires SetAside(setup, env, at, path, t, kept, kept')
    ensures Run(setup, states', steps') && Continues(states, steps, states', steps') && SameKept(Last(states'), kept')
    ensures var s := Last(states); var s' := Last(states');
      && s'.calls == Moved(s, c, Answered(verdict.decision)) && s'.shards == s.shards && s'.allowed == s.allowed
      && s'.delivered == (if Accepted(path) then s.delivered + {c} else s.delivered)
      && s'.log == SettledLog(setup, env, at.finality, path, s.log)
      && Transit.Ordered(s.transit, order)
      && s'.lost == (if path.AllowedOnly? && !setup.hasForwarder then s.lost
                     else LostAfter(setup, s.transit, s.lost, c, env.idempotencyKey, path, order))
  {
    var s := Last(states);
    if path.Forwarded? {
      states', steps', order := ForwardedRun(setup, states, steps, c, env, at, path, t, kept, kept');
    } else {
      order := SomeOrdered(s.transit);
      assert kept' == kept;
      states', steps' := states, steps;
      if path.AllowedOnly? && setup.hasForwarder {
        states', steps' := Cancels(setup, states, steps, c);
        KeptStays(s, Last(states'), kept);
      }
    }
  }

  lemma ForwardedRun(setup: Setup, states: seq<State>, steps: seq<Step>, c: nat, env: Envelope, at: Readings, path: Path,
                     t: Forwarder.Attempt, kept: Kept, kept': Kept)
      returns (states': seq<State>, steps': seq<Step>, order: seq<string>)
    requires Run(setup, states, steps) && InPhase(Last(states), c, Forwarding) && Last(states).calls[c].env == env
    requires Last(states).clock <= at.setAside <= at.finality && at.window <= at.setAside && path.Forwarded?
    requires CheckedInTime(Later(Last(states), at.setAside), c, at.window)
    requires SameKept(Last(states), kept) && Fits(setup, env, at, path, t) && SetAside(setup, env, at, path, t, kept, kept')
    ensures Run(setup, states', steps') && Continues(states, steps, states', steps') && SameKept(Last(states'), kept')
    ensures var s := Last(states); var s' := Last(states');
      && s'.calls == Moved(s, c, Answered(Audit.ALLOW)) && s'.shards == s.shards && s'.allowed == s.allowed
      && s'.delivered == (if Accepted(path) then s.delivered + {c} else s.delivered)
      && s'.log == SettledLog(setup, env, at.finality, path, s.log)
      && Transit.Ordered(s.transit, order) && s'.lost == LostAfter(setup, s.transit, s.lost, c, env.idempotencyKey, path, order)
  {
    var s := Later(Last(states), at.setAside);
    KeptStays(Last(states), s, kept);
    order := EndsAlike(setup, s, c, at, path, t, kept, kept');
    states', steps' := ForwardRun(setup, states, steps, c, at, OutcomeOf(path.result), order);
    ConcludedIs(setup, s, c, path, order, at);
    ConcludedKeeps(setup, s, c, path, order, at, kept');
  }

  lemma ConcludedKeeps(setup: Setup, s: State, c: nat, path: Path, order: seq<string>, at: Readings, kept': Kept)
    requires c < |s.calls| && Transit.Ordered(s.transit, order) && path.Forwarded? && s.clock == at.setAside
    requires SameKept(Ended(setup, s, c, OutcomeOf(path.result), order), kept')
    ensures SameKept(Concluded(setup, s, c, OutcomeOf(path.result), order, at.finality), kept')
  {
    var ended := Ended(setup, s, c, OutcomeOf(path.result), order);
    if Accepted(path) && Settles(setup, s.calls[c].env) {
      KeptStays(ended, Settled(setup, Later(ended, at.finality), c), kept');
    }
  }

  // ---------------------------------------------------------------------------
  // The whole call
  // ---------------------------------------------------------------------------

  /** What the contract of `Send` says of a call with a key, on the values the components hold before and after it. */
  ghost predicate Sends(setup: Setup, env: Envelope, verdict: Policy.Verdict, engineCfg: Config, forwards: bool, at: Readings,
                        path: Path, t: Forwarder.Attempt,
                        shards: seq<Dedup.Shard>, log: seq<Audit.Entry>, kept: Kept,
                        shards': seq<Dedup.Shard>, log': seq<Audit.Entry>, kept': Kept)
  {
    && |shards| == Dedup.NUM_SHARDS && (forwards ==> setup.hasForwarder) && Fits(setup, env, at, path, t)
    && Meets(env, Seen(setup, shards, env.idempotencyKey, at.lookup), verdict, forwards, path)
    && shards' == ShardsAfter(setup, env, at.lookup, path, shards)
    && log' == LogAfter(setup, env, verdict, engineCfg, at, path, log)
    && SetAside(setup, env, at, path, t, kept, kept')
  }

  /** An allowed or denied call, once the index has let it through. */
  lemma AdmittedRun(setup: Setup, states: seq<State>, steps: seq<Step>, c: nat, env: Envelope, engineCfg: Config, revoked: bool,
                    verdict: Policy.Verdict, at: Readings, path: Path, t: Forwarder.Attempt, kept: Kept, kept': Kept)
      returns (states': seq<State>, steps': seq<Step>, order: seq<string>)
    requires Run(setup, states, steps) && InPhase(Last(states), c, Admitted) && Last(states).calls[c].env == env
    requires InOrder(at.lookup, at) && Last(states).clock == at.lookup && CheckedInTime(Last(states), c, at.lookup)
    requires verdict == Policy.Decide(engineCfg, revoked, RequestOf(env)) && SameKept(Last(states), kept)
    requires if verdict.decision == Audit.ALLOW then path == AllowedOnly || (path.Forwarded? && setup.hasForwarder)
             else path == Denied
    requires Fits(setup, env, at, path, t) && SetAside(setup, env, at, path, t, kept, kept')
    ensures Run(setup, states', steps') && Continues(states, steps, states', steps') && SameKept(Last(states'), kept')
    ensures var s := Last(states); var s' := Last(states');
      && s'.calls == Moved(s, c, Answered(verdict.decision)) && s'.shards == s.shards
      && s'.allowed == (if Allowed(path) then s.allowed + {c} else s.allowed)
      && s'.delivered == (if Accepted(path) then s.delivered + {c} else s.delivered)
      && s'.log == LogAfter(setup, env, verdict, engineCfg, at, path, s.log)
      && Transit.Ordered(s.transit, order) && s'.lost == LostAfter(setup, s.transit, s.lost, c, env.idempotencyKey, path, order)
  {
    states', steps' := Judges(setup, states, steps, c, engineCfg, revoked, verdict, at.record);
    var judged := Last(states');
    JudgedIs(setup, Later(Last(states), at.record), c, engineCfg, verdict);
    KeptStays(Last(states), judged, kept);
    states', steps', order := DecidedRun(setup, states', steps', c, env, verdict, at, path, t, kept, kept');
    assert Moved(judged, c, Answered(verdict.decision)) == Moved(Last(states), c, Answered(verdict.decision));
  }

  /** A call that is not dummy traffic. */
  lemma LiveRun(setup: Setup, states: seq<State>, steps: seq<Step>, c: nat, env: Envelope, engineCfg: Config, revoked: bool,
                verdict: Policy.Verdict, forwards: bool, at: Readings, path: Path, t: Forwarder.Attempt,
                shards: seq<Dedup.Shard>, log: seq<Audit.Entry>, kept: Kept,
                shards': seq<Dedup.Shard>, log': seq<Audit.Entry>, kept': Kept)
      returns (states': seq<State>, steps': seq<Step>, order: seq<string>)
    requires Run(setup, states, steps) && InPhase(Last(states), c, Started) && Last(states).calls[c].env == env
    requires InOrder(Last(states).clock, at) && env.idempotencyKey != "" && !env.isDummy
    requires Represents(Last(states), shards, log, kept) && verdict == Policy.Decide(engineCfg, revoked, RequestOf(env))
    requires Sends(setup, env, verdict, engineCfg, forwards, at, path, t, shards, log, kept, shards', log', kept')
    ensures Run(setup, states', steps') && Continues(states, steps, states', steps')
    ensures Represents(Last(states'), shards', log', kept')
    ensures |Last(states').calls| == |Last(states).calls|
    ensures EndsOn(setup, Last(states), Last(states'), c, env, verdict, path, order)
  {
    if path.Duplicate? {
      order := SomeOrdered(Last(states).transit);
      states', steps' := DuplicateRun(setup, states, steps, c, env, at, kept);
    } else {
      states', steps', order := ThroughRun(setup, states, steps, c, env, engineCfg, revoked, verdict, at, path, t, kept, kept');
    }
  }

  /** A call with dummy traffic. */
  lemma IdleRun(setup: Setup, states: seq<State>, steps: seq<Step>, c: nat, env: Envelope, engineCfg: Config,
                verdict: Policy.Verdict, forwards: bool, at: Readings, path: Path, t: Forwarder.Attempt,
                shards: seq<Dedup.Shard>, log: seq<Audit.Entry>, kept: Kept,
                shards': seq<Dedup.Shard>, log': seq<Audit.Entry>, kept': Kept)
      returns (states': seq<State>, steps': seq<Step>, order: seq<string>)
    requires Run(setup, states, steps) && InPhase(Last(states), c, Started) && Last(states).calls[c].env == env
    requires InOrder(Last(states).clock, at) && env.idempotencyKey != "" && env.isDummy
    requires Represents(Last(states), shards, log, kept)
    requires Sends(setup, env, verdict, engineCfg, forwards, at, path, t, shards, log, kept, shards', log', kept')
    ensures Run(setup, states', steps') && Continues(states, steps, states', steps')
    ensures Represents(Last(states'), shards', log', kept')
    ensures |Last(states').calls| == |Last(states).calls|
    ensures EndsOn(setup, Last(states), Last(states'), c, env, verdict, path, order)
  {
    order := SomeOrdered(Last(states).transit);
    states', steps' := DummyRun(setup, states, steps, c, env, at, kept);
    assert kept' == kept;
  }

  lemma DummyRun(setup: Setup, states: seq<State>, steps: seq<Step>, c: nat, env: Envelope, at: Readings, kept: Kept)
      returns (states': seq<State>, steps': seq<Step>)
    requires Run(setup, states, steps) && InPhase(Last(states), c, Started) && Last(states).calls[c].env == env && env.isDummy
    requires InOrder(Last(states).clock, at) && SameKept(Last(states), kept)
    ensures Run(setup, states', steps') && Continues(states, steps, states', steps') && SameKept(Last(states'), kept)
    ensures var s := Last(states); var s' := Last(states');
      && s'.calls == Moved(s, c, Answered(Audit.DUMMY)) && s'.allowed == s.allowed && s'.delivered == s.delivered
      && s'.lost == s.lost && s'.shards == s.shards
      && s'.log == Audit.Extend(setup.digest, s.log, setup.cfg, DummyEvent(setup.cfg, env), UnixMilli(at.record))
  {
    states', steps' := RecordsIt(setup, states, steps, c, at.record);
    KeptStays(Last(states), Last(states'), kept);
  }

  lemma DuplicateRun(setup: Setup, states: seq<State>, steps: seq<Step>, c: nat, env: Envelope, at: Readings, kept: Kept)
      returns (states': seq<State>, steps': seq<Step>)
    requires Run(setup, states, steps) && InPhase(Last(states), c, Started) && Last(states).calls[c].env == env && !env.isDummy
    requires InOrder(Last(states).clock, at) && SameKept(Last(states), kept) && |Last(states).shards| == Dedup.NUM_SHARDS
    requires Seen(setup, Last(states).shards, env.idempotencyKey, at.lookup)
    ensures Run(setup, states', steps') && Continues(states, steps, states', steps') && SameKept(Last(states'), kept)
    ensures var s := Last(states); var s' := Last(states');
      && s'.calls == Moved(s, c, Answered(Audit.DUPLICATE)) && s'.allowed == s.allowed && s'.delivered == s.delivered
      && s'.lost == s.lost && s'.shards == ShardsAfter(setup, env, at.lookup, Duplicate, s.shards)
      && s'.log == Audit.Extend(setup.digest, s.log, setup.cfg, DuplicateEvent(setup.cfg, env), UnixMilli(at.record))
  {
    states', steps' := LooksUp(setup, states, steps, c, at.lookup);
    states', steps' := RecordsIt(setup, states', steps', c, at.record);
    assert Last(states').calls == Moved(Last(states), c, Answered(Audit.DUPLICATE));
    KeptStays(Last(states), Last(states'), kept);
  }

  /** A call that the index lets through. */
  lemma ThroughRun(setup: Setup, states: seq<State>, steps: seq<Step>, c: nat, env: Envelope, engineCfg: Config, revoked: bool,
                   verdict: Policy.Verdict, at: Readings, path: Path, t: Forwarder.Attempt, kept: Kept, kept': Kept)
      returns (states': seq<State>, steps': seq<Step>, order: seq<string>)
    requires Run(setup, states, steps) && InPhase(Last(states), c, Started) && Last(states).calls[c].env == env && !env.isDummy
    requires InOrder(Last(states).clock, at) && SameKept(Last(states), kept) && |Last(states).shards| == Dedup.NUM_SHARDS
    requires !Seen(setup, Last(states).shards, env.idempotencyKey, at.lookup)
    requires verdict == Policy.Decide(engineCfg, revoked, RequestOf(env))
    requires if verdict.decision == Audit.ALLOW then path == AllowedOnly || (path.Forwarded? && setup.hasForwarder)
             else path == Denied
    requires Fits(setup, env, at, path, t) && SetAside(setup, env, at, path, t, kept, kept')
    ensures Run(setup, states', steps') && Continues(states, steps, states', steps') && SameKept(Last(states'), kept')
    ensures var s := Last(states); var s' := Last(states');
      && |s'.calls| == |s.calls| && InPhase(s', c, Answered(verdict.decision)) && s'.calls[c].env == env
      && (forall d :: 0 <= d < |s.calls| && d != c ==> s'.calls[d] == s.calls[d])
      && s'.shards == ShardsAfter(setup, env, at.lookup, Duplicate, s.shards)
      && s'.allowed == (if Allowed(path) then s.allowed + {c} else s.allowed)
      && s'.delivered == (if Accepted(path) then s.delivered + {c} else s.delivered)
      && s'.log == LogAfter(setup, env, verdict, engineCfg, at, path, s.log)
      && Transit.Ordered(s.transit, order) && s'.lost == LostAfter(setup, s.transit, s.lost, c, env.idempotencyKey, path, order)
  {
    states', steps' := LooksUp(setup, states, steps, c, at.lookup);
    KeptStays(Last(states), Last(states'), kept);
    states', steps', order := AdmittedRun(setup, states', steps', c, env, engineCfg, revoked, verdict, at, path, t, kept, kept');
  }

  /**
   Whatever run the machine has made so far, if its state stands for what the components
   hold, an undisturbed call extends it by the steps of that call to a state that stands for
   what they hold afterwards, with the call allowed, delivered or lost as its path says.
   */
  lemma SendExtendsRun(setup: Setup, states: seq<State>, steps: seq<Step>, request: Envelope, engineCfg: Config, revoked: bool,
                       verdict: Policy.Verdict, forwards: bool, at: Readings, path: Path, t: Forwarder.Attempt,
                       shards: seq<Dedup.Shard>, log: seq<Audit.Entry>, kept: Kept,
                       shards': seq<Dedup.Shard>, log': seq<Audit.Entry>, kept': Kept)
      returns (states': seq<State>, steps': seq<Step>, order: seq<string>)
    requires Run(setup, states, steps) && InOrder(Last(states).clock, at) && Represents(Last(states), shards, log, kept)
    requires request.idempotencyKey != "" && verdict == Policy.Decide(engineCfg, revoked, RequestOf(Normalized(request)))
    requires Sends(setup, Normalized(request), verdict, engineCfg, forwards, at, path, t, shards, log, kept, shards', log', kept')
    ensures Run(setup, states', steps') && Continues(states, steps, states', steps')
    ensures Represents(Last(states'), shards', log', kept') && |Last(states').calls| == |Last(states).calls| + 1
    ensures EndsOn(setup, Last(states), Last(states'), |Last(states).calls|, Normalized(request), verdict, path, order)
  {
    var c, env := |Last(states).calls|, Normalized(request);
    states', steps' := Arrives(setup, states, steps, request);
    if env.isDummy {
      states', steps', order := IdleRun(setup, states', steps', c, env, engineCfg, verdict, forwards, at, path, t,
                                        shards, log, kept, shards', log', kept');
    } else {
      states', steps', order := LiveRun(setup, states', steps', c, env, engineCfg, revoked, verdict, forwards, at, path, t,
                                        shards, log, kept, shards', log', kept');
    }
  }

  // ---------------------------------------------------------------------------
  // The components
  // ---------------------------------------------------------------------------

  /** The empty components stand at the beginning of a run. */
  lemma FreshIsARun(setup: Setup, clock: Time) returns (states: seq<State>, steps: seq<Step>)
    ensures Run(setup, states, steps) && Last(states).clock == clock
    ensures Represents(Last(states), Dedup.Empty(), [], Kept([], map[]))
  {
    states, steps := Begin(setup, clock);
  }

  /** What `Forward` came to can come to pass in the machine. */
  lemma ComesToFits(setup: Setup, p: Retry.RetryPolicy, env: Envelope, net: Forwarder.Network, cancelled: nat -> bool, start: nat,
                    at: Readings, path: Path, t: Forwarder.Attempt)
    requires path.Forwarded?
    requires Forwarder.ComesTo(setup.forwarderCfg, p, env, net, cancelled, start, at.window, path.result, t)
    ensures Fits(setup, env, at, path, t)
  {
    if !Forwarder.WindowFor(setup.forwarderCfg, env, at.window).Closed? {
      Forwarder.NoPeerIff(setup.forwarderCfg, env, t.peers);
    }
  }

  /** So the components, call after call, are a run of the machine. */
  method SendOnMachine(g: SendingGateway, request: Envelope, jitterCancelled: bool, net: Forwarder.Network,
                       cancelled: nat -> bool, start: nat, at: Readings, ghost states: seq<State>, ghost steps: seq<Step>)
    returns (r: Result<SendResponse, SendError>, path: Path, t: Forwarder.Attempt,
             ghost states': seq<State>, ghost steps': seq<Step>, ghost order: seq<string>)
    requires g.Valid() && Run(g.Wiring(), states, steps) && InOrder(Last(states).clock, at)
    requires Represents(Last(states), g.dedup.shards[..], g.audit.entries, g.KeptNow())
    modifies g.dedup.shards, g.audit, g.Holders()
    ensures g.Valid() && Run(g.Wiring(), states', steps') && Continues(states, steps, states', steps')
    ensures Represents(Last(states'), g.dedup.shards[..], g.audit.entries, g.KeptNow())
    ensures path.Rejected? <==> request.idempotencyKey == ""
    ensures if path.Rejected? then states' == states
            else
              EndsOn(g.Wiring(), Last(states), Last(states'), |Last(states).calls|, Normalized(request),
                     old(g.Verdict(Normalized(request))), path, order)
    ensures path.Forwarded? ==>
              && g.forwarder != null
              && Forwarder.ComesTo(g.forwarder.cfg, g.forwarder.policy, Normalized(request), net, cancelled, start, at.window,
                                   path.result, t)
  {
    ghost var shards, log, kept, verdict := g.dedup.shards[..], g.audit.entries, g.KeptNow(), g.Verdict(Normalized(request));
    ghost var revoked, engineCfg := g.engine.Revoked(Normalized(request).senderNodeId), g.engine.cfg;
    states', steps', order := states, steps, [];
    r, path, t := SendOnValues(g, request, jitterCancelled, net, cancelled, start, at);
    if !path.Rejected? {
      states', steps', order := SendExtendsRun(g.Wiring(), states, steps, request, engineCfg, revoked, verdict,
                                               g.forwarder != null && !jitterCancelled, at, path, t,
                                               shards, log, kept, g.dedup.shards[..], g.audit.entries, g.KeptNow());
    }
  }

  /** The contract of `Send`, read on values. */
  method SendOnValues(g: SendingGateway, request: Envelope, jitterCancelled: bool, net: Forwarder.Network,
                      cancelled: nat -> bool, start: nat, at: Readings)
    returns (r: Result<SendResponse, SendError>, path: Path, t: Forwarder.Attempt)
    requires g.Valid()
    modifies g.dedup.shards, g.audit, g.Holders()
    ensures g.Valid() && (path.Rejected? <==> request.idempotencyKey == "")
    ensures Sends(g.Wiring(), Normalized(request), old(g.Verdict(Normalized(request))), g.engine.cfg,
                  g.forwarder != null && !jitterCancelled, at, path, t, old(g.dedup.shards[..]), old(g.audit.entries),
                  old(g.KeptNow()), g.dedup.shards[..], g.audit.entries, g.KeptNow())
    ensures path.Forwarded? ==>
              && g.forwarder != null
              && Forwarder.ComesTo(g.forwarder.cfg, g.forwarder.policy, Normalized(request), net, cancelled, start, at.window,
                                   path.result, t)
  {
    r, path, t := g.SendBySpec(request, jitterCancelled, net, cancelled, start, at);
    if path.Forwarded? {
      ComesToFits(g.Wiring(), g.forwarder.policy, Normalized(request), net, cancelled, start, at, path, t);
    }
  }
}

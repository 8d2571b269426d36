/**
 The locked regions of the components as steps of the machine `Gateway`. Every lemma extends an
 arbitrary run by the step of one region, for an arbitrary call, and says what the machine's
 state then stands for; so any interleaving of such regions is a run.
 */
module GatewayRegions {
  import opened Clock
  import opened Config
  import opened Envelopes
  import opened Gateway
  import opened GatewayRuns
  import opened SendEnvelope
  import opened Wrappers
  import Audit
  import Collections
  import Dedup
  import Dlq
  import Forwarder
  import Policy
  import Transit

  // ---------------------------------------------------------------------------
  // What the machine's states stand for
  // ---------------------------------------------------------------------------

  /** The calls in the machine's queue and buffer are those whose envelopes the components keep. */
  ghost predicate SameQueue(calls: seq<Call>, dlq: seq<nat>, queue: seq<Dlq.DlqEntry>) {
    && |dlq| == |queue|
    && forall i :: 0 <= i < |dlq| ==> dlq[i] < |calls| && calls[dlq[i]].env == queue[i].envelope
  }

  ghost predicate SameBuffer(calls: seq<Call>, transit: Transit.Buffer<nat>, buffer: Transit.Buffer<Forwarder.Buffered>) {
    && transit.Keys == buffer.Keys
    && forall k :: k in transit ==>
         && transit[k].expires == buffer[k].expires
         && transit[k].item < |calls| && calls[transit[k].item].env == buffer[k].item.0
  }

  ghost predicate SameKept(s: State, kept: Kept) {
    SameQueue(s.calls, s.dlq, kept.queue) && SameBuffer(s.calls, s.transit, kept.buffer)
  }

  ghost predicate Represents(s: State, shards: seq<Dedup.Shard>, log: seq<Audit.Entry>, kept: Kept) {
    s.shards == shards && s.log == log && SameKept(s, kept)
  }

  /** Calls keep their envelopes. */
  ghost predicate SameEnvelopes(calls: seq<Call>, calls': seq<Call>) {
    |calls| <= |calls'| && forall c :: 0 <= c < |calls| ==> calls'[c].env == calls[c].env
  }

  lemma KeptStays(s: State, s': State, kept: Kept)
    requires SameKept(s, kept) && SameEnvelopes(s.calls, s'.calls) && s'.dlq == s.dlq && s'.transit == s.transit
    ensures SameKept(s', kept)
  {
  }

  /** The run went on to state s'. */
  ghost predicate GoesOn(setup: Setup, states: seq<State>, steps: seq<Step>, states': seq<State>, steps': seq<Step>, s': State) {
    Run(setup, states', steps') && Continues(states, steps, states', steps') && Last(states') == s'
  }

  // ---------------------------------------------------------------------------
  // The regions of a call
  // ---------------------------------------------------------------------------

  /** The state when the clock reads `now`. */
  ghost function Later(s: State, now: Time): State {
    s.(clock := now)
  }

  ghost function Arrived(s: State, request: Envelope): State {
    s.(calls := s.calls + [Call(Normalized(request), Started, None)])
  }

  lemma Arrives(setup: Setup, states: seq<State>, steps: seq<Step>, request: Envelope)
      returns (states': seq<State>, steps': seq<Step>)
    requires Run(setup, states, steps) && request.idempotencyKey != ""
    ensures GoesOn(setup, states, steps, states', steps', Arrived(Last(states), request))
    ensures forall kept :: SameKept(Last(states), kept) ==> SameKept(Last(states'), kept)
  {
    states', steps' := Take(setup, states, steps, Arrive(request), Arrived(Last(states), request));
    forall kept | SameKept(Last(states), kept)
      ensures SameKept(Last(states'), kept)
    {
      KeptStays(Last(states), Last(states'), kept);
    }
  }

  /** Call c has been looked up in the index. */
  ghost function LookedUp(setup: Setup, s: State, c: nat): State
    requires c < |s.calls| && |s.shards| == Dedup.NUM_SHARDS
  {
    var env := s.calls[c].env;
    var s' := s.(shards := ShardsAfter(setup, env, s.clock, Duplicate, s.shards));
    if Seen(setup, s.shards, env.idempotencyKey, s.clock) then s'.(calls := Moved(s, c, FoundDuplicate))
    else
      s'.(calls := s.calls[c := Call(env, Admitted, Some(|s.admissions|))],
          admissions := s.admissions + [Admission(c, env.idempotencyKey, s.clock, DedupTtl(setup, env))])
  }

  lemma LooksUp(setup: Setup, states: seq<State>, steps: seq<Step>, c: nat, now: Time)
      returns (states': seq<State>, steps': seq<Step>)
    requires Run(setup, states, steps) && Last(states).clock <= now && InPhase(Last(states), c, Started)
    requires !Last(states).calls[c].env.isDummy && |Last(states).shards| == Dedup.NUM_SHARDS
    ensures GoesOn(setup, states, steps, states', steps', LookedUp(setup, Later(Last(states), now), c))
  {
    states', steps' := Wait(setup, states, steps, now);
    states', steps' := Take(setup, states', steps', CheckDuplicate(c), LookedUp(setup, Last(states'), c));
  }

  /** A call that goes no further has been recorded as dummy traffic or as a duplicate. */
  ghost function Recorded(setup: Setup, s: State, c: nat): State
    requires c < |s.calls|
  {
    var env := s.calls[c].env;
    if s.calls[c].phase == FoundDuplicate then
      s.(calls := Moved(s, c, Answered(Audit.DUPLICATE)), log := Logged(setup, s, setup.cfg, DuplicateEvent(setup.cfg, env)))
    else
      s.(calls := Moved(s, c, Answered(Audit.DUMMY)), log := Logged(setup, s, setup.cfg, DummyEvent(setup.cfg, env)))
  }

  lemma RecordsIt(setup: Setup, states: seq<State>, steps: seq<Step>, c: nat, now: Time)
      returns (states': seq<State>, steps': seq<Step>)
    requires Run(setup, states, steps) && Last(states).clock <= now
    requires InPhase(Last(states), c, FoundDuplicate) || (InPhase(Last(states), c, Started) && Last(states).calls[c].env.isDummy)
    ensures GoesOn(setup, states, steps, states', steps', Recorded(setup, Later(Last(states), now), c))
  {
    states', steps' := Wait(setup, states, steps, now);
    var step := if InPhase(Last(states), c, FoundDuplicate) then AppendDuplicate(c) else AppendDummy(c);
    states', steps' := Take(setup, states', steps', step, Recorded(setup, Last(states'), c));
  }

  /** The policy has decided on call c. */
  ghost function Judged(setup: Setup, s: State, c: nat, engineCfg: Config, verdict: Policy.Verdict): State
    requires c < |s.calls|
  {
    var s' := s.(log := Logged(setup, s, engineCfg, Policy.VerdictEvent(engineCfg, verdict, RequestOf(s.calls[c].env))));
    if verdict.decision != Audit.ALLOW then s'.(calls := Moved(s, c, Answered(verdict.decision)))
    else if !setup.hasForwarder then
      s'.(calls := Moved(s, c, Answered(Audit.ALLOW)), allowed := s.allowed + {c}, lost := s.lost[c := NoForwarder])
    else s'.(calls := Moved(s, c, Forwarding), allowed := s.allowed + {c})
  }

  lemma Judges(setup: Setup, states: seq<State>, steps: seq<Step>, c: nat, engineCfg: Config, revoked: bool,
               verdict: Policy.Verdict, now: Time)
      returns (states': seq<State>, steps': seq<Step>)
    requires Run(setup, states, steps) && Last(states).clock <= now && InPhase(Last(states), c, Admitted)
    requires verdict == Policy.Decide(engineCfg, revoked, RequestOf(Last(states).calls[c].env))
    ensures GoesOn(setup, states, steps, states', steps', Judged(setup, Later(Last(states), now), c, engineCfg, verdict))
  {
    states', steps' := Wait(setup, states, steps, now);
    states', steps' := Take(setup, states', steps', Evaluate(c, engineCfg, revoked),
                            Judged(setup, Last(states'), c, engineCfg, verdict));
  }

  ghost function Cancelled(s: State, c: nat): State
    requires c < |s.calls|
  {
    s.(calls := Moved(s, c, Answered(Audit.ALLOW)), lost := s.lost[c := JitterCancelled])
  }

  lemma Cancels(setup: Setup, states: seq<State>, steps: seq<Step>, c: nat) returns (states': seq<State>, steps': seq<Step>)
    requires Run(setup, states, steps) && InPhase(Last(states), c, Forwarding)
    ensures GoesOn(setup, states, steps, states', steps', Cancelled(Last(states), c))
  {
    states', steps' := Take(setup, states, steps, CancelJitter(c), Cancelled(Last(states), c));
  }

  /** The finality entry of a delivered call has been appended. */
  ghost function Settled(setup: Setup, s: State, c: nat): State
    requires c < |s.calls|
  {
    var env := s.calls[c].env;
    s.(calls := Moved(s, c, Answered(Audit.ALLOW)),
       log := Logged(setup, s, setup.cfg, Audit.FinalityEvent(env.senderRegion, env.recipientRegion, env.schemaVersion)))
  }

  lemma SettlesIt(setup: Setup, states: seq<State>, steps: seq<Step>, c: nat, now: Time)
      returns (states': seq<State>, steps': seq<Step>)
    requires Run(setup, states, steps) && Last(states).clock <= now && InPhase(Last(states), c, Settling)
    ensures GoesOn(setup, states, steps, states', steps', Settled(setup, Later(Last(states), now), c))
  {
    states', steps' := Wait(setup, states, steps, now);
    states', steps' := Take(setup, states', steps', AppendFinality(c), Settled(setup, Last(states'), c));
  }

  // ---------------------------------------------------------------------------
  // Forwarding, which touches shared state once, at its end
  // ---------------------------------------------------------------------------

  /** The machine's name for what forwarding came to. */
  function OutcomeOf(r: Result<string, Forwarder.ForwardError>): Outcome {
    match r
    case Ok(_) => Delivered
    case Err(OutsideWindow) => WindowClosed
    case Err(NoPeer) => NoPeerFound
    case Err(Exhausted) => PeersExhausted
  }

  /** Forwarding of call c has ended; `order` is how the map was ranged over if the buffer had to make room. */
  ghost function Ended(setup: Setup, s: State, c: nat, outcome: Outcome, order: seq<string>): State
    requires c < |s.calls| && Transit.Ordered(s.transit, order)
  {
    var env := s.calls[c].env;
    var answered := s.(calls := Moved(s, c, Answered(Audit.ALLOW)));
    match outcome
    case Delivered =>
      s.(delivered := s.delivered + {c}, calls := if Settles(setup, env) then Moved(s, c, Settling) else answered.calls)
    case NoPeerFound => answered.(lost := s.lost[c := NoPeer])
    case WindowClosed => Queued(setup, answered, c)
    case PeersExhausted =>
      if setup.hasTransit then
        answered.(transit := Transit.MakeRoom(s.transit, order)
                               [env.idempotencyKey := Transit.Entry(c, s.clock + setup.transitTtl)],
                  lost := PutLosses(s.transit, s.lost, env.idempotencyKey, order))
      else Queued(setup, answered, c)
  }

  ghost function Queued(setup: Setup, s: State, c: nat): State {
    if setup.hasDlq then s.(dlq := s.dlq + [c]) else s.(lost := s.lost[c := NoQueue])
  }

  lemma Ends(setup: Setup, states: seq<State>, steps: seq<Step>, c: nat, outcome: Outcome, order: seq<string>,
             checkedAt: Time, now: Time)
      returns (states': seq<State>, steps': seq<Step>)
    requires Run(setup, states, steps) && Last(states).clock <= now && InPhase(Last(states), c, Forwarding)
    requires checkedAt <= now && CheckedInTime(Later(Last(states), now), c, checkedAt)
    requires CanEnd(setup, Last(states).calls[c].env, checkedAt, outcome) && Transit.Ordered(Last(states).transit, order)
    ensures GoesOn(setup, states, steps, states', steps', Ended(setup, Later(Last(states), now), c, outcome, order))
  {
    states', steps' := Wait(setup, states, steps, now);
    states', steps' := Take(setup, states', steps', Forward(c, outcome, order, checkedAt),
                            Ended(setup, Last(states'), c, outcome, order));
  }

  /** Which entry is evicted depends on keys and expiry times alone. */
  lemma {:induction false} SameCandidate<T, U>(m: Transit.Buffer<T>, b: Transit.Buffer<U>, order: seq<string>, n: nat)
    requires m.Keys == b.Keys && (forall k :: k in m ==> m[k].expires == b[k].expires)
    requires n <= |order| && forall i :: 0 <= i < |order| ==> order[i] in m
    ensures Transit.Candidate(m, order, n) == Transit.Candidate(b, order, n)
  {
    if n > 0 {
      SameCandidate(m, b, order, n - 1);
    }
  }

  lemma SameSize<T, U>(m: Transit.Buffer<T>, b: Transit.Buffer<U>)
    requires m.Keys == b.Keys
    ensures |m| == |b|
  {
    assert |m| == |m.Keys| && |b| == |b.Keys|;
  }

  /** Making room and putting call c into the machine's buffer mirrors the same on the envelopes. */
  lemma SamePut(calls: seq<Call>, m: Transit.Buffer<nat>, b: Transit.Buffer<Forwarder.Buffered>, order: seq<string>,
                key: string, e: Transit.Entry<nat>, f: Transit.Entry<Forwarder.Buffered>, m': Transit.Buffer<nat>,
                b': Transit.Buffer<Forwarder.Buffered>)
    requires SameBuffer(calls, m, b) && (forall i :: 0 <= i < |order| ==> order[i] in m)
    requires e.item < |calls| && calls[e.item].env == f.item.0 && e.expires == f.expires
    requires m' == Transit.MakeRoom(m, order)[key := e] && b' == Transit.MakeRoom(b, order)[key := f]
    ensures SameBuffer(calls, m', b')
  {
    SameCandidate(m, b, order, |order|);
    SameSize(m, b);
  }

  /** The iteration order in which the components made room serves the machine as well. */
  lemma OrderOf(ttl: Duration, m: Transit.Buffer<nat>, b: Transit.Buffer<Forwarder.Buffered>, key: string,
                item: Forwarder.Buffered, now: Time, b': Transit.Buffer<Forwarder.Buffered>) returns (order: seq<string>)
    requires m.Keys == b.Keys && Transit.PutStep(ttl, b, key, item, now, b')
    ensures Transit.Ordered(m, order) && Transit.Ordered(b, order)
    ensures b' == Transit.MakeRoom(b, order)[key := Transit.Entry(item, now + ttl)]
  {
    order := Transit.PutOrder(ttl, b, key, item, now, b');
    SameSize(m, b);
  }

  /** Any order of ranging over a buffer. */
  lemma SomeOrdered<T>(m: Transit.Buffer<T>) returns (order: seq<string>)
    ensures Transit.Ordered(m, order)
  {
    order := Transit.SomeOrder(m.Keys);
  }

  /** Buffering on both sides. */
  lemma BuffersAlike(setup: Setup, s: State, c: nat, order: seq<string>, addr: string, kept: Kept,
                     buffer: Transit.Buffer<Forwarder.Buffered>)
    requires c < |s.calls| && SameKept(s, kept) && setup.hasTransit
    requires Transit.Ordered(s.transit, order) && Transit.Ordered(kept.buffer, order)
    requires var env := s.calls[c].env;
      buffer == Transit.MakeRoom(kept.buffer, order)
                  [env.idempotencyKey := Transit.Entry((env, addr), s.clock + setup.transitTtl)]
    ensures SameKept(Ended(setup, s, c, PeersExhausted, order), kept.(buffer := buffer))
  {
    var s', env, expires := Ended(setup, s, c, PeersExhausted, order), s.calls[c].env, s.clock + setup.transitTtl;
    EndedBuffers(setup, s, c, order);
    KeptStays(s, s.(calls := s'.calls), kept);
    SamePut(s'.calls, s.transit, kept.buffer, order, env.idempotencyKey, Transit.Entry(c, expires),
            Transit.Entry((env, addr), expires), s'.transit, buffer);
  }

  lemma EndedBuffers(setup: Setup, s: State, c: nat, order: seq<string>)
    requires c < |s.calls| && setup.hasTransit && Transit.Ordered(s.transit, order)
    ensures var s' := Ended(setup, s, c, PeersExhausted, order);
      && s'.calls == Moved(s, c, Answered(Audit.ALLOW)) && s'.dlq == s.dlq
      && s'.transit == Transit.MakeRoom(s.transit, order)
                         [s.calls[c].env.idempotencyKey := Transit.Entry(c, s.clock + setup.transitTtl)]
  {
  }

  /** Queueing on both sides, or losing the call where there is no queue. */
  lemma QueuesAlike(setup: Setup, s: State, c: nat, kept: Kept, letters: seq<Dlq.DlqEntry>)
    requires c < |s.calls| && SameKept(s, kept)
    requires if setup.hasDlq then |letters| == 1 && letters[0].envelope == s.calls[c].env else letters == []
    ensures SameKept(Queued(setup, s, c), kept.(queue := kept.queue + letters))
  {
  }

  /** What forwarding leaves behind, it leaves behind on both sides. */
  lemma EndsAlike(setup: Setup, s: State, c: nat, at: Readings, path: Path, t: Forwarder.Attempt, kept: Kept, kept': Kept)
      returns (order: seq<string>)
    requires c < |s.calls| && s.clock == at.setAside && SameKept(s, kept) && path.Forwarded?
    requires CanEnd(setup, s.calls[c].env, at.window, OutcomeOf(path.result))
    requires path.result == Err(Forwarder.Exhausted) ==> t.peers != []
    requires SetAside(setup, s.calls[c].env, at, path, t, kept, kept')
    ensures Transit.Ordered(s.transit, order)
    ensures SameKept(Ended(setup, s, c, OutcomeOf(path.result), order), kept')
  {
    if path.result == Err(Forwarder.Exhausted) && setup.hasTransit {
      var env, addr := s.calls[c].env, t.peers[0].addr;
      assert kept' == kept.(buffer := kept'.buffer);
      order := OrderOf(setup.transitTtl, s.transit, kept.buffer, env.idempotencyKey, (env, addr), at.setAside, kept'.buffer);
      BuffersAlike(setup, s, c, order, addr, kept, kept'.buffer);
    } else {
      order := SomeOrdered(s.transit);
      LeavesAlike(setup, s, c, at, path, t, kept, kept', order);
    }
  }

  /** A dead letter is left exactly by a closed window or, without a buffer, by exhausted peers. */
  lemma LettersFit(setup: Setup, env: Envelope, at: Readings, r: Result<string, Forwarder.ForwardError>, t: Forwarder.Attempt)
    requires CanEnd(setup, env, at.window, OutcomeOf(r))
    requires r == Err(Forwarder.Exhausted) ==> t.peers != [] && !setup.hasTransit
    ensures var letters := Forwarder.DeadLetters(setup.forwarderCfg, env, at.window, at.setAside, r, t, setup.hasTransit);
      if OutcomeOf(r).WindowClosed? || OutcomeOf(r).PeersExhausted? then |letters| == 1 && letters[0].envelope == env
      else letters == []
  {
  }

  lemma LeavesAlike(setup: Setup, s: State, c: nat, at: Readings, path: Path, t: Forwarder.Attempt, kept: Kept, kept': Kept,
                    order: seq<string>)
    requires c < |s.calls| && SameKept(s, kept) && path.Forwarded? && Transit.Ordered(s.transit, order)
    requires CanEnd(setup, s.calls[c].env, at.window, OutcomeOf(path.result))
    requires path.result == Err(Forwarder.Exhausted) ==> t.peers != [] && !setup.hasTransit
    requires SetAside(setup, s.calls[c].env, at, path, t, kept, kept')
    ensures SameKept(Ended(setup, s, c, OutcomeOf(path.result), order), kept')
  {
    var env := s.calls[c].env;
    LettersFit(setup, env, at, path.result, t);
    var letters := if setup.hasDlq then
                     Forwarder.DeadLetters(setup.forwarderCfg, env, at.window, at.setAside, path.result, t, setup.hasTransit)
                   else [];
    assert kept' == kept.(queue := kept.queue + letters);
    LettersAlike(setup, s, c, OutcomeOf(path.result), order, kept, letters);
  }

  lemma LettersAlike(setup: Setup, s: State, c: nat, outcome: Outcome, order: seq<string>, kept: Kept, letters: seq<Dlq.DlqEntry>)
    requires c < |s.calls| && SameKept(s, kept) && Transit.Ordered(s.transit, order)
    requires outcome.PeersExhausted? ==> !setup.hasTransit
    requires if setup.hasDlq && (outcome.WindowClosed? || outcome.PeersExhausted?) then
               |letters| == 1 && letters[0].envelope == s.calls[c].env
             else letters == []
    ensures SameKept(Ended(setup, s, c, outcome, order), kept.(queue := kept.queue + letters))
  {
    if outcome.WindowClosed? || outcome.PeersExhausted? {
      var answered := s.(calls := Moved(s, c, Answered(Audit.ALLOW)));
      KeptStays(s, answered, kept);
      QueuesAlike(setup, answered, c, kept, letters);
    } else {
      KeptStays(s, Ended(setup, s, c, outcome, order), kept);
    }
  }

  // ---------------------------------------------------------------------------
  // The regions of purge, drain and queue
  // ---------------------------------------------------------------------------

  lemma Purges(setup: Setup, states: seq<State>, steps: seq<Step>, shard: nat, at: Time, now: Time)
      returns (states': seq<State>, steps': seq<Step>)
    requires Run(setup, states, steps) && Last(states).clock <= now && at <= now && |Last(states).shards| == Dedup.NUM_SHARDS
    ensures var s := Later(Last(states), now);
      GoesOn(setup, states, steps, states', steps',
             s.(shards := Dedup.Apply(setup.hash, s.shards, Dedup.Sweep(shard, at, at))))
  {
    states', steps' := Wait(setup, states, steps, now);
    var s := Last(states');
    states', steps' := Take(setup, states', steps', PurgeShard(shard, at),
                            s.(shards := Dedup.Apply(setup.hash, s.shards, Dedup.Sweep(shard, at, s.clock))));
  }

  /** The calls taken out of the buffer but not queued yet are those whose entries the drain holds. */
  ghost predicate SameDrained(calls: seq<Call>, draining: seq<nat>, out: seq<Transit.Entry<Forwarder.Buffered>>) {
    && |draining| == |out|
    && forall i :: 0 <= i < |out| ==> draining[i] < |calls| && calls[draining[i]].env == out[i].item.0
  }

  /** The machine's buffer keeps and gives up the same keys. */
  lemma SameUnexpired(calls: seq<Call>, m: Transit.Buffer<nat>, b: Transit.Buffer<Forwarder.Buffered>, now: Time)
    requires SameBuffer(calls, m, b)
    ensures SameBuffer(calls, Transit.Unexpired(m, now), Transit.Unexpired(b, now))
  {
  }

  ghost function Drained(s: State, keys: seq<string>): State
    requires forall i :: 0 <= i < |keys| ==> keys[i] in s.transit
  {
    s.(transit := Transit.Unexpired(s.transit, s.clock),
       draining := seq(|keys|, i requires 0 <= i < |keys| => s.transit[keys[i]].item))
  }

  lemma Drains(setup: Setup, states: seq<State>, steps: seq<Step>, kept: Kept, out: seq<Transit.Entry<Forwarder.Buffered>>, now: Time)
      returns (states': seq<State>, steps': seq<Step>)
    requires Run(setup, states, steps) && Last(states).clock <= now && SameKept(Last(states), kept) && Last(states).draining == []
    requires Transit.Lists(kept.buffer, kept.buffer.Keys - Transit.Unexpired(kept.buffer, now).Keys, out)
    ensures Run(setup, states', steps') && Continues(states, steps, states', steps')
    ensures var s := Last(states); var s' := Last(states');
      && s' == Later(s, now).(transit := s'.transit, draining := s'.draining)
      && SameKept(s', kept.(buffer := Transit.Unexpired(kept.buffer, now))) && SameDrained(s'.calls, s'.draining, out)
  {
    states', steps' := Wait(setup, states, steps, now);
    var s := Last(states');
    var keys := DrainsAlike(s, kept, out);
    states', steps' := Take(setup, states', steps', Drain(keys), Drained(s, keys));
  }

  /** The keys the components drained, in their order, serve the machine as well. */
  lemma DrainsAlike(s: State, kept: Kept, out: seq<Transit.Entry<Forwarder.Buffered>>) returns (keys: seq<string>)
    requires SameKept(s, kept)
    requires Transit.Lists(kept.buffer, kept.buffer.Keys - Transit.Unexpired(kept.buffer, s.clock).Keys, out)
    ensures Collections.Enumerates(keys, s.transit.Keys - Transit.Unexpired(s.transit, s.clock).Keys)
    ensures var s' := Drained(s, keys);
      && SameKept(s', kept.(buffer := Transit.Unexpired(kept.buffer, s.clock))) && SameDrained(s'.calls, s'.draining, out)
  {
    SameUnexpired(s.calls, s.transit, kept.buffer, s.clock);
    keys :| Collections.Enumerates(keys, kept.buffer.Keys - Transit.Unexpired(kept.buffer, s.clock).Keys) && |out| == |keys|
      && forall i :: 0 <= i < |out| ==> keys[i] in kept.buffer && out[i] == kept.buffer[keys[i]];
  }

  lemma Promotes(setup: Setup, states: seq<State>, steps: seq<Step>, kept: Kept, out: seq<Transit.Entry<Forwarder.Buffered>>,
                 letter: Dlq.DlqEntry)
      returns (states': seq<State>, steps': seq<Step>)
    requires Run(setup, states, steps) && SameKept(Last(states), kept) && out != []
    requires SameDrained(Last(states).calls, Last(states).draining, out) && letter.envelope == out[0].item.0
    ensures Run(setup, states', steps') && Continues(states, steps, states', steps')
    ensures var s := Last(states); var s' := Last(states');
      && s' == s.(dlq := s'.dlq, draining := s'.draining)
      && SameKept(s', kept.(queue := kept.queue + [letter])) && SameDrained(s'.calls, s'.draining, out[1..])
  {
    var s := Last(states);
    states', steps' := Take(setup, states, steps, Promote, s.(draining := s.draining[1..], dlq := s.dlq + [s.draining[0]]));
  }

  lemma DiscardsIt(setup: Setup, states: seq<State>, steps: seq<Step>, kept: Kept, index: int)
      returns (states': seq<State>, steps': seq<Step>)
    requires Run(setup, states, steps) && SameKept(Last(states), kept)
    ensures GoesOn(setup, states, steps, states', steps', Discarded(Last(states), index))
    ensures SameKept(Last(states'), kept.(queue := Dlq.Without(kept.queue, index)))
  {
    DiscardsAlike(Last(states), kept, index);
    states', steps' := Take(setup, states, steps, RemoveDeadLetter(index), Discarded(Last(states), index));
  }

  lemma DiscardsAlike(s: State, kept: Kept, index: int)
    requires SameKept(s, kept)
    ensures SameKept(Discarded(s, index), kept.(queue := Dlq.Without(kept.queue, index)))
  {
  }

  /** A replay has read the letter at `index` and begins to send it again. */
  ghost function Restarted(s: State, index: int): State
    requires 0 <= index < |s.dlq| && s.dlq[index] < |s.calls|
  {
    s.(calls := s.calls + [Call(Normalized(s.calls[s.dlq[index]].env), Started, None)],
       replays := s.replays + [Replay(index, s.dlq[index], |s.calls|, true)])
  }

  lemma Restarts(setup: Setup, states: seq<State>, steps: seq<Step>, kept: Kept, index: int)
      returns (states': seq<State>, steps': seq<Step>)
    requires Run(setup, states, steps) && SameKept(Last(states), kept) && 0 <= index < |kept.queue|
    ensures GoesOn(setup, states, steps, states', steps', Restarted(Last(states), index)) && SameKept(Last(states'), kept)
    ensures Last(states').calls[|Last(states).calls|].env == Normalized(kept.queue[index].envelope)
  {
    states', steps' := Take(setup, states, steps, StartReplay(index), Restarted(Last(states), index));
    KeptStays(Last(states), Last(states'), kept);
  }

  ghost function Finished(s: State, r: nat): State
    requires r < |s.replays|
  {
    Discarded(s, s.replays[r].index).(replays := s.replays[r := s.replays[r].(waiting := false)])
  }

  lemma Finishes(setup: Setup, states: seq<State>, steps: seq<Step>, kept: Kept, r: nat)
      returns (states': seq<State>, steps': seq<Step>)
    requires Run(setup, states, steps) && SameKept(Last(states), kept)
    requires var s := Last(states);
      r < |s.replays| && s.replays[r].waiting && s.replays[r].call < |s.calls| && s.calls[s.replays[r].call].phase.Answered?
    ensures GoesOn(setup, states, steps, states', steps', Finished(Last(states), r))
    ensures SameKept(Last(states'), kept.(queue := Dlq.Without(kept.queue, Last(states).replays[r].index)))
  {
    DiscardsAlike(Last(states), kept, Last(states).replays[r].index);
    states', steps' := Take(setup, states, steps, FinishReplay(r), Finished(Last(states), r));
  }
}

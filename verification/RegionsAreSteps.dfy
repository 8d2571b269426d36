/**
 The components and the machine side by side. Each method takes one locked region of a
 component, of whichever call, and extends an arbitrary run of the machine `Gateway` by its
 step; the machine's last state stands for the components before and after. So every
 interleaving of these regions is a run, and what is proved of all runs holds of them.
 */
module RegionsAreSteps {
  import opened Clock
  import opened Envelopes
  import opened Gateway
  import opened GatewayRegions
  import opened GatewayRuns
  import opened SendEnvelope
  import opened Wrappers
  import Audit
  import Dlq
  import Forwarder
  import Policy
  import Retry
  import SendIsARun
  import Transit

  /** The machine's last state stands for what the gateway's components hold. */
  ghost predicate SideBySide(g: SendingGateway, states: seq<State>, steps: seq<Step>)
    reads g, g.engine, g.audit, g.dedup, g.dedup.shards, g.Holders()
  {
    && g.Valid() && Run(g.Wiring(), states, steps)
    && Represents(Last(states), g.dedup.shards[..], g.audit.entries, g.KeptNow())
  }

  /** The index's region. */
  method Lookup(g: SendingGateway, env: Envelope, now: Time, ghost c: nat, ghost states: seq<State>, ghost steps: seq<Step>)
    returns (seen: bool, ghost states': seq<State>, ghost steps': seq<Step>)
    requires SideBySide(g, states, steps) && Last(states).clock <= now
    requires InPhase(Last(states), c, Started) && Last(states).calls[c].env == env && !env.isDummy
    modifies g.dedup.shards
    ensures SideBySide(g, states', steps') && Continues(states, steps, states', steps')
    ensures Last(states') == LookedUp(g.Wiring(), Later(Last(states), now), c)
    ensures InPhase(Last(states'), c, if seen then FoundDuplicate else Admitted)
  {
    ghost var kept := g.KeptNow();
    seen := g.SeenBefore(env, now);
    states', steps' := LooksUp(g.Wiring(), states, steps, c, now);
    KeptStays(Last(states), Last(states'), kept);
  }

  /** The log's region for a call that goes no further. */
  method Record(g: SendingGateway, env: Envelope, duplicate: bool, now: Time, ghost c: nat, ghost states: seq<State>,
                ghost steps: seq<Step>)
    returns (resp: SendResponse, ghost states': seq<State>, ghost steps': seq<Step>)
    requires SideBySide(g, states, steps) && Last(states).clock <= now
    requires InPhase(Last(states), c, if duplicate then FoundDuplicate else Started)
    requires Last(states).calls[c].env == env && (!duplicate ==> env.isDummy)
    modifies g.audit
    ensures SideBySide(g, states', steps') && Continues(states, steps, states', steps')
    ensures Last(states') == Recorded(g.Wiring(), Later(Last(states), now), c)
  {
    ghost var kept := g.KeptNow();
    if duplicate {
      resp := g.Record(DuplicateEvent(g.cfg, env), Audit.DUPLICATE, "idempotency_key already processed", now);
    } else {
      resp := g.Record(DummyEvent(g.cfg, env), Audit.ALLOW, "DUMMY_TRAFFIC", now);
    }
    states', steps' := RecordsIt(g.Wiring(), states, steps, c, now);
    KeptStays(Last(states), Last(states'), kept);
  }

  /** The log's region for a verdict. The configuration and the revocation store were read before it. */
  method Judge(g: SendingGateway, env: Envelope, now: Time, ghost c: nat, ghost states: seq<State>, ghost steps: seq<Step>)
    returns (verdict: Policy.Verdict, ghost states': seq<State>, ghost steps': seq<Step>)
    requires SideBySide(g, states, steps) && Last(states).clock <= now
    requires InPhase(Last(states), c, Admitted) && Last(states).calls[c].env == env
    modifies g.audit
    ensures SideBySide(g, states', steps') && Continues(states, steps, states', steps')
    ensures verdict == old(g.Verdict(env))
    ensures Last(states') == Judged(g.Wiring(), Later(Last(states), now), c, g.engine.cfg, verdict)
  {
    ghost var kept, revoked := g.KeptNow(), g.engine.Revoked(env.senderNodeId);
    verdict := g.Judge(env, now);
    states', steps' := Judges(g.Wiring(), states, steps, c, g.engine.cfg, revoked, verdict, now);
    SendIsARun.JudgedIs(g.Wiring(), Later(Last(states), now), c, g.engine.cfg, verdict);
    KeptStays(Last(states), Last(states'), kept);
  }

  /** Forwarding, whose one region is where it queues or buffers the envelope. */
  method Forward(g: SendingGateway, env: Envelope, net: Forwarder.Network, cancelled: nat -> bool, start: nat, at: Readings,
                 ghost c: nat, ghost states: seq<State>, ghost steps: seq<Step>)
    returns (r: Result<string, Forwarder.ForwardError>, t: Forwarder.Attempt, ghost states': seq<State>, ghost steps': seq<Step>,
             ghost order: seq<string>)
    requires SideBySide(g, states, steps) && Last(states).clock <= at.setAside && at.window <= at.setAside && g.forwarder != null
    requires InPhase(Last(states), c, Forwarding) && Last(states).calls[c].env == env
    requires CheckedInTime(Later(Last(states), at.setAside), c, at.window)
    modifies g.Holders()
    ensures SideBySide(g, states', steps') && Continues(states, steps, states', steps')
    ensures Forwarder.ComesTo(g.forwarder.cfg, g.forwarder.policy, env, net, cancelled, start, at.window, r, t)
    ensures Transit.Ordered(Last(states).transit, order)
    ensures Last(states') == Ended(g.Wiring(), Later(Last(states), at.setAside), c, OutcomeOf(r), order)
  {
    ghost var kept, shards, log := g.KeptNow(), g.dedup.shards[..], g.audit.entries;
    r, t := g.forwarder.Forward(env, net, cancelled, start, at.window, at.setAside);
    assert g.Valid() && g.dedup.shards[..] == shards && g.audit.entries == log;
    assert SetAside(g.Wiring(), env, at, Forwarded(r), t, kept, g.KeptNow());
    states', steps', order := ForwardAlong(g.Wiring(), g.forwarder.policy, states, steps, c, env, net, cancelled, start, at, r, t,
                                           kept, g.KeptNow());
  }

  lemma ForwardAlong(setup: Setup, p: Retry.RetryPolicy, states: seq<State>, steps: seq<Step>, c: nat, env: Envelope,
                     net: Forwarder.Network, cancelled: nat -> bool, start: nat, at: Readings,
                     r: Result<string, Forwarder.ForwardError>, t: Forwarder.Attempt, kept: Kept, kept': Kept)
      returns (states': seq<State>, steps': seq<Step>, order: seq<string>)
    requires Run(setup, states, steps) && Last(states).clock <= at.setAside && at.window <= at.setAside
    requires InPhase(Last(states), c, Forwarding) && Last(states).calls[c].env == env
    requires CheckedInTime(Later(Last(states), at.setAside), c, at.window)
    requires Forwarder.ComesTo(setup.forwarderCfg, p, env, net, cancelled, start, at.window, r, t)
    requires SameKept(Last(states), kept) && SetAside(setup, env, at, Forwarded(r), t, kept, kept')
    ensures Transit.Ordered(Last(states).transit, order)
    ensures GoesOn(setup, states, steps, states', steps',
                   Ended(setup, Later(Last(states), at.setAside), c, OutcomeOf(r), order))
    ensures SameKept(Last(states'), kept') && Last(states').shards == Last(states).shards && Last(states').log == Last(states).log
  {
    var s := Later(Last(states), at.setAside);
    SendIsARun.ComesToFits(setup, p, env, net, cancelled, start, at, Forwarded(r), t);
    KeptStays(Last(states), s, kept);
    order := EndsAlike(setup, s, c, at, Forwarded(r), t, kept, kept');
    states', steps' := Ends(setup, states, steps, c, OutcomeOf(r), order, at.window, at.setAside);
    SendIsARun.EndedIs(setup, s, c, Forwarded(r), order);
  }

  /** The log's region for a finality entry. */
  method Settle(g: SendingGateway, env: Envelope, now: Time, ghost c: nat, ghost states: seq<State>, ghost steps: seq<Step>)
    returns (ghost states': seq<State>, ghost steps': seq<Step>)
    requires SideBySide(g, states, steps) && Last(states).clock <= now
    requires InPhase(Last(states), c, Settling) && Last(states).calls[c].env == env
    modifies g.audit
    ensures SideBySide(g, states', steps') && Continues(states, steps, states', steps')
    ensures Last(states') == Settled(g.Wiring(), Later(Last(states), now), c)
  {
    ghost var kept := g.KeptNow();
    var _ := g.audit.AppendFinality(g.cfg, env.senderRegion, env.recipientRegion, env.schemaVersion, UnixMilli(now));
    states', steps' := SettlesIt(g.Wiring(), states, steps, c, now);
    KeptStays(Last(states), Last(states'), kept);
  }

  /** The region of a purge on one shard, which compares against the older reading `at`. */
  method PurgeShard(g: SendingGateway, shard: nat, at: Time, now: Time, ghost states: seq<State>, ghost steps: seq<Step>)
    returns (ghost states': seq<State>, ghost steps': seq<Step>)
    requires SideBySide(g, states, steps) && Last(states).clock <= now && at <= now && shard < |g.dedup.shards[..]|
    modifies g.dedup.shards
    ensures SideBySide(g, states', steps') && Continues(states, steps, states', steps')
    ensures Last(states').calls == Last(states).calls
  {
    ghost var kept := g.KeptNow();
    g.dedup.PurgeShard(shard, at);
    states', steps' := Purges(g.Wiring(), states, steps, shard, at, now);
    KeptStays(Last(states), Last(states'), kept);
  }

  /** The buffer's region of a drain. */
  method Drain(g: SendingGateway, now: Time, ghost states: seq<State>, ghost steps: seq<Step>)
    returns (out: seq<Transit.Entry<Forwarder.Buffered>>, ghost states': seq<State>, ghost steps': seq<Step>)
    requires SideBySide(g, states, steps) && Last(states).clock <= now && Last(states).draining == []
    requires g.forwarder != null && g.forwarder.transitCache != null
    modifies g.forwarder.transitCache
    ensures SideBySide(g, states', steps') && Continues(states, steps, states', steps')
    ensures Last(states').calls == Last(states).calls && SameDrained(Last(states').calls, Last(states').draining, out)
  {
    ghost var setup, kept, shards, log := g.Wiring(), g.KeptNow(), g.dedup.shards[..], g.audit.entries;
    out := TakeOut(g, now);
    assert g.Valid() && g.dedup.shards[..] == shards && g.audit.entries == log;
    states', steps' := Drains(setup, states, steps, kept, out, now);
  }

  /** The drain of the buffer, on values. */
  method TakeOut(g: SendingGateway, now: Time) returns (out: seq<Transit.Entry<Forwarder.Buffered>>)
    requires g.forwarder != null && g.forwarder.transitCache != null
    modifies g.forwarder.transitCache
    ensures g.KeptNow() == old(g.KeptNow()).(buffer := Transit.Unexpired(old(g.KeptNow()).buffer, now))
    ensures var b := old(g.KeptNow()).buffer; Transit.Lists(b, b.Keys - Transit.Unexpired(b, now).Keys, out)
  {
    out := g.forwarder.transitCache.Drain(now);
  }

  /** The queue's region of a drain, for the first of the entries it still holds. */
  method Promote(g: SendingGateway, out: seq<Transit.Entry<Forwarder.Buffered>>, nowUnix: int, ghost states: seq<State>,
                 ghost steps: seq<Step>)
    returns (rest: seq<Transit.Entry<Forwarder.Buffered>>, ghost states': seq<State>, ghost steps': seq<Step>)
    requires SideBySide(g, states, steps) && out != [] && SameDrained(Last(states).calls, Last(states).draining, out)
    requires g.forwarder != null && g.forwarder.dlq != null
    modifies g.forwarder.dlq
    ensures SideBySide(g, states', steps') && Continues(states, steps, states', steps') && rest == out[1..]
    ensures Last(states').calls == Last(states).calls && SameDrained(Last(states').calls, Last(states').draining, rest)
  {
    ghost var kept := g.KeptNow();
    var letter := Forwarder.NoEntry().(envelope := out[0].item.0, peerAddr := out[0].item.1);
    g.forwarder.dlq.Append(letter, nowUnix);
    rest := out[1..];
    assert g.KeptNow() == kept.(queue := kept.queue + [Dlq.Stamped(letter, nowUnix)]);
    states', steps' := Promotes(g.Wiring(), states, steps, kept, out, Dlq.Stamped(letter, nowUnix));
  }

  /** The queue's region of a discard. */
  method Discard(g: SendingGateway, index: int, ghost states: seq<State>, ghost steps: seq<Step>)
    returns (ghost states': seq<State>, ghost steps': seq<Step>)
    requires SideBySide(g, states, steps) && g.forwarder != null && g.forwarder.dlq != null
    modifies g.forwarder.dlq
    ensures SideBySide(g, states', steps') && Continues(states, steps, states', steps')
    ensures Last(states') == Discarded(Last(states), index)
  {
    ghost var kept := g.KeptNow();
    g.forwarder.dlq.Remove(index);
    assert g.KeptNow() == kept.(queue := Dlq.Without(kept.queue, index));
    states', steps' := DiscardsIt(g.Wiring(), states, steps, kept, index);
  }

  /** The region in which a replay reads its letter. */
  method StartReplay(g: SendingGateway, index: int, ghost states: seq<State>, ghost steps: seq<Step>)
    returns (request: Option<Envelope>, ghost states': seq<State>, ghost steps': seq<Step>)
    requires SideBySide(g, states, steps) && g.forwarder != null && g.forwarder.dlq != null
    ensures SideBySide(g, states', steps') && Continues(states, steps, states', steps')
    ensures request.Some? <==> 0 <= index < |g.forwarder.dlq.entries|
    ensures request.Some? ==>
              && 0 <= index < |Last(states).dlq| && Last(states).dlq[index] < |Last(states).calls|
              && Last(states') == Restarted(Last(states), index)
              && Last(states').calls[|Last(states).calls|].env == Normalized(request.value)
  {
    states', steps' := states, steps;
    var entries := g.forwarder.dlq.entries;
    if index < 0 || index >= |entries| {
      return None, states', steps';
    }
    request := Some(entries[index].envelope);
    states', steps' := Restarts(g.Wiring(), states, steps, g.KeptNow(), index);
  }

  /** The region in which it removes whatever is there when its call has been answered. */
  method FinishReplay(g: SendingGateway, index: int, ghost r: nat, ghost states: seq<State>, ghost steps: seq<Step>)
    returns (ghost states': seq<State>, ghost steps': seq<Step>)
    requires SideBySide(g, states, steps) && g.forwarder != null && g.forwarder.dlq != null
    requires var s := Last(states);
      && r < |s.replays| && s.replays[r].waiting && s.replays[r].index == index
      && s.replays[r].call < |s.calls| && s.calls[s.replays[r].call].phase.Answered?
    modifies g.forwarder.dlq
    ensures SideBySide(g, states', steps') && Continues(states, steps, states', steps')
    ensures Last(states') == Finished(Last(states), r)
  {
    ghost var kept := g.KeptNow();
    g.forwarder.dlq.Remove(index);
    assert g.KeptNow() == kept.(queue := Dlq.Without(kept.queue, index));
    states', steps' := Finishes(g.Wiring(), states, steps, kept, r);
  }
}

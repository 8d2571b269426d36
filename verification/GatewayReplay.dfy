/**
 Replay of dead letters (internal/server/http.go): when an envelope sent again survives, and
 which dead letter the replay removes afterwards.
 */
module GatewayReplay {
  import opened Collections
  import opened Gateway
  import opened GatewayLedger
  import Audit
  import GatewayDedup
  import Policy
  import Transit

  // ---------------------------------------------------------------------------
  // Staying safe
  // ---------------------------------------------------------------------------

  /** The envelope of call d is with the peer, or kept somewhere. */
  ghost predicate Safe(s: State, d: nat) {
    d in s.delivered || InTransit(s.transit, d) || d in s.draining || d in s.dlq
  }

  ghost predicate DiscardsAt(s: State, step: Step, index: int) {
    IsDiscard(step) && DiscardIndex(s, step) == index && 0 <= index < |s.dlq|
  }

  ghost predicate Discards(s: State, step: Step, d: nat) {
    exists index :: DiscardsAt(s, step, index) && s.dlq[index] == d
  }

  /** The step puts another call into the buffer, and call d out of it. */
  ghost predicate PutsOut(setup: Setup, s: State, step: Step, d: nat) {
    && step.Forward? && step.outcome.PeersExhausted? && setup.hasTransit && step.c < |s.calls|
    && (forall i :: 0 <= i < |step.order| ==> step.order[i] in s.transit)
    && (|| PushedOut(s.transit, step.order, d)
        || Under(Transit.MakeRoom(s.transit, step.order), s.calls[step.c].env.idempotencyKey, d))
  }

  ghost predicate Displaces(setup: Setup, s: State, step: Step, d: nat) {
    Discards(s, step, d) || PutsOut(setup, s, step, d)
  }

  /** Forwarding that leaves the envelope in a safe place. */
  predicate KeptBy(setup: Setup, outcome: Outcome) {
    match outcome
    case Delivered => true
    case WindowClosed => setup.hasDlq
    case NoPeerFound => false
    case PeersExhausted => setup.hasTransit || setup.hasDlq
  }

  /** For a ledger in order, safe is: allowed, no longer in the forwarder's hands, and not lost. */
  lemma SafeIff(s: State, d: nat)
    requires Inv(s)
    ensures Safe(s, d) <==> d in s.allowed && !InPhase(s, d, Forwarding) && d !in s.lost
  {
    assert Places(s, d) == One(d in s.allowed);
  }

  lemma DiscardedSafe(s: State, index: int, d: nat)
    requires Inv(s)
    ensures Safe(Discarded(s, index), d) <==> Safe(s, d) && !(0 <= index < |s.dlq| && s.dlq[index] == d)
  {
    DiscardKeepsInv(s, index);
    SafeIff(s, d);
    SafeIff(Discarded(s, index), d);
    if 0 <= index < |s.dlq| {
      assert s.dlq[index] in s.dlq;
    }
  }

  lemma DiscardKeepsSafe(setup: Setup, s: State, s': State, step: Step, d: nat)
    requires Inv(s) && IsDiscard(step) && Next(setup, s, s', step)
    ensures Safe(s', d) <==> Safe(s, d) && !Displaces(setup, s, step, d)
  {
    var index := DiscardIndex(s, step);
    assert s' == Discarded(s, index).(replays := s'.replays);
    DiscardedSafe(s, index, d);
    assert DiscardsAt(s, step, index) <==> 0 <= index < |s.dlq|;
  }

  lemma ForwardKeepsSafe(setup: Setup, s: State, s': State, step: Step, d: nat)
    requires Inv(s) && step.Forward? && step.c != d && Next(setup, s, s', step)
    ensures Safe(s', d) <==> Safe(s, d) && !Displaces(setup, s, step, d)
  {
    ForwardKeepsInv(setup, s, s', step);
    ForwardMoves(setup, s, s', step);
    SafeIff(s, d);
    SafeIff(s', d);
    ForwardLosesOthers(setup, s, s', step, d);
    assert Displaces(setup, s, step, d) <==> PutsOut(setup, s, step, d);
    if PutsOut(setup, s, step, d) {
      PutOutWasBuffered(s.transit, step.order, s.calls[step.c].env.idempotencyKey, d);
    }
  }

  lemma PutOutWasBuffered(m: Transit.Buffer<nat>, order: seq<string>, key: string, d: nat)
    requires forall i :: 0 <= i < |order| ==> order[i] in m
    requires PushedOut(m, order, d) || Under(Transit.MakeRoom(m, order), key, d)
    ensures InTransit(m, d)
  {
    if Under(Transit.MakeRoom(m, order), key, d) {
      assert key in m && m[key].item == d;
    }
  }

  lemma ForwardLosesOthers(setup: Setup, s: State, s': State, step: Step, d: nat)
    requires step.Forward? && step.c != d && Next(setup, s, s', step)
    ensures s'.allowed == s.allowed && (d in s'.lost <==> d in s.lost || PutsOut(setup, s, step, d))
  {
    if step.outcome.PeersExhausted? && setup.hasTransit {
      BufferingLoses(setup, s, s', step);
      LossesOfPut(s, s.calls[step.c].env.idempotencyKey, step.order);
    } else {
      ForwardLeaves(setup, s, s', step);
    }
  }

  lemma BufferingLoses(setup: Setup, s: State, s': State, step: Step)
    requires step.Forward? && step.outcome.PeersExhausted? && setup.hasTransit && Next(setup, s, s', step)
    ensures s'.allowed == s.allowed && step.c < |s.calls| && forall i :: 0 <= i < |step.order| ==> step.order[i] in s.transit
    ensures s'.lost == PutLosses(s.transit, s.lost, s.calls[step.c].env.idempotencyKey, step.order)
  {
  }

  lemma OtherKeepsSafe(setup: Setup, s: State, s': State, step: Step, d: nat)
    requires Inv(s) && !step.Forward? && !IsDiscard(step) && Next(setup, s, s', step)
    ensures Safe(s', d) <==> Safe(s, d)
  {
    NextKeepsInv(setup, s, s', step);
    SafeIff(s, d);
    SafeIff(s', d);
    SameLosses(setup, s, s', step, d);
  }

  /** Other steps only allow, hand over to the forwarder, or lose a call that is not safe. */
  lemma SameLosses(setup: Setup, s: State, s': State, step: Step, d: nat)
    requires Inv(s) && !step.Forward? && !IsDiscard(step) && Next(setup, s, s', step)
    ensures d in s'.allowed && !InPhase(s', d, Forwarding) && d !in s'.lost
       <==> d in s.allowed && !InPhase(s, d, Forwarding) && d !in s.lost
  {
  }

  lemma StepKeepsSafe(setup: Setup, s: State, s': State, step: Step, d: nat)
    requires Inv(s) && Next(setup, s, s', step) && !(step.Forward? && step.c == d)
    ensures Safe(s', d) <==> Safe(s, d) && !Displaces(setup, s, step, d)
  {
    if step.Forward? {
      ForwardKeepsSafe(setup, s, s', step, d);
    } else if IsDiscard(step) {
      DiscardKeepsSafe(setup, s, s', step, d);
    } else {
      OtherKeepsSafe(setup, s, s', step, d);
    }
  }

  lemma ForwardMakesSafe(setup: Setup, s: State, s': State, step: Step)
    requires Inv(s) && step.Forward? && Next(setup, s, s', step)
    ensures !Safe(s, step.c) && (Safe(s', step.c) <==> KeptBy(setup, step.outcome))
  {
    SafeIff(s, step.c);
    ForwardKeepsInv(setup, s, s', step);
    ForwardMoves(setup, s, s', step);
    SafeIff(s', step.c);
    ForwardLoses(setup, s, s', step);
  }

  lemma ForwardLoses(setup: Setup, s: State, s': State, step: Step)
    requires Inv(s) && step.Forward? && Next(setup, s, s', step)
    ensures step.c in s.allowed && s'.allowed == s.allowed && (step.c in s'.lost <==> !KeptBy(setup, step.outcome))
  {
    ForwardMoves(setup, s, s', step);
    assert Places(s, step.c) == One(step.c in s.allowed);
    if step.outcome.PeersExhausted? && setup.hasTransit {
      var key := s.calls[step.c].env.idempotencyKey;
      BufferingLoses(setup, s, s', step);
      LossesOfPut(s, key, step.order);
      if step.c in s'.lost {
        PutOutWasBuffered(s.transit, step.order, key, step.c);
      }
    } else {
      LeavingLoses(setup, s, s', step);
    }
  }

  lemma LeavingLoses(setup: Setup, s: State, s': State, step: Step)
    requires step.Forward? && !(step.outcome.PeersExhausted? && setup.hasTransit) && Next(setup, s, s', step)
    ensures s'.allowed == s.allowed && (step.c in s'.lost <==> step.c in s.lost || !KeptBy(setup, step.outcome))
  {
  }

  // ---------------------------------------------------------------------------
  // What made a call safe
  // ---------------------------------------------------------------------------

  /** Step j displaced call d. */
  ghost predicate Displaced(setup: Setup, states: seq<State>, steps: seq<Step>, j: nat, d: nat)
    requires j < |states| && j < |steps|
  {
    Displaces(setup, states[j], steps[j], d)
  }

  /** Step k looked call d up and its key was not held. */
  ghost predicate FreeAt(states: seq<State>, steps: seq<Step>, d: nat, k: nat)
    requires |states| == |steps| + 1
  {
    && k < |steps| && steps[k] == CheckDuplicate(d) && d < |states[k].calls|
    && !GatewayDedup.Held(states[k], states[k].calls[d].env.idempotencyKey)
  }

  /** Step e evaluated call d, and the verdict was ALLOW. */
  ghost predicate AllowedAt(states: seq<State>, steps: seq<Step>, d: nat, e: nat)
    requires |states| == |steps| + 1
  {
    && e < |steps| && steps[e].Evaluate? && steps[e].c == d && d < |states[e].calls|
    && Policy.Decide(steps[e].engineCfg, steps[e].revoked, RequestOf(states[e].calls[d].env)).decision == Audit.ALLOW
  }

  ghost predicate CameThrough(states: seq<State>, steps: seq<Step>, d: nat, n: nat)
    requires |states| == |steps| + 1
  {
    exists k: nat, e: nat :: k < e < n && FreeAt(states, steps, d, k) && AllowedAt(states, steps, d, e)
  }

  /** Step f forwarded call d to a safe place, and no step from f to n displaced it. */
  ghost predicate KeptSince(setup: Setup, states: seq<State>, steps: seq<Step>, d: nat, n: nat, f: nat)
    requires |states| == |steps| + 1 && n <= |steps|
  {
    && f < n && steps[f].Forward? && steps[f].c == d && KeptBy(setup, steps[f].outcome)
    && CameThrough(states, steps, d, f)
    && forall j :: f < j < n ==> !Displaced(setup, states, steps, j, d)
  }

  ghost predicate Kept(setup: Setup, states: seq<State>, steps: seq<Step>, d: nat, n: nat)
    requires |states| == |steps| + 1 && n <= |steps|
  {
    exists f: nat :: KeptSince(setup, states, steps, d, n, f)
  }

  /** Only an ALLOW verdict hands a call to the forwarder ... */
  lemma ForwardingEntered(setup: Setup, s: State, s': State, step: Step, d: nat)
    requires Next(setup, s, s', step) && InPhase(s', d, Forwarding) && !InPhase(s, d, Forwarding)
    ensures step.Evaluate? && step.c == d && InPhase(s, d, Admitted)
    ensures Policy.Decide(step.engineCfg, step.revoked, RequestOf(s.calls[d].env)).decision == Audit.ALLOW
  {
  }

  /** ... and only the index lets one in. */
  lemma AdmittedEntered(setup: Setup, s: State, s': State, step: Step, d: nat)
    requires Next(setup, s, s', step) && InPhase(s', d, Admitted) && !InPhase(s, d, Admitted)
    ensures step == CheckDuplicate(d) && d < |s.calls|
  {
  }

  lemma {:induction false} AdmittedWasFree(setup: Setup, states: seq<State>, steps: seq<Step>, d: nat, n: nat) returns (k: nat)
    requires Run(setup, states, steps) && n <= |steps| && InPhase(states[n], d, Admitted)
    ensures k < n && FreeAt(states, steps, d, k)
  {
    if InPhase(states[n - 1], d, Admitted) {
      k := AdmittedWasFree(setup, states, steps, d, n - 1);
    } else {
      AdmittedEntered(setup, states[n - 1], states[n], steps[n - 1], d);
      k := n - 1;
      RunPrefix(setup, states, steps, k);
      GatewayDedup.LetThroughIffNotHeld(setup, states[..n], steps[..k], d, states[n]);
    }
  }

  lemma {:induction false} ForwardingCameThrough(setup: Setup, states: seq<State>, steps: seq<Step>, d: nat, n: nat)
    requires Run(setup, states, steps) && n <= |steps| && InPhase(states[n], d, Forwarding)
    ensures CameThrough(states, steps, d, n)
  {
    if InPhase(states[n - 1], d, Forwarding) {
      ForwardingCameThrough(setup, states, steps, d, n - 1);
    } else {
      ForwardingEntered(setup, states[n - 1], states[n], steps[n - 1], d);
      var k := AdmittedWasFree(setup, states, steps, d, n - 1);
      assert AllowedAt(states, steps, d, n - 1);
    }
  }

  /**
   At every moment of every run, the envelope of a call is safe if and only if its key was
   not held when it was looked up, the verdict was ALLOW, forwarding delivered, buffered or
   queued it, and no later step evicted, overwrote or discarded it.
   */
  lemma {:induction false} SafeIffKept(setup: Setup, states: seq<State>, steps: seq<Step>, d: nat, n: nat)
    requires Run(setup, states, steps) && n <= |steps|
    ensures Safe(states[n], d) <==> Kept(setup, states, steps, d, n)
  {
    if n > 0 {
      var s, s', step := states[n - 1], states[n], steps[n - 1];
      SafeIffKept(setup, states, steps, d, n - 1);
      RunKeepsInv(setup, states, steps, n - 1);
      if step.Forward? && step.c == d {
        ForwardMakesSafe(setup, s, s', step);
        ForwardMoves(setup, s, s', step);
        ForwardingCameThrough(setup, states, steps, d, n - 1);
        KeptNow(setup, states, steps, d, n);
      } else {
        StepKeepsSafe(setup, s, s', step, d);
        KeptStill(setup, states, steps, d, n);
      }
    } else {
      assert !Safe(states[0], d);
    }
  }

  lemma KeptNow(setup: Setup, states: seq<State>, steps: seq<Step>, d: nat, n: nat)
    requires |states| == |steps| + 1 && 0 < n <= |steps| && steps[n - 1].Forward? && steps[n - 1].c == d
    requires CameThrough(states, steps, d, n - 1) && !Kept(setup, states, steps, d, n - 1)
    ensures Kept(setup, states, steps, d, n) <==> KeptBy(setup, steps[n - 1].outcome)
  {
    if f: nat :| KeptSince(setup, states, steps, d, n, f) {
      if f < n - 1 {
        assert KeptSince(setup, states, steps, d, n - 1, f);
      }
    }
    if KeptBy(setup, steps[n - 1].outcome) {
      assert KeptSince(setup, states, steps, d, n, n - 1);
    }
  }

  lemma KeptStill(setup: Setup, states: seq<State>, steps: seq<Step>, d: nat, n: nat)
    requires |states| == |steps| + 1 && 0 < n <= |steps| && !(steps[n - 1].Forward? && steps[n - 1].c == d)
    ensures Kept(setup, states, steps, d, n) <==>
              Kept(setup, states, steps, d, n - 1) && !Displaced(setup, states, steps, n - 1, d)
  {
    if f: nat :| KeptSince(setup, states, steps, d, n, f) {
      assert KeptSince(setup, states, steps, d, n - 1, f);
    }
    var m := n - 1;
    if f: nat :| KeptSince(setup, states, steps, d, m, f) {
      assert !Displaced(setup, states, steps, m, d) ==> KeptSince(setup, states, steps, d, n, f);
    }
  }

  // ---------------------------------------------------------------------------
  // Which dead letter a replay removes
  // ---------------------------------------------------------------------------

  /** The step removes a dead letter at or below `index`. */
  ghost predicate DiscardsUpTo(s: State, step: Step, index: int) {
    IsDiscard(step) && 0 <= DiscardIndex(s, step) <= index && DiscardIndex(s, step) < |s.dlq|
  }

  /** Step j removed a dead letter at or below `index`. */
  ghost predicate DiscardedUpTo(states: seq<State>, steps: seq<Step>, j: nat, index: int)
    requires j < |states| && j < |steps|
  {
    DiscardsUpTo(states[j], steps[j], index)
  }

  ghost predicate QueuedAt(s: State, c: nat, index: int) {
    0 <= index < |s.dlq| && s.dlq[index] == c
  }

  /** Call c was queued once, and is not at `index` or behind it any more. */
  ghost predicate QueuedBelow(s: State, c: nat, index: int) {
    (c in s.dlq || c in s.lost) && forall p :: index <= p < |s.dlq| && 0 <= p ==> s.dlq[p] != c
  }

  /** Other steps only append to the queue, and what they append was in other hands before. */
  lemma QueueGrows(setup: Setup, s: State, s': State, step: Step)
    requires !IsDiscard(step) && Next(setup, s, s', step)
    ensures |s.dlq| <= |s'.dlq| && s.dlq == s'.dlq[..|s.dlq|]
    ensures forall p :: |s.dlq| <= p < |s'.dlq| ==> InPhase(s, s'.dlq[p], Forwarding) || s'.dlq[p] in s.draining
    ensures forall c :: c in s.lost ==> c in s'.lost
  {
  }

  lemma DiscardShrinks(setup: Setup, s: State, s': State, step: Step)
    requires IsDiscard(step) && Next(setup, s, s', step)
    ensures s'.dlq == Discarded(s, DiscardIndex(s, step)).dlq && s'.lost == Discarded(s, DiscardIndex(s, step)).lost
  {
  }

  lemma StaysQueuedAt(setup: Setup, s: State, s': State, step: Step, c: nat, index: int)
    requires Inv(s) && Next(setup, s, s', step) && QueuedAt(s, c, index)
    ensures if DiscardsUpTo(s, step, index) then QueuedBelow(s', c, index) else QueuedAt(s', c, index)
  {
    if IsDiscard(step) {
      DiscardShrinks(setup, s, s', step);
      DiscardMoves(s, DiscardIndex(s, step), c, index);
    } else {
      QueueGrows(setup, s, s', step);
    }
  }

  lemma DiscardMoves(s: State, at: int, c: nat, index: int)
    requires Inv(s) && QueuedAt(s, c, index)
    ensures var s' := Discarded(s, at);
      if 0 <= at <= index && at < |s.dlq| then QueuedBelow(s', c, index) else QueuedAt(s', c, index)
  {
    if 0 <= at < index {
      assert Discarded(s, at).dlq[index - 1] == c;
    }
  }

  lemma StaysQueuedBelow(setup: Setup, s: State, s': State, step: Step, c: nat, index: int)
    requires Inv(s) && Next(setup, s, s', step) && QueuedBelow(s, c, index) && index >= 0
    ensures QueuedBelow(s', c, index)
  {
    if IsDiscard(step) {
      DiscardShrinks(setup, s, s', step);
      DiscardKeepsBelow(s, DiscardIndex(s, step), c, index);
    } else {
      QueueGrows(setup, s, s', step);
      GrowthKeepsBelow(s, s', c, index);
    }
  }

  lemma GrowthKeepsBelow(s: State, s': State, c: nat, index: int)
    requires Inv(s) && QueuedBelow(s, c, index) && index >= 0 && |s.dlq| <= |s'.dlq| && s.dlq == s'.dlq[..|s.dlq|]
    requires forall p :: |s.dlq| <= p < |s'.dlq| ==> InPhase(s, s'.dlq[p], Forwarding) || s'.dlq[p] in s.draining
    requires forall x :: x in s.lost ==> x in s'.lost
    ensures QueuedBelow(s', c, index)
  {
    assert Places(s, c) == One(c in s.allowed);
    if c in s.dlq {
      var p :| 0 <= p < |s.dlq| && s.dlq[p] == c;
      assert s'.dlq[p] == c;
    }
  }

  lemma DiscardKeepsBelow(s: State, at: int, c: nat, index: int)
    requires Inv(s) && QueuedBelow(s, c, index) && index >= 0
    ensures QueuedBelow(Discarded(s, at), c, index)
  {
    var s' := Discarded(s, at);
    if c in s.dlq && 0 <= at < |s.dlq| {
      var p :| 0 <= p < |s.dlq| && s.dlq[p] == c;
      assert p < index;
      assert p < at ==> s'.dlq[p] == c;
      assert p > at ==> s'.dlq[p - 1] == c;
    }
  }

  /** From when it is read to when the removal comes, a letter keeps its place ... */
  lemma {:induction false} KeepsPlace(setup: Setup, states: seq<State>, steps: seq<Step>, a: nat, n: nat, c: nat, index: int)
    requires Run(setup, states, steps) && a <= n <= |steps| && QueuedAt(states[a], c, index)
    requires forall j :: a <= j < n ==> !DiscardedUpTo(states, steps, j, index)
    ensures QueuedAt(states[n], c, index)
  {
    if a < n {
      KeepsPlace(setup, states, steps, a, n - 1, c, index);
      RunKeepsInv(setup, states, steps, n - 1);
      assert !DiscardedUpTo(states, steps, n - 1, index);
      StaysQueuedAt(setup, states[n - 1], states[n], steps[n - 1], c, index);
    }
  }

  /** ... unless one at or below it is removed, and then never comes back to it. */
  lemma LosesPlace(setup: Setup, states: seq<State>, steps: seq<Step>, a: nat, j: nat, n: nat, c: nat, index: int)
    requires Run(setup, states, steps) && a <= j < n <= |steps| && QueuedAt(states[a], c, index)
    requires DiscardedUpTo(states, steps, j, index)
    requires forall i :: a <= i < j ==> !DiscardedUpTo(states, steps, i, index)
    ensures QueuedBelow(states[n], c, index)
  {
    KeepsPlace(setup, states, steps, a, j, c, index);
    DropsBelow(setup, states, steps, j, c, index);
    StaysBelow(setup, states, steps, j + 1, n, c, index);
  }

  lemma DropsBelow(setup: Setup, states: seq<State>, steps: seq<Step>, j: nat, c: nat, index: int)
    requires Run(setup, states, steps) && j < |steps| && QueuedAt(states[j], c, index) && DiscardedUpTo(states, steps, j, index)
    ensures QueuedBelow(states[j + 1], c, index)
  {
    RunKeepsInv(setup, states, steps, j);
    StaysQueuedAt(setup, states[j], states[j + 1], steps[j], c, index);
  }

  lemma {:induction false} StaysBelow(setup: Setup, states: seq<State>, steps: seq<Step>, j: nat, n: nat, c: nat, index: int)
    requires Run(setup, states, steps) && j <= n <= |steps| && QueuedBelow(states[j], c, index) && index >= 0
    ensures QueuedBelow(states[n], c, index)
  {
    if j < n {
      StaysBelow(setup, states, steps, j, n - 1, c, index);
      BelowOneMore(setup, states, steps, n - 1, c, index);
    }
  }

  lemma BelowOneMore(setup: Setup, states: seq<State>, steps: seq<Step>, j: nat, c: nat, index: int)
    requires Run(setup, states, steps) && j < |steps| && QueuedBelow(states[j], c, index) && index >= 0
    ensures QueuedBelow(states[j + 1], c, index)
  {
    RunKeepsInv(setup, states, steps, j);
    StaysQueuedBelow(setup, states[j], states[j + 1], steps[j], c, index);
  }

  /** The first step from a on that removes a letter at or below `index`. */
  lemma {:induction false} FirstDiscard(states: seq<State>, steps: seq<Step>, a: nat, n: nat, index: int) returns (j: nat)
    requires |states| == |steps| + 1 && a <= n <= |steps|
    requires exists i :: a <= i < n && DiscardedUpTo(states, steps, i, index)
    ensures a <= j < n && DiscardedUpTo(states, steps, j, index)
    ensures forall i :: a <= i < j ==> !DiscardedUpTo(states, steps, i, index)
    decreases n - a
  {
    if DiscardedUpTo(states, steps, a, index) {
      j := a;
    } else {
      j := FirstDiscard(states, steps, a + 1, n, index);
    }
  }

  // ---------------------------------------------------------------------------
  // The replay
  // ---------------------------------------------------------------------------

  lemma ReplaysStay(setup: Setup, s: State, s': State, step: Step, r: nat)
    requires Next(setup, s, s', step) && r < |s.replays|
    ensures r < |s'.replays| && s'.replays[r] == s.replays[r].(waiting := s'.replays[r].waiting)
  {
  }

  lemma {:induction false} ReplayRecorded(setup: Setup, states: seq<State>, steps: seq<Step>, a: nat, n: nat)
    requires Run(setup, states, steps) && a < n <= |steps| && steps[a].StartReplay?
    ensures var r := |states[a].replays|;
      && r < |states[n].replays| && states[n].replays[r].index == steps[a].index
      && QueuedAt(states[a], states[n].replays[r].letter, steps[a].index)
      && states[n].replays[r].call == |states[a].calls|
  {
    if n > a + 1 {
      ReplayRecorded(setup, states, steps, a, n - 1);
      ReplaysStay(setup, states[n - 1], states[n], steps[n - 1], |states[a].replays|);
    } else {
      assert Next(setup, states[a], states[n], steps[a]);
    }
  }

  /** A replay from step a, where letter c was read at `index` and call d made of it, to its removal at step m. */
  ghost predicate Replays(setup: Setup, states: seq<State>, steps: seq<Step>, a: nat, m: nat, index: int, c: nat, d: nat) {
    && Run(setup, states, steps) && a < m < |steps|
    && steps[a] == StartReplay(index) && steps[m] == FinishReplay(|states[a].replays|)
    && QueuedAt(states[a], c, index) && d == |states[a].calls|
  }

  /**
   The dead letter a replay removes is the one it sent again if and only if no other step
   meanwhile removed a dead letter at or below its position.
   */
  lemma RemovesItsOwnLetterIff(setup: Setup, states: seq<State>, steps: seq<Step>, a: nat, m: nat, index: int, c: nat, d: nat)
    requires Replays(setup, states, steps, a, m, index, c, d)
    ensures Discards(states[m], steps[m], c) <==> forall j :: a < j < m ==> !DiscardedUpTo(states, steps, j, index)
  {
    ReplayRecorded(setup, states, steps, a, m);
    assert !DiscardedUpTo(states, steps, a, index);
    if forall j :: a < j < m ==> !DiscardedUpTo(states, steps, j, index) {
      KeepsPlace(setup, states, steps, a, m, c, index);
      assert DiscardsAt(states[m], steps[m], index);
    } else {
      var j := FirstDiscard(states, steps, a, m, index);
      LosesPlace(setup, states, steps, a, j, m, c, index);
    }
  }

  /** A call that forwarding is done with. */
  ghost predicate Handled(s: State, c: nat) {
    c in s.allowed && !InPhase(s, c, Forwarding)
  }

  lemma {:induction false} StaysHandled(setup: Setup, states: seq<State>, steps: seq<Step>, a: nat, n: nat, c: nat)
    requires Run(setup, states, steps) && a <= n <= |steps| && Handled(states[a], c)
    ensures Handled(states[n], c)
  {
    if a < n {
      StaysHandled(setup, states, steps, a, n - 1, c);
      HandledOneMore(setup, states, steps, n - 1, c);
    }
  }

  lemma HandledOneMore(setup: Setup, states: seq<State>, steps: seq<Step>, j: nat, c: nat)
    requires Run(setup, states, steps) && j < |steps| && Handled(states[j], c)
    ensures Handled(states[j + 1], c)
  {
    SafeOneMore(setup, states, steps, j, c);
  }

  lemma {:induction false} StaysSafe(setup: Setup, states: seq<State>, steps: seq<Step>, a: nat, n: nat, c: nat)
    requires Run(setup, states, steps) && a <= n <= |steps| && Handled(states[a], c) && Safe(states[a], c)
    requires forall j :: a <= j < n ==> !Displaced(setup, states, steps, j, c)
    ensures Safe(states[n], c)
  {
    if a < n {
      StaysSafe(setup, states, steps, a, n - 1, c);
      StaysHandled(setup, states, steps, a, n - 1, c);
      SafeOneMore(setup, states, steps, n - 1, c);
    }
  }

  /** Once safe, a call stays safe until a step displaces it, and is never safe again after that. */
  lemma SafeUntilDisplaced(setup: Setup, states: seq<State>, steps: seq<Step>, a: nat, n: nat, c: nat)
    requires Run(setup, states, steps) && a <= n <= |steps| && Safe(states[a], c)
    ensures Safe(states[n], c) <==> forall j :: a <= j < n ==> !Displaced(setup, states, steps, j, c)
  {
    RunKeepsInv(setup, states, steps, a);
    SafeIff(states[a], c);
    if j :| a <= j < n && Displaced(setup, states, steps, j, c) {
      StaysHandled(setup, states, steps, a, j, c);
      LostOnceDisplaced(setup, states, steps, j, c);
      LostForGood(setup, states, steps, j + 1, n, c);
      RunKeepsInv(setup, states, steps, n);
      SafeIff(states[n], c);
    } else {
      StaysSafe(setup, states, steps, a, n, c);
    }
  }

  lemma LostOnceDisplaced(setup: Setup, states: seq<State>, steps: seq<Step>, j: nat, c: nat)
    requires Run(setup, states, steps) && j < |steps| && Handled(states[j], c) && Displaced(setup, states, steps, j, c)
    ensures c in states[j + 1].lost
  {
    SafeOneMore(setup, states, steps, j, c);
    RunKeepsInv(setup, states, steps, j + 1);
    SafeIff(states[j + 1], c);
  }

  lemma SafeOneMore(setup: Setup, states: seq<State>, steps: seq<Step>, j: nat, c: nat)
    requires Run(setup, states, steps) && j < |steps| && Handled(states[j], c)
    ensures Safe(states[j + 1], c) <==> Safe(states[j], c) && !Displaced(setup, states, steps, j, c)
    ensures Handled(states[j + 1], c)
  {
    RunKeepsInv(setup, states, steps, j);
    NotForwardedAgain(setup, states[j], states[j + 1], steps[j], c);
    StepKeepsSafe(setup, states[j], states[j + 1], steps[j], c);
  }

  lemma NotForwardedAgain(setup: Setup, s: State, s': State, step: Step, c: nat)
    requires Inv(s) && Next(setup, s, s', step) && Handled(s, c)
    ensures Handled(s', c) && !(step.Forward? && step.c == c)
  {
    if InPhase(s', c, Forwarding) {
      ForwardingEntered(setup, s, s', step, c);
    }
  }

  /**
   When a replay is over, the envelope is safe as the new call if and only if the key was not
   held at the lookup, the verdict was ALLOW, forwarding delivered, buffered or queued it and
   nothing displaced it since ...
   */
  lemma ReplaySurvivesIff(setup: Setup, states: seq<State>, steps: seq<Step>, a: nat, m: nat, index: int, c: nat, d: nat)
    requires Replays(setup, states, steps, a, m, index, c, d)
    ensures Safe(states[m + 1], d) <==> Kept(setup, states, steps, d, m + 1)
  {
    SafeIffKept(setup, states, steps, d, m + 1);
  }

  /** ... and it is safe at all if and only if that is so or the old dead letter was spared. */
  lemma EnvelopeSurvivesIff(setup: Setup, states: seq<State>, steps: seq<Step>, a: nat, m: nat, index: int, c: nat, d: nat)
    requires Replays(setup, states, steps, a, m, index, c, d)
    ensures Safe(states[m + 1], c) || Safe(states[m + 1], d) <==>
              || Kept(setup, states, steps, d, m + 1)
              || (forall j :: a <= j <= m ==> !Displaced(setup, states, steps, j, c))
  {
    ReplaySurvivesIff(setup, states, steps, a, m, index, c, d);
    SparedIff(setup, states, steps, a, m, index, c);
  }

  lemma SparedIff(setup: Setup, states: seq<State>, steps: seq<Step>, a: nat, m: nat, index: int, c: nat)
    requires Run(setup, states, steps) && a < m < |steps| && QueuedAt(states[a], c, index)
    ensures Safe(states[m + 1], c) <==> forall j :: a <= j <= m ==> !Displaced(setup, states, steps, j, c)
  {
    assert states[a].dlq[index] in states[a].dlq;
    SafeUntilDisplaced(setup, states, steps, a, m + 1, c);
  }

  // ---------------------------------------------------------------------------
  // Calls that go nowhere
  // ---------------------------------------------------------------------------

  /** The call was found a duplicate or denied. */
  ghost predicate Refused(s: State, d: nat) {
    d < |s.calls| && d !in s.allowed && (s.calls[d].phase == FoundDuplicate || s.calls[d].phase.Answered?)
  }

  /** Only an evaluation of an admitted call allows it ... */
  lemma AllowedBy(setup: Setup, s: State, s': State, step: Step, d: nat)
    requires Next(setup, s, s', step) && d in s'.allowed && d !in s.allowed
    ensures InPhase(s, d, Admitted)
  {
  }

  /** ... a call that ended has ended, and a duplicate can only be answered ... */
  lemma EndedStays(setup: Setup, s: State, s': State, step: Step, d: nat)
    requires Next(setup, s, s', step) && d < |s.calls| && (s.calls[d].phase == FoundDuplicate || s.calls[d].phase.Answered?)
    ensures d < |s'.calls| && (s'.calls[d].phase == FoundDuplicate || s'.calls[d].phase.Answered?)
  {
    if !step.CheckDuplicate? {
      StepsMakeProgress(setup, s, s', step);
    }
  }

  /** ... so a refused call stays refused. */
  lemma RefusedStays(setup: Setup, s: State, s': State, step: Step, d: nat)
    requires Next(setup, s, s', step) && Refused(s, d)
    ensures Refused(s', d)
  {
    EndedStays(setup, s, s', step, d);
    if d in s'.allowed {
      AllowedBy(setup, s, s', step, d);
    }
  }

  lemma {:induction false} RefusedGoesNowhere(setup: Setup, states: seq<State>, steps: seq<Step>, k: nat, n: nat, d: nat)
    requires Run(setup, states, steps) && k <= n <= |steps| && Refused(states[k], d)
    ensures Refused(states[n], d) && Places(states[n], d) == 0
  {
    if k < n {
      RefusedGoesNowhere(setup, states, steps, k, n - 1, d);
      RefusedStays(setup, states[n - 1], states[n], steps[n - 1], d);
    }
    RunKeepsInv(setup, states, steps, n);
    assert Places(states[n], d) == One(d in states[n].allowed);
  }

  /** A call looked up while its key is held is in no place, in every later state. */
  lemma HeldKeyGoesNowhere(setup: Setup, states: seq<State>, steps: seq<Step>, k: nat, n: nat, d: nat)
    requires Run(setup, states, steps) && k < n <= |steps| && steps[k] == CheckDuplicate(d) && d < |states[k].calls|
    requires GatewayDedup.Held(states[k], states[k].calls[d].env.idempotencyKey)
    ensures Refused(states[n], d) && Places(states[n], d) == 0
  {
    RunPrefix(setup, states, steps, k);
    GatewayDedup.LetThroughIffNotHeld(setup, states[..k + 1], steps[..k], d, states[k + 1]);
    RunKeepsInv(setup, states, steps, k);
    CheckAllowsNone(setup, states[k], states[k + 1], steps[k]);
    RefusedGoesNowhere(setup, states, steps, k + 1, n, d);
  }

  lemma CheckAllowsNone(setup: Setup, s: State, s': State, step: Step)
    requires Inv(s) && step.CheckDuplicate? && Next(setup, s, s', step)
    ensures step.c !in s'.allowed
  {
  }

  /** Nor is a call whose verdict was not ALLOW. */
  lemma DeniedGoesNowhere(setup: Setup, states: seq<State>, steps: seq<Step>, e: nat, n: nat)
    requires Run(setup, states, steps) && e < n <= |steps| && steps[e].Evaluate? && steps[e].c < |states[e].calls|
    requires !AllowedAt(states, steps, steps[e].c, e)
    ensures Refused(states[n], steps[e].c) && Places(states[n], steps[e].c) == 0
  {
    RunKeepsInv(setup, states, steps, e);
    DenialRefuses(setup, states[e], states[e + 1], steps[e]);
    RefusedGoesNowhere(setup, states, steps, e + 1, n, steps[e].c);
  }

  lemma DenialRefuses(setup: Setup, s: State, s': State, step: Step)
    requires Inv(s) && step.Evaluate? && Next(setup, s, s', step)
    requires Policy.Decide(step.engineCfg, step.revoked, RequestOf(s.calls[step.c].env)).decision != Audit.ALLOW
    ensures Refused(s', step.c)
  {
  }

  /** What is lost stays lost. */
  lemma {:induction false} LostForGood(setup: Setup, states: seq<State>, steps: seq<Step>, m: nat, n: nat, c: nat)
    requires Run(setup, states, steps) && m <= n <= |steps| && c in states[m].lost
    ensures c in states[n].lost
  {
    if m < n {
      LostForGood(setup, states, steps, m, n - 1, c);
      LossesStay(setup, states[n - 1], states[n], steps[n - 1], c);
    }
  }

  lemma LossesStay(setup: Setup, s: State, s': State, step: Step, c: nat)
    requires Next(setup, s, s', step) && c in s.lost
    ensures c in s'.lost
  {
  }

  /**
   If a replay's lookup finds the key held, or its verdict is not ALLOW, and it removes the
   letter it sent, then the envelope is lost: in every later state the new call is in no
   place and the old one among the losses.
   */
  lemma RefusedReplayLoses(setup: Setup, states: seq<State>, steps: seq<Step>, a: nat, m: nat, index: int, c: nat, d: nat,
                           k: nat, n: nat)
    requires Replays(setup, states, steps, a, m, index, c, d) && k <= m < n <= |steps| && d < |states[k].calls|
    requires || (steps[k] == CheckDuplicate(d) && GatewayDedup.Held(states[k], states[k].calls[d].env.idempotencyKey))
             || (steps[k].Evaluate? && steps[k].c == d && !AllowedAt(states, steps, d, k))
    requires forall j :: a < j < m ==> !DiscardedUpTo(states, steps, j, index)
    ensures Places(states[n], d) == 0 && c in states[n].lost
  {
    if steps[k].Evaluate? {
      DeniedGoesNowhere(setup, states, steps, k, n);
    } else {
      HeldKeyGoesNowhere(setup, states, steps, k, n, d);
    }
    RemovesItsOwnLetterIff(setup, states, steps, a, m, index, c, d);
    DiscardShrinks(setup, states[m], states[m + 1], steps[m]);
    LostForGood(setup, states, steps, m + 1, n, c);
  }
}

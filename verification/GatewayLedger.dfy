/**
 Conservation of envelopes: every allowed call is, at every moment of every run, in exactly
 one place. The places are the forwarder, the peer, the transit buffer, the drain, the
 dead-letter queue, and a closed list of losses.
 */
module GatewayLedger {
  import opened Clock
  import opened Collections
  import opened Gateway
  import Audit
  import Transit

  ghost predicate InTransit(transit: Transit.Buffer<nat>, c: nat) {
    exists k :: k in transit && transit[k].item == c
  }

  /** In how many places the envelope of call c is. */
  ghost function Places(s: State, c: nat): nat {
    One(InPhase(s, c, Forwarding)) + One(c in s.delivered) + One(InTransit(s.transit, c))
    + One(c in s.draining) + One(c in s.dlq) + One(c in s.lost)
  }

  ghost predicate OneKeyEach(m: Transit.Buffer<nat>) {
    forall j, k :: j in m && k in m && j != k ==> m[j].item != m[k].item
  }

  /** No container holds a call twice. */
  ghost predicate NoRepeats(s: State) {
    && OneKeyEach(s.transit)
    && Distinct(s.draining) && Distinct(s.dlq)
  }

  ghost predicate Inv(s: State) {
    && NoRepeats(s)
    && (forall c: nat :: Places(s, c) == One(c in s.allowed))
    && (forall c :: c in s.allowed ==> c < |s.calls|)
    && (forall c :: 0 <= c < |s.calls| && s.calls[c].phase in {Started, FoundDuplicate, Admitted} ==> c !in s.allowed)
  }

  // ---------------------------------------------------------------------------
  // The steps that move envelopes
  // ---------------------------------------------------------------------------

  lemma {:induction false} MemberAfterAppend(q: seq<nat>, c: nat)
    ensures forall x :: x in q + [c] <==> x in q || x == c
  {
  }

  /** Steps that touch no container: only phases change, and none into or out of `Forwarding`. */
  ghost predicate SameBooks(s: State, s': State) {
    && s'.allowed == s.allowed && s'.delivered == s.delivered && s'.transit == s.transit
    && s'.draining == s.draining && s'.dlq == s.dlq && s'.lost == s.lost
    && |s.calls| <= |s'.calls|
    && (forall c :: 0 <= c < |s.calls| ==> (s'.calls[c].phase == Forwarding <==> s.calls[c].phase == Forwarding))
    && (forall c :: 0 <= c < |s.calls| && s'.calls[c].phase in {Started, FoundDuplicate, Admitted} ==>
          s.calls[c].phase in {Started, FoundDuplicate, Admitted})
    && (forall c :: |s.calls| <= c < |s'.calls| ==> s'.calls[c].phase == Started)
  }

  lemma SameBooksKeepInv(s: State, s': State)
    requires Inv(s) && SameBooks(s, s')
    ensures Inv(s')
  {
    forall c: nat
      ensures Places(s', c) == One(c in s'.allowed)
    {
      assert Places(s, c) == One(c in s.allowed);
    }
  }

  /** Call c leaves the forwarder for exactly one other place, and nothing else moves. */
  ghost predicate Leaves(s: State, s': State, c: nat) {
    && InPhase(s, c, Forwarding) && |s'.calls| == |s.calls| && s'.allowed == s.allowed
    && (forall d :: 0 <= d < |s.calls| && d != c ==> s'.calls[d] == s.calls[d])
    && s'.calls[c].phase !in {Started, FoundDuplicate, Admitted, Forwarding}
    && s'.transit == s.transit && s'.draining == s.draining
    && (|| (s'.delivered == s.delivered + {c} && s'.dlq == s.dlq && s'.lost == s.lost)
        || (s'.delivered == s.delivered && s'.dlq == s.dlq + [c] && s'.lost == s.lost)
        || (s'.delivered == s.delivered && s'.dlq == s.dlq && c in s'.lost && s'.lost == s.lost[c := s'.lost[c]]))
  }

  lemma LeavingKeepsInv(s: State, s': State, c: nat)
    requires Inv(s) && Leaves(s, s', c)
    ensures Inv(s')
  {
    assert Places(s, c) == 1;
    MemberAfterAppend(s.dlq, c);
    forall d: nat
      ensures Places(s', d) == One(d in s'.allowed)
    {
      assert Places(s, d) == One(d in s.allowed);
    }
  }

  /** An allowed call enters the books, in the forwarder's hands or lost for want of one. */
  ghost predicate Enters(s: State, s': State, c: nat) {
    && InPhase(s, c, Admitted) && |s'.calls| == |s.calls| && s'.allowed == s.allowed + {c}
    && (forall d :: 0 <= d < |s.calls| && d != c ==> s'.calls[d] == s.calls[d])
    && s'.delivered == s.delivered && s'.transit == s.transit && s'.draining == s.draining && s'.dlq == s.dlq
    && (|| (s'.calls[c].phase == Forwarding && s'.lost == s.lost)
        || (s'.calls[c].phase == Answered(Audit.ALLOW) && s'.lost == s.lost[c := NoForwarder]))
  }

  lemma EnteringKeepsInv(s: State, s': State, c: nat)
    requires Inv(s) && Enters(s, s', c)
    ensures Inv(s')
  {
    assert c !in s.allowed && Places(s, c) == 0;
    forall d: nat
      ensures Places(s', d) == One(d in s'.allowed)
    {
      assert Places(s, d) == One(d in s.allowed);
    }
  }

  lemma EvaluateKeepsInv(setup: Setup, s: State, s': State, step: Step)
    requires Inv(s) && step.Evaluate? && Next(setup, s, s', step)
    ensures Inv(s')
  {
    assert step.c !in s.allowed;
    if step.c in s'.allowed {
      EnteringKeepsInv(s, s', step.c);
    } else {
      SameBooksKeepInv(s, s');
    }
  }

  // ---------------------------------------------------------------------------
  // The transit buffer
  // ---------------------------------------------------------------------------

  /** Call c is the one buffered under `key`. */
  ghost predicate Under(m: Transit.Buffer<nat>, key: string, c: nat) {
    key in m && m[key].item == c
  }

  /** Removing one key takes exactly its own call out of the buffer. */
  lemma RemoveFromTransit(m: Transit.Buffer<nat>, key: string)
    requires OneKeyEach(m)
    ensures OneKeyEach(m - {key})
    ensures forall c: nat :: InTransit(m - {key}, c) <==> InTransit(m, c) && !Under(m, key, c)
  {
    forall c: nat | InTransit(m, c) && !Under(m, key, c)
      ensures InTransit(m - {key}, c)
    {
      var k :| k in m && m[k].item == c;
      assert k in m - {key};
    }
  }

  lemma AddToTransit(m: Transit.Buffer<nat>, key: string, e: Transit.Entry<nat>)
    requires OneKeyEach(m) && key !in m && !InTransit(m, e.item)
    ensures OneKeyEach(m[key := e])
    ensures forall c: nat :: InTransit(m[key := e], c) <==> InTransit(m, c) || c == e.item
  {
    forall c: nat | InTransit(m, c) || c == e.item
      ensures InTransit(m[key := e], c)
    {
      if c == e.item {
        assert m[key := e][key].item == c;
      } else {
        var k :| k in m && m[k].item == c;
        assert m[key := e][k].item == c;
      }
    }
  }

  lemma ReplaceInTransit(m: Transit.Buffer<nat>, key: string, e: Transit.Entry<nat>)
    requires OneKeyEach(m) && !InTransit(m, e.item)
    ensures OneKeyEach(m[key := e])
    ensures forall c: nat :: InTransit(m[key := e], c) <==> c == e.item || (InTransit(m, c) && !Under(m, key, c))
  {
    RemoveFromTransit(m, key);
    AddToTransit(m - {key}, key, e);
    assert (m - {key})[key := e] == m[key := e];
  }

  /** The entry evicted to make room is the one call that leaves. */
  ghost predicate PushedOut(m: Transit.Buffer<nat>, order: seq<string>, c: nat)
    requires forall i :: 0 <= i < |order| ==> order[i] in m
  {
    |m| >= Transit.MAX_ENTRIES && Under(m, Transit.Evicted(m, order), c)
  }

  lemma MakeRoomMovesCalls(m: Transit.Buffer<nat>, order: seq<string>)
    requires OneKeyEach(m) && forall i :: 0 <= i < |order| ==> order[i] in m
    ensures OneKeyEach(Transit.MakeRoom(m, order))
    ensures forall c: nat :: InTransit(Transit.MakeRoom(m, order), c) <==> InTransit(m, c) && !PushedOut(m, order, c)
  {
    RemoveFromTransit(m, Transit.Evicted(m, order));
  }

  /** Where the calls of a buffer are after `Put` made room and replaced the entry under its key. */
  lemma PutMovesCalls(m: Transit.Buffer<nat>, order: seq<string>, key: string, e: Transit.Entry<nat>)
    requires OneKeyEach(m) && !InTransit(m, e.item) && forall i :: 0 <= i < |order| ==> order[i] in m
    ensures var room := Transit.MakeRoom(m, order);
      && OneKeyEach(room[key := e])
      && forall c: nat :: InTransit(room[key := e], c) <==>
           || c == e.item
           || (InTransit(m, c) && !PushedOut(m, order, c) && !Under(room, key, c))
  {
    MakeRoomMovesCalls(m, order);
    ReplaceInTransit(Transit.MakeRoom(m, order), key, e);
  }

  /** Call c moves from the forwarder into the buffer, and what it displaces is lost. */
  ghost predicate Buffers(s: State, s': State, c: nat, order: seq<string>, expires: Time) {
    && InPhase(s, c, Forwarding) && (forall i :: 0 <= i < |order| ==> order[i] in s.transit)
    && s'.calls == Moved(s, c, Answered(Audit.ALLOW)) && s'.allowed == s.allowed && s'.delivered == s.delivered
    && s'.draining == s.draining && s'.dlq == s.dlq
    && s'.transit == Transit.MakeRoom(s.transit, order)[s.calls[c].env.idempotencyKey := Transit.Entry(c, expires)]
    && s'.lost == PutLosses(s.transit, s.lost, s.calls[c].env.idempotencyKey, order)
  }

  lemma BufferingKeepsInv(s: State, s': State, c: nat, order: seq<string>, expires: Time)
    requires Inv(s) && Buffers(s, s', c, order, expires)
    ensures Inv(s')
  {
    assert Places(s, c) == 1;
    var key := s.calls[c].env.idempotencyKey;
    PutMovesCalls(s.transit, order, key, Transit.Entry(c, expires));
    LossesOfPut(s, key, order);
    forall d: nat
      ensures Places(s', d) == One(d in s'.allowed)
    {
      assert Places(s, d) == One(d in s.allowed);
      BufferingMovesOne(s, s', c, d, PushedOut(s.transit, order, d) || Under(Transit.MakeRoom(s.transit, order), key, d));
    }
  }

  /** Call c goes from the forwarder into the buffer; a call pushed out goes from the buffer to the lost. */
  lemma BufferingMovesOne(s: State, s': State, c: nat, d: nat, out: bool)
    requires InPhase(s, c, Forwarding) && !InTransit(s.transit, c)
    requires s'.calls == Moved(s, c, Answered(Audit.ALLOW)) && s'.delivered == s.delivered
    requires s'.draining == s.draining && s'.dlq == s.dlq
    requires out ==> InTransit(s.transit, d) && d !in s.lost
    requires InTransit(s'.transit, d) <==> d == c || (InTransit(s.transit, d) && !out)
    requires d in s'.lost <==> d in s.lost || out
    ensures Places(s', d) == Places(s, d)
  {
  }

  /** `Put` records as lost exactly the calls it pushes out of the buffer. */
  lemma LossesOfPut(s: State, key: string, order: seq<string>)
    requires forall i :: 0 <= i < |order| ==> order[i] in s.transit
    ensures var room := Transit.MakeRoom(s.transit, order);
      forall d: nat :: d in PutLosses(s.transit, s.lost, key, order) <==>
        d in s.lost || PushedOut(s.transit, order, d) || Under(room, key, d)
  {
  }

  lemma DrainKeepsInv(setup: Setup, s: State, s': State, step: Step)
    requires Inv(s) && step.Drain? && Next(setup, s, s', step)
    ensures Inv(s')
  {
    forall d: nat
      ensures InTransit(s.transit, d) <==> InTransit(s'.transit, d) || d in s'.draining
      ensures !(InTransit(s'.transit, d) && d in s'.draining)
    {
      DrainSplits(s, s', step.keys, d);
    }
    forall d: nat
      ensures Places(s', d) == One(d in s'.allowed)
    {
      assert Places(s, d) == One(d in s.allowed);
    }
  }

  lemma DrainSplits(s: State, s': State, keys: seq<string>, d: nat)
    requires NoRepeats(s) && s'.transit == Transit.Unexpired(s.transit, s.clock)
    requires Enumerates(keys, s.transit.Keys - s'.transit.Keys)
    requires s'.draining == seq(|keys|, i requires 0 <= i < |keys| => s.transit[keys[i]].item)
    ensures InTransit(s.transit, d) <==> InTransit(s'.transit, d) || d in s'.draining
    ensures !(InTransit(s'.transit, d) && d in s'.draining)
  {
    if InTransit(s.transit, d) {
      var k :| k in s.transit && s.transit[k].item == d;
      if k !in s'.transit {
        assert k in s.transit.Keys - s'.transit.Keys;
        var i :| 0 <= i < |keys| && keys[i] == k;
        assert s'.draining[i] == d;
      }
    }
    if d in s'.draining {
      var i :| 0 <= i < |keys| && s'.draining[i] == d;
      assert keys[i] in s.transit && s.transit[keys[i]].item == d;
    }
  }

  // ---------------------------------------------------------------------------
  // The dead-letter queue
  // ---------------------------------------------------------------------------

  lemma PromoteKeepsInv(setup: Setup, s: State, s': State, step: Step)
    requires Inv(s) && step.Promote? && Next(setup, s, s', step)
    ensures Inv(s')
  {
    var c := s.draining[0];
    assert s.draining == [c] + s'.draining;
    assert Places(s, c) == One(c in s.allowed);
    MemberAfterAppend(s.dlq, c);
    forall d: nat
      ensures Places(s', d) == One(d in s'.allowed)
    {
      assert Places(s, d) == One(d in s.allowed);
      assert d in s.draining <==> d == c || d in s'.draining;
    }
  }

  /** Discarding a dead letter moves that one call to the losses. */
  lemma DiscardKeepsInv(s: State, index: int)
    requires Inv(s)
    ensures Inv(Discarded(s, index))
  {
    if 0 <= index < |s.dlq| {
      var c, s' := s.dlq[index], Discarded(s, index);
      assert s.dlq == s.dlq[..index] + [c] + s.dlq[index + 1..];
      assert c !in s'.dlq;
      forall d: nat
        ensures Places(s', d) == One(d in s'.allowed)
      {
        assert Places(s, d) == One(d in s.allowed);
        assert d in s.dlq <==> d == c || d in s'.dlq;
      }
    }
  }

  lemma RemoveKeepsInv(setup: Setup, s: State, s': State, step: Step)
    requires Inv(s) && IsDiscard(step) && Next(setup, s, s', step)
    ensures Inv(s')
  {
    var index := DiscardIndex(s, step);
    DiscardKeepsInv(s, index);
    SameBooksKeepInv(Discarded(s, index), s');
  }

  // ---------------------------------------------------------------------------
  // Every step, every run
  // ---------------------------------------------------------------------------

  lemma ForwardLeaves(setup: Setup, s: State, s': State, step: Step)
    requires step.Forward? && Next(setup, s, s', step) && !(step.outcome.PeersExhausted? && setup.hasTransit)
    ensures Leaves(s, s', step.c)
  {
  }

  lemma ForwardKeepsInv(setup: Setup, s: State, s': State, step: Step)
    requires Inv(s) && step.Forward? && Next(setup, s, s', step)
    ensures Inv(s')
  {
    if step.outcome.PeersExhausted? && setup.hasTransit {
      BufferingKeepsInv(s, s', step.c, step.order, s.clock + setup.transitTtl);
    } else {
      ForwardLeaves(setup, s, s', step);
      LeavingKeepsInv(s, s', step.c);
    }
  }

  lemma CancelKeepsInv(setup: Setup, s: State, s': State, step: Step)
    requires Inv(s) && step.CancelJitter? && Next(setup, s, s', step)
    ensures Inv(s')
  {
    LeavingKeepsInv(s, s', step.c);
  }

  lemma QuietKeepsInv(setup: Setup, s: State, s': State, step: Step)
    requires Inv(s) && Next(setup, s, s', step)
    requires step.Tick? || IsArrival(step) || step.CheckDuplicate? || step.PurgeShard? || IsAppend(step)
    ensures Inv(s')
  {
    SameBooksKeepInv(s, s');
  }

  lemma NextKeepsInv(setup: Setup, s: State, s': State, step: Step)
    requires Inv(s) && Next(setup, s, s', step)
    ensures Inv(s')
  {
    if step.Evaluate? {
      EvaluateKeepsInv(setup, s, s', step);
    } else if step.CancelJitter? {
      CancelKeepsInv(setup, s, s', step);
    } else if step.Forward? {
      ForwardKeepsInv(setup, s, s', step);
    } else if step.Drain? {
      DrainKeepsInv(setup, s, s', step);
    } else if step.Promote? {
      PromoteKeepsInv(setup, s, s', step);
    } else if IsDiscard(step) {
      RemoveKeepsInv(setup, s, s', step);
    } else {
      QuietKeepsInv(setup, s, s', step);
    }
  }

  lemma InitHasInv(s: State)
    requires Init(s)
    ensures Inv(s)
  {
    assert forall c: nat :: !InTransit(s.transit, c);
  }

  lemma {:induction false} RunKeepsInv(setup: Setup, states: seq<State>, steps: seq<Step>, n: nat)
    requires Run(setup, states, steps) && n <= |steps|
    ensures Inv(states[n])
  {
    if n == 0 {
      InitHasInv(states[0]);
    } else {
      RunKeepsInv(setup, states, steps, n - 1);
      assert Next(setup, states[n - 1], states[n], steps[n - 1]);
      NextKeepsInv(setup, states[n - 1], states[n], steps[n - 1]);
    }
  }

  /** Every allowed call is in exactly one place, and a call that was not allowed is in none. */
  lemma EveryEnvelopeInOnePlace(setup: Setup, states: seq<State>, steps: seq<Step>, c: nat)
    requires Run(setup, states, steps)
    ensures Places(states[|steps|], c) == One(c in states[|steps|].allowed)
  {
    RunKeepsInv(setup, states, steps, |steps|);
  }

  // ---------------------------------------------------------------------------
  // The balance sheet
  // ---------------------------------------------------------------------------

  ghost function CallsInFlight(s: State): set<nat> {
    set c | 0 <= c < |s.calls| && s.calls[c].phase == Forwarding
  }

  ghost function CallsBuffered(m: Transit.Buffer<nat>): set<nat> {
    set k | k in m :: m[k].item
  }

  lemma {:induction false} BufferedSize(m: Transit.Buffer<nat>)
    requires OneKeyEach(m)
    ensures |CallsBuffered(m)| == |m|
    decreases m.Keys
  {
    if m.Keys == {} {
      assert |m| == 0 && CallsBuffered(m) == {};
    } else {
      var key :| key in m.Keys;
      var rest := m - {key};
      assert rest.Keys == m.Keys - {key};
      BufferedSize(rest);
      RemoveFromTransit(m, key);
      forall c | c in CallsBuffered(m)
        ensures c in CallsBuffered(rest) + {m[key].item}
      {
        var k :| k in m && m[k].item == c;
        assert k == key || (k in rest && rest[k].item == c);
      }
      assert CallsBuffered(m) == CallsBuffered(rest) + {m[key].item};
      assert m[key].item !in CallsBuffered(rest);
    }
  }

  /**
   The sum always balances: allowed calls are those in flight, delivered, buffered, being
   drained, queued, or lost.
   */
  lemma LedgerBalances(setup: Setup, states: seq<State>, steps: seq<Step>)
    requires Run(setup, states, steps)
    ensures var s := states[|steps|];
      |s.allowed| == |CallsInFlight(s)| + |s.delivered| + |s.transit| + |s.draining| + |s.dlq| + |s.lost|
  {
    RunKeepsInv(setup, states, steps, |steps|);
    BooksBalance(states[|steps|]);
  }

  lemma BooksBalance(s: State)
    requires Inv(s)
    ensures |s.allowed| == |CallsInFlight(s)| + |s.delivered| + |s.transit| + |s.draining| + |s.dlq| + |s.lost|
  {
    var f, t, g, q, l := CallsInFlight(s), CallsBuffered(s.transit), Elements(s.draining), Elements(s.dlq), s.lost.Keys;
    BufferedSize(s.transit);
    DistinctSize(s.draining);
    DistinctSize(s.dlq);
    forall c: nat
      ensures OneOf(c in s.allowed, c in f, c in s.delivered, c in t, c in g, c in q, c in l)
    {
      assert Places(s, c) == One(c in s.allowed);
      assert c in t <==> InTransit(s.transit, c);
    }
    SixWayUnion(s.allowed, f, s.delivered, t, g, q, l);
  }

  lemma TwoWayUnion(all: set<nat>, a: set<nat>, b: set<nat>)
    requires a !! b && all == a + b
    ensures |all| == |a| + |b|
  {
  }

  lemma ThreeWayUnion(a: set<nat>, b: set<nat>, c: set<nat>)
    requires a !! b && c !! a + b
    ensures |a + b + c| == |a| + |b| + |c|
  {
    TwoWayUnion(a + b, a, b);
    TwoWayUnion(a + b + c, a + b, c);
  }

  predicate OneOf(all: bool, a: bool, b: bool, c: bool, d: bool, e: bool, f: bool) {
    One(a) + One(b) + One(c) + One(d) + One(e) + One(f) == One(all)
  }

  lemma OneOfSplits(all: bool, a: bool, b: bool, c: bool, d: bool, e: bool, f: bool)
    requires OneOf(all, a, b, c, d, e, f)
    ensures all == (a || b || c || d || e || f)
    ensures !(a && b) && !(c && (a || b)) && !(d && e) && !(f && (d || e))
    ensures !((a || b || c) && (d || e || f))
  {
  }

  lemma SixWayUnion(all: set<nat>, a: set<nat>, b: set<nat>, c: set<nat>, d: set<nat>, e: set<nat>, f: set<nat>)
    requires forall x: nat :: OneOf(x in all, x in a, x in b, x in c, x in d, x in e, x in f)
    ensures |all| == |a| + |b| + |c| + |d| + |e| + |f|
  {
    var abc, def := a + b + c, d + e + f;
    forall x: nat
      ensures !(x in a && x in b) && !(x in c && x in a + b) && !(x in d && x in e) && !(x in f && x in d + e)
      ensures !(x in abc && x in def) && (x in all <==> x in abc + def)
    {
      assert OneOf(x in all, x in a, x in b, x in c, x in d, x in e, x in f);
      OneOfSplits(x in all, x in a, x in b, x in c, x in d, x in e, x in f);
    }
    ThreeWayUnion(a, b, c);
    ThreeWayUnion(d, e, f);
    TwoWayUnion(all, abc, def);
  }
}

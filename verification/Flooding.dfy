/**
 Discovery flooding across a graph of nodes: `BroadcastDiscovery` of
 internal/transport/grpc/adapter.go calls the broadcaster, which calls `BroadcastDiscovery`
 on every peer. One request id is followed for as long as its dedup entries live.

 A handler may be refused at any node (no token store, rate limit, application isolation, no
 broadcaster, stale request), a peer may not be dialled, and a caller whose deadline passes
 goes on while the handler it called is still running. So all handlers interleave freely.
 */
module Flooding {
  import opened Clock
  import Collections
  import Dedup
  import Discovery

  /** The peers of each node, by number. */
  type Graph = seq<seq<nat>>

  ghost predicate Closed(g: Graph) {
    forall n, i :: 0 <= n < |g| && 0 <= i < |g[n]| ==> g[n][i] < |g|
  }

  datatype Phase = Arrived | FanningOut(next: nat) | Finished

  /**
   A running handler: its node, the hop limit it was called with, its distance from its
   originator, and the hop limit that originator asked for.
   */
  datatype Handler = Handler(node: nat, hop: nat, depth: nat, asked: nat, phase: Phase)

  /** An edge is a node and a position in its peer list. */
  type Edge = (nat, nat)

  datatype State = State(
    seen: set<nat>,       // nodes whose index holds the request id
    fanned: set<nat>,     // nodes that fanned out
    fanOuts: nat,         // how often any node fanned out
    sent: set<Edge>,      // edges a request was forwarded along
    forwarded: nat,       // how many requests were forwarded
    handlers: seq<Handler>)

  datatype Step =
    | Originate(node: nat, hop: nat)
    | Refuse(h: nat)
    | Duplicate(h: nat)
    | HopLimitReached(h: nat)
    | BeginFanOut(h: nat)
    | Forward(h: nat)
    | DialFails(h: nat)
    | EndFanOut(h: nat)

  const EMPTY := State({}, {}, 0, {}, 0, [])

  function Set(s: State, h: nat, phase: Phase): seq<Handler>
    requires h < |s.handlers|
  {
    s.handlers[h := s.handlers[h].(phase := phase)]
  }

  ghost predicate Next(g: Graph, s: State, s': State, step: Step) {
    match step
    case Originate(node, hop) =>
      node < |g| && s' == s.(handlers := s.handlers + [Handler(node, hop, 0, hop, Arrived)])
    case Refuse(h) =>
      h < |s.handlers| && s.handlers[h].phase == Arrived && s' == s.(handlers := Set(s, h, Finished))
    case Duplicate(h) =>
      && h < |s.handlers| && s.handlers[h].phase == Arrived && s.handlers[h].node in s.seen
      && s' == s.(handlers := Set(s, h, Finished))
    case HopLimitReached(h) =>
      && h < |s.handlers| && s.handlers[h].phase == Arrived && s.handlers[h].node !in s.seen && s.handlers[h].hop == 0
      && s' == s.(seen := s.seen + {s.handlers[h].node}, handlers := Set(s, h, Finished))
    case BeginFanOut(h) =>
      && h < |s.handlers| && s.handlers[h].phase == Arrived && s.handlers[h].node !in s.seen && s.handlers[h].hop > 0
      && s' == s.(seen := s.seen + {s.handlers[h].node}, fanned := s.fanned + {s.handlers[h].node},
                  fanOuts := s.fanOuts + 1, handlers := Set(s, h, FanningOut(0)))
    case Forward(h) =>
      && h < |s.handlers| && s.handlers[h].phase.FanningOut?
      && (var r := s.handlers[h];
          && r.node < |g| && r.phase.next < |g[r.node]| && r.hop > 0
          && s' == s.(sent := s.sent + {(r.node, r.phase.next)}, forwarded := s.forwarded + 1,
                      handlers := Set(s, h, FanningOut(r.phase.next + 1))
                        + [Handler(g[r.node][r.phase.next], r.hop - 1, r.depth + 1, r.asked, Arrived)]))
    case DialFails(h) =>
      && h < |s.handlers| && s.handlers[h].phase.FanningOut?
      && (var r := s.handlers[h];
          && r.node < |g| && r.phase.next < |g[r.node]|
          && s' == s.(handlers := Set(s, h, FanningOut(r.phase.next + 1))))
    case EndFanOut(h) =>
      && h < |s.handlers| && s.handlers[h].phase.FanningOut?
      && (var r := s.handlers[h];
          r.node < |g| && r.phase.next == |g[r.node]| && s' == s.(handlers := Set(s, h, Finished)))
  }

  ghost predicate Run(g: Graph, states: seq<State>, steps: seq<Step>) {
    && Closed(g) && |states| == |steps| + 1 && states[0] == EMPTY
    && forall i :: 0 <= i < |steps| ==> Next(g, states[i], states[i + 1], steps[i])
  }

  // ---------------------------------------------------------------------------
  // What every step keeps
  // ---------------------------------------------------------------------------

  ghost predicate HandlerOk(g: Graph, s: State, r: Handler) {
    && r.node < |g| && r.depth + r.hop == r.asked
    && (r.phase.FanningOut? ==> r.hop > 0 && r.node in s.fanned && r.phase.next <= |g[r.node]|)
  }

  ghost predicate Inv(g: Graph, s: State) {
    && s.fanned <= s.seen
    && s.fanOuts == |s.fanned| && s.forwarded == |s.sent|
    && (forall h :: 0 <= h < |s.handlers| ==> HandlerOk(g, s, s.handlers[h]))
    && (forall h, k :: 0 <= h < k < |s.handlers| && s.handlers[h].phase.FanningOut? && s.handlers[k].phase.FanningOut? ==>
          s.handlers[h].node != s.handlers[k].node)
    && (forall e :: e in s.sent ==> e.0 in s.fanned && e.0 < |g| && e.1 < |g[e.0]|)
    && (forall e, h :: e in s.sent && 0 <= h < |s.handlers| && s.handlers[h].phase.FanningOut? && s.handlers[h].node == e.0 ==>
          e.1 < s.handlers[h].phase.next)
  }

  lemma BeginKeepsInv(g: Graph, s: State, s': State, h: nat)
    requires Inv(g, s) && Next(g, s, s', BeginFanOut(h))
    ensures Inv(g, s')
  {
    var n := s.handlers[h].node;
    assert n !in s.fanned;
    assert |s.fanned + {n}| == |s.fanned| + 1;
  }

  lemma ForwardKeepsInv(g: Graph, s: State, s': State, h: nat)
    requires Closed(g) && Inv(g, s) && Next(g, s, s', Forward(h))
    ensures Inv(g, s')
  {
    var e := (s.handlers[h].node, s.handlers[h].phase.next);
    assert e !in s.sent;
    assert |s.sent + {e}| == |s.sent| + 1;
  }

  lemma NextKeepsInv(g: Graph, s: State, s': State, step: Step)
    requires Closed(g) && Inv(g, s) && Next(g, s, s', step)
    ensures Inv(g, s')
  {
    match step
    case BeginFanOut(h) => BeginKeepsInv(g, s, s', h);
    case Forward(h) => ForwardKeepsInv(g, s, s', h);
    case _ =>
  }

  lemma {:induction false} RunKeepsInv(g: Graph, states: seq<State>, steps: seq<Step>, n: nat)
    requires Run(g, states, steps) && n <= |steps|
    ensures Inv(g, states[n])
  {
    if n > 0 {
      RunKeepsInv(g, states, steps, n - 1);
      assert Next(g, states[n - 1], states[n], steps[n - 1]);
      NextKeepsInv(g, states[n - 1], states[n], steps[n - 1]);
    }
  }

  /** The peer edges of a set of nodes. */
  ghost function EdgesOf(g: Graph, nodes: set<nat>): set<Edge> {
    set n: nat, i: nat | n in nodes && n < |g| && i < |g[n]| :: (n, i)
  }

  /**
   In every interleaving, on every graph: each node fans out at most once, requests are
   forwarded at most once along each peer edge of the nodes that fanned out, and a handler's
   distance from its originator and its own hop limit add up to what the originator asked for.
   */
  lemma FloodIsBounded(g: Graph, states: seq<State>, steps: seq<Step>)
    requires Run(g, states, steps)
    ensures var s := states[|steps|];
      && s.fanOuts == |s.fanned|
      && s.forwarded == |s.sent| && s.sent <= EdgesOf(g, s.fanned) && s.forwarded <= |EdgesOf(g, s.fanned)|
      && forall h :: 0 <= h < |s.handlers| ==> s.handlers[h].depth + s.handlers[h].hop == s.handlers[h].asked
  {
    var s := states[|steps|];
    RunKeepsInv(g, states, steps, |steps|);
    var edges := EdgesOf(g, s.fanned);
    forall e | e in s.sent
      ensures e in edges
    {
      assert e == (e.0, e.1);
    }
    assert edges == s.sent + (edges - s.sent);
    forall h | 0 <= h < |s.handlers|
      ensures s.handlers[h].depth + s.handlers[h].hop == s.handlers[h].asked
    {
      assert HandlerOk(g, s, s.handlers[h]);
    }
  }

  // ---------------------------------------------------------------------------
  // Termination
  // ---------------------------------------------------------------------------

  /** Three units for every edge of a node that may still fan out, among nodes below n. */
  ghost function UnseenWork(g: Graph, seen: set<nat>, n: nat): nat
    requires n <= |g|
  {
    if n == 0 then 0 else UnseenWork(g, seen, n - 1) + if n - 1 in seen then 0 else 3 * |g[n - 1]|
  }

  ghost function HandlerWork(g: Graph, r: Handler): nat {
    match r.phase
    case Arrived => 2
    case FanningOut(next) => if r.node < |g| && next <= |g[r.node]| then 1 + 3 * (|g[r.node]| - next) else 0
    case Finished => 0
  }

  ghost function TotalWork(g: Graph, hs: seq<Handler>, n: nat): nat
    requires n <= |hs|
  {
    if n == 0 then 0 else TotalWork(g, hs, n - 1) + HandlerWork(g, hs[n - 1])
  }

  /** Work left: it only depends on what nodes and running handlers may still do. */
  ghost function Work(g: Graph, s: State): nat {
    UnseenWork(g, s.seen, |g|) + TotalWork(g, s.handlers, |s.handlers|)
  }

  lemma {:induction false} SeeNode(g: Graph, seen: set<nat>, node: nat, n: nat)
    requires n <= |g| && node !in seen && node < |g|
    ensures UnseenWork(g, seen + {node}, n) == UnseenWork(g, seen, n) - if node < n then 3 * |g[node]| else 0
  {
    if n > 0 {
      SeeNode(g, seen, node, n - 1);
    }
  }

  lemma {:induction false} ChangeHandler(g: Graph, hs: seq<Handler>, h: nat, r: Handler, n: nat)
    requires h < |hs| && n <= |hs|
    ensures TotalWork(g, hs[h := r], n)
         == TotalWork(g, hs, n) + if h < n then HandlerWork(g, r) - HandlerWork(g, hs[h]) else 0
  {
    if n > 0 {
      ChangeHandler(g, hs, h, r, n - 1);
    }
  }

  lemma {:induction false} AddHandler(g: Graph, hs: seq<Handler>, r: Handler, n: nat)
    requires n <= |hs|
    ensures TotalWork(g, hs + [r], n) == TotalWork(g, hs, n)
  {
    if n > 0 {
      AddHandler(g, hs, r, n - 1);
    }
  }

  /** Every step except a new originator leaves less work. */
  lemma NextUsesWork(g: Graph, s: State, s': State, step: Step)
    requires Closed(g) && Inv(g, s) && Next(g, s, s', step)
    ensures step.Originate? ==> Work(g, s') == Work(g, s) + 2
    ensures !step.Originate? ==> Work(g, s') < Work(g, s)
  {
    if step.Originate? {
      AddHandler(g, s.handlers, s'.handlers[|s.handlers|], |s.handlers|);
    } else if step.Forward? {
      ForwardUsesWork(g, s, s', step);
    } else {
      HandlerUsesWork(g, s, s', step);
    }
  }

  lemma ForwardUsesWork(g: Graph, s: State, s': State, step: Step)
    requires Closed(g) && Inv(g, s) && step.Forward? && Next(g, s, s', step)
    ensures Work(g, s') < Work(g, s)
  {
    var h := step.h;
    assert HandlerOk(g, s, s.handlers[h]);
    ChangeHandler(g, s.handlers, h, s'.handlers[h], |s.handlers|);
    AddHandler(g, s.handlers[h := s'.handlers[h]], s'.handlers[|s.handlers|], |s.handlers|);
  }

  lemma HandlerUsesWork(g: Graph, s: State, s': State, step: Step)
    requires Closed(g) && Inv(g, s) && !step.Originate? && !step.Forward? && Next(g, s, s', step)
    ensures Work(g, s') < Work(g, s)
  {
    var h := step.h;
    assert HandlerOk(g, s, s.handlers[h]);
    ChangeHandler(g, s.handlers, h, s'.handlers[h], |s.handlers|);
    if step.BeginFanOut? || step.HopLimitReached? {
      SeeNode(g, s.seen, s.handlers[h].node, |g|);
    }
  }

  ghost function Originators(steps: seq<Step>, n: nat): nat
    requires n <= |steps|
  {
    if n == 0 then 0 else Originators(steps, n - 1) + if steps[n - 1].Originate? then 1 else 0
  }

  lemma {:induction false} StepsUseWork(g: Graph, states: seq<State>, steps: seq<Step>, n: nat)
    requires Run(g, states, steps) && n <= |steps|
    ensures n + Work(g, states[n]) <= 3 * Originators(steps, n) + UnseenWork(g, {}, |g|)
  {
    if n > 0 {
      StepsUseWork(g, states, steps, n - 1);
      RunKeepsInv(g, states, steps, n - 1);
      assert Next(g, states[n - 1], states[n], steps[n - 1]);
      NextUsesWork(g, states[n - 1], states[n], steps[n - 1]);
    }
  }

  /**
   Flooding terminates on every graph, cycles included: k originators cause at most
   3k steps plus three for each peer edge of the graph, whatever their hop limits.
   */
  lemma FloodTerminates(g: Graph, states: seq<State>, steps: seq<Step>)
    requires Run(g, states, steps)
    ensures |steps| <= 3 * Originators(steps, |steps|) + UnseenWork(g, {}, |g|)
  {
    StepsUseWork(g, states, steps, |steps|);
  }

  // ---------------------------------------------------------------------------
  // The broadcaster takes these steps
  // ---------------------------------------------------------------------------

  /** The index of a node holds the request id exactly if the machine has the node among those that saw it. */
  ghost predicate SeenAlike(s: State, node: nat, hash: string -> nat, shards: seq<Dedup.Shard>, id: string, now: Time)
    requires |shards| == Dedup.NUM_SHARDS
  {
    node in s.seen <==> Dedup.Live(shards[Dedup.ShardOf(hash, id)], id, now)
  }

  /** The step that the decisions of `Broadcast` amount to. */
  function DecisionOf(h: nat, stale: bool, live: bool, hop: nat): Step {
    if stale then Refuse(h) else if live then Duplicate(h) else if hop == 0 then HopLimitReached(h) else BeginFanOut(h)
  }

  /**
   What `Broadcaster.Broadcast` does to the index, and whether it fans out, is a step of the
   machine, and afterwards, for as long as the entry lives, the index agrees with it again.
   */
  lemma BroadcastTakesStep(g: Graph, s: State, h: nat, hash: string -> nat, ttl: Duration, req: Discovery.Request,
                           checkedAt: Time, dedupAt: Time, shards: seq<Dedup.Shard>) returns (s': State)
    requires h < |s.handlers| && s.handlers[h].phase == Arrived && s.handlers[h].hop == req.hopLimit
    requires |shards| == Dedup.NUM_SHARDS && ttl > 0 && SeenAlike(s, s.handlers[h].node, hash, shards, req.requestId, dedupAt)
    ensures var stale := Discovery.Stale(req.timestamp, checkedAt);
      var live := Dedup.Live(shards[Dedup.ShardOf(hash, req.requestId)], req.requestId, dedupAt);
      var shards' := if stale then shards else Dedup.Apply(hash, shards, Dedup.Touch(req.requestId, ttl, dedupAt));
      && Next(g, s, s', DecisionOf(h, stale, live, req.hopLimit))
      && (s'.handlers[h].phase.FanningOut? <==> !stale && req.hopLimit > 0 && !live)
      && SeenAlike(s', s.handlers[h].node, hash, shards', req.requestId, dedupAt)
      && (!stale && !live ==>
            forall t :: dedupAt <= t < dedupAt + ttl ==> SeenAlike(s', s.handlers[h].node, hash, shards', req.requestId, t))
  {
    var node := s.handlers[h].node;
    if Discovery.Stale(req.timestamp, checkedAt) || node in s.seen {
      s' := s.(handlers := Set(s, h, Finished));
    } else if req.hopLimit == 0 {
      s' := s.(seen := s.seen + {node}, handlers := Set(s, h, Finished));
    } else {
      s' := s.(seen := s.seen + {node}, fanned := s.fanned + {node}, fanOuts := s.fanOuts + 1,
               handlers := Set(s, h, FanningOut(0)));
    }
  }

  /** The same on the broadcaster itself, which asks each of its peers once if it begins to fan out. */
  method BroadcastOnMachine(b: Discovery.Broadcaster, req: Discovery.Request, ask: Discovery.Peers, checkedAt: Time, dedupAt: Time,
                            ghost g: Graph, ghost s: State, ghost h: nat)
    returns (results: seq<Discovery.Response>, fannedOut: bool, asked: seq<string>, ghost s': State, ghost step: Step)
    requires b.dedup.Valid() && b.dedup.ttl > 0
    requires h < |s.handlers| && s.handlers[h].phase == Arrived && s.handlers[h].hop == req.hopLimit
    requires SeenAlike(s, s.handlers[h].node, b.dedup.hash, b.dedup.shards[..], req.requestId, dedupAt)
    modifies b.dedup.shards
    ensures step in {Refuse(h), Duplicate(h), HopLimitReached(h), BeginFanOut(h)} && Next(g, s, s', step)
    ensures fannedOut <==> step == BeginFanOut(h)
    ensures fannedOut ==> Collections.Enumerates(asked, b.peers.Keys)
    ensures SeenAlike(s', s.handlers[h].node, b.dedup.hash, b.dedup.shards[..], req.requestId, dedupAt)
  {
    ghost var shards := b.dedup.shards[..];
    s' := BroadcastTakesStep(g, s, h, b.dedup.hash, b.dedup.ttl, req, checkedAt, dedupAt, shards);
    step := DecisionOf(h, Discovery.Stale(req.timestamp, checkedAt),
                       Dedup.Live(shards[Dedup.ShardOf(b.dedup.hash, req.requestId)], req.requestId, dedupAt), req.hopLimit);
    results, fannedOut, asked := b.Broadcast(req, ask, checkedAt, dedupAt);
  }
}

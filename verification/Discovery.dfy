/**
 The discovery broadcaster of internal/discovery/broadcaster.go on one node: a staleness
 check, the node's dedup index, and a fan-out to every peer.
 */
module Discovery {
  import opened Clock
  import opened Collections
  import opened Wrappers
  import Dedup

  const STALENESS: Duration := 30 * SECOND

  /** The TTL the application gives the discovery index. */
  const DISCOVERY_TTL: Duration := 30 * SECOND

  datatype Request = Request(requestId: string, hopLimit: nat, timestamp: int, query: string)

  datatype Response = Response(nodeId: string, opaqueToken: string)

  /** Timestamps are milliseconds; a request without one is never stale. */
  predicate Stale(timestamp: int, checkedAt: Time) {
    timestamp > 0 && UnixMilli(checkedAt) - timestamp > STALENESS / MILLISECOND
  }

  /** What a peer answers, or None when it cannot be dialled, fails, or answers nothing. */
  type Peers = (string, Request) -> Option<Response>

  /** The answers that carry a token, in the order the peers were asked. */
  function Answers(peers: map<string, string>, ask: Peers, req: Request, order: seq<string>): seq<Response>
    requires forall i :: 0 <= i < |order| ==> order[i] in peers
  {
    if order == [] then []
    else
      var n := |order| - 1;
      var before := Answers(peers, ask, req, order[..n]);
      match ask(peers[order[n]], req)
      case Some(resp) => if resp.opaqueToken != "" then before + [resp] else before
      case None => before
  }

  lemma {:induction false} AnswersAre(peers: map<string, string>, ask: Peers, req: Request, order: seq<string>, resp: Response)
    requires forall i :: 0 <= i < |order| ==> order[i] in peers
    ensures resp in Answers(peers, ask, req, order) <==>
              resp.opaqueToken != "" && exists i :: 0 <= i < |order| && ask(peers[order[i]], req) == Some(resp)
  {
    if order != [] {
      var n := |order| - 1;
      AnswersAre(peers, ask, req, order[..n], resp);
      if i :| 0 <= i < |order| && ask(peers[order[i]], req) == Some(resp) {
        assert i < n ==> order[..n][i] == order[i];
      }
      if i :| 0 <= i < n && ask(peers[order[..n][i]], req) == Some(resp) {
        assert order[i] == order[..n][i];
      }
    }
  }

  /** Asked of every peer: the answers are the responses with a token that some peer gave. */
  lemma AnswersOfAll(peers: map<string, string>, ask: Peers, req: Request, order: seq<string>)
    requires Enumerates(order, peers.Keys)
    ensures forall resp :: resp in Answers(peers, ask, req, order) <==>
              resp.opaqueToken != "" && exists k :: k in peers && ask(peers[k], req) == Some(resp)
  {
    forall resp
      ensures resp in Answers(peers, ask, req, order) <==>
                resp.opaqueToken != "" && exists k :: k in peers && ask(peers[k], req) == Some(resp)
    {
      AnswersAre(peers, ask, req, order, resp);
      if k :| k in peers && ask(peers[k], req) == Some(resp) {
        var i :| 0 <= i < |order| && order[i] == k;
      }
    }
  }

  class Broadcaster {
    const peers: map<string, string>
    const dedup: Dedup.Index

    constructor (peers: map<string, string>, dedup: Dedup.Index)
      ensures this.peers == peers && this.dedup == dedup
    {
      this.peers, this.dedup := peers, dedup;
    }

    /**
     `checkedAt` is the clock reading of the staleness check and `dedupAt` the later one the
     index takes under its lock. `asked` lists the peers a request was forwarded to.
     */
    method Broadcast(req: Request, ask: Peers, checkedAt: Time, dedupAt: Time)
      returns (results: seq<Response>, fannedOut: bool, asked: seq<string>)
      requires dedup.Valid()
      modifies dedup.shards
      ensures dedup.shards[..] ==
                if Stale(req.timestamp, checkedAt) then old(dedup.shards[..])
                else Dedup.Apply(dedup.hash, old(dedup.shards[..]), Dedup.Touch(req.requestId, dedup.ttl, dedupAt))
      ensures fannedOut <==>
                && !Stale(req.timestamp, checkedAt) && req.hopLimit > 0
                && !Dedup.Live(old(dedup.shards[..])[Dedup.ShardOf(dedup.hash, req.requestId)], req.requestId, dedupAt)
      ensures fannedOut <==>
                && !(req.timestamp > 0 && UnixMilli(checkedAt) - req.timestamp > 30_000) && req.hopLimit > 0
                && !(var m := old(dedup.shards[..])[Dedup.ShardOf(dedup.hash, req.requestId)];
                     req.requestId in m && dedupAt < m[req.requestId])
      ensures forall resp :: resp in results <==>
                && fannedOut && resp.opaqueToken != ""
                && exists k :: k in peers && ask(peers[k], req.(hopLimit := req.hopLimit - 1)) == Some(resp)
      ensures !fannedOut ==> results == [] && asked == []
      ensures fannedOut ==>
                && Enumerates(asked, peers.Keys)
                && results == Answers(peers, ask, req.(hopLimit := req.hopLimit - 1), asked)
    {
      results, fannedOut, asked := [], false, [];
      if req.timestamp > 0 && UnixMilli(checkedAt) - req.timestamp > STALENESS / MILLISECOND {
        return;
      }
      var seen := dedup.SeenOrAdd(req.requestId, dedupAt);
      if seen {
        return;
      }
      if req.hopLimit == 0 {
        return;
      }
      fannedOut := true;
      var forward := req.(hopLimit := req.hopLimit - 1);
      var todo := peers.Keys;
      ghost var index := dedup.shards[..];
      while todo != {}
        invariant todo <= peers.Keys && dedup.shards[..] == index
        invariant Distinct(asked)
        invariant forall i :: 0 <= i < |asked| ==> asked[i] in peers && asked[i] !in todo
        invariant forall k :: k in peers && k !in todo ==> k in asked
        invariant results == Answers(peers, ask, forward, asked)
        decreases todo
      {
        var key :| key in todo;
        todo := todo - {key};
        assert (asked + [key])[..|asked|] == asked;
        asked := asked + [key];
        var resp := ask(peers[key], forward);
        if resp.None? {
          continue;
        }
        if resp.value.opaqueToken != "" {
          results := results + [resp.value];
        }
      }
      assert Enumerates(asked, peers.Keys);
      AnswersOfAll(peers, ask, forward, asked);
    }
  }

  // ---------------------------------------------------------------------------
  // Once-ever fan-out
  // ---------------------------------------------------------------------------

  /** A call that passed the staleness check and went on to the index. */
  datatype Visit = Visit(timestamp: int, checkedAt: Time)

  /**
   A run of the node's index: operation j, when it is a call, belongs to visit j. The gap
   between a call's two clock readings is at most `gap`.
   */
  ghost predicate NodeRun(ops: seq<Dedup.Op>, visits: seq<Visit>, gap: Duration) {
    && Dedup.WellTimed(ops) && |visits| == |ops|
    && forall j :: 0 <= j < |ops| && ops[j].Touch? ==>
         && ops[j].ttl == DISCOVERY_TTL
         && visits[j].checkedAt <= ops[j].now <= visits[j].checkedAt + gap
         && !Stale(visits[j].timestamp, visits[j].checkedAt)
  }

  /** Within the TTL of the call that was let through, every other call with that id is recognised. */
  lemma SeenWithinWindow(hash: string -> nat, ops: seq<Dedup.Op>, visits: seq<Visit>, gap: Duration, i: nat, j: nat)
    requires NodeRun(ops, visits, gap) && i < j < |ops| && ops[i].Touch? && ops[j].Touch? && ops[i].key == ops[j].key
    requires !Dedup.Seen(hash, ops, i) && ops[j].now < ops[i].now + 30_000_000_000
    ensures Dedup.Seen(hash, ops, j)
  {
    Dedup.SeenIffRegisteredWithinTtl(hash, ops, j);
    assert Dedup.Registers(hash, ops, i, ops[j].key);
  }

  /**
   A request that was first let through at a time whose millisecond, even reckoned `gap`
   earlier, lies after the request's own timestamp is never let through again: by the time
   its index entry has expired, or has been purged, it is stale.
   */
  lemma LetThroughOnce(hash: string -> nat, ops: seq<Dedup.Op>, visits: seq<Visit>, gap: Duration, i: nat, j: nat)
    requires NodeRun(ops, visits, gap) && i < j < |ops| && ops[i].Touch? && ops[j].Touch?
    requires ops[i].key == ops[j].key && visits[i].timestamp == visits[j].timestamp > 0
    requires !Dedup.Seen(hash, ops, i) && UnixMilli(ops[i].now - gap) > visits[i].timestamp
    ensures Dedup.Seen(hash, ops, j)
  {
    Dedup.SeenIffRegisteredWithinTtl(hash, ops, j);
    assert Dedup.Registers(hash, ops, i, ops[j].key);
    assert ops[j].now < ops[i].now + DISCOVERY_TTL;
  }

  /** Two visits to the node with one request, both let through, the first at `first`. */
  ghost predicate LetThroughTwice(hash: string -> nat, ops: seq<Dedup.Op>, visits: seq<Visit>, gap: Duration,
                                  first: Time, timestamp: int, i: nat, j: nat)
  {
    && NodeRun(ops, visits, gap) && i < j < |ops| && ops[i].Touch? && ops[j].Touch? && ops[i].key == ops[j].key
    && ops[i].now == first && visits[i].timestamp == visits[j].timestamp == timestamp
    && !Dedup.Seen(hash, ops, i) && !Dedup.Seen(hash, ops, j)
  }

  /**
   Over runs of the node's index: no run lets a request through twice, the first time at
   `first`, if and only if that time, reckoned `gap` earlier, lies after its timestamp.
   */
  lemma LetThroughOnceIff(hash: string -> nat, first: Time, timestamp: int, gap: Duration)
    requires timestamp > 0 && gap >= 0
    ensures UnixMilli(first - gap) > timestamp <==>
              forall ops, visits, i, j :: !LetThroughTwice(hash, ops, visits, gap, first, timestamp, i, j)
  {
    if UnixMilli(first - gap) > timestamp {
      forall ops, visits, i, j
        ensures !LetThroughTwice(hash, ops, visits, gap, first, timestamp, i, j)
      {
        if LetThroughTwice(hash, ops, visits, gap, first, timestamp, i, j) {
          LetThroughOnce(hash, ops, visits, gap, i, j);
        }
      }
    } else {
      SecondVisitSlipsThrough(hash, first, timestamp, gap);
    }
  }

  /** Otherwise: a visit at `first`, and one that is checked `gap` before the entry expires and looked up just then. */
  lemma SecondVisitSlipsThrough(hash: string -> nat, first: Time, timestamp: int, gap: Duration)
    requires timestamp > 0 && gap >= 0 && UnixMilli(first - gap) <= timestamp
    ensures exists ops, visits, i, j :: LetThroughTwice(hash, ops, visits, gap, first, timestamp, i, j)
  {
    var again := first + DISCOVERY_TTL;
    var ops := [Dedup.Touch("", DISCOVERY_TTL, first), Dedup.Touch("", DISCOVERY_TTL, again)];
    var visits := [Visit(timestamp, first - gap), Visit(timestamp, again - gap)];
    assert UnixMilli(again - gap) == UnixMilli(first - gap) + 30_000;
    Dedup.SeenIffRegisteredWithinTtl(hash, ops, 0);
    Dedup.SeenIffRegisteredWithinTtl(hash, ops, 1);
    assert LetThroughTwice(hash, ops, visits, gap, first, timestamp, 0, 1);
  }

  /**
   With one clock reading per call a timestamp strictly before the first processing time
   suffices. With two readings a single nanosecond between them is enough to fan out twice.
   */
  lemma TwoReadingsFanOutTwice(hash: string -> nat, key: string)
    ensures var ops := [Dedup.Touch(key, DISCOVERY_TTL, 1001 * MILLISECOND), Dedup.Touch(key, DISCOVERY_TTL, 31_001 * MILLISECOND)];
      var visits := [Visit(1000, 1001 * MILLISECOND), Visit(1000, 31_001 * MILLISECOND - 1)];
      && NodeRun(ops, visits, 1) && UnixMilli(ops[0].now) > visits[0].timestamp
      && !Dedup.Seen(hash, ops, 0) && !Dedup.Seen(hash, ops, 1)
  {
    var ops := [Dedup.Touch(key, DISCOVERY_TTL, 1001 * MILLISECOND), Dedup.Touch(key, DISCOVERY_TTL, 31_001 * MILLISECOND)];
    Dedup.SeenIffRegisteredWithinTtl(hash, ops, 0);
    Dedup.SeenIffRegisteredWithinTtl(hash, ops, 1);
  }
}

/**
 Tiered forwarding: internal/delivery/forwarder.go. The peers are arbitrary: `net(addr, i)`
 is the outcome of the i-th send of the process if it goes to `addr`, and `cancelled(i)`
 whether the caller's context is found done after it.
 */
module Forwarder {
  import opened Clock
  import opened Collections
  import opened Config
  import opened Dlq
  import opened Envelopes
  import opened Retry
  import opened Wrappers
  import Cutoff
  import Schema
  import Transit

  type Network = (string, nat) -> Result<string, string>

  // ---------------------------------------------------------------------------
  // Choosing peers
  // ---------------------------------------------------------------------------

  const NOT_ELIGIBLE := 3

  predicate Eligible(cfg: Config, region: string, key: string) {
    && key in cfg.peers
    && (cfg.policy.allowVia == [] || cfg.peers[key].nodeScope in cfg.policy.allowVia)
    && (|| (cfg.peers[key].nodeScope == "regional" && key == region)
        || (cfg.peers[key].nodeScope == "alliance" && region in cfg.peers[key].regions)
        || cfg.peers[key].nodeScope == "global")
  }

  /** Preference of a peer: regional before alliance before global; the last rank is never used. */
  function Rank(cfg: Config, region: string, key: string): (r: nat)
    ensures r < NOT_ELIGIBLE <==> Eligible(cfg, region, key)
  {
    if !Eligible(cfg, region, key) then NOT_ELIGIBLE
    else if cfg.peers[key].nodeScope == "regional" then 0
    else if cfg.peers[key].nodeScope == "alliance" then 1
    else 2
  }

  /**
   `peers` are the peers under `keys`, which lists each peer of rank below n exactly once,
   best rank first.
   */
  ghost predicate Ranked<P>(m: map<string, P>, rank: string -> nat, n: nat, peers: seq<P>, keys: seq<string>) {
    && |peers| == |keys|
    && (forall i :: 0 <= i < |keys| ==> keys[i] in m && peers[i] == m[keys[i]] && rank(keys[i]) < n)
    && (forall k :: k in m && rank(k) < n ==> k in keys)
    && Distinct(keys)
    && (forall i, j :: 0 <= i < j < |keys| ==> rank(keys[i]) <= rank(keys[j]))
  }

  /**
   `peers` are the peers under `keys`: each that may be used, once. A regional peer may be
   used for the region it is filed under, an alliance peer for the regions it lists, a global
   peer for every region, and only tiers that are allowed, if any are named. Regional peers
   come first and global peers last.
   */
  ghost predicate TierOrderedBy(cfg: Config, region: string, peers: seq<PeerConfig>, keys: seq<string>) {
    && |peers| == |keys| && Distinct(keys)
    && (forall i :: 0 <= i < |keys| ==> keys[i] in cfg.peers && peers[i] == cfg.peers[keys[i]])
    && (forall k :: k in cfg.peers ==>
          (k in keys <==>
             && (cfg.policy.allowVia == [] || cfg.peers[k].nodeScope in cfg.policy.allowVia)
             && (|| (cfg.peers[k].nodeScope == "regional" && k == region)
                 || (cfg.peers[k].nodeScope == "alliance" && region in cfg.peers[k].regions)
                 || cfg.peers[k].nodeScope == "global")))
    && (forall i, j :: 0 <= i < j < |peers| ==>
          && (peers[j].nodeScope == "regional" ==> peers[i].nodeScope == "regional")
          && (peers[i].nodeScope == "global" ==> peers[j].nodeScope == "global"))
  }

  ghost predicate TierOrdered(cfg: Config, region: string, peers: seq<PeerConfig>) {
    exists keys :: TierOrderedBy(cfg, region, peers, keys)
  }

  /** Ranking does that. */
  lemma RankedIsTierOrdered(cfg: Config, region: string, rank: string -> nat, peers: seq<PeerConfig>, keys: seq<string>)
    requires (forall k :: rank(k) == Rank(cfg, region, k)) && Ranked(cfg.peers, rank, NOT_ELIGIBLE, peers, keys)
    ensures TierOrderedBy(cfg, region, peers, keys)
  {
    forall i | 0 <= i < |keys|
      ensures Rank(cfg, region, keys[i]) < NOT_ELIGIBLE
    {
      assert rank(keys[i]) == Rank(cfg, region, keys[i]);
    }
    forall i, j | 0 <= i < j < |keys|
      ensures Rank(cfg, region, keys[i]) <= Rank(cfg, region, keys[j])
    {
      assert rank(keys[i]) == Rank(cfg, region, keys[i]) && rank(keys[j]) == Rank(cfg, region, keys[j]);
    }
  }

  /** The peers of rank n met so far. */
  ghost predicate Collected<P>(m: map<string, P>, rank: string -> nat, n: nat, todo: set<string>, peers: seq<P>,
                               keys: seq<string>)
  {
    && |peers| == |keys|
    && (forall i :: 0 <= i < |keys| ==>
          keys[i] in m && keys[i] !in todo && peers[i] == m[keys[i]] && rank(keys[i]) == n)
    && (forall k :: k in m && k !in todo && rank(k) == n ==> k in keys)
    && Distinct(keys)
  }

  lemma CollectMore<P>(m: map<string, P>, rank: string -> nat, n: nat, todo: set<string>, peers: seq<P>,
                       keys: seq<string>, k: string)
    requires Collected(m, rank, n, todo, peers, keys) && k in todo && k in m
    ensures if rank(k) == n then Collected(m, rank, n, todo - {k}, peers + [m[k]], keys + [k])
            else Collected(m, rank, n, todo - {k}, peers, keys)
  {
    assert forall x :: x in keys + [k] <==> x in keys || x == k;
  }

  lemma AddTier<P>(m: map<string, P>, rank: string -> nat, n: nat, peers: seq<P>, keys: seq<string>,
                   more: seq<P>, moreKeys: seq<string>)
    requires Ranked(m, rank, n, peers, keys) && Collected(m, rank, n, {}, more, moreKeys)
    ensures Ranked(m, rank, n + 1, peers + more, keys + moreKeys)
  {
    assert forall k :: k in keys + moreKeys <==> k in keys || k in moreKeys;
  }

  method PeersFor(cfg: Config, region: string) returns (peers: seq<PeerConfig>)
    ensures TierOrdered(cfg, region, peers)
  {
    ghost var rank := k => Rank(cfg, region, k);
    peers := RankPeers(cfg, region, rank);
    ghost var keys :| Ranked(cfg.peers, rank, NOT_ELIGIBLE, peers, keys);
    RankedIsTierOrdered(cfg, region, rank, peers, keys);
  }

  method RankPeers(cfg: Config, region: string, ghost rank: string -> nat)
    returns (peers: seq<PeerConfig>)
    requires forall k :: rank(k) == Rank(cfg, region, k)
    ensures exists keys :: Ranked(cfg.peers, rank, NOT_ELIGIBLE, peers, keys)
  {
    var regional, alliance, global: seq<PeerConfig> := [], [], [];
    ghost var rk, ak, gk: seq<string> := [], [], [];
    var todo := cfg.peers.Keys;
    while todo != {}
      invariant todo <= cfg.peers.Keys
      invariant Collected(cfg.peers, rank, 0, todo, regional, rk)
      invariant Collected(cfg.peers, rank, 1, todo, alliance, ak)
      invariant Collected(cfg.peers, rank, 2, todo, global, gk)
      decreases todo
    {
      var key :| key in todo;
      var peer := cfg.peers[key];
      CollectMore(cfg.peers, rank, 0, todo, regional, rk, key);
      CollectMore(cfg.peers, rank, 1, todo, alliance, ak, key);
      CollectMore(cfg.peers, rank, 2, todo, global, gk, key);
      todo := todo - {key};
      if |cfg.policy.allowVia| > 0 && peer.nodeScope !in cfg.policy.allowVia {
        continue;
      }
      if peer.nodeScope == "regional" {
        if key == region {
          regional, rk := regional + [peer], rk + [key];
        }
      } else if peer.nodeScope == "alliance" {
        if region in peer.regions {
          alliance, ak := alliance + [peer], ak + [key];
        }
      } else if peer.nodeScope == "global" {
        global, gk := global + [peer], gk + [key];
      }
    }
    FirstTier(cfg.peers, rank, regional, rk);
    JoinTiers(cfg.peers, rank, regional, rk, alliance, ak, global, gk);
    return regional + alliance + global;
  }

  lemma FirstTier<P>(m: map<string, P>, rank: string -> nat, peers: seq<P>, keys: seq<string>)
    requires Collected(m, rank, 0, {}, peers, keys)
    ensures Ranked(m, rank, 1, peers, keys)
  {
  }

  lemma JoinTiers<P>(m: map<string, P>, rank: string -> nat, a: seq<P>, ak: seq<string>, b: seq<P>, bk: seq<string>,
                     c: seq<P>, ck: seq<string>)
    requires Ranked(m, rank, 1, a, ak) && Collected(m, rank, 1, {}, b, bk) && Collected(m, rank, 2, {}, c, ck)
    ensures Ranked(m, rank, 3, a + b + c, ak + bk + ck)
  {
    AddTier(m, rank, 1, a, ak, b, bk);
    AddTier(m, rank, 2, a + b, ak + bk, c, ck);
  }

  /** The list with its i-th element moved to the front. */
  function MoveToFront<T>(s: seq<T>, i: nat): seq<T>
    requires i < |s|
  {
    [s[i]] + s[..i] + s[i + 1..]
  }

  /** The index of the first peer in the hinted region. */
  ghost predicate HintedAt(peers: seq<PeerConfig>, hint: string, i: nat) {
    i < |peers| && peers[i].region == hint && forall j :: 0 <= j < i ==> peers[j].region != hint
  }

  ghost predicate Reordered(peers: seq<PeerConfig>, hint: string, out: seq<PeerConfig>) {
    && (forall i: nat :: HintedAt(peers, hint, i) ==> out == MoveToFront(peers, i))
    && ((forall p :: p in peers ==> p.region != hint) ==> out == peers)
  }

  method ReorderByHint(peers: seq<PeerConfig>, hint: string) returns (out: seq<PeerConfig>)
    ensures Reordered(peers, hint, out)
    ensures |out| == |peers| && multiset(out) == multiset(peers)
    ensures if i: nat :| i < |peers| && peers[i].region == hint && forall j :: 0 <= j < i ==> peers[j].region != hint
            then out == [peers[i]] + peers[..i] + peers[i + 1..]
            else out == peers
  {
    for i := 0 to |peers|
      invariant forall j :: 0 <= j < i ==> peers[j].region != hint
    {
      if peers[i].region == hint {
        out := [peers[i]];
        out := out + peers[..i];
        out := out + peers[i + 1..];
        MoveIsPermutation(peers, i);
        return;
      }
    }
    return peers;
  }

  /** Moving to the front keeps the elements and the order of all the others. */
  lemma MoveIsPermutation<T>(s: seq<T>, i: nat)
    requires i < |s|
    ensures multiset(MoveToFront(s, i)) == multiset(s)
    ensures MoveToFront(s, i)[0] == s[i] && MoveToFront(s, i)[1..] == s[..i] + s[i + 1..]
  {
    assert s == s[..i] + ([s[i]] + s[i + 1..]);
  }

  // ---------------------------------------------------------------------------
  // Cutoff windows
  // ---------------------------------------------------------------------------

  datatype WindowCheck = Open | Closed(nextOpen: Option<Time>)

  /** A corridor without a window is always open; a window that does not parse is closed with no next opening. */
  function CheckCutoffWindow(cfg: Config, env: Envelope, now: Time): WindowCheck {
    var windows := cfg.iso20022.cutoffWindows;
    var corridor := env.senderRegion + "-" + env.recipientRegion;
    if corridor !in windows then Open
    else match windows[corridor]
      case None => Closed(None)
      case Some(w) => if Cutoff.IsInWindow(w, now) then Open else Closed(Some(Cutoff.NextOpen(w, now)))
  }

  /** Only financial messages are held to a window. */
  function WindowFor(cfg: Config, env: Envelope, now: Time): WindowCheck {
    if env.schemaType == Schema.ISO20022 then CheckCutoffWindow(cfg, env, now) else Open
  }

  /**
   Forwarding is held back exactly for a financial message whose corridor, sender first, has a
   window that does not parse or is not open: no opening, on any day, that still lasts.
   */
  lemma HeldBackIff(cfg: Config, env: Envelope, t: Time)
    requires forall k :: k in cfg.iso20022.cutoffWindows && cfg.iso20022.cutoffWindows[k].Some? ==>
               Cutoff.ValidWindow(cfg.iso20022.cutoffWindows[k].value)
    ensures var windows := cfg.iso20022.cutoffWindows; var corridor := env.senderRegion + "-" + env.recipientRegion;
      && (WindowFor(cfg, env, t).Closed? <==>
            && env.schemaType == "iso20022" && corridor in windows
            && (windows[corridor].None? || forall day: int :: !Cutoff.OpenOn(windows[corridor].value, t, day)))
      && (WindowFor(cfg, env, t).Closed? ==> (WindowFor(cfg, env, t).nextOpen.None? <==> windows[corridor].None?))
  {
    var corridor := env.senderRegion + "-" + env.recipientRegion;
    if corridor in cfg.iso20022.cutoffWindows && cfg.iso20022.cutoffWindows[corridor].Some? {
      Cutoff.InWindowIff(cfg.iso20022.cutoffWindows[corridor].value, t);
    }
  }

  /** An envelope put aside for a parsed, ever-open window is stamped with the first instant it could go. */
  lemma ClosedUntil(cfg: Config, env: Envelope, now: Time, w: CutoffWindow)
    requires var corridor := env.senderRegion + "-" + env.recipientRegion;
      corridor in cfg.iso20022.cutoffWindows && cfg.iso20022.cutoffWindows[corridor] == Some(w)
    requires Cutoff.ValidWindow(w) && w.open != w.close && CheckCutoffWindow(cfg, env, now).Closed?
    ensures var t := CheckCutoffWindow(cfg, env, now).nextOpen;
      && t.Some? && CheckCutoffWindow(cfg, env, t.value) == Open
      && forall u :: now <= u < t.value ==> CheckCutoffWindow(cfg, env, u).Closed?
  {
    Cutoff.NextOpenIsFirst(w, now);
  }

  // ---------------------------------------------------------------------------
  // Sending
  // ---------------------------------------------------------------------------

  /** The outcomes of sends to one address. */
  function At(net: Network, addr: string): Sender {
    (i: nat) => net(addr, i)
  }

  /** The number of the first send to peer i, when every peer before it is retried to the end. */
  function FirstSend(p: RetryPolicy, net: Network, cancelled: nat -> bool, start: nat, peers: seq<PeerConfig>, i: nat): nat
    requires i <= |peers|
  {
    if i == 0 then start
    else
      var from := FirstSend(p, net, cancelled, start, peers, i - 1);
      from + SendCount(p, At(net, peers[i - 1].addr), cancelled, from)
  }

  /** The retries to peer i end in success. A policy that allows no attempt counts as success. */
  predicate Accepts(p: RetryPolicy, net: Network, cancelled: nat -> bool, start: nat, peers: seq<PeerConfig>, i: nat)
    requires i < |peers|
  {
    var end := FirstSend(p, net, cancelled, start, peers, i + 1);
    p.maxAttempts <= 0 || (end > 0 && net(peers[i].addr, end - 1).Ok?)
  }

  /** Peer i is the first of the list to accept, and `root` is what it answered. */
  ghost predicate FirstToAccept(p: RetryPolicy, net: Network, cancelled: nat -> bool, start: nat,
                                peers: seq<PeerConfig>, i: nat, root: string)
  {
    && i < |peers| && Accepts(p, net, cancelled, start, peers, i)
    && (forall k :: 0 <= k < i ==> !Accepts(p, net, cancelled, start, peers, k))
    && root == if p.maxAttempts <= 0 then ""
               else net(peers[i].addr, FirstSend(p, net, cancelled, start, peers, i + 1) - 1).value
  }

  ghost predicate NoneAccepts(p: RetryPolicy, net: Network, cancelled: nat -> bool, start: nat, peers: seq<PeerConfig>) {
    forall i :: 0 <= i < |peers| ==> !Accepts(p, net, cancelled, start, peers, i)
  }

  lemma CountBound(p: RetryPolicy, send: Sender, cancelled: nat -> bool, start: nat)
    requires p.maxAttempts >= 0
    ensures SendCount(p, send, cancelled, start) <= p.maxAttempts
    ensures p.maxAttempts > 0 ==> SendCount(p, send, cancelled, start) > 0
  {
    SendsAfterMakes(p, send, cancelled, start, 0);
  }

  /** The first i peers cost at most `maxAttempts` sends each. */
  lemma {:induction false} SendsAreBounded(p: RetryPolicy, net: Network, cancelled: nat -> bool, start: nat,
                                           peers: seq<PeerConfig>, i: nat)
    requires p.maxAttempts >= 0 && i <= |peers|
    ensures FirstSend(p, net, cancelled, start, peers, i) - start <= i * p.maxAttempts
  {
    if i > 0 {
      SendsAreBounded(p, net, cancelled, start, peers, i - 1);
      CountBound(p, At(net, peers[i - 1].addr), cancelled, FirstSend(p, net, cancelled, start, peers, i - 1));
      assert i * p.maxAttempts == (i - 1) * p.maxAttempts + p.maxAttempts;
    }
  }

  /**
   An acceptance reported to the caller was really sent and answered exactly if the policy
   allows an attempt at all; with none allowed the first peer "accepts" without a send.
   */
  lemma AcceptedWasSentIff(p: RetryPolicy, net: Network, cancelled: nat -> bool, start: nat,
                           peers: seq<PeerConfig>, i: nat, root: string)
    requires FirstToAccept(p, net, cancelled, start, peers, i, root)
    ensures p.maxAttempts >= 1 <==>
              exists n :: start <= n < FirstSend(p, net, cancelled, start, peers, i + 1) && net(peers[i].addr, n) == Ok(root)
  {
    var from, end := FirstSend(p, net, cancelled, start, peers, i), FirstSend(p, net, cancelled, start, peers, i + 1);
    if p.maxAttempts >= 1 {
      CountBound(p, At(net, peers[i].addr), cancelled, from);
      FirstSendGrows(p, net, cancelled, start, peers, i);
      assert start <= end - 1 < end && net(peers[i].addr, end - 1) == Ok(root);
    } else {
      NothingSent(p, net, cancelled, start, peers, i + 1);
    }
  }

  lemma {:induction false} FirstSendGrows(p: RetryPolicy, net: Network, cancelled: nat -> bool, start: nat,
                                          peers: seq<PeerConfig>, i: nat)
    requires i <= |peers|
    ensures start <= FirstSend(p, net, cancelled, start, peers, i)
  {
    if i > 0 {
      FirstSendGrows(p, net, cancelled, start, peers, i - 1);
    }
  }

  lemma {:induction false} NothingSent(p: RetryPolicy, net: Network, cancelled: nat -> bool, start: nat,
                                       peers: seq<PeerConfig>, i: nat)
    requires p.maxAttempts <= 0 && i <= |peers|
    ensures FirstSend(p, net, cancelled, start, peers, i) == start
  {
    if i > 0 {
      NothingSent(p, net, cancelled, start, peers, i - 1);
    }
  }

  /**
   Retries to a peer that does not accept: up to the policy's number of sends, all of them
   failing, and fewer only if the caller's context was found done after the last.
   */
  lemma RefusedMeans(p: RetryPolicy, net: Network, cancelled: nat -> bool, start: nat, peers: seq<PeerConfig>, i: nat)
    requires i < |peers| && !Accepts(p, net, cancelled, start, peers, i)
    ensures var from, end := FirstSend(p, net, cancelled, start, peers, i), FirstSend(p, net, cancelled, start, peers, i + 1);
      && 1 <= end - from <= p.maxAttempts
      && (forall n :: from <= n < end ==> net(peers[i].addr, n).Err?)
      && (end - from < p.maxAttempts ==> cancelled(end - 1))
  {
    var from := FirstSend(p, net, cancelled, start, peers, i);
    var send := At(net, peers[i].addr);
    SendsAfterMakes(p, send, cancelled, from, 0);
    MakesMeans(p, send, cancelled, from, SendCount(p, send, cancelled, from));
    assert forall n: nat :: send(n) == net(peers[i].addr, n);
  }

  datatype ForwardError = OutsideWindow | NoPeer | Exhausted

  type Buffered = (Envelope, string)

  /** The candidate list of `PeersFor` after the routing hint was applied. */
  ghost predicate Route(cfg: Config, env: Envelope, peers: seq<PeerConfig>) {
    exists listed :: TierOrdered(cfg, env.recipientRegion, listed)
      && if env.routingHint == "" then peers == listed else Reordered(listed, env.routingHint, peers)
  }

  /** Whatever the iteration order, there is no peer to try if and only if none is eligible. */
  lemma NoPeerIff(cfg: Config, env: Envelope, peers: seq<PeerConfig>)
    requires Route(cfg, env, peers)
    ensures peers == [] <==> forall key :: !Eligible(cfg, env.recipientRegion, key)
  {
    var listed :| TierOrdered(cfg, env.recipientRegion, listed)
      && if env.routingHint == "" then peers == listed else Reordered(listed, env.routingHint, peers);
    var keys :| TierOrderedBy(cfg, env.recipientRegion, listed, keys);
    SameLength(listed, env.routingHint, peers, 0);
    if keys != [] {
      assert Eligible(cfg, env.recipientRegion, keys[0]);
    }
  }

  lemma {:induction false} SameLength(listed: seq<PeerConfig>, hint: string, peers: seq<PeerConfig>, i: nat)
    requires i <= |listed| && forall j :: 0 <= j < i ==> listed[j].region != hint
    ensures Reordered(listed, hint, peers) ==> |peers| == |listed|
    decreases |listed| - i
  {
    if i < |listed| {
      if listed[i].region == hint {
        assert HintedAt(listed, hint, i);
      } else {
        SameLength(listed, hint, peers, i + 1);
      }
    }
  }

  /** The peers a call of `Forward` went through, how many of them it tried, and with how many sends. */
  datatype Attempt = Attempt(peers: seq<PeerConfig>, tried: nat, sends: nat)

  const NO_ATTEMPT := Attempt([], 0, 0)

  /**
   What forwarding comes to: nothing is tried outside the window; without a peer there is
   nothing to try; else the peers are tried in order, up to the first that accepts, whose
   answer is the result, or all of them in vain.
   */
  ghost predicate ComesTo(cfg: Config, p: RetryPolicy, env: Envelope, net: Network, cancelled: nat -> bool, start: nat,
                          checkedAt: Time, r: Result<string, ForwardError>, t: Attempt)
  {
    && t.tried <= |t.peers| && start + t.sends == FirstSend(p, net, cancelled, start, t.peers, t.tried)
    && if WindowFor(cfg, env, checkedAt).Closed? then r == Err(OutsideWindow) && t == NO_ATTEMPT
       else
         && Route(cfg, env, t.peers)
         && if t.peers == [] then r == Err(NoPeer)
            else if r.Ok? then t.tried > 0 && FirstToAccept(p, net, cancelled, start, t.peers, t.tried - 1, r.value)
            else r == Err(Exhausted) && t.tried == |t.peers| && NoneAccepts(p, net, cancelled, start, t.peers)
  }

  /** What it leaves in the dead-letter queue, when the clock reads `asideAt` there. */
  function DeadLetters(cfg: Config, env: Envelope, checkedAt: Time, asideAt: Time, r: Result<string, ForwardError>, t: Attempt,
                       buffered: bool): seq<DlqEntry>
  {
    var check := WindowFor(cfg, env, checkedAt);
    if check.Closed? then [Stamped(CutoffEntry(env, check.nextOpen), UnixSeconds(asideAt))]
    else if r == Err(Exhausted) && !buffered && t.peers != [] then [ExhaustedEntry(env, t.peers[0].addr, asideAt)]
    else []
  }

  /** What a dead letter says. */
  lemma LettersSay(cfg: Config, env: Envelope, checkedAt: Time, asideAt: Time, r: Result<string, ForwardError>, t: Attempt,
                   buffered: bool)
    ensures var check := WindowFor(cfg, env, checkedAt); var letters := DeadLetters(cfg, env, checkedAt, asideAt, r, t, buffered);
      && (letters != [] <==> check.Closed? || (r == Err(Exhausted) && !buffered && t.peers != []))
      && (letters != [] ==>
            && |letters| == 1 && letters[0].envelope == env && letters[0].attempts == 0 && letters[0].lastErr == None
            && letters[0].firstSeenUnix == UnixSeconds(asideAt) && letters[0].lastAttemptUnix == 0
            && letters[0].peerAddr == (if check.Closed? then "" else t.peers[0].addr)
            && letters[0].reason == (if check.Closed? then "outside_cutoff_window" else "")
            && letters[0].nextOpenUnix == (if check.Closed? && check.nextOpen.Some? then UnixMilli(check.nextOpen.value) else 0))
  {
  }

  /** What it does to the transit buffer. */
  ghost predicate Buffers(ttl: Duration, env: Envelope, asideAt: Time, r: Result<string, ForwardError>, t: Attempt,
                          m: Transit.Buffer<Buffered>, m': Transit.Buffer<Buffered>)
  {
    if r == Err(Exhausted) && t.peers != [] then
      Transit.PutStep(ttl, m, env.idempotencyKey, (env, t.peers[0].addr), asideAt, m')
    else m' == m
  }

  /** The envelope is in the buffer under its key, meant for `addr`, until `expires`. */
  ghost predicate Holds(m: Transit.Buffer<Buffered>, env: Envelope, addr: string, expires: Time) {
    && env.idempotencyKey in m
    && m[env.idempotencyKey].item == (env, addr) && m[env.idempotencyKey].expires == expires
  }

  class Forwarder {
    const cfg: Config
    const dlq: DLQ?
    const transitCache: Transit.Cache?<Buffered>
    const policy: RetryPolicy

    constructor (cfg: Config, dlq: DLQ?, transitCache: Transit.Cache?<Buffered>, policy: RetryPolicy)
      ensures this.cfg == cfg && this.dlq == dlq && this.transitCache == transitCache && this.policy == policy
    {
      this.cfg, this.dlq, this.transitCache, this.policy := cfg, dlq, transitCache, policy;
    }

    /** Try the peers in order, each with its own retries, until one accepts. */
    method TryPeers(peers: seq<PeerConfig>, net: Network, cancelled: nat -> bool, start: nat)
      returns (root: Option<string>, sends: nat, tried: nat)
      ensures tried <= |peers| && start + sends == FirstSend(policy, net, cancelled, start, peers, tried)
      ensures root.Some? ==> tried > 0 && FirstToAccept(policy, net, cancelled, start, peers, tried - 1, root.value)
      ensures root.None? ==> tried == |peers| && NoneAccepts(policy, net, cancelled, start, peers)
    {
      sends := 0;
      for i := 0 to |peers|
        invariant start + sends == FirstSend(policy, net, cancelled, start, peers, i)
        invariant forall k :: 0 <= k < i ==> !Accepts(policy, net, cancelled, start, peers, k)
      {
        var addr := peers[i].addr;
        var err, n, waits := SendWithRetry(policy, At(net, addr), cancelled, start + sends, null, NoEntry(), _ => 0, 0);
        sends := sends + n;
        if err.None? {
          return Some(if n == 0 then "" else net(addr, start + sends - 1).value), sends, i + 1;
        }
      }
      return None, sends, |peers|;
    }

    /**
     Deliver, or account for the failure: the dead-letter queue when the window is closed,
     the transit buffer (or else the queue) when every peer is exhausted, nothing at all
     when there is no peer to try.
     */
    method Forward(env: Envelope, net: Network, cancelled: nat -> bool, start: nat, checkedAt: Time,
                   asideAt: Time)
      returns (r: Result<string, ForwardError>, t: Attempt)
      modifies dlq, transitCache
      ensures ComesTo(cfg, policy, env, net, cancelled, start, checkedAt, r, t)
      ensures dlq != null ==>
                dlq.entries == old(dlq.entries) + DeadLetters(cfg, env, checkedAt, asideAt, r, t, transitCache != null)
      ensures transitCache != null ==>
                Buffers(transitCache.ttl, env, asideAt, r, t, old(transitCache.entries), transitCache.entries)
      ensures transitCache != null && r == Err(Exhausted) ==>
                t.peers != [] && Holds(transitCache.entries, env, t.peers[0].addr, asideAt + transitCache.ttl)
      ensures transitCache != null && r != Err(Exhausted) ==> transitCache.entries == old(transitCache.entries)
    {
      var check := WindowFor(cfg, env, checkedAt);
      if check.Closed? {
        if dlq != null {
          dlq.Append(CutoffEntry(env, check.nextOpen), UnixSeconds(asideAt));
        }
        return Err(OutsideWindow), NO_ATTEMPT;
      }
      var peers := Candidates(env);
      if |peers| == 0 {
        return Err(NoPeer), NO_ATTEMPT;
      }
      r, t := Deliver(env, peers, net, cancelled, start, asideAt);
    }

    /** Send to the candidates, and set the envelope aside if none accepts. */
    method Deliver(env: Envelope, peers: seq<PeerConfig>, net: Network, cancelled: nat -> bool, start: nat, asideAt: Time)
      returns (r: Result<string, ForwardError>, t: Attempt)
      requires peers != []
      modifies dlq, transitCache
      ensures t.peers == peers && t.tried <= |peers|
      ensures start + t.sends == FirstSend(policy, net, cancelled, start, peers, t.tried)
      ensures r.Ok? ==> t.tried > 0 && FirstToAccept(policy, net, cancelled, start, peers, t.tried - 1, r.value)
      ensures r.Err? ==> r.error.Exhausted? && t.tried == |peers| && NoneAccepts(policy, net, cancelled, start, peers)
      ensures dlq != null ==>
                dlq.entries == old(dlq.entries)
                  + if r.Err? && transitCache == null then [ExhaustedEntry(env, peers[0].addr, asideAt)] else []
      ensures transitCache != null ==>
                Buffers(transitCache.ttl, env, asideAt, r, t, old(transitCache.entries), transitCache.entries)
      ensures transitCache != null && r.Err? ==>
                Holds(transitCache.entries, env, peers[0].addr, asideAt + transitCache.ttl)
    {
      var root, sends, tried := TryPeers(peers, net, cancelled, start);
      t := Attempt(peers, tried, sends);
      if root.Some? {
        return Ok(root.value), t;
      }
      r := Err(Exhausted);
      SetAside(env, peers[0].addr, asideAt);
    }

    method Candidates(env: Envelope) returns (peers: seq<PeerConfig>)
      ensures Route(cfg, env, peers)
    {
      peers := PeersFor(cfg, env.recipientRegion);
      if env.routingHint != "" {
        peers := ReorderByHint(peers, env.routingHint);
      }
    }

    /** Every peer failed: buffer the envelope if there is a buffer, else queue it if there is a queue. */
    method SetAside(env: Envelope, addr: string, now: Time)
      modifies dlq, transitCache
      ensures dlq != null ==>
                dlq.entries == old(dlq.entries) + if transitCache != null then [] else [ExhaustedEntry(env, addr, now)]
      ensures transitCache != null ==>
                Transit.PutStep(transitCache.ttl, old(transitCache.entries), env.idempotencyKey, (env, addr), now,
                                transitCache.entries)
      ensures transitCache != null ==> Holds(transitCache.entries, env, addr, now + transitCache.ttl)
    {
      if transitCache != null {
        transitCache.Put(env.idempotencyKey, (env, addr), now);
        return;
      }
      if dlq != null {
        dlq.Append(NoEntry().(envelope := env, peerAddr := addr), UnixSeconds(now));
      }
    }
  }

  function ExhaustedEntry(env: Envelope, addr: string, now: Time): DlqEntry {
    Stamped(NoEntry().(envelope := env, peerAddr := addr), UnixSeconds(now))
  }

  function NoEntry(): DlqEntry {
    DlqEntry(Envelope("", "", "", "", 0, false, "", "", ""), "", 0, None, 0, 0, "", 0)
  }

  function CutoffEntry(env: Envelope, nextOpen: Option<Time>): DlqEntry {
    DlqEntry(env, "", 0, None, 0, 0, "outside_cutoff_window", if nextOpen.Some? then UnixMilli(nextOpen.value) else 0)
  }
}

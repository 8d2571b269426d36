/**
 The revocation store of internal/crl/store.go: signatures accumulate per node, two of
 them revoke it, and `Merge` replays a peer's entries signature by signature.
 */
module Crl {
  import opened Clock
  import opened Collections

  type Signature = seq<bv8>

  datatype Entry = Entry(nodeId: string, reason: string, revokedAt: Time, signatures: seq<Signature>)

  type Entries = map<string, Entry>

  const QUORUM := 2

  predicate IsRevoked(m: Entries, node: string) {
    node in m && |m[node].signatures| >= QUORUM
  }

  /** One call of `Revoke`, made directly or on behalf of `Merge`. */
  datatype Receipt = Receipt(node: string, reason: string, sig: Signature, now: Time)

  function EntryFor(m: Entries, r: Receipt): Entry {
    if r.node in m then m[r.node] else Entry(r.node, r.reason, r.now, [])
  }

  function Receive(m: Entries, r: Receipt): Entries {
    var e := EntryFor(m, r);
    m[r.node := if r.sig in e.signatures then e else e.(signatures := e.signatures + [r.sig])]
  }

  function ReceiveAll(m: Entries, rs: seq<Receipt>): Entries {
    if rs == [] then m else Receive(ReceiveAll(m, rs[..|rs| - 1]), rs[|rs| - 1])
  }

  /** The receipts `Merge` issues: every signature of every entry, in order. */
  function ReceiptsOfEntry(e: Entry, n: nat, now: Time): (rs: seq<Receipt>)
    requires n <= |e.signatures|
    ensures |rs| == n && forall i :: 0 <= i < n ==> rs[i] == Receipt(e.nodeId, e.reason, e.signatures[i], now)
  {
    seq(n, i requires 0 <= i < n => Receipt(e.nodeId, e.reason, e.signatures[i], now))
  }

  function ReceiptsOf(es: seq<Entry>, now: Time): seq<Receipt> {
    if es == [] then []
    else
      var last := es[|es| - 1];
      ReceiptsOf(es[..|es| - 1], now) + ReceiptsOfEntry(last, |last.signatures|, now)
  }

  class Store {
    var entries: Entries

    constructor ()
      ensures entries == map[]
    {
      entries := map[];
    }

    method Revoke(nodeId: string, reason: string, sig: Signature, now: Time)
      modifies this
      ensures entries == Receive(old(entries), Receipt(nodeId, reason, sig, now))
      ensures nodeId in entries && sig in entries[nodeId].signatures
      ensures forall n :: n != nodeId ==> (n in entries <==> n in old(entries)) && (n in entries ==> entries[n] == old(entries)[n])
      ensures nodeId in old(entries) ==>
                && entries[nodeId].reason == old(entries)[nodeId].reason && entries[nodeId].revokedAt == old(entries)[nodeId].revokedAt
                && entries[nodeId].signatures == old(entries)[nodeId].signatures
                     + if sig in old(entries)[nodeId].signatures then [] else [sig]
      ensures nodeId !in old(entries) ==> entries[nodeId] == Entry(nodeId, reason, now, [sig])
    {
      if nodeId !in entries {
        entries := entries[nodeId := Entry(nodeId, reason, now, [])];
      }
      var e := entries[nodeId];
      for i := 0 to |e.signatures|
        invariant forall k :: 0 <= k < i ==> e.signatures[k] != sig
        invariant entries == old(entries)[nodeId := e] && e == EntryFor(old(entries), Receipt(nodeId, reason, sig, now))
      {
        if e.signatures[i] == sig {
          return;
        }
      }
      entries := entries[nodeId := e.(signatures := e.signatures + [sig])];
    }

    method QueryRevoked(nodeId: string) returns (revoked: bool)
      ensures revoked == IsRevoked(entries, nodeId)
      ensures revoked <==> nodeId in entries && |entries[nodeId].signatures| >= 2
    {
      revoked := nodeId in entries && |entries[nodeId].signatures| >= 2;
    }

    /** `Entries`: a snapshot, in whatever order the map is ranged over. */
    method Snapshot() returns (out: seq<Entry>)
      ensures IsSnapshot(entries, out) && |out| == |entries|
    {
      out := [];
      var todo := entries.Keys;
      while todo != {}
        invariant todo <= entries.Keys && |out| + |todo| == |entries|
        invariant forall k :: k in entries && k !in todo ==> entries[k] in out
        invariant forall e :: e in out ==> exists k :: k in entries && entries[k] == e
        decreases todo
      {
        var k :| k in todo;
        todo := todo - {k};
        out := out + [entries[k]];
      }
    }

    method Merge(es: seq<Entry>, now: Time)
      modifies this
      ensures entries == ReceiveAll(old(entries), ReceiptsOf(es, now))
    {
      ghost var was := entries;
      for i := 0 to |es|
        invariant entries == ReceiveAll(was, ReceiptsOf(es[..i], now))
      {
        ghost var done := ReceiptsOf(es[..i], now);
        assert done + ReceiptsOfEntry(es[i], 0, now) == done;
        for j := 0 to |es[i].signatures|
          invariant entries == ReceiveAll(was, done + ReceiptsOfEntry(es[i], j, now))
        {
          Revoke(es[i].nodeId, es[i].reason, es[i].signatures[j], now);
          ReceiveOneMore(was, done, es[i], j, now);
        }
        assert es[..i + 1][..i] == es[..i];
      }
      assert es[..|es|] == es;
    }
  }

  lemma ReceiveOneMore(was: Entries, done: seq<Receipt>, e: Entry, j: nat, now: Time)
    requires j < |e.signatures|
    ensures Receive(ReceiveAll(was, done + ReceiptsOfEntry(e, j, now)), Receipt(e.nodeId, e.reason, e.signatures[j], now))
         == ReceiveAll(was, done + ReceiptsOfEntry(e, j + 1, now))
  {
    var rs := done + ReceiptsOfEntry(e, j + 1, now);
    assert rs[..|rs| - 1] == done + ReceiptsOfEntry(e, j, now);
  }

  // ---------------------------------------------------------------------------
  // What a store holds after any run
  // ---------------------------------------------------------------------------

  /** The signatures against `node` among the receipts. */
  function Received(rs: seq<Receipt>, node: string): set<Signature> {
    set i | 0 <= i < |rs| && rs[i].node == node :: rs[i].sig
  }

  /** The signatures a store holds against `node`. */
  ghost function Held(m: Entries, node: string): set<Signature> {
    if node in m then Elements(m[node].signatures) else {}
  }

  /** Entries are filed under their own node, never empty and never repeat a signature. */
  ghost predicate WellFormed(m: Entries) {
    forall n :: n in m ==> m[n].nodeId == n && m[n].signatures != [] && Distinct(m[n].signatures)
  }

  lemma ReceiveAdds(m: Entries, r: Receipt, node: string)
    requires WellFormed(m)
    ensures WellFormed(Receive(m, r))
    ensures Held(Receive(m, r), node) == Held(m, node) + (if r.node == node then {r.sig} else {})
  {
    if r.node == node {
      var e, e' := EntryFor(m, r), Receive(m, r)[node];
      assert forall s :: s in e'.signatures <==> s in e.signatures || s == r.sig;
      assert forall s :: s in Held(Receive(m, r), node) <==> s in e'.signatures;
      assert forall s :: s in Held(m, node) <==> s in e.signatures;
    }
  }

  /** Receiving in any order, with any repetition, is a set union for every node at once. */
  lemma {:induction false} ReceiveAllIsUnion(m: Entries, rs: seq<Receipt>, node: string)
    requires WellFormed(m)
    ensures WellFormed(ReceiveAll(m, rs))
    ensures Held(ReceiveAll(m, rs), node) == Held(m, node) + Received(rs, node)
  {
    if rs == [] {
      assert Received(rs, node) == {};
    } else {
      var n := |rs| - 1;
      ReceiveAllIsUnion(m, rs[..n], node);
      ReceiveAdds(ReceiveAll(m, rs[..n]), rs[n], node);
      ReceivedSnoc(rs, node);
    }
  }

  lemma ReceivedAppend(xs: seq<Receipt>, ys: seq<Receipt>, node: string)
    ensures Received(xs + ys, node) == Received(xs, node) + Received(ys, node)
  {
    var rs := xs + ys;
    forall s | s in Received(xs, node)
      ensures s in Received(rs, node)
    {
      var i :| 0 <= i < |xs| && xs[i].node == node && xs[i].sig == s;
      assert rs[i] == xs[i];
    }
    forall s | s in Received(ys, node)
      ensures s in Received(rs, node)
    {
      var i :| 0 <= i < |ys| && ys[i].node == node && ys[i].sig == s;
      assert rs[|xs| + i] == ys[i];
    }
  }

  lemma ReceivedSnoc(rs: seq<Receipt>, node: string)
    requires rs != []
    ensures Received(rs, node)
         == Received(rs[..|rs| - 1], node) + (if rs[|rs| - 1].node == node then {rs[|rs| - 1].sig} else {})
  {
    var n := |rs| - 1;
    ReceivedAppend(rs[..n], [rs[n]], node);
    assert rs == rs[..n] + [rs[n]];
    assert forall s :: s in Received([rs[n]], node) <==> [rs[n]][0].node == node && s == rs[n].sig;
  }

  /** A node is revoked exactly when two different signatures against it are held. */
  lemma RevokedIffQuorum(m: Entries, node: string)
    requires WellFormed(m)
    ensures IsRevoked(m, node) <==> |Held(m, node)| >= QUORUM
  {
    if node in m {
      DistinctSize(m[node].signatures);
    }
  }

  /**
   After any run of `Revoke` and `Merge` calls a store holds, without repetition, exactly
   the signatures it has received, and revokes exactly on two different ones.
   */
  lemma StoreHoldsWhatItReceived(rs: seq<Receipt>, node: string)
    ensures WellFormed(ReceiveAll(map[], rs))
    ensures Held(ReceiveAll(map[], rs), node) == Received(rs, node)
    ensures IsRevoked(ReceiveAll(map[], rs), node) <==> |Received(rs, node)| >= 2
  {
    ReceiveAllIsUnion(map[], rs, node);
    RevokedIffQuorum(ReceiveAll(map[], rs), node);
  }

  /** Revocation is permanent. */
  lemma RevocationIsPermanent(m: Entries, rs: seq<Receipt>, node: string)
    requires WellFormed(m) && IsRevoked(m, node)
    ensures IsRevoked(ReceiveAll(m, rs), node)
  {
    ReceiveAllIsUnion(m, rs, node);
    RevokedIffQuorum(m, node);
    RevokedIffQuorum(ReceiveAll(m, rs), node);
    var more := Held(ReceiveAll(m, rs), node) - Held(m, node);
    assert Held(ReceiveAll(m, rs), node) == Held(m, node) + more;
  }

  // ---------------------------------------------------------------------------
  // Gossip
  // ---------------------------------------------------------------------------

  /** `out` lists the entries of the store, in some order. */
  ghost predicate IsSnapshot(m: Entries, out: seq<Entry>) {
    && (forall k :: k in m ==> m[k] in out)
    && (forall e :: e in out ==> exists k :: k in m && m[k] == e)
  }

  lemma ReceivedOfEntry(e: Entry, now: Time, node: string, s: Signature)
    ensures s in Received(ReceiptsOfEntry(e, |e.signatures|, now), node) <==> e.nodeId == node && s in e.signatures
  {
    var rs := ReceiptsOfEntry(e, |e.signatures|, now);
    if e.nodeId == node && s in e.signatures {
      var j :| 0 <= j < |e.signatures| && e.signatures[j] == s;
      assert rs[j].sig == s && rs[j].node == node;
    }
  }

  ghost predicate Listed(es: seq<Entry>, node: string, s: Signature) {
    exists i :: 0 <= i < |es| && es[i].nodeId == node && s in es[i].signatures
  }

  lemma ListedSnoc(es: seq<Entry>, node: string, s: Signature)
    requires es != []
    ensures var n := |es| - 1;
      Listed(es, node, s) <==> Listed(es[..n], node, s) || (es[n].nodeId == node && s in es[n].signatures)
  {
    var n := |es| - 1;
    if Listed(es[..n], node, s) {
      var i :| 0 <= i < n && es[..n][i].nodeId == node && s in es[..n][i].signatures;
      assert es[i] == es[..n][i];
    }
    if Listed(es, node, s) {
      var i :| 0 <= i < |es| && es[i].nodeId == node && s in es[i].signatures;
      assert i < n ==> es[..n][i] == es[i];
    }
  }

  lemma {:induction false} ReceivedFromEntries(es: seq<Entry>, now: Time, node: string, s: Signature)
    ensures s in Received(ReceiptsOf(es, now), node) <==> Listed(es, node, s)
  {
    if es != [] {
      var n := |es| - 1;
      ReceivedFromEntries(es[..n], now, node, s);
      ReceivedAppend(ReceiptsOf(es[..n], now), ReceiptsOfEntry(es[n], |es[n].signatures|, now), node);
      ReceivedOfEntry(es[n], now, node, s);
      ListedSnoc(es, node, s);
    }
  }

  lemma ListedInSnapshot(m: Entries, out: seq<Entry>, node: string, s: Signature)
    requires WellFormed(m) && IsSnapshot(m, out)
    ensures Listed(out, node, s) <==> s in Held(m, node)
  {
    if s in Held(m, node) {
      var i :| 0 <= i < |out| && out[i] == m[node];
      assert out[i].nodeId == node && s in out[i].signatures;
    }
    if Listed(out, node, s) {
      var i :| 0 <= i < |out| && out[i].nodeId == node && s in out[i].signatures;
      assert out[i] in out;
      var k :| k in m && m[k] == out[i];
      assert k == node;
    }
  }

  /** Merging a peer's snapshot is a join: the union of what both hold. */
  lemma MergeIsJoin(a: Entries, b: Entries, snapshot: seq<Entry>, now: Time, node: string)
    requires WellFormed(a) && WellFormed(b) && IsSnapshot(b, snapshot)
    ensures WellFormed(ReceiveAll(a, ReceiptsOf(snapshot, now)))
    ensures Held(ReceiveAll(a, ReceiptsOf(snapshot, now)), node) == Held(a, node) + Held(b, node)
  {
    ReceiveAllIsUnion(a, ReceiptsOf(snapshot, now), node);
    forall s
      ensures s in Received(ReceiptsOf(snapshot, now), node) <==> s in Held(b, node)
    {
      ReceivedFromEntries(snapshot, now, node, s);
      ListedInSnapshot(b, snapshot, node, s);
    }
    assert Received(ReceiptsOf(snapshot, now), node) == Held(b, node);
  }

  /** Two stores that have merged each other's entries hold the same signatures and agree on every node. */
  lemma ExchangeConverges(a: Entries, b: Entries, fromA: seq<Entry>, fromB: seq<Entry>, t: Time, u: Time, node: string)
    requires WellFormed(a) && WellFormed(b) && IsSnapshot(a, fromA) && IsSnapshot(b, fromB)
    ensures var a', b' := ReceiveAll(a, ReceiptsOf(fromB, t)), ReceiveAll(b, ReceiptsOf(fromA, u));
      Held(a', node) == Held(b', node) && IsRevoked(a', node) == IsRevoked(b', node)
  {
    MergeIsJoin(a, b, fromB, t, node);
    MergeIsJoin(b, a, fromA, u, node);
    assert Held(a, node) + Held(b, node) == Held(b, node) + Held(a, node);
    SameSignaturesSameVerdict(ReceiveAll(a, ReceiptsOf(fromB, t)), ReceiveAll(b, ReceiptsOf(fromA, u)), node);
  }

  lemma SameSignaturesSameVerdict(a: Entries, b: Entries, node: string)
    requires WellFormed(a) && WellFormed(b) && Held(a, node) == Held(b, node)
    ensures IsRevoked(a, node) == IsRevoked(b, node)
  {
    RevokedIffQuorum(a, node);
    RevokedIffQuorum(b, node);
  }

  // ---------------------------------------------------------------------------
  // What does not converge
  // ---------------------------------------------------------------------------

  lemma {:induction false} FirstReasonStays(m: Entries, rs: seq<Receipt>, node: string)
    requires node in m
    ensures node in ReceiveAll(m, rs)
    ensures ReceiveAll(m, rs)[node].reason == m[node].reason && ReceiveAll(m, rs)[node].revokedAt == m[node].revokedAt
  {
    if rs != [] {
      FirstReasonStays(m, rs[..|rs| - 1], node);
    }
  }

  /** A node not heard of before takes reason and time from its receipts, which here all say the same. */
  lemma {:induction false} NewNodeTakesReceipt(m: Entries, rs: seq<Receipt>, node: string, reason: string, at: Time)
    requires node !in m
    requires forall i :: 0 <= i < |rs| && rs[i].node == node ==> rs[i].reason == reason && rs[i].now == at
    ensures node in ReceiveAll(m, rs) <==> exists i :: 0 <= i < |rs| && rs[i].node == node
    ensures node in ReceiveAll(m, rs) ==> ReceiveAll(m, rs)[node].reason == reason && ReceiveAll(m, rs)[node].revokedAt == at
  {
    if rs != [] {
      var n := |rs| - 1;
      NewNodeTakesReceipt(m, rs[..n], node, reason, at);
      if i :| 0 <= i < |rs[..n]| && rs[..n][i].node == node {
        assert rs[i].node == node;
      }
      assert forall i :: 0 <= i < n ==> rs[..n][i] == rs[i];
    }
  }

  /** Every receipt issued for a snapshot repeats the reason of the entry it comes from. */
  lemma {:induction false} ReceiptsRepeatReason(m: Entries, es: seq<Entry>, now: Time, i: nat)
    requires (forall e :: e in es ==> exists k :: k in m && m[k] == e) && WellFormed(m) && i < |ReceiptsOf(es, now)|
    ensures var r := ReceiptsOf(es, now)[i];
      r.node in m && r.reason == m[r.node].reason && r.now == now
  {
    var n := |es| - 1;
    var before := ReceiptsOf(es[..n], now);
    if i < |before| {
      assert forall e :: e in es[..n] ==> e in es;
      ReceiptsRepeatReason(m, es[..n], now, i);
    } else {
      assert es[n] in es;
      var k :| k in m && m[k] == es[n];
    }
  }

  /** What a store says of a node after merging another's snapshot: its own word if it has one, else the other's reason. */
  lemma AfterMerge(a: Entries, b: Entries, snapshot: seq<Entry>, now: Time, node: string)
    requires WellFormed(a) && WellFormed(b) && IsSnapshot(b, snapshot)
    ensures var a' := ReceiveAll(a, ReceiptsOf(snapshot, now));
      && (node in a' <==> node in a || node in b)
      && (node in a ==> a'[node].reason == a[node].reason && a'[node].revokedAt == a[node].revokedAt)
      && (node !in a && node in b ==> a'[node].reason == b[node].reason && a'[node].revokedAt == now)
  {
    var rs := ReceiptsOf(snapshot, now);
    if node in a {
      FirstReasonStays(a, rs, node);
    } else {
      forall i | 0 <= i < |rs|
        ensures rs[i].node in b && rs[i].reason == b[rs[i].node].reason && rs[i].now == now
      {
        ReceiptsRepeatReason(b, snapshot, now, i);
      }
      NewNodeTakesReceipt(a, rs, node, if node in b then b[node].reason else "", now);
      MergeIsJoin(a, b, snapshot, now, node);
      if node in b {
        assert b[node].signatures[0] in Held(b, node);
        assert b[node].signatures[0] in Received(rs, node) by {
          ReceivedFromEntries(snapshot, now, node, b[node].signatures[0]);
          ListedInSnapshot(b, snapshot, node, b[node].signatures[0]);
        }
      }
    }
  }

  /**
   The rest of an entry does not converge. After two stores have merged each other's
   entries, both know a node if one did. They agree on its reason unless both knew it with
   different reasons before; they agree on its time if both had the same before or, for a
   node that one of them learns in the exchange, if the merge happened at the recorded time.
   */
  lemma ReasonsAgreeIff(a: Entries, b: Entries, fromA: seq<Entry>, fromB: seq<Entry>, t: Time, u: Time, node: string)
    requires WellFormed(a) && WellFormed(b) && IsSnapshot(a, fromA) && IsSnapshot(b, fromB)
    ensures var a', b' := ReceiveAll(a, ReceiptsOf(fromB, t)), ReceiveAll(b, ReceiptsOf(fromA, u));
      && (node in a' <==> node in a || node in b) && (node in b' <==> node in a || node in b)
      && (node in a' ==>
            (a'[node].reason == b'[node].reason <==> (node in a && node in b ==> a[node].reason == b[node].reason)))
  {
    AfterMerge(a, b, fromB, t, node);
    AfterMerge(b, a, fromA, u, node);
  }

  lemma TimesAgreeIff(a: Entries, b: Entries, fromA: seq<Entry>, fromB: seq<Entry>, t: Time, u: Time, node: string)
    requires WellFormed(a) && WellFormed(b) && IsSnapshot(a, fromA) && IsSnapshot(b, fromB) && (node in a || node in b)
    ensures var a', b' := ReceiveAll(a, ReceiptsOf(fromB, t)), ReceiveAll(b, ReceiptsOf(fromA, u));
      && node in a' && node in b'
      && (a'[node].revokedAt == b'[node].revokedAt <==>
            if node in a && node in b then a[node].revokedAt == b[node].revokedAt
            else if node in a then a[node].revokedAt == u
            else b[node].revokedAt == t)
  {
    AfterMerge(a, b, fromB, t, node);
    AfterMerge(b, a, fromA, u, node);
  }

  /** Two stores that heard of one node for different reasons at different times, and still differ after an exchange. */
  lemma StayDifferent(x: Signature, t: Time, u: Time)
    ensures var a, b := map["n" := Entry("n", "lost key", 1, [x])], map["n" := Entry("n", "fraud", 2, [x])];
      && WellFormed(a) && WellFormed(b) && IsSnapshot(a, [a["n"]]) && IsSnapshot(b, [b["n"]])
      && (var a', b' := ReceiveAll(a, ReceiptsOf([b["n"]], t)), ReceiveAll(b, ReceiptsOf([a["n"]], u));
          && "n" in a' && "n" in b' && a'["n"].reason != b'["n"].reason && a'["n"].revokedAt != b'["n"].revokedAt)
  {
    var a, b := map["n" := Entry("n", "lost key", 1, [x])], map["n" := Entry("n", "fraud", 2, [x])];
    ReasonsAgreeIff(a, b, [a["n"]], [b["n"]], t, u, "n");
    TimesAgreeIff(a, b, [a["n"]], [b["n"]], t, u, "n");
    assert "lost key"[0] != "fraud"[0];
  }
}

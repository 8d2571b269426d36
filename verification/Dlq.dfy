/** The dead-letter queue of internal/delivery/dlq.go. */
module Dlq {
  import opened Envelopes
  import opened Wrappers

  datatype DlqEntry = DlqEntry(
    envelope: Envelope,
    peerAddr: string,
    attempts: nat,
    lastErr: Option<string>,
    firstSeenUnix: int,
    lastAttemptUnix: int,
    reason: string,
    nextOpenUnix: int)

  /** `Append` stamps an entry that carries no first-seen time. */
  function Stamped(e: DlqEntry, nowUnix: int): DlqEntry {
    if e.firstSeenUnix == 0 then e.(firstSeenUnix := nowUnix) else e
  }

  function Without<T>(q: seq<T>, index: int): seq<T> {
    if 0 <= index < |q| then q[..index] + q[index + 1..] else q
  }

  class DLQ {
    var entries: seq<DlqEntry>

    constructor ()
      ensures entries == []
    {
      entries := [];
    }

    method Append(e: DlqEntry, nowUnix: int)
      modifies this
      ensures entries == old(entries) + [Stamped(e, nowUnix)]
      ensures entries[|old(entries)|] == e.(firstSeenUnix := if e.firstSeenUnix == 0 then nowUnix else e.firstSeenUnix)
    {
      var stamped := e;
      if stamped.firstSeenUnix == 0 {
        stamped := stamped.(firstSeenUnix := nowUnix);
      }
      entries := entries + [stamped];
    }

    method Remove(index: int)
      modifies this
      ensures entries == Without(old(entries), index)
      ensures 0 <= index < |old(entries)| ==> |entries| == |old(entries)| - 1
      ensures forall i :: 0 <= i < |entries| ==>
                entries[i] == old(entries)[if i < index || index < 0 || index >= |old(entries)| then i else i + 1]
    {
      if index < 0 || index >= |entries| {
        return;
      }
      entries := entries[..index] + entries[index + 1..];
    }
  }
}

/** Settlement finality: SETTLEMENT/FINAL entries are always covered by earlier ALLOW entries. */
module GatewaySettlement {
  import opened Collections
  import opened Gateway
  import Audit
  import Schema

  /** What a finality entry has in common with the ALLOW entry it settles. */
  datatype Corridor = Corridor(sender: string, recipient: string, version: string)

  function CorridorOf(p: Audit.Payload): Corridor {
    Corridor(p.senderRegion, p.recipientRegion, p.schemaVersion)
  }

  predicate IsAllow(e: Audit.Entry, t: Corridor) {
    e.payload.decision == Audit.ALLOW && e.payload.schemaType == Schema.ISO20022 && CorridorOf(e.payload) == t
  }

  predicate IsFinal(e: Audit.Entry, t: Corridor) {
    e.payload.decision == Audit.SETTLEMENT_FINAL && CorridorOf(e.payload) == t
  }

  /** Among the first n entries. */
  function Allows(log: seq<Audit.Entry>, t: Corridor, n: nat): nat
    requires n <= |log|
  {
    if n == 0 then 0 else Allows(log, t, n - 1) + One(IsAllow(log[n - 1], t))
  }

  function Finals(log: seq<Audit.Entry>, t: Corridor, n: nat): nat
    requires n <= |log|
  {
    if n == 0 then 0 else Finals(log, t, n - 1) + One(IsFinal(log[n - 1], t))
  }

  /** A call of this corridor that was allowed and may still append a finality entry. */
  predicate MaySettle(call: Call, t: Corridor) {
    && (call.phase == Forwarding || call.phase == Settling)
    && call.env.schemaType == Schema.ISO20022
    && Corridor(call.env.senderRegion, call.env.recipientRegion, call.env.schemaVersion) == t
  }

  function Unsettled(calls: seq<Call>, t: Corridor, n: nat): nat
    requires n <= |calls|
  {
    if n == 0 then 0 else Unsettled(calls, t, n - 1) + One(MaySettle(calls[n - 1], t))
  }

  lemma {:induction false} AppendedEntry(log: seq<Audit.Entry>, e: Audit.Entry, t: Corridor, n: nat)
    requires n <= |log|
    ensures Allows(log + [e], t, n) == Allows(log, t, n) && Finals(log + [e], t, n) == Finals(log, t, n)
  {
    if n > 0 {
      AppendedEntry(log, e, t, n - 1);
    }
  }

  lemma {:induction false} ChangedCall(calls: seq<Call>, c: nat, call: Call, t: Corridor, n: nat)
    requires c < |calls| && n <= |calls|
    ensures Unsettled(calls[c := call], t, n)
         == Unsettled(calls, t, n) + if c < n then One(MaySettle(call, t)) - One(MaySettle(calls[c], t)) else 0
  {
    if n > 0 {
      ChangedCall(calls, c, call, t, n - 1);
    }
  }

  lemma {:induction false} AddedCall(calls: seq<Call>, call: Call, t: Corridor, n: nat)
    requires n <= |calls|
    ensures Unsettled(calls + [call], t, n) == Unsettled(calls, t, n)
  {
    if n > 0 {
      AddedCall(calls, call, t, n - 1);
    }
  }

  ghost predicate Covered(log: seq<Audit.Entry>, t: Corridor) {
    forall n :: 0 <= n <= |log| ==> Finals(log, t, n) <= Allows(log, t, n)
  }

  ghost predicate Inv(s: State, t: Corridor) {
    && Covered(s.log, t)
    && Finals(s.log, t, |s.log|) + Unsettled(s.calls, t, |s.calls|) <= Allows(s.log, t, |s.log|)
    && forall c :: 0 <= c < |s.calls| && s.calls[c].phase == Settling ==> s.calls[c].env.schemaType == Schema.ISO20022
  }

  /** An entry keeps the balance if what it settles, and what its call may still settle, is paid for. */
  lemma EntryKeepsInv(s: State, s': State, t: Corridor, e: Audit.Entry, c: nat, call: Call)
    requires Inv(s, t) && c < |s.calls| && s'.log == s.log + [e] && s'.calls == s.calls[c := call]
    requires One(IsFinal(e, t)) + One(MaySettle(call, t)) <= One(IsAllow(e, t)) + One(MaySettle(s.calls[c], t))
    requires call.phase != Settling
    ensures Inv(s', t)
  {
    ChangedCall(s.calls, c, call, t, |s.calls|);
    forall n | 0 <= n <= |s.log|
      ensures Finals(s'.log, t, n) <= Allows(s'.log, t, n)
    {
      AppendedEntry(s.log, e, t, n);
    }
    AppendedEntry(s.log, e, t, |s.log|);
  }

  lemma EvaluateKeepsInv(setup: Setup, s: State, s': State, t: Corridor, step: Step)
    requires Inv(s, t) && step.Evaluate? && Next(setup, s, s', step)
    ensures Inv(s', t)
  {
    EntryKeepsInv(s, s', t, s'.log[|s.log|], step.c, s'.calls[step.c]);
  }

  lemma AppendKeepsInv(setup: Setup, s: State, s': State, t: Corridor, step: Step)
    requires Inv(s, t) && IsAppend(step) && Next(setup, s, s', step)
    ensures Inv(s', t)
  {
    EntryKeepsInv(s, s', t, s'.log[|s.log|], step.c, s'.calls[step.c]);
  }

  /** Without a new entry, moving a call on cannot create a claim to settle. */
  lemma MoveKeepsInv(s: State, s': State, t: Corridor, c: nat, call: Call)
    requires Inv(s, t) && c < |s.calls| && s'.log == s.log && s'.calls == s.calls[c := call]
    requires MaySettle(call, t) ==> MaySettle(s.calls[c], t)
    requires call.phase == Settling ==> call.env.schemaType == Schema.ISO20022
    ensures Inv(s', t)
  {
    ChangedCall(s.calls, c, call, t, |s.calls|);
  }

  lemma ArrivalKeepsInv(s: State, s': State, t: Corridor, call: Call)
    requires Inv(s, t) && s'.log == s.log && s'.calls == s.calls + [call] && call.phase == Started
    ensures Inv(s', t)
  {
    AddedCall(s.calls, call, t, |s.calls|);
  }

  lemma MovingStepKeepsInv(setup: Setup, s: State, s': State, t: Corridor, step: Step)
    requires Inv(s, t) && Next(setup, s, s', step)
    requires step.CheckDuplicate? || step.CancelJitter?
    ensures Inv(s', t)
  {
    MoveKeepsInv(s, s', t, step.c, s'.calls[step.c]);
  }

  lemma ForwardKeepsInv(setup: Setup, s: State, s': State, t: Corridor, step: Step)
    requires Inv(s, t) && step.Forward? && Next(setup, s, s', step)
    ensures Inv(s', t)
  {
    ForwardMoves(setup, s, s', step);
    MoveKeepsInv(s, s', t, step.c, s'.calls[step.c]);
  }

  lemma ArrivalStepKeepsInv(setup: Setup, s: State, s': State, t: Corridor, step: Step)
    requires Inv(s, t) && IsArrival(step) && Next(setup, s, s', step)
    ensures Inv(s', t)
  {
    ArrivalKeepsInv(s, s', t, s'.calls[|s.calls|]);
  }

  lemma NextKeepsInv(setup: Setup, s: State, s': State, t: Corridor, step: Step)
    requires Inv(s, t) && Next(setup, s, s', step)
    ensures Inv(s', t)
  {
    if step.Evaluate? {
      EvaluateKeepsInv(setup, s, s', t, step);
    } else if IsAppend(step) {
      AppendKeepsInv(setup, s, s', t, step);
    } else if IsArrival(step) {
      ArrivalStepKeepsInv(setup, s, s', t, step);
    } else if step.Forward? {
      ForwardKeepsInv(setup, s, s', t, step);
    } else if step.CheckDuplicate? || step.CancelJitter? {
      MovingStepKeepsInv(setup, s, s', t, step);
    } else {
      QuietStep(setup, s, s', step);
    }
  }

  lemma {:induction false} RunKeepsInv(setup: Setup, states: seq<State>, steps: seq<Step>, t: Corridor, n: nat)
    requires Run(setup, states, steps) && n <= |steps|
    ensures Inv(states[n], t)
  {
    if n > 0 {
      RunKeepsInv(setup, states, steps, t, n - 1);
      NextKeepsInv(setup, states[n - 1], states[n], t, steps[n - 1]);
    }
  }

  /**
   In every prefix of the audit log, under every interleaving, the SETTLEMENT/FINAL entries
   of a corridor and version never outnumber its iso20022 ALLOW entries.
   */
  lemma FinalityIsCovered(setup: Setup, states: seq<State>, steps: seq<Step>, t: Corridor, n: nat)
    requires Run(setup, states, steps) && n <= |states[|steps|].log|
    ensures Finals(states[|steps|].log, t, n) <= Allows(states[|steps|].log, t, n)
  {
    RunKeepsInv(setup, states, steps, t, |steps|);
  }

  // ---------------------------------------------------------------------------
  // Finality exactly for what was delivered
  // ---------------------------------------------------------------------------

  /** Call c was delivered and its kind calls for a finality entry of this corridor. */
  predicate Earns(setup: Setup, s: State, c: nat, t: Corridor)
    requires c < |s.calls|
  {
    var env := s.calls[c].env;
    c in s.delivered && Settles(setup, env) && Corridor(env.senderRegion, env.recipientRegion, env.schemaVersion) == t
  }

  /** The calls among the first n that earned a finality entry, less those that have not appended it yet. */
  function Earned(setup: Setup, s: State, t: Corridor, n: nat): int
    requires n <= |s.calls|
  {
    if n == 0 then 0
    else
      Earned(setup, s, t, n - 1) + One(Earns(setup, s, n - 1, t))
      - One(Earns(setup, s, n - 1, t) && s.calls[n - 1].phase == Settling)
  }

  ghost predicate Exact(setup: Setup, s: State, t: Corridor) {
    && Finals(s.log, t, |s.log|) == Earned(setup, s, t, |s.calls|)
    && (forall c :: 0 <= c < |s.calls| && s.calls[c].phase == Settling ==> c in s.delivered && Settles(setup, s.calls[c].env))
    && (forall c :: c in s.delivered ==> c < |s.calls| && (s.calls[c].phase == Settling || s.calls[c].phase.Answered?))
  }

  /** States that differ in call c at most. */
  ghost predicate SameBut(s: State, s': State, c: nat) {
    && c < |s.calls| == |s'.calls|
    && (forall d :: 0 <= d < |s.calls| && d != c ==> s'.calls[d] == s.calls[d] && (d in s'.delivered <==> d in s.delivered))
  }

  lemma {:induction false} EarnedChanges(setup: Setup, s: State, s': State, t: Corridor, c: nat, n: nat)
    requires SameBut(s, s', c) && n <= |s.calls|
    ensures Earned(setup, s', t, n) == Earned(setup, s, t, n) +
              if c < n then
                One(Earns(setup, s', c, t)) - One(Earns(setup, s', c, t) && s'.calls[c].phase == Settling)
                - One(Earns(setup, s, c, t)) + One(Earns(setup, s, c, t) && s.calls[c].phase == Settling)
              else 0
  {
    if n > 0 {
      EarnedChanges(setup, s, s', t, c, n - 1);
    }
  }

  lemma {:induction false} EarnedSame(setup: Setup, s: State, s': State, t: Corridor, n: nat)
    requires n <= |s.calls| <= |s'.calls| && s'.delivered == s.delivered
    requires forall d :: 0 <= d < |s.calls| ==> s'.calls[d] == s.calls[d]
    ensures Earned(setup, s', t, n) == Earned(setup, s, t, n)
  {
    if n > 0 {
      EarnedSame(setup, s, s', t, n - 1);
    }
  }

  lemma DeliveryKeepsExact(setup: Setup, s: State, s': State, t: Corridor, c: nat)
    requires Exact(setup, s, t) && InPhase(s, c, Forwarding) && s'.log == s.log && SameBut(s, s', c)
    requires s'.calls[c].env == s.calls[c].env
    requires || (s'.delivered == s.delivered && s'.calls[c].phase == Answered(Audit.ALLOW))
             || (&& s'.delivered == s.delivered + {c}
                 && s'.calls[c].phase == if Settles(setup, s.calls[c].env) then Settling else Answered(Audit.ALLOW))
    ensures Exact(setup, s', t)
  {
    assert c !in s.delivered;
    EarnedChanges(setup, s, s', t, c, |s.calls|);
  }

  lemma ForwardKeepsExact(setup: Setup, s: State, s': State, t: Corridor, step: Step)
    requires Exact(setup, s, t) && step.Forward? && Next(setup, s, s', step)
    ensures Exact(setup, s', t)
  {
    ForwardMoves(setup, s, s', step);
    DeliveryKeepsExact(setup, s, s', t, step.c);
  }

  lemma EntryKeepsExact(setup: Setup, s: State, s': State, t: Corridor, e: Audit.Entry, c: nat, phase: Phase)
    requires Exact(setup, s, t) && c < |s.calls| && s'.calls == Moved(s, c, phase) && s'.delivered == s.delivered
    requires s'.log == s.log + [e] && phase != Settling && (c in s.delivered ==> phase.Answered?)
    requires IsFinal(e, t) <==> Earns(setup, s, c, t) && s.calls[c].phase == Settling
    ensures Exact(setup, s', t)
  {
    AppendedEntry(s.log, e, t, |s.log|);
    EarnedChanges(setup, s, s', t, c, |s.calls|);
  }

  lemma AppendKeepsExact(setup: Setup, s: State, s': State, t: Corridor, step: Step)
    requires Exact(setup, s, t) && IsAppend(step) && Next(setup, s, s', step)
    ensures Exact(setup, s', t)
  {
    EntryKeepsExact(setup, s, s', t, s'.log[|s.log|], step.c, s'.calls[step.c].phase);
  }

  lemma EvaluateKeepsExact(setup: Setup, s: State, s': State, t: Corridor, step: Step)
    requires Exact(setup, s, t) && step.Evaluate? && Next(setup, s, s', step)
    ensures Exact(setup, s', t)
  {
    EntryKeepsExact(setup, s, s', t, s'.log[|s.log|], step.c, s'.calls[step.c].phase);
  }

  lemma MoveKeepsExact(setup: Setup, s: State, s': State, t: Corridor, c: nat)
    requires Exact(setup, s, t) && s'.log == s.log && s'.delivered == s.delivered && SameBut(s, s', c)
    requires c !in s.delivered && s'.calls[c].phase != Settling
    ensures Exact(setup, s', t)
  {
    EarnedChanges(setup, s, s', t, c, |s.calls|);
  }

  lemma MovingStepKeepsExact(setup: Setup, s: State, s': State, t: Corridor, step: Step)
    requires Exact(setup, s, t) && (step.CheckDuplicate? || step.CancelJitter?) && Next(setup, s, s', step)
    ensures Exact(setup, s', t)
  {
    MoveKeepsExact(setup, s, s', t, step.c);
  }

  lemma ArrivalKeepsExact(setup: Setup, s: State, s': State, t: Corridor, step: Step)
    requires Exact(setup, s, t) && IsArrival(step) && Next(setup, s, s', step)
    ensures Exact(setup, s', t)
  {
    ArrivalAdds(setup, s, s', step);
    AddingKeepsExact(setup, s, s', t, s'.calls[|s.calls|]);
  }

  lemma AddingKeepsExact(setup: Setup, s: State, s': State, t: Corridor, call: Call)
    requires Exact(setup, s, t) && s'.calls == s.calls + [call] && call.phase == Started
    requires s'.log == s.log && s'.delivered == s.delivered
    ensures Exact(setup, s', t)
  {
    EarnedSame(setup, s, s', t, |s.calls|);
  }

  lemma QuietKeepsExact(setup: Setup, s: State, s': State, t: Corridor)
    requires Exact(setup, s, t) && s'.calls == s.calls && s'.log == s.log && s'.delivered == s.delivered
    ensures Exact(setup, s', t)
  {
    EarnedSame(setup, s, s', t, |s.calls|);
  }

  lemma NextKeepsExact(setup: Setup, s: State, s': State, t: Corridor, step: Step)
    requires Exact(setup, s, t) && Next(setup, s, s', step)
    ensures Exact(setup, s', t)
  {
    if step.Forward? {
      ForwardKeepsExact(setup, s, s', t, step);
    } else if step.Evaluate? {
      EvaluateKeepsExact(setup, s, s', t, step);
    } else if IsAppend(step) {
      AppendKeepsExact(setup, s, s', t, step);
    } else if step.CheckDuplicate? || step.CancelJitter? {
      MovingStepKeepsExact(setup, s, s', t, step);
    } else if IsArrival(step) {
      ArrivalKeepsExact(setup, s, s', t, step);
    } else {
      QuietStep(setup, s, s', step);
      QuietKeepsExact(setup, s, s', t);
    }
  }

  lemma {:induction false} RunKeepsExact(setup: Setup, states: seq<State>, steps: seq<Step>, t: Corridor, n: nat)
    requires Run(setup, states, steps) && n <= |steps|
    ensures Exact(setup, states[n], t)
  {
    if n > 0 {
      RunKeepsExact(setup, states, steps, t, n - 1);
      NextKeepsExact(setup, states[n - 1], states[n], t, steps[n - 1]);
    }
  }

  function DeliveredSettlements(setup: Setup, s: State, t: Corridor, n: nat): nat
    requires n <= |s.calls|
  {
    if n == 0 then 0 else DeliveredSettlements(setup, s, t, n - 1) + One(Earns(setup, s, n - 1, t))
  }

  lemma {:induction false} AllEntered(setup: Setup, s: State, t: Corridor, n: nat)
    requires n <= |s.calls| && forall c :: 0 <= c < |s.calls| ==> s.calls[c].phase != Settling
    ensures Earned(setup, s, t, n) == DeliveredSettlements(setup, s, t, n)
  {
    if n > 0 {
      AllEntered(setup, s, t, n - 1);
    }
  }

  /**
   Once no call is about to append one, the log holds exactly one SETTLEMENT/FINAL entry for
   every delivered financial message of the corridor, and none for anything else.
   */
  lemma FinalityIffDelivered(setup: Setup, states: seq<State>, steps: seq<Step>, t: Corridor)
    requires Run(setup, states, steps)
    requires var s := states[|steps|]; forall c :: 0 <= c < |s.calls| ==> s.calls[c].phase != Settling
    ensures var s := states[|steps|]; Finals(s.log, t, |s.log|) == DeliveredSettlements(setup, s, t, |s.calls|)
  {
    RunKeepsExact(setup, states, steps, t, |steps|);
    AllEntered(setup, states[|steps|], t, |states[|steps|].calls|);
  }
}

/** The policy engine of internal/policy/engine.go. */
module Policy {
  import opened Config
  import Audit
  import Crl
  import Schema

  datatype Request = Request(
    senderNodeId: string,
    senderRegion: string,
    recipientRegion: string,
    trustTier: nat,
    schemaType: string,
    schemaVersion: string)

  datatype Verdict = Verdict(decision: string, reason: string, profile: string)

  const NODE_REVOKED := "NODE_REVOKED"

  function Deny(cfg: Config, reason: string): Verdict {
    Verdict(Audit.DENY, reason, cfg.profile.name)
  }

  // ---------------------------------------------------------------------------
  // Checks without state
  // ---------------------------------------------------------------------------

  /** What is wrong with the request under one isolation rule, if anything. */
  function RuleViolation(cfg: Config, rule: IsolationRule, req: Request): (reason: string) {
    if rule.allowTiers != [] && cfg.node.nodeScope !in rule.allowTiers then "JURISDICTION_ISOLATION_TIER_DENIED"
    else if rule.allowJurisdictions != []
         && (req.senderRegion !in rule.allowJurisdictions || req.recipientRegion !in rule.allowJurisdictions) then
      "JURISDICTION_ISOLATION_REGION_DENIED"
    else if rule.requireProfile != "" && !Schema.EqualFold(cfg.profile.name, rule.requireProfile) then
      "JURISDICTION_ISOLATION_PROFILE_MISMATCH"
    else ""
  }

  /** Rules are tried in order and only the first one for the schema type counts. */
  function IsolationViolation(cfg: Config, rules: seq<IsolationRule>, req: Request): string {
    if rules == [] then ""
    else if rules[0].schemaType != Schema.Normalize(req.schemaType) then IsolationViolation(cfg, rules[1..], req)
    else RuleViolation(cfg, rules[0], req)
  }

  function Hl7FhirViolation(cfg: Config): string {
    if cfg.node.nodeScope != "regional" then "HL7FHIR_NON_REGIONAL_NODE"
    else if !Schema.EqualFold(cfg.profile.name, "strict") then "HL7FHIR_REQUIRES_STRICT_PROFILE"
    else ""
  }

  function EdifactViolation(cfg: Config): string {
    var profile := Schema.ToLower(cfg.profile.name);
    if cfg.node.nodeScope != "regional" && cfg.node.nodeScope != "alliance" then "EDIFACT_NODE_TIER_DENIED"
    else if profile != "balanced" && profile != "strict" then "EDIFACT_REQUIRES_BALANCED_PROFILE"
    else ""
  }

  predicate HasIsolationRule(cfg: Config, schemaType: string) {
    exists i :: 0 <= i < |cfg.policy.isolationRules| && cfg.policy.isolationRules[i].schemaType == schemaType
  }

  predicate IsLocalDestination(cfg: Config, req: Request) {
    cfg.node.region != "" && req.recipientRegion == cfg.node.region
  }

  function Decide(cfg: Config, revoked: bool, req: Request): Verdict {
    var schemaType := Schema.Normalize(req.schemaType);
    if revoked then Deny(cfg, NODE_REVOKED)
    else if req.trustTier < cfg.policy.minTrustTier then Deny(cfg, "TRUST_TIER_BELOW_MINIMUM")
    else if req.recipientRegion in cfg.policy.denyTo then Deny(cfg, "RECIPIENT_REGION_DENIED")
    else if !IsLocalDestination(cfg, req) && cfg.policy.allowTo != [] && req.recipientRegion !in cfg.policy.allowTo then
      Deny(cfg, "RECIPIENT_REGION_NOT_IN_ALLOW_LIST")
    else if schemaType == Schema.HL7FHIR && Hl7FhirViolation(cfg) != "" then Deny(cfg, Hl7FhirViolation(cfg))
    else if schemaType == Schema.EDIFACT && !HasIsolationRule(cfg, Schema.EDIFACT) && EdifactViolation(cfg) != "" then
      Deny(cfg, EdifactViolation(cfg))
    else if IsolationViolation(cfg, cfg.policy.isolationRules, req) != "" then
      Deny(cfg, IsolationViolation(cfg, cfg.policy.isolationRules, req))
    else Verdict(Audit.ALLOW, "POLICY_ACCEPTED", cfg.profile.name)
  }

  // ---------------------------------------------------------------------------
  // What an ALLOW means
  // ---------------------------------------------------------------------------

  /** The i-th rule is the one that counts for this schema type. */
  ghost predicate Governs(rules: seq<IsolationRule>, schemaType: string, i: nat) {
    && i < |rules| && rules[i].schemaType == schemaType
    && forall j :: 0 <= j < i ==> rules[j].schemaType != schemaType
  }

  ghost predicate RuleHonoured(cfg: Config, rule: IsolationRule, req: Request) {
    && (cfg.node.nodeScope in rule.allowTiers || rule.allowTiers == [])
    && (rule.allowJurisdictions == []
        || (req.senderRegion in rule.allowJurisdictions && req.recipientRegion in rule.allowJurisdictions))
    && (rule.requireProfile == "" || Schema.EqualFold(cfg.profile.name, rule.requireProfile))
  }

  lemma {:induction false} IsolationHonoured(cfg: Config, rules: seq<IsolationRule>, req: Request)
    ensures IsolationViolation(cfg, rules, req) == "" <==>
              forall i: nat :: Governs(rules, Schema.Normalize(req.schemaType), i) ==> RuleHonoured(cfg, rules[i], req)
  {
    var schemaType := Schema.Normalize(req.schemaType);
    if rules != [] {
      if rules[0].schemaType == schemaType {
        assert Governs(rules, schemaType, 0);
      } else {
        IsolationHonoured(cfg, rules[1..], req);
        assert forall i: nat :: Governs(rules[1..], schemaType, i) <==> Governs(rules, schemaType, i + 1);
        assert forall i: nat :: Governs(rules, schemaType, i) ==> i > 0 && Governs(rules[1..], schemaType, i - 1);
      }
    }
  }

  /** The type a request is judged by: what it says or, if that is blank, messaging. */
  ghost predicate IsKind(t: string, kind: string) {
    kind == if forall i :: 0 <= i < |t| ==> Schema.IsWhite(t[i]) then "messaging" else t
  }

  /**
   An envelope is allowed exactly when every constraint of the active configuration holds:
   the sender is not revoked and trusted enough; the recipient's region is not denied and is
   the node's own, or listed, or nothing is; health data stays on a regional node under the
   strict profile; edifact without a rule of its own has its defaults; and the first isolation
   rule for the type is kept.
   */
  lemma AllowedIff(cfg: Config, revoked: bool, req: Request, kind: string)
    requires IsKind(req.schemaType, kind)
    ensures var rules := cfg.policy.isolationRules;
      Decide(cfg, revoked, req).decision == "ALLOW" <==>
        && !revoked
        && req.trustTier >= cfg.policy.minTrustTier
        && req.recipientRegion !in cfg.policy.denyTo
        && (|| (cfg.node.region != "" && req.recipientRegion == cfg.node.region)
            || cfg.policy.allowTo == [] || req.recipientRegion in cfg.policy.allowTo)
        && (kind == "hl7fhir" ==> cfg.node.nodeScope == "regional" && Schema.SameName(cfg.profile.name, "strict"))
        && (kind == "edifact" && (forall i :: 0 <= i < |rules| ==> rules[i].schemaType != "edifact") ==>
              && (cfg.node.nodeScope == "regional" || cfg.node.nodeScope == "alliance")
              && (Schema.IsLowerOf(cfg.profile.name, "balanced") || Schema.IsLowerOf(cfg.profile.name, "strict")))
        && (forall i :: 0 <= i < |rules| && rules[i].schemaType == kind && (forall j :: 0 <= j < i ==> rules[j].schemaType != kind) ==>
              && (rules[i].allowTiers == [] || cfg.node.nodeScope in rules[i].allowTiers)
              && (rules[i].allowJurisdictions == []
                  || (req.senderRegion in rules[i].allowJurisdictions && req.recipientRegion in rules[i].allowJurisdictions))
              && (rules[i].requireProfile == "" || Schema.SameName(cfg.profile.name, rules[i].requireProfile)))
  {
    var rules := cfg.policy.isolationRules;
    KindIs(req, kind);
    Schema.EqualFoldIff(cfg.profile.name, "strict");
    Schema.ToLowerIff(cfg.profile.name, "balanced");
    Schema.ToLowerIff(cfg.profile.name, "strict");
    IsolationHonoured(cfg, rules, req);
    HonouredMeans(cfg, rules, req, kind);
  }

  lemma KindIs(req: Request, kind: string)
    requires IsKind(req.schemaType, kind)
    ensures Schema.Normalize(req.schemaType) == kind
  {
    Schema.NormalizeIs(req.schemaType);
  }

  lemma HonouredMeans(cfg: Config, rules: seq<IsolationRule>, req: Request, kind: string)
    ensures (forall i: nat :: Governs(rules, kind, i) ==> RuleHonoured(cfg, rules[i], req)) <==>
            forall i :: 0 <= i < |rules| && rules[i].schemaType == kind && (forall j :: 0 <= j < i ==> rules[j].schemaType != kind) ==>
              && (rules[i].allowTiers == [] || cfg.node.nodeScope in rules[i].allowTiers)
              && (rules[i].allowJurisdictions == []
                  || (req.senderRegion in rules[i].allowJurisdictions && req.recipientRegion in rules[i].allowJurisdictions))
              && (rules[i].requireProfile == "" || Schema.SameName(cfg.profile.name, rules[i].requireProfile))
  {
    forall i | 0 <= i < |rules|
      ensures Schema.EqualFold(cfg.profile.name, rules[i].requireProfile)
         <==> Schema.SameName(cfg.profile.name, rules[i].requireProfile)
    {
      Schema.EqualFoldIff(cfg.profile.name, rules[i].requireProfile);
    }
    assert forall i: nat :: Governs(rules, kind, i) <==>
             i < |rules| && rules[i].schemaType == kind && forall j :: 0 <= j < i ==> rules[j].schemaType != kind;
  }

  /** The constraint that fails first, in the order in which they are tried: isolation rules come last. */
  ghost function FirstFailure(cfg: Config, revoked: bool, req: Request, kind: string): string {
    var early := EarlyFailure(cfg, revoked, req, kind);
    if early != "" then early
    else if i: nat :| Governs(cfg.policy.isolationRules, kind, i) then IsolationReason(cfg, cfg.policy.isolationRules[i], req)
    else "POLICY_ACCEPTED"
  }

  /** The same among the constraints before the isolation rules; "" if none fails. */
  ghost function EarlyFailure(cfg: Config, revoked: bool, req: Request, kind: string): string {
    var rules, scope := cfg.policy.isolationRules, cfg.node.nodeScope;
    var defaults := kind == "edifact" && forall i :: 0 <= i < |rules| ==> rules[i].schemaType != "edifact";
    if revoked then "NODE_REVOKED"
    else if req.trustTier < cfg.policy.minTrustTier then "TRUST_TIER_BELOW_MINIMUM"
    else if req.recipientRegion in cfg.policy.denyTo then "RECIPIENT_REGION_DENIED"
    else if !(cfg.node.region != "" && req.recipientRegion == cfg.node.region)
         && cfg.policy.allowTo != [] && req.recipientRegion !in cfg.policy.allowTo then
      "RECIPIENT_REGION_NOT_IN_ALLOW_LIST"
    else if kind == "hl7fhir" && scope != "regional" then "HL7FHIR_NON_REGIONAL_NODE"
    else if kind == "hl7fhir" && !Schema.SameName(cfg.profile.name, "strict") then "HL7FHIR_REQUIRES_STRICT_PROFILE"
    else if defaults && scope != "regional" && scope != "alliance" then "EDIFACT_NODE_TIER_DENIED"
    else if defaults && !Schema.IsLowerOf(cfg.profile.name, "balanced") && !Schema.IsLowerOf(cfg.profile.name, "strict") then
      "EDIFACT_REQUIRES_BALANCED_PROFILE"
    else ""
  }

  /** A denial names the first constraint that fails; whatever the verdict, it names the active profile. */
  lemma DeniedBecause(cfg: Config, revoked: bool, req: Request, kind: string)
    requires IsKind(req.schemaType, kind)
    ensures var v := Decide(cfg, revoked, req);
      && v.profile == cfg.profile.name && v.reason == FirstFailure(cfg, revoked, req, kind)
      && v.decision == if v.reason == "POLICY_ACCEPTED" then "ALLOW" else "DENY"
  {
    ReasonIs(cfg, revoked, req, kind);
    DecisionMatchesReason(cfg, revoked, req);
  }

  lemma ReasonIs(cfg: Config, revoked: bool, req: Request, kind: string)
    requires IsKind(req.schemaType, kind)
    ensures Decide(cfg, revoked, req).reason == FirstFailure(cfg, revoked, req, kind)
  {
    KindIs(req, kind);
    EarlyReasonIs(cfg, revoked, req, kind);
    IsolationFails(cfg, req, kind);
  }

  lemma EarlyReasonIs(cfg: Config, revoked: bool, req: Request, kind: string)
    requires Schema.Normalize(req.schemaType) == kind
    ensures var early := EarlyFailure(cfg, revoked, req, kind);
      var isolation := IsolationViolation(cfg, cfg.policy.isolationRules, req);
      Decide(cfg, revoked, req).reason ==
        if early != "" then early else if isolation != "" then isolation else "POLICY_ACCEPTED"
  {
    Hl7FhirViolationIs(cfg);
    EdifactViolationIs(cfg);
  }

  lemma Hl7FhirViolationIs(cfg: Config)
    ensures Hl7FhirViolation(cfg) ==
              if cfg.node.nodeScope != "regional" then "HL7FHIR_NON_REGIONAL_NODE"
              else if !Schema.SameName(cfg.profile.name, "strict") then "HL7FHIR_REQUIRES_STRICT_PROFILE"
              else ""
  {
    Schema.EqualFoldIff(cfg.profile.name, "strict");
  }

  lemma EdifactViolationIs(cfg: Config)
    ensures EdifactViolation(cfg) ==
              if cfg.node.nodeScope != "regional" && cfg.node.nodeScope != "alliance" then "EDIFACT_NODE_TIER_DENIED"
              else if !Schema.IsLowerOf(cfg.profile.name, "balanced") && !Schema.IsLowerOf(cfg.profile.name, "strict") then
                "EDIFACT_REQUIRES_BALANCED_PROFILE"
              else ""
  {
    Schema.ToLowerIff(cfg.profile.name, "balanced");
    Schema.ToLowerIff(cfg.profile.name, "strict");
  }

  lemma {:induction false} DecisionMatchesReason(cfg: Config, revoked: bool, req: Request)
    ensures var v := Decide(cfg, revoked, req);
      v.profile == cfg.profile.name && v.decision == if v.reason == "POLICY_ACCEPTED" then "ALLOW" else "DENY"
  {
    IsolationReasonsStart(cfg, cfg.policy.isolationRules, req);
    assert "POLICY_ACCEPTED"[0] == 'P';
  }

  lemma {:induction false} IsolationReasonsStart(cfg: Config, rules: seq<IsolationRule>, req: Request)
    ensures var reason := IsolationViolation(cfg, rules, req); reason == "" || reason[0] == 'J'
  {
    if rules != [] && rules[0].schemaType != Schema.Normalize(req.schemaType) {
      IsolationReasonsStart(cfg, rules[1..], req);
    }
  }

  lemma IsolationFails(cfg: Config, req: Request, kind: string)
    requires Schema.Normalize(req.schemaType) == kind
    ensures var rules := cfg.policy.isolationRules; var reason := IsolationViolation(cfg, rules, req);
      && (forall i: nat :: Governs(rules, kind, i) ==>
            if reason == "" then IsolationReason(cfg, rules[i], req) == "POLICY_ACCEPTED"
            else reason == IsolationReason(cfg, rules[i], req))
      && ((forall i: nat :: !Governs(rules, kind, i)) ==> reason == "")
  {
    var rules := cfg.policy.isolationRules;
    forall i: nat | Governs(rules, kind, i)
      ensures IsolationViolation(cfg, rules, req) == RuleViolation(cfg, rules[i], req)
    {
      FirstRuleDecides(cfg, rules, req, i);
      Schema.EqualFoldIff(cfg.profile.name, rules[i].requireProfile);
    }
    forall i: nat | Governs(rules, kind, i)
      ensures Schema.EqualFold(cfg.profile.name, rules[i].requireProfile)
         <==> Schema.SameName(cfg.profile.name, rules[i].requireProfile)
    {
      Schema.EqualFoldIff(cfg.profile.name, rules[i].requireProfile);
    }
    if forall i: nat :: !Governs(rules, kind, i) {
      NoRulePasses(cfg, rules, req);
    }
  }

  lemma {:induction false} NoRulePasses(cfg: Config, rules: seq<IsolationRule>, req: Request)
    requires forall i: nat :: !Governs(rules, Schema.Normalize(req.schemaType), i)
    ensures IsolationViolation(cfg, rules, req) == ""
  {
    var kind := Schema.Normalize(req.schemaType);
    if rules != [] {
      assert !Governs(rules, kind, 0);
      forall i: nat
        ensures !Governs(rules[1..], kind, i)
      {
        assert !Governs(rules, kind, i + 1);
      }
      NoRulePasses(cfg, rules[1..], req);
    }
  }

  /** The reason a governing rule leads to: its first part that is broken, or none. */
  ghost function IsolationReason(cfg: Config, rule: IsolationRule, req: Request): string {
    if rule.allowTiers != [] && cfg.node.nodeScope !in rule.allowTiers then "JURISDICTION_ISOLATION_TIER_DENIED"
    else if rule.allowJurisdictions != []
         && !(req.senderRegion in rule.allowJurisdictions && req.recipientRegion in rule.allowJurisdictions) then
      "JURISDICTION_ISOLATION_REGION_DENIED"
    else if rule.requireProfile != "" && !Schema.SameName(cfg.profile.name, rule.requireProfile) then
      "JURISDICTION_ISOLATION_PROFILE_MISMATCH"
    else "POLICY_ACCEPTED"
  }

  lemma {:induction false} FirstRuleDecides(cfg: Config, rules: seq<IsolationRule>, req: Request, i: nat)
    requires Governs(rules, Schema.Normalize(req.schemaType), i)
    ensures IsolationViolation(cfg, rules, req) == RuleViolation(cfg, rules[i], req)
  {
    if i > 0 {
      FirstRuleDecides(cfg, rules[1..], req, i - 1);
    }
  }

  lemma {:induction false} RuleGovernsIff(rules: seq<IsolationRule>, schemaType: string)
    ensures (exists i: nat :: Governs(rules, schemaType, i)) <==>
            (exists i :: 0 <= i < |rules| && rules[i].schemaType == schemaType)
  {
    if rules != [] {
      if rules[0].schemaType == schemaType {
        assert Governs(rules, schemaType, 0);
      } else {
        RuleGovernsIff(rules[1..], schemaType);
        if i: nat :| Governs(rules[1..], schemaType, i) {
          assert Governs(rules, schemaType, i + 1);
        }
        if i :| 0 <= i < |rules| && rules[i].schemaType == schemaType {
          assert rules[1..][i - 1].schemaType == schemaType;
        }
      }
    }
  }

  // ---------------------------------------------------------------------------
  // The engine
  // ---------------------------------------------------------------------------

  function VerdictEvent(cfg: Config, v: Verdict, req: Request): Audit.Event {
    Audit.DecisionEvent(cfg, v.decision, v.reason, req.trustTier, req.senderRegion, req.recipientRegion,
                        req.schemaType, req.schemaVersion)
  }

  /** What an entry says of the request and of the verdict on it. */
  ghost predicate Judged(p: Audit.Payload, v: Verdict, req: Request, timestamp: int) {
    && p.decision == v.decision && p.reason == v.reason && p.trustTier == req.trustTier && p.timestamp == timestamp
    && p.senderRegion == req.senderRegion && p.recipientRegion == req.recipientRegion
    && p.schemaType == req.schemaType && p.schemaVersion == req.schemaVersion && !p.settlementFinal
  }

  class Engine {
    var cfg: Config
    const audit: Audit.Log?
    const crl: Crl.Store?
    const validate: Config -> bool

    constructor (cfg: Config, audit: Audit.Log?, crl: Crl.Store?, validate: Config -> bool)
      requires validate(cfg)
      ensures this.cfg == cfg && this.audit == audit && this.crl == crl && this.validate == validate
    {
      this.cfg, this.audit, this.crl, this.validate := cfg, audit, crl, validate;
    }

    /** Without a revocation store nobody is revoked. */
    ghost predicate Revoked(node: string)
      reads this, crl
    {
      crl != null && Crl.IsRevoked(crl.entries, node)
    }

    /** A configuration that fails validation leaves the old one in force. */
    method Reload(cfg: Config) returns (ok: bool)
      modifies this
      ensures ok == validate(cfg)
      ensures this.cfg == if ok then cfg else old(this.cfg)
    {
      if !validate(cfg) {
        return false;
      }
      this.cfg := cfg;
      return true;
    }

    method Evaluate(req: Request, timestamp: int) returns (v: Verdict)
      requires audit != null ==> audit.Valid()
      modifies audit
      ensures v == Decide(cfg, Revoked(req.senderNodeId), req)
      ensures audit != null ==>
                && audit.Valid()
                && audit.entries == Audit.Extend(audit.digest, old(audit.entries), cfg, VerdictEvent(cfg, v, req), timestamp)
      ensures audit != null ==>
                && |audit.entries| == |old(audit.entries)| + 1
                && Judged(audit.entries[|old(audit.entries)|].payload, v, req, timestamp)
    {
      v := Check(req);
      if audit == null {
        return;
      }
      var _ := audit.Append(cfg, v.decision, v.reason, req.trustTier, req.senderRegion, req.recipientRegion,
                            req.schemaType, req.schemaVersion, timestamp);
    }

    method Check(req: Request) returns (v: Verdict)
      ensures v == Decide(cfg, Revoked(req.senderNodeId), req)
    {
      if crl != null {
        var revoked := crl.QueryRevoked(req.senderNodeId);
        if revoked {
          return Deny(cfg, NODE_REVOKED);
        }
      }
      if req.trustTier < cfg.policy.minTrustTier {
        return Deny(cfg, "TRUST_TIER_BELOW_MINIMUM");
      }
      if req.recipientRegion in cfg.policy.denyTo {
        return Deny(cfg, "RECIPIENT_REGION_DENIED");
      }
      var isLocalDestination := cfg.node.region != "" && req.recipientRegion == cfg.node.region;
      if !isLocalDestination && |cfg.policy.allowTo| > 0 && req.recipientRegion !in cfg.policy.allowTo {
        return Deny(cfg, "RECIPIENT_REGION_NOT_IN_ALLOW_LIST");
      }
      if Schema.Normalize(req.schemaType) == Schema.HL7FHIR {
        var reason := Hl7FhirViolation(cfg);
        if reason != "" {
          return Deny(cfg, reason);
        }
      }
      if Schema.Normalize(req.schemaType) == Schema.EDIFACT && !HasIsolationRule(cfg, Schema.EDIFACT) {
        var reason := EdifactViolation(cfg);
        if reason != "" {
          return Deny(cfg, reason);
        }
      }
      var reason := IsolationViolation(cfg, cfg.policy.isolationRules, req);
      if reason != "" {
        return Deny(cfg, reason);
      }
      return Verdict(Audit.ALLOW, "POLICY_ACCEPTED", cfg.profile.name);
    }
  }

  // ---------------------------------------------------------------------------
  // Runs: an Evaluate loads the configuration, then asks the revocation store, then
  // appends to the log; reloads, revocations and other Evaluates come in between.
  // ---------------------------------------------------------------------------

  datatype Call =
    | Loaded(cfg: Config, req: Request)
    | Decided(cfg: Config, req: Request, verdict: Verdict)
    | Done(req: Request, verdict: Verdict)

  datatype State = State(cfg: Config, crl: Crl.Entries, log: seq<Audit.Entry>, calls: seq<Call>)

  datatype Step =
    | Reload(cfg: Config, valid: bool)
    | Revoke(receipt: Crl.Receipt)
    | Load(req: Request)
    | Check(i: nat)
    | Append(i: nat, timestamp: int)

  ghost predicate Next(digest: Audit.Digest, s: State, s': State, step: Step) {
    match step
    case Reload(cfg, valid) => s' == if valid then s.(cfg := cfg) else s
    case Revoke(receipt) => s' == s.(crl := Crl.Receive(s.crl, receipt))
    case Load(req) => s' == s.(calls := s.calls + [Loaded(s.cfg, req)])
    case Check(i) =>
      && i < |s.calls| && s.calls[i].Loaded?
      && (var c := s.calls[i];
          s' == s.(calls := s.calls[i := Decided(c.cfg, c.req,
                                                 Decide(c.cfg, Crl.IsRevoked(s.crl, c.req.senderNodeId), c.req))]))
    case Append(i, timestamp) =>
      && i < |s.calls| && s.calls[i].Decided?
      && (var c := s.calls[i];
          s' == s.(log := Audit.Extend(digest, s.log, c.cfg, VerdictEvent(c.cfg, c.verdict, c.req), timestamp),
                   calls := s.calls[i := Done(c.req, c.verdict)]))
  }

  ghost predicate Run(digest: Audit.Digest, states: seq<State>, steps: seq<Step>) {
    && |states| == |steps| + 1
    && states[0].crl == map[] && states[0].log == [] && states[0].calls == []
    && forall i :: 0 <= i < |steps| ==> Next(digest, states[i], states[i + 1], steps[i])
  }

  /** The record of an allowed health-data envelope shows a regional node under the strict profile. */
  ghost predicate HealthDataSafe(e: Audit.Entry) {
    e.payload.schemaType == "hl7fhir" && e.payload.decision == "ALLOW" ==>
      e.payload.nodeScope == "regional" && Schema.SameName(e.payload.profile, "strict")
  }

  ghost predicate CallConsistent(c: Call) {
    c.Decided? ==> c.verdict == Decide(c.cfg, true, c.req) || c.verdict == Decide(c.cfg, false, c.req)
  }

  ghost predicate Inv(s: State) {
    && Crl.WellFormed(s.crl)
    && (forall i :: 0 <= i < |s.calls| ==> CallConsistent(s.calls[i]))
    && (forall i :: 0 <= i < |s.log| ==> HealthDataSafe(s.log[i]))
  }

  lemma NormalizeNamed(t: string)
    requires t == Schema.HL7FHIR
    ensures Schema.Normalize(t) == Schema.HL7FHIR
  {
    assert t[0] == 'h' && !Schema.IsSpace(t[0]);
  }

  lemma AppendSafe(digest: Audit.Digest, c: Call, log: seq<Audit.Entry>, timestamp: int)
    requires c.Decided? && CallConsistent(c)
    ensures var log' := Audit.Extend(digest, log, c.cfg, VerdictEvent(c.cfg, c.verdict, c.req), timestamp);
      HealthDataSafe(log'[|log|])
  {
    if c.req.schemaType == Schema.HL7FHIR && c.verdict.decision == Audit.ALLOW {
      NormalizeNamed(c.req.schemaType);
      AllowedIff(c.cfg, true, c.req, "hl7fhir");
      AllowedIff(c.cfg, false, c.req, "hl7fhir");
    }
  }

  lemma NextKeepsInv(digest: Audit.Digest, s: State, s': State, step: Step)
    requires Inv(s) && Next(digest, s, s', step)
    ensures Inv(s')
  {
    match step
    case Revoke(receipt) => Crl.ReceiveAdds(s.crl, receipt, receipt.node);
    case Append(i, timestamp) => AppendSafe(digest, s.calls[i], s.log, timestamp);
    case _ =>
  }

  lemma {:induction false} RunKeepsInv(digest: Audit.Digest, states: seq<State>, steps: seq<Step>, n: nat)
    requires Run(digest, states, steps) && n <= |steps|
    ensures Inv(states[n])
  {
    if n > 0 {
      RunKeepsInv(digest, states, steps, n - 1);
      assert Next(digest, states[n - 1], states[n], steps[n - 1]);
      NextKeepsInv(digest, states[n - 1], states[n], steps[n - 1]);
    }
  }

  /** Over every run, whatever the isolation rules say and however configurations are swapped. */
  lemma HealthDataStaysRegional(digest: Audit.Digest, states: seq<State>, steps: seq<Step>, i: nat)
    requires Run(digest, states, steps) && i < |states[|steps|].log|
    ensures HealthDataSafe(states[|steps|].log[i])
  {
    RunKeepsInv(digest, states, steps, |steps|);
  }

  lemma {:induction false} RevokedForGood(digest: Audit.Digest, states: seq<State>, steps: seq<Step>, i: nat, j: nat,
                                          node: string)
    requires Run(digest, states, steps) && i <= j <= |steps| && Crl.IsRevoked(states[i].crl, node)
    ensures Crl.IsRevoked(states[j].crl, node)
  {
    if i < j {
      RevokedForGood(digest, states, steps, i, j - 1, node);
      assert Next(digest, states[j - 1], states[j], steps[j - 1]);
      if steps[j - 1].Revoke? {
        RunKeepsInv(digest, states, steps, j - 1);
        var rs := [steps[j - 1].receipt];
        assert rs[..0] == [];
        assert Crl.ReceiveAll(states[j - 1].crl, rs) == states[j].crl;
        Crl.RevocationIsPermanent(states[j - 1].crl, rs, node);
      }
    }
  }

  /**
   Once a sender has reached the revocation quorum, every Evaluate for it that consults the
   store afterwards is denied with NODE_REVOKED, through any later reloads.
   */
  lemma RevokedSenderIsDenied(digest: Audit.Digest, states: seq<State>, steps: seq<Step>, i: nat, j: nat)
    requires Run(digest, states, steps) && i <= j < |steps| && steps[j].Check?
    requires steps[j].i < |states[j].calls| && Crl.IsRevoked(states[i].crl, states[j].calls[steps[j].i].req.senderNodeId)
    ensures var c := states[j + 1].calls[steps[j].i];
      c.Decided? && c.verdict.decision == "DENY" && c.verdict.reason == "NODE_REVOKED"
  {
    assert Next(digest, states[j], states[j + 1], steps[j]);
    RevokedForGood(digest, states, steps, i, j, states[j].calls[steps[j].i].req.senderNodeId);
  }

  ghost predicate DeniedAsRevoked(c: Call) {
    !c.Loaded? ==> c.verdict.decision == "DENY" && c.verdict.reason == "NODE_REVOKED"
  }

  /** So an Evaluate that begins after the quorum was reached at state i never gets any other verdict ... */
  lemma {:induction false} LaterEvaluateIsDenied(digest: Audit.Digest, states: seq<State>, steps: seq<Step>, i: nat, k: nat, j: nat)
    requires Run(digest, states, steps) && i <= k < j <= |steps| && steps[k].Load?
    requires Crl.IsRevoked(states[i].crl, steps[k].req.senderNodeId)
    ensures var c := |states[k].calls|;
      && c < |states[j].calls| && states[j].calls[c].req == steps[k].req && DeniedAsRevoked(states[j].calls[c])
  {
    var c := |states[k].calls|;
    assert Next(digest, states[j - 1], states[j], steps[j - 1]);
    if k < j - 1 {
      LaterEvaluateIsDenied(digest, states, steps, i, k, j - 1);
      if steps[j - 1] == Check(c) {
        RevokedSenderIsDenied(digest, states, steps, i, j - 1);
      }
    }
  }

  /** ... and the entry it appends records the denial. */
  lemma LaterEvaluateIsRecordedAsDenied(digest: Audit.Digest, states: seq<State>, steps: seq<Step>, i: nat, k: nat, j: nat)
    requires Run(digest, states, steps) && i <= k < j < |steps| && steps[k].Load?
    requires Crl.IsRevoked(states[i].crl, steps[k].req.senderNodeId)
    requires steps[j].Append? && steps[j].i == |states[k].calls|
    ensures var log := states[j + 1].log;
      && |log| == |states[j].log| + 1
      && log[|log| - 1].payload.decision == "DENY" && log[|log| - 1].payload.reason == "NODE_REVOKED"
  {
    LaterEvaluateIsDenied(digest, states, steps, i, k, j);
    assert Next(digest, states[j], states[j + 1], steps[j]);
  }
}

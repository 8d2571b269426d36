/** The parts of internal/config/config.go that the modelled code reads. */
module Config {
  import opened Clock
  import opened Wrappers

  datatype NodeConfig = NodeConfig(
    nodeId: string,
    nodeScope: string,
    region: string,
    allianceId: string,
    policyVersion: string,
    applicableLaw: string)

  datatype ProfileConfig = ProfileConfig(name: string, dedupTtl: Duration)

  datatype IsolationRule = IsolationRule(
    schemaType: string,
    allowTiers: seq<string>,
    allowJurisdictions: seq<string>,
    requireProfile: string)

  datatype PolicyConfig = PolicyConfig(
    minTrustTier: nat,
    allowTo: seq<string>,
    denyTo: seq<string>,
    allowVia: seq<string>,
    isolationRules: seq<IsolationRule>)

  datatype PeerConfig = PeerConfig(region: string, addr: string, nodeScope: string, regions: seq<string>)

  /** `open` and `close` are minutes after midnight; the zone is a fixed offset from UTC. */
  datatype CutoffWindow = CutoffWindow(open: nat, close: nat, offset: Duration)

  datatype Iso20022Config = Iso20022Config(
    dedupTtlH: int,
    settlementFinality: bool,
    retainLong: bool,
    cutoffWindows: map<string, Option<CutoffWindow>>)  // None: a window that does not parse

  datatype Config = Config(
    node: NodeConfig,
    profile: ProfileConfig,
    policy: PolicyConfig,
    peers: map<string, PeerConfig>,
    iso20022: Iso20022Config)
}

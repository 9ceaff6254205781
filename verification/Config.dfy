/** The expanded cluster configuration: what the provider works from once defaults are applied. */
module Config {

  datatype SSHConfig = SSHConfig(user: string, port: int, password: string, privateKey: string, privateKeyPath: string, insecure: bool)

  datatype NodeConfig = NodeConfig(
    key: string, name: string, publicIP: string, privateIP: string, role: string, hostname: string,
    wireGuardPrivateKey: string, wireGuardPublicKey: string, ssh: SSHConfig)

  datatype WireGuardConfig = WireGuardConfig(enabled: bool, iface: string, subnet: string, port: int, mtu: int)

  datatype K3sConfig = K3sConfig(
    channel: string, clusterCIDR: string, serviceCIDR: string, disableComponents: seq<string>,
    writeKubeconfigMode: string, extraServerArgs: seq<string>, extraAgentArgs: seq<string>, token: string)

  datatype FirewallConfig = FirewallConfig(
    enabled: bool, backend: string, sshAllowedCIDRs: seq<string>, adminCIDRs: seq<string>,
    allowHTTP: bool, allowHTTPS: bool, allowKubeAPI: bool, extraTCPPorts: seq<int>, extraUDPPorts: seq<int>)

  datatype DNSConfig = DNSConfig(enabled: bool, nameservers: seq<string>, searchDomains: seq<string>)

  datatype AdminPeerConfig = AdminPeerConfig(enabled: bool, name: string, wgIP: string, privateKey: string, publicKey: string)

  datatype ClusterConfig = ClusterConfig(
    name: string,
    nodes: map<string, NodeConfig>,
    nodeNames: seq<string>,
    wireGuard: WireGuardConfig,
    k3s: K3sConfig,
    firewall: FirewallConfig,
    adminPeer: AdminPeerConfig,
    adminPeers: map<string, AdminPeerConfig>,
    adminPeerNames: seq<string>,
    dns: DNSConfig,
    k3sToken: string,
    wgPrivateKeys: map<string, string>,
    adminWGPriv: string,
    adminWGPub: string,
    adminWGPrivateKeys: map<string, string>,
    adminWGPublicKeys: map<string, string>)

  const LEGACY_ADMIN_PEER_KEY := "__admin_peer"

  const NO_SSH := SSHConfig("", 0, "", "", "", false)
  const NO_NODE := NodeConfig("", "", "", "", "", "", "", "", NO_SSH)
  const NO_PEER := AdminPeerConfig(false, "", "", "", "")

  /** Go's `cfg.Nodes[key]`: the zero value for a missing key. */
  function NodeOf(nodes: map<string, NodeConfig>, key: string): NodeConfig {
    if key in nodes then nodes[key] else NO_NODE
  }

  /** Go's `cfg.AdminPeers[name]`. */
  function PeerOf(peers: map<string, AdminPeerConfig>, name: string): AdminPeerConfig {
    if name in peers then peers[name] else NO_PEER
  }
}

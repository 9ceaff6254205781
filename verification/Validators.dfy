/**
 Plan-time validation: nodes, server count, admin peers and addressing.  The checks of dns,
 sysctl and the Traefik mode are not part of this model.
 */
module Validators {
  import opened Wrappers
  import opened Text
  import opened Addresses
  import opened Ordering
  import opened Ipam
  import opened Config
  import opened Models

  // ------------------------------------------------------------------ hostnames

  predicate IsAlnum(c: char) { 'a' <= c <= 'z' || 'A' <= c <= 'Z' || IsDigit(c) }

  /** One dot-separated part of a hostname. */
  predicate ValidLabel(l: string) {
    && 1 <= |l| <= 63 && IsAlnum(l[0]) && IsAlnum(l[|l| - 1])
    && forall i :: 0 <= i < |l| ==> IsAlnum(l[i]) || l[i] == '-'
  }

  /** `validHostname`: the pattern, part by part. */
  predicate ValidHostname(v: string) {
    |v| <= 253 && forall i :: 0 <= i < |Split(v, '.')| ==> ValidLabel(Split(v, '.')[i])
  }

  predicate HostnameChar(c: char) { IsAlnum(c) || c == '-' || c == '.' }

  predicate AllHostnameChars(v: string) { forall i :: 0 <= i < |v| ==> HostnameChar(v[i]) }

  lemma {:induction false} JoinedChars(labels: seq<string>)
    requires forall i :: 0 <= i < |labels| ==> AllHostnameChars(labels[i])
    ensures AllHostnameChars(Join(labels, "."))
  {
    if |labels| > 1 { JoinedChars(labels[1..]); }
  }

  /**
   A valid hostname consists of letters, digits, hyphens and dots: it cannot hold a quote, a
   backslash, a `#` or white space.
   */
  lemma HostnameChars(v: string)
    requires ValidHostname(v)
    ensures AllHostnameChars(v) && v != []
  {
    JoinSplit(v, '.');
    JoinedChars(Split(v, '.'));
    assert Split("", '.')[0] == "" && !ValidLabel("");
  }

  // ----------------------------------------------------------- address requests

  /** `adminIPRequests`: legacy request first, then one entry for every admin peer. */
  function RequestMap(admin: AdminPeerConfig, peers: map<string, AdminPeerConfig>): map<string, string> {
    (if admin.enabled then map[LEGACY_ADMIN_PEER_KEY := admin.wgIP] else map[]) + (map n | n in peers :: peers[n].wgIP)
  }

  method AdminIPRequests(admin: AdminPeerConfig, peers: map<string, AdminPeerConfig>) returns (out: map<string, string>)
    ensures out == RequestMap(admin, peers)
  {
    var head: map<string, string> := if admin.enabled then map[LEGACY_ADMIN_PEER_KEY := admin.wgIP] else map[];
    out := head;
    var todo := peers.Keys;
    while todo != {}
      invariant todo <= peers.Keys
      invariant out == head + (map n | n in peers && n !in todo :: peers[n].wgIP)
      decreases todo
    {
      var name :| name in todo;
      out := out[name := peers[name].wgIP];
      todo := todo - {name};
    }
    assert (map n | n in peers && n !in todo :: peers[n].wgIP) == map n | n in peers :: peers[n].wgIP;
  }

  lemma {:induction false} RequestsAt(admin: AdminPeerConfig, peers: map<string, AdminPeerConfig>, names: seq<string>)
    ensures AdminRequests(admin, peers, names) ==
            (if admin.enabled then map[LEGACY_ADMIN_PEER_KEY := admin.wgIP] else map[]) + (map n | n in names :: PeerOf(peers, n).wgIP)
  {
    if names != [] {
      var n := |names| - 1;
      RequestsAt(admin, peers, names[..n]);
      assert names == names[..n] + [names[n]];
    } else {
      assert (map n | n in names :: PeerOf(peers, n).wgIP) == map[];
    }
  }

  /** The two code paths build the same requests. */
  lemma SameRequests(admin: AdminPeerConfig, peers: map<string, AdminPeerConfig>)
    ensures AdminRequests(admin, peers, SortedKeys(peers.Keys)) == RequestMap(admin, peers)
  {
    hide SortStrings, SortedKeys, AdminRequests;
    var names := SortedKeys(peers.Keys);
    RequestsAt(admin, peers, names);
    assert (map n | n in names :: PeerOf(peers, n).wgIP) == (map n | n in peers :: peers[n].wgIP);
  }

  // ------------------------------------------------------------------ validation

  datatype PlanError =
    | NoNodes | BadRole(index: nat) | BadPublicIP(index: nat) | DuplicatePublicIP(index: nat)
    | BadHostname(index: nat) | DuplicateHostname(index: nat) | NoServer | EvenServers(count: nat)
    | AdminNeedsWireGuard | PeersNeedWireGuard | AdminConflict | BadSubnet | BadAddressing(error: AllocError)

  function Role(n: NodeModel): string { OrDefault(n.role, "") }

  function PublicIP(n: NodeModel): string { OrDefault(n.publicIP, "") }

  function Hostname(n: NodeModel): string { OrDefault(n.hostname, "") }

  predicate GoodNode(n: NodeModel, lib: NetLib) {
    && (Role(n) == "server" || Role(n) == "agent")
    && ParseIP(PublicIP(n), lib).Some?
    && (Hostname(n) != "" ==> ValidHostname(Hostname(n)))
  }

  predicate Apart(a: NodeModel, b: NodeModel) {
    PublicIP(a) != PublicIP(b) && (Hostname(a) != "" ==> Hostname(a) != Hostname(b))
  }

  predicate GoodNodes(nodes: seq<NodeModel>, lib: NetLib) {
    && (forall i :: 0 <= i < |nodes| ==> GoodNode(nodes[i], lib))
    && (forall i, j :: 0 <= i < j < |nodes| ==> Apart(nodes[i], nodes[j]))
  }

  function Servers(nodes: seq<NodeModel>): nat {
    if nodes == [] then 0 else Servers(nodes[..|nodes| - 1]) + (if Role(nodes[|nodes| - 1]) == "server" then 1 else 0)
  }

  /** The addressing the plan asks for, as the validator computes it. */
  ghost function PlanAssignment(plan: ClusterModel, lib: NetLib): Result<Assignments, AllocError> {
    var peers, admin := AdminPeerMap(plan.adminPeers), ExpandAdminPeer(plan.adminPeer);
    Assign(lib.parseCidr(ExpandWireGuard(plan.wireGuard).subnet), SortStrings(Identities(plan.nodes)),
           AdminNames(admin, SortedKeys(peers.Keys)), RequestMap(admin, peers), lib)
  }

  /** The plans that pass. */
  ghost predicate Accepts(plan: ClusterModel, lib: NetLib) {
    var wg, admin, peers := ExpandWireGuard(plan.wireGuard), ExpandAdminPeer(plan.adminPeer), AdminPeerMap(plan.adminPeers);
    && plan.nodes != [] && GoodNodes(plan.nodes, lib) && Servers(plan.nodes) % 2 == 1
    && (admin.enabled ==> wg.enabled) && (peers != map[] ==> wg.enabled) && !(admin.enabled && peers != map[])
    && (wg.enabled ==> PlanAssignment(plan, lib).Ok?)
  }

  /** The checks on one node, given the public IPs and hostnames seen before. */
  method CheckNode(n: NodeModel, i: nat, publicIPs: map<string, nat>, hostnames: map<string, nat>, lib: NetLib) returns (errors: seq<PlanError>)
    ensures errors == [] <==> GoodNode(n, lib) && PublicIP(n) !in publicIPs && (Hostname(n) != "" ==> Hostname(n) !in hostnames)
  {
    hide ParseIP, ValidHostname;
    errors := [];
    if Role(n) != "server" && Role(n) != "agent" { errors := errors + [BadRole(i)]; }
    var ip, h := PublicIP(n), Hostname(n);
    if ParseIP(ip, lib).None? { errors := errors + [BadPublicIP(i)]; }
    if ip in publicIPs { errors := errors + [DuplicatePublicIP(i)]; }
    if h != "" {
      if !ValidHostname(h) { errors := errors + [BadHostname(i)]; }
      if h in hostnames { errors := errors + [DuplicateHostname(i)]; }
    }
  }

  ghost function SeenIPs(nodes: seq<NodeModel>, i: nat): set<string>
    requires i <= |nodes|
  {
    set k | 0 <= k < i :: PublicIP(nodes[k])
  }

  ghost function SeenHostnames(nodes: seq<NodeModel>, i: nat): set<string>
    requires i <= |nodes|
  {
    set k | 0 <= k < i && Hostname(nodes[k]) != "" :: Hostname(nodes[k])
  }

  lemma SeenStep(nodes: seq<NodeModel>, i: nat)
    requires i < |nodes|
    ensures SeenIPs(nodes, i + 1) == SeenIPs(nodes, i) + {PublicIP(nodes[i])}
    ensures SeenHostnames(nodes, i + 1) == SeenHostnames(nodes, i) + (if Hostname(nodes[i]) != "" then {Hostname(nodes[i])} else {})
  {
  }

  /** The node loop of `validatePlan`, with its counters and duplicate maps. */
  method CheckNodes(nodes: seq<NodeModel>, lib: NetLib) returns (errors: seq<PlanError>, names: seq<string>, servers: nat)
    ensures errors == [] <==> GoodNodes(nodes, lib)
    ensures names == Identities(nodes) && servers == Servers(nodes)
  {
    hide GoodNode, GoodNodes, NodeIdentity, SeenIPs, SeenHostnames, Hostname, PublicIP;
    errors, names, servers := [], [], 0;
    var publicIPs: map<string, nat>, hostnames: map<string, nat> := map[], map[];
    assert GoodNodes([], lib) && SeenIPs(nodes, 0) == {} && SeenHostnames(nodes, 0) == {} by { NothingSeen(nodes, lib); }
    for i := 0 to |nodes|
      invariant errors == [] <==> GoodNodes(nodes[..i], lib)
      invariant names == Identities(nodes)[..i] && servers == Servers(nodes[..i])
      invariant publicIPs.Keys == SeenIPs(nodes, i) && hostnames.Keys == SeenHostnames(nodes, i)
    {
      var n := nodes[i];
      names := names + [NodeIdentity(n, i)];
      if Role(n) == "server" { servers := servers + 1; }
      var found := CheckNode(n, i, publicIPs, hostnames, lib);
      errors := errors + found;
      NewNodeApart(nodes, i);
      GoodNodesStep(nodes, i, lib);
      SeenStep(nodes, i);
      assert nodes[..i + 1][..i] == nodes[..i];
      publicIPs := publicIPs[PublicIP(n) := i];
      if Hostname(n) != "" { hostnames := hostnames[Hostname(n) := i]; }
    }
    assert nodes[..|nodes|] == nodes;
  }

  lemma NothingSeen(nodes: seq<NodeModel>, lib: NetLib)
    ensures GoodNodes([], lib) && SeenIPs(nodes, 0) == {} && SeenHostnames(nodes, 0) == {}
  {
  }

  lemma NewNodeApart(nodes: seq<NodeModel>, i: nat)
    requires i < |nodes|
    ensures (PublicIP(nodes[i]) !in SeenIPs(nodes, i) && (Hostname(nodes[i]) != "" ==> Hostname(nodes[i]) !in SeenHostnames(nodes, i)))
            <==> forall k :: 0 <= k < i ==> Apart(nodes[k], nodes[i])
  {
    hide PublicIP, Hostname;
    if PublicIP(nodes[i]) in SeenIPs(nodes, i) {
      var k :| 0 <= k < i && PublicIP(nodes[k]) == PublicIP(nodes[i]);
      assert !Apart(nodes[k], nodes[i]);
    }
    if Hostname(nodes[i]) != "" && Hostname(nodes[i]) in SeenHostnames(nodes, i) {
      var k :| 0 <= k < i && Hostname(nodes[k]) == Hostname(nodes[i]);
      assert !Apart(nodes[k], nodes[i]);
    }
  }

  lemma GoodNodesStep(nodes: seq<NodeModel>, i: nat, lib: NetLib)
    requires i < |nodes|
    ensures GoodNodes(nodes[..i + 1], lib)
            <==> GoodNodes(nodes[..i], lib) && GoodNode(nodes[i], lib) && forall k :: 0 <= k < i ==> Apart(nodes[k], nodes[i])
  {
    hide GoodNode, Apart;
    var all, front := nodes[..i + 1], nodes[..i];
    assert all[i] == nodes[i] && forall k :: 0 <= k < i ==> all[k] == front[k] == nodes[k];
  }

  method CheckAdmin(wg: WireGuardConfig, admin: AdminPeerConfig, peerNames: seq<string>) returns (errors: seq<PlanError>)
    ensures errors == [] <==> (admin.enabled ==> wg.enabled) && (|peerNames| > 0 ==> wg.enabled) && !(admin.enabled && |peerNames| > 0)
  {
    errors := [];
    if admin.enabled && !wg.enabled { errors := errors + [AdminNeedsWireGuard]; }
    if |peerNames| > 0 && !wg.enabled { errors := errors + [PeersNeedWireGuard]; }
    if admin.enabled && |peerNames| > 0 { errors := errors + [AdminConflict]; }
  }

  method CheckAddressing(wg: WireGuardConfig, names: seq<string>, admin: AdminPeerConfig, peers: map<string, AdminPeerConfig>, peerNames: seq<string>, lib: NetLib)
    returns (errors: seq<PlanError>)
    ensures errors == [] <==>
            (wg.enabled ==> Assign(lib.parseCidr(wg.subnet), names, AdminNames(admin, peerNames), RequestMap(admin, peers), lib).Ok?)
  {
    hide Assign, RequestMap;
    errors := [];
    if wg.enabled {
      if lib.parseCidr(wg.subnet) == BadCidr {
        InvalidIsRefused(names, AdminNames(admin, peerNames), RequestMap(admin, peers), lib);
        errors := [BadSubnet];
      } else {
        var requested := AdminIPRequests(admin, peers);
        var r := AssignWireGuardIPs(lib.parseCidr(wg.subnet), names, AdminNames(admin, peerNames), requested, lib);
        if r.Err? { errors := [BadAddressing(r.error)]; }
      }
    }
  }

  /** `validatePlan`: no error is reported exactly for the acceptable plans. */
  method ValidatePlan(plan: ClusterModel, lib: NetLib) returns (errors: seq<PlanError>)
    ensures errors == [] <==> Accepts(plan, lib)
  {
    hide Assign, SortStrings, AdminPeerMap, GoodNodes, Identities, Servers, RequestMap;
    if |plan.nodes| == 0 { return [NoNodes]; }
    var nodeErrors, names, servers := CheckNodes(plan.nodes, lib);
    if servers == 0 { nodeErrors := nodeErrors + [NoServer]; }
    if servers > 0 && servers % 2 == 0 { nodeErrors := nodeErrors + [EvenServers(servers)]; }
    var wg, admin := ExpandWireGuard(plan.wireGuard), ExpandAdminPeer(plan.adminPeer);
    var peers, peerNames := ExpandAdminPeers(plan.adminPeers);
    NamesOfKeys(peers, peerNames);
    var adminErrors := CheckAdmin(wg, admin, peerNames);
    var addressErrors := CheckAddressing(wg, SortStrings(names), admin, peers, peerNames, lib);
    errors := nodeErrors + adminErrors + addressErrors;
  }

  lemma InvalidIsRefused(nodes: seq<string>, admins: seq<string>, req: map<string, string>, lib: NetLib)
    ensures Assign(BadCidr, nodes, admins, req, lib) == Err(InvalidCidr)
  {
  }

  lemma NamesOfKeys(peers: map<string, AdminPeerConfig>, names: seq<string>)
    requires names == SortedKeys(peers.Keys)
    ensures |names| > 0 <==> peers != map[]
  {
    if |names| > 0 { assert names[0] in peers.Keys; }
    if peers != map[] {
      var k :| k in peers.Keys;
      assert k in names;
    }
  }

  /** `validateConfig`: the conditions under which it reports no error. */
  predicate ConfigOk(cfg: ClusterConfig) {
    && (cfg.adminPeer.enabled ==> cfg.wireGuard.enabled)
    && (|cfg.adminPeerNames| > 0 ==> cfg.wireGuard.enabled)
    && !(cfg.adminPeer.enabled && |cfg.adminPeerNames| > 0)
    && (cfg.firewall.enabled ==> cfg.firewall.backend == "ufw")
  }

  // --------------------------------------------- acceptance implies allocation

  /**
   A plan that passes validation cannot fail address assignment during apply: the two code paths
   hand the allocator the same subnet, names and requests.
   */
  lemma AcceptedPlanAllocates(plan: ClusterModel, prior: ClusterModel, provider: SSHConfig, token: string, lib: NetLib)
    requires Accepts(plan, lib)
    ensures var base := BaseConfig(plan, prior, provider, token);
            base.wireGuard.enabled ==> AssignFor(base, lib).Ok? && AssignFor(base, lib) == PlanAssignment(plan, lib)
  {
    hide Assign, SortStrings, AdminPeerMap, GoodNodes, Identities, ZipMap, NodeConfigs, RequestMap, AdminRequests;
    SameRequests(ExpandAdminPeer(plan.adminPeer), AdminPeerMap(plan.adminPeers));
  }
}

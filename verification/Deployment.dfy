/**
 From an accepted plan to a running cluster: the plan-time checks give everything that the apply
 run needs, so an undisturbed apply succeeds, converges, and can be repeated without effect.
 */
module Deployment {
  import opened Wrappers
  import opened Text
  import opened Addresses
  import opened Ordering
  import opened Ipam
  import opened Config
  import opened Remote
  import opened Models
  import opened Lifecycle
  import opened Validators
  import opened StateRuns
  import opened PlanLaws
  import opened Apply
  import opened Convergence
  import opened Changes
  import HostsFile
  import WireGuard
  import Firewall
  import FirewallRuns
  import K3s
  import Mesh
  import Targets

  // ------------------------------------------------------ what expansion provides

  lemma {:induction false} ZipMapFrom<V>(keys: seq<string>, values: seq<V>, k: string) returns (i: nat)
    requires |keys| == |values| && k in keys
    ensures i < |keys| && keys[i] == k && ZipMap(keys, values)[k] == values[i]
    decreases |keys|
  {
    var n := |keys| - 1;
    assert keys == keys[..n] + [keys[n]];
    if keys[n] == k { i := n; } else { i := ZipMapFrom(keys[..n], values[..n], k); }
  }

  /** Letters, digits, hyphens, dots and colons. */
  predicate PlainChar(c: char) { IsAlnum(c) || c == '-' || c == '.' || c == ':' }

  predicate PlainText(text: string) { forall i :: 0 <= i < |text| ==> PlainChar(text[i]) }

  /** The text prints an address. */
  predicate Prints(text: string) { ParseDotted(text).Some? && text != "" && PlainText(text) }

  lemma QuadPlain(s: string)
    requires forall c :: c in s ==> QuadChar(c)
    ensures PlainText(s)
  {
    forall i | 0 <= i < |s| ensures PlainChar(s[i]) { assert s[i] in s && QuadChar(s[i]); }
  }

  lemma DottedPrints(a: Addr)
    ensures Prints(Dotted(a))
  {
    DottedRoundTrip(a);
    DottedChars(a);
    QuadPlain(Dotted(a));
  }

  /** The maps that a successful assignment consists of. */
  lemma AssignedMaps(base: ClusterConfig, lib: NetLib, ips: Assignments) returns (net: Addr, offs: seq<nat>)
    requires AssignFor(base, lib) == Ok(ips)
    ensures net + |base.nodeNames| < TWO_32 && ips.nodeIPs == ZipMap(base.nodeNames, NodeTexts(net, |base.nodeNames|))
    ensures var admins := AdminNames(base.adminPeer, base.adminPeerNames);
            |offs| == |admins| && Below(net, offs) && ips.adminIPs == ZipMap(admins, OffsetTexts(net, offs))
  {
    hide Dotted, AdminOffsets, ZipMap, NodeTexts, OffsetTexts, BlockStart, Pow2, Usable, AdminRequests, AdminNames;
    var cidr := lib.parseCidr(base.wireGuard.subnet);
    var admins := AdminNames(base.adminPeer, base.adminPeerNames);
    Mesh.OnlyIPv4(cidr, base.nodeNames, admins, RequestsOf(base), lib);
    var sub := Subnet(Network(cidr.addr, cidr.ones), cidr.ones);
    NetworkIsSubnet(cidr.addr, cidr.ones);
    AdminOffsetsSound(sub, |base.nodeNames|, admins, RequestsOf(base), lib);
    net, offs := sub.net, AdminOffsets(sub, |base.nodeNames|, admins, RequestsOf(base), lib).value;
  }

  /** Every assigned text prints an address. */
  lemma AssignedPrints(base: ClusterConfig, lib: NetLib, ips: Assignments, k: string)
    requires AssignFor(base, lib) == Ok(ips)
    ensures k in base.nodeNames ==> Prints(Lookup(ips.nodeIPs, k))
    ensures k in AdminNames(base.adminPeer, base.adminPeerNames) ==> Prints(Lookup(ips.adminIPs, k))
  {
    hide Dotted, AssignFor, ZipMap, Prints, AdminNames;
    var admins := AdminNames(base.adminPeer, base.adminPeerNames);
    var net, offs := AssignedMaps(base, lib, ips);
    if k in base.nodeNames {
      var i := ZipMapFrom(base.nodeNames, NodeTexts(net, |base.nodeNames|), k);
      DottedPrints(net + i + 1);
    }
    if k in admins {
      var i := ZipMapFrom(admins, OffsetTexts(net, offs), k);
      DottedPrints(net + offs[i]);
    }
  }

  /** The addresses that end up in the configuration. */
  lemma FilledPrints(base: ClusterConfig, s: Secrets, stored: map<string, string>, storedAdmin: map<string, string>, derive: Derive, lib: NetLib)
    requires Explains(s, base, stored, storedAdmin, derive, lib) && Distinct(base.nodeNames) && Distinct(base.adminPeerNames)
    ensures var cfg := Filled(base, s.ips, s.nodePairs, s.legacy, s.adminPairs);
            && (forall k :: k in cfg.nodeNames ==> Prints(NodeOf(cfg.nodes, k).privateIP))
            && AdminConfsRender(cfg)
  {
    hide AssignFor, GoodPairs, Prints, Filled, NodeAt, PeerAt;
    var cfg := Filled(base, s.ips, s.nodePairs, s.legacy, s.adminPairs);
    Mesh.FilledParts(base, s);
    forall k | k in base.nodeNames ensures Prints(NodeOf(cfg.nodes, k).privateIP) {
      var i :| 0 <= i < |base.nodeNames| && base.nodeNames[i] == k;
      Mesh.FilledEntries(base, s, i);
      Mesh.NodeAtFields(NodeOf(base.nodes, k), Lookup(s.ips.nodeIPs, k), s.nodePairs[i]);
      AssignedPrints(base, lib, s.ips, k);
    }
    forall p | p in base.adminPeerNames ensures PeerOf(cfg.adminPeers, p).wgIP != "" {
      var i :| 0 <= i < |base.adminPeerNames| && base.adminPeerNames[i] == p;
      Mesh.FilledEntries(base, s, i);
      Mesh.PeerAtFields(PeerOf(base.adminPeers, p), Lookup(s.ips.adminIPs, p), s.adminPairs[i]);
      AssignedPrints(base, lib, s.ips, p);
      NonEmpty(Lookup(s.ips.adminIPs, p));
    }
    if base.adminPeer.enabled {
      Mesh.PeerAtFields(base.adminPeer, Lookup(s.ips.adminIPs, LEGACY_ADMIN_PEER_KEY), s.legacy);
      AssignedPrints(base, lib, s.ips, LEGACY_ADMIN_PEER_KEY);
      NonEmpty(Lookup(s.ips.adminIPs, LEGACY_ADMIN_PEER_KEY));
    }
  }

  lemma NonEmpty(text: string)
    ensures Prints(text) ==> text != ""
  {
  }

  /** The expanded configuration prints real addresses and renders every admin configuration it must return. */
  lemma ExpandedPrints(plan: ClusterModel, prior: ClusterModel, provider: SSHConfig, supply: Supply, derive: Derive, lib: NetLib)
    requires Accepts(plan, lib) && DistinctNodes(plan) && Honest(supply, derive)
    requires Expand(plan, prior, provider, supply, derive, lib).Ok?
    ensures var cfg := Expand(plan, prior, provider, supply, derive, lib).value;
            && cfg.wireGuard == ExpandWireGuard(plan.wireGuard) && cfg.firewall == plan.firewall
            && (cfg.wireGuard.enabled ==> forall k :: k in cfg.nodeNames ==> Prints(NodeOf(cfg.nodes, k).privateIP))
            && AdminConfsRender(cfg)
  {
    hide Identities, NodeConfigs, ZipMap, SortStrings, AdminPeerMap, FillIn, Explains, Filled, Prints, AdminConfsRender, PlanAssignment, GoodNodes;
    var token := TokenOf(plan, prior, supply).value;
    var base := BaseConfig(plan, prior, provider, token);
    BaseFacts(plan, prior, provider, token);
    if base.wireGuard.enabled {
      var stored, storedAdmin := OrDefault(prior.wireGuardPrivateKeys, map[]), OrDefault(prior.adminPrivateKeys, map[]);
      var s := FillInShape(base, stored, storedAdmin, supply, derive, lib);
      ExplainsLengths(s, base, stored, storedAdmin, derive, lib);
      Mesh.FilledParts(base, s);
      FilledPrints(base, s, stored, storedAdmin, derive, lib);
    } else {
      NoAdmins(base);
    }
  }

  lemma NoAdmins(cfg: ClusterConfig)
    ensures !cfg.adminPeer.enabled && cfg.adminPeers == map[] && (forall p :: p in cfg.adminPeerNames ==> p in cfg.adminPeers) ==> AdminConfsRender(cfg)
  {
  }

  // -------------------------------------------------- accepted plans fit the run

  /** Parsable IPv6 texts hold digits, letters, colons and dots only: the one fact used about `net.ParseIP` on them. */
  ghost predicate PlainIPv6(lib: NetLib) { forall s: string :: lib.parse6(s).Some? ==> PlainText(s) }

  lemma PlainIP(s: string, lib: NetLib)
    requires PlainIPv6(lib) && ParseIP(s, lib).Some?
    ensures PlainText(s)
  {
    hide Dotted, ParseDotted, PlainText;
    if Marker(s) == '.' {
      ParseDottedCanonical(s);
      DottedChars(ParseDotted(s).value);
      QuadPlain(s);
    }
  }

  lemma DefaultNamePlain(i: nat)
    ensures PlainText(DefaultName(i))
  {
    hide Decimal;
  }

  lemma HostnamePlain(v: string)
    requires ValidHostname(v)
    ensures PlainText(v)
  {
    hide ValidHostname;
    HostnameChars(v);
    forall i | 0 <= i < |v| ensures PlainChar(v[i]) { assert HostnameChar(v[i]); }
  }

  /** What the plan's checks say about the texts of one node. */
  lemma NodeTextsPlain(plan: ClusterModel, lib: NetLib, i: nat)
    requires Accepts(plan, lib) && PlainIPv6(lib) && i < |plan.nodes|
    ensures PlainText(PublicIP(plan.nodes[i])) && PlainText(NodeIdentity(plan.nodes[i], i))
    ensures PlainText(if Hostname(plan.nodes[i]) != "" then Hostname(plan.nodes[i]) else DefaultName(i))
  {
    hide PlanAssignment, ParseIP, ValidHostname, DefaultName, PlainText;
    assert GoodNode(plan.nodes[i], lib);
    PlainIP(PublicIP(plan.nodes[i]), lib);
    DefaultNamePlain(i);
    if Hostname(plan.nodes[i]) != "" { HostnamePlain(Hostname(plan.nodes[i])); }
  }

  /** The interface name is usable and `ip` prints the interface in its usual shape on every node. */
  ghost predicate LinkReady(plan: ClusterModel, site: Site) {
    WireGuard.IfaceName(ExpandWireGuard(plan.wireGuard).iface) && forall k :: WireGuard.LinkEnvOk(site.link(k))
  }

  /** An address text leads to the machine with that address: spellings of one address to the same, different addresses to different ones. */
  ghost predicate Routed(site: Site, lib: NetLib) {
    forall s, t :: ParseIP(s, lib).Some? && ParseIP(t, lib).Some? ==>
      (site.reach(s) == site.reach(t) <==> ParseIP(s, lib) == ParseIP(t, lib))
  }

  /** Nodes have machines of their own exactly when the plan names different addresses. */
  lemma OwnMachinesIff(plan: ClusterModel, prior: ClusterModel, provider: SSHConfig, supply: Supply, derive: Derive, lib: NetLib, site: Site)
    requires Accepts(plan, lib) && DistinctNodes(plan) && Honest(supply, derive) && Routed(site, lib)
    requires Expand(plan, prior, provider, supply, derive, lib).Ok?
    ensures OwnMachines(Expand(plan, prior, provider, supply, derive, lib).value, site) <==> SeparateHosts(plan, lib)
  {
    hide Expand, NodeIdentity, SortStrings, Honest, PlanAssignment, ParseIP, ValidHostname;
    var cfg := Expand(plan, prior, provider, supply, derive, lib).value;
    ExpandedNames(plan, prior, provider, supply, derive, lib);
    SomeNode(plan, prior, provider, supply, derive, lib);
    forall i | 0 <= i < |plan.nodes|
      ensures var id := NodeIdentity(plan.nodes[i], i);
              id in cfg.nodeNames && Host(site, NodeOf(cfg.nodes, id)) == site.reach(PublicIP(plan.nodes[i])) && ParseIP(PublicIP(plan.nodes[i]), lib).Some?
    {
      ExpandedNode(plan, prior, provider, supply, derive, lib, i);
      assert GoodNode(plan.nodes[i], lib);
    }
    if SeparateHosts(plan, lib) {
      forall k, l | k in cfg.nodeNames && l in cfg.nodeNames && k != l ensures Host(site, NodeOf(cfg.nodes, k)) != Host(site, NodeOf(cfg.nodes, l)) {
        var i := NameOrigin(plan, k);
        var j := NameOrigin(plan, l);
      }
    }
    if OwnMachines(cfg, site) {
      forall i, j | 0 <= i < |plan.nodes| && 0 <= j < |plan.nodes| && i != j
        ensures ParseIP(PublicIP(plan.nodes[i]), lib) != ParseIP(PublicIP(plan.nodes[j]), lib)
      {
        var ids := Identities(plan.nodes);
        assert ids[i] == NodeIdentity(plan.nodes[i], i) && ids[j] == NodeIdentity(plan.nodes[j], j);
        assert ids[i] != ids[j];
      }
    }
  }

  /**
   An accepted plan expands to a configuration that satisfies what the apply run relies on, exactly
   when its public IPs are different addresses.
   */
  lemma AcceptedFitsIff(plan: ClusterModel, prior: ClusterModel, provider: SSHConfig, supply: Supply, derive: Derive, lib: NetLib, site: Site)
    requires Accepts(plan, lib) && DistinctNodes(plan) && Honest(supply, derive) && PlainIPv6(lib) && LinkReady(plan, site) && Routed(site, lib)
    requires Expand(plan, prior, provider, supply, derive, lib).Ok?
    ensures Fits(Expand(plan, prior, provider, supply, derive, lib).value, site) <==> SeparateHosts(plan, lib)
  {
    hide Expand, Accepts, DistinctNodes, Honest, PlainIPv6, LinkReady, Routed, OwnMachines, SeparateHosts, NodeFits, HostsFile.NodesFreeOf;
    var cfg := Expand(plan, prior, provider, supply, derive, lib).value;
    OwnMachinesIff(plan, prior, provider, supply, derive, lib, site);
    AcceptedTexts(plan, prior, provider, supply, derive, lib);
    FreeOf(cfg, '#');
    AcceptedNodesFit(plan, prior, provider, supply, derive, lib, site);
  }

  lemma AcceptedNodesFit(plan: ClusterModel, prior: ClusterModel, provider: SSHConfig, supply: Supply, derive: Derive, lib: NetLib, site: Site)
    requires Accepts(plan, lib) && DistinctNodes(plan) && Honest(supply, derive) && LinkReady(plan, site)
    requires Expand(plan, prior, provider, supply, derive, lib).Ok?
    ensures var cfg := Expand(plan, prior, provider, supply, derive, lib).value;
            forall k :: k in cfg.nodeNames ==> NodeFits(cfg, NodeOf(cfg.nodes, k), site.link(k))
  {
    hide Expand, Accepts, DistinctNodes, Honest, ParseDotted;
    ExpandedPrints(plan, prior, provider, supply, derive, lib);
  }

  /** The texts of all nodes of the configuration are plain. */
  predicate PlainNodes(cfg: ClusterConfig) {
    forall k :: k in cfg.nodeNames ==>
      var n := NodeOf(cfg.nodes, k); PlainText(HostsFile.HostAddress(cfg, n)) && PlainText(n.name) && PlainText(n.key)
  }

  lemma FreeOf(cfg: ClusterConfig, c: char)
    requires PlainNodes(cfg) && !PlainChar(c)
    ensures HostsFile.NodesFreeOf(cfg, c)
  {
    hide HostsFile.HostAddress;
    forall k | k in cfg.nodeNames ensures var n := NodeOf(cfg.nodes, k); c !in HostsFile.HostAddress(cfg, n) && c !in n.name && c !in n.key {
      var n := NodeOf(cfg.nodes, k);
      PlainWithout(HostsFile.HostAddress(cfg, n), c);
      PlainWithout(n.name, c);
      PlainWithout(n.key, c);
    }
  }

  lemma PlainWithout(s: string, c: char)
    requires PlainText(s) && !PlainChar(c)
    ensures c !in s
  {
  }

  lemma AcceptedTexts(plan: ClusterModel, prior: ClusterModel, provider: SSHConfig, supply: Supply, derive: Derive, lib: NetLib)
    requires Accepts(plan, lib) && DistinctNodes(plan) && Honest(supply, derive) && PlainIPv6(lib)
    requires Expand(plan, prior, provider, supply, derive, lib).Ok?
    ensures PlainNodes(Expand(plan, prior, provider, supply, derive, lib).value)
  {
    hide Expand, Accepts, NodeIdentity, SortStrings, DistinctNodes, Honest, PlainIPv6, ParseDotted, PlainText;
    var cfg := Expand(plan, prior, provider, supply, derive, lib).value;
    ExpandedPrints(plan, prior, provider, supply, derive, lib);
    ExpandedNames(plan, prior, provider, supply, derive, lib);
    forall k | k in cfg.nodeNames
      ensures var n := NodeOf(cfg.nodes, k); PlainText(HostsFile.HostAddress(cfg, n)) && PlainText(n.name) && PlainText(n.key)
    {
      var i := NameOrigin(plan, k);
      ExpandedNode(plan, prior, provider, supply, derive, lib, i);
      NodeTextsPlain(plan, lib, i);
    }
  }

  /** The hosts block of an accepted plan reaches the nodes' Python program unchanged. */
  lemma AcceptedHostsWritten(plan: ClusterModel, prior: ClusterModel, provider: SSHConfig, supply: Supply, derive: Derive, lib: NetLib)
    requires Accepts(plan, lib) && DistinctNodes(plan) && Honest(supply, derive) && PlainIPv6(lib)
    requires Expand(plan, prior, provider, supply, derive, lib).Ok?
    ensures var block := HostsFile.HostsBlock(Expand(plan, prior, provider, supply, derive, lib).value);
            HostsFile.PythonValue(HostsFile.PythonString(block)) == Some(block) && HostsFile.IsBlock(block)
  {
    hide Expand, Accepts, DistinctNodes, Honest, PlainIPv6, HostsFile.PythonValue, HostsFile.PythonString, HostsFile.HostsBlock, HostsFile.IsBlock,
      HostsFile.NodesFreeOf, HostsFile.Travels, PlainNodes;
    var cfg := Expand(plan, prior, provider, supply, derive, lib).value;
    AcceptedTexts(plan, prior, provider, supply, derive, lib);
    FreeOf(cfg, '#');
    FreeOf(cfg, '\'');
    FreeOf(cfg, '\\');
    FreeOf(cfg, '\n');
    FreeOf(cfg, '\r');
    FreeOf(cfg, '\0');
    HostsFile.BlockTravels(cfg);
    HostsFile.RenderedIsBlock(cfg);
    HostsFile.QuoteFree(cfg);
    HostsFile.RenderedIsLiteralIff(cfg);
  }

  lemma SomeNode(plan: ClusterModel, prior: ClusterModel, provider: SSHConfig, supply: Supply, derive: Derive, lib: NetLib)
    requires Accepts(plan, lib) && DistinctNodes(plan) && Honest(supply, derive) && Expand(plan, prior, provider, supply, derive, lib).Ok?
    ensures Distinct(Expand(plan, prior, provider, supply, derive, lib).value.nodeNames)
  {
    hide Expand, NodeIdentity, PlanAssignment, GoodNodes, Honest, DistinctNodes;
    ExpandedNode(plan, prior, provider, supply, derive, lib, 0);
  }

  // --------------------------------------------------- undisturbed runs succeed

  /** With a calm network every step of every phase succeeds, whatever state the machine is in. */
  lemma StepSucceeds(p: Phase, m: Machine, cfg: ClusterConfig, node: NodeConfig, env: WireGuard.LinkEnv, net: Net, t: nat)
    requires Calm(net) && (p.Protect? ==> cfg.firewall.backend == "ufw")
    ensures PhaseStep(p, m, cfg, node, env, net, t).ok
  {
    hide FirewallRuns.Configure, K3s.Install, K3s.Rendered, FirewallRuns.Rules, HostsFile.Edit, HostsFile.HostsBlock, WireGuard.NodeConf, WireGuard.Configure;
    match p
    case Prepare =>
      var hosts := HostsStep(m, cfg, node, net, t);
      var system := SystemStep(hosts.state, net, hosts.clock);
      WireGuardSucceeds(InterfaceAt(hosts.state.wg, cfg.wireGuard.iface), cfg.wireGuard.iface, WireGuard.NodeConf(cfg, node), AddrOf(node.privateIP), env, net, system.clock);
    case Connect => PingsKeep(m, cfg, node, cfg.nodeNames, net, t);
    case Protect => FirewallSucceeds(m.firewall, FirewallRuns.Rules(cfg, node), net, t);
    case Install => InstallSucceeds(m.k3s, node.role, K3s.Rendered(cfg, node), net, t);
  }

  /** The in-place branch is taken only when there is an interface to synchronise. */
  lemma WireGuardSucceeds(w: WireGuard.WireGuardState, iface: string, c: WireGuard.Conf, addr: Addr, env: WireGuard.LinkEnv, net: Net, t: nat)
    requires Calm(net)
    ensures WireGuard.Configure(w, iface, c, addr, env, net, t).ok
  {
    hide WireGuard.LinkOutput, IntText;
    if w.live.None? { WireGuard.EmptyHasNothing(" inet " + c.address + "/32 "); }
  }

  lemma FirewallSucceeds(f: FirewallRuns.FirewallState, rules: seq<Firewall.Rule>, net: Net, t: nat)
    requires Calm(net)
    ensures FirewallRuns.Configure(f, rules, net, t).ok
  {
    hide Firewall.ScriptText, FirewallRuns.Chain;
    FirewallRuns.ChainCompletes(Firewall.Script(rules), f.ufw, net, t + 1);
    FirewallRuns.ChainCompletes(Firewall.Script(rules), f.ufw, net, t + 2);
  }

  lemma InstallSucceeds(s: K3s.K3sState, role: string, target: K3s.YAML, net: Net, t: nat)
    requires Calm(net)
    ensures K3s.Install(s, role, target, net, t).ok
  {
  }

  lemma {:induction false} PhaseSucceeds(p: Phase, cfg: ClusterConfig, names: seq<string>, start: Progress, site: Site, net: Net)
    requires start.ok && Calm(net) && (p.Protect? ==> cfg.firewall.backend == "ufw")
    ensures RunPhase(p, cfg, names, start, site, net).ok
    decreases |names|
  {
    hide NodeRound;
    if names != [] {
      var n := |names| - 1;
      PhaseSucceeds(p, cfg, names[..n], start, site, net);
      RoundSucceeds(p, cfg, names[n], RunPhase(p, cfg, names[..n], start, site, net).w, site, net);
    }
  }

  lemma RoundSucceeds(p: Phase, cfg: ClusterConfig, key: string, w: World, site: Site, net: Net)
    requires Calm(net) && (p.Protect? ==> cfg.firewall.backend == "ufw")
    ensures NodeRound(p, cfg, key, w, site, net).ok
  {
    hide PhaseStep, NewStatus;
    var node := NodeOf(cfg.nodes, key);
    StepSucceeds(p, MachineAt(w.machines, Host(site, node)), cfg, node, site.link(key), net, w.clock + 1);
  }

  /** An undisturbed run succeeds exactly when the configuration itself can be finished. */
  lemma CalmRunIff(w: World, cfg: ClusterConfig, site: Site, calm: Net)
    requires Calm(calm) && (cfg.firewall.enabled ==> cfg.firewall.backend == "ufw")
    ensures Apply.Run(w, cfg, site, calm).ok
            <==> K3s.FirstServerOf(cfg.nodes, cfg.nodeNames).Some? && AdminConfsRender(cfg)
  {
    hide RunPhase, AdminConfsRender, K3s.FirstServerOf;
    var p1 := MaybePhase(Prepare, cfg, Fresh(w), site, calm);
    PhaseSucceeds(Prepare, cfg, cfg.nodeNames, Fresh(w), site, calm);
    var p2 := MaybePhase(Connect, cfg, p1, site, calm);
    PhaseSucceeds(Connect, cfg, cfg.nodeNames, p1, site, calm);
    var p3 := MaybePhase(Protect, cfg, p2, site, calm);
    if cfg.firewall.enabled { PhaseSucceeds(Protect, cfg, cfg.nodeNames, p2, site, calm); }
    PhaseSucceeds(Install, cfg, cfg.nodeNames, p3, site, calm);
    assert Apply.Run(w, cfg, site, calm) == Finish(cfg, AfterInstall(w, cfg, site, calm).w, calm);
  }

  // ------------------------------------------------------- machines to start from

  /** Machines that the provider has never touched can be trusted. */
  lemma NewMachinesTrusted(cfg: ClusterConfig, site: Site, w: World)
    requires forall k :: k in cfg.nodeNames ==> Untouched(M(cfg, site, w, k))
    ensures Trusted(cfg, site, w)
  {
    hide M, FirewallRuns.Rules, Firewall.ScriptText, Find;
  }

  /** Every node of `next` is an untouched machine or a node of `cfg` in the same role. */
  ghost predicate Continues(cfg: ClusterConfig, next: ClusterConfig, site: Site, w: World) {
    forall k :: k in next.nodeNames ==>
      || Untouched(M(next, site, w, k))
      || exists l :: l in cfg.nodeNames && SameSeat(site, NodeOf(cfg.nodes, l), NodeOf(next.nodes, k))
  }

  predicate SameSeat(site: Site, a: NodeConfig, b: NodeConfig) { Host(site, a) == Host(site, b) && a.role == b.role }

  /**
   Updates: machines at the target of one configuration can be trusted when the next one is
   applied, for any change of rules, tokens, peers or nodes that keeps the roles and does not turn
   the firewall on.
   */
  lemma UpdateTrusted(cfg: ClusterConfig, next: ClusterConfig, site: Site, w: World)
    requires AtTarget(cfg, site, w) && Continues(cfg, next, site, w)
    requires next.firewall.enabled ==> cfg.firewall.enabled && CleanFirewall(cfg) && CleanFirewall(next)
    ensures Trusted(next, site, w)
  {
    hide AtTarget, FirewallRuns.Rules, HostsFile.Orderly, K3s.Rendered, Continues, CleanFirewall;
    forall p: Phase, k | Runs(p, next) && k in next.nodeNames ensures Ready(p, next, NodeOf(next.nodes, k), M(next, site, w, k)) {
      UpdateReady(p, cfg, next, site, w, k);
    }
  }

  lemma UpdateReady(p: Phase, cfg: ClusterConfig, next: ClusterConfig, site: Site, w: World, k: string)
    requires AtTarget(cfg, site, w) && Continues(cfg, next, site, w) && k in next.nodeNames && Runs(p, next)
    requires next.firewall.enabled ==> cfg.firewall.enabled && CleanFirewall(cfg) && CleanFirewall(next)
    ensures Ready(p, next, NodeOf(next.nodes, k), M(next, site, w, k))
  {
    hide FirewallRuns.Rules, HostsFile.Orderly, K3s.Rendered, HostsFile.Edit, Firewall.Script, Firewall.ScriptText, WireGuard.InPlace, Firewall.CleanRules, Untouched;
    if Untouched(M(next, site, w, k)) {
      UntouchedReady(p, next, NodeOf(next.nodes, k), M(next, site, w, k));
    } else {
      var l :| l in cfg.nodeNames && SameSeat(site, NodeOf(cfg.nodes, l), NodeOf(next.nodes, k));
      var m := M(next, site, w, k);
      assert m == M(cfg, site, w, l);
      assert Runs(p, cfg) ==> Met(p, cfg, NodeOf(cfg.nodes, l), m);
      var before, after := FirewallRuns.Rules(cfg, NodeOf(cfg.nodes, l)), FirewallRuns.Rules(next, NodeOf(next.nodes, k));
      if p.Protect? && Firewall.ScriptText(Firewall.Script(before)) == Firewall.ScriptText(Firewall.Script(after)) {
        Firewall.MarkerInjective(before, after);
      }
    }
  }

  lemma UntouchedReady(p: Phase, cfg: ClusterConfig, node: NodeConfig, m: Machine)
    requires Untouched(m)
    ensures Ready(p, cfg, node, m)
  {
    hide Find, FirewallRuns.Rules, Firewall.ScriptText;
  }

  // ------------------------------------------------------------------ theorem

  /** Nodes with different addresses are all at their targets only on machines of their own. */
  lemma TargetNeedsOwn(cfg: ClusterConfig, site: Site, w: World)
    requires Distinct(cfg.nodeNames) && AddressesApart(cfg) && AtTarget(cfg, site, w)
    ensures OwnMachines(cfg, site)
  {
    hide K3s.Rendered, Host, MachineAt;
    assert Runs(Install, cfg) && AllMet(Install, cfg, site, cfg.nodeNames, w);
    forall k, l | k in cfg.nodeNames && l in cfg.nodeNames && k != l ensures Host(site, NodeOf(cfg.nodes, k)) != Host(site, NodeOf(cfg.nodes, l)) {
      assert Met(Install, cfg, NodeOf(cfg.nodes, k), M(cfg, site, w, k)) && Met(Install, cfg, NodeOf(cfg.nodes, l), M(cfg, site, w, l));
      if Host(site, NodeOf(cfg.nodes, k)) == Host(site, NodeOf(cfg.nodes, l)) {
        K3s.RenderedAddress(cfg, NodeOf(cfg.nodes, k), NodeOf(cfg.nodes, l));
      }
    }
  }

  /** No two nodes have the same address in the cluster network. */
  predicate AddressesApart(cfg: ClusterConfig) {
    forall k, l :: k in cfg.nodeNames && l in cfg.nodeNames && k != l ==>
      && (cfg.wireGuard.enabled ==> NodeOf(cfg.nodes, k).privateIP != NodeOf(cfg.nodes, l).privateIP)
      && (!cfg.wireGuard.enabled ==> NodeOf(cfg.nodes, k).publicIP != NodeOf(cfg.nodes, l).publicIP)
  }

  lemma ExpandedApart(st: Option<ClusterModel>, a: Action, derive: Derive, lib: NetLib)
    requires a.Apply? && Accepts(a.plan, lib) && Fair(a, derive) && (st.Some? ==> StateRuns.Coherent(st.value, derive))
    requires Expanded(st, a, derive, lib).Ok? && ConfigOk(Expanded(st, a, derive, lib).value)
    ensures AddressesApart(Expanded(st, a, derive, lib).value)
  {
    hide Expand, Accepts, Honest, DistinctNodes, StateRuns.Coherent, SortStrings, ConfigOk, NodeIdentity;
    var cfg, prior := Expanded(st, a, derive, lib).value, PriorOf(st);
    ExpandedPrints(a.plan, prior, a.provider, a.supply, derive, lib);
    if cfg.wireGuard.enabled {
      SomeNodes(a.plan, lib);
      Mesh.ExpandedReady(st, a, derive, lib);
    } else {
      ExpandedNames(a.plan, prior, a.provider, a.supply, derive, lib);
      forall k, l | k in cfg.nodeNames && l in cfg.nodeNames && k != l
        ensures NodeOf(cfg.nodes, k).publicIP != NodeOf(cfg.nodes, l).publicIP
      {
        var i := NameOrigin(a.plan, k);
        var j := NameOrigin(a.plan, l);
        ExpandedNode(a.plan, prior, a.provider, a.supply, derive, lib, i);
        ExpandedNode(a.plan, prior, a.provider, a.supply, derive, lib, j);
        NodesApart(a.plan, lib, i, j);
      }
    }
  }

  lemma SomeNodes(plan: ClusterModel, lib: NetLib)
    requires Accepts(plan, lib)
    ensures plan.nodes != []
  {
  }

  /**
   From plan to running cluster.  Take any accepted plan with distinct identities, any coherent
   state, and enough randomness.  Expansion cannot fail; one node bootstraps, the only one unless
   extra arguments say otherwise; and on machines that can be trusted an undisturbed apply succeeds.
   It brings every machine to its target exactly when the plan's public IPs are different addresses,
   and then a second apply of the plan against the stored state, whatever the random source yields,
   works from the same configuration and changes no machine.
   */
  lemma AcceptedPlanDeploys(st: Option<ClusterModel>, a: Action, again: Supply, derive: Derive, lib: NetLib, site: Site, w: World, calm: Net)
    returns (b: string)
    requires a.Apply? && Accepts(a.plan, lib) && Fair(a, derive) && (st.Some? ==> StateRuns.Coherent(st.value, derive))
    requires a.supply.token.Some? && forall i: nat :: a.supply.pair(i).Some?
    requires a.plan.firewall.enabled ==> a.plan.firewall.backend == "ufw"
    requires PlainIPv6(lib) && LinkReady(a.plan, site) && Routed(site, lib) && Calm(calm)
    ensures Expanded(st, a, derive, lib).Ok?
    ensures var cfg := Expanded(st, a, derive, lib).value;
            && (Fits(cfg, site) <==> SeparateHosts(a.plan, lib)) && ConfigOk(cfg)
            && b in cfg.nodeNames && (forall k :: k in cfg.nodeNames ==> K3s.JoinsThrough(cfg, b, k))
            && (K3s.OnlyInit(cfg, b) <==> K3s.NoOtherInit(cfg, b))
            && Expand(a.plan, ToState(cfg, a.plan, a.out), a.provider, again, derive, lib) == Ok(cfg)
            && (Trusted(cfg, site, w) ==>
                  var end := Apply.Run(w, cfg, site, calm);
                  && end.ok && (AtTarget(cfg, site, end.w) <==> SeparateHosts(a.plan, lib))
                  && (SeparateHosts(a.plan, lib) ==>
                        Apply.Run(end.w, cfg, site, calm).ok && SameMachines(cfg, site, end.w, Apply.Run(end.w, cfg, site, calm).w)))
  {
    hide Expand, Accepts, Honest, DistinctNodes, StateRuns.Coherent, Fits, Trusted, AtTarget, Apply.Run, SameMachines, ToState, SeparateHosts, Routed,
      K3s.JoinsThrough, K3s.ServersFollow, K3s.OnlyInit, K3s.NoOtherInit, K3s.OneWayIn, K3s.PlainArgs, PlainIPv6, LinkReady, AdminConfsRender,
      AddressesApart, OwnMachines;
    var prior := PriorOf(st);
    AcceptedPlanExpands(st, a, derive, lib);
    var cfg := Expanded(st, a, derive, lib).value;
    AcceptedFitsIff(a.plan, prior, a.provider, a.supply, derive, lib, site);
    OwnMachinesIff(a.plan, prior, a.provider, a.supply, derive, lib, site);
    b := AcceptedPlanBootstraps(a.plan, prior, a.provider, a.supply, derive, lib);
    AcceptedConfigOk(a.plan, prior, a.provider, a.supply, derive, lib);
    ExpandedPrints(a.plan, prior, a.provider, a.supply, derive, lib);
    ExpandedApart(st, a, derive, lib);
    SomeNode(a.plan, prior, a.provider, a.supply, derive, lib);
    ApplyTwice(a.plan, prior, a.provider, a.supply, again, derive, lib, a.out);
    CalmRunIff(w, cfg, site, calm);
    if Trusted(cfg, site, w) {
      if SeparateHosts(a.plan, lib) {
        CalmAvoidsWindow(w, cfg, site, calm);
        SuccessConvergesIff(w, cfg, site, calm);
        RunIdle(Apply.Run(w, cfg, site, calm).w, cfg, site, calm);
      } else if AtTarget(cfg, site, Apply.Run(w, cfg, site, calm).w) {
        TargetNeedsOwn(cfg, site, Apply.Run(w, cfg, site, calm).w);
      }
    }
  }

  /** The hosts lines of an accepted plan consist of single words. */
  lemma AcceptedWorded(plan: ClusterModel, prior: ClusterModel, provider: SSHConfig, supply: Supply, derive: Derive, lib: NetLib)
    requires Accepts(plan, lib) && DistinctNodes(plan) && Honest(supply, derive) && PlainIPv6(lib)
    requires Expand(plan, prior, provider, supply, derive, lib).Ok?
    ensures Targets.Worded(Expand(plan, prior, provider, supply, derive, lib).value)
  {
    hide Expand, Accepts, NodeIdentity, SortStrings, DistinctNodes, Honest, PlainIPv6, ParseDotted, PlainText, Targets.Word;
    var cfg := Expand(plan, prior, provider, supply, derive, lib).value;
    ExpandedPrints(plan, prior, provider, supply, derive, lib);
    ExpandedNames(plan, prior, provider, supply, derive, lib);
    forall k | k in cfg.nodeNames
      ensures var n := NodeOf(cfg.nodes, k);
              Targets.Word(n.name) && Targets.Word(n.key) && (cfg.wireGuard.enabled ==> Targets.Word(n.privateIP)) && Targets.Word(n.publicIP)
    {
      var i := NameOrigin(plan, k);
      ExpandedNode(plan, prior, provider, supply, derive, lib, i);
      NodeTextsPlain(plan, lib, i);
      NodeTextsThere(plan, lib, i);
      var n := NodeOf(cfg.nodes, k);
      PlainWord(n.name);
      PlainWord(n.key);
      PlainWord(n.publicIP);
      PlainWord(n.privateIP);
    }
  }

  lemma PlainWord(s: string)
    ensures PlainText(s) && s != "" ==> Targets.Word(s)
  {
    if PlainText(s) {
      forall i | 0 <= i < |s| ensures !IsSpace(s[i]) { assert PlainChar(s[i]); }
    }
  }

  lemma NodeTextsThere(plan: ClusterModel, lib: NetLib, i: nat)
    requires Accepts(plan, lib) && i < |plan.nodes|
    ensures PublicIP(plan.nodes[i]) != "" && NodeIdentity(plan.nodes[i], i) != "" && DefaultName(i) != ""
  {
    hide PlanAssignment, ValidHostname, ParseDotted;
    assert GoodNode(plan.nodes[i], lib);
  }

  /**
   What an accepted plan with different addresses becomes: after an undisturbed apply on machines that
   can be trusted, every machine resolves all nodes, carries the tunnel, admits the wanted traffic and
   runs K3s with the settings that were asked for.
   */
  lemma AcceptedPlanConfigures(st: Option<ClusterModel>, a: Action, derive: Derive, lib: NetLib, site: Site, w: World, calm: Net)
    returns (b: string)
    requires a.Apply? && Accepts(a.plan, lib) && Fair(a, derive) && (st.Some? ==> StateRuns.Coherent(st.value, derive))
    requires a.supply.token.Some? && forall i: nat :: a.supply.pair(i).Some?
    requires a.plan.firewall.enabled ==> a.plan.firewall.backend == "ufw"
    requires PlainIPv6(lib) && LinkReady(a.plan, site) && Routed(site, lib) && Calm(calm) && SeparateHosts(a.plan, lib)
    ensures Expanded(st, a, derive, lib).Ok?
    ensures var cfg := Expanded(st, a, derive, lib).value;
            b in cfg.nodeNames && (Trusted(cfg, site, w) ==>
              Apply.Run(w, cfg, site, calm).ok && forall k :: k in cfg.nodeNames ==> Targets.Configured(cfg, b, k, M(cfg, site, Apply.Run(w, cfg, site, calm).w, k)))
  {
    hide Expand, Accepts, Honest, DistinctNodes, StateRuns.Coherent, Fits, Trusted, AtTarget, Apply.Run, SeparateHosts, Routed, RunInWindow, Targets.Worded,
      Targets.Configured, K3s.FirstServerOf, K3s.JoinsThrough, K3s.ServersFollow, K3s.OnlyInit, K3s.NoOtherInit, K3s.OneWayIn, K3s.PlainArgs, PlainIPv6, LinkReady,
      AdminConfsRender, M, SameMachines, K3s.KeyedNodes;
    var prior := PriorOf(st);
    AcceptedPlanExpands(st, a, derive, lib);
    var cfg := Expanded(st, a, derive, lib).value;
    AcceptedFitsIff(a.plan, prior, a.provider, a.supply, derive, lib, site);
    b := AcceptedPlanBootstraps(a.plan, prior, a.provider, a.supply, derive, lib);
    AcceptedWorded(a.plan, prior, a.provider, a.supply, derive, lib);
    SomeNodes(a.plan, lib);
    ExpandedKeyed(a.plan, prior, a.provider, a.supply, derive, lib);
    ExpandedPrints(a.plan, prior, a.provider, a.supply, derive, lib);
    CalmRunIff(w, cfg, site, calm);
    CalmAvoidsWindow(w, cfg, site, calm);
    if Trusted(cfg, site, w) {
      forall k | k in cfg.nodeNames ensures Targets.Configured(cfg, b, k, M(cfg, site, Apply.Run(w, cfg, site, calm).w, k)) {
        Targets.SuccessConfigures(w, cfg, site, calm, b, k);
      }
    }
  }

  lemma CalmAvoidsWindow(w: World, cfg: ClusterConfig, site: Site, calm: Net)
    requires Calm(calm)
    ensures !RunInWindow(w, cfg, site, calm)
  {
    hide RunPhase, AfterProtect;
    PhaseAvoidsWindow(cfg, cfg.nodeNames, AfterProtect(w, cfg, site, calm), site, calm);
  }

  lemma {:induction false} PhaseAvoidsWindow(cfg: ClusterConfig, names: seq<string>, start: Progress, site: Site, calm: Net)
    requires Calm(calm)
    ensures !PhaseInWindow(Install, cfg, names, start, site, calm)
    decreases |names|
  {
    hide RunPhase, K3s.Rendered;
    if names != [] { PhaseAvoidsWindow(cfg, names[..|names| - 1], start, site, calm); }
  }

  /** The plan's checks give what `validateConfig` asks for, except the firewall backend. */
  lemma AcceptedConfigOk(plan: ClusterModel, prior: ClusterModel, provider: SSHConfig, supply: Supply, derive: Derive, lib: NetLib)
    requires Accepts(plan, lib) && Expand(plan, prior, provider, supply, derive, lib).Ok?
    ensures ConfigOk(Expand(plan, prior, provider, supply, derive, lib).value)
            <==> (plan.firewall.enabled ==> plan.firewall.backend == "ufw")
  {
    hide ZipMap, SortStrings, AdminPeerMap, AssignFor, GeneratedKeys, FilledNodes, FilledPeers, Identities, NodeConfigs, Keys, PlanAssignment, GoodNodes;
    NamesOfKeys(AdminPeerMap(plan.adminPeers), SortedKeys(AdminPeerMap(plan.adminPeers).Keys));
  }
}

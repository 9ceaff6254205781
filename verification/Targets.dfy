/**
 What a machine at its target does, in the words of the tools that read its configuration: which
 names resolve, what the tunnel carries, what the firewall admits, and what K3s was started with.
 */
module Targets {
  import opened Wrappers
  import opened Text
  import opened Addresses
  import opened Config
  import opened Remote
  import opened Apply
  import opened Convergence
  import opened Models
  import HostsFile
  import WireGuard
  import FirewallRuns
  import K3s
  import Mesh

  // ------------------------------------------------------------------ /etc/hosts

  /** A line of /etc/hosts as its readers take it: an address, and the names it stands for. */
  predicate LineResolves(line: string, name: string, addr: string) {
    var f := Fields(line); |f| > 1 && f[0] == addr && name in f[1..]
  }

  predicate Resolves(hosts: string, name: string, addr: string) {
    exists i :: 0 <= i < |Split(hosts, '\n')| && LineResolves(Split(hosts, '\n')[i], name, addr)
  }

  predicate Word(s: string) { s != "" && NoSpace(s) }

  /** The texts that go into a hosts line are single words. */
  predicate Worded(cfg: ClusterConfig) {
    forall k :: k in cfg.nodeNames ==>
      var n := NodeOf(cfg.nodes, k);
      Word(n.name) && Word(n.key) && (cfg.wireGuard.enabled ==> Word(n.privateIP)) && (!cfg.wireGuard.enabled ==> Word(n.publicIP))
  }

  lemma LineIn(p: string, body: string, q: string)
    requires '\n' !in body
    ensures body in Split(p + "\n" + body + "\n" + q, '\n')
  {
    var rest := body + ['\n'] + q;
    SplitPlain(body, '\n');
    SplitAppend(body, '\n', q);
    SplitAppend(p, '\n', rest);
    assert p + "\n" + body + "\n" + q == p + ['\n'] + rest;
    assert Split(rest, '\n')[0] == body;
  }

  lemma {:induction false} HostLinesAt(cfg: ClusterConfig, names: seq<string>, l: string) returns (a: string, b: string)
    requires l in names
    ensures HostsFile.HostLines(cfg, names) == a + HostsFile.HostLine(cfg, l) + b
    ensures a == "" || a[|a| - 1] == '\n'
    decreases |names|
  {
    hide HostsFile.HostLine;
    var n := |names| - 1;
    assert names == names[..n] + [names[n]];
    if l == names[n] {
      a, b := HostsFile.HostLines(cfg, names[..n]), "";
      LinesEnd(cfg, names[..n]);
      assert a + HostsFile.HostLine(cfg, l) + b == a + HostsFile.HostLine(cfg, l);
    } else {
      var b';
      a, b' := HostLinesAt(cfg, names[..n], l);
      b := b' + HostsFile.HostLine(cfg, names[n]);
      assert a + HostsFile.HostLine(cfg, l) + b' + HostsFile.HostLine(cfg, names[n]) == a + HostsFile.HostLine(cfg, l) + b;
    }
  }

  lemma LinesEnd(cfg: ClusterConfig, names: seq<string>)
    ensures var t := HostsFile.HostLines(cfg, names); t == "" || t[|t| - 1] == '\n'
  {
  }

  lemma WordsApart(a: string, b: string, c: string)
    requires Word(a) && Word(b) && Word(c)
    ensures Fields(a + " " + b + " " + c) == [a, b, c] && '\n' !in a + " " + b + " " + c
  {
    hide Fields;
    assert a + " " + b + " " + c == a + " " + (b + " " + c);
    FieldsCons(a, b + " " + c);
    FieldsCons(b, c);
    FieldsOne(c);
    WordLine(a);
    WordLine(b);
    WordLine(c);
  }

  lemma WordLine(s: string)
    requires NoSpace(s)
    ensures '\n' !in s
  {
  }

  /** The line of a node: its address inside the tunnel where there is one, and its two names. */
  lemma HostLineWords(cfg: ClusterConfig, l: string)
    requires Worded(cfg) && l in cfg.nodeNames
    ensures var n := NodeOf(cfg.nodes, l);
            var addr := if cfg.wireGuard.enabled then n.privateIP else n.publicIP;
            var body := addr + " " + n.name + " " + n.key;
            HostsFile.HostLine(cfg, l) == body + "\n" && Fields(body) == [addr, n.name, n.key] && '\n' !in body
  {
    hide Fields, NoSpace;
    var n := NodeOf(cfg.nodes, l);
    WordsApart(if cfg.wireGuard.enabled then n.privateIP else n.publicIP, n.name, n.key);
  }

  /** What a hosts file must resolve. */
  ghost predicate AllResolve(cfg: ClusterConfig, hosts: string) {
    forall l :: l in cfg.nodeNames ==>
      var n := NodeOf(cfg.nodes, l);
      && (cfg.wireGuard.enabled ==> Resolves(hosts, n.name, n.privateIP) && Resolves(hosts, n.key, n.privateIP))
      && (!cfg.wireGuard.enabled ==> Resolves(hosts, n.name, n.publicIP) && Resolves(hosts, n.key, n.publicIP))
  }

  lemma Regrouped(start: string, a: string, body: string, b: string, end: string, p: string)
    requires start + "\n" + a == p + "\n"
    ensures start + "\n" + (a + (body + "\n") + b) + end == p + "\n" + body + "\n" + (b + end)
  {
    var line := body + "\n";
    assert start + "\n" + (a + line + b) + end == (start + "\n" + a) + line + (b + end);
    assert p + "\n" + line == p + "\n" + body + "\n";
  }

  lemma Wrapped(before: string, p: string, body: string, q: string, after: string)
    ensures before + (p + "\n" + body + "\n" + q) + after == (before + p) + "\n" + body + "\n" + (q + after)
  {
  }

  lemma BlockResolves(cfg: ClusterConfig, l: string, before: string, after: string)
    requires Worded(cfg) && l in cfg.nodeNames
    ensures var n, hosts := NodeOf(cfg.nodes, l), before + HostsFile.HostsBlock(cfg) + after;
            var addr := if cfg.wireGuard.enabled then n.privateIP else n.publicIP;
            Resolves(hosts, n.name, addr) && Resolves(hosts, n.key, addr)
  {
    hide HostsFile.HostLine, HostsFile.HostLines, Worded, Split, Fields;
    var n := NodeOf(cfg.nodes, l);
    var addr := if cfg.wireGuard.enabled then n.privateIP else n.publicIP;
    var body := addr + " " + n.name + " " + n.key;
    HostLineWords(cfg, l);
    var a, b := HostLinesAt(cfg, cfg.nodeNames, l);
    var p := LineBefore(HostsFile.START, a);
    LineOfBlock(before, HostsFile.START, a, body, b, HostsFile.END, after, p);
    var hosts := before + HostsFile.HostsBlock(cfg) + after;
    var i :| 0 <= i < |Split(hosts, '\n')| && Split(hosts, '\n')[i] == body;
    assert LineResolves(Split(hosts, '\n')[i], n.name, addr) && LineResolves(Split(hosts, '\n')[i], n.key, addr);
  }

  lemma LineOfBlock(before: string, start: string, a: string, body: string, b: string, end: string, after: string, p: string)
    requires start + "\n" + a == p + "\n" && '\n' !in body
    ensures body in Split(before + (start + "\n" + (a + (body + "\n") + b) + end) + after, '\n')
  {
    hide Split;
    Regrouped(start, a, body, b, end, p);
    Wrapped(before, p, body, b + end, after);
    LineIn(before + p, body, b + end + after);
  }

  lemma LineBefore(start: string, a: string) returns (p: string)
    requires a == "" || a[|a| - 1] == '\n'
    ensures start + "\n" + a == p + "\n"
  {
    if a == "" {
      p := start;
    } else {
      p := start + "\n" + a[..|a| - 1];
      assert a == a[..|a| - 1] + "\n";
    }
  }

  lemma ThreeParts(s: string, i: nat, j: nat)
    requires i <= j <= |s|
    ensures s == s[..i] + s[i..j] + s[j..]
  {
  }

  lemma BlockBounds(hosts: string)
    requires HostsFile.Orderly(hosts) && HostsFile.HasBoth(hosts)
    ensures 0 <= Find(hosts, HostsFile.START) <= Find(hosts, HostsFile.END) + |HostsFile.END| <= |hosts|
  {
    hide Find;
    assert At(hosts, HostsFile.END, Find(hosts, HostsFile.END));
  }

  lemma HostsAtTarget(cfg: ClusterConfig, hosts: string)
    requires HostsFile.NodesFreeOf(cfg, '#') && Worded(cfg)
    requires HostsFile.Orderly(hosts) && HostsFile.Edit(hosts, HostsFile.HostsBlock(cfg)) == hosts
    ensures AllResolve(cfg, hosts)
  {
    hide HostsFile.Orderly, HostsFile.Edit, HostsFile.IsBlock, HostsFile.HostsBlock, Find, HostsFile.NodesFreeOf, HostsFile.Front, HostsFile.Behind, Resolves, Worded;
    var block := HostsFile.HostsBlock(cfg);
    HostsFile.RenderedIsBlock(cfg);
    HostsFile.EditView(hosts, block);
    var i, j := Find(hosts, HostsFile.START), Find(hosts, HostsFile.END) + |HostsFile.END|;
    BlockBounds(hosts);
    ThreeParts(hosts, i, j);
    forall l | l in cfg.nodeNames
      ensures var n := NodeOf(cfg.nodes, l);
              && (cfg.wireGuard.enabled ==> Resolves(hosts, n.name, n.privateIP) && Resolves(hosts, n.key, n.privateIP))
              && (!cfg.wireGuard.enabled ==> Resolves(hosts, n.name, n.publicIP) && Resolves(hosts, n.key, n.publicIP))
    {
      BlockResolves(cfg, l, hosts[..i], hosts[j..]);
    }
  }

  // ------------------------------------------------------------------ the tunnel

  /** The sections of node `k`'s interface: every other node, and the admin peers. */
  ghost predicate Section(cfg: ClusterConfig, k: string, p: WireGuard.Peer) {
    || (exists l :: l in cfg.nodeNames && l != k && IsNodeSection(cfg, NodeOf(cfg.nodes, l), p))
    || (cfg.adminPeer.enabled && p == WireGuard.Peer(cfg.adminPeer.publicKey, cfg.adminPeer.wgIP, WireGuard.NoEndpoint))
    || (exists q :: q in cfg.adminPeerNames && IsAdminSection(PeerOf(cfg.adminPeers, q), p))
  }

  predicate IsNodeSection(cfg: ClusterConfig, n: NodeConfig, p: WireGuard.Peer) {
    p == WireGuard.Peer(n.wireGuardPublicKey, n.privateIP, WireGuard.Endpoint(n.publicIP, cfg.wireGuard.port))
  }

  predicate IsAdminSection(peer: AdminPeerConfig, p: WireGuard.Peer) { p == WireGuard.Peer(peer.publicKey, peer.wgIP, WireGuard.NoEndpoint) }

  lemma SectionIff(cfg: ClusterConfig, k: string, p: WireGuard.Peer)
    requires K3s.KeyedNodes(cfg) && k in cfg.nodeNames
    ensures p in WireGuard.NodeConf(cfg, NodeOf(cfg.nodes, k)).peers <==> Section(cfg, k, p)
  {
    hide WireGuard.OtherNodes, WireGuard.AdminSections;
    var self := Some(NodeOf(cfg.nodes, k).key);
    Mesh.OtherNodesIff(cfg, self, cfg.nodeNames, p);
    Mesh.AdminSectionsIff(cfg, cfg.adminPeerNames, p);
    NodeSectionsIff(cfg, k, p);
    AdminSectionsIff(cfg, p);
    assert p in WireGuard.NodeConf(cfg, NodeOf(cfg.nodes, k)).peers <==>
           p in WireGuard.OtherNodes(cfg, self, cfg.nodeNames) || p in WireGuard.LegacySection(cfg) || p in WireGuard.AdminSections(cfg, cfg.adminPeerNames);
  }

  lemma NodeSectionsIff(cfg: ClusterConfig, k: string, p: WireGuard.Peer)
    requires K3s.KeyedNodes(cfg) && k in cfg.nodeNames
    ensures (exists l :: l in cfg.nodeNames && Some(NodeOf(cfg.nodes, k).key) != Some(Mesh.Node(cfg, l).key) && p == WireGuard.NodePeer(cfg, Mesh.Node(cfg, l)))
            <==> exists l :: l in cfg.nodeNames && l != k && IsNodeSection(cfg, NodeOf(cfg.nodes, l), p)
  {
    forall l | l in cfg.nodeNames ensures IsNodeSection(cfg, NodeOf(cfg.nodes, l), p) <==> p == WireGuard.NodePeer(cfg, Mesh.Node(cfg, l)) {
    }
  }

  lemma AdminSectionsIff(cfg: ClusterConfig, p: WireGuard.Peer)
    ensures (exists q :: q in cfg.adminPeerNames && p == WireGuard.AdminPeer(Mesh.Admin(cfg, q)))
            <==> exists q :: q in cfg.adminPeerNames && IsAdminSection(PeerOf(cfg.adminPeers, q), p)
  {
    forall q ensures IsAdminSection(PeerOf(cfg.adminPeers, q), p) <==> p == WireGuard.AdminPeer(Mesh.Admin(cfg, q)) {
    }
  }

  /** The interface is up with the node's own key, address and port, and exactly these sections. */
  ghost predicate TunnelUp(cfg: ClusterConfig, k: string, m: Machine) {
    var node, w := NodeOf(cfg.nodes, k), InterfaceAt(m.wg, cfg.wireGuard.iface);
    && w.active && w.live.Some?
    && w.live.value.privateKey == node.wireGuardPrivateKey && w.live.value.listenPort == Some(cfg.wireGuard.port)
    && w.live.value.mtu == cfg.wireGuard.mtu
    && Dotted(w.live.value.addr) == node.privateIP && w.live.value.prefix == 32
    && forall p :: p in w.live.value.peers <==> Section(cfg, k, p)
  }

  lemma TunnelAtTarget(cfg: ClusterConfig, k: string, m: Machine)
    requires K3s.KeyedNodes(cfg) && k in cfg.nodeNames && ParseDotted(NodeOf(cfg.nodes, k).privateIP).Some?
    requires WireGuard.InPlace(InterfaceAt(m.wg, cfg.wireGuard.iface), WireGuard.NodeConf(cfg, NodeOf(cfg.nodes, k)), AddrOf(NodeOf(cfg.nodes, k).privateIP))
    ensures TunnelUp(cfg, k, m)
  {
    hide Section, WireGuard.OtherNodes, WireGuard.LegacySection, WireGuard.AdminSections, Dotted, ParseDotted, InterfaceAt, AddrOf;
    PrintsAddress(NodeOf(cfg.nodes, k));
    forall p ensures p in WireGuard.NodeConf(cfg, NodeOf(cfg.nodes, k)).peers <==> Section(cfg, k, p) { SectionIff(cfg, k, p); }
  }

  // ------------------------------------------------------------------------ K3s

  /** The service of the node's role runs, started with exactly the settings it is meant to have. */
  ghost predicate ServiceUp(cfg: ClusterConfig, b: string, k: string, m: Machine) {
    var node := NodeOf(cfg.nodes, k);
    var service := if node.role == "agent" then m.k3s.agent else m.k3s.server;
    service.Running? && forall e :: e in service.config <==>
      || K3s.JoinSetting(cfg, NodeOf(cfg.nodes, b), node, e) || K3s.NetworkSetting(cfg, node, e) || K3s.ServerSetting(cfg, node, e)
      || e in K3s.ArgEntries(K3s.ExtraArgs(cfg, node))
  }

  lemma ServiceAtTarget(cfg: ClusterConfig, b: string, k: string, m: Machine)
    requires K3s.KeyedNodes(cfg) && k in cfg.nodeNames && K3s.FirstServerOf(cfg.nodes, cfg.nodeNames) == Some(b)
    requires K3s.Settled(m.k3s, NodeOf(cfg.nodes, k).role, K3s.Rendered(cfg, NodeOf(cfg.nodes, k)))
    ensures ServiceUp(cfg, b, k, m)
  {
    hide K3s.Rendered, K3s.JoinSetting, K3s.NetworkSetting, K3s.ServerSetting, K3s.ArgEntries, K3s.FirstServerOf;
    var node := NodeOf(cfg.nodes, k);
    forall e ensures e in K3s.Rendered(cfg, node) <==>
                       || K3s.JoinSetting(cfg, NodeOf(cfg.nodes, b), node, e) || K3s.NetworkSetting(cfg, node, e) || K3s.ServerSetting(cfg, node, e)
                       || e in K3s.ArgEntries(K3s.ExtraArgs(cfg, node))
    {
      K3s.RenderedIff(cfg, b, k, e);
    }
  }

  // ------------------------------------------------------------------ the theorem

  /** Node `k`'s machine does what the configuration asks for, given the bootstrap server `b`. */
  ghost predicate Configured(cfg: ClusterConfig, b: string, k: string, m: Machine) {
    && (NodeOf(cfg.nodes, k).hostname != "" ==> m.hostname == NodeOf(cfg.nodes, k).hostname)
    && AllResolve(cfg, m.hosts)
    && (cfg.wireGuard.enabled ==> TunnelUp(cfg, k, m))
    && (cfg.firewall.enabled ==> FirewallRuns.Admits(m.firewall.ufw, cfg, NodeOf(cfg.nodes, k)))
    && ServiceUp(cfg, b, k, m)
  }

  lemma TargetConfigured(cfg: ClusterConfig, site: Site, w: World, b: string, k: string)
    requires Fits(cfg, site) && AtTarget(cfg, site, w) && K3s.KeyedNodes(cfg) && Worded(cfg) && k in cfg.nodeNames
    requires K3s.FirstServerOf(cfg.nodes, cfg.nodeNames) == Some(b)
    ensures Configured(cfg, b, k, M(cfg, site, w, k))
  {
    hide AllResolve, TunnelUp, ServiceUp, FirewallRuns.Admits, FirewallRuns.Rules, K3s.Rendered, K3s.Settled, K3s.FirstServerOf, WireGuard.InPlace,
      WireGuard.NodeConf, HostsFile.Edit, HostsFile.Orderly, HostsFile.HostsBlock, Worded, M, AddrOf, InterfaceAt;
    var node, m := NodeOf(cfg.nodes, k), M(cfg, site, w, k);
    MetAt(Prepare, cfg, site, w, k);
    HostsAtTarget(cfg, m.hosts);
    if cfg.wireGuard.enabled { TunnelAtTarget(cfg, k, m); }
    if cfg.firewall.enabled {
      MetAt(Protect, cfg, site, w, k);
      FirewallRuns.GoalAdmits(cfg, node);
    }
    MetAt(Install, cfg, site, w, k);
    ServiceAtTarget(cfg, b, k, m);
  }

  lemma MetAt(p: Phase, cfg: ClusterConfig, site: Site, w: World, k: string)
    requires AtTarget(cfg, site, w) && Runs(p, cfg) && k in cfg.nodeNames
    ensures Met(p, cfg, NodeOf(cfg.nodes, k), M(cfg, site, w, k))
  {
    hide Met, M;
    assert AllMet(p, cfg, site, cfg.nodeNames, w);
  }

  /** Success means that every machine does what was asked for, from trusted machines and outside the K3s window. */
  lemma SuccessConfigures(w: World, cfg: ClusterConfig, site: Site, net: Net, b: string, k: string)
    requires Fits(cfg, site) && Trusted(cfg, site, w) && Run(w, cfg, site, net).ok && !RunInWindow(w, cfg, site, net)
    requires K3s.KeyedNodes(cfg) && Worded(cfg) && k in cfg.nodeNames && K3s.FirstServerOf(cfg.nodes, cfg.nodeNames) == Some(b)
    ensures Configured(cfg, b, k, M(cfg, site, Run(w, cfg, site, net).w, k))
  {
    hide Fits, Trusted, Run, RunInWindow, AtTarget, Worded, Configured, K3s.FirstServerOf;
    SuccessConvergesIff(w, cfg, site, net);
    TargetConfigured(cfg, site, Run(w, cfg, site, net).w, b, k);
  }

  // ------------------------------------------------------------------- the state

  /** What the state shows of node `k` is what its machine has. */
  ghost predicate ShowsNode(s: NodeModel, cfg: ClusterConfig, k: string, m: Machine, derive: Derive) {
    var node, w := NodeOf(cfg.nodes, k), InterfaceAt(m.wg, cfg.wireGuard.iface);
    && s.publicIP == Known(node.publicIP) && s.role == Known(node.role) && s.name == Known(node.name) && s.status == Known("ready")
    && (cfg.wireGuard.enabled ==> w.live.Some? && s.privateIP == Known(Dotted(w.live.value.addr))
                                  && s.wireGuardPublicKey.Known? && derive(w.live.value.privateKey) == Some(s.wireGuardPublicKey.value))
  }

  /** The server URL of the state is the one that all nodes but the first server were told to join through. */
  ghost predicate ShowsURL(url: Attr<string>, cfg: ClusterConfig, b: string, k: string, m: Machine) {
    var service := if NodeOf(cfg.nodes, k).role == "agent" then m.k3s.agent else m.k3s.server;
    url.Known? && service.Running? && (k != b ==> K3s.Scalar("server", url.value) in service.config)
  }

  lemma DottedThere(a: Addr)
    ensures Dotted(a) != ""
  {
    DottedChars(a);
  }

  lemma URLOf(cfg: ClusterConfig, b: string)
    requires K3s.FirstServerOf(cfg.nodes, cfg.nodeNames) == Some(b)
    ensures cfg.wireGuard.enabled ==> K3s.ServerURL(cfg) == "https://" + NodeOf(cfg.nodes, b).privateIP + ":6443"
    ensures !cfg.wireGuard.enabled ==> K3s.ServerURL(cfg) == "https://" + NodeOf(cfg.nodes, b).publicIP + ":6443"
  {
    hide K3s.FirstServerOf;
  }

  /**
   The state that a successful apply writes is true of the machines: names, roles, addresses, keys and
   statuses of all nodes, and the URL they join through.
   */
  lemma StateIsTrue(w: World, cfg: ClusterConfig, site: Site, net: Net, plan: ClusterModel, out: Outputs, derive: Derive, b: string, i: nat)
    requires Fits(cfg, site) && Trusted(cfg, site, w) && Run(w, cfg, site, net).ok && !RunInWindow(w, cfg, site, net)
    requires Mesh.MeshReady(cfg, derive) && Worded(cfg) && K3s.FirstServerOf(cfg.nodes, cfg.nodeNames) == Some(b)
    requires cfg.wireGuard.enabled ==> forall k :: k in cfg.nodeNames ==> NodeOf(cfg.nodes, k).wireGuardPublicKey != ""
    requires out.statuses == Run(w, cfg, site, net).w.statuses && out.serverURL == K3s.ServerURL(cfg) && i < |cfg.nodeNames|
    ensures var state, k := ToState(cfg, plan, out), cfg.nodeNames[i];
            var m := M(cfg, site, Run(w, cfg, site, net).w, k);
            && state.id == Known(cfg.name) && state.kubeconfig == Known(out.kubeconfig)
            && |state.nodes| == |cfg.nodeNames| && ShowsNode(state.nodes[i], cfg, k, m, derive) && ShowsURL(state.serverURL, cfg, b, k, m)
  {
    hide Fits, Trusted, Run, RunInWindow, AtTarget, Worded, AllResolve, FirewallRuns.Admits, TunnelUp, ServiceUp, ShowsNode, ShowsURL, K3s.FirstServerOf, M,
      PlanNodes, NodeStateOf, K3s.ServerURL, Mesh.MeshReady;
    var k := cfg.nodeNames[i];
    var m := M(cfg, site, Run(w, cfg, site, net).w, k);
    ReadyNames(cfg, derive);
    SuccessConfigures(w, cfg, site, net, b, k);
    RunKeepsBarriers(w, cfg, site, net);
    var input := ModelOf(PlanNodes(plan), k);
    NodeShown(cfg, k, m, input, derive);
    URLShown(cfg, b, k, m);
    assert ToState(cfg, plan, out).nodes[i] == NodeStateOf(NodeOf(cfg.nodes, k), input, Lookup(out.statuses, k));
  }

  lemma ReadyNames(cfg: ClusterConfig, derive: Derive)
    requires Mesh.MeshReady(cfg, derive)
    ensures K3s.KeyedNodes(cfg)
    ensures forall k :: k in cfg.nodeNames ==> derive(NodeOf(cfg.nodes, k).wireGuardPrivateKey) == Some(NodeOf(cfg.nodes, k).wireGuardPublicKey)
  {
  }

  lemma NodeShown(cfg: ClusterConfig, k: string, m: Machine, input: NodeModel, derive: Derive)
    requires cfg.wireGuard.enabled ==> TunnelUp(cfg, k, m) && NodeOf(cfg.nodes, k).wireGuardPublicKey != ""
    requires derive(NodeOf(cfg.nodes, k).wireGuardPrivateKey) == Some(NodeOf(cfg.nodes, k).wireGuardPublicKey)
    ensures ShowsNode(NodeStateOf(NodeOf(cfg.nodes, k), input, "ready"), cfg, k, m, derive)
  {
    hide Section, InterfaceAt, Dotted;
    if cfg.wireGuard.enabled { DottedThere(InterfaceAt(m.wg, cfg.wireGuard.iface).live.value.addr); }
  }

  lemma URLShown(cfg: ClusterConfig, b: string, k: string, m: Machine)
    requires K3s.KeyedNodes(cfg) && K3s.FirstServerOf(cfg.nodes, cfg.nodeNames) == Some(b) && k in cfg.nodeNames && ServiceUp(cfg, b, k, m)
    ensures ShowsURL(Known(K3s.ServerURL(cfg)), cfg, b, k, m)
  {
    hide K3s.FirstServerOf, K3s.NetworkSetting, K3s.ServerSetting, K3s.ArgEntries, K3s.ServerURL;
    URLOf(cfg, b);
    if k != b {
      KeysApartNodes(cfg, b, k);
      assert K3s.JoinSetting(cfg, NodeOf(cfg.nodes, b), NodeOf(cfg.nodes, k), K3s.Scalar("server", K3s.ServerURL(cfg)));
    }
  }

  lemma KeysApartNodes(cfg: ClusterConfig, b: string, k: string)
    requires K3s.KeyedNodes(cfg) && K3s.FirstServerOf(cfg.nodes, cfg.nodeNames) == Some(b) && k in cfg.nodeNames && k != b
    ensures NodeOf(cfg.nodes, k) != NodeOf(cfg.nodes, b)
  {
    assert NodeOf(cfg.nodes, k).key == k && NodeOf(cfg.nodes, b).key == b;
  }
}

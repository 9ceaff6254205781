/**
 The whole WireGuard mesh: the configurations rendered for all nodes and admin peers agree
 with one another, because the allocator gives out every address once and every public key is
 derived from its private key.
 */
module Mesh {
  import opened Wrappers
  import opened Text
  import opened Addresses
  import opened Ordering
  import opened Ipam
  import opened AllocatorLaws
  import opened Config
  import opened Models
  import opened Lifecycle
  import opened StateRuns
  import opened KeyRuns
  import opened Validators
  import opened WireGuard
  import Firewall
  import FirewallRuns
  import K3s

  function Node(cfg: ClusterConfig, k: string): NodeConfig { NodeOf(cfg.nodes, k) }

  function Admin(cfg: ClusterConfig, p: string): AdminPeerConfig { PeerOf(cfg.adminPeers, p) }

  // -------------------------------------------------- what the expansion provides

  /** Addresses are used once, names are keys, and public keys belong to private keys. */
  ghost predicate MeshReady(cfg: ClusterConfig, derive: Derive) {
    && K3s.KeyedNodes(cfg) && Distinct(cfg.adminPeerNames)
    && (cfg.adminPeer.enabled ==> cfg.adminPeerNames == [])
    && (forall k, l :: k in cfg.nodeNames && l in cfg.nodeNames && k != l ==> Node(cfg, k).privateIP != Node(cfg, l).privateIP)
    && (forall p, q :: p in cfg.adminPeerNames && q in cfg.adminPeerNames && p != q ==> Admin(cfg, p).wgIP != Admin(cfg, q).wgIP)
    && (forall k, p :: k in cfg.nodeNames && p in cfg.adminPeerNames ==> Node(cfg, k).privateIP != Admin(cfg, p).wgIP)
    && (forall k :: k in cfg.nodeNames && cfg.adminPeer.enabled ==> Node(cfg, k).privateIP != cfg.adminPeer.wgIP)
    && (forall k :: k in cfg.nodeNames ==> derive(Node(cfg, k).wireGuardPrivateKey) == Some(Node(cfg, k).wireGuardPublicKey))
    && (forall p :: p in cfg.adminPeerNames && Admin(cfg, p).privateKey != "" ==>
          derive(Admin(cfg, p).privateKey) == Some(Admin(cfg, p).publicKey))
    && (cfg.adminPeer.enabled ==> derive(cfg.adminPeer.privateKey) == Some(cfg.adminPeer.publicKey))
  }

  /** The addresses of a successful assignment differ between names. */
  lemma AddressesDiffer(base: ClusterConfig, lib: NetLib, ips: Assignments, admins: seq<string>)
    requires AssignFor(base, lib) == Ok(ips) && Distinct(base.nodeNames)
    requires admins == AdminNames(base.adminPeer, base.adminPeerNames) && Distinct(admins)
    ensures forall k :: k in base.nodeNames ==> k in ips.nodeIPs
    ensures forall p :: p in admins ==> p in ips.adminIPs
    ensures forall k, l :: k in base.nodeNames && l in base.nodeNames && k != l ==> ips.nodeIPs[k] != ips.nodeIPs[l]
    ensures forall p, q :: p in admins && q in admins && p != q ==> ips.adminIPs[p] != ips.adminIPs[q]
    ensures forall k, p :: k in base.nodeNames && p in admins ==> ips.nodeIPs[k] != ips.adminIPs[p]
  {
    hide Assign, AdminOffsets, Dotted, Placed;
    var cidr := lib.parseCidr(base.wireGuard.subnet);
    assert cidr.V4Cidr? by { OnlyIPv4(cidr, base.nodeNames, admins, RequestsOf(base), lib); }
    var offs := AssignedValues(cidr, base.nodeNames, admins, RequestsOf(base), lib);
    var net, n := SubnetOf(cidr).net, |base.nodeNames|;
    PlacedKeys(ips.nodeIPs, base.nodeNames, net, NodeOffsets(n));
    PlacedKeys(ips.adminIPs, admins, net, offs);
    forall k, l | k in base.nodeNames && l in base.nodeNames && k != l ensures ips.nodeIPs[k] != ips.nodeIPs[l] {
      PlacedDistinct(ips.nodeIPs, base.nodeNames, net, NodeOffsets(n), k, l);
    }
    forall p, q | p in admins && q in admins && p != q ensures ips.adminIPs[p] != ips.adminIPs[q] {
      PlacedDistinct(ips.adminIPs, admins, net, offs, p, q);
    }
    forall k, p | k in base.nodeNames && p in admins ensures ips.nodeIPs[k] != ips.adminIPs[p] {
      PlacedApart(ips.nodeIPs, base.nodeNames, NodeOffsets(n), ips.adminIPs, admins, offs, net, k, p);
    }
  }

  lemma PlacedKeys(m: map<string, string>, names: seq<string>, net: Addr, offs: seq<nat>)
    requires Placed(m, names, net, offs)
    ensures m.Keys == set k | k in names
  {
  }

  lemma OnlyIPv4(cidr: Cidr, nodes: seq<string>, admins: seq<string>, req: map<string, string>, lib: NetLib)
    requires Assign(cidr, nodes, admins, req, lib).Ok?
    ensures cidr.V4Cidr?
  {
  }

  /** Every entry of a filled configuration, spelled out. */
  lemma FilledEntries(base: ClusterConfig, s: Secrets, k: nat)
    requires |s.nodePairs| == |base.nodeNames| && |s.adminPairs| == |base.adminPeerNames|
    requires Distinct(base.nodeNames) && Distinct(base.adminPeerNames)
    ensures var cfg := Filled(base, s.ips, s.nodePairs, s.legacy, s.adminPairs);
            && (k < |base.nodeNames| ==>
                  var n := base.nodeNames[k]; Node(cfg, n) == NodeAt(Node(base, n), Lookup(s.ips.nodeIPs, n), s.nodePairs[k]))
            && (k < |base.adminPeerNames| ==>
                  var p := base.adminPeerNames[k]; Admin(cfg, p) == PeerAt(Admin(base, p), Lookup(s.ips.adminIPs, p), s.adminPairs[k]))
  {
    hide FilledNodes, FilledPeers, GeneratedKeys, ZipMap, NodeAt, PeerAt;
    if k < |base.nodeNames| { FilledNodesAt(base.nodes, base.nodeNames, s.ips.nodeIPs, s.nodePairs, k); }
    if k < |base.adminPeerNames| { FilledPeersAt(base.adminPeers, base.adminPeerNames, s.ips.adminIPs, s.adminPairs, k); }
  }

  /** A filled configuration is ready, given distinct names and the conditions of `validateConfig`. */
  lemma FilledReady(base: ClusterConfig, s: Secrets, stored: map<string, string>, storedAdmin: map<string, string>, derive: Derive, lib: NetLib)
    requires Explains(s, base, stored, storedAdmin, derive, lib)
    requires K3s.KeyedNodes(base) && Distinct(base.adminPeerNames) && (base.adminPeer.enabled ==> base.adminPeerNames == [])
    requires base.adminWGPriv != "" ==> derive(base.adminWGPriv) == Some(base.adminWGPub)
    ensures MeshReady(Filled(base, s.ips, s.nodePairs, s.legacy, s.adminPairs), derive)
  {
    hide Filled, AssignFor, GoodPairs, NodeAt, PeerAt;
    var cfg := Filled(base, s.ips, s.nodePairs, s.legacy, s.adminPairs);
    var admins := AdminNames(base.adminPeer, base.adminPeerNames);
    AddressesDiffer(base, lib, s.ips, admins);
    FilledParts(base, s);
    forall k | k in base.nodeNames
      ensures Node(cfg, k).key == k && Node(cfg, k).privateIP == s.ips.nodeIPs[k]
              && derive(Node(cfg, k).wireGuardPrivateKey) == Some(Node(cfg, k).wireGuardPublicKey)
    {
      var i :| 0 <= i < |base.nodeNames| && base.nodeNames[i] == k;
      FilledEntries(base, s, i);
      NodeAtFields(Node(base, k), Lookup(s.ips.nodeIPs, k), s.nodePairs[i]);
      PairOf(base.nodeNames, map[], stored, derive, s.nodePairs, i);
    }
    forall p | p in base.adminPeerNames
      ensures p in admins && Admin(cfg, p).wgIP == s.ips.adminIPs[p]
              && (Admin(cfg, p).privateKey != "" ==> derive(Admin(cfg, p).privateKey) == Some(Admin(cfg, p).publicKey))
    {
      var i :| 0 <= i < |base.adminPeerNames| && base.adminPeerNames[i] == p;
      FilledEntries(base, s, i);
      PeerAtFields(Admin(base, p), Lookup(s.ips.adminIPs, p), s.adminPairs[i]);
      PairOf(base.adminPeerNames, GivenKeys(base.adminPeers), storedAdmin, derive, s.adminPairs, i);
    }
    LegacyGood(s, base, stored, storedAdmin, derive, lib);
    PeerAtFields(base.adminPeer, Lookup(s.ips.adminIPs, LEGACY_ADMIN_PEER_KEY), s.legacy);
  }

  lemma NodeAtFields(n: NodeConfig, ip: string, k: KeyPair)
    ensures var r := NodeAt(n, ip, k);
            r.key == n.key && r.privateIP == ip && r.wireGuardPrivateKey == k.priv && r.wireGuardPublicKey == k.pub
  {
  }

  lemma PeerAtFields(p: AdminPeerConfig, ip: string, k: KeyPair)
    ensures var r := PeerAt(p, ip, k); r.enabled == p.enabled && r.wgIP == ip && r.privateKey == k.priv && r.publicKey == k.pub
  {
  }

  lemma FilledParts(base: ClusterConfig, s: Secrets)
    requires |s.nodePairs| == |base.nodeNames| && |s.adminPairs| == |base.adminPeerNames|
    ensures var cfg := Filled(base, s.ips, s.nodePairs, s.legacy, s.adminPairs);
            && cfg.nodeNames == base.nodeNames && cfg.adminPeerNames == base.adminPeerNames
            && cfg.adminPeer == (if base.adminPeer.enabled then PeerAt(base.adminPeer, Lookup(s.ips.adminIPs, LEGACY_ADMIN_PEER_KEY), s.legacy)
                                 else base.adminPeer)
            && cfg.wireGuard == base.wireGuard && cfg.firewall == base.firewall
  {
  }

  // --------------------------------------------------------------- the sections

  /** No address is routed to two peers. */
  predicate Disjoint(peers: seq<Peer>) { forall a, b :: 0 <= a < b < |peers| ==> peers[a].allowed != peers[b].allowed }

  lemma {:induction false} OtherNodesIff(cfg: ClusterConfig, self: Option<string>, names: seq<string>, p: Peer)
    ensures p in OtherNodes(cfg, self, names) <==> exists k :: k in names && self != Some(Node(cfg, k).key) && p == NodePeer(cfg, Node(cfg, k))
    decreases |names|
  {
    hide NodePeer;
    if names != [] {
      var n := |names| - 1;
      OtherNodesIff(cfg, self, names[..n], p);
      assert names == names[..n] + [names[n]];
      if k :| k in names && self != Some(Node(cfg, k).key) && p == NodePeer(cfg, Node(cfg, k)) {
        assert k in names[..n] || k == names[n];
        assert p in OtherNodes(cfg, self, names);
      }
      if p in OtherNodes(cfg, self, names) {
        assert p in OtherNodes(cfg, self, names[..n]) || (self != Some(Node(cfg, names[n]).key) && p == NodePeer(cfg, Node(cfg, names[n])));
        if p in OtherNodes(cfg, self, names[..n]) {
          var k :| k in names[..n] && self != Some(Node(cfg, k).key) && p == NodePeer(cfg, Node(cfg, k));
          assert k in names;
        } else {
          assert names[n] in names;
        }
      }
    }
  }

  lemma {:induction false} OtherNodesDisjoint(cfg: ClusterConfig, self: Option<string>, names: seq<string>, derive: Derive)
    requires MeshReady(cfg, derive) && Distinct(names) && forall k :: k in names ==> k in cfg.nodeNames
    ensures Disjoint(OtherNodes(cfg, self, names))
    decreases |names|
  {
    if names != [] {
      var n := |names| - 1;
      var front := OtherNodes(cfg, self, names[..n]);
      OtherNodesDisjoint(cfg, self, names[..n], derive);
      assert names[n] in names;
      forall a | 0 <= a < |front| ensures front[a].allowed != Node(cfg, names[n]).privateIP {
        OtherNodesIff(cfg, self, names[..n], front[a]);
        var k :| k in names[..n] && front[a] == NodePeer(cfg, Node(cfg, k));
        assert k in names && k != names[n];
      }
    }
  }

  lemma {:induction false} AdminSectionsIff(cfg: ClusterConfig, names: seq<string>, p: Peer)
    ensures p in AdminSections(cfg, names) <==> exists q :: q in names && p == AdminPeer(Admin(cfg, q))
    decreases |names|
  {
    hide AdminPeer;
    if names != [] {
      var n := |names| - 1;
      AdminSectionsIff(cfg, names[..n], p);
      assert names == names[..n] + [names[n]];
      if q :| q in names && p == AdminPeer(Admin(cfg, q)) {
        assert q in names[..n] || q == names[n];
        assert p in AdminSections(cfg, names);
      }
      if p in AdminSections(cfg, names) {
        if p in AdminSections(cfg, names[..n]) {
          var q :| q in names[..n] && p == AdminPeer(Admin(cfg, q));
          assert q in names;
        } else {
          assert names[n] in names && p == AdminPeer(Admin(cfg, names[n]));
        }
      }
    }
  }

  lemma {:induction false} AdminSectionsDisjoint(cfg: ClusterConfig, names: seq<string>, derive: Derive)
    requires MeshReady(cfg, derive) && Distinct(names) && forall k :: k in names ==> k in cfg.adminPeerNames
    ensures Disjoint(AdminSections(cfg, names))
    decreases |names|
  {
    if names != [] {
      var n := |names| - 1;
      var front := AdminSections(cfg, names[..n]);
      AdminSectionsDisjoint(cfg, names[..n], derive);
      assert names[n] in names;
      forall a | 0 <= a < |front| ensures front[a].allowed != Admin(cfg, names[n]).wgIP {
        AdminSectionsIff(cfg, names[..n], front[a]);
        var q :| q in names[..n] && front[a] == AdminPeer(Admin(cfg, q));
        assert q in names && q != names[n];
      }
    }
  }

  lemma DisjointAppend(a: seq<Peer>, b: seq<Peer>)
    requires Disjoint(a) && Disjoint(b)
    requires forall p, q :: p in a && q in b ==> p.allowed != q.allowed
    ensures Disjoint(a + b)
  {
    var s := a + b;
    forall i, j | 0 <= i < j < |s| ensures s[i].allowed != s[j].allowed {
      if i < |a| <= j { assert a[i] in a && b[j - |a|] in b; }
    }
  }

  /** The admin part of a node's conf. */
  function AdminPart(cfg: ClusterConfig): seq<Peer> { LegacySection(cfg) + AdminSections(cfg, cfg.adminPeerNames) }

  lemma AdminPartAddress(cfg: ClusterConfig, derive: Derive, q: Peer, k: string)
    requires MeshReady(cfg, derive) && q in AdminPart(cfg) && k in cfg.nodeNames
    ensures q.allowed != Node(cfg, k).privateIP
  {
    if q in AdminSections(cfg, cfg.adminPeerNames) {
      AdminSectionsIff(cfg, cfg.adminPeerNames, q);
    }
  }

  // ---------------------------------------------------------------- the theorem

  /** What node `k`'s configuration says. */
  ghost predicate NodeAgrees(cfg: ClusterConfig, k: string, derive: Derive) {
    var me, conf := Node(cfg, k), NodeConf(cfg, Node(cfg, k));
    // every other node is listed, once, and the node itself is not
    && (forall l :: l in cfg.nodeNames && l != k ==> NodePeer(cfg, Node(cfg, l)) in conf.peers)
    && Disjoint(conf.peers)
    && (forall p :: p in conf.peers ==> p.allowed != me.privateIP)
    // what the others list for this node is what it runs
    && NodePeer(cfg, me).allowed == conf.address
    && derive(conf.privateKey) == Some(NodePeer(cfg, me).publicKey)
    && NodePeer(cfg, me).endpoint == Endpoint(me.publicIP, cfg.wireGuard.port) && conf.listenPort == Some(cfg.wireGuard.port)
    && conf.mtu == cfg.wireGuard.mtu
    // every admin peer is listed
    && (cfg.adminPeer.enabled ==> AdminPeer(cfg.adminPeer) in conf.peers)
    && (forall p :: p in cfg.adminPeerNames ==> AdminPeer(Admin(cfg, p)) in conf.peers)
  }

  /** What a generated admin configuration says, against the section that all nodes hold for the peer. */
  ghost predicate AdminAgrees(cfg: ClusterConfig, peer: AdminPeerConfig, derive: Derive) {
    var conf := AdminConf(cfg, peer);
    && conf.address == AdminPeer(peer).allowed && conf.address == peer.wgIP
    && conf.mtu == cfg.wireGuard.mtu && conf.listenPort == None
    && derive(conf.privateKey) == Some(AdminPeer(peer).publicKey)
    && (forall k :: k in cfg.nodeNames ==> NodePeer(cfg, Node(cfg, k)) in conf.peers)
    && (forall p :: p in conf.peers ==> exists k :: k in cfg.nodeNames && p == NodePeer(cfg, Node(cfg, k)))
    && Disjoint(conf.peers)
  }

  lemma NodeConfAgrees(cfg: ClusterConfig, k: string, derive: Derive)
    requires MeshReady(cfg, derive) && k in cfg.nodeNames
    ensures NodeAgrees(cfg, k, derive)
  {
    hide OtherNodes, AdminSections, NodePeer;
    var others, admins := OtherNodes(cfg, Some(Node(cfg, k).key), cfg.nodeNames), AdminPart(cfg);
    assert NodeConf(cfg, Node(cfg, k)).peers == others + admins;
    OtherNodesDisjoint(cfg, Some(Node(cfg, k).key), cfg.nodeNames, derive);
    AdminPartDisjoint(cfg, derive);
    forall p | p in others ensures exists l :: l in cfg.nodeNames && l != k && p == NodePeer(cfg, Node(cfg, l)) {
      OtherNodesIff(cfg, Some(Node(cfg, k).key), cfg.nodeNames, p);
    }
    NodePeerFields(cfg);
    forall p, q | p in others && q in admins ensures p.allowed != q.allowed {
      var l :| l in cfg.nodeNames && p == NodePeer(cfg, Node(cfg, l));
      AdminPartAddress(cfg, derive, q, l);
    }
    DisjointAppend(others, admins);
    forall q | q in admins ensures q.allowed != Node(cfg, k).privateIP { AdminPartAddress(cfg, derive, q, k); }
    forall l | l in cfg.nodeNames && l != k ensures NodePeer(cfg, Node(cfg, l)) in others {
      OtherNodesIff(cfg, Some(Node(cfg, k).key), cfg.nodeNames, NodePeer(cfg, Node(cfg, l)));
    }
    forall p | p in cfg.adminPeerNames ensures AdminPeer(Admin(cfg, p)) in admins {
      AdminSectionsIff(cfg, cfg.adminPeerNames, AdminPeer(Admin(cfg, p)));
    }
  }

  lemma NodePeerFields(cfg: ClusterConfig)
    ensures forall n :: NodePeer(cfg, n).allowed == n.privateIP && NodePeer(cfg, n).publicKey == n.wireGuardPublicKey
                        && NodePeer(cfg, n).endpoint == Endpoint(n.publicIP, cfg.wireGuard.port)
  {
  }

  lemma AdminPartDisjoint(cfg: ClusterConfig, derive: Derive)
    requires MeshReady(cfg, derive)
    ensures Disjoint(AdminPart(cfg))
  {
    AdminSectionsDisjoint(cfg, cfg.adminPeerNames, derive);
    if cfg.adminPeer.enabled { assert AdminPart(cfg) == LegacySection(cfg); }
  }

  lemma AdminConfAgrees(cfg: ClusterConfig, peer: AdminPeerConfig, derive: Derive)
    requires MeshReady(cfg, derive) && derive(peer.privateKey) == Some(peer.publicKey)
    ensures AdminAgrees(cfg, peer, derive)
  {
    hide OtherNodes, NodePeer;
    OtherNodesDisjoint(cfg, None, cfg.nodeNames, derive);
    forall p ensures p in OtherNodes(cfg, None, cfg.nodeNames) <==> exists k :: k in cfg.nodeNames && p == NodePeer(cfg, Node(cfg, k)) {
      OtherNodesIff(cfg, None, cfg.nodeNames, p);
    }
  }

  /** The firewall of each node admits every other node's public IP on the WireGuard port. */
  ghost predicate FirewallAdmits(cfg: ClusterConfig) {
    forall k, l :: k in cfg.nodeNames && l in cfg.nodeNames && k != l ==>
      Firewall.FromTo(Node(cfg, l).publicIP, cfg.wireGuard.port, Firewall.Udp) in FirewallRuns.Rules(cfg, Node(cfg, k))
  }

  lemma {:induction false} PeerRuleIn(cfg: ClusterConfig, self: string, names: seq<string>, l: string)
    requires l in names && Node(cfg, l).key != self
    ensures Firewall.FromTo(Node(cfg, l).publicIP, cfg.wireGuard.port, Firewall.Udp) in FirewallRuns.PeerRules(cfg, self, names)
    decreases |names|
  {
    var n := |names| - 1;
    assert names == names[..n] + [names[n]];
    if l in names[..n] { PeerRuleIn(cfg, self, names[..n], l); }
  }

  lemma RulesAdmitPeers(cfg: ClusterConfig)
    requires K3s.KeyedNodes(cfg) && cfg.wireGuard.enabled
    ensures FirewallAdmits(cfg)
  {
    hide FirewallRuns.PeerRules, FirewallRuns.ServiceRules, FirewallRuns.SourceRules;
    forall k, l | k in cfg.nodeNames && l in cfg.nodeNames && k != l
      ensures Firewall.FromTo(Node(cfg, l).publicIP, cfg.wireGuard.port, Firewall.Udp) in FirewallRuns.Rules(cfg, Node(cfg, k))
    {
      PeerRuleIn(cfg, Node(cfg, k).key, cfg.nodeNames, l);
    }
  }

  /**
   The node joins the cluster inside the tunnel: the address in its join URL is one that its own
   WireGuard conf routes to the bootstrap server's key and public IP, and the address under which
   it makes itself known is that of its own interface.
   */
  ghost predicate JoinsInTunnel(cfg: ClusterConfig, b: string, k: string) {
    var conf, es := NodeConf(cfg, Node(cfg, k)), K3s.Rendered(cfg, Node(cfg, k));
    && (k != b ==> exists p :: p in conf.peers && p.publicKey == Node(cfg, b).wireGuardPublicKey
                               && p.endpoint == Endpoint(Node(cfg, b).publicIP, cfg.wireGuard.port)
                               && es[0] == K3s.Scalar("server", "https://" + p.allowed + ":6443"))
    && K3s.Scalar("node-ip", conf.address) in es && K3s.Scalar("flannel-iface", cfg.wireGuard.iface) in es
  }

  lemma NodeJoinsInTunnel(cfg: ClusterConfig, b: string, k: string, derive: Derive)
    requires MeshReady(cfg, derive) && cfg.wireGuard.enabled && k in cfg.nodeNames
    requires K3s.FirstServerOf(cfg.nodes, cfg.nodeNames) == Some(b)
    ensures JoinsInTunnel(cfg, b, k)
  {
    hide K3s.Rendered, NodeConf, NodePeer, Disjoint, K3s.OnlyInit, K3s.NoOtherInit, K3s.OneWayIn, K3s.PlainArgs, K3s.ServersFollow, K3s.JoinSetting,
      K3s.ServerSetting, K3s.ArgEntries;
    var conf, peer := NodeConf(cfg, Node(cfg, k)), NodePeer(cfg, Node(cfg, b));
    NodeConfAgrees(cfg, k, derive);
    NodePeerFields(cfg);
    K3s.RenderedIff(cfg, b, k, K3s.Scalar("node-ip", conf.address));
    K3s.RenderedIff(cfg, b, k, K3s.Scalar("flannel-iface", cfg.wireGuard.iface));
    if k != b {
      K3s.FirstServerJoins(cfg, b, k);
      assert peer in conf.peers;
    }
  }

  /**
   For every configuration that an accepted plan expands to, from any coherent prior state: each
   node lists every other node exactly once and never itself, no address is routed twice, all
   public keys belong to the private keys in use, every generated admin configuration mirrors the
   section the nodes hold for it, the firewalls admit the peers in both directions, and the nodes join
   the cluster inside the tunnel.
   */
  lemma MeshAgreement(st: Option<ClusterModel>, a: Action, derive: Derive, lib: NetLib)
    requires a.Apply? && Fair(a, derive) && (st.Some? ==> StateRuns.Coherent(st.value, derive))
    requires Expanded(st, a, derive, lib).Ok? && ConfigOk(Expanded(st, a, derive, lib).value)
    requires ExpandWireGuard(a.plan.wireGuard).enabled && a.plan.nodes != []
    ensures var cfg := Expanded(st, a, derive, lib).value;
            && (forall k :: k in cfg.nodeNames ==> NodeAgrees(cfg, k, derive))
            && (cfg.adminPeer.enabled ==> AdminAgrees(cfg, cfg.adminPeer, derive))
            && (forall p :: p in cfg.adminPeerNames && Admin(cfg, p).privateKey != "" ==> AdminAgrees(cfg, Admin(cfg, p), derive))
            && FirewallAdmits(cfg)
            && forall b, k :: K3s.FirstServerOf(cfg.nodes, cfg.nodeNames) == Some(b) && k in cfg.nodeNames ==> JoinsInTunnel(cfg, b, k)
  {
    hide NodeAgrees, AdminAgrees, FirewallAdmits, JoinsInTunnel, K3s.FirstServerOf, Expand, ConfigOk, StateRuns.Coherent;
    var cfg := Expanded(st, a, derive, lib).value;
    ExpandedReady(st, a, derive, lib);
    forall k | k in cfg.nodeNames ensures NodeAgrees(cfg, k, derive) { NodeConfAgrees(cfg, k, derive); }
    if cfg.adminPeer.enabled { AdminConfAgrees(cfg, cfg.adminPeer, derive); }
    forall p | p in cfg.adminPeerNames && Admin(cfg, p).privateKey != "" ensures AdminAgrees(cfg, Admin(cfg, p), derive) {
      AdminConfAgrees(cfg, Admin(cfg, p), derive);
    }
    RulesAdmitPeers(cfg);
    forall b, k | K3s.FirstServerOf(cfg.nodes, cfg.nodeNames) == Some(b) && k in cfg.nodeNames ensures JoinsInTunnel(cfg, b, k) {
      NodeJoinsInTunnel(cfg, b, k, derive);
    }
  }

  // ------------------------------------------------------------ the public keys

  /** No public key names two peers: WireGuard takes sections with equal keys for one peer. */
  predicate KeysApart(peers: seq<Peer>) { forall a, b :: 0 <= a < b < |peers| ==> peers[a].publicKey != peers[b].publicKey }

  /** The sections that node `k` knows: the one the others hold for it, and those of its own conf. */
  function SectionsAt(cfg: ClusterConfig, k: string): seq<Peer> { [NodePeer(cfg, Node(cfg, k))] + NodeConf(cfg, Node(cfg, k)).peers }

  predicate NodeKeysApart(cfg: ClusterConfig) {
    forall k, l :: k in cfg.nodeNames && l in cfg.nodeNames && k != l ==> Node(cfg, k).wireGuardPublicKey != Node(cfg, l).wireGuardPublicKey
  }

  /** No admin peer brings this key. */
  predicate NoAdminKey(cfg: ClusterConfig, key: string) {
    && (cfg.adminPeer.enabled ==> cfg.adminPeer.publicKey != key)
    && forall p :: p in cfg.adminPeerNames ==> Admin(cfg, p).publicKey != key
  }

  /** Every member of the mesh has a public key of its own. */
  predicate OneKeyEach(cfg: ClusterConfig) {
    && NodeKeysApart(cfg) && AdminsDiffer(cfg, cfg.adminPeerNames)
    && forall k :: k in cfg.nodeNames ==> NoAdminKey(cfg, Node(cfg, k).wireGuardPublicKey)
  }

  lemma ApartSplit(a: seq<Peer>, b: seq<Peer>)
    ensures KeysApart(a + b) <==> KeysApart(a) && KeysApart(b) && forall p, q :: p in a && q in b ==> p.publicKey != q.publicKey
  {
    var s := a + b;
    if KeysApart(s) {
      assert forall i :: 0 <= i < |a| ==> s[i] == a[i];
      assert forall j :: 0 <= j < |b| ==> s[|a| + j] == b[j];
    } else {
      var i, j :| 0 <= i < j < |s| && s[i].publicKey == s[j].publicKey;
      if i < |a| <= j { assert a[i] in a && b[j - |a|] in b; }
    }
  }

  /** A section for the node with this name is among the others. */
  predicate Listed(cfg: ClusterConfig, self: Option<string>, names: seq<string>, k: string) { k in names && self != Some(Node(cfg, k).key) }

  /** The listed names differ in their keys. */
  ghost predicate KeysDiffer(cfg: ClusterConfig, self: Option<string>, names: seq<string>) {
    forall k, l :: Listed(cfg, self, names, k) && Listed(cfg, self, names, l) && k != l ==>
      Node(cfg, k).wireGuardPublicKey != Node(cfg, l).wireGuardPublicKey
  }

  lemma ListedKey(cfg: ClusterConfig, self: Option<string>, names: seq<string>, key: string)
    ensures (forall p :: p in OtherNodes(cfg, self, names) ==> p.publicKey != key) <==>
            forall k :: Listed(cfg, self, names, k) ==> Node(cfg, k).wireGuardPublicKey != key
  {
    hide OtherNodes;
    forall k | Listed(cfg, self, names, k) ensures NodePeer(cfg, Node(cfg, k)) in OtherNodes(cfg, self, names) {
      OtherNodesIff(cfg, self, names, NodePeer(cfg, Node(cfg, k)));
    }
    forall p | p in OtherNodes(cfg, self, names) ensures exists k :: Listed(cfg, self, names, k) && p == NodePeer(cfg, Node(cfg, k)) {
      OtherNodesIff(cfg, self, names, p);
      var k :| k in names && self != Some(Node(cfg, k).key) && p == NodePeer(cfg, Node(cfg, k));
      assert Listed(cfg, self, names, k);
    }
  }

  lemma KeysDifferSnoc(cfg: ClusterConfig, self: Option<string>, front: seq<string>, x: string)
    requires x !in front
    ensures KeysDiffer(cfg, self, front + [x]) <==>
            KeysDiffer(cfg, self, front) &&
            (self != Some(Node(cfg, x).key) ==> forall k :: Listed(cfg, self, front, k) ==> Node(cfg, k).wireGuardPublicKey != Node(cfg, x).wireGuardPublicKey)
  {
    hide Node;
    assert forall k :: Listed(cfg, self, front + [x], k) <==> Listed(cfg, self, front, k) || (k == x && self != Some(Node(cfg, x).key));
  }

  lemma {:induction false} OtherKeysIff(cfg: ClusterConfig, self: Option<string>, names: seq<string>)
    requires Distinct(names)
    ensures KeysApart(OtherNodes(cfg, self, names)) <==> KeysDiffer(cfg, self, names)
    decreases |names|
  {
    if names != [] {
      var n := |names| - 1;
      var front, last := OtherNodes(cfg, self, names[..n]), Node(cfg, names[n]);
      OtherKeysIff(cfg, self, names[..n]);
      assert names == names[..n] + [names[n]];
      KeysDifferSnoc(cfg, self, names[..n], names[n]);
      ListedKey(cfg, self, names[..n], last.wireGuardPublicKey);
      ApartSplit(front, [NodePeer(cfg, last)]);
      assert KeysApart([NodePeer(cfg, last)]);
      hide KeysApart, KeysDiffer, Listed;
    }
  }

  predicate AdminsDiffer(cfg: ClusterConfig, names: seq<string>) {
    forall p, q :: p in names && q in names && p != q ==> Admin(cfg, p).publicKey != Admin(cfg, q).publicKey
  }

  lemma AdminKey(cfg: ClusterConfig, names: seq<string>, key: string)
    ensures (forall x :: x in AdminSections(cfg, names) ==> x.publicKey != key) <==> forall q :: q in names ==> Admin(cfg, q).publicKey != key
  {
    hide AdminSections;
    forall q | q in names ensures AdminPeer(Admin(cfg, q)) in AdminSections(cfg, names) {
      AdminSectionsIff(cfg, names, AdminPeer(Admin(cfg, q)));
    }
    forall x | x in AdminSections(cfg, names) ensures exists q :: q in names && x == AdminPeer(Admin(cfg, q)) {
      AdminSectionsIff(cfg, names, x);
    }
  }

  lemma AdminsDifferSnoc(cfg: ClusterConfig, front: seq<string>, x: string)
    requires x !in front
    ensures AdminsDiffer(cfg, front + [x]) <==>
            AdminsDiffer(cfg, front) && forall q :: q in front ==> Admin(cfg, q).publicKey != Admin(cfg, x).publicKey
  {
    hide Admin;
    assert forall q :: q in front + [x] <==> q in front || q == x;
  }

  lemma {:induction false} AdminKeysIff(cfg: ClusterConfig, names: seq<string>)
    requires Distinct(names)
    ensures KeysApart(AdminSections(cfg, names)) <==> AdminsDiffer(cfg, names)
    decreases |names|
  {
    if names != [] {
      var n := |names| - 1;
      var front, last := AdminSections(cfg, names[..n]), Admin(cfg, names[n]);
      AdminKeysIff(cfg, names[..n]);
      assert names == names[..n] + [names[n]];
      AdminsDifferSnoc(cfg, names[..n], names[n]);
      AdminKey(cfg, names[..n], last.publicKey);
      ApartSplit(front, [AdminPeer(last)]);
      assert KeysApart([AdminPeer(last)]);
      hide KeysApart, AdminsDiffer;
    }
  }

  lemma AdminPartKeys(cfg: ClusterConfig, key: string)
    ensures (forall q :: q in AdminPart(cfg) ==> q.publicKey != key) <==> NoAdminKey(cfg, key)
  {
    hide AdminSections;
    AdminKey(cfg, cfg.adminPeerNames, key);
    assert forall q :: q in AdminPart(cfg) <==> q in LegacySection(cfg) || q in AdminSections(cfg, cfg.adminPeerNames);
    if cfg.adminPeer.enabled { assert LegacySection(cfg)[0] in LegacySection(cfg); }
  }

  lemma AdminPartApartIff(cfg: ClusterConfig)
    requires Distinct(cfg.adminPeerNames) && (cfg.adminPeer.enabled ==> cfg.adminPeerNames == [])
    ensures KeysApart(AdminPart(cfg)) <==> AdminsDiffer(cfg, cfg.adminPeerNames)
  {
    AdminKeysIff(cfg, cfg.adminPeerNames);
    if cfg.adminPeer.enabled {
      assert AdminPart(cfg) == LegacySection(cfg);
    } else {
      assert AdminPart(cfg) == AdminSections(cfg, cfg.adminPeerNames);
    }
  }

  /** The sections of all nodes, as node `k` knows them. */
  function NodeSections(cfg: ClusterConfig, k: string): seq<Peer> {
    [NodePeer(cfg, Node(cfg, k))] + OtherNodes(cfg, Some(Node(cfg, k).key), cfg.nodeNames)
  }

  lemma NodeSectionKey(cfg: ClusterConfig, k: string, key: string)
    requires K3s.KeyedNodes(cfg) && k in cfg.nodeNames
    ensures (forall p :: p in NodeSections(cfg, k) ==> p.publicKey != key) <==> forall l :: l in cfg.nodeNames ==> Node(cfg, l).wireGuardPublicKey != key
  {
    hide OtherNodes;
    var me, self := NodePeer(cfg, Node(cfg, k)), Some(Node(cfg, k).key);
    var others := OtherNodes(cfg, self, cfg.nodeNames);
    ListedKey(cfg, self, cfg.nodeNames, key);
    assert forall l :: Listed(cfg, self, cfg.nodeNames, l) <==> l in cfg.nodeNames && l != k;
    assert forall p :: p in [me] + others <==> p == me || p in others;
  }

  lemma NodeSectionsApart(cfg: ClusterConfig, k: string)
    requires K3s.KeyedNodes(cfg) && k in cfg.nodeNames
    ensures KeysApart(NodeSections(cfg, k)) <==> NodeKeysApart(cfg)
  {
    hide OtherNodes;
    var me, self := NodePeer(cfg, Node(cfg, k)), Some(Node(cfg, k).key);
    var others := OtherNodes(cfg, self, cfg.nodeNames);
    OtherKeysIff(cfg, self, cfg.nodeNames);
    ListedKey(cfg, self, cfg.nodeNames, me.publicKey);
    ApartSplit([me], others);
    assert KeysApart([me]);
    hide KeysApart;
    assert forall l :: Listed(cfg, self, cfg.nodeNames, l) <==> l in cfg.nodeNames && l != k;
  }

  lemma SectionsSplit(cfg: ClusterConfig, k: string)
    ensures SectionsAt(cfg, k) == NodeSections(cfg, k) + AdminPart(cfg)
  {
    hide OtherNodes, AdminSections;
  }

  /** At any node, the keys in use differ exactly when every member of the mesh has its own. */
  lemma KeysApartIff(cfg: ClusterConfig, k: string)
    requires K3s.KeyedNodes(cfg) && Distinct(cfg.adminPeerNames) && (cfg.adminPeer.enabled ==> cfg.adminPeerNames == [])
    requires k in cfg.nodeNames
    ensures KeysApart(SectionsAt(cfg, k)) <==> OneKeyEach(cfg)
  {
    hide KeysApart, SectionsAt, NodeSections, AdminPart, NodeKeysApart, AdminsDiffer, NoAdminKey;
    assert SectionsAt(cfg, k) == NodeSections(cfg, k) + AdminPart(cfg) by { SectionsSplit(cfg, k); }
    NodeSectionsApart(cfg, k);
    AdminPartApartIff(cfg);
    ApartSplit(NodeSections(cfg, k), AdminPart(cfg));
    forall q: Peer ensures (forall p :: p in NodeSections(cfg, k) ==> p.publicKey != q.publicKey) <==>
                     forall l :: l in cfg.nodeNames ==> Node(cfg, l).wireGuardPublicKey != q.publicKey
    {
      NodeSectionKey(cfg, k, q.publicKey);
    }
    forall l | l in cfg.nodeNames
      ensures (forall q :: q in AdminPart(cfg) ==> q.publicKey != Node(cfg, l).wireGuardPublicKey) <==> NoAdminKey(cfg, Node(cfg, l).wireGuardPublicKey)
    {
      AdminPartKeys(cfg, Node(cfg, l).wireGuardPublicKey);
    }
  }

  /**
   Every node of an expanded plan has the address of its rank among the identities, and a fixed address
   request of an admin peer is met.
   */
  lemma ExpandedAddresses(st: Option<ClusterModel>, a: Action, derive: Derive, lib: NetLib)
    requires a.Apply? && Fair(a, derive) && Expanded(st, a, derive, lib).Ok? && ExpandWireGuard(a.plan.wireGuard).enabled
    requires ConfigOk(Expanded(st, a, derive, lib).value)
    ensures var cfg, cidr, ids := Expanded(st, a, derive, lib).value, lib.parseCidr(ExpandWireGuard(a.plan.wireGuard).subnet), Identities(a.plan.nodes);
            && cidr.V4Cidr?
            && (forall k :: k in ids ==> AddressAt(Node(cfg, k).privateIP, SubnetOf(cidr).net, Rank(k, ids) + 1))
            && (forall p :: p in cfg.adminPeerNames && RequestedIP(a.plan, p) != "" ==> SameAddress(Admin(cfg, p).wgIP, RequestedIP(a.plan, p), lib))
            && (cfg.adminPeer.enabled && ExpandAdminPeer(a.plan.adminPeer).wgIP != "" ==> SameAddress(cfg.adminPeer.wgIP, ExpandAdminPeer(a.plan.adminPeer).wgIP, lib))
  {
    hide AdminPeerMap, SortStrings, AssignFor, ZipMap, GeneratedKeys, Identities, Honest, GoodPairs, FilledNodes, FilledPeers, Expand, Drawn, ExpandWireGuard,
      SameAddress, AddressAt, Explains, SortedKeys, ExpandAdminPeer;
    var prior := PriorOf(st);
    var stored, storedAdmin := OrDefault(prior.wireGuardPrivateKeys, map[]), OrDefault(prior.adminPrivateKeys, map[]);
    var base, s := ExpandShape(a.plan, prior, a.provider, a.supply, derive, lib);
    ExplainsAssignment(s, base, stored, storedAdmin, derive, lib);
    FilledParts(base, s);
    PeerAtFields(base.adminPeer, Lookup(s.ips.adminIPs, LEGACY_ADMIN_PEER_KEY), s.legacy);
    NodeAddresses(base, s, lib, Identities(a.plan.nodes));
    forall p | p in base.adminPeerNames && PeerOf(base.adminPeers, p).wgIP != ""
      ensures SameAddress(Admin(Expanded(st, a, derive, lib).value, p).wgIP, RequestedIP(a.plan, p), lib)
    {
      PeerAddress(base, s, lib, p);
    }
    if base.adminPeer.enabled && base.adminPeer.wgIP != "" { LegacyAddress(base, s, lib); }
  }

  lemma LegacyAddress(base: ClusterConfig, s: Secrets, lib: NetLib)
    requires AssignFor(base, lib) == Ok(s.ips) && base.adminPeer.enabled && base.adminPeer.wgIP != "" && base.adminPeerNames == [] && Distinct(base.nodeNames)
    ensures SameAddress(Lookup(s.ips.adminIPs, LEGACY_ADMIN_PEER_KEY), base.adminPeer.wgIP, lib)
  {
    hide Dotted, Assign, ParseIP;
    var cidr, admins := lib.parseCidr(base.wireGuard.subnet), AdminNames(base.adminPeer, base.adminPeerNames);
    OnlyIPv4(cidr, base.nodeNames, admins, RequestsOf(base), lib);
    assert admins[0] == LEGACY_ADMIN_PEER_KEY;
    RequestsMet(cidr, base.nodeNames, admins, RequestsOf(base), lib, LEGACY_ADMIN_PEER_KEY);
    var x: Addr :| ParseIP(base.adminPeer.wgIP, lib) == Some(V4(x)) && s.ips.adminIPs[LEGACY_ADMIN_PEER_KEY] == Dotted(x);
    ParsePrintV4(x, lib);
  }

  lemma NodeAddresses(base: ClusterConfig, s: Secrets, lib: NetLib, ids: seq<string>)
    requires |s.nodePairs| == |base.nodeNames| && |s.adminPairs| == |base.adminPeerNames| && Distinct(base.adminPeerNames)
    requires AssignFor(base, lib) == Ok(s.ips) && Distinct(ids) && base.nodeNames == SortStrings(ids)
    requires Distinct(AdminNames(base.adminPeer, base.adminPeerNames))
    ensures var cfg, cidr := Filled(base, s.ips, s.nodePairs, s.legacy, s.adminPairs), lib.parseCidr(base.wireGuard.subnet);
            cidr.V4Cidr? && forall k :: k in ids ==> AddressAt(Node(cfg, k).privateIP, SubnetOf(cidr).net, Rank(k, ids) + 1)
  {
    hide SortStrings, Filled, Assign, AddressAt, HasOffset, AdminRequests, AdminNames;
    var cidr, admins := lib.parseCidr(base.wireGuard.subnet), AdminNames(base.adminPeer, base.adminPeerNames);
    OnlyIPv4(cidr, base.nodeNames, admins, RequestsOf(base), lib);
    SortDistinct(ids);
    forall k | k in ids
      ensures AddressAt(Node(Filled(base, s.ips, s.nodePairs, s.legacy, s.adminPairs), k).privateIP, SubnetOf(cidr).net, Rank(k, ids) + 1)
    {
      SameElements(ids, k);
      NodeOffsetIsRank(cidr, ids, admins, RequestsOf(base), lib, k);
      NodeAddress(base, s, cidr, ids, k);
    }
  }

  lemma NodeAddress(base: ClusterConfig, s: Secrets, cidr: Cidr, ids: seq<string>, k: string)
    requires |s.nodePairs| == |base.nodeNames| && |s.adminPairs| == |base.adminPeerNames| && Distinct(base.nodeNames) && Distinct(base.adminPeerNames)
    requires k in base.nodeNames && cidr.V4Cidr? && HasOffset(s.ips.nodeIPs, k, SubnetOf(cidr), Rank(k, ids) + 1)
    ensures AddressAt(Node(Filled(base, s.ips, s.nodePairs, s.legacy, s.adminPairs), k).privateIP, SubnetOf(cidr).net, Rank(k, ids) + 1)
  {
    hide Filled, NodeAt, PeerAt, Dotted;
    var i :| 0 <= i < |base.nodeNames| && base.nodeNames[i] == k;
    FilledEntries(base, s, i);
    NodeAtFields(Node(base, k), Lookup(s.ips.nodeIPs, k), s.nodePairs[i]);
  }

  lemma PeerAddress(base: ClusterConfig, s: Secrets, lib: NetLib, p: string)
    requires |s.nodePairs| == |base.nodeNames| && |s.adminPairs| == |base.adminPeerNames| && Distinct(base.nodeNames) && Distinct(base.adminPeerNames)
    requires AssignFor(base, lib) == Ok(s.ips) && p in base.adminPeerNames && PeerOf(base.adminPeers, p).wgIP != ""
    requires Distinct(AdminNames(base.adminPeer, base.adminPeerNames))
    ensures SameAddress(Admin(Filled(base, s.ips, s.nodePairs, s.legacy, s.adminPairs), p).wgIP, PeerOf(base.adminPeers, p).wgIP, lib)
  {
    hide Filled, NodeAt, PeerAt, Dotted, Assign, ParseIP, AdminRequests;
    var i :| 0 <= i < |base.adminPeerNames| && base.adminPeerNames[i] == p;
    FilledEntries(base, s, i);
    PeerAtFields(Admin(base, p), Lookup(s.ips.adminIPs, p), s.adminPairs[i]);
    RequestsAt(base.adminPeer, base.adminPeers, base.adminPeerNames);
    var cidr, admins := lib.parseCidr(base.wireGuard.subnet), AdminNames(base.adminPeer, base.adminPeerNames);
    assert Lookup(RequestsOf(base), p) == PeerOf(base.adminPeers, p).wgIP;
    OnlyIPv4(cidr, base.nodeNames, admins, RequestsOf(base), lib);
    RequestsMet(cidr, base.nodeNames, admins, RequestsOf(base), lib, p);
    var x: Addr :| ParseIP(PeerOf(base.adminPeers, p).wgIP, lib) == Some(V4(x)) && s.ips.adminIPs[p] == Dotted(x);
    ParsePrintV4(x, lib);
  }

  /** The text is the address at this offset. */
  predicate AddressAt(text: string, net: Addr, off: nat) { net + off < TWO_32 && text == Dotted(net + off) }

  function RequestedIP(plan: ClusterModel, p: string): string { PeerOf(AdminPeerMap(plan.adminPeers), p).wgIP }

  predicate SameAddress(s: string, t: string, lib: NetLib) { ParseIP(s, lib).Some? && ParseIP(s, lib) == ParseIP(t, lib) }

  lemma ExpandedReady(st: Option<ClusterModel>, a: Action, derive: Derive, lib: NetLib)
    requires a.Apply? && Fair(a, derive) && (st.Some? ==> StateRuns.Coherent(st.value, derive))
    requires Expanded(st, a, derive, lib).Ok? && ConfigOk(Expanded(st, a, derive, lib).value)
    requires ExpandWireGuard(a.plan.wireGuard).enabled && a.plan.nodes != []
    ensures MeshReady(Expanded(st, a, derive, lib).value, derive) && Expanded(st, a, derive, lib).value.wireGuard.enabled
  {
    hide Identities, NodeConfigs, ZipMap, SortStrings, AdminPeerMap, FillIn, Explains, GoodKeys, NodesMatch, AdminsMatch, MeshReady, Filled, PeerAt;
    var prior := PriorOf(st);
    var token := TokenOf(a.plan, prior, a.supply).value;
    var base := BaseConfig(a.plan, prior, a.provider, token);
    BaseFacts(a.plan, prior, a.provider, token);
    BaseKeyed(a.plan, prior, a.provider, token);
    var stored, storedAdmin := OrDefault(prior.wireGuardPrivateKeys, map[]), OrDefault(prior.adminPrivateKeys, map[]);
    var s := FillInShape(base, stored, storedAdmin, a.supply, derive, lib);
    ExplainsLengths(s, base, stored, storedAdmin, derive, lib);
    FilledParts(base, s);
    PeerAtFields(base.adminPeer, Lookup(s.ips.adminIPs, LEGACY_ADMIN_PEER_KEY), s.legacy);
    FilledReady(base, s, stored, storedAdmin, derive, lib);
  }

  /** The keys whose private halves the provider knows differ. */
  predicate GeneratedApart(cfg: ClusterConfig) {
    && NodeKeysApart(cfg)
    && (forall k :: k in cfg.nodeNames && cfg.adminPeer.enabled ==> cfg.adminPeer.publicKey != Node(cfg, k).wireGuardPublicKey)
    && (forall k, p :: k in cfg.nodeNames && p in cfg.adminPeerNames && Admin(cfg, p).privateKey != "" ==>
          Admin(cfg, p).publicKey != Node(cfg, k).wireGuardPublicKey)
    && (forall p, q :: p in cfg.adminPeerNames && q in cfg.adminPeerNames && p != q && Admin(cfg, p).privateKey != "" && Admin(cfg, q).privateKey != "" ==>
          Admin(cfg, p).publicKey != Admin(cfg, q).publicKey)
  }

  function GivenKey(plan: ClusterModel, p: string): string { PeerOf(AdminPeerMap(plan.adminPeers), p).publicKey }

  /** No key that the plan brings belongs to another member of the mesh. */
  predicate GivenApart(plan: ClusterModel, cfg: ClusterConfig) {
    forall p :: p in cfg.adminPeerNames && GivenKey(plan, p) != "" ==>
      && (forall k :: k in cfg.nodeNames ==> Node(cfg, k).wireGuardPublicKey != GivenKey(plan, p))
      && (forall q :: q in cfg.adminPeerNames && q != p ==> Admin(cfg, q).publicKey != GivenKey(plan, p))
  }

  /** A given key is used as it is; every other peer gets a pair. */
  predicate GivenKept(plan: ClusterModel, cfg: ClusterConfig) {
    forall p :: p in cfg.adminPeerNames ==>
      && (Admin(cfg, p).privateKey == "" <==> GivenKey(plan, p) != "")
      && (GivenKey(plan, p) != "" ==> Admin(cfg, p).publicKey == GivenKey(plan, p))
  }

  lemma ExpandedGiven(st: Option<ClusterModel>, a: Action, derive: Derive, lib: NetLib)
    requires a.Apply? && Fair(a, derive) && Expanded(st, a, derive, lib).Ok? && ExpandWireGuard(a.plan.wireGuard).enabled
    ensures GivenKept(a.plan, Expanded(st, a, derive, lib).value)
    ensures Expanded(st, a, derive, lib).value.adminPeerNames == SortedKeys(AdminPeerMap(a.plan.adminPeers).Keys)
  {
    hide AdminPeerMap, SortStrings, FilledNodes, FilledPeers, ZipMap, GeneratedKeys, AssignFor, Identities, Honest, DistinctNodes, GoodPairs, PeerAt, Expand, Explains, Filled;
    var prior := PriorOf(st);
    var stored, storedAdmin := OrDefault(prior.wireGuardPrivateKeys, map[]), OrDefault(prior.adminPrivateKeys, map[]);
    var base, s := ExpandShape(a.plan, prior, a.provider, a.supply, derive, lib);
    FilledParts(base, s);
    forall p | p in base.adminPeerNames
      ensures var g, peer := GivenKey(a.plan, p), PeerOf(FilledPeers(base.adminPeers, base.adminPeerNames, s.ips.adminIPs, s.adminPairs), p);
              (peer.privateKey == "" <==> g != "") && (g != "" ==> peer.publicKey == g)
    {
      var i :| 0 <= i < |base.adminPeerNames| && base.adminPeerNames[i] == p;
      FilledPeersAt(base.adminPeers, base.adminPeerNames, s.ips.adminIPs, s.adminPairs, i);
      PeerAtFields(Admin(base, p), Lookup(s.ips.adminIPs, p), s.adminPairs[i]);
      AdminPairOf(base, s, stored, storedAdmin, derive, lib, i);
    }
    FilledPeerTable(base, s);
  }

  lemma AdminPairOf(base: ClusterConfig, s: Secrets, stored: map<string, string>, storedAdmin: map<string, string>, derive: Derive, lib: NetLib, i: nat)
    requires Explains(s, base, stored, storedAdmin, derive, lib) && i < |base.adminPeerNames|
    ensures var g := PeerOf(base.adminPeers, base.adminPeerNames[i]).publicKey;
            (s.adminPairs[i].priv == "" <==> g != "") && (g != "" ==> s.adminPairs[i].pub == g)
  {
    hide AssignFor, GoodPairs;
    PairOf(base.adminPeerNames, GivenKeys(base.adminPeers), storedAdmin, derive, s.adminPairs, i);
  }

  lemma FilledPeerTable(base: ClusterConfig, s: Secrets)
    requires |s.nodePairs| == |base.nodeNames| && |s.adminPairs| == |base.adminPeerNames|
    ensures Filled(base, s.ips, s.nodePairs, s.legacy, s.adminPairs).adminPeers
            == FilledPeers(base.adminPeers, base.adminPeerNames, s.ips.adminIPs, s.adminPairs)
  {
  }

  /** Keys from a varied random source that repeats no stored key are apart. */
  lemma ExpandedGeneratedApart(st: Option<ClusterModel>, a: Action, derive: Derive, lib: NetLib)
    requires a.Apply? && Fair(a, derive) && (st.Some? ==> StateRuns.Coherent(st.value, derive))
    requires Expanded(st, a, derive, lib).Ok? && ExpandWireGuard(a.plan.wireGuard).enabled
    requires Varied(a.supply) && NewTo(a.supply, PriorOf(st), derive) && StoredApart(PriorOf(st), derive)
    ensures GeneratedApart(Expanded(st, a, derive, lib).value)
  {
    hide Expand, StateRuns.Coherent, Honest, DistinctNodes, Varied, NewTo, StoredApart, KeyIn, ExpandWireGuard;
    CoherentLegacy(st, derive);
    ExpandedApart(a.plan, PriorOf(st), a.provider, a.supply, derive, lib);
    UsedKeys(a.plan, PriorOf(st), a.provider, a.supply, derive, lib);
    ApartMembers(Expanded(st, a, derive, lib).value);
  }

  lemma ApartMembers(cfg: ClusterConfig)
    requires AllApart(cfg)
    requires forall k :: k in cfg.nodeNames ==> KeyIn(cfg, OfNode(k)).priv != ""
    requires cfg.adminPeer.enabled ==> KeyIn(cfg, LegacyPeer).priv != "" && cfg.adminPeer.publicKey == KeyIn(cfg, LegacyPeer).pub
    ensures GeneratedApart(cfg)
  {
    hide AllApart;
    forall k, l | k in cfg.nodeNames && l in cfg.nodeNames && k != l ensures Node(cfg, k).wireGuardPublicKey != Node(cfg, l).wireGuardPublicKey {
      PairApart(cfg, OfNode(k), OfNode(l));
    }
    forall k | k in cfg.nodeNames && cfg.adminPeer.enabled ensures cfg.adminPeer.publicKey != Node(cfg, k).wireGuardPublicKey {
      PairApart(cfg, OfNode(k), LegacyPeer);
    }
    forall k, p | k in cfg.nodeNames && p in cfg.adminPeerNames && Admin(cfg, p).privateKey != ""
      ensures Admin(cfg, p).publicKey != Node(cfg, k).wireGuardPublicKey
    {
      PairApart(cfg, OfNode(k), OfPeer(p));
    }
    forall p, q | p in cfg.adminPeerNames && q in cfg.adminPeerNames && p != q && Admin(cfg, p).privateKey != "" && Admin(cfg, q).privateKey != ""
      ensures Admin(cfg, p).publicKey != Admin(cfg, q).publicKey
    {
      PairApart(cfg, OfPeer(p), OfPeer(q));
    }
  }

  lemma PairApart(cfg: ClusterConfig, o: Owner, o': Owner)
    requires AllApart(cfg) && o != o' && KeyIn(cfg, o).priv != "" && KeyIn(cfg, o').priv != ""
    ensures KeyIn(cfg, o).pub != KeyIn(cfg, o').pub
  {
  }

  /**
   With a varied random source that repeats no stored key, the keys known at any node of an expanded
   plan differ exactly when no key that the plan brings belongs to another member.
   */
  lemma ExpandedKeysApartIff(st: Option<ClusterModel>, a: Action, derive: Derive, lib: NetLib, k: string)
    requires a.Apply? && Fair(a, derive) && (st.Some? ==> StateRuns.Coherent(st.value, derive))
    requires Expanded(st, a, derive, lib).Ok? && ConfigOk(Expanded(st, a, derive, lib).value)
    requires ExpandWireGuard(a.plan.wireGuard).enabled && a.plan.nodes != [] && k in Expanded(st, a, derive, lib).value.nodeNames
    requires Varied(a.supply) && NewTo(a.supply, PriorOf(st), derive) && StoredApart(PriorOf(st), derive)
    ensures var cfg := Expanded(st, a, derive, lib).value; KeysApart(SectionsAt(cfg, k)) <==> GivenApart(a.plan, cfg)
  {
    hide Expand, ConfigOk, StateRuns.Coherent, Fair, KeysApart, SectionsAt, GivenKey, ExpandWireGuard, Varied, NewTo, StoredApart, GeneratedApart;
    var cfg := Expanded(st, a, derive, lib).value;
    ExpandedReady(st, a, derive, lib);
    ExpandedGiven(st, a, derive, lib);
    ExpandedGeneratedApart(st, a, derive, lib);
    KeysApartIff(cfg, k);
    OneKeyGiven(a.plan, cfg);
  }

  lemma OneKeyGiven(plan: ClusterModel, cfg: ClusterConfig)
    requires GivenKept(plan, cfg) && GeneratedApart(cfg)
    ensures OneKeyEach(cfg) <==> GivenApart(plan, cfg)
  {
    hide GivenKey, Node, Admin;
  }


  lemma BaseKeyed(plan: ClusterModel, prior: ClusterModel, provider: SSHConfig, token: string)
    requires DistinctNodes(plan)
    ensures K3s.KeyedNodes(BaseConfig(plan, prior, provider, token))
  {
    hide NodeIdentity, ZipMap, AdminPeerMap, SortStrings;
    var base := BaseConfig(plan, prior, provider, token);
    SortDistinct(Identities(plan.nodes));
    forall k | k in base.nodeNames ensures NodeOf(base.nodes, k).key == k {
      var i := NameOrigin(plan, k);
      BaseNodeAt(plan, provider, i);
    }
  }
}

/** When an accepted plan gives every node an identity of its own, and one bootstrap server. */
module PlanLaws {
  import opened Wrappers
  import opened Text
  import opened Addresses
  import opened Ordering
  import opened Config
  import opened Models
  import opened Lifecycle
  import opened Validators
  import K3s

  // ------------------------------------------------------------- identities

  /** No node's hostname is the public IP of a node without a hostname. */
  predicate NotCrossed(plan: ClusterModel) {
    forall i, j :: 0 <= i < |plan.nodes| && 0 <= j < |plan.nodes| && Hostname(plan.nodes[i]) != "" && Hostname(plan.nodes[j]) == "" ==>
      Hostname(plan.nodes[i]) != PublicIP(plan.nodes[j])
  }

  lemma AcceptedAddressed(plan: ClusterModel, lib: NetLib)
    requires Accepts(plan, lib)
    ensures Addressed(plan)
    ensures forall i :: 0 <= i < |plan.nodes| ==> PublicIP(plan.nodes[i]) != ""
  {
    hide PlanAssignment;
    forall i | 0 <= i < |plan.nodes| ensures PublicIP(plan.nodes[i]) != "" {
      assert GoodNode(plan.nodes[i], lib);
      assert Marker("") == ' ';
    }
  }

  /**
   The checks compare hostnames with hostnames and public IPs with public IPs.  An accepted plan
   has distinct identities exactly when, beyond that, no hostname is another node's bare public IP.
   */
  lemma DistinctIff(plan: ClusterModel, lib: NetLib)
    requires Accepts(plan, lib)
    ensures DistinctNodes(plan) <==> NotCrossed(plan)
  {
    hide PlanAssignment, ValidHostname, ParseIP;
    AcceptedAddressed(plan, lib);
    var ids := Identities(plan.nodes);
    assert forall i :: 0 <= i < |ids| ==> ids[i] == NodeIdentity(plan.nodes[i], i);
    if NotCrossed(plan) {
      forall i, j | 0 <= i < j < |ids| ensures ids[i] != ids[j] { assert Apart(plan.nodes[i], plan.nodes[j]); }
    }
    if DistinctNodes(plan) {
      forall i, j | 0 <= i < |ids| && 0 <= j < |ids| && Hostname(plan.nodes[i]) != "" && Hostname(plan.nodes[j]) == ""
        ensures Hostname(plan.nodes[i]) != PublicIP(plan.nodes[j])
      {
        assert ids[i] != ids[j];
      }
    }
  }

  /** The public IPs of different nodes are different addresses. */
  predicate SeparateHosts(plan: ClusterModel, lib: NetLib) {
    forall i, j :: 0 <= i < |plan.nodes| && 0 <= j < |plan.nodes| && i != j ==>
      ParseIP(PublicIP(plan.nodes[i]), lib) != ParseIP(PublicIP(plan.nodes[j]), lib)
  }

  /** No public IP that is written with a colon is another node's address in another spelling. */
  predicate NoRespelling(plan: ClusterModel, lib: NetLib) {
    forall i, j :: 0 <= i < |plan.nodes| && 0 <= j < |plan.nodes| && i != j && ':' in PublicIP(plan.nodes[i]) ==>
      ParseIP(PublicIP(plan.nodes[i]), lib) != ParseIP(PublicIP(plan.nodes[j]), lib)
  }

  /**
   The duplicate check compares texts.  An accepted plan names different addresses exactly when no
   public IP with a colon (an IPv6 text, or an IPv4 address in IPv6 form) respells another node's.
   */
  lemma SeparateIff(plan: ClusterModel, lib: NetLib)
    requires Accepts(plan, lib)
    ensures SeparateHosts(plan, lib) <==> NoRespelling(plan, lib)
  {
    hide PlanAssignment, ParseIP, ValidHostname;
    if NoRespelling(plan, lib) {
      forall i, j | 0 <= i < |plan.nodes| && 0 <= j < |plan.nodes| && i != j
        ensures ParseIP(PublicIP(plan.nodes[i]), lib) != ParseIP(PublicIP(plan.nodes[j]), lib)
      {
        NodesApart(plan, lib, i, j);
        var s, t := PublicIP(plan.nodes[i]), PublicIP(plan.nodes[j]);
        assert GoodNode(plan.nodes[i], lib);
        if ':' !in s && ':' !in t && ParseIP(s, lib) == ParseIP(t, lib) { OneSpelling(s, t, lib); }
      }
    }
  }

  lemma NodesApart(plan: ClusterModel, lib: NetLib, i: nat, j: nat)
    requires Accepts(plan, lib) && i < |plan.nodes| && j < |plan.nodes| && i != j
    ensures PublicIP(plan.nodes[i]) != PublicIP(plan.nodes[j])
  {
    hide PlanAssignment, GoodNode;
    if i < j { assert Apart(plan.nodes[i], plan.nodes[j]); } else { assert Apart(plan.nodes[j], plan.nodes[i]); }
  }

  /** The display name of a node, which K3s uses as the node name. */
  function NameOf(plan: ClusterModel, i: nat): string
    requires i < |plan.nodes|
  {
    if Hostname(plan.nodes[i]) != "" then Hostname(plan.nodes[i]) else DefaultName(i)
  }

  predicate DistinctNames(plan: ClusterModel) {
    forall i, j :: 0 <= i < j < |plan.nodes| ==> NameOf(plan, i) != NameOf(plan, j)
  }

  /** No hostname is the default name of a node without one. */
  predicate NoDefaultTaken(plan: ClusterModel) {
    forall i, j :: 0 <= i < |plan.nodes| && 0 <= j < |plan.nodes| && Hostname(plan.nodes[i]) != "" && Hostname(plan.nodes[j]) == "" ==>
      Hostname(plan.nodes[i]) != DefaultName(j)
  }

  lemma DefaultNameInjective(i: nat, j: nat)
    requires DefaultName(i) == DefaultName(j)
    ensures i == j
  {
    hide Decimal;
    assert DefaultName(i)[5..] == Decimal(i + 1) && DefaultName(j)[5..] == Decimal(j + 1);
    DecimalInjective(i + 1, j + 1);
  }

  /** An accepted plan gives its nodes distinct K3s names exactly when no hostname takes another node's default name. */
  lemma DistinctNamesIff(plan: ClusterModel, lib: NetLib)
    requires Accepts(plan, lib)
    ensures DistinctNames(plan) <==> NoDefaultTaken(plan)
  {
    hide PlanAssignment, GoodNode, DefaultName, PublicIP;
    forall i, j | 0 <= i < j < |plan.nodes| && NoDefaultTaken(plan) ensures NameOf(plan, i) != NameOf(plan, j) {
      assert Apart(plan.nodes[i], plan.nodes[j]);
      if DefaultName(i) == DefaultName(j) { DefaultNameInjective(i, j); }
    }
    if DistinctNames(plan) {
      forall i, j | 0 <= i < |plan.nodes| && 0 <= j < |plan.nodes| && Hostname(plan.nodes[i]) != "" && Hostname(plan.nodes[j]) == ""
        ensures Hostname(plan.nodes[i]) != DefaultName(j)
      {
        assert i != j && NameOf(plan, if i < j then i else j) != NameOf(plan, if i < j then j else i);
      }
    }
  }

  lemma {:induction false} SetSize(s: seq<string>)
    ensures |set k | k in s| <= |s|
    ensures |set k | k in s| == |s| <==> Distinct(s)
    decreases |s|
  {
    if s != [] {
      var n := |s| - 1;
      SetSize(s[..n]);
      assert s == s[..n] + [s[n]];
      assert (set k | k in s) == (set k | k in s[..n]) + {s[n]};
      if s[n] in s[..n] {
        var i :| 0 <= i < n && s[..n][i] == s[n];
        assert !Distinct(s) by { assert s[i] == s[n]; }
      } else {
        assert Distinct(s) <==> Distinct(s[..n]);
      }
    }
  }

  /** Nodes that share an identity collapse: the table has an entry for every node only without collisions. */
  lemma TableSizeIff(plan: ClusterModel, prior: ClusterModel, provider: SSHConfig, token: string)
    ensures |BaseConfig(plan, prior, provider, token).nodes| == |plan.nodes| <==> DistinctNodes(plan)
  {
    hide NodeConfigOf, NodeIdentity;
    var ids := Identities(plan.nodes);
    SetSize(ids);
    var table := ZipMap(ids, NodeConfigs(plan.nodes, provider));
    assert |table| == |table.Keys|;
  }

  /** Two nodes, one named like the other's address. */
  function CrossedPlan(base: ClusterModel, a: Addr, b: Addr): ClusterModel {
    base.(nodes := [NULL_NODE.(publicIP := Known(Dotted(a)), role := Known("server"), hostname := Known(Dotted(b))),
                    NULL_NODE.(publicIP := Known(Dotted(b)), role := Known("agent"))],
          wireGuard := Known(WireGuardModel(Known(false), Null, Null, Null, Null)), adminPeer := Null, adminPeers := Null)
  }

  lemma DecimalStep(n: nat)
    ensures Decimal(n) == if n < 10 then [Digit(n)] else Decimal(n / 10) + [Digit(n % 10)]
  {
  }

  lemma OctetIsLabel(n: nat)
    requires n < 256
    ensures ValidLabel(Decimal(n)) && |Decimal(n)| <= 3
  {
    hide Decimal;
    DecimalStep(n);
    DecimalStep(n / 10);
    DecimalStep(n / 10 / 10);
  }

  lemma QuadIsHostname(a: Addr)
    ensures ValidHostname(Dotted(a))
  {
    var p := QuadParts(Octets(a));
    forall i | 0 <= i < 4 ensures '.' !in p[i] && ValidLabel(p[i]) && |p[i]| <= 3 {
      DigitsExclude(p[i], '.');
      OctetIsLabel(Octets(a)[i]);
    }
    hide Octets, ValidLabel;
    SplitJoin(p, '.');
    assert p[1..][1..] == p[2..] && p[2..][1..] == p[3..];
    assert |Join(p[2..], ".")| <= 7;
    assert |Join(p[1..], ".")| <= 11;
    assert |Dotted(a)| <= 15;
  }

  /** The gap is real: for any two addresses such a plan passes validation, and one node is lost. */
  lemma CrossedPlanAccepted(base: ClusterModel, a: Addr, b: Addr, prior: ClusterModel, provider: SSHConfig, token: string, lib: NetLib)
    requires a != b
    ensures var plan := CrossedPlan(base, a, b);
            Accepts(plan, lib) && !DistinctNodes(plan) && |BaseConfig(plan, prior, provider, token).nodes| < |plan.nodes|
  {
    hide CrossedPlan, PlanAssignment, Accepts, SortStrings, AdminPeerMap, NodeConfigs;
    var plan := CrossedPlan(base, a, b);
    CrossedAccepts(base, a, b, lib);
    CrossedCollides(base, a, b);
    SetSize(Identities(plan.nodes));
    TableSizeIff(plan, prior, provider, token);
  }

  lemma CrossedAccepts(base: ClusterModel, a: Addr, b: Addr, lib: NetLib)
    requires a != b
    ensures Accepts(CrossedPlan(base, a, b), lib)
  {
    hide Dotted, ParseIP, ValidHostname, PlanAssignment;
    var plan := CrossedPlan(base, a, b);
    if Dotted(a) == Dotted(b) { DottedInjective(a, b); }
    ParsePrintV4(a, lib);
    ParsePrintV4(b, lib);
    QuadIsHostname(b);
    assert GoodNodes(plan.nodes, lib);
    var front := plan.nodes[..1];
    assert front == [plan.nodes[0]] && front[..0] == [];
    assert Role(plan.nodes[0]) == "server" && Role(plan.nodes[1]) == "agent";
    assert Servers(front) == 1;
  }

  lemma CrossedCollides(base: ClusterModel, a: Addr, b: Addr)
    ensures var ids := Identities(CrossedPlan(base, a, b).nodes); |ids| == 2 && ids[0] == ids[1]
    ensures |CrossedPlan(base, a, b).nodes| == 2
  {
    hide Dotted;
    DottedChars(b);
  }

  // ------------------------------------------------------------------- quorum

  /** The positions of the servers. */
  ghost function ServerSet(nodes: seq<NodeModel>): set<nat> { set i: nat | i < |nodes| && Role(nodes[i]) == "server" }

  lemma {:induction false} ServersCount(nodes: seq<NodeModel>)
    ensures Servers(nodes) == |ServerSet(nodes)|
    decreases |nodes|
  {
    if nodes != [] {
      var n := |nodes| - 1;
      ServersCount(nodes[..n]);
      var front := ServerSet(nodes[..n]);
      assert forall i: nat :: i < n ==> nodes[..n][i] == nodes[i];
      if Role(nodes[n]) == "server" {
        assert ServerSet(nodes) == front + {n} && n !in front;
      } else {
        assert ServerSet(nodes) == front;
      }
    } else {
      assert ServerSet(nodes) == {};
    }
  }

  /** Some of the servers are as many as all others. */
  ghost predicate Tie(nodes: seq<NodeModel>) { exists half :: half <= ServerSet(nodes) && IsHalf(half, ServerSet(nodes)) }

  predicate IsHalf(half: set<nat>, s: set<nat>) { |half| == |s - half| }

  lemma {:induction false} HalfOf(s: set<nat>, k: nat) returns (half: set<nat>)
    requires k <= |s|
    ensures half <= s && |half| == k
    decreases k
  {
    half := {};
    if k > 0 {
      var x :| x in s;
      var rest := HalfOf(s - {x}, k - 1);
      half := rest + {x};
    }
  }

  lemma HalfSizes(half: set<nat>, s: set<nat>)
    requires half <= s
    ensures |s - half| == |s| - |half|
  {
  }

  lemma HalvesIff(s: set<nat>)
    ensures (exists half :: half <= s && IsHalf(half, s)) <==> |s| % 2 == 0
  {
    hide IsHalf;
    if half :| half <= s && IsHalf(half, s) { HalfSizes(half, s); assert |half| == |s - half| by { HalfIs(half, s); } }
    if |s| % 2 == 0 {
      var half := HalfOf(s, |s| / 2);
      HalfSizes(half, s);
      HalfIs(half, s);
    }
  }

  lemma HalfIs(half: set<nat>, s: set<nat>)
    ensures IsHalf(half, s) <==> |half| == |s - half|
  {
  }

  lemma TieIff(nodes: seq<NodeModel>)
    ensures Tie(nodes) <==> Servers(nodes) % 2 == 0
  {
    hide ServerSet, IsHalf;
    ServersCount(nodes);
    HalvesIff(ServerSet(nodes));
  }

  /** The other checks of an acceptable plan. */
  ghost predicate SoundApartFromServers(plan: ClusterModel, lib: NetLib) {
    var wg, admin, peers := ExpandWireGuard(plan.wireGuard), ExpandAdminPeer(plan.adminPeer), AdminPeerMap(plan.adminPeers);
    && plan.nodes != [] && GoodNodes(plan.nodes, lib)
    && (admin.enabled ==> wg.enabled) && (peers != map[] ==> wg.enabled) && !(admin.enabled && peers != map[])
    && (wg.enabled ==> PlanAssignment(plan, lib).Ok?)
  }

  /** Among otherwise sound plans exactly those are accepted whose servers cannot split into two halves of one size. */
  lemma AcceptedIffNoTie(plan: ClusterModel, lib: NetLib)
    requires SoundApartFromServers(plan, lib)
    ensures Accepts(plan, lib) <==> !Tie(plan.nodes)
  {
    hide PlanAssignment, GoodNodes, Tie, AdminPeerMap;
    TieIff(plan.nodes);
  }

  // --------------------------------------------------------- settings of a plan

  /** A setting is the plan's own where it gives one, and the default otherwise. */
  predicate SetTo<T(==)>(value: T, own: Attr<T>, default_: T) { (own.Known? ==> value == own.value) && (!own.Known? ==> value == default_) }

  /** A node is dialed with its own SSH settings, and the provider's where it has none. */
  predicate DialsWith(ssh: SSHConfig, n: NodeModel, provider: SSHConfig) {
    && SetTo(ssh.user, n.sshUser, provider.user) && SetTo(ssh.port, n.sshPort, provider.port) && SetTo(ssh.password, n.sshPassword, provider.password)
    && SetTo(ssh.privateKey, n.sshPrivateKey, provider.privateKey) && SetTo(ssh.privateKeyPath, n.sshPrivateKeyPath, provider.privateKeyPath)
    && ssh.insecure == provider.insecure
  }

  /** The tunnel's settings, with their documented defaults. */
  predicate TunnelSettings(wg: WireGuardConfig, a: Attr<WireGuardModel>) {
    && (a.Known? ==> SetTo(wg.enabled, a.value.enabled, true) && SetTo(wg.iface, a.value.iface, "wg0") && SetTo(wg.subnet, a.value.subnet, "10.10.0.0/24")
                     && SetTo(wg.port, a.value.port, 51820) && SetTo(wg.mtu, a.value.mtu, 1420))
    && (!a.Known? ==> wg.enabled && wg.iface == "wg0" && wg.subnet == "10.10.0.0/24" && wg.port == 51820 && wg.mtu == 1420)
  }

  lemma SSHDials(n: NodeModel, provider: SSHConfig)
    ensures DialsWith(NodeSSH(n, provider), n, provider)
  {
  }

  lemma TunnelExpands(a: Attr<WireGuardModel>)
    ensures TunnelSettings(ExpandWireGuard(a), a)
  {
  }

  /** The legacy admin peer's settings, with their documented defaults. */
  predicate AdminSettings(peer: AdminPeerConfig, a: Attr<AdminPeerModel>) {
    && (a.Known? ==> SetTo(peer.enabled, a.value.enabled, false) && SetTo(peer.name, a.value.name, "admin"))
    && (!a.Known? ==> !peer.enabled && peer.name == "admin")
  }

  lemma AdminExpands(a: Attr<AdminPeerModel>, ip: string, k: KeyPair)
    ensures AdminSettings(ExpandAdminPeer(a), a) && AdminSettings(PeerAt(ExpandAdminPeer(a), ip, k), a)
  {
  }

  /** An accepted plan has no node that is neither a server nor an agent. */
  lemma AcceptedRoles(plan: ClusterModel, lib: NetLib, i: nat)
    requires Accepts(plan, lib) && i < |plan.nodes|
    ensures Role(plan.nodes[i]) == "server" || Role(plan.nodes[i]) == "agent"
  {
    hide PlanAssignment;
    assert GoodNode(plan.nodes[i], lib);
  }

  /** Every node of an expanded plan has the settings that the plan and the provider give it. */
  lemma ExpandedSettings(plan: ClusterModel, prior: ClusterModel, provider: SSHConfig, supply: Supply, derive: Derive, lib: NetLib, i: nat)
    requires DistinctNodes(plan) && i < |plan.nodes| && Honest(supply, derive)
    requires Expand(plan, prior, provider, supply, derive, lib).Ok?
    ensures var cfg, id := Expand(plan, prior, provider, supply, derive, lib).value, NodeIdentity(plan.nodes[i], i);
            && DialsWith(NodeOf(cfg.nodes, id).ssh, plan.nodes[i], provider) && TunnelSettings(cfg.wireGuard, plan.wireGuard)
            && AdminSettings(cfg.adminPeer, plan.adminPeer)
            && cfg.firewall == plan.firewall && cfg.k3s == plan.k3s && cfg.dns == plan.dns
  {
    hide ZipMap, SortStrings, AdminPeerMap, FillIn, AssignFor, GeneratedKeys, FilledNodes, FilledPeers, Explains, Drawn, NodeIdentity, NodeConfigs, NodeSSH,
      DialsWith, TunnelSettings, AdminSettings, ExpandWireGuard, ExpandAdminPeer, PeerAt;
    SSHDials(plan.nodes[i], provider);
    TunnelExpands(plan.wireGuard);
    AdminExpands(plan.adminPeer, "", KeyPair("", ""));
    var token := TokenOf(plan, prior, supply).value;
    var base := BaseConfig(plan, prior, provider, token);
    var id := NodeIdentity(plan.nodes[i], i);
    BaseNodeAt(plan, provider, i);
    assert Identities(plan.nodes)[i] == id;
    SameElements(Identities(plan.nodes), id);
    SortDistinct(Identities(plan.nodes));
    if base.wireGuard.enabled {
      var stored, storedAdmin := OrDefault(prior.wireGuardPrivateKeys, map[]), OrDefault(prior.adminPrivateKeys, map[]);
      var s := FillInShape(base, stored, storedAdmin, supply, derive, lib);
      ExplainsLengths(s, base, stored, storedAdmin, derive, lib);
      var j :| 0 <= j < |base.nodeNames| && base.nodeNames[j] == id;
      FilledNodesAt(base.nodes, base.nodeNames, s.ips.nodeIPs, s.nodePairs, j);
      AdminExpands(plan.adminPeer, Lookup(s.ips.adminIPs, LEGACY_ADMIN_PEER_KEY), s.legacy);
    }
  }

  // -------------------------------------------------------- one bootstrap server

  lemma {:induction false} SomeServer(nodes: seq<NodeModel>) returns (i: nat)
    requires Validators.Servers(nodes) > 0
    ensures i < |nodes| && Role(nodes[i]) == "server"
    decreases |nodes|
  {
    var n := |nodes| - 1;
    if Role(nodes[n]) == "server" { i := n; } else { i := SomeServer(nodes[..n]); }
  }

  /** The expanded node behind a plan node: its role, address and name, and its identity as key. */
  lemma ExpandedNode(plan: ClusterModel, prior: ClusterModel, provider: SSHConfig, supply: Supply, derive: Derive, lib: NetLib, i: nat)
    requires DistinctNodes(plan) && i < |plan.nodes| && Honest(supply, derive)
    requires Expand(plan, prior, provider, supply, derive, lib).Ok?
    ensures var cfg, id := Expand(plan, prior, provider, supply, derive, lib).value, NodeIdentity(plan.nodes[i], i);
            && id in cfg.nodeNames && Distinct(cfg.nodeNames)
            && NodeOf(cfg.nodes, id).key == id && NodeOf(cfg.nodes, id).role == Role(plan.nodes[i])
            && NodeOf(cfg.nodes, id).publicIP == PublicIP(plan.nodes[i])
            && NodeOf(cfg.nodes, id).name == (if Hostname(plan.nodes[i]) != "" then Hostname(plan.nodes[i]) else DefaultName(i))
  {
    hide ZipMap, SortStrings, AdminPeerMap, FillIn, AssignFor, GeneratedKeys, FilledNodes, FilledPeers, Explains, NodeIdentity, NodeConfigs;
    var token := TokenOf(plan, prior, supply).value;
    var base := BaseConfig(plan, prior, provider, token);
    var id := NodeIdentity(plan.nodes[i], i);
    BaseNodeAt(plan, provider, i);
    assert Identities(plan.nodes)[i] == id;
    SameElements(Identities(plan.nodes), id);
    SortDistinct(Identities(plan.nodes));
    if base.wireGuard.enabled {
      var stored, storedAdmin := OrDefault(prior.wireGuardPrivateKeys, map[]), OrDefault(prior.adminPrivateKeys, map[]);
      var s := FillInShape(base, stored, storedAdmin, supply, derive, lib);
      ExplainsLengths(s, base, stored, storedAdmin, derive, lib);
      var j :| 0 <= j < |base.nodeNames| && base.nodeNames[j] == id;
      FilledNodesAt(base.nodes, base.nodeNames, s.ips.nodeIPs, s.nodePairs, j);
    }
  }

  lemma ExpandedKeyed(plan: ClusterModel, prior: ClusterModel, provider: SSHConfig, supply: Supply, derive: Derive, lib: NetLib)
    requires DistinctNodes(plan) && Honest(supply, derive) && plan.nodes != []
    requires Expand(plan, prior, provider, supply, derive, lib).Ok?
    ensures K3s.KeyedNodes(Expand(plan, prior, provider, supply, derive, lib).value)
  {
    hide Expand, NodeIdentity, SortStrings;
    var cfg := Expand(plan, prior, provider, supply, derive, lib).value;
    ExpandedNode(plan, prior, provider, supply, derive, lib, 0);
    ExpandedNames(plan, prior, provider, supply, derive, lib);
    forall k | k in cfg.nodeNames ensures NodeOf(cfg.nodes, k).key == k {
      var i := NameOrigin(plan, k);
      ExpandedNode(plan, prior, provider, supply, derive, lib, i);
    }
  }

  lemma ExpandedNames(plan: ClusterModel, prior: ClusterModel, provider: SSHConfig, supply: Supply, derive: Derive, lib: NetLib)
    requires Expand(plan, prior, provider, supply, derive, lib).Ok?
    ensures Expand(plan, prior, provider, supply, derive, lib).value.nodeNames == SortStrings(Identities(plan.nodes))
  {
    hide ZipMap, SortStrings, AdminPeerMap, AssignFor, GeneratedKeys, FilledNodes, FilledPeers, Identities, NodeConfigs, Keys;
  }

  /**
   In every accepted plan with distinct identities the first server bootstraps the cluster; all
   others join through its address with the one shared token, and every other server is installed
   after it.  Over the whole of every config.yaml it is the only node that starts a cluster exactly
   when no other node's extra arguments ask for it, and a node's join entries are unambiguous exactly
   when its own extra arguments leave them alone.
   */
  lemma AcceptedPlanBootstraps(plan: ClusterModel, prior: ClusterModel, provider: SSHConfig, supply: Supply, derive: Derive, lib: NetLib) returns (b: string)
    requires Accepts(plan, lib) && DistinctNodes(plan) && Honest(supply, derive)
    requires Expand(plan, prior, provider, supply, derive, lib).Ok?
    ensures var cfg := Expand(plan, prior, provider, supply, derive, lib).value;
            && b in cfg.nodeNames && NodeOf(cfg.nodes, b).role == "server" && K3s.FirstServerOf(cfg.nodes, cfg.nodeNames) == Some(b)
            && (forall k :: k in cfg.nodeNames ==> K3s.JoinsThrough(cfg, b, k))
            && (K3s.OnlyInit(cfg, b) <==> K3s.NoOtherInit(cfg, b))
            && (forall k :: k in cfg.nodeNames ==> (K3s.OneWayIn(cfg, b, k) <==> K3s.PlainArgs(cfg, NodeOf(cfg.nodes, k))))
            && K3s.ServersFollow(cfg, b)
  {
    hide Expand, NodeIdentity, PlanAssignment, GoodNodes, K3s.FirstServerOf, K3s.JoinsThrough, K3s.ServersFollow, K3s.OnlyInit, K3s.NoOtherInit, K3s.OneWayIn, K3s.PlainArgs;
    var cfg := Expand(plan, prior, provider, supply, derive, lib).value;
    var i := SomeServer(plan.nodes);
    ExpandedNode(plan, prior, provider, supply, derive, lib, i);
    ExpandedKeyed(plan, prior, provider, supply, derive, lib);
    var id := NodeIdentity(plan.nodes[i], i);
    var j :| 0 <= j < |cfg.nodeNames| && cfg.nodeNames[j] == id;
    b := K3s.SingleBootstrap(cfg, j);
  }

  // ------------------------------------------------ growing a running cluster

  lemma LeastUnique(x: string, b: string)
    requires AtMost(x, b) && AtMost(b, x)
    ensures x == b
  {
    if x != b {
      LessTransitive(x, b, x);
      LessIrreflexive(x);
    }
  }

  lemma LeastIsFirst(nodes: map<string, NodeConfig>, names: seq<string>, k: string)
    requires Sorted(names) && k in names && NodeOf(nodes, k).role == "server"
    ensures K3s.FirstServerOf(nodes, names).Some? && AtMost(K3s.FirstServerOf(nodes, names).value, k)
  {
    var j :| 0 <= j < |names| && names[j] == k;
    var i := K3s.FirstServerEarliest(nodes, names, j);
    assert i < j ==> AtMost(names[i], names[j]);
  }

  /** The identities that the appended nodes get. */
  function AppendedIds(plan: ClusterModel, more: seq<NodeModel>): (ids: seq<string>)
    ensures |ids| == |more|
  {
    seq(|more|, j requires 0 <= j < |more| => NodeIdentity(more[j], |plan.nodes| + j))
  }

  function Grown(plan: ClusterModel, more: seq<NodeModel>): ClusterModel { plan.(nodes := plan.nodes + more) }

  lemma GrownIds(plan: ClusterModel, more: seq<NodeModel>)
    ensures Identities(Grown(plan, more).nodes) == Identities(plan.nodes) + AppendedIds(plan, more)
  {
    hide NodeIdentity;
  }

  lemma DistinctParts(a: seq<string>, b: seq<string>)
    requires Distinct(a + b)
    ensures Distinct(a) && forall x :: x in a ==> x !in b
  {
    var all := a + b;
    forall i, j | 0 <= i < j < |a| ensures a[i] != a[j] { assert all[i] != all[j]; }
    forall i, j | 0 <= i < |a| && 0 <= j < |b| ensures a[i] != b[j] { assert all[i] != all[|a| + j]; }
  }

  /** No appended server sorts before `b`. */
  predicate NoneBefore(plan: ClusterModel, more: seq<NodeModel>, b: string) {
    forall j :: 0 <= j < |more| && Role(more[j]) == "server" ==> !Less(AppendedIds(plan, more)[j], b)
  }

  /** The configuration of a grown plan: old nodes keep their roles, and the rest are the appended ones. */
  lemma GrownRoles(plan: ClusterModel, more: seq<NodeModel>, prior: ClusterModel, prior': ClusterModel, provider: SSHConfig,
                   supply: Supply, supply': Supply, derive: Derive, lib: NetLib, k: string)
    requires DistinctNodes(Grown(plan, more)) && Honest(supply, derive) && Honest(supply', derive)
    requires Expand(plan, prior, provider, supply, derive, lib).Ok? && Expand(Grown(plan, more), prior', provider, supply', derive, lib).Ok?
    ensures var cfg, next := Expand(plan, prior, provider, supply, derive, lib).value, Expand(Grown(plan, more), prior', provider, supply', derive, lib).value;
            && (k in cfg.nodeNames ==> k in next.nodeNames && NodeOf(next.nodes, k).role == NodeOf(cfg.nodes, k).role)
            && (k in next.nodeNames ==> k in cfg.nodeNames || k in AppendedIds(plan, more))
  {
    hide Expand, NodeIdentity, SortStrings, Honest;
    var cfg, next := Expand(plan, prior, provider, supply, derive, lib).value, Expand(Grown(plan, more), prior', provider, supply', derive, lib).value;
    GrownIds(plan, more);
    DistinctParts(Identities(plan.nodes), AppendedIds(plan, more));
    ExpandedNames(plan, prior, provider, supply, derive, lib);
    ExpandedNames(Grown(plan, more), prior', provider, supply', derive, lib);
    SameElements(Identities(plan.nodes), k);
    SameElements(Identities(Grown(plan, more).nodes), k);
    if k in cfg.nodeNames {
      var i := NameOrigin(plan, k);
      ExpandedNode(plan, prior, provider, supply, derive, lib, i);
      ExpandedNode(Grown(plan, more), prior', provider, supply', derive, lib, i);
    }
  }

  /** An appended node is in the configuration under its identity, in its role. */
  lemma AppendedNode(plan: ClusterModel, more: seq<NodeModel>, prior: ClusterModel, provider: SSHConfig, supply: Supply, derive: Derive, lib: NetLib, j: nat)
    requires DistinctNodes(Grown(plan, more)) && Honest(supply, derive) && j < |more|
    requires Expand(Grown(plan, more), prior, provider, supply, derive, lib).Ok?
    ensures var next, id := Expand(Grown(plan, more), prior, provider, supply, derive, lib).value, AppendedIds(plan, more)[j];
            id in next.nodeNames && NodeOf(next.nodes, id).role == Role(more[j])
  {
    hide Expand, NodeIdentity, Honest, DistinctNodes, Role;
    ExpandedNode(Grown(plan, more), prior, provider, supply, derive, lib, |plan.nodes| + j);
  }

  /**
   Appending nodes to a plan leaves the bootstrap role where it is exactly when no appended server's
   identity sorts before that of the present bootstrap server.  Otherwise an appended server takes it
   over: the new machine starts a cluster of its own and all running servers are told to join it.
   */
  lemma AppendedServersTakeOver(plan: ClusterModel, more: seq<NodeModel>, prior: ClusterModel, prior': ClusterModel, provider: SSHConfig,
                                supply: Supply, supply': Supply, derive: Derive, lib: NetLib) returns (b: string, b': string)
    requires Servers(plan.nodes) > 0 && DistinctNodes(Grown(plan, more)) && Honest(supply, derive) && Honest(supply', derive)
    requires Expand(plan, prior, provider, supply, derive, lib).Ok? && Expand(Grown(plan, more), prior', provider, supply', derive, lib).Ok?
    ensures var cfg, next := Expand(plan, prior, provider, supply, derive, lib).value, Expand(Grown(plan, more), prior', provider, supply', derive, lib).value;
            && K3s.FirstServerOf(cfg.nodes, cfg.nodeNames) == Some(b) && K3s.FirstServerOf(next.nodes, next.nodeNames) == Some(b')
            && (b' == b <==> NoneBefore(plan, more, b))
            && (b' != b ==> b' in AppendedIds(plan, more) && Less(b', b))
            && (forall j :: 0 <= j < |more| && Role(more[j]) == "server" ==> AtMost(b', AppendedIds(plan, more)[j]))
  {
    hide Expand, NodeIdentity, Less, K3s.FirstServerOf, SortStrings, Honest, Role, AppendedIds, Grown;
    var cfg, next := Expand(plan, prior, provider, supply, derive, lib).value, Expand(Grown(plan, more), prior', provider, supply', derive, lib).value;
    GrownIds(plan, more);
    DistinctParts(Identities(plan.nodes), AppendedIds(plan, more));
    ExpandedNames(plan, prior, provider, supply, derive, lib);
    ExpandedNames(Grown(plan, more), prior', provider, supply', derive, lib);
    var i := SomeServer(plan.nodes);
    ExpandedNode(plan, prior, provider, supply, derive, lib, i);
    LeastIsFirst(cfg.nodes, cfg.nodeNames, NodeIdentity(plan.nodes[i], i));
    b := K3s.FirstServerOf(cfg.nodes, cfg.nodeNames).value;
    GrownRoles(plan, more, prior, prior', provider, supply, supply', derive, lib, b);
    LeastIsFirst(next.nodes, next.nodeNames, b);
    b' := K3s.FirstServerOf(next.nodes, next.nodeNames).value;
    GrownRoles(plan, more, prior, prior', provider, supply, supply', derive, lib, b');
    forall j | 0 <= j < |more| && Role(more[j]) == "server"
      ensures AtMost(b', AppendedIds(plan, more)[j]) && !Less(AppendedIds(plan, more)[j], b')
    {
      AppendedNode(plan, more, prior', provider, supply', derive, lib, j);
      LeastIsFirst(next.nodes, next.nodeNames, AppendedIds(plan, more)[j]);
      NotLess(b', AppendedIds(plan, more)[j]);
    }
    if b' in cfg.nodeNames {
      LeastIsFirst(cfg.nodes, cfg.nodeNames, b');
      LeastUnique(b, b');
    } else {
      var j :| 0 <= j < |more| && AppendedIds(plan, more)[j] == b';
      AppendedNode(plan, more, prior', provider, supply', derive, lib, j);
      SameElements(Identities(plan.nodes), b);
    }
  }

  lemma NotLess(a: string, b: string)
    requires AtMost(a, b)
    ensures !Less(b, a)
  {
    LessIrreflexive(a);
    if a != b && Less(b, a) { LessTransitive(a, b, a); }
  }
}

/**
 Plans that meet the conditions of the theorems, and plans that fall into the gaps: each gap can be
 reached by a plan that passes every check.
 */
module Instances {
  import opened Wrappers
  import opened Text
  import opened Addresses
  import opened Ordering
  import opened Ipam
  import AllocatorLaws
  import opened Config
  import opened Remote
  import opened Models
  import opened Lifecycle
  import opened Validators
  import opened StateRuns
  import opened PlanLaws
  import opened Apply
  import opened Convergence
  import opened Changes
  import WireGuard
  import K3s
  import Mesh
  import KeyRuns
  import opened Deployment

  // --------------------------------------------------------------- an instance

  /** The smallest plan: one server, everything else left to the defaults. */
  function OneServerPlan(a: Addr): ClusterModel {
    NO_STATE.(name := Known("one"), nodes := [NULL_NODE.(publicIP := Known(Dotted(a)), role := Known("server"))])
  }

  const NEW_WORLD := World(map[], 0, [], map[])

  const DEFAULT_CIDR := V4Cidr(0x0A0A_0000, 24)

  /** In a /24, peers without requests of their own are always served. */
  lemma DefaultAssigns(names: seq<string>, admins: seq<string>, req: map<string, string>, lib: NetLib)
    requires |names| + |admins| <= 254 && forall p :: p in admins ==> Lookup(req, p) == ""
    ensures Assign(DEFAULT_CIDR, names, admins, req, lib).Ok?
  {
    hide Assign, BlockStart, Pow2, Usable, AdminOffsets;
    AllocatorLaws.UsableOf24();
    AllocatorLaws.AllocatesIff(DEFAULT_CIDR, names, admins, req, lib);
  }

  lemma OneServerAccepted(a: Addr, lib: NetLib)
    requires lib.parseCidr("10.10.0.0/24") == DEFAULT_CIDR
    ensures Accepts(OneServerPlan(a), lib) && DistinctNodes(OneServerPlan(a)) && Addressed(OneServerPlan(a))
  {
    hide Dotted, ParseIP, ValidHostname, Assign, SortStrings;
    var plan := OneServerPlan(a);
    ParsePrintV4(a, lib);
    DottedChars(a);
    assert plan.nodes[..0] == [];
    assert Role(plan.nodes[0]) == "server";
    assert GoodNodes(plan.nodes, lib) && Servers(plan.nodes) == 1;
    var peers, admin := AdminPeerMap(plan.adminPeers), ExpandAdminPeer(plan.adminPeer);
    assert peers == map[];
    NamesOfKeys(peers, SortedKeys(peers.Keys));
    assert AdminNames(admin, SortedKeys(peers.Keys)) == [];
    DefaultAssigns(SortStrings(Identities(plan.nodes)), [], RequestMap(admin, peers), lib);
    assert PlanAssignment(plan, lib).Ok?;
  }

  /**
   The conditions of the theorem can be met: the smallest plan, on a new machine at any address,
   deploys.
   */
  lemma OneServerDeploys(a: Addr, provider: SSHConfig, out: Outputs, site: Site)
    requires forall k :: WireGuard.LinkEnvOk(site.link(k))
    requires forall s :: site.reach(s) == s
    ensures var derive: Derive := _ => Some("public");
            var supply := Supply(Some("token"), _ => Some(KeyPair("private", "public")));
            var lib := NetLib(_ => None, _ => "", _ => DEFAULT_CIDR);
            var action := Action.Apply(OneServerPlan(a), provider, supply, out, true);
            var cfg := Expanded(None, action, derive, lib);
            cfg.Ok? && var run := Apply.Run(NEW_WORLD, cfg.value, site, Net(_ => Done, _ => true)); run.ok && AtTarget(cfg.value, site, run.w)
  {
    hide Expand, AtTarget, Apply.Run, OneServerPlan, Routed, LinkReady, PlainIPv6, Honest;
    var derive: Derive := _ => Some("public");
    var supply := Supply(Some("token"), _ => Some(KeyPair("private", "public")));
    var lib := NetLib(_ => None, _ => "", _ => DEFAULT_CIDR);
    OneServerDefaults(a, site);
    TextsRouted(site, lib);
    NoIPv6(lib);
    ConstantHonest(supply, derive);
    OneServerWorks(a, provider, supply, derive, lib, out, site, Net(_ => Done, _ => true));
  }

  lemma OneServerWorks(a: Addr, provider: SSHConfig, supply: Supply, derive: Derive, lib: NetLib, out: Outputs, site: Site, calm: Net)
    requires Honest(supply, derive) && supply.token.Some? && (forall i: nat :: supply.pair(i).Some?)
    requires lib.parseCidr("10.10.0.0/24") == DEFAULT_CIDR && PlainIPv6(lib) && LinkReady(OneServerPlan(a), site) && Routed(site, lib) && Calm(calm)
    ensures var cfg := Expanded(None, Action.Apply(OneServerPlan(a), provider, supply, out, true), derive, lib);
            cfg.Ok? && var run := Apply.Run(NEW_WORLD, cfg.value, site, calm); run.ok && AtTarget(cfg.value, site, run.w)
  {
    hide Expand, Accepts, Fits, AtTarget, Apply.Run, DistinctNodes, Addressed, OneServerPlan, SameMachines, ToState, Trusted, Routed, SeparateHosts,
      LinkReady, PlainIPv6, Honest;
    var action := Action.Apply(OneServerPlan(a), provider, supply, out, true);
    OneServerAccepted(a, lib);
    OneServerAlone(a, lib);
    var _ := AcceptedPlanDeploys(None, action, supply, derive, lib, site, NEW_WORLD, calm);
    EmptyUntouched();
    NewMachinesTrusted(Expanded(None, action, derive, lib).value, site, NEW_WORLD);
  }

  lemma OneServerAlone(a: Addr, lib: NetLib)
    ensures SeparateHosts(OneServerPlan(a), lib) && !OneServerPlan(a).firewall.enabled
  {
    hide ParseIP, Dotted;
  }

  lemma OneServerDefaults(a: Addr, site: Site)
    requires forall k :: WireGuard.LinkEnvOk(site.link(k))
    ensures LinkReady(OneServerPlan(a), site)
  {
  }

  lemma NoIPv6(lib: NetLib)
    requires forall s :: lib.parse6(s) == None
    ensures PlainIPv6(lib)
  {
  }

  lemma ConstantHonest(supply: Supply, derive: Derive)
    requires supply.token == Some("token") && (forall i :: supply.pair(i) == Some(KeyPair("private", "public"))) && derive("private") == Some("public")
    ensures Honest(supply, derive)
  {
  }

  /** Without IPv6, the texts themselves are addresses. */
  lemma TextsRouted(site: Site, lib: NetLib)
    requires (forall s :: site.reach(s) == s) && forall s :: lib.parse6(s) == None
    ensures Routed(site, lib)
  {
    hide ParseDotted;
    forall s, t | ParseIP(s, lib).Some? && ParseIP(s, lib) == ParseIP(t, lib) ensures s == t {
      ParseDottedCanonical(s);
      ParseDottedCanonical(t);
    }
  }

  /** A random source whose draws all differ, for keys that are their own public halves. */
  const COUNTING := Supply(Some("token"), (i: nat) => Some(KeyPair(Decimal(i), Decimal(i))))

  /** The conditions on random sources can be met: from nothing, by a source that counts. */
  lemma CountingSource(plan: ClusterModel, provider: SSHConfig, out: Outputs)
    ensures var derive: Derive := s => Some(s);
            var actions := [Action.Apply(plan, provider, COUNTING, out, true)];
            && Honest(COUNTING, derive) && KeyRuns.AllVaried(actions)
            && KeyRuns.StoredApart(PriorOf(None), derive) && KeyRuns.AllNew(actions, PriorOf(None), derive)
  {
    hide Decimal;
    var derive: Derive := s => Some(s);
    var actions := [Action.Apply(plan, provider, COUNTING, out, true)];
    KeyRuns.NothingStored(actions, derive);
    forall i: nat, j: nat | i != j ensures KeyRuns.PubDrawn(actions, 0, i) != KeyRuns.PubDrawn(actions, 0, j) {
      if Decimal(i) == Decimal(j) { DecimalInjective(i, j); }
    }
  }

  // ---------------------------------------------- one machine under two spellings

  /** A server by its IPv4 address, and an agent by another text. */
  function RespelledPlan(a: Addr, text: string): ClusterModel {
    NO_STATE.(name := Known("respelled"),
              nodes := [NULL_NODE.(publicIP := Known(Dotted(a)), role := Known("server")), NULL_NODE.(publicIP := Known(text), role := Known("agent"))])
  }

  lemma RespelledAccepted(a: Addr, text: string, lib: NetLib)
    requires Marker(text) == ':' && lib.parse6(text) == Some(V4(a)) && lib.parseCidr("10.10.0.0/24") == DEFAULT_CIDR
    ensures Accepts(RespelledPlan(a, text), lib) && DistinctNodes(RespelledPlan(a, text)) && Addressed(RespelledPlan(a, text))
    ensures !SeparateHosts(RespelledPlan(a, text), lib)
  {
    hide Dotted, GoodNodes, Assign, SortStrings, Servers, ParseIP, Identities;
    var plan := RespelledPlan(a, text);
    RespelledNodes(a, text, lib);
    OneOfTwo(plan.nodes);
    var peers, admin := AdminPeerMap(plan.adminPeers), ExpandAdminPeer(plan.adminPeer);
    assert peers == map[];
    NamesOfKeys(peers, SortedKeys(peers.Keys));
    assert AdminNames(admin, SortedKeys(peers.Keys)) == [];
    DefaultAssigns(SortStrings(Identities(plan.nodes)), [], RequestMap(admin, peers), lib);
    assert PlanAssignment(plan, lib).Ok?;
    assert ParseIP(PublicIP(plan.nodes[0]), lib) == ParseIP(PublicIP(plan.nodes[1]), lib);
  }

  lemma RespelledNodes(a: Addr, text: string, lib: NetLib)
    requires Marker(text) == ':' && lib.parse6(text) == Some(V4(a))
    ensures var plan := RespelledPlan(a, text);
            && GoodNodes(plan.nodes, lib) && Identities(plan.nodes) == [Dotted(a), text] && Dotted(a) != text && Addressed(plan)
            && ParseIP(Dotted(a), lib) == ParseIP(text, lib)
  {
    hide Dotted, ValidHostname, ParseDotted;
    ParsePrintV4(a, lib);
    DottedChars(a);
    MarkerOccurs(text);
    assert !QuadChar(':');
    assert Identities(RespelledPlan(a, text).nodes) == [Dotted(a), text];
  }

  lemma OneOfTwo(nodes: seq<NodeModel>)
    requires |nodes| == 2 && Role(nodes[0]) == "server" && Role(nodes[1]) == "agent"
    ensures Servers(nodes) == 1
  {
    assert nodes[..1] == [nodes[0]] && nodes[..1][..0] == [];
    assert Servers(nodes[..1]) == 1;
  }

  /**
   The gap is reached by any second spelling: the plan is accepted, an undisturbed apply on
   untouched machines succeeds, and not all nodes are at their targets.
   */
  lemma RespelledFails(a: Addr, text: string, provider: SSHConfig, supply: Supply, derive: Derive, lib: NetLib, out: Outputs, site: Site, calm: Net)
    requires Marker(text) == ':' && lib.parse6(text) == Some(V4(a)) && lib.parseCidr("10.10.0.0/24") == DEFAULT_CIDR
    requires Honest(supply, derive) && supply.token.Some? && (forall i: nat :: supply.pair(i).Some?)
    requires PlainIPv6(lib) && LinkReady(RespelledPlan(a, text), site) && Routed(site, lib) && Calm(calm)
    ensures Accepts(RespelledPlan(a, text), lib)
    ensures var cfg := Expanded(None, Action.Apply(RespelledPlan(a, text), provider, supply, out, true), derive, lib);
            cfg.Ok? && var run := Apply.Run(NEW_WORLD, cfg.value, site, calm); run.ok && !AtTarget(cfg.value, site, run.w)
  {
    hide Expand, Accepts, Fits, AtTarget, Apply.Run, DistinctNodes, Addressed, SameMachines, ToState, Trusted, Honest, PlainIPv6, LinkReady, Routed, SeparateHosts;
    var action := Action.Apply(RespelledPlan(a, text), provider, supply, out, true);
    RespelledAccepted(a, text, lib);
    var _ := AcceptedPlanDeploys(None, action, supply, derive, lib, site, NEW_WORLD, calm);
    EmptyUntouched();
    NewMachinesTrusted(Expanded(None, action, derive, lib).value, site, NEW_WORLD);
  }

  // --------------------------------------------- a hostname that is a default name

  /** A server without a hostname, and an agent that carries the server's default name. */
  function NamesakePlan(a: Addr, b: Addr): ClusterModel {
    NO_STATE.(name := Known("namesakes"),
              nodes := [NULL_NODE.(publicIP := Known(Dotted(a)), role := Known("server")),
                        NULL_NODE.(publicIP := Known(Dotted(b)), role := Known("agent"), hostname := Known("node-1"))])
  }

  lemma NamesakeNodes(a: Addr, b: Addr, lib: NetLib)
    requires a != b
    ensures var plan := NamesakePlan(a, b);
            && GoodNodes(plan.nodes, lib) && |plan.nodes| == 2 && Role(plan.nodes[0]) == "server" && Role(plan.nodes[1]) == "agent"
            && Identities(plan.nodes) == [Dotted(a), "node-1"] && Addressed(plan) && Dotted(a) != "node-1" && !NoDefaultTaken(plan)
  {
    hide Dotted, ParseIP, Split;
    ParsePrintV4(a, lib);
    ParsePrintV4(b, lib);
    if Dotted(a) == Dotted(b) { DottedInjective(a, b); }
    SplitPlain("node-1", '.');
    DottedChars(a);
    assert "node-1"[0] == 'n';
    var plan := NamesakePlan(a, b);
    assert Identities(plan.nodes) == [Dotted(a), "node-1"];
    assert DefaultName(0) == "node-1";
    assert Hostname(plan.nodes[1]) == DefaultName(0) && Hostname(plan.nodes[0]) == "";
  }

  /** The plan is accepted, and both nodes get the same K3s name. */
  lemma NamesakeAccepted(a: Addr, b: Addr, lib: NetLib)
    requires a != b && lib.parseCidr("10.10.0.0/24") == DEFAULT_CIDR
    ensures Accepts(NamesakePlan(a, b), lib) && DistinctNodes(NamesakePlan(a, b)) && Addressed(NamesakePlan(a, b))
    ensures !DistinctNames(NamesakePlan(a, b))
  {
    hide Dotted, GoodNodes, Assign, SortStrings, Servers, ParseIP, Identities, NoDefaultTaken, DistinctNames;
    var plan := NamesakePlan(a, b);
    NamesakeNodes(a, b, lib);
    OneOfTwo(plan.nodes);
    var peers, admin := AdminPeerMap(plan.adminPeers), ExpandAdminPeer(plan.adminPeer);
    assert peers == map[];
    NamesOfKeys(peers, SortedKeys(peers.Keys));
    assert AdminNames(admin, SortedKeys(peers.Keys)) == [];
    DefaultAssigns(SortStrings(Identities(plan.nodes)), [], RequestMap(admin, peers), lib);
    assert PlanAssignment(plan, lib).Ok?;
    DistinctNamesIff(plan, lib);
  }

  // ------------------------------------------------ two admin peers with one key

  function KeyPeer(key: string): AdminPeerMapModel { AdminPeerMapModel(Known(key), Null) }

  function SharedPeers(key: string): Attr<map<string, AdminPeerMapModel>> { Known(map["p" := KeyPeer(key), "q" := KeyPeer(key)]) }

  /** One server, and two admin peers that bring the same public key. */
  function SharedKeyPlan(a: Addr, key: string): ClusterModel { OneServerPlan(a).(adminPeers := SharedPeers(key)) }

  lemma SharedPeerNames(key: string)
    ensures AdminPeerMap(SharedPeers(key)).Keys == {"p", "q"}
    ensures forall p :: p in AdminPeerMap(SharedPeers(key)) ==>
              AdminPeerMap(SharedPeers(key))[p].wgIP == "" && AdminPeerMap(SharedPeers(key))[p].publicKey == key
  {
  }

  lemma TwoNames()
    ensures |SortedKeys({"p", "q"})| == 2
  {
    hide SortStrings, SortedKeys;
    assert "p"[0] != "q"[0];
    CollectedKeys(["p", "q"], {"p", "q"});
  }

  lemma SharedKeyParts(a: Addr, key: string)
    ensures var plan, one := SharedKeyPlan(a, key), OneServerPlan(a);
            && plan.nodes == one.nodes && plan.wireGuard == one.wireGuard && plan.adminPeer == one.adminPeer
            && plan.adminPeers == SharedPeers(key) && plan.firewall == one.firewall
            && !ExpandAdminPeer(one.adminPeer).enabled && ExpandWireGuard(one.wireGuard).enabled
            && ExpandWireGuard(one.wireGuard).subnet == "10.10.0.0/24" && |one.nodes| == 1 && !one.firewall.enabled
  {
    hide Dotted;
  }

  lemma SharedKeyAssigns(plan: ClusterModel, key: string, lib: NetLib)
    requires lib.parseCidr(ExpandWireGuard(plan.wireGuard).subnet) == DEFAULT_CIDR && |plan.nodes| == 1
    requires !ExpandAdminPeer(plan.adminPeer).enabled && plan.adminPeers == SharedPeers(key)
    ensures PlanAssignment(plan, lib).Ok?
  {
    hide Assign, SortStrings, AdminPeerMap, SortedKeys, SharedPeers, ExpandAdminPeer, ExpandWireGuard, Identities;
    SharedPeerNames(key);
    TwoNames();
    var peers, admin := AdminPeerMap(plan.adminPeers), ExpandAdminPeer(plan.adminPeer);
    var req := RequestMap(admin, peers);
    assert AdminNames(admin, SortedKeys(peers.Keys)) == SortedKeys(peers.Keys);
    forall p | p in SortedKeys(peers.Keys) ensures Lookup(req, p) == "" { assert p in peers; }
    DefaultAssigns(SortStrings(Identities(plan.nodes)), SortedKeys(peers.Keys), req, lib);
  }

  lemma SharedKeyAccepted(a: Addr, key: string, lib: NetLib)
    requires lib.parseCidr("10.10.0.0/24") == DEFAULT_CIDR
    ensures Accepts(SharedKeyPlan(a, key), lib) && DistinctNodes(SharedKeyPlan(a, key)) && Addressed(SharedKeyPlan(a, key))
  {
    hide PlanAssignment, AdminPeerMap, SharedKeyPlan, OneServerPlan, SharedPeers, GoodNodes, Servers, ExpandAdminPeer, ExpandWireGuard, Identities;
    OneServerAccepted(a, lib);
    SharedKeyParts(a, key);
    SharedKeyAssigns(SharedKeyPlan(a, key), key, lib);
  }

  /** The plan is accepted and expands, and the server's conf holds the key twice. */
  lemma SharedKeyExpands(a: Addr, key: string, provider: SSHConfig, supply: Supply, derive: Derive, lib: NetLib, out: Outputs)
    requires key != "" && lib.parseCidr("10.10.0.0/24") == DEFAULT_CIDR
    requires Honest(supply, derive) && supply.token.Some? && (forall i: nat :: supply.pair(i).Some?)
    ensures Accepts(SharedKeyPlan(a, key), lib)
    ensures var cfg := Expanded(None, Action.Apply(SharedKeyPlan(a, key), provider, supply, out, true), derive, lib);
            cfg.Ok? && Dotted(a) in cfg.value.nodeNames && !Mesh.KeysApart(Mesh.SectionsAt(cfg.value, Dotted(a)))
  {
    hide Expand, Accepts, DistinctNodes, Addressed, AdminPeerMap, Honest, Mesh.KeysApart, Mesh.SectionsAt, Mesh.NodeKeysApart, SortedKeys, Mesh.MeshReady, SharedKeyPlan,
      OneServerPlan, SharedPeers, ExpandAdminPeer, ExpandWireGuard, ConfigOk, Identities, SortStrings, Dotted;
    var plan := SharedKeyPlan(a, key);
    var action := Action.Apply(plan, provider, supply, out, true);
    SharedKeyAccepted(a, key, lib);
    SharedKeyParts(a, key);
    SharedPeerNames(key);
    AcceptedPlanExpands(None, action, derive, lib);
    AcceptedConfigOk(plan, NO_STATE, provider, supply, derive, lib);
    var cfg := Expanded(None, action, derive, lib).value;
    Mesh.ExpandedReady(None, action, derive, lib);
    Mesh.ExpandedGiven(None, action, derive, lib);
    assert "p" in cfg.adminPeerNames && "q" in cfg.adminPeerNames && Mesh.GivenKey(plan, "p") == key == Mesh.GivenKey(plan, "q");
    assert !Mesh.AdminsDiffer(cfg, cfg.adminPeerNames) by { assert "p" != "q"; }
    ExpandedNames(plan, NO_STATE, provider, supply, derive, lib);
    SameElements(Identities(plan.nodes), Dotted(a));
    assert Dotted(a) in Identities(plan.nodes) by { OneServerIdentity(a); }
    SharedMesh(cfg, derive, Dotted(a));
  }

  lemma OneServerIdentity(a: Addr)
    ensures Identities(OneServerPlan(a).nodes) == [Dotted(a)]
  {
    hide Dotted;
    DottedChars(a);
  }

  lemma SharedMesh(cfg: ClusterConfig, derive: Derive, k: string)
    requires Mesh.MeshReady(cfg, derive) && k in cfg.nodeNames && !Mesh.AdminsDiffer(cfg, cfg.adminPeerNames)
    ensures !Mesh.KeysApart(Mesh.SectionsAt(cfg, k))
  {
    hide Mesh.KeysApart, Mesh.SectionsAt, Mesh.NodeKeysApart, Mesh.AdminsDiffer;
    Mesh.KeysApartIff(cfg, k);
  }

  // ------------------------------------------------- plans of several servers

  /** Servers with the given hostnames and public addresses, everything else left to the defaults. */
  function ServerNodes(names: seq<string>, addrs: seq<Addr>): (nodes: seq<NodeModel>)
    requires |names| == |addrs|
    ensures |nodes| == |names|
  {
    seq(|names|, i requires 0 <= i < |names| =>
      NULL_NODE.(publicIP := Known(Dotted(addrs[i])), role := Known("server"), hostname := Known(names[i])))
  }

  function ServersPlan(names: seq<string>, addrs: seq<Addr>): ClusterModel
    requires |names| == |addrs|
  {
    NO_STATE.(name := Known("servers"), nodes := ServerNodes(names, addrs))
  }

  lemma {:induction false} AllServers(nodes: seq<NodeModel>)
    requires forall i :: 0 <= i < |nodes| ==> Role(nodes[i]) == "server"
    ensures Servers(nodes) == |nodes|
    decreases |nodes|
  {
    if nodes != [] { AllServers(nodes[..|nodes| - 1]); }
  }

  lemma ServersGood(names: seq<string>, addrs: seq<Addr>, lib: NetLib)
    requires |names| == |addrs| && Distinct(names) && Distinct(addrs) && forall i :: 0 <= i < |names| ==> ValidHostname(names[i])
    ensures GoodNodes(ServerNodes(names, addrs), lib) && Servers(ServerNodes(names, addrs)) == |names|
    ensures Identities(ServerNodes(names, addrs)) == names
  {
    hide Dotted, ParseIP, ValidHostname;
    var nodes := ServerNodes(names, addrs);
    forall i | 0 <= i < |names| ensures GoodNode(nodes[i], lib) && NodeIdentity(nodes[i], i) == names[i] {
      ParsePrintV4(addrs[i], lib);
      HostnameChars(names[i]);
    }
    forall i, j | 0 <= i < j < |names| ensures Apart(nodes[i], nodes[j]) {
      if Dotted(addrs[i]) == Dotted(addrs[j]) { DottedInjective(addrs[i], addrs[j]); }
    }
    AllServers(nodes);
    assert Identities(nodes) == names;
  }

  /** Any odd number of servers with valid and distinct hostnames and addresses is accepted. */
  lemma ServersAccepted(names: seq<string>, addrs: seq<Addr>, lib: NetLib)
    requires |names| == |addrs| && Distinct(names) && Distinct(addrs) && forall i :: 0 <= i < |names| ==> ValidHostname(names[i])
    requires |names| % 2 == 1 && |names| <= 254 && lib.parseCidr("10.10.0.0/24") == DEFAULT_CIDR
    ensures Accepts(ServersPlan(names, addrs), lib) && Identities(ServersPlan(names, addrs).nodes) == names
  {
    hide Dotted, GoodNodes, Assign, SortStrings, ServerNodes, Identities, Servers, ValidHostname;
    var plan := ServersPlan(names, addrs);
    ServersGood(names, addrs, lib);
    var peers, admin := AdminPeerMap(plan.adminPeers), ExpandAdminPeer(plan.adminPeer);
    assert peers == map[];
    NamesOfKeys(peers, SortedKeys(peers.Keys));
    assert AdminNames(admin, SortedKeys(peers.Keys)) == [];
    DefaultAssigns(SortStrings(Identities(plan.nodes)), [], RequestMap(admin, peers), lib);
    assert PlanAssignment(plan, lib).Ok?;
  }

  lemma ServersFair(names: seq<string>, addrs: seq<Addr>)
    requires |names| == |addrs| && Distinct(names) && forall i :: 0 <= i < |names| ==> ValidHostname(names[i])
    ensures DistinctNodes(ServersPlan(names, addrs)) && Addressed(ServersPlan(names, addrs))
  {
    hide Dotted, ValidHostname;
    var nodes := ServerNodes(names, addrs);
    forall i | 0 <= i < |names| ensures OrDefault(nodes[i].hostname, "") != "" && NodeIdentity(nodes[i], i) == names[i] {
      HostnameChars(names[i]);
    }
    assert Identities(nodes) == names;
  }

  lemma ServersGrow(addrs: seq<Addr>)
    requires |addrs| == 3 && forall c: char :: c in {'a', 'b', 'c'} ==> ValidHostname([c])
    ensures var plan, more := ServersPlan(["c"], addrs[..1]), ServerNodes(["a", "b"], addrs[1..]);
            && ServersPlan(["c", "a", "b"], addrs) == Grown(plan, more) && AppendedIds(plan, more) == ["a", "b"]
            && |more| == 2 && Role(more[0]) == "server" && Role(more[1]) == "server" && Servers(plan.nodes) == 1
  {
    hide Dotted, ValidHostname;
    var plan, more := ServersPlan(["c"], addrs[..1]), ServerNodes(["a", "b"], addrs[1..]);
    assert ServerNodes(["c", "a", "b"], addrs) == plan.nodes + more;
    AllServers(plan.nodes);
  }

  lemma LetterHostname(c: char)
    requires IsAlnum(c)
    ensures ValidHostname([c])
  {
    SplitPlain([c], '.');
  }

  /**
   The takeover is reachable: a running cluster with the one server "c" grows by the servers "a" and
   "b".  Both plans are accepted and expand, and the bootstrap role moves from "c" to "a".
   */
  lemma TakeoverInstance(addrs: seq<Addr>, prior: ClusterModel, provider: SSHConfig, supply: Supply, derive: Derive, lib: NetLib, out: Outputs)
    requires |addrs| == 3 && Distinct(addrs) && lib.parseCidr("10.10.0.0/24") == DEFAULT_CIDR
    requires Honest(supply, derive) && supply.token.Some? && (forall i: nat :: supply.pair(i).Some?)
    ensures var plan, next := ServersPlan(["c"], addrs[..1]), ServersPlan(["c", "a", "b"], addrs);
            var cfg := Expand(plan, NO_STATE, provider, supply, derive, lib);
            && Accepts(plan, lib) && Accepts(next, lib) && cfg.Ok?
            && var grown := Expand(next, ToState(cfg.value, plan, out), provider, supply, derive, lib);
            && grown.Ok?
            && K3s.FirstServerOf(cfg.value.nodes, cfg.value.nodeNames) == Some("c")
            && K3s.FirstServerOf(grown.value.nodes, grown.value.nodeNames) == Some("a")
  {
    hide Expand, Accepts, Honest, ValidHostname, ToState, K3s.FirstServerOf, StateRuns.Coherent, Identities, ServerNodes, Less;
    var plan, next := ServersPlan(["c"], addrs[..1]), ServersPlan(["c", "a", "b"], addrs);
    LetterHostname('a');
    LetterHostname('b');
    LetterHostname('c');
    ServersAccepted(["c"], addrs[..1], lib);
    ServersAccepted(["c", "a", "b"], addrs, lib);
    var first := Action.Apply(plan, provider, supply, out, true);
    ServersFair(["c"], addrs[..1]);
    ServersFair(["c", "a", "b"], addrs);
    AcceptedPlanExpands(None, first, derive, lib);
    var cfg := Expanded(None, first, derive, lib).value;
    AcceptedConfigOk(plan, NO_STATE, provider, supply, derive, lib);
    StepCoherent(None, first, derive, lib);
    var second := Action.Apply(next, provider, supply, out, true);
    AcceptedPlanExpands(Next(None, first, derive, lib), second, derive, lib);
    assert Next(None, first, derive, lib) == Some(ToState(cfg, plan, out));
    var more := ServerNodes(["a", "b"], addrs[1..]);
    ServersGrow(addrs);
    var b, b' := AppendedServersTakeOver(plan, more, NO_STATE, ToState(cfg, plan, out), provider, supply, supply, derive, lib);
    ExpandedNames(plan, NO_STATE, provider, supply, derive, lib);
    SameElements(["c"], b);
    LettersInOrder();
    assert AtMost(b', AppendedIds(plan, more)[0]);
  }

  lemma LettersInOrder()
    ensures Less("a", "c") && !AtMost("b", "a") && !AtMost("c", "a")
  {
  }
}

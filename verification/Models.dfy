/**
 From a plan and the prior state to a cluster configuration, and from an applied
 configuration back to state.
 */
module Models {
  import opened Wrappers
  import opened Text
  import opened Addresses
  import opened Ordering
  import opened Ipam
  import opened Config

  // ------------------------------------------------------------------ attributes

  /** A framework value: null, unknown, or known. */
  datatype Attr<+T> = Null | Unknown | Known(value: T)

  /** `valueStringDefault` and its siblings. */
  function OrDefault<T>(a: Attr<T>, default_: T): T { if a.Known? then a.value else default_ }

  /** `nullOrString`. */
  function NullOrString(s: string): Attr<string> { if s == "" then Null else Known(s) }

  datatype NodeModel = NodeModel(
    publicIP: Attr<string>, role: Attr<string>, hostname: Attr<string>,
    sshUser: Attr<string>, sshPort: Attr<int>, sshPassword: Attr<string>, sshPrivateKey: Attr<string>, sshPrivateKeyPath: Attr<string>,
    name: Attr<string>, privateIP: Attr<string>, wireGuardPublicKey: Attr<string>, status: Attr<string>)

  const NULL_NODE := NodeModel(Null, Null, Null, Null, Null, Null, Null, Null, Null, Null, Null, Null)

  datatype WireGuardModel = WireGuardModel(enabled: Attr<bool>, iface: Attr<string>, subnet: Attr<string>, port: Attr<int>, mtu: Attr<int>)

  datatype AdminPeerModel = AdminPeerModel(enabled: Attr<bool>, name: Attr<string>, wgIP: Attr<string>)

  datatype AdminPeerMapModel = AdminPeerMapModel(publicKey: Attr<string>, wgIP: Attr<string>)

  /** The resource: the same shape serves as plan and as state. */
  datatype ClusterModel = ClusterModel(
    id: Attr<string>, name: Attr<string>, nodes: seq<NodeModel>,
    wireGuard: Attr<WireGuardModel>, k3s: K3sConfig, firewall: FirewallConfig, dns: DNSConfig,
    adminPeer: Attr<AdminPeerModel>, adminPeers: Attr<map<string, AdminPeerMapModel>>,
    // computed
    kubeconfig: Attr<string>, serverURL: Attr<string>, wireGuardEnabled: Attr<bool>, firewallEnabled: Attr<bool>,
    k3sToken: Attr<string>, wireGuardPrivateKeys: Attr<map<string, string>>,
    adminPrivate: Attr<string>, adminPublic: Attr<string>,
    adminPrivateKeys: Attr<map<string, string>>, adminPublicKeys: Attr<map<string, string>>)

  // ---------------------------------------------------------- keys and secrets

  datatype KeyPair = KeyPair(priv: string, pub: string)

  /** What the random source yields during one expansion; `None` is a failed draw. */
  datatype Supply = Supply(token: Option<string>, pair: nat -> Option<KeyPair>)

  /** `publicKeyFromPrivate`; `None` for a text that is not a private key. */
  type Derive = string -> Option<string>

  datatype ExpandError =
    | NoToken | Addressing(error: AllocError)
    | NoKey(owner: string) | BadStoredKey(owner: string)

  /** `resolveK3sToken`. */
  function ResolveToken(configured: string, prior: string): string { if configured != "" then configured else prior }

  // -------------------------------------------------------------------- nodes

  /** `nodeIdentity`. */
  function NodeIdentity(n: NodeModel, index: nat): string {
    if OrDefault(n.hostname, "") != "" then n.hostname.value
    else if OrDefault(n.publicIP, "") != "" then n.publicIP.value
    else DefaultName(index)
  }

  function DefaultName(index: nat): string { "node-" + Decimal(index + 1) }

  function NodeSSH(n: NodeModel, provider: SSHConfig): SSHConfig {
    SSHConfig(OrDefault(n.sshUser, provider.user), OrDefault(n.sshPort, provider.port), OrDefault(n.sshPassword, provider.password),
              OrDefault(n.sshPrivateKey, provider.privateKey), OrDefault(n.sshPrivateKeyPath, provider.privateKeyPath), provider.insecure)
  }

  function NodeConfigOf(n: NodeModel, index: nat, provider: SSHConfig): NodeConfig {
    var hostname := OrDefault(n.hostname, "");
    NodeConfig(NodeIdentity(n, index), if hostname != "" then hostname else DefaultName(index),
               OrDefault(n.publicIP, ""), "", OrDefault(n.role, ""), hostname, "", "", NodeSSH(n, provider))
  }

  function Identities(nodes: seq<NodeModel>): (ids: seq<string>)
    ensures |ids| == |nodes|
  {
    seq(|nodes|, i requires 0 <= i < |nodes| => NodeIdentity(nodes[i], i))
  }

  function NodeConfigs(nodes: seq<NodeModel>, provider: SSHConfig): (cs: seq<NodeConfig>)
    ensures |cs| == |nodes|
  {
    seq(|nodes|, i requires 0 <= i < |nodes| => NodeConfigOf(nodes[i], i, provider))
  }

  // ------------------------------------------------------------ settings

  function ExpandWireGuard(a: Attr<WireGuardModel>): WireGuardConfig {
    if !a.Known? then WireGuardConfig(true, "wg0", "10.10.0.0/24", 51820, 1420) else
      var m := a.value;
      WireGuardConfig(OrDefault(m.enabled, true), OrDefault(m.iface, "wg0"), OrDefault(m.subnet, "10.10.0.0/24"),
                      OrDefault(m.port, 51820), OrDefault(m.mtu, 1420))
  }

  function ExpandAdminPeer(a: Attr<AdminPeerModel>): AdminPeerConfig {
    if !a.Known? then AdminPeerConfig(false, "admin", "", "", "") else
      var m := a.value;
      AdminPeerConfig(OrDefault(m.enabled, false), OrDefault(m.name, "admin"), OrDefault(m.wgIP, ""), "", "")
  }

  function AdminPeerMap(a: Attr<map<string, AdminPeerMapModel>>): map<string, AdminPeerConfig> {
    var peers := OrDefault(a, map[]);
    map n | n in peers :: AdminPeerConfig(true, n, OrDefault(peers[n].wgIP, ""), "", OrDefault(peers[n].publicKey, ""))
  }

  /** `expandAdminPeers`: the map is visited in any order, the names are sorted afterwards. */
  method ExpandAdminPeers(a: Attr<map<string, AdminPeerMapModel>>) returns (out: map<string, AdminPeerConfig>, names: seq<string>)
    ensures out == AdminPeerMap(a)
    ensures names == SortedKeys(out.Keys)
  {
    out, names := map[], [];
    var peers := OrDefault(a, map[]);
    var todo := peers.Keys;
    while todo != {}
      invariant todo <= peers.Keys
      invariant out == map n | n in AdminPeerMap(a) && n !in todo :: AdminPeerMap(a)[n]
      invariant forall k :: k in names <==> k in out.Keys
      invariant Distinct(names)
      decreases todo
    {
      var name :| name in todo;
      assert name !in out.Keys;
      names := names + [name];
      out := out[name := AdminPeerConfig(true, name, OrDefault(peers[name].wgIP, ""), "", OrDefault(peers[name].publicKey, ""))];
      todo := todo - {name};
    }
    assert out == AdminPeerMap(a);
    CollectedKeys(names, out.Keys);
    names := SortStrings(names);
  }

  // ------------------------------------------------------ address requests

  /** The first result of `adminPeerIPRequests`. */
  function AdminNames(peer: AdminPeerConfig, names: seq<string>): seq<string> {
    (if peer.enabled then [LEGACY_ADMIN_PEER_KEY] else []) + names
  }

  /** The second result of `adminPeerIPRequests`. */
  function AdminRequests(peer: AdminPeerConfig, peers: map<string, AdminPeerConfig>, names: seq<string>): (m: map<string, string>)
  {
    if names == [] then (if peer.enabled then map[LEGACY_ADMIN_PEER_KEY := peer.wgIP] else map[]) else
      var last := names[|names| - 1];
      AdminRequests(peer, peers, names[..|names| - 1])[last := PeerOf(peers, last).wgIP]
  }

  method AdminPeerIPRequests(peer: AdminPeerConfig, peers: map<string, AdminPeerConfig>, adminPeerNames: seq<string>)
    returns (names: seq<string>, requested: map<string, string>)
    ensures names == AdminNames(peer, adminPeerNames)
    ensures requested == AdminRequests(peer, peers, adminPeerNames)
  {
    names, requested := [], map[];
    if peer.enabled {
      names := [LEGACY_ADMIN_PEER_KEY];
      requested := map[LEGACY_ADMIN_PEER_KEY := peer.wgIP];
    }
    ghost var head := names;
    for i := 0 to |adminPeerNames|
      invariant names == head + adminPeerNames[..i]
      invariant requested == AdminRequests(peer, peers, adminPeerNames[..i])
    {
      assert adminPeerNames[..i + 1][..i] == adminPeerNames[..i];
      names := names + [adminPeerNames[i]];
      requested := requested[adminPeerNames[i] := PeerOf(peers, adminPeerNames[i]).wgIP];
    }
    assert adminPeerNames[..|adminPeerNames|] == adminPeerNames;
  }

  // ----------------------------------------------------------------- key runs

  /** The key pairs handed to a list of owners, and how many draws were used up. */
  datatype KeyRun = KeyRun(pairs: seq<KeyPair>, next: nat)

  /** One owner: a given public key, else the stored private key, else a fresh pair. */
  function KeyFor(owner: string, given: string, stored: string, supply: Supply, derive: Derive, at: nat): Result<(KeyPair, nat), ExpandError> {
    if given != "" then Ok((KeyPair("", given), at))
    else if stored == "" then
      match supply.pair(at)
      case None => Err(NoKey(owner))
      case Some(p) => Ok((p, at + 1))
    else
      match derive(stored)
      case None => Err(BadStoredKey(owner))
      case Some(pub) => Ok((KeyPair(stored, pub), at))
  }

  function Keys(owners: seq<string>, given: map<string, string>, stored: map<string, string>, supply: Supply, derive: Derive, at: nat)
    : (r: Result<KeyRun, ExpandError>)
    ensures r.Ok? ==> |r.value.pairs| == |owners|
  {
    if owners == [] then Ok(KeyRun([], at)) else
      var last := owners[|owners| - 1];
      match Keys(owners[..|owners| - 1], given, stored, supply, derive, at)
      case Err(e) => Err(e)
      case Ok(front) =>
        match KeyFor(last, Lookup(given, last), Lookup(stored, last), supply, derive, front.next)
        case Err(e) => Err(e)
        case Ok(k) => Ok(KeyRun(front.pairs + [k.0], k.1))
  }

  lemma {:induction false} KeysFail(owners: seq<string>, k: nat, given: map<string, string>, stored: map<string, string>, supply: Supply, derive: Derive, at: nat)
    requires k <= |owners| && Keys(owners[..k], given, stored, supply, derive, at).Err?
    ensures Keys(owners, given, stored, supply, derive, at) == Keys(owners[..k], given, stored, supply, derive, at)
    decreases |owners|
  {
    if k < |owners| {
      var front := owners[..|owners| - 1];
      assert front[..k] == owners[..k];
      KeysFail(front, k, given, stored, supply, derive, at);
    } else {
      assert owners[..k] == owners;
    }
  }

  function Privs(pairs: seq<KeyPair>): (s: seq<string>)
    ensures |s| == |pairs|
  {
    seq(|pairs|, i requires 0 <= i < |pairs| => pairs[i].priv)
  }

  /** The private keys the provider must store: those of owners without a given public key. */
  function GeneratedKeys(owners: seq<string>, given: map<string, string>, pairs: seq<KeyPair>): map<string, string>
    requires |owners| == |pairs|
  {
    if owners == [] then map[] else
      var n := |owners| - 1;
      var front := GeneratedKeys(owners[..n], given, pairs[..n]);
      if Lookup(given, owners[n]) == "" then front[owners[n] := pairs[n].priv] else front
  }

  function Pubs(pairs: seq<KeyPair>): (s: seq<string>)
    ensures |s| == |pairs|
  {
    seq(|pairs|, i requires 0 <= i < |pairs| => pairs[i].pub)
  }

  function GivenKeys(peers: map<string, AdminPeerConfig>): map<string, string> { map n | n in peers :: peers[n].publicKey }

  // ---------------------------------------------------------------- expansion

  function TokenOf(plan: ClusterModel, prior: ClusterModel, supply: Supply): Option<string> {
    var token := ResolveToken(plan.k3s.token, OrDefault(prior.k3sToken, ""));
    if token == "" then supply.token else Some(token)
  }

  /** The configuration before addresses and keys are filled in. */
  ghost function BaseConfig(plan: ClusterModel, prior: ClusterModel, provider: SSHConfig, token: string): ClusterConfig {
    var peers := AdminPeerMap(plan.adminPeers);
    ClusterConfig(
      OrDefault(plan.name, ""),
      ZipMap(Identities(plan.nodes), NodeConfigs(plan.nodes, provider)),
      SortStrings(Identities(plan.nodes)),
      ExpandWireGuard(plan.wireGuard), plan.k3s, plan.firewall,
      ExpandAdminPeer(plan.adminPeer), peers, SortedKeys(peers.Keys), plan.dns, token,
      map[], OrDefault(prior.adminPrivate, ""), OrDefault(prior.adminPublic, ""), map[], map[])
  }

  function NodeAt(n: NodeConfig, ip: string, k: KeyPair): NodeConfig {
    n.(privateIP := ip, wireGuardPrivateKey := k.priv, wireGuardPublicKey := k.pub)
  }

  function PeerAt(p: AdminPeerConfig, ip: string, k: KeyPair): AdminPeerConfig {
    p.(wgIP := ip, privateKey := k.priv, publicKey := k.pub)
  }

  function FilledNodes(nodes: map<string, NodeConfig>, names: seq<string>, ips: map<string, string>, pairs: seq<KeyPair>): map<string, NodeConfig>
    requires |names| == |pairs|
  {
    if names == [] then nodes else
      var n := |names| - 1;
      var front := FilledNodes(nodes, names[..n], ips, pairs[..n]);
      front[names[n] := NodeAt(NodeOf(front, names[n]), Lookup(ips, names[n]), pairs[n])]
  }

  function FilledPeers(peers: map<string, AdminPeerConfig>, names: seq<string>, ips: map<string, string>, pairs: seq<KeyPair>): map<string, AdminPeerConfig>
    requires |names| == |pairs|
  {
    if names == [] then peers else
      var n := |names| - 1;
      var front := FilledPeers(peers, names[..n], ips, pairs[..n]);
      front[names[n] := PeerAt(PeerOf(front, names[n]), Lookup(ips, names[n]), pairs[n])]
  }

  /** The legacy admin peer's pair: stored, or fresh when it is enabled and nothing is stored. */
  function LegacyPair(base: ClusterConfig, supply: Supply, at: nat): Result<(KeyPair, nat), ExpandError> {
    if base.adminPeer.enabled && base.adminWGPriv == "" then
      match supply.pair(at)
      case None => Err(NoKey(LEGACY_ADMIN_PEER_KEY))
      case Some(p) => Ok((p, at + 1))
    else Ok((KeyPair(base.adminWGPriv, base.adminWGPub), at))
  }

  /** The configuration with all addresses and keys in place. */
  function Filled(base: ClusterConfig, ips: Assignments, nodePairs: seq<KeyPair>, legacy: KeyPair, adminPairs: seq<KeyPair>): ClusterConfig
    requires |nodePairs| == |base.nodeNames| && |adminPairs| == |base.adminPeerNames|
  {
    var given := GivenKeys(base.adminPeers);
    base.(
      nodes := FilledNodes(base.nodes, base.nodeNames, ips.nodeIPs, nodePairs),
      wgPrivateKeys := ZipMap(base.nodeNames, Privs(nodePairs)),
      adminPeer := if base.adminPeer.enabled then PeerAt(base.adminPeer, Lookup(ips.adminIPs, LEGACY_ADMIN_PEER_KEY), legacy) else base.adminPeer,
      adminWGPriv := legacy.priv,
      adminWGPub := legacy.pub,
      adminPeers := FilledPeers(base.adminPeers, base.adminPeerNames, ips.adminIPs, adminPairs),
      adminWGPrivateKeys := GeneratedKeys(base.adminPeerNames, given, adminPairs),
      adminWGPublicKeys := ZipMap(base.adminPeerNames, Pubs(adminPairs)))
  }

  function RequestsOf(base: ClusterConfig): map<string, string> { AdminRequests(base.adminPeer, base.adminPeers, base.adminPeerNames) }

  function AssignFor(base: ClusterConfig, lib: NetLib): Result<Assignments, AllocError> {
    Assign(lib.parseCidr(base.wireGuard.subnet), base.nodeNames, AdminNames(base.adminPeer, base.adminPeerNames), RequestsOf(base), lib)
  }

  function FillIn(base: ClusterConfig, stored: map<string, string>, storedAdmin: map<string, string>, supply: Supply, derive: Derive, lib: NetLib)
    : Result<ClusterConfig, ExpandError>
  {
    match AssignFor(base, lib)
    case Err(e) => Err(Addressing(e))
    case Ok(ips) =>
      match Keys(base.nodeNames, map[], stored, supply, derive, 0)
      case Err(e) => Err(e)
      case Ok(nodeRun) =>
        match LegacyPair(base, supply, nodeRun.next)
        case Err(e) => Err(e)
        case Ok(legacy) =>
          match Keys(base.adminPeerNames, GivenKeys(base.adminPeers), storedAdmin, supply, derive, legacy.1)
          case Err(e) => Err(e)
          case Ok(adminRun) => Ok(Filled(base, ips, nodeRun.pairs, legacy.0, adminRun.pairs))
  }

  /** The whole expansion, as a value. */
  ghost function Expand(plan: ClusterModel, prior: ClusterModel, provider: SSHConfig, supply: Supply, derive: Derive, lib: NetLib)
    : Result<ClusterConfig, ExpandError>
  {
    match TokenOf(plan, prior, supply)
    case None => Err(NoToken)
    case Some(token) =>
      var base := BaseConfig(plan, prior, provider, token);
      if !base.wireGuard.enabled then Ok(base)
      else FillIn(base, OrDefault(prior.wireGuardPrivateKeys, map[]), OrDefault(prior.adminPrivateKeys, map[]), supply, derive, lib)
  }

  // -------------------------------------------------------------- the program

  /** The first node loop: identities, names and SSH settings. */
  method ReadNodes(nodes: seq<NodeModel>, provider: SSHConfig) returns (table: map<string, NodeConfig>, names: seq<string>)
    ensures table == ZipMap(Identities(nodes), NodeConfigs(nodes, provider))
    ensures names == SortStrings(Identities(nodes))
  {
    hide ZipMap, NodeIdentity, NodeSSH, DefaultName, SortStrings;
    table, names := map[], [];
    assert ZipMap([], NodeConfigs([], provider)) == map[];
    for i := 0 to |nodes|
      invariant names == Identities(nodes)[..i]
      invariant table == ZipMap(Identities(nodes)[..i], NodeConfigs(nodes, provider)[..i])
    {
      var n := nodes[i];
      var hostname := OrDefault(n.hostname, "");
      var key := NodeIdentity(n, i);
      var name := if hostname != "" then hostname else DefaultName(i);
      var entry := NodeConfig(key, name, OrDefault(n.publicIP, ""), "", OrDefault(n.role, ""), hostname, "", "", NodeSSH(n, provider));
      ZipMapSnoc(Identities(nodes), NodeConfigs(nodes, provider), i);
      table, names := table[key := entry], names + [key];
    }
    assert Identities(nodes)[..|nodes|] == Identities(nodes);
    assert NodeConfigs(nodes, provider)[..|nodes|] == NodeConfigs(nodes, provider);
    names := SortStrings(names);
  }

  /** One more owner in a key run. */
  lemma KeysStep(owners: seq<string>, i: nat, given: map<string, string>, stored: map<string, string>, supply: Supply, derive: Derive, at: nat, run: KeyRun)
    requires i < |owners| && Keys(owners[..i], given, stored, supply, derive, at) == Ok(run)
    ensures var k := KeyFor(owners[i], Lookup(given, owners[i]), Lookup(stored, owners[i]), supply, derive, run.next);
            && (k.Err? ==> Keys(owners, given, stored, supply, derive, at) == Err(k.error))
            && (k.Ok? ==> Keys(owners[..i + 1], given, stored, supply, derive, at) == Ok(KeyRun(run.pairs + [k.value.0], k.value.1)))
  {
    hide KeyFor;
    assert owners[..i + 1][..i] == owners[..i];
    if KeyFor(owners[i], Lookup(given, owners[i]), Lookup(stored, owners[i]), supply, derive, run.next).Err? {
      KeysFail(owners, i + 1, given, stored, supply, derive, at);
    }
  }

  /** Draws a fresh pair, or derives the public half of a stored key. */
  method ObtainKey(owner: string, stored: string, supply: Supply, derive: Derive, at: nat) returns (r: Result<(KeyPair, nat), ExpandError>)
    ensures r == KeyFor(owner, "", stored, supply, derive, at)
  {
    if stored == "" {
      var drawn := supply.pair(at);
      if drawn.None? { return Err(NoKey(owner)); }
      return Ok((drawn.value, at + 1));
    }
    var derived := derive(stored);
    if derived.None? { return Err(BadStoredKey(owner)); }
    r := Ok((KeyPair(stored, derived.value), at));
  }

  lemma FilledNodesStep(nodes: map<string, NodeConfig>, names: seq<string>, i: nat, ips: map<string, string>, pairs: seq<KeyPair>, pair: KeyPair)
    requires i < |names| && |pairs| == i
    ensures var front := FilledNodes(nodes, names[..i], ips, pairs);
            FilledNodes(nodes, names[..i + 1], ips, pairs + [pair])
            == front[names[i] := NodeAt(NodeOf(front, names[i]), Lookup(ips, names[i]), pair)]
    ensures ZipMap(names[..i + 1], Privs(pairs + [pair])) == ZipMap(names[..i], Privs(pairs))[names[i] := pair.priv]
  {
    assert names[..i + 1][..i] == names[..i];
    assert (pairs + [pair])[..i] == pairs;
    assert Privs(pairs + [pair])[..i] == Privs(pairs);
  }

  /** The second node loop: addresses and keys. */
  method FillNodes(base: ClusterConfig, ips: map<string, string>, stored: map<string, string>, supply: Supply, derive: Derive)
    returns (r: Result<(map<string, NodeConfig>, map<string, string>, nat), ExpandError>)
    ensures var spec := Keys(base.nodeNames, map[], stored, supply, derive, 0);
            && (spec.Err? ==> r == Err(spec.error))
            && (spec.Ok? ==> r == Ok((FilledNodes(base.nodes, base.nodeNames, ips, spec.value.pairs),
                                      ZipMap(base.nodeNames, Privs(spec.value.pairs)), spec.value.next)))
  {
    hide KeyFor, Keys, FilledNodes, ZipMap;
    var names := base.nodeNames;
    var nodes, keys, next := base.nodes, map[], 0;
    ghost var pairs: seq<KeyPair> := [];
    FillNone(base, ips, map[], stored, supply, derive, 0);
    for i := 0 to |names|
      invariant Keys(names[..i], map[], stored, supply, derive, 0) == Ok(KeyRun(pairs, next))
      invariant nodes == FilledNodes(base.nodes, names[..i], ips, pairs)
      invariant keys == ZipMap(names[..i], Privs(pairs))
    {
      var key := names[i];
      KeysStep(names, i, map[], stored, supply, derive, 0, KeyRun(pairs, next));
      var k := ObtainKey(key, Lookup(stored, key), supply, derive, next);
      if k.Err? { return Err(k.error); }
      FilledNodesStep(base.nodes, names, i, ips, pairs, k.value.0);
      keys := keys[key := k.value.0.priv];
      nodes := nodes[key := NodeAt(NodeOf(nodes, key), Lookup(ips, key), k.value.0)];
      pairs, next := pairs + [k.value.0], k.value.1;
    }
    assert names[..|names|] == names;
    r := Ok((nodes, keys, next));
  }

  /** Nothing is filled in before the first round of a loop. */
  lemma FillNone(base: ClusterConfig, ips: map<string, string>, given: map<string, string>, stored: map<string, string>, supply: Supply, derive: Derive, at: nat)
    ensures Keys([], given, stored, supply, derive, at) == Ok(KeyRun([], at))
    ensures FilledNodes(base.nodes, [], ips, []) == base.nodes
    ensures FilledPeers(base.adminPeers, [], ips, []) == base.adminPeers
    ensures GeneratedKeys([], given, []) == map[]
    ensures ZipMap([], Privs([])) == map[] && ZipMap([], Pubs([])) == map[]
  {
  }

  /** The public keys of the listed peers are the given ones. */
  predicate PeersAgree(peers: map<string, AdminPeerConfig>, given: map<string, string>, names: seq<string>) {
    forall k :: k in names ==> PeerOf(peers, k).publicKey == Lookup(given, k)
  }

  lemma PeersStillAgree(peers: map<string, AdminPeerConfig>, given: map<string, string>, names: seq<string>, p: AdminPeerConfig)
    requires names != [] && Distinct(names) && PeersAgree(peers, given, names)
    ensures PeersAgree(peers[names[0] := p], given, names[1..])
  {
    forall k | k in names[1..] ensures PeerOf(peers[names[0] := p], k).publicKey == Lookup(given, k) {
      assert k in names && k != names[0];
    }
  }

  lemma FilledPeersStep(peers: map<string, AdminPeerConfig>, names: seq<string>, i: nat, ips: map<string, string>, given: map<string, string>, pairs: seq<KeyPair>, pair: KeyPair)
    requires i < |names| && |pairs| == i
    ensures var front := FilledPeers(peers, names[..i], ips, pairs);
            FilledPeers(peers, names[..i + 1], ips, pairs + [pair])
            == front[names[i] := PeerAt(PeerOf(front, names[i]), Lookup(ips, names[i]), pair)]
    ensures ZipMap(names[..i + 1], Pubs(pairs + [pair])) == ZipMap(names[..i], Pubs(pairs))[names[i] := pair.pub]
    ensures var front := GeneratedKeys(names[..i], given, pairs);
            GeneratedKeys(names[..i + 1], given, pairs + [pair]) == if Lookup(given, names[i]) == "" then front[names[i] := pair.priv] else front
  {
    assert names[..i + 1][..i] == names[..i];
    assert (pairs + [pair])[..i] == pairs;
    assert Pubs(pairs + [pair])[..i] == Pubs(pairs);
  }

  /** An admin peer brings its own public key, or gets a pair whose private half is stored. */
  method PeerKey(owner: string, publicKey: string, stored: string, supply: Supply, derive: Derive, at: nat) returns (r: Result<(KeyPair, nat), ExpandError>)
    ensures r == KeyFor(owner, publicKey, stored, supply, derive, at)
  {
    if publicKey == "" {
      r := ObtainKey(owner, stored, supply, derive, at);
    } else {
      r := Ok((KeyPair("", publicKey), at));
    }
  }

  /** The admin-peer loop: addresses, and keys where none was given. */
  method FillPeers(base: ClusterConfig, ips: map<string, string>, stored: map<string, string>, supply: Supply, derive: Derive, at: nat)
    returns (r: Result<(map<string, AdminPeerConfig>, map<string, string>, map<string, string>), ExpandError>)
    requires Distinct(base.adminPeerNames)
    ensures var given := GivenKeys(base.adminPeers);
            var spec := Keys(base.adminPeerNames, given, stored, supply, derive, at);
            && (spec.Err? ==> r == Err(spec.error))
            && (spec.Ok? ==> r == Ok((FilledPeers(base.adminPeers, base.adminPeerNames, ips, spec.value.pairs),
                                      GeneratedKeys(base.adminPeerNames, given, spec.value.pairs),
                                      ZipMap(base.adminPeerNames, Pubs(spec.value.pairs)))))
  {
    hide KeyFor, Keys, FilledPeers, GeneratedKeys, ZipMap;
    var names := base.adminPeerNames;
    ghost var given := GivenKeys(base.adminPeers);
    var peers, privs, pubs, next := base.adminPeers, map[], map[], at;
    ghost var pairs: seq<KeyPair> := [];
    FillNone(base, ips, given, stored, supply, derive, at);
    for i := 0 to |names|
      invariant Keys(names[..i], given, stored, supply, derive, at) == Ok(KeyRun(pairs, next))
      invariant peers == FilledPeers(base.adminPeers, names[..i], ips, pairs)
      invariant privs == GeneratedKeys(names[..i], given, pairs)
      invariant pubs == ZipMap(names[..i], Pubs(pairs))
      invariant PeersAgree(peers, given, names[i..])
    {
      var name := names[i];
      var peer := PeerOf(peers, name);
      KeysStep(names, i, given, stored, supply, derive, at, KeyRun(pairs, next));
      assert name == names[i..][0] && names[i..][1..] == names[i + 1..];
      var k := PeerKey(name, peer.publicKey, Lookup(stored, name), supply, derive, next);
      if k.Err? { return Err(k.error); }
      FilledPeersStep(base.adminPeers, names, i, ips, given, pairs, k.value.0);
      if peer.publicKey == "" { privs := privs[name := k.value.0.priv]; }
      pubs := pubs[name := k.value.0.pub];
      PeersStillAgree(peers, given, names[i..], PeerAt(peer, Lookup(ips, name), k.value.0));
      peers := peers[name := PeerAt(peer, Lookup(ips, name), k.value.0)];
      pairs, next := pairs + [k.value.0], k.value.1;
    }
    assert names[..|names|] == names;
    r := Ok((peers, privs, pubs));
  }

  /** The WireGuard part of `expandClusterConfig`. */
  method FillAll(base: ClusterConfig, stored: map<string, string>, storedAdmin: map<string, string>, supply: Supply, derive: Derive, lib: NetLib)
    returns (r: Result<ClusterConfig, ExpandError>)
    requires Distinct(base.adminPeerNames)
    ensures r == FillIn(base, stored, storedAdmin, supply, derive, lib)
  {
    hide Keys, Assign, FilledNodes, FilledPeers, GeneratedKeys, ZipMap;
    var adminNames, requested := AdminPeerIPRequests(base.adminPeer, base.adminPeers, base.adminPeerNames);
    var assigned_ := AssignWireGuardIPs(lib.parseCidr(base.wireGuard.subnet), base.nodeNames, adminNames, requested, lib);
    if assigned_.Err? { return Err(Addressing(assigned_.error)); }
    var ips := assigned_.value;
    var filled := FillNodes(base, ips.nodeIPs, stored, supply, derive);
    if filled.Err? { return Err(filled.error); }
    var (nodes, keys, next) := filled.value;
    var legacy, at := KeyPair(base.adminWGPriv, base.adminWGPub), next;
    if base.adminPeer.enabled && base.adminWGPriv == "" {
      var drawn := supply.pair(next);
      if drawn.None? { return Err(NoKey(LEGACY_ADMIN_PEER_KEY)); }
      legacy, at := drawn.value, next + 1;
    }
    var peerRun := FillPeers(base, ips.adminIPs, storedAdmin, supply, derive, at);
    if peerRun.Err? { return Err(peerRun.error); }
    var (peers, privs, pubs) := peerRun.value;
    var admin := base.adminPeer;
    if admin.enabled {
      admin := admin.(wgIP := Lookup(ips.adminIPs, LEGACY_ADMIN_PEER_KEY), privateKey := legacy.priv, publicKey := legacy.pub);
    }
    r := Ok(base.(nodes := nodes, wgPrivateKeys := keys, adminPeer := admin, adminWGPriv := legacy.priv, adminWGPub := legacy.pub,
                  adminPeers := peers, adminWGPrivateKeys := privs, adminWGPublicKeys := pubs));
  }

  /** `expandClusterConfig`: the program meets the specification. */
  method ExpandClusterConfig(plan: ClusterModel, prior: ClusterModel, provider: SSHConfig, supply: Supply, derive: Derive, lib: NetLib)
    returns (r: Result<ClusterConfig, ExpandError>)
    ensures r == Expand(plan, prior, provider, supply, derive, lib)
  {
    hide FillIn, ZipMap, AdminPeerMap;
    var peers, peerNames := ExpandAdminPeers(plan.adminPeers);
    var token := ResolveToken(plan.k3s.token, OrDefault(prior.k3sToken, ""));
    if token == "" {
      if supply.token.None? { return Err(NoToken); }
      token := supply.token.value;
    }
    var nodes, names := ReadNodes(plan.nodes, provider);
    var base := ClusterConfig(
      OrDefault(plan.name, ""), nodes, names, ExpandWireGuard(plan.wireGuard), plan.k3s, plan.firewall,
      ExpandAdminPeer(plan.adminPeer), peers, peerNames, plan.dns, token,
      map[], OrDefault(prior.adminPrivate, ""), OrDefault(prior.adminPublic, ""), map[], map[]);
    if !base.wireGuard.enabled { return Ok(base); }
    r := FillAll(base, OrDefault(prior.wireGuardPrivateKeys, map[]), OrDefault(prior.adminPrivateKeys, map[]), supply, derive, lib);
  }

  // ------------------------------------------------------------ back to state

  /** What the apply run contributes to the state. */
  datatype Outputs = Outputs(kubeconfig: string, serverURL: string, statuses: map<string, string>)

  function NodeStateOf(n: NodeConfig, input: NodeModel, status: string): NodeModel {
    NodeModel(Known(n.publicIP), Known(n.role), input.hostname, input.sshUser, input.sshPort, input.sshPassword,
              input.sshPrivateKey, input.sshPrivateKeyPath, Known(n.name), NullOrString(n.privateIP),
              NullOrString(n.wireGuardPublicKey), Known(status))
  }

  function ModelOf(models: map<string, NodeModel>, key: string): NodeModel { if key in models then models[key] else NULL_NODE }

  function NodeStates(cfg: ClusterConfig, models: map<string, NodeModel>, names: seq<string>, statuses: map<string, string>): (s: seq<NodeModel>)
    ensures |s| == |names|
  {
    seq(|names|, i requires 0 <= i < |names| =>
      NodeStateOf(NodeOf(cfg.nodes, names[i]), ModelOf(models, names[i]), Lookup(statuses, names[i])))
  }

  function PlanNodes(plan: ClusterModel): map<string, NodeModel> { ZipMap(Identities(plan.nodes), plan.nodes) }

  function ToState(cfg: ClusterConfig, plan: ClusterModel, out: Outputs): ClusterModel {
    plan.(
      id := Known(cfg.name), kubeconfig := Known(out.kubeconfig), serverURL := Known(out.serverURL),
      wireGuardEnabled := Known(cfg.wireGuard.enabled), firewallEnabled := Known(cfg.firewall.enabled),
      k3sToken := Known(cfg.k3sToken), adminPrivate := NullOrString(cfg.adminWGPriv), adminPublic := NullOrString(cfg.adminWGPub),
      adminPrivateKeys := Known(cfg.adminWGPrivateKeys), adminPublicKeys := Known(cfg.adminWGPublicKeys),
      wireGuardPrivateKeys := Known(cfg.wgPrivateKeys),
      nodes := NodeStates(cfg, PlanNodes(plan), cfg.nodeNames, out.statuses))
  }

  /** `clusterToState`. */
  method ClusterToState(cfg: ClusterConfig, plan: ClusterModel, out: Outputs) returns (state: ClusterModel)
    ensures state == ToState(cfg, plan, out)
  {
    hide ZipMap, NodeStateOf, Identities;
    var planNodes := ReadPlanNodes(plan);
    var nodes: seq<NodeModel> := [];
    for i := 0 to |cfg.nodeNames|
      invariant nodes == NodeStates(cfg, planNodes, cfg.nodeNames, out.statuses)[..i]
    {
      var key := cfg.nodeNames[i];
      nodes := nodes + [NodeStateOf(NodeOf(cfg.nodes, key), ModelOf(planNodes, key), Lookup(out.statuses, key))];
    }
    state := plan.(
      id := Known(cfg.name), kubeconfig := Known(out.kubeconfig), serverURL := Known(out.serverURL),
      wireGuardEnabled := Known(cfg.wireGuard.enabled), firewallEnabled := Known(cfg.firewall.enabled),
      k3sToken := Known(cfg.k3sToken), adminPrivate := NullOrString(cfg.adminWGPriv), adminPublic := NullOrString(cfg.adminWGPub),
      adminPrivateKeys := Known(cfg.adminWGPrivateKeys), adminPublicKeys := Known(cfg.adminWGPublicKeys),
      wireGuardPrivateKeys := Known(cfg.wgPrivateKeys), nodes := nodes);
  }

  /** The plan's nodes by identity. */
  method ReadPlanNodes(plan: ClusterModel) returns (planNodes: map<string, NodeModel>)
    ensures planNodes == PlanNodes(plan)
  {
    hide NodeIdentity;
    planNodes := map[];
    for i := 0 to |plan.nodes|
      invariant planNodes == ZipMap(Identities(plan.nodes)[..i], plan.nodes[..i])
    {
      assert Identities(plan.nodes)[..i + 1][..i] == Identities(plan.nodes)[..i];
      assert plan.nodes[..i + 1][..i] == plan.nodes[..i];
      planNodes := planNodes[NodeIdentity(plan.nodes[i], i) := plan.nodes[i]];
    }
    assert Identities(plan.nodes)[..|plan.nodes|] == Identities(plan.nodes);
    assert plan.nodes[..|plan.nodes|] == plan.nodes;
  }
}

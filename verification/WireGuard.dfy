/**
 WireGuard on one node: the rendered configurations, the test that decides between a restart
 and an in-place `wg syncconf`, and the configuration step.
 */
module WireGuard {
  import opened Wrappers
  import opened Text
  import opened Addresses
  import opened Config
  import opened Remote

  // ------------------------------------------------------------ configurations

  datatype Endpoint = NoEndpoint | Endpoint(host: string, port: int)

  /** A [Peer] section.  `allowed` is the single address, always with prefix /32. */
  datatype Peer = Peer(publicKey: string, allowed: string, endpoint: Endpoint)

  datatype Conf = Conf(privateKey: string, address: string, listenPort: Option<int>, mtu: int, peers: seq<Peer>)

  function NodePeer(cfg: ClusterConfig, n: NodeConfig): Peer {
    Peer(n.wireGuardPublicKey, n.privateIP, Endpoint(n.publicIP, cfg.wireGuard.port))
  }

  function AdminPeer(p: AdminPeerConfig): Peer { Peer(p.publicKey, p.wgIP, NoEndpoint) }

  /** The sections for all listed nodes except the one with key `self`. */
  function OtherNodes(cfg: ClusterConfig, self: Option<string>, names: seq<string>): seq<Peer> {
    if names == [] then [] else
      var front, n := OtherNodes(cfg, self, names[..|names| - 1]), NodeOf(cfg.nodes, names[|names| - 1]);
      if self == Some(n.key) then front else front + [NodePeer(cfg, n)]
  }

  function AdminSections(cfg: ClusterConfig, names: seq<string>): seq<Peer> {
    if names == [] then [] else
      AdminSections(cfg, names[..|names| - 1]) + [AdminPeer(PeerOf(cfg.adminPeers, names[|names| - 1]))]
  }

  function LegacySection(cfg: ClusterConfig): seq<Peer> {
    if cfg.adminPeer.enabled then [AdminPeer(cfg.adminPeer)] else []
  }

  function NodeConf(cfg: ClusterConfig, node: NodeConfig): Conf {
    Conf(node.wireGuardPrivateKey, node.privateIP, Some(cfg.wireGuard.port), cfg.wireGuard.mtu,
         OtherNodes(cfg, Some(node.key), cfg.nodeNames) + LegacySection(cfg) + AdminSections(cfg, cfg.adminPeerNames))
  }

  /** The client configuration of an admin peer whose private key the provider holds. */
  function AdminConf(cfg: ClusterConfig, peer: AdminPeerConfig): Conf {
    Conf(peer.privateKey, peer.wgIP, None, cfg.wireGuard.mtu, OtherNodes(cfg, None, cfg.nodeNames))
  }

  /** `renderNodeWireGuardConfig`. */
  method RenderNodeConf(cfg: ClusterConfig, node: NodeConfig) returns (c: Conf)
    ensures c == NodeConf(cfg, node)
  {
    hide NodePeer, AdminPeer;
    var peers := [];
    var names := cfg.nodeNames;
    for i := 0 to |names|
      invariant peers == OtherNodes(cfg, Some(node.key), names[..i])
    {
      assert names[..i + 1][..i] == names[..i];
      var peer := NodeOf(cfg.nodes, names[i]);
      if peer.key == node.key { continue; }
      peers := peers + [NodePeer(cfg, peer)];
    }
    assert names[..|names|] == names;
    if cfg.adminPeer.enabled { peers := peers + [AdminPeer(cfg.adminPeer)]; }
    ghost var before := peers;
    var admins := cfg.adminPeerNames;
    for i := 0 to |admins|
      invariant peers == before + AdminSections(cfg, admins[..i])
    {
      assert admins[..i + 1][..i] == admins[..i];
      peers := peers + [AdminPeer(PeerOf(cfg.adminPeers, admins[i]))];
    }
    assert admins[..|admins|] == admins;
    c := Conf(node.wireGuardPrivateKey, node.privateIP, Some(cfg.wireGuard.port), cfg.wireGuard.mtu, peers);
  }

  /** `renderAdminPeerConfig`, and `renderAdminWireGuardConfig` for an enabled legacy peer. */
  method RenderAdminConf(cfg: ClusterConfig, peer: AdminPeerConfig) returns (c: Option<Conf>)
    ensures c == if peer.privateKey == "" || peer.wgIP == "" then None else Some(AdminConf(cfg, peer))
  {
    if peer.privateKey == "" || peer.wgIP == "" { return None; }
    var peers := [];
    var names := cfg.nodeNames;
    for i := 0 to |names|
      invariant peers == OtherNodes(cfg, None, names[..i])
    {
      assert names[..i + 1][..i] == names[..i];
      peers := peers + [NodePeer(cfg, NodeOf(cfg.nodes, names[i]))];
    }
    assert names[..|names|] == names;
    c := Some(Conf(peer.privateKey, peer.wgIP, None, cfg.wireGuard.mtu, peers));
  }

  /** `renderAdminWireGuardConfigs`: one configuration for every peer with a generated key. */
  method RenderAdminConfs(cfg: ClusterConfig) returns (out: Option<map<string, Conf>>)
    ensures out.None? <==> exists k :: k in cfg.adminPeerNames && PeerOf(cfg.adminPeers, k).privateKey != ""
                                       && PeerOf(cfg.adminPeers, k).wgIP == ""
    ensures out.Some? ==> forall k :: k in out.value <==> k in cfg.adminPeerNames && PeerOf(cfg.adminPeers, k).privateKey != ""
    ensures out.Some? ==> forall k :: k in out.value ==> out.value[k] == AdminConf(cfg, PeerOf(cfg.adminPeers, k))
  {
    hide OtherNodes;
    var m: map<string, Conf> := map[];
    var names := cfg.adminPeerNames;
    for i := 0 to |names|
      invariant forall k :: k in m <==> k in names[..i] && PeerOf(cfg.adminPeers, k).privateKey != ""
      invariant forall k :: k in m ==> m[k] == AdminConf(cfg, PeerOf(cfg.adminPeers, k)) && PeerOf(cfg.adminPeers, k).wgIP != ""
    {
      var peer := PeerOf(cfg.adminPeers, names[i]);
      assert names[..i + 1] == names[..i] + [names[i]];
      if peer.privateKey == "" { continue; }
      var conf := RenderAdminConf(cfg, peer);
      if conf.None? { return None; }
      m := m[names[i] := conf.value];
    }
    assert names[..|names|] == names;
    out := Some(m);
  }

  // ------------------------------------------------------------ restart or sync

  /** A live interface. */
  datatype Live = Live(privateKey: string, listenPort: Option<int>, peers: seq<Peer>, addr: Addr, prefix: nat, mtu: int)

  /** The parts of `ip -o` output that the live interface does not determine. */
  datatype LinkEnv = LinkEnv(index: nat, flags: string, tail: seq<string>)

  predicate IfaceName(iface: string) { iface != [] && ' ' !in iface }

  predicate LinkEnvOk(env: LinkEnv) {
    && env.flags != [] && env.flags[0] == '<' && ' ' !in env.flags
    && env.tail != [] && Without(env.tail, ' ')
    && "inet" !in env.tail && "mtu" !in env.tail
  }

  function CidrText(addr: Addr, prefix: nat): string { Dotted(addr) + "/" + Decimal(prefix) }

  /** The space-separated fields of `ip -o -4 addr show` followed by `ip -o link show`. */
  function LinkFields(iface: string, live: Live, env: LinkEnv): seq<string> {
    [Decimal(env.index) + ":", iface, "", "", "", "inet", CidrText(live.addr, live.prefix), "scope", "global", iface + "\\",
     "", "", "", "", "", "", "valid_lft", "forever", "preferred_lft",
     "forever\n" + Decimal(env.index) + ":", iface + ":", env.flags, "mtu", IntText(live.mtu)] + env.tail
  }

  function LinkOutput(iface: string, live: Live, env: LinkEnv): string { Join(LinkFields(iface, live, env), " ") }

  /** `wireGuardNeedsRestart`. */
  ghost predicate NeedsRestart(active: bool, link: string, privateIP: string, mtu: int) {
    !active || !Contains(link, " inet " + privateIP + "/32 ") || !Contains(link, " mtu " + IntText(mtu) + " ")
  }

  lemma DottedWithout(a: Addr, c: char)
    requires !QuadChar(c)
    ensures c !in Dotted(a)
  {
    DottedChars(a);
  }

  /** No shorter or longer address or prefix has the same text. */
  lemma CidrTextInjective(a: Addr, p: nat, b: Addr)
    ensures CidrText(a, p) == Dotted(b) + "/32" <==> a == b && p == 32
  {
    hide Dotted, Split;
    assert Decimal(32) == "32" by { assert Decimal(3) == "3"; }
    if CidrText(a, p) == Dotted(b) + "/32" {
      CidrFields(a, p);
      CidrFields(b, 32);
      assert Dotted(b) + "/" + Decimal(32) == Dotted(b) + "/32";
      assert [Dotted(a), Decimal(p)][0] == Dotted(b) && [Dotted(a), Decimal(p)][1] == Decimal(32);
      DottedInjective(a, b);
      DecimalInjective(p, 32);
    }
  }

  lemma CidrFields(a: Addr, p: nat)
    ensures Split(CidrText(a, p), '/') == [Dotted(a), Decimal(p)]
  {
    hide Dotted, Decimal;
    DottedWithout(a, '/');
    DigitsExclude(Decimal(p), '/');
    SplitAppend(Dotted(a), '/', Decimal(p));
    SplitPlain(Dotted(a), '/');
    SplitPlain(Decimal(p), '/');
  }

  lemma IntTextWithout(n: int, c: char)
    requires !IsDigit(c) && c != '-'
    ensures c !in IntText(n) && IntText(n) != []
  {
    DigitsExclude(Decimal(if n < 0 then -n else n), c);
  }

  lemma FieldsWithoutSpace(iface: string, live: Live, env: LinkEnv)
    requires IfaceName(iface) && LinkEnvOk(env)
    ensures Without(LinkFields(iface, live, env), ' ')
  {
    hide Dotted, Decimal, IntText;
    DottedWithout(live.addr, ' ');
    DigitsExclude(Decimal(live.prefix), ' ');
    DigitsExclude(Decimal(env.index), ' ');
    IntTextWithout(live.mtu, ' ');
    assert ' ' !in CidrText(live.addr, live.prefix);
  }

  /** Where the words `inet` and `mtu` can stand in the output. */
  lemma WordPositions(iface: string, live: Live, env: LinkEnv, k: nat)
    requires IfaceName(iface) && LinkEnvOk(env) && k < |LinkFields(iface, live, env)|
    ensures LinkFields(iface, live, env)[k] == "inet" ==> k == 5 || k == 1
    ensures LinkFields(iface, live, env)[k] == "mtu" ==> k == 22 || k == 1
  {
    hide Dotted, Decimal, IntText;
    var f, n := LinkFields(iface, live, env), 24;
    if k >= n {
      assert f[k] == env.tail[k - n];
    } else if k == 0 || k == 6 || k == 19 || k == 23 {
      DigitTexts(live, env, "inet");
      DigitTexts(live, env, "mtu");
    } else if k == 9 || k == 20 {
      assert f[9][|iface|] == '\\' && f[20][|iface|] == ':';
      assert f[9][|f[9]| - 1] == '\\' && f[20][|f[20]| - 1] == ':';
      assert "inet"[3] == 't' && "mtu"[2] == 'u';
    }
  }

  lemma DigitTexts(live: Live, env: LinkEnv, w: string)
    requires w == "inet" || w == "mtu"
    ensures Decimal(env.index) + ":" != w && CidrText(live.addr, live.prefix) != w
    ensures "forever\n" + Decimal(env.index) + ":" != w && IntText(live.mtu) != w
  {
    hide Dotted, Decimal, IntText;
    DottedChars(live.addr);
    IntTextWithout(live.mtu, 'i');
    IntTextWithout(live.mtu, 'm');
    assert (Decimal(env.index) + ":")[0] == Decimal(env.index)[0];
    assert CidrText(live.addr, live.prefix)[0] == Dotted(live.addr)[0];
    assert ("forever\n" + Decimal(env.index) + ":")[0] == 'f';
    assert "inet"[0] == 'i' && "mtu"[0] == 'm';
    assert 'i' in "inet" && 'm' in "mtu";
  }

  /**
   Given output printed from a live interface, a restart is needed exactly when the service is
   not active or the address, the /32 prefix or the MTU differs from the target.
   */
  lemma NeedsRestartIff(active: bool, iface: string, live: Live, env: LinkEnv, addr: Addr, mtu: int)
    requires IfaceName(iface) && LinkEnvOk(env)
    ensures NeedsRestart(active, LinkOutput(iface, live, env), Dotted(addr), mtu)
            <==> !(active && live.addr == addr && live.prefix == 32 && live.mtu == mtu)
  {
    hide Dotted, Decimal, IntText, Split, LinkFields;
    var link, f := LinkOutput(iface, live, env), LinkFields(iface, live, env);
    var u, v := Dotted(addr) + "/32", IntText(mtu);
    DottedWithout(addr, ' ');
    IntTextWithout(mtu, ' ');
    FieldsWithoutSpace(iface, live, env);
    SplitJoin(f, ' ') by { FieldsNonEmpty(iface, live, env); }
    ContainsWords(link, "inet", u);
    ContainsWords(link, "mtu", v);
    assert " inet " + Dotted(addr) + "/32 " == " " + "inet" + " " + u + " ";
    assert " mtu " + IntText(mtu) + " " == " " + "mtu" + " " + v + " ";
    InnerFields(iface, live, env, u, v);
    CidrTextInjective(live.addr, live.prefix, addr);
    if IntText(live.mtu) == v { IntTextInjective(live.mtu, mtu); }
  }

  lemma FieldsNonEmpty(iface: string, live: Live, env: LinkEnv)
    ensures LinkFields(iface, live, env) != []
  {
  }

  lemma InnerFields(iface: string, live: Live, env: LinkEnv, u: string, v: string)
    requires IfaceName(iface) && LinkEnvOk(env) && u != [] && v != []
    ensures AdjacentInner(LinkFields(iface, live, env), "inet", u) <==> CidrText(live.addr, live.prefix) == u
    ensures AdjacentInner(LinkFields(iface, live, env), "mtu", v) <==> IntText(live.mtu) == v
  {
    hide Dotted, Decimal, IntText, CidrText;
    var f := LinkFields(iface, live, env);
    assert |f| >= 25 && f[2] == "" && f[5] == "inet" && f[6] == CidrText(live.addr, live.prefix);
    assert f[22] == "mtu" && f[23] == IntText(live.mtu);
    forall k | 0 < k < |f| - 2 ensures f[k] == "inet" ==> k == 5 || f[k + 1] == "" { WordPositions(iface, live, env, k); }
    forall k | 0 < k < |f| - 2 ensures f[k] == "mtu" ==> k == 22 || f[k + 1] == "" { WordPositions(iface, live, env, k); }
  }

  // ------------------------------------------------------- the configuration step

  /** The WireGuard part of a node: its conf file, the wg-quick service, the live interface. */
  datatype WireGuardState = WireGuardState(file: Option<Conf>, active: bool, live: Option<Live>, restarts: nat)

  /** The interface that wg-quick brings up from a conf file. */
  function LiveOf(c: Conf, addr: Addr): Live { Live(c.privateKey, c.listenPort, c.peers, addr, 32, c.mtu) }

  /** `systemctl restart wg-quick@...`: one that fails on the node leaves no interface. */
  function RestartInterface(w: WireGuardState, c: Conf, addr: Addr, net: Net, t: nat): Step<WireGuardState> {
    var up := w.(active := true, live := Some(LiveOf(c, addr)), restarts := w.restarts + 1);
    match net.step(t)
    case Done => Step(up, t + 1, true)
    case Lost => Step(w, t + 1, false)
    case Failed => Step(w.(active := false, live := None), t + 1, false)
    case Unseen => Step(up, t + 1, false)
  }

  /** `wg syncconf`: keys, port and peers change in place; it needs a live interface. */
  function SyncConf(w: WireGuardState, c: Conf, net: Net, t: nat): Step<WireGuardState> {
    if w.live.None? then Step(w, t + 1, false) else
      Do(w, w.(live := Some(w.live.value.(privateKey := c.privateKey, listenPort := c.listenPort, peers := c.peers))), net, t)
  }

  /** What the node prints for the interface; nothing when there is none. */
  function Shown(w: WireGuardState, iface: string, env: LinkEnv): string {
    if w.live.Some? then LinkOutput(iface, w.live.value, env) else ""
  }

  /** One call of `configureWireGuard` for a conf whose address prints `addr`. */
  ghost function Configure(w: WireGuardState, iface: string, c: Conf, addr: Addr, env: LinkEnv, net: Net, t: nat): Step<WireGuardState> {
    var packages := Do(w, w, net, t);
    if !packages.ok then packages else
      var written := Do(w, w.(file := Some(c)), net, t + 1);
      if !written.ok then written else
        var active := net.answers(t + 2) && w.active;
        var link := if net.answers(t + 3) then Shown(w, iface, env) else "";
        if NeedsRestart(active, link, c.address, c.mtu) then RestartInterface(written.state, c, addr, net, t + 4)
        else SyncConf(written.state, c, net, t + 4)
  }

  predicate InPlace(w: WireGuardState, c: Conf, addr: Addr) {
    w.file == Some(c) && w.active && w.live == Some(LiveOf(c, addr))
  }

  /** The interface can be kept: it is up with the right address, prefix and MTU. */
  predicate Kept(w: WireGuardState, c: Conf, addr: Addr) {
    w.active && w.live.Some? && w.live.value.addr == addr && w.live.value.prefix == 32 && w.live.value.mtu == c.mtu
  }

  lemma {:induction false} EmptyHasNothing(pat: string)
    requires pat != []
    ensures !Contains("", pat)
  {
  }

  /** The step restarts the interface exactly when it cannot be kept or a query goes unanswered. */
  lemma RestartIff(w: WireGuardState, iface: string, c: Conf, addr: Addr, env: LinkEnv, net: Net, t: nat)
    requires IfaceName(iface) && LinkEnvOk(env) && c.address == Dotted(addr)
    ensures NeedsRestart(net.answers(t + 2) && w.active, if net.answers(t + 3) then Shown(w, iface, env) else "", c.address, c.mtu)
            <==> !(net.answers(t + 2) && net.answers(t + 3) && Kept(w, c, addr))
  {
    hide Dotted, IntText, LinkFields;
    var active := net.answers(t + 2) && w.active;
    if net.answers(t + 3) && w.live.Some? {
      NeedsRestartIff(active, iface, w.live.value, env, addr, c.mtu);
    } else {
      EmptyHasNothing(" inet " + c.address + "/32 ");
    }
  }

  /**
   Both branches of a successful step end with the same file, keys, port, peers, address and
   MTU: the in-place branch refines the restart.  The interface went down only if it had to.
   */
  lemma ConfigureInPlace(w: WireGuardState, iface: string, c: Conf, addr: Addr, env: LinkEnv, net: Net, t: nat)
    requires IfaceName(iface) && LinkEnvOk(env) && c.address == Dotted(addr)
    ensures var run := Configure(w, iface, c, addr, env, net, t);
            && (run.ok ==> InPlace(run.state, c, addr))
            && (run.ok ==> (run.state.restarts == w.restarts <==> net.answers(t + 2) && net.answers(t + 3) && Kept(w, c, addr)))
            && (run.ok ==> run.clock == t + 5)
  {
    hide NeedsRestart, Shown;
    RestartIff(w, iface, c, addr, env, net, t);
  }

  /** Repeating an undisturbed step leaves the interface up and everything as it is. */
  lemma ConfigureIdle(w: WireGuardState, iface: string, c: Conf, addr: Addr, env: LinkEnv, net: Net, t: nat)
    requires IfaceName(iface) && LinkEnvOk(env) && c.address == Dotted(addr) && InPlace(w, c, addr) && Calm(net)
    ensures Configure(w, iface, c, addr, env, net, t) == Step(w, t + 5, true)
  {
    hide NeedsRestart, Shown;
    RestartIff(w, iface, c, addr, env, net, t);
  }
}

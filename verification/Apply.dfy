/**
 The apply protocol: the phases of `applyCluster` over all nodes, on machines whose remote
 steps may fail one by one.
 */
module Apply {
  import opened Wrappers
  import opened Text
  import opened Addresses
  import opened Config
  import opened Remote
  import HostsFile
  import WireGuard
  import FirewallRuns
  import K3s

  // ------------------------------------------------------------------ machines

  /** What the provider manages on one machine; WireGuard interfaces by name. */
  datatype Machine = Machine(hostname: string, hosts: string, wg: map<string, WireGuard.WireGuardState>, firewall: FirewallRuns.FirewallState, k3s: K3s.K3sState)

  const NO_INTERFACE := WireGuard.WireGuardState(None, false, None, 0)

  function InterfaceAt(wg: map<string, WireGuard.WireGuardState>, iface: string): WireGuard.WireGuardState {
    if iface in wg then wg[iface] else NO_INTERFACE
  }

  const NEW_MACHINE := Machine(
    "", "", map[],
    FirewallRuns.FirewallState(FirewallRuns.Ufw({}, false, true, true), None),
    K3s.K3sState(None, K3s.Stopped, K3s.Stopped, 0))

  /** The milestones of a run; an answered ping carries the pinged address and the number of its remote step. */
  datatype Event =
    | Prepared(node: string) | Pinged(node: string, peer: string, address: string, step: nat) | Connected(node: string) | Protected(node: string)
    | InstallStarted(node: string) | Installed(node: string) | AddonsStarted

  /**
   The surroundings of a run: the machine that an address text leads to, whatever its spelling, and
   what `ip` prints on each node besides the interface itself.
   */
  datatype Site = Site(reach: string -> string, link: string -> WireGuard.LinkEnv)

  /** The machine that dialing the node's public IP reaches. */
  function Host(site: Site, node: NodeConfig): string { site.reach(node.publicIP) }

  /** The machines by host, the number of the next remote step, the milestones, the node statuses. */
  datatype World = World(machines: map<string, Machine>, clock: nat, log: seq<Event>, statuses: map<string, string>)

  /** A run that goes on (`ok`) or has stopped at an error. */
  datatype Progress = Progress(w: World, ok: bool)

  function MachineAt(machines: map<string, Machine>, host: string): Machine { if host in machines then machines[host] else NEW_MACHINE }

  /** The address a private IP text prints. */
  function AddrOf(ip: string): Addr { match ParseDotted(ip) case Some(a) => a case None => 0 }

  // ------------------------------------------------------- the steps on one node

  /** `configureHostnameAndHosts`. */
  function HostsStep(m: Machine, cfg: ClusterConfig, node: NodeConfig, net: Net, t: nat): Step<Machine> {
    var named := if node.hostname != "" then Do(m, m.(hostname := node.hostname), net, t) else Step(m, t, true);
    if !named.ok then named else
      Do(named.state, named.state.(hosts := HostsFile.Edit(m.hosts, HostsFile.HostsBlock(cfg))), net, named.clock)
  }

  /** `configureNodeSystem`, as one command that may fail. */
  function SystemStep(m: Machine, net: Net, t: nat): Step<Machine> { Do(m, m, net, t) }

  ghost function WireGuardStep(m: Machine, cfg: ClusterConfig, node: NodeConfig, env: WireGuard.LinkEnv, net: Net, t: nat): Step<Machine> {
    var iface := cfg.wireGuard.iface;
    var run := WireGuard.Configure(InterfaceAt(m.wg, iface), iface, WireGuard.NodeConf(cfg, node), AddrOf(node.privateIP), env, net, t);
    Step(m.(wg := m.wg[iface := run.state]), run.clock, run.ok)
  }

  /** The work of the first phase on a node, after dialing. */
  ghost function PrepareStep(m: Machine, cfg: ClusterConfig, node: NodeConfig, env: WireGuard.LinkEnv, net: Net, t: nat): Step<Machine> {
    var hosts := HostsStep(m, cfg, node, net, t);
    if !hosts.ok then hosts else
      var system := SystemStep(hosts.state, net, hosts.clock);
      if !system.ok || !cfg.wireGuard.enabled then system
      else WireGuardStep(system.state, cfg, node, env, net, system.clock)
  }

  /** `checkWireGuardConnectivity`: one ping for every other node, up to the first failure. */
  function Pings(m: Machine, cfg: ClusterConfig, node: NodeConfig, names: seq<string>, net: Net, t: nat): Step<Machine>
    decreases |names|
  {
    if names == [] then Step(m, t, true)
    else if NodeOf(cfg.nodes, names[0]).key == node.key then Pings(m, cfg, node, names[1..], net, t)
    else
      var ping := Do(m, m, net, t);
      if ping.ok then Pings(m, cfg, node, names[1..], net, ping.clock) else ping
  }

  /** The answered pings of that loop. */
  function PingLog(cfg: ClusterConfig, node: NodeConfig, names: seq<string>, net: Net, t: nat): seq<Event>
    decreases |names|
  {
    if names == [] then []
    else if NodeOf(cfg.nodes, names[0]).key == node.key then PingLog(cfg, node, names[1..], net, t)
    else if net.step(t) == Done then [Pinged(node.key, NodeOf(cfg.nodes, names[0]).key, NodeOf(cfg.nodes, names[0]).privateIP, t)] + PingLog(cfg, node, names[1..], net, t + 1)
    else []
  }

  /** `configureFirewall`; another backend than ufw is refused. */
  function FirewallStep(m: Machine, cfg: ClusterConfig, node: NodeConfig, net: Net, t: nat): Step<Machine> {
    if cfg.firewall.backend != "ufw" then Step(m, t, false) else
      var run := FirewallRuns.Configure(m.firewall, FirewallRuns.Rules(cfg, node), net, t);
      Step(m.(firewall := run.state), run.clock, run.ok)
  }

  function InstallStep(m: Machine, cfg: ClusterConfig, node: NodeConfig, net: Net, t: nat): Step<Machine> {
    var run := K3s.Install(m.k3s, node.role, K3s.Rendered(cfg, node), net, t);
    Step(m.(k3s := run.state), run.clock, run.ok)
  }

  // -------------------------------------------------------------------- phases

  datatype Phase = Prepare | Connect | Protect | Install

  ghost function PhaseStep(p: Phase, m: Machine, cfg: ClusterConfig, node: NodeConfig, env: WireGuard.LinkEnv, net: Net, t: nat): Step<Machine> {
    match p
    case Prepare => PrepareStep(m, cfg, node, env, net, t)
    case Connect => Pings(m, cfg, node, cfg.nodeNames, net, t)
    case Protect => FirewallStep(m, cfg, node, net, t)
    case Install => InstallStep(m, cfg, node, net, t)
  }

  function Reached(p: Phase, key: string): Event {
    match p
    case Prepare => Prepared(key)
    case Connect => Connected(key)
    case Protect => Protected(key)
    case Install => Installed(key)
  }

  function NewStatus(p: Phase, cfg: ClusterConfig, key: string, statuses: map<string, string>): map<string, string> {
    if p.Install? then statuses[key := "ready"]
    else if p.Prepare? && cfg.wireGuard.enabled then statuses[key := "wireguard-configured"]
    else statuses
  }

  /** What a phase's work on a node adds to the log before its milestone. */
  function Notes(p: Phase, cfg: ClusterConfig, node: NodeConfig, net: Net, t: nat): seq<Event> {
    if p.Connect? then PingLog(cfg, node, cfg.nodeNames, net, t) else []
  }

  /** One round of a phase's loop: dial the node, do the phase's work, note the result. */
  ghost function NodeRound(p: Phase, cfg: ClusterConfig, key: string, w: World, site: Site, net: Net): Progress {
    var node := NodeOf(cfg.nodes, key);
    if net.step(w.clock) != Done then Progress(w.(clock := w.clock + 1), false) else
      var started := if p.Install? then w.log + [InstallStarted(key)] else w.log;
      var noted := started + Notes(p, cfg, node, net, w.clock + 1);
      var run := PhaseStep(p, MachineAt(w.machines, Host(site, node)), cfg, node, site.link(key), net, w.clock + 1);
      var after := w.(machines := w.machines[Host(site, node) := run.state], clock := run.clock, log := noted);
      if run.ok then Progress(after.(log := noted + [Reached(p, key)], statuses := NewStatus(p, cfg, key, w.statuses)), true)
      else Progress(after, false)
  }

  /** A phase's loop over the nodes; it stops at the first error. */
  ghost function RunPhase(p: Phase, cfg: ClusterConfig, names: seq<string>, start: Progress, site: Site, net: Net): Progress {
    if names == [] then start else
      var n := |names| - 1;
      var front := RunPhase(p, cfg, names[..n], start, site, net);
      if front.ok then NodeRound(p, cfg, names[n], front.w, site, net) else front
  }

  /** The phase runs for this configuration at all. */
  predicate Runs(p: Phase, cfg: ClusterConfig) {
    match p
    case Prepare => true
    case Connect => cfg.wireGuard.enabled
    case Protect => cfg.firewall.enabled
    case Install => true
  }

  ghost function MaybePhase(p: Phase, cfg: ClusterConfig, start: Progress, site: Site, net: Net): Progress {
    if Runs(p, cfg) then RunPhase(p, cfg, cfg.nodeNames, start, site, net) else start
  }

  /** Every admin configuration that must be returned can be rendered. */
  predicate AdminConfsRender(cfg: ClusterConfig) {
    && (cfg.adminPeer.enabled ==> cfg.adminPeer.privateKey != "" && cfg.adminPeer.wgIP != "")
    && forall p :: p in cfg.adminPeerNames ==>
         PeerOf(cfg.adminPeers, p).privateKey == "" || PeerOf(cfg.adminPeers, p).wgIP != ""
  }

  /** Addons and kubeconfig on the first server, then the admin configurations. */
  function Finish(cfg: ClusterConfig, w: World, net: Net): Progress {
    if K3s.FirstServerOf(cfg.nodes, cfg.nodeNames).None? then Progress(w, false)
    else if net.step(w.clock) != Done then Progress(w.(clock := w.clock + 1), false)
    else
      var started := w.(log := w.log + [AddonsStarted]);
      if net.step(w.clock + 1) != Done then Progress(started.(clock := w.clock + 2), false)
      else Progress(started.(clock := w.clock + 3), net.step(w.clock + 2) == Done && AdminConfsRender(cfg))
  }

  function Fresh(w: World): Progress { Progress(w.(clock := 0, log := [], statuses := map[]), true) }

  ghost function AfterProtect(w: World, cfg: ClusterConfig, site: Site, net: Net): Progress {
    MaybePhase(Protect, cfg, MaybePhase(Connect, cfg, MaybePhase(Prepare, cfg, Fresh(w), site, net), site, net), site, net)
  }

  ghost function AfterInstall(w: World, cfg: ClusterConfig, site: Site, net: Net): Progress {
    MaybePhase(Install, cfg, AfterProtect(w, cfg, site, net), site, net)
  }

  /** `applyCluster`. */
  ghost function Run(w: World, cfg: ClusterConfig, site: Site, net: Net): Progress {
    var installed := AfterInstall(w, cfg, site, net);
    if installed.ok then Finish(cfg, installed.w, net) else installed
  }

  // -------------------------------------------------------------- phase barriers

  /** All listed nodes have reached the milestone of phase `p` in this log. */
  ghost predicate AllReached(p: Phase, names: seq<string>, log: seq<Event>) { forall k :: k in names ==> Reached(p, k) in log }

  /** The milestones of the phases before `p` that run for this configuration. */
  ghost predicate Earlier(p: Phase, cfg: ClusterConfig, log: seq<Event>) {
    forall q: Phase :: Before(q, p) && Runs(q, cfg) ==> AllReached(q, cfg.nodeNames, log)
  }

  function Order(p: Phase): nat { match p case Prepare => 0 case Connect => 1 case Protect => 2 case Install => 3 }

  predicate Before(q: Phase, p: Phase) { Order(q) < Order(p) }

  /** The node with this name has pinged every other node. */
  ghost predicate AllPinged(cfg: ClusterConfig, k: string, log: seq<Event>) {
    var self := NodeOf(cfg.nodes, k).key;
    forall l :: l in cfg.nodeNames && NodeOf(cfg.nodes, l).key != self ==> HasPinged(self, NodeOf(cfg.nodes, l), log)
  }

  ghost predicate HasPinged(self: string, peer: NodeConfig, log: seq<Event>) { exists s :: Pinged(self, peer.key, peer.privateIP, s) in log }

  /** An event may stand behind this log: its phase's predecessors are complete. */
  ghost predicate Allowed(e: Event, cfg: ClusterConfig, log: seq<Event>) {
    match e
    case Prepared(_) => true
    case Pinged(_, _, _, _) => Earlier(Connect, cfg, log)
    case Connected(k) => Earlier(Connect, cfg, log) && AllPinged(cfg, k, log)
    case Protected(_) => Earlier(Protect, cfg, log)
    case InstallStarted(_) => Earlier(Install, cfg, log)
    case Installed(k) => Earlier(Install, cfg, log) && InstallStarted(k) in log
    case AddonsStarted => Earlier(Install, cfg, log) && AllReached(Install, cfg.nodeNames, log)
  }

  /** Every event stands behind a log that allows it. */
  ghost predicate Barriers(cfg: ClusterConfig, log: seq<Event>) {
    forall i :: 0 <= i < |log| ==> Allowed(log[i], cfg, log[..i])
  }

  lemma BarriersAppend(cfg: ClusterConfig, log: seq<Event>, e: Event)
    requires Barriers(cfg, log) && Allowed(e, cfg, log)
    ensures Barriers(cfg, log + [e])
  {
    hide Allowed;
    var s := log + [e];
    forall i | 0 <= i < |s| ensures Allowed(s[i], cfg, s[..i]) {
      assert s[..i] == log[..i];
    }
  }

  lemma EarlierGrows(p: Phase, cfg: ClusterConfig, log: seq<Event>, more: seq<Event>)
    requires Earlier(p, cfg, log)
    ensures Earlier(p, cfg, log + more)
  {
  }

  /** Pings may stand behind a log with all nodes prepared. */
  lemma {:induction false} BarriersPings(cfg: ClusterConfig, log: seq<Event>, pings: seq<Event>)
    requires Barriers(cfg, log) && Earlier(Connect, cfg, log) && forall e :: e in pings ==> e.Pinged?
    ensures Barriers(cfg, log + pings) && Earlier(Connect, cfg, log + pings)
    decreases |pings|
  {
    hide Barriers, Earlier;
    if pings != [] {
      var n := |pings| - 1;
      assert pings[n] in pings;
      BarriersPings(cfg, log, pings[..n]);
      BarriersAppend(cfg, log + pings[..n], pings[n]);
      EarlierGrows(Connect, cfg, log + pings[..n], [pings[n]]);
      assert log + pings == log + pings[..n] + [pings[n]];
    } else {
      assert log + pings == log;
    }
  }

  /** How many of the listed nodes are pinged from this one. */
  function PeerCount(cfg: ClusterConfig, node: NodeConfig, names: seq<string>): nat {
    if names == [] then 0 else (if NodeOf(cfg.nodes, names[0]).key == node.key then 0 else 1) + PeerCount(cfg, node, names[1..])
  }

  /** The check passes exactly when one ping for every listed node but the own one is answered. */
  lemma {:induction false} PingsIff(m: Machine, cfg: ClusterConfig, node: NodeConfig, names: seq<string>, net: Net, t: nat)
    ensures var run, c := Pings(m, cfg, node, names, net, t), PeerCount(cfg, node, names);
            && (run.ok <==> forall s :: t <= s < t + c ==> net.step(s) == Done)
            && (run.ok ==> run.clock == t + c && |PingLog(cfg, node, names, net, t)| == c)
    decreases |names|
  {
    if names != [] {
      PingsIff(m, cfg, node, names[1..], net, if NodeOf(cfg.nodes, names[0]).key == node.key then t else t + 1);
    }
  }

  /** Every logged ping was answered, in the step it is logged under. */
  lemma {:induction false} PingsAnswered(cfg: ClusterConfig, node: NodeConfig, names: seq<string>, net: Net, t: nat)
    ensures forall e :: e in PingLog(cfg, node, names, net, t) ==> e.Pinged? && t <= e.step && net.step(e.step) == Done
    decreases |names|
  {
    if names != [] {
      PingsAnswered(cfg, node, names[1..], net, if NodeOf(cfg.nodes, names[0]).key == node.key then t else t + 1);
    }
  }

  lemma HasPingedMore(self: string, peer: NodeConfig, before: seq<Event>, log: seq<Event>, after: seq<Event>)
    requires HasPinged(self, peer, log)
    ensures HasPinged(self, peer, before + log + after)
  {
    var s :| Pinged(self, peer.key, peer.privateIP, s) in log;
    assert Pinged(self, peer.key, peer.privateIP, s) in before + log + after;
  }

  /** After a passed check every listed node but the own one has been pinged. */
  lemma {:induction false} PingsComplete(m: Machine, cfg: ClusterConfig, node: NodeConfig, names: seq<string>, net: Net, t: nat, l: string)
    requires Pings(m, cfg, node, names, net, t).ok && l in names && NodeOf(cfg.nodes, l).key != node.key
    ensures HasPinged(node.key, NodeOf(cfg.nodes, l), PingLog(cfg, node, names, net, t))
    decreases |names|
  {
    hide HasPinged;
    assert names == [names[0]] + names[1..];
    if NodeOf(cfg.nodes, names[0]).key == node.key {
      PingsComplete(m, cfg, node, names[1..], net, t, l);
    } else {
      var first := Pinged(node.key, NodeOf(cfg.nodes, names[0]).key, NodeOf(cfg.nodes, names[0]).privateIP, t);
      var rest := PingLog(cfg, node, names[1..], net, t + 1);
      if l == names[0] {
        HasPingedFirst(node.key, NodeOf(cfg.nodes, l), t, rest);
      } else {
        PingsComplete(m, cfg, node, names[1..], net, t + 1, l);
        HasPingedMore(node.key, NodeOf(cfg.nodes, l), [first], rest, []);
        assert [first] + rest + [] == [first] + rest;
      }
    }
  }

  lemma HasPingedFirst(self: string, peer: NodeConfig, t: nat, rest: seq<Event>)
    ensures HasPinged(self, peer, [Pinged(self, peer.key, peer.privateIP, t)] + rest)
  {
    assert ([Pinged(self, peer.key, peer.privateIP, t)] + rest)[0] == Pinged(self, peer.key, peer.privateIP, t);
  }

  /** The connectivity check's part of the log. */
  lemma CheckBarriers(cfg: ClusterConfig, key: string, m: Machine, log: seq<Event>, net: Net, t: nat)
    requires Barriers(cfg, log) && Earlier(Connect, cfg, log)
    ensures var node := NodeOf(cfg.nodes, key);
            var noted := log + PingLog(cfg, node, cfg.nodeNames, net, t);
            && Barriers(cfg, noted) && Earlier(Connect, cfg, noted)
            && (Pings(m, cfg, node, cfg.nodeNames, net, t).ok ==> AllPinged(cfg, key, noted))
  {
    hide Barriers, Earlier, HasPinged, PingLog, Pings;
    var node := NodeOf(cfg.nodes, key);
    var pings := PingLog(cfg, node, cfg.nodeNames, net, t);
    PingsAnswered(cfg, node, cfg.nodeNames, net, t);
    BarriersPings(cfg, log, pings);
    if Pings(m, cfg, node, cfg.nodeNames, net, t).ok {
      forall l | l in cfg.nodeNames && NodeOf(cfg.nodes, l).key != node.key ensures HasPinged(node.key, NodeOf(cfg.nodes, l), log + pings) {
        PingsComplete(m, cfg, node, cfg.nodeNames, net, t, l);
        HasPingedMore(node.key, NodeOf(cfg.nodes, l), log, pings, []);
        assert log + pings + [] == log + pings;
      }
    }
  }

  /** The log of a round before the milestone, and that success allows the milestone. */
  lemma NotedBarriers(p: Phase, cfg: ClusterConfig, key: string, m: Machine, env: WireGuard.LinkEnv, log: seq<Event>, net: Net, t: nat)
    requires Barriers(cfg, log) && Earlier(p, cfg, log)
    ensures var node := NodeOf(cfg.nodes, key);
            var noted := (if p.Install? then log + [InstallStarted(key)] else log) + Notes(p, cfg, node, net, t);
            && Barriers(cfg, noted) && Earlier(p, cfg, noted) && log <= noted
            && (PhaseStep(p, m, cfg, node, env, net, t).ok ==> Allowed(Reached(p, key), cfg, noted))
  {
    hide PrepareStep, FirewallStep, InstallStep, Pings, PingLog, Barriers, Earlier, AllPinged;
    match p
    case Prepare => assert log + [] == log;
    case Connect => CheckBarriers(cfg, key, m, log, net, t);
    case Protect => assert log + [] == log;
    case Install =>
      var started := log + [InstallStarted(key)];
      BarriersAppend(cfg, log, InstallStarted(key));
      EarlierGrows(p, cfg, log, [InstallStarted(key)]);
      assert started + [] == started && started[|log|] == InstallStarted(key);
  }

  /** One round keeps the barriers and, on success, adds the node's milestone. */
  lemma RoundBarriers(p: Phase, cfg: ClusterConfig, key: string, w: World, site: Site, net: Net)
    requires Barriers(cfg, w.log) && Earlier(p, cfg, w.log)
    ensures var r := NodeRound(p, cfg, key, w, site, net);
            && Barriers(cfg, r.w.log) && w.log <= r.w.log && Earlier(p, cfg, r.w.log)
            && (r.ok ==> Reached(p, key) in r.w.log)
            && (r.ok && p.Install? ==> r.w.statuses == w.statuses[key := "ready"])
  {
    hide PhaseStep, Barriers, Earlier, NewStatus, Notes, Allowed;
    var node := NodeOf(cfg.nodes, key);
    NotedBarriers(p, cfg, key, MachineAt(w.machines, Host(site, node)), site.link(key), w.log, net, w.clock + 1);
    var noted := (if p.Install? then w.log + [InstallStarted(key)] else w.log) + Notes(p, cfg, node, net, w.clock + 1);
    if NodeRound(p, cfg, key, w, site, net).ok {
      BarriersAppend(cfg, noted, Reached(p, key));
      EarlierGrows(p, cfg, noted, [Reached(p, key)]);
    }
    StatusReady(p, cfg, key, w.statuses);
  }

  lemma StatusReady(p: Phase, cfg: ClusterConfig, key: string, statuses: map<string, string>)
    ensures p.Install? ==> NewStatus(p, cfg, key, statuses) == statuses[key := "ready"]
  {
  }

  /** A phase keeps the barriers; when it completes, all its nodes have the milestone. */
  lemma {:induction false} PhaseBarriers(p: Phase, cfg: ClusterConfig, names: seq<string>, start: Progress, site: Site, net: Net)
    requires Barriers(cfg, start.w.log) && (start.ok ==> Earlier(p, cfg, start.w.log))
    ensures var r := RunPhase(p, cfg, names, start, site, net);
            && Barriers(cfg, r.w.log) && start.w.log <= r.w.log && (r.ok ==> start.ok || names == [])
            && (r.ok && start.ok ==> Earlier(p, cfg, r.w.log) && AllReached(p, names, r.w.log))
            && (r.ok && start.ok && p.Install? ==> forall k :: k in names ==> k in r.w.statuses && r.w.statuses[k] == "ready")
            && (!start.ok ==> r == start)
    decreases |names|
  {
    hide NodeRound, Barriers, Earlier, Reached;
    if names != [] {
      var n := |names| - 1;
      PhaseBarriers(p, cfg, names[..n], start, site, net);
      var front := RunPhase(p, cfg, names[..n], start, site, net);
      assert names == names[..n] + [names[n]];
      if front.ok { RoundBarriers(p, cfg, names[n], front.w, site, net); }
    }
  }

  /** What a phase needs and gives, whether or not it runs for this configuration. */
  lemma MaybeBarriers(p: Phase, q: Phase, cfg: ClusterConfig, start: Progress, site: Site, net: Net)
    requires Barriers(cfg, start.w.log) && (start.ok ==> Earlier(p, cfg, start.w.log)) && Order(q) == Order(p) + 1
    ensures var r := MaybePhase(p, cfg, start, site, net);
            && Barriers(cfg, r.w.log) && (r.ok ==> start.ok && Earlier(q, cfg, r.w.log)) && (!start.ok ==> r == start)
  {
    hide RunPhase, Barriers;
    if Runs(p, cfg) { PhaseBarriers(p, cfg, cfg.nodeNames, start, site, net); }
  }

  /**
   Phase barriers in every run, whichever steps fail: the log of milestones, and so each of its
   prefixes, has no install before all nodes are prepared, connected and protected, and no addon
   before all nodes are installed.
   */
  lemma RunKeepsBarriers(w: World, cfg: ClusterConfig, site: Site, net: Net)
    ensures Barriers(cfg, Run(w, cfg, site, net).w.log)
    ensures Run(w, cfg, site, net).ok ==> AddonsStarted in Run(w, cfg, site, net).w.log
    ensures Run(w, cfg, site, net).ok ==>
              forall k :: k in cfg.nodeNames ==> k in Run(w, cfg, site, net).w.statuses && Run(w, cfg, site, net).w.statuses[k] == "ready"
  {
    hide RunPhase, Barriers, Earlier, MaybePhase;
    NothingYet(cfg);
    var p1 := MaybePhase(Prepare, cfg, Fresh(w), site, net);
    MaybeBarriers(Prepare, Connect, cfg, Fresh(w), site, net);
    var p2 := MaybePhase(Connect, cfg, p1, site, net);
    MaybeBarriers(Connect, Protect, cfg, p1, site, net);
    var p3 := MaybePhase(Protect, cfg, p2, site, net);
    MaybeBarriers(Protect, Install, cfg, p2, site, net);
    var p4 := AfterInstall(w, cfg, site, net);
    InstallIsRun(cfg, p3, site, net);
    PhaseBarriers(Install, cfg, cfg.nodeNames, p3, site, net);
    if p4.ok {
      assert Allowed(AddonsStarted, cfg, p4.w.log);
      BarriersAppend(cfg, p4.w.log, AddonsStarted);
    }
  }

  lemma InstallIsRun(cfg: ClusterConfig, start: Progress, site: Site, net: Net)
    ensures MaybePhase(Install, cfg, start, site, net) == RunPhase(Install, cfg, cfg.nodeNames, start, site, net)
  {
  }

  lemma NothingYet(cfg: ClusterConfig)
    ensures Barriers(cfg, []) && Earlier(Prepare, cfg, [])
  {
  }

  // ------------------------------------------------------------- connectivity

  /** Among distinct names, all but the own one are pinged. */
  lemma {:induction false} PeerCountIs(cfg: ClusterConfig, node: NodeConfig, names: seq<string>)
    requires Distinct(names) && forall k :: k in names ==> NodeOf(cfg.nodes, k).key == k
    ensures PeerCount(cfg, node, names) == if node.key in names then |names| - 1 else |names|
    decreases |names|
  {
    if names != [] {
      PeerCountIs(cfg, node, names[1..]);
      assert names == [names[0]] + names[1..];
      assert names[0] !in names[1..];
    }
  }

  /** The check on one of `n` nodes passes exactly when `n - 1` pings in a row are answered. */
  lemma CheckIff(m: Machine, cfg: ClusterConfig, k: string, net: Net, t: nat)
    requires K3s.KeyedNodes(cfg) && k in cfg.nodeNames
    ensures var run := Pings(m, cfg, NodeOf(cfg.nodes, k), cfg.nodeNames, net, t);
            && (run.ok <==> forall s :: t <= s < t + |cfg.nodeNames| - 1 ==> net.step(s) == Done)
            && (run.ok ==> run.clock == t + |cfg.nodeNames| - 1)
  {
    PeerCountIs(cfg, NodeOf(cfg.nodes, k), cfg.nodeNames);
    PingsIff(m, cfg, NodeOf(cfg.nodes, k), cfg.nodeNames, net, t);
  }

  /** The pings that a log records were answered. */
  ghost predicate Answered(log: seq<Event>, net: Net) { forall e :: e in log && e.Pinged? ==> net.step(e.step) == Done }

  /** Before the log's event `j`, node `k` has pinged node `l` and had an answer. */
  ghost predicate PingedBefore(log: seq<Event>, j: nat, k: string, peer: NodeConfig, net: Net)
    requires j <= |log|
  {
    exists i :: 0 <= i < j && IsAnsweredPing(log[i], k, peer, net)
  }

  predicate IsAnsweredPing(e: Event, k: string, peer: NodeConfig, net: Net) {
    e.Pinged? && e.node == k && e.peer == peer.key && e.address == peer.privateIP && net.step(e.step) == Done
  }

  lemma RoundAnswered(p: Phase, cfg: ClusterConfig, key: string, w: World, site: Site, net: Net)
    requires Answered(w.log, net)
    ensures Answered(NodeRound(p, cfg, key, w, site, net).w.log, net)
  {
    hide PhaseStep, PingLog, NewStatus;
    PingsAnswered(cfg, NodeOf(cfg.nodes, key), cfg.nodeNames, net, w.clock + 1);
  }

  lemma {:induction false} PhaseAnswered(p: Phase, cfg: ClusterConfig, names: seq<string>, start: Progress, site: Site, net: Net)
    requires Answered(start.w.log, net)
    ensures Answered(RunPhase(p, cfg, names, start, site, net).w.log, net)
    decreases |names|
  {
    hide NodeRound, Answered;
    if names != [] {
      var n := |names| - 1;
      PhaseAnswered(p, cfg, names[..n], start, site, net);
      RoundAnswered(p, cfg, names[n], RunPhase(p, cfg, names[..n], start, site, net).w, site, net);
    }
  }

  lemma RunAnswered(w: World, cfg: ClusterConfig, site: Site, net: Net)
    ensures Answered(Run(w, cfg, site, net).w.log, net)
  {
    hide RunPhase, K3s.FirstServerOf, AdminConfsRender;
    var p0 := Fresh(w);
    PhaseAnswered(Prepare, cfg, cfg.nodeNames, p0, site, net);
    var p1 := MaybePhase(Prepare, cfg, p0, site, net);
    PhaseAnswered(Connect, cfg, cfg.nodeNames, p1, site, net);
    var p2 := MaybePhase(Connect, cfg, p1, site, net);
    PhaseAnswered(Protect, cfg, cfg.nodeNames, p2, site, net);
    var p3 := MaybePhase(Protect, cfg, p2, site, net);
    PhaseAnswered(Install, cfg, cfg.nodeNames, p3, site, net);
  }

  /**
   In every run, whichever steps fail: no install starts before each node has pinged each other node
   through the tunnel and had an answer.
   */
  lemma InstallAfterPings(w: World, cfg: ClusterConfig, site: Site, net: Net, j: nat, k: string, l: string)
    requires K3s.KeyedNodes(cfg) && cfg.wireGuard.enabled && k in cfg.nodeNames && l in cfg.nodeNames && k != l
    requires j < |Run(w, cfg, site, net).w.log| && Run(w, cfg, site, net).w.log[j].InstallStarted?
    ensures PingedBefore(Run(w, cfg, site, net).w.log, j, k, NodeOf(cfg.nodes, l), net)
  {
    hide Run, Earlier, Answered;
    var log := Run(w, cfg, site, net).w.log;
    RunKeepsBarriers(w, cfg, site, net);
    RunAnswered(w, cfg, site, net);
    assert Allowed(log[j], cfg, log[..j]);
    ConnectedEarlier(cfg, log[..j], k);
    var i :| 0 <= i < j && log[i] == Connected(k);
    assert Allowed(log[i], cfg, log[..i]);
    assert HasPinged(k, NodeOf(cfg.nodes, l), log[..i]);
    var s :| Pinged(k, l, NodeOf(cfg.nodes, l).privateIP, s) in log[..i];
    var h :| 0 <= h < i && log[h] == Pinged(k, l, NodeOf(cfg.nodes, l).privateIP, s);
    assert IsAnsweredPing(log[h], k, NodeOf(cfg.nodes, l), net) by { AnsweredAt(log, h, net); }
  }

  lemma AnsweredAt(log: seq<Event>, h: nat, net: Net)
    requires Answered(log, net) && h < |log| && log[h].Pinged?
    ensures net.step(log[h].step) == Done
  {
  }

  lemma ConnectedEarlier(cfg: ClusterConfig, log: seq<Event>, k: string)
    requires Earlier(Install, cfg, log) && cfg.wireGuard.enabled && k in cfg.nodeNames
    ensures exists i :: 0 <= i < |log| && log[i] == Connected(k)
  {
    assert Before(Connect, Install) && Runs(Connect, cfg);
    assert Reached(Connect, k) in log;
  }
}

/**
 A successful apply brings every machine to its target, and a repeated apply of the same
 configuration changes nothing.
 */
module Convergence {
  import opened Wrappers
  import opened Text
  import opened Addresses
  import opened Config
  import opened Remote
  import opened Apply
  import opened Models
  import opened Lifecycle
  import HostsFile
  import WireGuard
  import Firewall
  import FirewallRuns
  import K3s

  // ------------------------------------------------------------ per-node targets

  /** What the environment and the configuration must provide for a node. */
  ghost predicate NodeFits(cfg: ClusterConfig, node: NodeConfig, env: WireGuard.LinkEnv) {
    cfg.wireGuard.enabled ==>
      WireGuard.IfaceName(cfg.wireGuard.iface) && WireGuard.LinkEnvOk(env) && ParseDotted(node.privateIP).Some?
  }

  /** What a phase relies on finding on the machine. */
  predicate Ready(p: Phase, cfg: ClusterConfig, node: NodeConfig, m: Machine) {
    match p
    case Prepare => HostsFile.Orderly(m.hosts)
    case Connect => true
    case Protect => FirewallRuns.InSync(m.firewall, FirewallRuns.Rules(cfg, node))
    case Install => K3s.Coherent(m.k3s, node.role)
  }

  /** The machine carries the hostname that the plan gives it, if it gives one. */
  predicate Named(node: NodeConfig, m: Machine) { node.hostname != "" ==> m.hostname == node.hostname }

  /** What a phase leaves on the machine when it succeeds. */
  predicate Met(p: Phase, cfg: ClusterConfig, node: NodeConfig, m: Machine) {
    match p
    case Prepare =>
      && Named(node, m) && HostsFile.Orderly(m.hosts) && HostsFile.Edit(m.hosts, HostsFile.HostsBlock(cfg)) == m.hosts
      && (cfg.wireGuard.enabled ==> WireGuard.InPlace(InterfaceAt(m.wg, cfg.wireGuard.iface), WireGuard.NodeConf(cfg, node), AddrOf(node.privateIP)))
    case Connect => true
    case Protect => cfg.firewall.backend == "ufw" && FirewallRuns.Converged(m.firewall, FirewallRuns.Rules(cfg, node))
    case Install => K3s.Settled(m.k3s, node.role, K3s.Rendered(cfg, node))
  }

  /** The part of a machine that a phase may change. */
  ghost predicate SameOutside(p: Phase, cfg: ClusterConfig, node: NodeConfig, m: Machine, m': Machine) {
    match p
    case Prepare =>
      && m'.firewall == m.firewall && m'.k3s == m.k3s
      && forall i :: i != cfg.wireGuard.iface ==> InterfaceAt(m'.wg, i) == InterfaceAt(m.wg, i)
    case Connect => m' == m
    case Protect => m' == m.(firewall := m'.firewall)
    case Install => m' == m.(k3s := m'.k3s) && K3s.OtherService(m'.k3s, node.role) == K3s.OtherService(m.k3s, node.role)
  }

  /** A later undisturbed run finds nothing to do in this phase, apart from the hosts edit. */
  predicate Idle(p: Phase, cfg: ClusterConfig, node: NodeConfig, m: Machine) {
    match p
    case Prepare =>
      && Named(node, m)
      && (cfg.wireGuard.enabled ==> WireGuard.InPlace(InterfaceAt(m.wg, cfg.wireGuard.iface), WireGuard.NodeConf(cfg, node), AddrOf(node.privateIP)))
    case Connect => true
    case Protect =>
      && cfg.firewall.backend == "ufw" && m.firewall.ufw.active
      && m.firewall.marker == Some(Firewall.ScriptText(Firewall.Script(FirewallRuns.Rules(cfg, node))))
    case Install => K3s.Written(m.k3s, node.role, K3s.Rendered(cfg, node))
  }

  function Edited(cfg: ClusterConfig, m: Machine): Machine { m.(hosts := HostsFile.Edit(m.hosts, HostsFile.HostsBlock(cfg))) }

  /** What a successful step leaves in `m'`, whatever it found in `m`. */
  predicate Left(p: Phase, cfg: ClusterConfig, node: NodeConfig, m: Machine, m': Machine) {
    Idle(p, cfg, node, m') && (p.Prepare? ==> m'.hosts == Edited(cfg, m).hosts)
  }

  // ------------------------------------------------------------------ the window

  /** The install of a node, started on machine `m` at step `t`, is cut between upload and restart. */
  predicate StepInWindow(p: Phase, cfg: ClusterConfig, node: NodeConfig, m: Machine, net: Net, t: nat) {
    p.Install? && K3s.Window(m.k3s, node.role, K3s.Rendered(cfg, node), net, t)
  }

  /** The same for a round, which dials first. */
  predicate RoundInWindow(p: Phase, cfg: ClusterConfig, site: Site, key: string, w: World, net: Net) {
    net.step(w.clock) == Done && StepInWindow(p, cfg, NodeOf(cfg.nodes, key), M(cfg, site, w, key), net, w.clock + 1)
  }

  /** Some round of the phase is cut there. */
  ghost predicate PhaseInWindow(p: Phase, cfg: ClusterConfig, names: seq<string>, start: Progress, site: Site, net: Net) {
    names != [] &&
    var n := |names| - 1;
    var front := RunPhase(p, cfg, names[..n], start, site, net);
    PhaseInWindow(p, cfg, names[..n], start, site, net) || (front.ok && RoundInWindow(p, cfg, site, names[n], front.w, net))
  }

  /** Some install of the run is cut there. */
  ghost predicate RunInWindow(w: World, cfg: ClusterConfig, site: Site, net: Net) {
    PhaseInWindow(Install, cfg, cfg.nodeNames, AfterProtect(w, cfg, site, net), site, net)
  }

  lemma {:induction false} PingsKeep(m: Machine, cfg: ClusterConfig, node: NodeConfig, names: seq<string>, net: Net, t: nat)
    ensures Pings(m, cfg, node, names, net, t).state == m
    ensures (forall i: nat :: net.step(i) == Done) ==> Pings(m, cfg, node, names, net, t).ok
    decreases |names|
  {
    if names != [] {
      PingsKeep(m, cfg, node, names[1..], net, t);
      PingsKeep(m, cfg, node, names[1..], net, t + 1);
    }
  }

  lemma HostsTwice(cfg: ClusterConfig, t: string)
    requires HostsFile.NodesFreeOf(cfg, '#') && HostsFile.Orderly(t)
    ensures var e := HostsFile.Edit(t, HostsFile.HostsBlock(cfg)); HostsFile.Orderly(e) && HostsFile.Edit(e, HostsFile.HostsBlock(cfg)) == e
  {
    hide HostsFile.Edit, HostsFile.Orderly, HostsFile.HostsBlock, HostsFile.IsBlock;
    HostsFile.RenderedIsBlock(cfg);
    HostsFile.LastWriteWinsIff(t, HostsFile.HostsBlock(cfg), HostsFile.HostsBlock(cfg));
    HostsFile.EditView(t, HostsFile.HostsBlock(cfg));
  }

  lemma PrintsAddress(node: NodeConfig)
    requires ParseDotted(node.privateIP).Some?
    ensures node.privateIP == Dotted(AddrOf(node.privateIP))
  {
    ParseDottedCanonical(node.privateIP);
  }

  /** The hostname and the hosts file, and nothing else. */
  lemma HostsEffect(m: Machine, cfg: ClusterConfig, node: NodeConfig, net: Net, t: nat)
    ensures var run := HostsStep(m, cfg, node, net, t);
            && run.state.wg == m.wg && run.state.firewall == m.firewall && run.state.k3s == m.k3s
            && (run.ok ==> Named(node, run.state) && run.state.hosts == Edited(cfg, m).hosts)
  {
    hide HostsFile.Edit, HostsFile.HostsBlock;
  }

  lemma OtherInterfaces(wg: map<string, WireGuard.WireGuardState>, iface: string, w: WireGuard.WireGuardState)
    ensures forall i :: i != iface ==> InterfaceAt(wg[iface := w], i) == InterfaceAt(wg, i)
    ensures InterfaceAt(wg[iface := w], iface) == w
  {
  }

  lemma PrepareEffect(m: Machine, cfg: ClusterConfig, node: NodeConfig, env: WireGuard.LinkEnv, net: Net, t: nat)
    requires NodeFits(cfg, node, env) && HostsFile.NodesFreeOf(cfg, '#')
    ensures var run := PrepareStep(m, cfg, node, env, net, t);
            && SameOutside(Prepare, cfg, node, m, run.state)
            && (run.ok ==> Left(Prepare, cfg, node, m, run.state))
            && (run.ok && Ready(Prepare, cfg, node, m) ==> Met(Prepare, cfg, node, run.state))
  {
    hide HostsFile.Edit, HostsFile.Orderly, HostsFile.HostsBlock, HostsFile.NodesFreeOf, WireGuard.Configure, WireGuard.InPlace, WireGuard.NodeConf, AddrOf,
      HostsStep, InterfaceAt;
    if HostsFile.Orderly(m.hosts) { HostsTwice(cfg, m.hosts); }
    HostsEffect(m, cfg, node, net, t);
    var hosts := HostsStep(m, cfg, node, net, t);
    var system := SystemStep(hosts.state, net, hosts.clock);
    if cfg.wireGuard.enabled {
      ConfAddress(cfg, node);
      var iface, conf := cfg.wireGuard.iface, WireGuard.NodeConf(cfg, node);
      WireGuard.ConfigureInPlace(InterfaceAt(m.wg, iface), iface, conf, AddrOf(node.privateIP), env, net, system.clock);
      OtherInterfaces(m.wg, iface, WireGuard.Configure(InterfaceAt(m.wg, iface), iface, conf, AddrOf(node.privateIP), env, net, system.clock).state);
    }
  }

  lemma ConfAddress(cfg: ClusterConfig, node: NodeConfig)
    requires ParseDotted(node.privateIP).Some?
    ensures WireGuard.NodeConf(cfg, node).address == Dotted(AddrOf(node.privateIP))
  {
    PrintsAddress(node);
  }

  /**
   A phase's work on one machine: what it may touch, what success leaves, and that success from a
   machine that can be relied on means the target exactly outside the window.
   */
  lemma StepEffect(p: Phase, m: Machine, cfg: ClusterConfig, node: NodeConfig, env: WireGuard.LinkEnv, net: Net, t: nat)
    requires NodeFits(cfg, node, env) && HostsFile.NodesFreeOf(cfg, '#')
    ensures var run := PhaseStep(p, m, cfg, node, env, net, t);
            && SameOutside(p, cfg, node, m, run.state)
            && (run.ok ==> Left(p, cfg, node, m, run.state))
            && (run.ok && Ready(p, cfg, node, m) ==> (Met(p, cfg, node, run.state) <==> !StepInWindow(p, cfg, node, m, net, t)))
  {
    hide PrepareStep, FirewallRuns.Configure, K3s.Install, K3s.Rendered, FirewallRuns.Rules, FirewallRuns.InSync, FirewallRuns.Converged,
      HostsFile.Orderly, HostsFile.Edit, HostsFile.HostsBlock, WireGuard.InPlace, WireGuard.NodeConf, NodeFits, K3s.Window, K3s.OtherService;
    match p
    case Prepare => PrepareEffect(m, cfg, node, env, net, t);
    case Connect => PingsKeep(m, cfg, node, cfg.nodeNames, net, t);
    case Protect => ProtectEffect(m.firewall, FirewallRuns.Rules(cfg, node), net, t);
    case Install =>
      var target := K3s.Rendered(cfg, node);
      K3s.InstallWrites(m.k3s, node.role, target, net, t);
      K3s.InstallKeepsOther(m.k3s, node.role, target, net, t);
      if K3s.Coherent(m.k3s, node.role) { K3s.InstallCoherentIff(m.k3s, node.role, target, net, t); }
  }

  lemma ProtectEffect(f: FirewallRuns.FirewallState, rules: seq<Firewall.Rule>, net: Net, t: nat)
    ensures var run := FirewallRuns.Configure(f, rules, net, t);
            && (run.ok ==> run.state.ufw.active && run.state.marker == Some(Firewall.ScriptText(Firewall.Script(rules))))
            && (run.ok && FirewallRuns.InSync(f, rules) ==> FirewallRuns.Converged(run.state, rules))
  {
    hide Firewall.ScriptText, Firewall.Script, FirewallRuns.Chain, FirewallRuns.Goal;
    var text := Firewall.ScriptText(Firewall.Script(rules));
    FirewallRuns.ChainCut(rules, f.ufw, net, if net.answers(t) && f.marker == Some(text) then t + 2 else t + 1);
    FirewallRuns.GoalActive(rules);
    if FirewallRuns.InSync(f, rules) { FirewallRuns.ConfigureKeepsSync(f, rules, net, t); }
  }

  // --------------------------------------------------------------- whole phases

  /** Names are keys of nodes whose public IPs lead to machines of their own. */
  ghost predicate OwnMachines(cfg: ClusterConfig, site: Site) {
    && Distinct(cfg.nodeNames)
    && forall k, l :: k in cfg.nodeNames && l in cfg.nodeNames && k != l ==> Host(site, NodeOf(cfg.nodes, k)) != Host(site, NodeOf(cfg.nodes, l))
  }

  ghost predicate Fits(cfg: ClusterConfig, site: Site) {
    && OwnMachines(cfg, site) && HostsFile.NodesFreeOf(cfg, '#')
    && forall k :: k in cfg.nodeNames ==> NodeFits(cfg, NodeOf(cfg.nodes, k), site.link(k))
  }

  function M(cfg: ClusterConfig, site: Site, w: World, k: string): Machine { MachineAt(w.machines, Host(site, NodeOf(cfg.nodes, k))) }

  ghost predicate AllReady(p: Phase, cfg: ClusterConfig, site: Site, names: seq<string>, w: World) {
    forall k :: k in names ==> Ready(p, cfg, NodeOf(cfg.nodes, k), M(cfg, site, w, k))
  }

  ghost predicate AllMet(p: Phase, cfg: ClusterConfig, site: Site, names: seq<string>, w: World) {
    forall k :: k in names ==> Met(p, cfg, NodeOf(cfg.nodes, k), M(cfg, site, w, k))
  }

  ghost predicate AllIdle(p: Phase, cfg: ClusterConfig, site: Site, names: seq<string>, w: World) {
    forall k :: k in names ==> Idle(p, cfg, NodeOf(cfg.nodes, k), M(cfg, site, w, k))
  }

  ghost predicate AllLeft(p: Phase, cfg: ClusterConfig, site: Site, names: seq<string>, w: World, w': World) {
    forall k :: k in names ==> Left(p, cfg, NodeOf(cfg.nodes, k), M(cfg, site, w, k), M(cfg, site, w', k))
  }

  /** Between two worlds a phase has changed nothing but its own part of the listed machines. */
  ghost predicate Framed(p: Phase, cfg: ClusterConfig, site: Site, names: seq<string>, w: World, w': World) {
    && (forall k :: k in cfg.nodeNames ==> SameOutside(p, cfg, NodeOf(cfg.nodes, k), M(cfg, site, w, k), M(cfg, site, w', k)))
    && (forall k :: k in cfg.nodeNames && k !in names ==> M(cfg, site, w', k) == M(cfg, site, w, k))
  }

  /** A round writes to one machine only. */
  lemma RoundMachines(p: Phase, cfg: ClusterConfig, key: string, w: World, site: Site, net: Net)
    ensures var node, r := NodeOf(cfg.nodes, key), NodeRound(p, cfg, key, w, site, net);
            var run := PhaseStep(p, MachineAt(w.machines, Host(site, node)), cfg, node, site.link(key), net, w.clock + 1);
            && (net.step(w.clock) == Done ==> MachineAt(r.w.machines, Host(site, node)) == run.state && r.ok == run.ok)
            && (net.step(w.clock) != Done ==> !r.ok && r.w.machines == w.machines)
            && (forall h :: h != Host(site, node) ==> MachineAt(r.w.machines, h) == MachineAt(w.machines, h))
  {
    hide PhaseStep, NewStatus, Reached;
  }

  lemma RoundEffect(p: Phase, cfg: ClusterConfig, key: string, w: World, site: Site, net: Net)
    requires Fits(cfg, site) && key in cfg.nodeNames
    ensures var r, node := NodeRound(p, cfg, key, w, site, net), NodeOf(cfg.nodes, key);
            && Framed(p, cfg, site, [key], w, r.w)
            && (r.ok ==> Left(p, cfg, node, M(cfg, site, w, key), M(cfg, site, r.w, key)))
            && (r.ok && Ready(p, cfg, node, M(cfg, site, w, key)) ==>
                  (Met(p, cfg, node, M(cfg, site, r.w, key)) <==> !RoundInWindow(p, cfg, site, key, w, net)))
  {
    hide PhaseStep, Ready, Met, Left, NodeFits, NodeRound, SameOutside, MachineAt, HostsFile.NodesFreeOf, StepInWindow;
    StepEffect(p, M(cfg, site, w, key), cfg, NodeOf(cfg.nodes, key), site.link(key), net, w.clock + 1);
    RoundMachines(p, cfg, key, w, site, net);
    SameMachine(p, cfg);
  }

  lemma SameMachine(p: Phase, cfg: ClusterConfig)
    ensures forall m, node :: SameOutside(p, cfg, node, m, m)
  {
  }

  lemma SameTransitive(p: Phase, cfg: ClusterConfig)
    ensures forall a, b, c, node :: SameOutside(p, cfg, node, a, b) && SameOutside(p, cfg, node, b, c) ==> SameOutside(p, cfg, node, a, c)
  {
  }

  /** Adding one node's round to a phase's effect on the nodes before it. */
  lemma FramedSnoc(p: Phase, cfg: ClusterConfig, site: Site, names: seq<string>, key: string, w: World, w': World, w'': World)
    requires Framed(p, cfg, site, names, w, w') && Framed(p, cfg, site, [key], w', w'') && key !in names && key in cfg.nodeNames
    requires forall k :: k in names ==> k in cfg.nodeNames
    ensures Framed(p, cfg, site, names + [key], w, w'')
    ensures M(cfg, site, w', key) == M(cfg, site, w, key)
    ensures forall k :: k in names ==> M(cfg, site, w'', k) == M(cfg, site, w', k)
  {
    hide SameOutside, M;
    SameTransitive(p, cfg);
  }

  lemma AllSnoc(p: Phase, cfg: ClusterConfig, site: Site, names: seq<string>, key: string, w: World, w': World, w'': World)
    requires forall k :: k in names ==> M(cfg, site, w'', k) == M(cfg, site, w', k)
    ensures AllMet(p, cfg, site, names + [key], w'') <==> AllMet(p, cfg, site, names, w') && Met(p, cfg, NodeOf(cfg.nodes, key), M(cfg, site, w'', key))
    ensures AllLeft(p, cfg, site, names + [key], w, w'') <==>
              AllLeft(p, cfg, site, names, w, w') && Left(p, cfg, NodeOf(cfg.nodes, key), M(cfg, site, w, key), M(cfg, site, w'', key))
  {
    hide Met, Left, M;
    var all := names + [key];
    assert key in all && forall k :: k in all <==> k in names || k == key;
  }

  lemma {:induction false} PhaseEffect(p: Phase, cfg: ClusterConfig, names: seq<string>, start: Progress, site: Site, net: Net)
    requires Fits(cfg, site) && Distinct(names) && (forall k :: k in names ==> k in cfg.nodeNames)
    ensures var r := RunPhase(p, cfg, names, start, site, net);
            && Framed(p, cfg, site, names, start.w, r.w)
            && (r.ok ==> AllLeft(p, cfg, site, names, start.w, r.w))
            && (r.ok && AllReady(p, cfg, site, names, start.w) ==> (AllMet(p, cfg, site, names, r.w) <==> !PhaseInWindow(p, cfg, names, start, site, net)))
    decreases |names|
  {
    hide NodeRound, Ready, Met, Left, Fits, SameOutside, M, Framed, RoundInWindow;
    if names == [] {
      NothingChanged(p, cfg, site, start.w);
    } else {
      var n := |names| - 1;
      var key, front := names[n], RunPhase(p, cfg, names[..n], start, site, net);
      PhaseEffect(p, cfg, names[..n], start, site, net);
      assert names == names[..n] + [key];
      if front.ok {
        var last := NodeRound(p, cfg, key, front.w, site, net);
        RoundEffect(p, cfg, key, front.w, site, net);
        FramedSnoc(p, cfg, site, names[..n], key, start.w, front.w, last.w);
        AllSnoc(p, cfg, site, names[..n], key, start.w, front.w, last.w);
      } else {
        FramedMore(p, cfg, site, names[..n], key, start.w, front.w);
      }
    }
  }

  lemma NothingChanged(p: Phase, cfg: ClusterConfig, site: Site, w: World)
    ensures Framed(p, cfg, site, [], w, w)
  {
    SameMachine(p, cfg);
  }

  lemma FramedMore(p: Phase, cfg: ClusterConfig, site: Site, names: seq<string>, key: string, w: World, w': World)
    requires Framed(p, cfg, site, names, w, w')
    ensures Framed(p, cfg, site, names + [key], w, w')
  {
  }

  lemma {:induction false} StoppedStays(p: Phase, cfg: ClusterConfig, names: seq<string>, start: Progress, site: Site, net: Net)
    requires !start.ok
    ensures RunPhase(p, cfg, names, start, site, net) == start
    decreases |names|
  {
    if names != [] { StoppedStays(p, cfg, names[..|names| - 1], start, site, net); }
  }

  /** One phase inside the run: its own effect. */
  lemma PhaseInRun(p: Phase, cfg: ClusterConfig, start: Progress, site: Site, net: Net)
    requires Fits(cfg, site)
    ensures var r := MaybePhase(p, cfg, start, site, net);
            && (r.ok ==> start.ok)
            && (r.ok && Runs(p, cfg) ==> AllLeft(p, cfg, site, cfg.nodeNames, start.w, r.w))
            && (r.ok && Runs(p, cfg) && AllReady(p, cfg, site, cfg.nodeNames, start.w) ==>
                  (AllMet(p, cfg, site, cfg.nodeNames, r.w) <==> !PhaseInWindow(p, cfg, cfg.nodeNames, start, site, net)))
            && Framed(p, cfg, site, cfg.nodeNames, start.w, r.w)
  {
    hide RunPhase, Fits, AllReady, AllMet, AllLeft, Framed, PhaseInWindow;
    if Runs(p, cfg) {
      OwnNames(cfg, site);
      PhaseEffect(p, cfg, cfg.nodeNames, start, site, net);
      if !start.ok { StoppedStays(p, cfg, cfg.nodeNames, start, site, net); }
    } else {
      UnchangedFramed(p, cfg, site, start.w);
    }
  }

  lemma UnchangedFramed(p: Phase, cfg: ClusterConfig, site: Site, w: World)
    ensures Framed(p, cfg, site, cfg.nodeNames, w, w)
  {
    SameMachine(p, cfg);
  }

  /** What other phases rely on or have left is carried through a phase. */
  lemma OthersKept(p: Phase, cfg: ClusterConfig, site: Site, w0: World, w: World, w': World)
    requires Framed(p, cfg, site, cfg.nodeNames, w, w')
    ensures forall q: Phase :: q != p ==> (AllReady(q, cfg, site, cfg.nodeNames, w) <==> AllReady(q, cfg, site, cfg.nodeNames, w'))
    ensures forall q: Phase :: q != p ==> (AllMet(q, cfg, site, cfg.nodeNames, w) <==> AllMet(q, cfg, site, cfg.nodeNames, w'))
    ensures forall q: Phase :: q != p && AllLeft(q, cfg, site, cfg.nodeNames, w0, w) ==> AllLeft(q, cfg, site, cfg.nodeNames, w0, w')
    ensures OthersRun(cfg, site, w0, w) ==> OthersRun(cfg, site, w0, w')
  {
    forall q: Phase, k | q != p && k in cfg.nodeNames
      ensures Ready(q, cfg, NodeOf(cfg.nodes, k), M(cfg, site, w, k)) <==> Ready(q, cfg, NodeOf(cfg.nodes, k), M(cfg, site, w', k))
      ensures Met(q, cfg, NodeOf(cfg.nodes, k), M(cfg, site, w, k)) <==> Met(q, cfg, NodeOf(cfg.nodes, k), M(cfg, site, w', k))
      ensures Left(q, cfg, NodeOf(cfg.nodes, k), M(cfg, site, w0, k), M(cfg, site, w, k)) ==> Left(q, cfg, NodeOf(cfg.nodes, k), M(cfg, site, w0, k), M(cfg, site, w', k))
    {
      OtherPartsKept(p, q, cfg, NodeOf(cfg.nodes, k), M(cfg, site, w0, k), M(cfg, site, w, k), M(cfg, site, w', k));
    }
    hide Ready, Met, Left;
  }

  lemma OwnNames(cfg: ClusterConfig, site: Site)
    requires Fits(cfg, site)
    ensures Distinct(cfg.nodeNames)
  {
  }

  lemma OtherPartsKept(p: Phase, q: Phase, cfg: ClusterConfig, node: NodeConfig, m0: Machine, m: Machine, m': Machine)
    requires p != q && SameOutside(p, cfg, node, m, m')
    ensures Ready(q, cfg, node, m) <==> Ready(q, cfg, node, m')
    ensures Met(q, cfg, node, m) <==> Met(q, cfg, node, m')
    ensures Left(q, cfg, node, m0, m) ==> Left(q, cfg, node, m0, m')
  {
  }

  /** Every node's machine has the service of the other role, and the interfaces of other names, as they were. */
  ghost predicate OthersRun(cfg: ClusterConfig, site: Site, w: World, w': World) {
    forall k :: k in cfg.nodeNames ==> SameOthers(cfg, NodeOf(cfg.nodes, k), M(cfg, site, w, k), M(cfg, site, w', k))
  }

  ghost predicate SameOthers(cfg: ClusterConfig, node: NodeConfig, m: Machine, m': Machine) {
    && K3s.OtherService(m'.k3s, node.role) == K3s.OtherService(m.k3s, node.role)
    && forall i :: i != cfg.wireGuard.iface ==> InterfaceAt(m'.wg, i) == InterfaceAt(m.wg, i)
  }

  // ------------------------------------------------------------------ theorems

  /** Every machine starts in a state that the shortcuts of the phases to come can be trusted on. */
  ghost predicate Trusted(cfg: ClusterConfig, site: Site, w: World) { forall p: Phase :: Runs(p, cfg) ==> AllReady(p, cfg, site, cfg.nodeNames, w) }

  /** Every machine is at the target of every phase that runs. */
  ghost predicate AtTarget(cfg: ClusterConfig, site: Site, w: World) { forall p: Phase :: Runs(p, cfg) ==> AllMet(p, cfg, site, cfg.nodeNames, w) }

  /** Every phase that runs has left its mark on every machine. */
  ghost predicate LeftBehind(cfg: ClusterConfig, site: Site, w: World, w': World) {
    forall p: Phase :: Runs(p, cfg) ==> AllLeft(p, cfg, site, cfg.nodeNames, w, w')
  }

  /**
   Success and convergence.  From trusted machines a run that reports success leaves every machine
   with the rendered hosts block, a live interface equal to its rendered WireGuard configuration,
   exactly the target firewall rules, active, and K3s running exactly the rendered config, whichever
   shortcuts were taken and whichever queries went unanswered, exactly when no install was caught
   between the upload of a changed config and the restart.
   */
  lemma SuccessConvergesIff(w: World, cfg: ClusterConfig, site: Site, net: Net)
    requires Fits(cfg, site) && Trusted(cfg, site, w)
    requires Run(w, cfg, site, net).ok
    ensures AtTarget(cfg, site, Run(w, cfg, site, net).w) <==> !RunInWindow(w, cfg, site, net)
  {
    hide RunPhase, AllReady, AllMet, AllLeft, Fits, MaybePhase, Framed, PhaseInWindow, OthersRun;
    var names, p0 := cfg.nodeNames, Fresh(w);
    var p1 := MaybePhase(Prepare, cfg, p0, site, net);
    var p2 := MaybePhase(Connect, cfg, p1, site, net);
    var p3 := MaybePhase(Protect, cfg, p2, site, net);
    var p4 := MaybePhase(Install, cfg, p3, site, net);
    SameWorlds(cfg, site, w, p0.w);
    PhaseInRun(Prepare, cfg, p0, site, net);
    OthersKept(Prepare, cfg, site, w, p0.w, p1.w);
    PhaseInRun(Connect, cfg, p1, site, net);
    OthersKept(Connect, cfg, site, w, p1.w, p2.w);
    PhaseInRun(Protect, cfg, p2, site, net);
    OthersKept(Protect, cfg, site, w, p2.w, p3.w);
    PhaseInRun(Install, cfg, p3, site, net);
    OthersKept(Install, cfg, site, w, p3.w, p4.w);
    OnlyInstall(Prepare, cfg, names, p0, site, net);
    OnlyInstall(Connect, cfg, names, p1, site, net);
    OnlyInstall(Protect, cfg, names, p2, site, net);
    assert Run(w, cfg, site, net) == Finish(cfg, p4.w, net);
    SameWorlds(cfg, site, p4.w, Run(w, cfg, site, net).w);
    forall p: Phase | Runs(p, cfg) && !p.Install? ensures AllMet(p, cfg, site, names, p4.w) {
      match p
      case Prepare =>
      case Connect =>
      case Protect =>
    }
  }

  /** Only installs have a window. */
  lemma {:induction false} OnlyInstall(p: Phase, cfg: ClusterConfig, names: seq<string>, start: Progress, site: Site, net: Net)
    requires !p.Install?
    ensures !PhaseInWindow(p, cfg, names, start, site, net)
    decreases |names|
  {
    hide RunPhase;
    if names != [] { OnlyInstall(p, cfg, names[..|names| - 1], start, site, net); }
  }

  /** Two worlds with the same machines. */
  lemma SameWorlds(cfg: ClusterConfig, site: Site, w: World, w': World)
    requires w'.machines == w.machines
    ensures forall p: Phase :: AllReady(p, cfg, site, cfg.nodeNames, w) <==> AllReady(p, cfg, site, cfg.nodeNames, w')
    ensures forall p: Phase :: AllMet(p, cfg, site, cfg.nodeNames, w) <==> AllMet(p, cfg, site, cfg.nodeNames, w')
    ensures forall p: Phase, v: World :: AllLeft(p, cfg, site, cfg.nodeNames, v, w) <==> AllLeft(p, cfg, site, cfg.nodeNames, v, w')
    ensures forall p: Phase, v: World :: AllLeft(p, cfg, site, cfg.nodeNames, w, v) <==> AllLeft(p, cfg, site, cfg.nodeNames, w', v)
    ensures forall v: World :: OthersRun(cfg, site, v, w) <==> OthersRun(cfg, site, v, w')
    ensures OthersRun(cfg, site, w, w')
  {
    hide Ready, Met, Left;
  }

  /**
   What a run leaves on trusted or untrusted machines: after success every phase has left its mark,
   and whatever the outcome no service of another role than the node's was touched.
   */
  lemma RunLeaves(w: World, cfg: ClusterConfig, site: Site, net: Net)
    requires Fits(cfg, site)
    ensures OthersRun(cfg, site, w, Run(w, cfg, site, net).w)
    ensures Run(w, cfg, site, net).ok ==> LeftBehind(cfg, site, w, Run(w, cfg, site, net).w)
  {
    hide RunPhase, AllReady, AllMet, AllLeft, Fits, MaybePhase, Framed, PhaseInWindow, OthersRun;
    var p0 := Fresh(w);
    var p1 := MaybePhase(Prepare, cfg, p0, site, net);
    var p2 := MaybePhase(Connect, cfg, p1, site, net);
    var p3 := MaybePhase(Protect, cfg, p2, site, net);
    var p4 := MaybePhase(Install, cfg, p3, site, net);
    SameWorlds(cfg, site, w, p0.w);
    PhaseInRun(Prepare, cfg, p0, site, net);
    OthersKept(Prepare, cfg, site, w, p0.w, p1.w);
    PhaseInRun(Connect, cfg, p1, site, net);
    OthersKept(Connect, cfg, site, w, p1.w, p2.w);
    PhaseInRun(Protect, cfg, p2, site, net);
    OthersKept(Protect, cfg, site, w, p2.w, p3.w);
    PhaseInRun(Install, cfg, p3, site, net);
    OthersKept(Install, cfg, site, w, p3.w, p4.w);
    LateLeft(Connect, cfg, site, w, p1.w, p2.w);
    LateLeft(Protect, cfg, site, w, p2.w, p3.w);
    LateLeft(Install, cfg, site, w, p3.w, p4.w);
    SameWorlds(cfg, site, p4.w, Run(w, cfg, site, net).w);
    if Run(w, cfg, site, net).ok {
      forall p: Phase | Runs(p, cfg) ensures AllLeft(p, cfg, site, cfg.nodeNames, w, p4.w) {
        match p
        case Prepare =>
        case Connect =>
        case Protect =>
        case Install =>
      }
    }
  }

  /** What a later phase leaves does not depend on where it started. */
  lemma LateLeft(p: Phase, cfg: ClusterConfig, site: Site, w0: World, w: World, w': World)
    requires !p.Prepare?
    ensures AllLeft(p, cfg, site, cfg.nodeNames, w, w') ==> AllLeft(p, cfg, site, cfg.nodeNames, w0, w')
  {
    hide Idle;
  }

  /** No service of another role runs. */
  predicate OnlyOwnService(cfg: ClusterConfig, node: NodeConfig, m: Machine) { K3s.OtherService(m.k3s, node.role).Stopped? }

  /** No interface of another name is up. */
  ghost predicate OnlyOwnInterface(cfg: ClusterConfig, m: Machine) {
    forall i :: i != cfg.wireGuard.iface ==> !InterfaceAt(m.wg, i).active
  }

  /**
   The provider never stops a service and never takes an interface down: after any run a node's machine
   runs the service of its own role only exactly when no other one ran before, and has the configured
   interface only exactly when no other one was up before.
   */
  lemma OnlyOwnIff(w: World, cfg: ClusterConfig, site: Site, net: Net, k: string)
    requires Fits(cfg, site) && k in cfg.nodeNames
    ensures var node, m, m' := NodeOf(cfg.nodes, k), M(cfg, site, w, k), M(cfg, site, Run(w, cfg, site, net).w, k);
            && (OnlyOwnService(cfg, node, m') <==> OnlyOwnService(cfg, node, m))
            && (OnlyOwnInterface(cfg, m') <==> OnlyOwnInterface(cfg, m))
  {
    hide Fits, Run, M, K3s.OtherService, InterfaceAt;
    RunLeaves(w, cfg, site, net);
    assert SameOthers(cfg, NodeOf(cfg.nodes, k), M(cfg, site, w, k), M(cfg, site, Run(w, cfg, site, net).w, k));
  }

  // --------------------------------------------------------------- repeated runs

  function Undisturbed(p: Phase, cfg: ClusterConfig, m: Machine): Machine { if p.Prepare? then Edited(cfg, m) else m }

  /** Where a phase has left its mark, an undisturbed step succeeds and does no more than edit the hosts file again. */
  lemma StepIdle(p: Phase, m: Machine, cfg: ClusterConfig, node: NodeConfig, env: WireGuard.LinkEnv, net: Net, t: nat)
    requires NodeFits(cfg, node, env) && Idle(p, cfg, node, m) && Calm(net)
    ensures PhaseStep(p, m, cfg, node, env, net, t).ok && PhaseStep(p, m, cfg, node, env, net, t).state == Undisturbed(p, cfg, m)
  {
    hide FirewallRuns.Configure, FirewallRuns.Chain, K3s.Install, K3s.Rendered, FirewallRuns.Rules, K3s.Written, Firewall.ScriptText,
      HostsFile.Orderly, HostsFile.Edit, HostsFile.HostsBlock, WireGuard.InPlace, WireGuard.NodeConf, WireGuard.Configure, AddrOf;
    match p
    case Prepare =>
      if cfg.wireGuard.enabled {
        ConfAddress(cfg, node);
        UpIsListed(m.wg, cfg.wireGuard.iface, WireGuard.NodeConf(cfg, node), AddrOf(node.privateIP));
        var hosts := HostsStep(m, cfg, node, net, t);
        var system := SystemStep(hosts.state, net, hosts.clock);
        WireGuard.ConfigureIdle(InterfaceAt(m.wg, cfg.wireGuard.iface), cfg.wireGuard.iface, WireGuard.NodeConf(cfg, node), AddrOf(node.privateIP), env, net, system.clock);
      }
    case Connect => PingsKeep(m, cfg, node, cfg.nodeNames, net, t);
    case Protect => FirewallIdle(m.firewall, FirewallRuns.Rules(cfg, node), net, t);
    case Install => K3s.InstallWrites(m.k3s, node.role, K3s.Rendered(cfg, node), net, t);
  }

  lemma UpIsListed(wg: map<string, WireGuard.WireGuardState>, iface: string, c: WireGuard.Conf, addr: Addr)
    requires WireGuard.InPlace(InterfaceAt(wg, iface), c, addr)
    ensures wg[iface := InterfaceAt(wg, iface)] == wg
  {
  }

  lemma FirewallIdle(f: FirewallRuns.FirewallState, rules: seq<Firewall.Rule>, net: Net, t: nat)
    requires f.ufw.active && f.marker == Some(Firewall.ScriptText(Firewall.Script(rules))) && Calm(net)
    ensures FirewallRuns.Configure(f, rules, net, t) == Step(f, t + 2, true)
  {
    hide Firewall.ScriptText, Firewall.Script, FirewallRuns.Chain;
  }

  /** Two worlds with the same machine for every node. */
  ghost predicate SameMachines(cfg: ClusterConfig, site: Site, w: World, w': World) {
    forall k :: k in cfg.nodeNames ==> M(cfg, site, w', k) == M(cfg, site, w, k)
  }

  /** The listed nodes' machines have had one undisturbed step of phase `p`, and the others none. */
  ghost predicate Stepped(p: Phase, cfg: ClusterConfig, site: Site, names: seq<string>, w: World, w': World) {
    forall k :: k in cfg.nodeNames ==> M(cfg, site, w', k) == if k in names then Undisturbed(p, cfg, M(cfg, site, w, k)) else M(cfg, site, w, k)
  }

  lemma RoundIdle(p: Phase, cfg: ClusterConfig, key: string, w: World, site: Site, net: Net)
    requires Fits(cfg, site) && key in cfg.nodeNames && Calm(net) && Idle(p, cfg, NodeOf(cfg.nodes, key), M(cfg, site, w, key))
    ensures NodeRound(p, cfg, key, w, site, net).ok && Stepped(p, cfg, site, [key], w, NodeRound(p, cfg, key, w, site, net).w)
  {
    hide PhaseStep, Idle, NodeFits, NodeRound, Undisturbed, MachineAt, HostsFile.NodesFreeOf;
    StepIdle(p, M(cfg, site, w, key), cfg, NodeOf(cfg.nodes, key), site.link(key), net, w.clock + 1);
    RoundMachines(p, cfg, key, w, site, net);
  }

  lemma SteppedSnoc(p: Phase, cfg: ClusterConfig, site: Site, names: seq<string>, key: string, w: World, w': World, w'': World)
    requires Stepped(p, cfg, site, names, w, w') && Stepped(p, cfg, site, [key], w', w'') && key !in names && key in cfg.nodeNames
    ensures Stepped(p, cfg, site, names + [key], w, w'')
    ensures M(cfg, site, w', key) == M(cfg, site, w, key)
  {
    hide Undisturbed, M;
  }

  lemma {:induction false} PhaseIdle(p: Phase, cfg: ClusterConfig, names: seq<string>, start: Progress, site: Site, net: Net)
    requires Fits(cfg, site) && Calm(net) && start.ok && Distinct(names) && (forall k :: k in names ==> k in cfg.nodeNames)
    requires AllIdle(p, cfg, site, names, start.w)
    ensures RunPhase(p, cfg, names, start, site, net).ok && Stepped(p, cfg, site, names, start.w, RunPhase(p, cfg, names, start, site, net).w)
    decreases |names|
  {
    hide NodeRound, Idle, Fits, M, Undisturbed, Stepped;
    if names == [] {
      NoneStepped(p, cfg, site, start.w);
    } else {
      var n := |names| - 1;
      var key, front := names[n], RunPhase(p, cfg, names[..n], start, site, net);
      assert names == names[..n] + [key];
      PhaseIdle(p, cfg, names[..n], start, site, net);
      KeyUnstepped(p, cfg, site, names[..n], key, start.w, front.w);
      RoundIdle(p, cfg, key, front.w, site, net);
      SteppedSnoc(p, cfg, site, names[..n], key, start.w, front.w, NodeRound(p, cfg, key, front.w, site, net).w);
    }
  }

  lemma NoneStepped(p: Phase, cfg: ClusterConfig, site: Site, w: World)
    ensures Stepped(p, cfg, site, [], w, w)
  {
  }

  lemma KeyUnstepped(p: Phase, cfg: ClusterConfig, site: Site, names: seq<string>, key: string, w: World, w': World)
    requires Stepped(p, cfg, site, names, w, w') && key !in names && key in cfg.nodeNames
    ensures M(cfg, site, w', key) == M(cfg, site, w, key)
  {
    hide M, Undisturbed;
  }

  /** The later phases: a run that has left its mark everywhere changes nothing in them. */
  lemma LateIdle(p: Phase, cfg: ClusterConfig, start: Progress, site: Site, net: Net)
    requires Fits(cfg, site) && Calm(net) && start.ok && !p.Prepare? && (Runs(p, cfg) ==> AllIdle(p, cfg, site, cfg.nodeNames, start.w))
    ensures MaybePhase(p, cfg, start, site, net).ok && SameMachines(cfg, site, start.w, MaybePhase(p, cfg, start, site, net).w)
  {
    hide RunPhase, Idle, Fits, M;
    if Runs(p, cfg) {
      OwnNames(cfg, site);
      PhaseIdle(p, cfg, cfg.nodeNames, start, site, net);
    }
  }

  /** Every phase that runs finds nothing to do. */
  ghost predicate Quiet(cfg: ClusterConfig, site: Site, w: World) { forall p: Phase :: Runs(p, cfg) ==> AllIdle(p, cfg, site, cfg.nodeNames, w) }

  lemma IdleAgain(p: Phase, cfg: ClusterConfig, site: Site, w: World, w': World)
    requires SameMachines(cfg, site, w, w') || (Stepped(Prepare, cfg, site, cfg.nodeNames, w, w') && !p.Prepare?)
    ensures AllIdle(p, cfg, site, cfg.nodeNames, w) ==> AllIdle(p, cfg, site, cfg.nodeNames, w')
  {
    forall k | k in cfg.nodeNames && Idle(p, cfg, NodeOf(cfg.nodes, k), M(cfg, site, w, k)) ensures Idle(p, cfg, NodeOf(cfg.nodes, k), M(cfg, site, w', k)) {
    }
  }

  lemma StaysSame(cfg: ClusterConfig, site: Site, w: World, w': World, w'': World)
    requires Stepped(Prepare, cfg, site, cfg.nodeNames, w, w') && SameMachines(cfg, site, w', w'')
    ensures Stepped(Prepare, cfg, site, cfg.nodeNames, w, w'')
  {
    hide M, Undisturbed;
  }

  /** An undisturbed run over quiet machines succeeds, if it can finish, and only edits the hosts files again. */
  lemma RunQuiet(w: World, cfg: ClusterConfig, site: Site, calm: Net)
    requires Fits(cfg, site) && Calm(calm) && Quiet(cfg, site, w)
    requires K3s.FirstServerOf(cfg.nodes, cfg.nodeNames).Some? && AdminConfsRender(cfg)
    ensures Run(w, cfg, site, calm).ok && Stepped(Prepare, cfg, site, cfg.nodeNames, w, Run(w, cfg, site, calm).w)
  {
    hide AllIdle, RunPhase, MaybePhase, Fits, AdminConfsRender, Stepped, SameMachines;
    var p0 := Fresh(w);
    var p1 := MaybePhase(Prepare, cfg, p0, site, calm);
    PrepareQuiet(w, cfg, site, calm);
    var p2 := MaybePhase(Connect, cfg, p1, site, calm);
    IdleAgain(Connect, cfg, site, w, p1.w);
    LateIdle(Connect, cfg, p1, site, calm);
    StaysSame(cfg, site, w, p1.w, p2.w);
    var p3 := MaybePhase(Protect, cfg, p2, site, calm);
    IdleAgain(Protect, cfg, site, w, p2.w);
    LateIdle(Protect, cfg, p2, site, calm);
    StaysSame(cfg, site, w, p2.w, p3.w);
    var p4 := MaybePhase(Install, cfg, p3, site, calm);
    IdleAgain(Install, cfg, site, w, p3.w);
    LateIdle(Install, cfg, p3, site, calm);
    StaysSame(cfg, site, w, p3.w, p4.w);
    assert AfterInstall(w, cfg, site, calm) == p4;
    assert Run(w, cfg, site, calm) == Finish(cfg, p4.w, calm);
    SameTable(cfg, site, p4.w, Run(w, cfg, site, calm).w);
    StaysSame(cfg, site, w, p4.w, Run(w, cfg, site, calm).w);
  }

  lemma SameTable(cfg: ClusterConfig, site: Site, w: World, w': World)
    requires w'.machines == w.machines
    ensures SameMachines(cfg, site, w, w')
  {
  }

  lemma PrepareQuiet(w: World, cfg: ClusterConfig, site: Site, calm: Net)
    requires Fits(cfg, site) && Calm(calm) && Quiet(cfg, site, w)
    ensures var p1 := MaybePhase(Prepare, cfg, Fresh(w), site, calm); p1.ok && Stepped(Prepare, cfg, site, cfg.nodeNames, w, p1.w)
  {
    hide RunPhase, Idle, Fits, Undisturbed;
    OwnNames(cfg, site);
    assert Runs(Prepare, cfg);
    var p0 := Fresh(w);
    assert AllIdle(Prepare, cfg, site, cfg.nodeNames, p0.w);
    PhaseIdle(Prepare, cfg, cfg.nodeNames, p0, site, calm);
  }

  /** At the target an undisturbed run succeeds, if it can finish, and changes no machine. */
  lemma RunIdle(w: World, cfg: ClusterConfig, site: Site, calm: Net)
    requires Fits(cfg, site) && Calm(calm) && AtTarget(cfg, site, w)
    requires K3s.FirstServerOf(cfg.nodes, cfg.nodeNames).Some? && AdminConfsRender(cfg)
    ensures Run(w, cfg, site, calm).ok && SameMachines(cfg, site, w, Run(w, cfg, site, calm).w)
  {
    hide Fits, Run, AdminConfsRender, Idle, Met, HostsFile.Edit;
    assert Runs(Prepare, cfg);
    forall p: Phase, k | Runs(p, cfg) && k in cfg.nodeNames
      ensures Idle(p, cfg, NodeOf(cfg.nodes, k), M(cfg, site, w, k)) && (p.Prepare? ==> Edited(cfg, M(cfg, site, w, k)) == M(cfg, site, w, k))
    {
      TargetIdle(p, cfg, NodeOf(cfg.nodes, k), M(cfg, site, w, k));
    }
    RunQuiet(w, cfg, site, calm);
  }

  lemma TargetIdle(p: Phase, cfg: ClusterConfig, node: NodeConfig, m: Machine)
    requires Met(p, cfg, node, m)
    ensures Idle(p, cfg, node, m) && (p.Prepare? ==> Edited(cfg, m) == m)
  {
    hide HostsFile.Edit, HostsFile.Orderly, Firewall.ScriptText, FirewallRuns.Rules, K3s.Rendered, WireGuard.InPlace;
  }

  /**
   Applying the same configuration again after a success is quiet, converged or not: the
   undisturbed second run succeeds and restarts and resets nothing.  It leaves every machine exactly
   as it was if and only if every hosts file was orderly before the first run.
   */
  lemma QuietRepeatIff(w: World, cfg: ClusterConfig, site: Site, net: Net, calm: Net)
    requires Fits(cfg, site) && Calm(calm) && Run(w, cfg, site, net).ok
    ensures var w' := Run(w, cfg, site, net).w;
            && Run(w', cfg, site, calm).ok && Stepped(Prepare, cfg, site, cfg.nodeNames, w', Run(w', cfg, site, calm).w)
            && (SameMachines(cfg, site, w', Run(w', cfg, site, calm).w) <==> AllReady(Prepare, cfg, site, cfg.nodeNames, w))
  {
    hide Fits, AfterInstall, LeftBehind, Quiet, Stepped, SameMachines, AllReady, AdminConfsRender, OthersRun;
    var w' := Run(w, cfg, site, net).w;
    RunLeaves(w, cfg, site, net);
    LeftQuiet(cfg, site, w, w');
    RunQuiet(w', cfg, site, calm);
    HostsRepeat(cfg, site, w, w', Run(w', cfg, site, calm).w);
  }

  lemma LeftQuiet(cfg: ClusterConfig, site: Site, w: World, w': World)
    requires LeftBehind(cfg, site, w, w')
    ensures Quiet(cfg, site, w')
  {
    hide Idle, M;
    forall p: Phase | Runs(p, cfg) ensures AllIdle(p, cfg, site, cfg.nodeNames, w') { assert AllLeft(p, cfg, site, cfg.nodeNames, w, w'); }
  }

  lemma HostsRepeat(cfg: ClusterConfig, site: Site, w: World, w': World, w'': World)
    requires Fits(cfg, site) && LeftBehind(cfg, site, w, w') && Stepped(Prepare, cfg, site, cfg.nodeNames, w', w'')
    ensures SameMachines(cfg, site, w', w'') <==> AllReady(Prepare, cfg, site, cfg.nodeNames, w)
  {
    hide M, Idle, HostsFile.Edit, HostsFile.Orderly, HostsFile.HostsBlock, NodeFits, OwnMachines;
    assert Runs(Prepare, cfg) && AllLeft(Prepare, cfg, site, cfg.nodeNames, w, w');
    HostsFile.RenderedIsBlock(cfg) by { hide HostsFile.IsBlock; }
    forall k | k in cfg.nodeNames ensures M(cfg, site, w'', k) == M(cfg, site, w', k) <==> HostsFile.Orderly(M(cfg, site, w, k).hosts) {
      HostsFile.LastWriteWinsIff(M(cfg, site, w, k).hosts, HostsFile.HostsBlock(cfg), HostsFile.HostsBlock(cfg));
    }
  }

  /**
   The same for the whole cycle: after a successful create or update, planning and applying the
   same plan against the stored state expands to the same configuration, whatever the random
   source yields, and the undisturbed apply changes no machine, again if and only if the hosts files
   were orderly at first.
   */
  lemma SecondApplyIsQuiet(plan: ClusterModel, prior: ClusterModel, provider: SSHConfig, first: Supply, second: Supply, derive: Derive, lib: NetLib, out: Outputs,
                           w: World, site: Site, net: Net, calm: Net)
    requires DistinctNodes(plan) && Honest(first, derive) && Expand(plan, prior, provider, first, derive, lib).Ok?
    requires var cfg := Expand(plan, prior, provider, first, derive, lib).value; Fits(cfg, site) && Run(w, cfg, site, net).ok
    requires Calm(calm)
    ensures var cfg := Expand(plan, prior, provider, first, derive, lib).value;
            var again := Expand(plan, ToState(cfg, plan, out), provider, second, derive, lib);
            var w' := Run(w, cfg, site, net).w;
            && again == Ok(cfg) && Run(w', again.value, site, calm).ok
            && (SameMachines(cfg, site, w', Run(w', again.value, site, calm).w) <==> AllReady(Prepare, cfg, site, cfg.nodeNames, w))
  {
    hide Expand, ToState, Fits, Run, SameMachines, Honest, DistinctNodes, AllReady, Stepped;
    ApplyTwice(plan, prior, provider, first, second, derive, lib, out);
    QuietRepeatIff(w, Expand(plan, prior, provider, first, derive, lib).value, site, net, calm);
  }
}

/**
 The apply run as the program performs it: a fleet of machines changed step by step, each step
 proved against the functions of module Apply.
 */
module Fleets {
  import opened Wrappers
  import opened Text
  import opened Addresses
  import opened Config
  import opened Remote
  import opened Apply
  import Convergence
  import HostsFile
  import WireGuard
  import Firewall
  import FirewallRuns
  import K3s

  class Fleet {
    var machines: map<string, Machine>
    var clock: nat
    var log: seq<Event>
    var statuses: map<string, string>
    const net: Net
    const site: Site

    constructor (machines: map<string, Machine>, net: Net, site: Site)
      ensures this.machines == machines && this.net == net && this.site == site
      ensures clock == 0 && log == [] && statuses == map[]
    {
      this.machines, this.net, this.site := machines, net, site;
      clock, log, statuses := 0, [], map[];
    }

    function Snapshot(): World
      reads this
    {
      World(machines, clock, log, statuses)
    }

    /** A query for a file or a service status. */
    method Query() returns (answered: bool)
      modifies this`clock
      ensures clock == old(clock) + 1 && answered == net.answers(old(clock))
    {
      answered := net.answers(clock);
      clock := clock + 1;
    }

    /** A command whose fate the network decides. */
    method Command() returns (e: Effect)
      modifies this`clock
      ensures clock == old(clock) + 1 && e == net.step(old(clock))
    {
      e := net.step(clock);
      clock := clock + 1;
    }

    /** A command that is carried out whole or not at all. */
    method Perform<S>(before: S, after: S) returns (s: S, ok: bool)
      modifies this`clock
      ensures var run := Do(before, after, net, old(clock)); s == run.state && clock == run.clock && ok == run.ok
    {
      var e := Command();
      s := if e.Done? || e.Unseen? then after else before;
      ok := e.Done?;
    }

    // ------------------------------------------------------------- firewall

    /** The remote shell running the `&&` chain. */
    method RunChain(commands: seq<Firewall.Command>, before: FirewallRuns.Ufw) returns (after: FirewallRuns.Ufw, ok: bool)
      modifies this`clock
      ensures var run := FirewallRuns.Chain(commands, before, net, old(clock)); after == run.state && clock == run.clock && ok == run.ok
    {
      after := before;
      var i := 0;
      while i < |commands|
        invariant 0 <= i <= |commands|
        invariant FirewallRuns.Chain(commands, before, net, old(clock)) == FirewallRuns.Chain(commands[i..], after, net, clock)
      {
        var e := Command();
        var next := FirewallRuns.Exec(commands[i], after);
        assert commands[i..][1..] == commands[i + 1..];
        if e.Unseen? { return next, false; }
        if !e.Done? { return after, false; }
        after, i := next, i + 1;
      }
      ok := true;
    }

    /** The body of `configureFirewall` for a built chain: skip, or run the script and mark it. */
    method ApplyRules(f0: FirewallRuns.FirewallState, commands: seq<Firewall.Command>, ghost rules: seq<Firewall.Rule>)
      returns (f: FirewallRuns.FirewallState, ok: bool)
      requires commands == Firewall.Script(rules)
      modifies this`clock
      ensures var run := FirewallRuns.Configure(f0, rules, net, old(clock)); f == run.state && clock == run.clock && ok == run.ok
    {
      hide Firewall.Script, Firewall.ScriptText, FirewallRuns.Chain;
      f := f0;
      var text := Firewall.ScriptText(commands);
      var read := Query();
      if read && f.marker == Some(text) {
        var shown := Query();
        if shown && f.ufw.active { return f, true; }
      }
      var ufw, ran := RunChain(commands, f.ufw);
      f := f.(ufw := ufw);
      if !ran { return f, false; }
      f, ok := Perform(f, f.(marker := Some(text)));
    }

    /** `configureFirewall`. */
    method ConfigureFirewall(cfg: ClusterConfig, node: NodeConfig) returns (ok: bool)
      modifies this`machines, this`clock
      ensures var run := FirewallStep(MachineAt(old(machines), Host(site, node)), cfg, node, net, old(clock));
              machines == old(machines)[Host(site, node) := run.state] && clock == run.clock && ok == run.ok
      ensures ok && FirewallRuns.InSync(MachineAt(old(machines), Host(site, node)).firewall, FirewallRuns.Rules(cfg, node)) ==>
                FirewallRuns.Admits(MachineAt(machines, Host(site, node)).firewall.ufw, cfg, node)
    {
      hide FirewallRuns.Rules, Firewall.Script, FirewallRuns.Configure, FirewallRuns.InSync, FirewallRuns.Admits;
      var m := MachineAt(machines, Host(site, node));
      machines := machines[Host(site, node) := m];
      if cfg.firewall.backend != "ufw" { return false; }
      var commands := FirewallRuns.BuildCommands(cfg, node);
      var f;
      if FirewallRuns.InSync(m.firewall, FirewallRuns.Rules(cfg, node)) { FirewallRuns.ConfigureAdmits(m.firewall, cfg, node, net, clock); }
      f, ok := ApplyRules(m.firewall, commands, FirewallRuns.Rules(cfg, node));
      machines := machines[Host(site, node) := m.(firewall := f)];
    }

    // ------------------------------------------------------------------ K3s

    method RestartK3s(s: K3s.K3sState, role: string) returns (after: K3s.K3sState, ok: bool)
      modifies this`clock
      ensures var run := K3s.Restart(s, role, net, old(clock)); after == run.state && clock == run.clock && ok == run.ok
    {
      var e := Command();
      after := if e.Done? || e.Unseen? then K3s.Started(s, role) else if e.Failed? then K3s.WithService(s, role, K3s.Stopped) else s;
      ok := e.Done?;
    }

    /** The body of `installK3s` for a rendered config. */
    method InstallConfig(s0: K3s.K3sState, role: string, config: K3s.YAML) returns (s: K3s.K3sState, ok: bool)
      modifies this`clock
      ensures var run := K3s.Install(s0, role, config, net, old(clock)); s == run.state && clock == run.clock && ok == run.ok
    {
      hide K3s.Started, K3s.WithService, K3s.ServiceOf;
      s, ok := Perform(s0, s0);
      if !ok { return; }
      var read := Query();
      var same := read && s.file == Some(config);
      s, ok := Perform(s, if same then s else s.(file := Some(config)));
      if !ok { return; }
      var shown := Query();
      if shown && K3s.ServiceOf(s, role).Running? {
        if same { return s, true; }
        s, ok := RestartK3s(s, role);
        return;
      }
      s, ok := Perform(s, if K3s.ServiceOf(s, role).Running? then s else K3s.Started(s, role));
      if !ok { return; }
      s, ok := Perform(s, s);
      ok := ok && K3s.ServiceOf(s, role).Running?;
    }

    /** `installK3s`. */
    method InstallK3s(cfg: ClusterConfig, node: NodeConfig) returns (ok: bool)
      modifies this`machines, this`clock
      ensures var run := InstallStep(MachineAt(old(machines), Host(site, node)), cfg, node, net, old(clock));
              machines == old(machines)[Host(site, node) := run.state] && clock == run.clock && ok == run.ok
    {
      hide K3s.Rendered, K3s.Install;
      var m := MachineAt(machines, Host(site, node));
      var config := K3s.RenderK3sConfig(cfg, node);
      var s;
      s, ok := InstallConfig(m.k3s, node.role, config);
      machines := machines[Host(site, node) := m.(k3s := s)];
    }

    // ----------------------------------------------------- hosts and WireGuard

    /** `configureHostnameAndHosts`. */
    method ConfigureHosts(cfg: ClusterConfig, node: NodeConfig) returns (ok: bool)
      modifies this`machines, this`clock
      ensures var run := HostsStep(MachineAt(old(machines), Host(site, node)), cfg, node, net, old(clock));
              machines == old(machines)[Host(site, node) := run.state] && clock == run.clock && ok == run.ok
    {
      hide HostsFile.HostsBlock, HostsFile.Edit, MachineAt, Host;
      var host := Host(site, node);
      var m := MachineAt(machines, host);
      ok := true;
      if node.hostname != "" { m, ok := Perform(m, m.(hostname := node.hostname)); }
      if ok {
        var block := HostsFile.RenderHostsBlock(cfg);
        m, ok := Perform(m, m.(hosts := HostsFile.Edit(m.hosts, block)));
      }
      machines := machines[host := m];
    }

    method RestartInterface(w: WireGuard.WireGuardState, conf: WireGuard.Conf, addr: Addr) returns (after: WireGuard.WireGuardState, ok: bool)
      modifies this`clock
      ensures var run := WireGuard.RestartInterface(w, conf, addr, net, old(clock)); after == run.state && clock == run.clock && ok == run.ok
    {
      var e := Command();
      after := if e.Done? || e.Unseen? then w.(active := true, live := Some(WireGuard.LiveOf(conf, addr)), restarts := w.restarts + 1)
               else if e.Failed? then w.(active := false, live := None) else w;
      ok := e.Done?;
    }

    method SyncInterface(w: WireGuard.WireGuardState, conf: WireGuard.Conf) returns (after: WireGuard.WireGuardState, ok: bool)
      modifies this`clock
      ensures var run := WireGuard.SyncConf(w, conf, net, old(clock)); after == run.state && clock == run.clock && ok == run.ok
    {
      if w.live.None? {
        var _ := Command();
        return w, false;
      }
      var live := w.live.value.(privateKey := conf.privateKey, listenPort := conf.listenPort, peers := conf.peers);
      after, ok := Perform(w, w.(live := Some(live)));
    }

    /** The body of `configureWireGuard` for a rendered conf. */
    method ConfigureInterface(w0: WireGuard.WireGuardState, iface: string, conf: WireGuard.Conf, addr: Addr, env: WireGuard.LinkEnv) returns (w: WireGuard.WireGuardState, ok: bool)
      modifies this`clock
      ensures var run := WireGuard.Configure(w0, iface, conf, addr, env, net, old(clock)); w == run.state && clock == run.clock && ok == run.ok
    {
      hide WireGuard.LinkOutput, WireGuard.RestartInterface, WireGuard.SyncConf, Find, Contains, IntText;
      w, ok := Perform(w0, w0);
      if !ok { return; }
      w, ok := Perform(w, w.(file := Some(conf)));
      if !ok { return; }
      var shown := Query();
      var active := shown && w.active;
      var listed := Query();
      var link := if listed then WireGuard.Shown(w, iface, env) else "";
      if !active || Find(link, " inet " + conf.address + "/32 ") < 0 || Find(link, " mtu " + IntText(conf.mtu) + " ") < 0 {
        w, ok := RestartInterface(w, conf, addr);
      } else {
        w, ok := SyncInterface(w, conf);
      }
    }

    /** `configureWireGuard`. */
    method ConfigureWireGuard(cfg: ClusterConfig, node: NodeConfig, env: WireGuard.LinkEnv) returns (ok: bool)
      modifies this`machines, this`clock
      ensures var run := WireGuardStep(MachineAt(old(machines), Host(site, node)), cfg, node, env, net, old(clock));
              machines == old(machines)[Host(site, node) := run.state] && clock == run.clock && ok == run.ok
    {
      hide WireGuard.NodeConf, WireGuard.Configure, AddrOf;
      var m := MachineAt(machines, Host(site, node));
      var conf := WireGuard.RenderNodeConf(cfg, node);
      var w;
      w, ok := ConfigureInterface(InterfaceAt(m.wg, cfg.wireGuard.iface), cfg.wireGuard.iface, conf, AddrOf(node.privateIP), env);
      machines := machines[Host(site, node) := m.(wg := m.wg[cfg.wireGuard.iface := w])];
    }

    /** `checkWireGuardConnectivity`. */
    method CheckConnectivity(cfg: ClusterConfig, node: NodeConfig) returns (ok: bool)
      modifies this`machines, this`clock, this`log
      ensures log == old(log) + PingLog(cfg, node, cfg.nodeNames, net, old(clock))
      ensures ok <==> forall s :: old(clock) <= s < old(clock) + PeerCount(cfg, node, cfg.nodeNames) ==> net.step(s) == Done
      ensures var run := Pings(MachineAt(old(machines), Host(site, node)), cfg, node, cfg.nodeNames, net, old(clock));
              machines == old(machines)[Host(site, node) := run.state] && clock == run.clock && ok == run.ok
    {
      hide MachineAt, Host, PeerCount, Pings, PingLog;
      var m := MachineAt(machines, Host(site, node));
      machines := machines[Host(site, node) := m];
      var names := cfg.nodeNames;
      PingsIff(m, cfg, node, names, net, clock);
      var i := 0;
      while i < |names|
        invariant 0 <= i <= |names|
        invariant machines == old(machines)[Host(site, node) := m]
        invariant Pings(m, cfg, node, names, net, old(clock)) == Pings(m, cfg, node, names[i..], net, clock)
        invariant log + PingLog(cfg, node, names[i..], net, clock) == old(log) + PingLog(cfg, node, names, net, old(clock))
      {
        assert names[i..][1..] == names[i + 1..];
        PingsStep(m, cfg, node, names[i..], net, clock);
        var peer := NodeOf(cfg.nodes, names[i]);
        if peer.key != node.key {
          var at := clock;
          var _, sent := Perform(m, m);
          if !sent { return false; }
          log := log + [Pinged(node.key, peer.key, peer.privateIP, at)];
        }
        i := i + 1;
      }
      PingsStep(m, cfg, node, names[i..], net, clock);
      ok := true;
    }

    /** The first phase's work on a dialed node. */
    method PrepareNode(cfg: ClusterConfig, node: NodeConfig, env: WireGuard.LinkEnv) returns (ok: bool)
      modifies this`machines, this`clock
      ensures var run := PrepareStep(MachineAt(old(machines), Host(site, node)), cfg, node, env, net, old(clock));
              machines == old(machines)[Host(site, node) := run.state] && clock == run.clock && ok == run.ok
    {
      hide HostsStep, WireGuardStep;
      ok := ConfigureHosts(cfg, node);
      if !ok { return; }
      var system := Command();
      if !system.Done? { return false; }
      if cfg.wireGuard.enabled { ok := ConfigureWireGuard(cfg, node, env); }
    }

    // --------------------------------------------------------------- phases

    /** The phase's work on a dialed node. */
    method Work(p: Phase, cfg: ClusterConfig, node: NodeConfig, env: WireGuard.LinkEnv) returns (ok: bool)
      modifies this`machines, this`clock, this`log
      ensures log == old(log) + Notes(p, cfg, node, net, old(clock))
      ensures var run := PhaseStep(p, MachineAt(old(machines), Host(site, node)), cfg, node, env, net, old(clock));
              machines == old(machines)[Host(site, node) := run.state] && clock == run.clock && ok == run.ok
    {
      hide PrepareStep, Pings, PingLog, FirewallStep, InstallStep, MachineAt, Host;
      match p {
        case Prepare => ok := PrepareNode(cfg, node, env);
        case Connect => ok := CheckConnectivity(cfg, node);
        case Protect => ok := ConfigureFirewall(cfg, node);
        case Install => ok := InstallK3s(cfg, node);
      }
    }

    /** One round of a phase's loop. */
    method Round(p: Phase, cfg: ClusterConfig, key: string) returns (ok: bool)
      modifies this`machines, this`clock, this`log, this`statuses
      ensures Progress(Snapshot(), ok) == NodeRound(p, cfg, key, old(Snapshot()), site, net)
    {
      hide PhaseStep, Notes, MachineAt, Host;
      var node := NodeOf(cfg.nodes, key);
      var dial := Command();
      if !dial.Done? { return false; }
      if p.Install? { log := log + [InstallStarted(key)]; }
      ok := Work(p, cfg, node, site.link(key));
      if ok {
        log := log + [Reached(p, key)];
        statuses := NewStatus(p, cfg, key, statuses);
      }
    }

    /** A phase's loop over the nodes. */
    method Loop(p: Phase, cfg: ClusterConfig) returns (ok: bool)
      modifies this`machines, this`clock, this`log, this`statuses
      ensures Progress(Snapshot(), ok) == RunPhase(p, cfg, cfg.nodeNames, Progress(old(Snapshot()), true), site, net)
    {
      hide NodeRound;
      ghost var start := Progress(Snapshot(), true);
      var names := cfg.nodeNames;
      for i := 0 to |names|
        invariant Progress(Snapshot(), true) == RunPhase(p, cfg, names[..i], start, site, net)
      {
        assert names[..i + 1][..i] == names[..i];
        ok := Round(p, cfg, names[i]);
        if !ok {
          StopPersists(p, cfg, names, i + 1, start, site, net);
          return;
        }
      }
      assert names[..|names|] == names;
      ok := true;
    }

    /** The phases up to the K3s install. */
    method RunPhases(cfg: ClusterConfig) returns (ok: bool)
      modifies this`machines, this`clock, this`log, this`statuses
      ensures Progress(Snapshot(), ok) == AfterInstall(old(Snapshot()), cfg, site, net)
    {
      hide RunPhase;
      ghost var w := Snapshot();
      clock, log, statuses := 0, [], map[];
      ok := Loop(Prepare, cfg);
      if ok && cfg.wireGuard.enabled { ok := Loop(Connect, cfg); }
      if ok && cfg.firewall.enabled { ok := Loop(Protect, cfg); }
      if ok { ok := Loop(Install, cfg); }
      StoppedPhases(w, cfg, site, net);
    }

    /** Addons, kubeconfig and the admin configurations. */
    method FinishRun(cfg: ClusterConfig) returns (ok: bool)
      modifies this`clock, this`log
      ensures Progress(Snapshot(), ok) == Finish(cfg, old(Snapshot()), net)
    {
      hide WireGuard.AdminConf, K3s.FirstServerOf;
      var first := K3s.FirstServer(cfg);
      if first.None? { return false; }
      var dial := Command();
      if !dial.Done? { return false; }
      log := log + [AddonsStarted];
      var addons := Command();
      if !addons.Done? { return false; }
      var kubeconfig := Command();
      var confs := WireGuard.RenderAdminConfs(cfg);
      var legacyOk := !cfg.adminPeer.enabled || (cfg.adminPeer.privateKey != "" && cfg.adminPeer.wgIP != "");
      ok := kubeconfig.Done? && legacyOk && confs.Some?;
    }

    /**
     `applyCluster`.  The milestones of every run respect the phase barriers, and no install starts before
     every node has reached every other one through the tunnel; success means that every
     node is ready and, from machines that can be trusted, that every machine is at its target exactly
     outside the K3s window; and no run touches the service of another role.
     */
    method ApplyCluster(cfg: ClusterConfig) returns (ok: bool)
      modifies this`machines, this`clock, this`log, this`statuses
      ensures Progress(Snapshot(), ok) == Run(old(Snapshot()), cfg, site, net)
      ensures Barriers(cfg, log)
      ensures K3s.KeyedNodes(cfg) && cfg.wireGuard.enabled ==>
                forall j, k, l :: 0 <= j < |log| && log[j].InstallStarted? && k in cfg.nodeNames && l in cfg.nodeNames && k != l ==>
                  PingedBefore(log, j, k, NodeOf(cfg.nodes, l), net)
      ensures ok ==> forall k :: k in cfg.nodeNames ==> k in statuses && statuses[k] == "ready"
      ensures ok && Convergence.Fits(cfg, site) && Convergence.Trusted(cfg, site, old(Snapshot())) ==>
                (Convergence.AtTarget(cfg, site, Snapshot()) <==> !Convergence.RunInWindow(old(Snapshot()), cfg, site, net))
      ensures Convergence.Fits(cfg, site) ==> Convergence.OthersRun(cfg, site, old(Snapshot()), Snapshot())
    {
      hide AfterInstall, Finish, Run, Barriers, PingedBefore, K3s.KeyedNodes, Convergence.Fits, Convergence.Trusted, Convergence.AtTarget, Convergence.RunInWindow, Convergence.OthersRun;
      ghost var w := Snapshot();
      ok := RunPhases(cfg);
      if ok { ok := FinishRun(cfg); }
      RunIs(w, cfg, site, net);
      RunKeepsBarriers(w, cfg, site, net);
      forall j, k, l | K3s.KeyedNodes(cfg) && cfg.wireGuard.enabled && 0 <= j < |log| && log[j].InstallStarted?
                       && k in cfg.nodeNames && l in cfg.nodeNames && k != l
        ensures PingedBefore(log, j, k, NodeOf(cfg.nodes, l), net)
      {
        InstallAfterPings(w, cfg, site, net, j, k, l);
      }
      if Convergence.Fits(cfg, site) {
        Convergence.RunLeaves(w, cfg, site, net);
        if ok && Convergence.Trusted(cfg, site, w) { Convergence.SuccessConvergesIff(w, cfg, site, net); }
      }
    }
  }

  /** One round of the connectivity check. */
  lemma PingsStep(m: Machine, cfg: ClusterConfig, node: NodeConfig, names: seq<string>, net: Net, t: nat)
    ensures var run, log := Pings(m, cfg, node, names, net, t), PingLog(cfg, node, names, net, t);
            if names == [] then run == Step(m, t, true) && log == []
            else if NodeOf(cfg.nodes, names[0]).key == node.key then
              run == Pings(m, cfg, node, names[1..], net, t) && log == PingLog(cfg, node, names[1..], net, t)
            else if net.step(t) == Done then
              && run == Pings(m, cfg, node, names[1..], net, t + 1)
              && log == [Pinged(node.key, NodeOf(cfg.nodes, names[0]).key, NodeOf(cfg.nodes, names[0]).privateIP, t)] + PingLog(cfg, node, names[1..], net, t + 1)
            else run == Step(m, t + 1, false) && log == []
  {
  }

  lemma RunIs(w: World, cfg: ClusterConfig, site: Site, net: Net)
    ensures var installed := AfterInstall(w, cfg, site, net);
            Run(w, cfg, site, net) == if installed.ok then Finish(cfg, installed.w, net) else installed
  {
    hide AfterInstall, Finish;
  }

  lemma {:induction false} StopPersists(p: Phase, cfg: ClusterConfig, names: seq<string>, k: nat, start: Progress, site: Site, net: Net)
    requires k <= |names| && !RunPhase(p, cfg, names[..k], start, site, net).ok
    ensures RunPhase(p, cfg, names, start, site, net) == RunPhase(p, cfg, names[..k], start, site, net)
    decreases |names|
  {
    hide NodeRound;
    if k < |names| {
      var front := names[..|names| - 1];
      assert front[..k] == names[..k];
      StopPersists(p, cfg, front, k, start, site, net);
    } else {
      assert names[..k] == names;
    }
  }

  /** Once a phase has stopped, the later ones do nothing. */
  lemma StoppedPhases(w: World, cfg: ClusterConfig, site: Site, net: Net)
    ensures forall p: Phase, start: Progress :: !start.ok ==> MaybePhase(p, cfg, start, site, net) == start
  {
    hide RunPhase;
    forall p: Phase, start: Progress | !start.ok ensures MaybePhase(p, cfg, start, site, net) == start {
      Convergence.StoppedStays(p, cfg, cfg.nodeNames, start, site, net);
    }
  }
}

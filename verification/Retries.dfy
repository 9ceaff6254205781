/**
 Retrying one configuration: what failed runs leave behind, which of them can be trusted, and
 where a series of runs ends.
 */
module Retries {
  import opened Text
  import opened Config
  import opened Remote
  import opened Apply
  import opened Convergence
  import HostsFile
  import WireGuard
  import FirewallRuns
  import K3s

  // ----------------------------------------------------------------- one step

  lemma HostsStayOrderly(m: Machine, cfg: ClusterConfig, node: NodeConfig, net: Net, t: nat)
    requires HostsFile.NodesFreeOf(cfg, '#') && HostsFile.Orderly(m.hosts)
    ensures HostsFile.Orderly(HostsStep(m, cfg, node, net, t).state.hosts)
  {
    hide HostsFile.Edit, HostsFile.Orderly, HostsFile.HostsBlock;
    HostsTwice(cfg, m.hosts);
  }

  /** Cut anywhere, a step leaves what the next run relies on, except in the window. */
  lemma StepKeepsReady(p: Phase, m: Machine, cfg: ClusterConfig, node: NodeConfig, env: WireGuard.LinkEnv, net: Net, t: nat)
    requires HostsFile.NodesFreeOf(cfg, '#') && Ready(p, cfg, node, m)
    ensures Ready(p, cfg, node, PhaseStep(p, m, cfg, node, env, net, t).state)
            <==> !StepInWindow(p, cfg, node, m, net, t)
  {
    hide HostsStep, WireGuardStep, FirewallRuns.Configure, FirewallRuns.InSync, K3s.Install, K3s.Rendered, FirewallRuns.Rules,
      HostsFile.Orderly, K3s.Coherent, K3s.Window;
    match p
    case Prepare =>
      HostsStayOrderly(m, cfg, node, net, t);
      PrepareHosts(m, cfg, node, env, net, t);
    case Connect =>
    case Protect => FirewallRuns.ConfigureKeepsSync(m.firewall, FirewallRuns.Rules(cfg, node), net, t);
    case Install => K3s.InstallCoherentIff(m.k3s, node.role, K3s.Rendered(cfg, node), net, t);
  }

  lemma PrepareHosts(m: Machine, cfg: ClusterConfig, node: NodeConfig, env: WireGuard.LinkEnv, net: Net, t: nat)
    ensures PrepareStep(m, cfg, node, env, net, t).state.hosts == HostsStep(m, cfg, node, net, t).state.hosts
  {
    hide WireGuard.Configure, HostsStep;
  }

  lemma RoundKeepsReady(p: Phase, cfg: ClusterConfig, key: string, w: World, site: Site, net: Net)
    requires Fits(cfg, site) && key in cfg.nodeNames && Ready(p, cfg, NodeOf(cfg.nodes, key), M(cfg, site, w, key))
    ensures Ready(p, cfg, NodeOf(cfg.nodes, key), M(cfg, site, NodeRound(p, cfg, key, w, site, net).w, key))
            <==> !RoundInWindow(p, cfg, site, key, w, net)
  {
    hide PhaseStep, Ready, StepInWindow, NewStatus, Reached;
    StepKeepsReady(p, M(cfg, site, w, key), cfg, NodeOf(cfg.nodes, key), site.link(key), net, w.clock + 1);
  }

  // ------------------------------------------------------------ phases and runs

  /** One more node of a phase: the others keep their machines. */
  lemma ReadySnoc(p: Phase, cfg: ClusterConfig, site: Site, names: seq<string>, key: string, w: World, w': World)
    requires Framed(p, cfg, site, [key], w, w') && key !in names && forall k :: k in names ==> k in cfg.nodeNames
    ensures AllReady(p, cfg, site, names + [key], w')
            <==> AllReady(p, cfg, site, names, w) && Ready(p, cfg, NodeOf(cfg.nodes, key), M(cfg, site, w', key))
  {
    hide Ready, M, SameOutside;
    var all := names + [key];
    assert key in all && forall k :: k in all <==> k in names || k == key;
    assert forall k :: k in names ==> M(cfg, site, w', k) == M(cfg, site, w, k);
  }

  lemma {:induction false} PhaseKeepsReady(p: Phase, cfg: ClusterConfig, names: seq<string>, start: Progress, site: Site, net: Net)
    requires Fits(cfg, site) && Distinct(names) && (forall k :: k in names ==> k in cfg.nodeNames) && AllReady(p, cfg, site, names, start.w)
    ensures AllReady(p, cfg, site, names, RunPhase(p, cfg, names, start, site, net).w)
            <==> !PhaseInWindow(p, cfg, names, start, site, net)
    decreases |names|
  {
    hide NodeRound, Ready, Fits, M, RoundInWindow;
    if names != [] {
      var n := |names| - 1;
      var key, front := names[n], RunPhase(p, cfg, names[..n], start, site, net);
      assert names == names[..n] + [key];
      PhaseKeepsReady(p, cfg, names[..n], start, site, net);
      PhaseEffect(p, cfg, names[..n], start, site, net);
      assert M(cfg, site, front.w, key) == M(cfg, site, start.w, key);
      if front.ok {
        RoundKeepsReady(p, cfg, key, front.w, site, net);
        RoundEffect(p, cfg, key, front.w, site, net);
        ReadySnoc(p, cfg, site, names[..n], key, front.w, NodeRound(p, cfg, key, front.w, site, net).w);
      }
    }
  }

  /** One phase inside the run keeps the machines trusted, except in its window. */
  lemma MaybeKeepsTrust(p: Phase, cfg: ClusterConfig, start: Progress, site: Site, net: Net)
    requires Fits(cfg, site) && Trusted(cfg, site, start.w)
    ensures Trusted(cfg, site, MaybePhase(p, cfg, start, site, net).w)
            <==> !(Runs(p, cfg) && PhaseInWindow(p, cfg, cfg.nodeNames, start, site, net))
  {
    hide RunPhase, Fits, AllReady, PhaseInWindow, Framed;
    OwnNames(cfg, site);
    PhaseInRun(p, cfg, start, site, net);
    OthersKept(p, cfg, site, start.w, start.w, MaybePhase(p, cfg, start, site, net).w);
    if Runs(p, cfg) { PhaseKeepsReady(p, cfg, cfg.nodeNames, start, site, net); }
  }

  lemma SameTrust(cfg: ClusterConfig, site: Site, w: World, w': World)
    requires w'.machines == w.machines
    ensures Trusted(cfg, site, w) <==> Trusted(cfg, site, w')
  {
    hide AllReady;
    SameWorlds(cfg, site, w, w');
  }

  /**
   Wherever a run of the cluster is cut, every machine can still be trusted by the next run,
   exactly when no install was cut between the upload of a changed config and the restart.
   */
  lemma RunKeepsTrustIff(w: World, cfg: ClusterConfig, site: Site, net: Net)
    requires Fits(cfg, site) && Trusted(cfg, site, w)
    ensures Trusted(cfg, site, Run(w, cfg, site, net).w) <==> !RunInWindow(w, cfg, site, net)
  {
    hide RunPhase, Fits, Trusted, MaybePhase, PhaseInWindow;
    var p0 := Fresh(w);
    SameTrust(cfg, site, w, p0.w);
    var p1 := MaybePhase(Prepare, cfg, p0, site, net);
    OnlyInstall(Prepare, cfg, cfg.nodeNames, p0, site, net);
    MaybeKeepsTrust(Prepare, cfg, p0, site, net);
    var p2 := MaybePhase(Connect, cfg, p1, site, net);
    OnlyInstall(Connect, cfg, cfg.nodeNames, p1, site, net);
    MaybeKeepsTrust(Connect, cfg, p1, site, net);
    var p3 := MaybePhase(Protect, cfg, p2, site, net);
    OnlyInstall(Protect, cfg, cfg.nodeNames, p2, site, net);
    MaybeKeepsTrust(Protect, cfg, p2, site, net);
    var p4 := MaybePhase(Install, cfg, p3, site, net);
    MaybeKeepsTrust(Install, cfg, p3, site, net);
    assert AfterInstall(w, cfg, site, net) == p4;
    SameTrust(cfg, site, p4.w, Finish(cfg, p4.w, net).w);
  }

  /** The world after a series of runs for one configuration, each with its own network behaviour. */
  ghost function RunAll(w: World, cfg: ClusterConfig, site: Site, nets: seq<Net>): World {
    if nets == [] then w else
      Run(RunAll(w, cfg, site, nets[..|nets| - 1]), cfg, site, nets[|nets| - 1]).w
  }

  ghost predicate AvoidsWindow(w: World, cfg: ClusterConfig, site: Site, nets: seq<Net>) {
    forall i :: 0 <= i < |nets| ==> !RunInWindow(RunAll(w, cfg, site, nets[..i]), cfg, site, nets[i])
  }

  lemma {:induction false} RunAllTrusted(w: World, cfg: ClusterConfig, site: Site, nets: seq<Net>)
    requires Fits(cfg, site) && Trusted(cfg, site, w) && AvoidsWindow(w, cfg, site, nets)
    ensures Trusted(cfg, site, RunAll(w, cfg, site, nets))
    decreases |nets|
  {
    hide Fits, Trusted, Run, RunInWindow;
    if nets != [] {
      var n := |nets| - 1;
      var front := nets[..n];
      assert forall i :: 0 <= i <= n ==> front[..i] == nets[..i];
      RunAllTrusted(w, cfg, site, front);
      RunKeepsTrustIff(RunAll(w, cfg, site, front), cfg, site, nets[n]);
    }
  }

  /**
   Convergence of the whole cluster under failure: after any series of runs of one configuration,
   each failing at any remote step outside the window, a run that succeeds brings every machine to
   its target exactly when it is not caught in the window itself; and an undisturbed repetition
   changes no machine.
   */
  lemma RetriesConverge(w: World, cfg: ClusterConfig, site: Site, nets: seq<Net>, last: Net, calm: Net)
    requires Fits(cfg, site) && Trusted(cfg, site, w) && AvoidsWindow(w, cfg, site, nets) && Calm(calm)
    requires Run(RunAll(w, cfg, site, nets), cfg, site, last).ok
    ensures var end := Run(RunAll(w, cfg, site, nets), cfg, site, last).w;
            && (AtTarget(cfg, site, end) <==> !RunInWindow(RunAll(w, cfg, site, nets), cfg, site, last))
            && Run(end, cfg, site, calm).ok && SameMachines(cfg, site, end, Run(end, cfg, site, calm).w)
  {
    hide Fits, AtTarget, Run, RunAll, AvoidsWindow, SameMachines, RunInWindow, AllReady, Stepped;
    var before := RunAll(w, cfg, site, nets);
    RunAllTrusted(w, cfg, site, nets);
    SuccessConvergesIff(before, cfg, site, last);
    assert Runs(Prepare, cfg);
    QuietRepeatIff(before, cfg, site, last, calm);
  }
}

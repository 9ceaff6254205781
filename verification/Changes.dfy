/**
 Sequences of different configurations: what every machine keeps for whatever is applied next,
 although each run may be cut at any remote step.
 */
module Changes {
  import opened Wrappers
  import opened Text
  import opened Config
  import opened Remote
  import opened Apply
  import opened Convergence
  import HostsFile
  import WireGuard
  import Firewall
  import FirewallRuns
  import K3s
  import Retries

  // ------------------------------------------------------------- sound machines

  /**
   A machine that any configuration can be applied to: the hosts file is orderly, the firewall
   marker tells the truth about every rule list it may record, and a running service of the
   machine's role runs what config.yaml says.
   */
  ghost predicate Sound(m: Machine, role: string) {
    HostsFile.Orderly(m.hosts) && FirewallRuns.Truthful(m.firewall) && K3s.Coherent(m.k3s, role)
  }

  /**
   The provider has never worked on the machine: no marker in its hosts file, no firewall marker,
   and no K3s service.  Whatever else is there (other hosts entries, UFW rules) does not matter.
   */
  predicate Untouched(m: Machine) {
    && Find(m.hosts, HostsFile.START) < 0 && Find(m.hosts, HostsFile.END) < 0
    && m.firewall.marker.None? && m.k3s.server.Stopped? && m.k3s.agent.Stopped?
  }

  lemma UntouchedSound(m: Machine, role: string)
    requires Untouched(m)
    ensures Sound(m, role)
  {
    hide Find, Firewall.ScriptText;
  }

  lemma EmptyUntouched()
    ensures Untouched(NEW_MACHINE)
  {
    WireGuard.EmptyHasNothing(HostsFile.START);
    WireGuard.EmptyHasNothing(HostsFile.END);
  }

  /** The rules of every node of the configuration are free of NUL. */
  predicate CleanFirewall(cfg: ClusterConfig) {
    forall k :: k in cfg.nodeNames ==> Firewall.CleanRules(FirewallRuns.Rules(cfg, NodeOf(cfg.nodes, k)))
  }

  /** A sound machine can be relied on by every phase of every configuration. */
  lemma SoundReady(p: Phase, cfg: ClusterConfig, node: NodeConfig, m: Machine)
    requires Sound(m, node.role) && Firewall.CleanRules(FirewallRuns.Rules(cfg, node))
    ensures Ready(p, cfg, node, m)
  {
    hide FirewallRuns.Rules, FirewallRuns.InSync, Firewall.CleanRules;
  }

  // ------------------------------------------------------------------ the windows

  /** The step is cut in one of the two windows: K3s between upload and restart, UFW between rules and marker. */
  ghost predicate StepUnsafe(p: Phase, cfg: ClusterConfig, node: NodeConfig, m: Machine, net: Net, t: nat) {
    match p
    case Prepare => false
    case Connect => false
    case Protect =>
      && cfg.firewall.backend == "ufw" && FirewallRuns.MarksOther(m.firewall, FirewallRuns.Rules(cfg, node))
      && FirewallRuns.CutBeforeMarker(FirewallRuns.Rules(cfg, node), net, t)
    case Install => StepInWindow(p, cfg, node, m, net, t)
  }

  lemma StepKeepsSoundIff(p: Phase, m: Machine, cfg: ClusterConfig, node: NodeConfig, env: WireGuard.LinkEnv, net: Net, t: nat)
    requires HostsFile.NodesFreeOf(cfg, '#') && Firewall.CleanRules(FirewallRuns.Rules(cfg, node)) && Sound(m, node.role)
    ensures Sound(PhaseStep(p, m, cfg, node, env, net, t).state, node.role) <==> !StepUnsafe(p, cfg, node, m, net, t)
  {
    hide HostsStep, WireGuard.Configure, FirewallRuns.Configure, FirewallRuns.Truthful, FirewallRuns.MarksOther, FirewallRuns.CutBeforeMarker,
      K3s.Install, K3s.Rendered, K3s.Window, FirewallRuns.Rules, HostsFile.Orderly, K3s.Coherent;
    match p
    case Prepare =>
      Retries.HostsStayOrderly(m, cfg, node, net, t);
      Retries.PrepareHosts(m, cfg, node, env, net, t);
      OnlyHosts(m, cfg, node, net, t);
    case Connect => PingsKeep(m, cfg, node, cfg.nodeNames, net, t);
    case Protect => FirewallRuns.TruthfulIff(m.firewall, FirewallRuns.Rules(cfg, node), net, t);
    case Install => K3s.InstallCoherentIff(m.k3s, node.role, K3s.Rendered(cfg, node), net, t);
  }

  lemma OnlyHosts(m: Machine, cfg: ClusterConfig, node: NodeConfig, net: Net, t: nat)
    ensures var m' := HostsStep(m, cfg, node, net, t).state; m'.firewall == m.firewall && m'.k3s == m.k3s
  {
    hide HostsFile.Edit, HostsFile.HostsBlock;
  }

  /** In its window the firewall step does not report success. */
  lemma UnsafeFails(f: FirewallRuns.FirewallState, rules: seq<Firewall.Rule>, net: Net, t: nat)
    requires Firewall.CleanRules(rules) && FirewallRuns.MarksOther(f, rules) && FirewallRuns.CutBeforeMarker(rules, net, t)
    ensures !FirewallRuns.Configure(f, rules, net, t).ok
  {
    hide Firewall.ScriptText, Firewall.Script, FirewallRuns.Chain, FirewallRuns.Goal, Firewall.CleanRules;
    var other :| Firewall.CleanRules(other) && f.marker == Some(Firewall.ScriptText(Firewall.Script(other))) && FirewallRuns.Goal(other) != FirewallRuns.Goal(rules);
    if Firewall.ScriptText(Firewall.Script(other)) == Firewall.ScriptText(Firewall.Script(rules)) { Firewall.MarkerInjective(other, rules); }
    FirewallRuns.ChainEnables(rules, f.ufw, net, t + 1);
  }

  // ------------------------------------------------------------ rounds and phases

  ghost predicate RoundUnsafe(p: Phase, cfg: ClusterConfig, site: Site, key: string, w: World, net: Net) {
    net.step(w.clock) == Done && StepUnsafe(p, cfg, NodeOf(cfg.nodes, key), M(cfg, site, w, key), net, w.clock + 1)
  }

  ghost predicate PhaseUnsafe(p: Phase, cfg: ClusterConfig, names: seq<string>, start: Progress, site: Site, net: Net) {
    names != [] &&
    var n := |names| - 1;
    var front := RunPhase(p, cfg, names[..n], start, site, net);
    PhaseUnsafe(p, cfg, names[..n], start, site, net) || (front.ok && RoundUnsafe(p, cfg, site, names[n], front.w, net))
  }

  ghost predicate AllSound(cfg: ClusterConfig, site: Site, names: seq<string>, w: World) {
    forall k :: k in names ==> Sound(M(cfg, site, w, k), NodeOf(cfg.nodes, k).role)
  }

  lemma RoundKeepsSoundIff(p: Phase, cfg: ClusterConfig, key: string, w: World, site: Site, net: Net)
    requires Fits(cfg, site) && CleanFirewall(cfg) && key in cfg.nodeNames && Sound(M(cfg, site, w, key), NodeOf(cfg.nodes, key).role)
    ensures Sound(M(cfg, site, NodeRound(p, cfg, key, w, site, net).w, key), NodeOf(cfg.nodes, key).role) <==> !RoundUnsafe(p, cfg, site, key, w, net)
    ensures p.Protect? && RoundUnsafe(p, cfg, site, key, w, net) ==> !NodeRound(p, cfg, key, w, site, net).ok
  {
    hide NodeRound, Sound, MachineAt, Firewall.CleanRules, FirewallRuns.Configure, FirewallRuns.Rules, FirewallRuns.MarksOther, FirewallRuns.CutBeforeMarker,
      PrepareStep, Pings, InstallStep, StepInWindow;
    var node := NodeOf(cfg.nodes, key);
    StepKeepsSoundIff(p, M(cfg, site, w, key), cfg, node, site.link(key), net, w.clock + 1);
    RoundMachines(p, cfg, key, w, site, net);
    if p.Protect? && RoundUnsafe(p, cfg, site, key, w, net) {
      UnsafeFails(M(cfg, site, w, key).firewall, FirewallRuns.Rules(cfg, node), net, w.clock + 1);
    }
  }

  lemma SoundSnoc(cfg: ClusterConfig, site: Site, names: seq<string>, key: string, w: World, w': World)
    requires forall k :: k in names ==> M(cfg, site, w', k) == M(cfg, site, w, k)
    ensures AllSound(cfg, site, names + [key], w') <==> AllSound(cfg, site, names, w) && Sound(M(cfg, site, w', key), NodeOf(cfg.nodes, key).role)
  {
    hide Sound, M;
    var all := names + [key];
    assert key in all && forall k :: k in all <==> k in names || k == key;
  }

  lemma {:induction false} PhaseKeepsSoundIff(p: Phase, cfg: ClusterConfig, names: seq<string>, start: Progress, site: Site, net: Net)
    requires Fits(cfg, site) && CleanFirewall(cfg) && Distinct(names) && (forall k :: k in names ==> k in cfg.nodeNames) && AllSound(cfg, site, names, start.w)
    ensures AllSound(cfg, site, names, RunPhase(p, cfg, names, start, site, net).w) <==> !PhaseUnsafe(p, cfg, names, start, site, net)
    ensures p.Protect? && PhaseUnsafe(p, cfg, names, start, site, net) ==> !RunPhase(p, cfg, names, start, site, net).ok
    decreases |names|
  {
    hide NodeRound, Sound, Fits, M, RoundUnsafe, CleanFirewall, Framed;
    if names != [] {
      var n := |names| - 1;
      var key, front := names[n], RunPhase(p, cfg, names[..n], start, site, net);
      assert names == names[..n] + [key];
      PhaseKeepsSoundIff(p, cfg, names[..n], start, site, net);
      PhaseEffect(p, cfg, names[..n], start, site, net);
      KeyKept(p, cfg, site, names[..n], key, start.w, front.w);
      if front.ok {
        var last := NodeRound(p, cfg, key, front.w, site, net);
        RoundKeepsSoundIff(p, cfg, key, front.w, site, net);
        RoundEffect(p, cfg, key, front.w, site, net);
        FramedSnoc(p, cfg, site, names[..n], key, start.w, front.w, last.w);
        SoundSnoc(cfg, site, names[..n], key, front.w, last.w);
      } else {
        SoundSnoc(cfg, site, names[..n], key, front.w, front.w);
      }
    }
  }

  lemma KeyKept(p: Phase, cfg: ClusterConfig, site: Site, names: seq<string>, key: string, w: World, w': World)
    requires Framed(p, cfg, site, names, w, w') && key in cfg.nodeNames && key !in names
    ensures M(cfg, site, w', key) == M(cfg, site, w, key)
  {
  }

  // -------------------------------------------------------------------- whole runs

  ghost function AfterConnect(w: World, cfg: ClusterConfig, site: Site, net: Net): Progress {
    MaybePhase(Connect, cfg, MaybePhase(Prepare, cfg, Fresh(w), site, net), site, net)
  }

  /** Some step of the run is cut in one of the windows. */
  ghost predicate RunUnsafe(w: World, cfg: ClusterConfig, site: Site, net: Net) {
    || (cfg.firewall.enabled && PhaseUnsafe(Protect, cfg, cfg.nodeNames, AfterConnect(w, cfg, site, net), site, net))
    || PhaseUnsafe(Install, cfg, cfg.nodeNames, AfterProtect(w, cfg, site, net), site, net)
  }

  lemma {:induction false} EarlySafe(p: Phase, cfg: ClusterConfig, names: seq<string>, start: Progress, site: Site, net: Net)
    requires p.Prepare? || p.Connect? || !start.ok
    ensures !PhaseUnsafe(p, cfg, names, start, site, net)
    decreases |names|
  {
    hide NodeRound;
    if names != [] {
      EarlySafe(p, cfg, names[..|names| - 1], start, site, net);
      if !start.ok { StoppedStays(p, cfg, names[..|names| - 1], start, site, net); }
    }
  }

  lemma MaybeKeepsSound(p: Phase, cfg: ClusterConfig, start: Progress, site: Site, net: Net)
    requires Fits(cfg, site) && CleanFirewall(cfg) && AllSound(cfg, site, cfg.nodeNames, start.w)
    ensures var r := MaybePhase(p, cfg, start, site, net);
            && (AllSound(cfg, site, cfg.nodeNames, r.w) <==> !(Runs(p, cfg) && PhaseUnsafe(p, cfg, cfg.nodeNames, start, site, net)))
            && (p.Protect? && !AllSound(cfg, site, cfg.nodeNames, r.w) ==> !r.ok)
  {
    hide RunPhase, Fits, CleanFirewall, AllSound, PhaseUnsafe;
    if Runs(p, cfg) {
      OwnNames(cfg, site);
      PhaseKeepsSoundIff(p, cfg, cfg.nodeNames, start, site, net);
    }
  }

  lemma SameSound(cfg: ClusterConfig, site: Site, w: World, w': World)
    requires w'.machines == w.machines
    ensures AllSound(cfg, site, cfg.nodeNames, w) <==> AllSound(cfg, site, cfg.nodeNames, w')
  {
    hide Sound;
  }

  lemma NodesStaySoundIff(w: World, cfg: ClusterConfig, site: Site, net: Net)
    requires Fits(cfg, site) && CleanFirewall(cfg) && AllSound(cfg, site, cfg.nodeNames, w)
    ensures AllSound(cfg, site, cfg.nodeNames, Run(w, cfg, site, net).w) <==> !RunUnsafe(w, cfg, site, net)
  {
    hide RunPhase, Fits, CleanFirewall, AllSound, PhaseUnsafe, MaybePhase;
    var p0 := Fresh(w);
    SameSound(cfg, site, w, p0.w);
    var p1 := MaybePhase(Prepare, cfg, p0, site, net);
    EarlySafe(Prepare, cfg, cfg.nodeNames, p0, site, net);
    MaybeKeepsSound(Prepare, cfg, p0, site, net);
    var p2 := MaybePhase(Connect, cfg, p1, site, net);
    EarlySafe(Connect, cfg, cfg.nodeNames, p1, site, net);
    MaybeKeepsSound(Connect, cfg, p1, site, net);
    var p3 := MaybePhase(Protect, cfg, p2, site, net);
    MaybeKeepsSound(Protect, cfg, p2, site, net);
    var p4 := MaybePhase(Install, cfg, p3, site, net);
    if AllSound(cfg, site, cfg.nodeNames, p3.w) {
      MaybeKeepsSound(Install, cfg, p3, site, net);
    } else {
      EarlySafe(Install, cfg, cfg.nodeNames, p3, site, net);
      StoppedMaybe(Install, cfg, p3, site, net);
    }
    assert AfterInstall(w, cfg, site, net) == p4;
    SameSound(cfg, site, p4.w, Finish(cfg, p4.w, net).w);
  }

  lemma StoppedMaybe(p: Phase, cfg: ClusterConfig, start: Progress, site: Site, net: Net)
    requires !start.ok
    ensures MaybePhase(p, cfg, start, site, net) == start
  {
    hide RunPhase;
    StoppedStays(p, cfg, cfg.nodeNames, start, site, net);
  }

  // ---------------------------------------------------------------- whole worlds

  /** Every machine in the world is sound for the role that it has. */
  ghost predicate WorldSound(w: World, roles: string -> string) { forall host :: Sound(MachineAt(w.machines, host), roles(host)) }

  /** The configuration gives its nodes the roles of their machines. */
  ghost predicate Seats(cfg: ClusterConfig, site: Site, roles: string -> string) {
    forall k :: k in cfg.nodeNames ==> NodeOf(cfg.nodes, k).role == roles(Host(site, NodeOf(cfg.nodes, k)))
  }

  predicate IsNode(cfg: ClusterConfig, site: Site, host: string) { exists k :: k in cfg.nodeNames && Host(site, NodeOf(cfg.nodes, k)) == host }

  /** Machines that are no node of the configuration are left alone. */
  ghost predicate OutsideKept(cfg: ClusterConfig, site: Site, w: World, w': World) {
    forall host :: !IsNode(cfg, site, host) ==> MachineAt(w'.machines, host) == MachineAt(w.machines, host)
  }

  lemma {:induction false} PhaseOutside(p: Phase, cfg: ClusterConfig, names: seq<string>, start: Progress, site: Site, net: Net)
    requires forall k :: k in names ==> k in cfg.nodeNames
    ensures OutsideKept(cfg, site, start.w, RunPhase(p, cfg, names, start, site, net).w)
    decreases |names|
  {
    hide NodeRound, MachineAt;
    if names != [] {
      var n := |names| - 1;
      var front := RunPhase(p, cfg, names[..n], start, site, net);
      PhaseOutside(p, cfg, names[..n], start, site, net);
      assert names[n] in names;
      if front.ok { RoundMachines(p, cfg, names[n], front.w, site, net); }
    }
  }

  lemma RunOutside(w: World, cfg: ClusterConfig, site: Site, net: Net)
    ensures OutsideKept(cfg, site, w, Run(w, cfg, site, net).w)
  {
    hide RunPhase, IsNode;
    var p1 := MaybePhase(Prepare, cfg, Fresh(w), site, net);
    PhaseOutside(Prepare, cfg, cfg.nodeNames, Fresh(w), site, net);
    var p2 := MaybePhase(Connect, cfg, p1, site, net);
    PhaseOutside(Connect, cfg, cfg.nodeNames, p1, site, net);
    var p3 := MaybePhase(Protect, cfg, p2, site, net);
    PhaseOutside(Protect, cfg, cfg.nodeNames, p2, site, net);
    PhaseOutside(Install, cfg, cfg.nodeNames, p3, site, net);
  }

  /**
   Whatever is applied and wherever the run is cut, all machines stay sound for whatever is applied
   next, exactly when no step was cut in the K3s window or in the UFW window.
   */
  lemma RunKeepsWorldSoundIff(w: World, roles: string -> string, cfg: ClusterConfig, site: Site, net: Net)
    requires Fits(cfg, site) && CleanFirewall(cfg) && Seats(cfg, site, roles) && WorldSound(w, roles)
    ensures WorldSound(Run(w, cfg, site, net).w, roles) <==> !RunUnsafe(w, cfg, site, net)
  {
    hide Run, Fits, CleanFirewall, Sound, RunUnsafe, MachineAt;
    var w' := Run(w, cfg, site, net).w;
    NodesStaySoundIff(w, cfg, site, net);
    RunOutside(w, cfg, site, net);
    if AllSound(cfg, site, cfg.nodeNames, w') {
      forall host ensures Sound(MachineAt(w'.machines, host), roles(host)) {
        if IsNode(cfg, site, host) {
          var k :| k in cfg.nodeNames && Host(site, NodeOf(cfg.nodes, k)) == host;
          assert Sound(M(cfg, site, w', k), NodeOf(cfg.nodes, k).role);
        }
      }
    } else {
      var k :| k in cfg.nodeNames && !Sound(M(cfg, site, w', k), NodeOf(cfg.nodes, k).role);
      assert !Sound(MachineAt(w'.machines, Host(site, NodeOf(cfg.nodes, k))), roles(Host(site, NodeOf(cfg.nodes, k))));
    }
  }

  lemma SoundTrusted(w: World, roles: string -> string, cfg: ClusterConfig, site: Site)
    requires CleanFirewall(cfg) && Seats(cfg, site, roles) && WorldSound(w, roles)
    ensures Trusted(cfg, site, w)
  {
    hide Sound, Ready, MachineAt, Firewall.CleanRules, FirewallRuns.Rules;
    forall p: Phase, k | k in cfg.nodeNames ensures Ready(p, cfg, NodeOf(cfg.nodes, k), M(cfg, site, w, k)) {
      assert Sound(MachineAt(w.machines, Host(site, NodeOf(cfg.nodes, k))), roles(Host(site, NodeOf(cfg.nodes, k))));
      SoundReady(p, cfg, NodeOf(cfg.nodes, k), M(cfg, site, w, k));
    }
  }

  // ------------------------------------------------------------------- sequences

  /** One apply: a configuration, the site at that time, and the fates of the remote steps. */
  datatype Attempt = Attempt(cfg: ClusterConfig, site: Site, net: Net)

  ghost predicate Sane(a: Attempt, roles: string -> string) { Fits(a.cfg, a.site) && CleanFirewall(a.cfg) && Seats(a.cfg, a.site, roles) }

  ghost predicate AllSane(attempts: seq<Attempt>, roles: string -> string) { forall i :: 0 <= i < |attempts| ==> Sane(attempts[i], roles) }

  /** The world after a series of applies of any configurations, successful or not. */
  ghost function ApplyAll(w: World, attempts: seq<Attempt>): World {
    if attempts == [] then w else
      var a := attempts[|attempts| - 1];
      Run(ApplyAll(w, attempts[..|attempts| - 1]), a.cfg, a.site, a.net).w
  }

  ghost predicate Avoids(w: World, attempts: seq<Attempt>) {
    forall i :: 0 <= i < |attempts| ==>
      !RunUnsafe(ApplyAll(w, attempts[..i]), attempts[i].cfg, attempts[i].site, attempts[i].net)
  }

  lemma {:induction false} AllStaySound(w: World, roles: string -> string, attempts: seq<Attempt>)
    requires WorldSound(w, roles) && Avoids(w, attempts) && AllSane(attempts, roles)
    ensures WorldSound(ApplyAll(w, attempts), roles)
    decreases |attempts|
  {
    hide WorldSound, Fits, CleanFirewall, Seats, Run, RunUnsafe;
    if attempts != [] {
      var n := |attempts| - 1;
      var front, a := attempts[..n], attempts[n];
      assert forall i :: 0 <= i <= n ==> front[..i] == attempts[..i];
      AllStaySound(w, roles, front);
      assert Sane(a, roles);
      RunKeepsWorldSoundIff(ApplyAll(w, front), roles, a.cfg, a.site, a.net);
    }
  }

  /**
   Convergence over changing configurations: from sound machines, after any series of applies of
   any configurations with fixed roles, each succeeding or cut anywhere outside the two windows, an
   apply that reports success brings every machine of its configuration to the target, exactly when
   it is not caught in the K3s window itself.
   */
  lemma ChangesConverge(w: World, roles: string -> string, attempts: seq<Attempt>, last: Attempt)
    requires WorldSound(w, roles) && Avoids(w, attempts) && AllSane(attempts, roles)
    requires Sane(last, roles) && Run(ApplyAll(w, attempts), last.cfg, last.site, last.net).ok
    ensures AtTarget(last.cfg, last.site, Run(ApplyAll(w, attempts), last.cfg, last.site, last.net).w)
            <==> !RunInWindow(ApplyAll(w, attempts), last.cfg, last.site, last.net)
  {
    hide WorldSound, Fits, CleanFirewall, Seats, Run, RunInWindow, AtTarget, Trusted, Avoids;
    AllStaySound(w, roles, attempts);
    SoundTrusted(ApplyAll(w, attempts), roles, last.cfg, last.site);
    SuccessConvergesIff(ApplyAll(w, attempts), last.cfg, last.site, last.net);
  }

  /** Machines that the provider has never touched are a world to start from, for any roles. */
  lemma UntouchedWorld(w: World, roles: string -> string)
    requires forall host :: Untouched(MachineAt(w.machines, host))
    ensures WorldSound(w, roles)
  {
    hide Untouched, Sound, MachineAt;
    forall host ensures Sound(MachineAt(w.machines, host), roles(host)) { UntouchedSound(MachineAt(w.machines, host), roles(host)); }
  }
}

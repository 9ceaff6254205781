/**
 What the firewall step does to a node, over any number of runs that may be cut at any
 remote command.
 */
module FirewallRuns {
  import opened Wrappers
  import opened Config
  import opened Remote
  import opened Firewall

  // ----------------------------------------------------- the rules of a config

  function SourceRules(sources: seq<string>, port: int): (rs: seq<Rule>) {
    if sources == [] then [] else
      SourceRules(sources[..|sources| - 1], port) + [FromTo(sources[|sources| - 1], port, Tcp)]
  }

  function PortRules(ports: seq<int>, proto: Proto): seq<Rule> {
    if ports == [] then [] else PortRules(ports[..|ports| - 1], proto) + [ToPort(ports[|ports| - 1], proto)]
  }

  /** One WireGuard rule for every other node. */
  function PeerRules(cfg: ClusterConfig, self: string, names: seq<string>): seq<Rule> {
    if names == [] then [] else
      var front, peer := PeerRules(cfg, self, names[..|names| - 1]), NodeOf(cfg.nodes, names[|names| - 1]);
      if peer.key == self then front else front + [FromTo(peer.publicIP, cfg.wireGuard.port, Udp)]
  }

  function WireGuardRules(cfg: ClusterConfig, self: string): seq<Rule> {
    if cfg.wireGuard.enabled then PeerRules(cfg, self, cfg.nodeNames) + [OnInterface(cfg.wireGuard.iface)] else []
  }

  function ServiceRules(fw: FirewallConfig): seq<Rule> {
    WebRules(fw) + ApiRules(fw) + PortRules(fw.extraTCPPorts, Tcp) + PortRules(fw.extraUDPPorts, Udp)
  }

  function Rules(cfg: ClusterConfig, node: NodeConfig): seq<Rule> {
    SourceRules(cfg.firewall.sshAllowedCIDRs, node.ssh.port) + WireGuardRules(cfg, node.key) + ServiceRules(cfg.firewall)
  }

  lemma {:induction false} AllowAllAppend(a: seq<Rule>, b: seq<Rule>)
    ensures AllowAll(a + b) == AllowAll(a) + AllowAll(b)
  {
    if b == [] {
      assert a + b == a;
    } else {
      assert (a + b)[..|a + b| - 1] == a + b[..|b| - 1];
      AllowAllAppend(a, b[..|b| - 1]);
    }
  }

  lemma AllowAllSnoc(rules: seq<Rule>, r: Rule)
    ensures AllowAll(rules + [r]) == AllowAll(rules) + [Allow(r)]
  {
    assert (rules + [r])[..|rules|] == rules;
  }

  method AppendSources(commands: seq<Command>, sources: seq<string>, port: int) returns (r: seq<Command>)
    ensures r == commands + AllowAll(SourceRules(sources, port))
  {
    r := commands;
    for i := 0 to |sources|
      invariant r == commands + AllowAll(SourceRules(sources[..i], port))
    {
      assert sources[..i + 1][..i] == sources[..i];
      r := r + [Allow(FromTo(sources[i], port, Tcp))];
    }
    assert sources[..|sources|] == sources;
  }

  method AppendPorts(commands: seq<Command>, ports: seq<int>, proto: Proto) returns (r: seq<Command>)
    ensures r == commands + AllowAll(PortRules(ports, proto))
  {
    r := commands;
    for i := 0 to |ports|
      invariant r == commands + AllowAll(PortRules(ports[..i], proto))
    {
      assert ports[..i + 1][..i] == ports[..i];
      r := r + [Allow(ToPort(ports[i], proto))];
    }
    assert ports[..|ports|] == ports;
  }

  method AppendPeers(commands: seq<Command>, cfg: ClusterConfig, self: string) returns (r: seq<Command>)
    ensures r == commands + AllowAll(PeerRules(cfg, self, cfg.nodeNames))
  {
    hide AllowAll;
    NoneAllowed();
    r := commands;
    var names := cfg.nodeNames;
    for i := 0 to |names|
      invariant r == commands + AllowAll(PeerRules(cfg, self, names[..i]))
    {
      assert names[..i + 1][..i] == names[..i];
      var peer := NodeOf(cfg.nodes, names[i]);
      if peer.key == self { continue; }
      AllowAllSnoc(PeerRules(cfg, self, names[..i]), FromTo(peer.publicIP, cfg.wireGuard.port, Udp));
      r := r + [Allow(FromTo(peer.publicIP, cfg.wireGuard.port, Udp))];
    }
    assert names[..|names|] == names;
  }

  /** The loops of `configureFirewall` build the chain of the config's rules. */
  method BuildCommands(cfg: ClusterConfig, node: NodeConfig) returns (commands: seq<Command>)
    ensures commands == Script(Rules(cfg, node))
  {
    hide AllowAll;
    var fw := cfg.firewall;
    commands := AppendSources(PREAMBLE, fw.sshAllowedCIDRs, node.ssh.port);
    ghost var done := SourceRules(fw.sshAllowedCIDRs, node.ssh.port);
    if cfg.wireGuard.enabled {
      commands := AppendPeers(commands, cfg, node.key);
      commands := commands + [Allow(OnInterface(cfg.wireGuard.iface))];
      AllowAllAppend(PeerRules(cfg, node.key, cfg.nodeNames), [OnInterface(cfg.wireGuard.iface)]);
      OneAllowed(OnInterface(cfg.wireGuard.iface));
    }
    assert commands == PREAMBLE + (AllowAll(done) + AllowAll(WireGuardRules(cfg, node.key))) by { NoneAllowed(); }
    AllowAllAppend(done, WireGuardRules(cfg, node.key));
    done := done + WireGuardRules(cfg, node.key);
    commands := AppendServices(commands, fw);
    AllowAllAppend(done, ServiceRules(fw));
    commands := commands + [Enable];
    assert commands == PREAMBLE + (AllowAll(done) + AllowAll(ServiceRules(fw))) + [Enable];
  }

  lemma NoneAllowed()
    ensures AllowAll([]) == []
  {
  }

  lemma OneAllowed(r: Rule)
    ensures AllowAll([r]) == [Allow(r)]
  {
    assert [r][..0] == [];
  }

  function WebRules(fw: FirewallConfig): seq<Rule> {
    (if fw.allowHTTP then [ToPort(80, Tcp)] else []) + (if fw.allowHTTPS then [ToPort(443, Tcp)] else [])
  }

  function ApiRules(fw: FirewallConfig): seq<Rule> {
    if !fw.allowKubeAPI then [] else if fw.adminCIDRs == [] then [ToPort(6443, Tcp)] else SourceRules(fw.adminCIDRs, 6443)
  }

  method AppendWeb(commands: seq<Command>, fw: FirewallConfig) returns (r: seq<Command>)
    ensures r == commands + AllowAll(WebRules(fw))
  {
    hide AllowAll;
    NoneAllowed();
    OneAllowed(ToPort(80, Tcp));
    OneAllowed(ToPort(443, Tcp));
    AllowAllAppend([ToPort(80, Tcp)], [ToPort(443, Tcp)]);
    r := commands;
    if fw.allowHTTP { r := r + [Allow(ToPort(80, Tcp))]; }
    if fw.allowHTTPS { r := r + [Allow(ToPort(443, Tcp))]; }
    assert WebRules(fw) == if fw.allowHTTP && fw.allowHTTPS then [ToPort(80, Tcp)] + [ToPort(443, Tcp)]
                           else if fw.allowHTTP then [ToPort(80, Tcp)] else if fw.allowHTTPS then [ToPort(443, Tcp)] else [];
  }

  method AppendApi(commands: seq<Command>, fw: FirewallConfig) returns (r: seq<Command>)
    ensures r == commands + AllowAll(ApiRules(fw))
  {
    hide AllowAll;
    NoneAllowed();
    OneAllowed(ToPort(6443, Tcp));
    r := commands;
    if fw.allowKubeAPI {
      if |fw.adminCIDRs| == 0 {
        r := r + [Allow(ToPort(6443, Tcp))];
      } else {
        r := AppendSources(r, fw.adminCIDRs, 6443);
      }
    }
  }

  method AppendServices(commands: seq<Command>, fw: FirewallConfig) returns (r: seq<Command>)
    ensures r == commands + AllowAll(ServiceRules(fw))
  {
    hide AllowAll, WebRules, ApiRules, PortRules;
    r := AppendWeb(commands, fw);
    r := AppendApi(r, fw);
    r := AppendPorts(r, fw.extraTCPPorts, Tcp);
    r := AppendPorts(r, fw.extraUDPPorts, Udp);
    AllowAllAppend(WebRules(fw), ApiRules(fw));
    AllowAllAppend(WebRules(fw) + ApiRules(fw), PortRules(fw.extraTCPPorts, Tcp));
    AllowAllAppend(WebRules(fw) + ApiRules(fw) + PortRules(fw.extraTCPPorts, Tcp), PortRules(fw.extraUDPPorts, Udp));
  }

  // --------------------------------------------------- what the rules admit

  /** TCP on a port, from one of the sources. */
  predicate FromOneOf(sources: seq<string>, port: int, r: Rule) { r.FromTo? && r.source in sources && r.port == port && r.proto.Tcp? }

  /** WireGuard packets from another node, and everything inside the tunnel. */
  ghost predicate MeshTraffic(cfg: ClusterConfig, node: NodeConfig, r: Rule) {
    || r == OnInterface(cfg.wireGuard.iface)
    || exists k :: k in cfg.nodeNames && NodeOf(cfg.nodes, k).key != node.key && r == FromTo(NodeOf(cfg.nodes, k).publicIP, cfg.wireGuard.port, Udp)
  }

  /** The published services and the ports opened by hand. */
  predicate ServiceTraffic(fw: FirewallConfig, r: Rule) {
    || (fw.allowHTTP && r == ToPort(80, Tcp))
    || (fw.allowHTTPS && r == ToPort(443, Tcp))
    || (fw.allowKubeAPI && fw.adminCIDRs == [] && r == ToPort(6443, Tcp))
    || (fw.allowKubeAPI && fw.adminCIDRs != [] && FromOneOf(fw.adminCIDRs, 6443, r))
    || (r.ToPort? && r.proto.Tcp? && r.port in fw.extraTCPPorts)
    || (r.ToPort? && r.proto.Udp? && r.port in fw.extraUDPPorts)
  }

  /** The traffic that a node is meant to admit: SSH, the mesh, and its services. */
  ghost predicate Wanted(cfg: ClusterConfig, node: NodeConfig, r: Rule) {
    || FromOneOf(cfg.firewall.sshAllowedCIDRs, node.ssh.port, r)
    || (cfg.wireGuard.enabled && MeshTraffic(cfg, node, r))
    || ServiceTraffic(cfg.firewall, r)
  }

  lemma {:induction false} SourceRulesIff(sources: seq<string>, port: int, r: Rule)
    ensures r in SourceRules(sources, port) <==> FromOneOf(sources, port, r)
    decreases |sources|
  {
    if sources != [] {
      var n := |sources| - 1;
      SourceRulesIff(sources[..n], port, r);
      assert sources == sources[..n] + [sources[n]];
    }
  }

  lemma {:induction false} PortRulesIff(ports: seq<int>, proto: Proto, r: Rule)
    ensures r in PortRules(ports, proto) <==> r.ToPort? && r.proto == proto && r.port in ports
    decreases |ports|
  {
    if ports != [] {
      var n := |ports| - 1;
      PortRulesIff(ports[..n], proto, r);
      assert ports == ports[..n] + [ports[n]];
    }
  }

  lemma {:induction false} PeerRulesIff(cfg: ClusterConfig, self: string, names: seq<string>, r: Rule)
    ensures r in PeerRules(cfg, self, names) <==>
            exists k :: k in names && NodeOf(cfg.nodes, k).key != self && r == FromTo(NodeOf(cfg.nodes, k).publicIP, cfg.wireGuard.port, Udp)
    decreases |names|
  {
    if names != [] {
      var n := |names| - 1;
      PeerRulesIff(cfg, self, names[..n], r);
      assert names == names[..n] + [names[n]];
    }
  }

  lemma ServiceRulesIff(fw: FirewallConfig, r: Rule)
    ensures r in ServiceRules(fw) <==> ServiceTraffic(fw, r)
  {
    hide SourceRules, PortRules;
    SourceRulesIff(fw.adminCIDRs, 6443, r);
    PortRulesIff(fw.extraTCPPorts, Tcp, r);
    PortRulesIff(fw.extraUDPPorts, Udp, r);
  }

  /** The rules of a configuration admit exactly the traffic that is wanted. */
  lemma RulesIff(cfg: ClusterConfig, node: NodeConfig, r: Rule)
    ensures r in Rules(cfg, node) <==> Wanted(cfg, node, r)
  {
    hide SourceRules, PeerRules, ServiceRules, ServiceTraffic, FromOneOf;
    SourceRulesIff(cfg.firewall.sshAllowedCIDRs, node.ssh.port, r);
    PeerRulesIff(cfg, node.key, cfg.nodeNames, r);
    ServiceRulesIff(cfg.firewall, r);
  }

  // ------------------------------------------------------------- a node's UFW

  datatype Ufw = Ufw(rules: set<Rule>, active: bool, denyIncoming: bool, allowOutgoing: bool)

  /** The firewall part of a node: UFW itself and the marker file. */
  datatype FirewallState = FirewallState(ufw: Ufw, marker: Option<string>)

  /** What one command of the chain does; `reset` also deactivates UFW. */
  function Exec(c: Command, u: Ufw): Ufw {
    match c
    case AptUpdate => u
    case AptInstallUfw => u
    case Reset => Ufw({}, false, true, true)
    case DenyIncoming => u.(denyIncoming := true)
    case AllowOutgoing => u.(allowOutgoing := true)
    case Allow(r) => u.(rules := u.rules + {r})
    case Enable => u.(active := true)
  }

  /** The `&&` chain: it goes on while commands succeed and stops at the first failure. */
  function Chain(cs: seq<Command>, u: Ufw, net: Net, t: nat): Step<Ufw>
    decreases |cs|
  {
    if cs == [] then Step(u, t, true) else
      var first := Do(u, Exec(cs[0], u), net, t);
      if first.ok then Chain(cs[1..], first.state, net, first.clock) else first
  }

  /** The shortcut: the marker file holds the script and UFW reports that it is active. */
  predicate Skips(f: FirewallState, text: string, net: Net, t: nat) {
    net.answers(t) && f.marker == Some(text) && net.answers(t + 1) && f.ufw.active
  }

  /** One call of `configureFirewall` with the given rules, from remote step `t` on. */
  function Configure(f: FirewallState, rules: seq<Rule>, net: Net, t: nat): Step<FirewallState> {
    var text := ScriptText(Script(rules));
    if Skips(f, text, net, t) then Step(f, t + 2, true) else
      var start := if net.answers(t) && f.marker == Some(text) then t + 2 else t + 1;
      var run := Chain(Script(rules), f.ufw, net, start);
      var applied := f.(ufw := run.state);
      if run.ok then Do(applied, applied.(marker := Some(text)), net, run.clock) else Step(applied, run.clock, false)
  }

  function RuleSet(rules: seq<Rule>): set<Rule> { set r | r in rules }

  /** The state the rules ask for: exactly these rules, active, with the default policies. */
  function Goal(rules: seq<Rule>): Ufw { Ufw(RuleSet(rules), true, true, true) }

  // -------------------------------------------------------------- cut anywhere

  /** From the reset on, the rules grow and UFW stays inactive until the end of the chain. */
  lemma {:induction false} ChainTail(rules: seq<Rule>, k: nat, u: Ufw, net: Net, t: nat)
    requires k <= |rules|
    requires u == Ufw(RuleSet(rules[..k]), false, true, true)
    ensures var run := Chain(AllowAll(rules)[k..] + [Enable], u, net, t);
            (run.state.active ==> run.state == Goal(rules)) && (run.ok ==> run.state.active)
    decreases |rules| - k
  {
    var cs := AllowAll(rules)[k..] + [Enable];
    if k < |rules| {
      AllowAllAt(rules, k);
      assert cs[0] == Allow(rules[k]);
      assert cs[1..] == AllowAll(rules)[k + 1..] + [Enable];
      assert rules[..k + 1] == rules[..k] + [rules[k]];
      var u' := Exec(cs[0], u);
      assert u'.rules == RuleSet(rules[..k + 1]);
      ChainTail(rules, k + 1, u', net, t + 1);
    } else {
      assert cs == [Enable];
      assert cs[1..] == [];
      assert rules[..k] == rules;
    }
  }

  lemma ChainStep(c: Command, rest: seq<Command>, u: Ufw, net: Net, t: nat)
    ensures Chain([c] + rest, u, net, t) ==
            if net.step(t) == Done then Chain(rest, Exec(c, u), net, t + 1)
            else Step(if net.step(t) == Unseen then Exec(c, u) else u, t + 1, false)
  {
    assert ([c] + rest)[1..] == rest;
  }

  /**
   Wherever the chain is cut, UFW is as it was, or inactive, or exactly at the goal:
   a partly built rule set is never enforced.
   */
  lemma ChainCut(rules: seq<Rule>, u: Ufw, net: Net, t: nat)
    ensures var run := Chain(Script(rules), u, net, t);
            && (run.state == u || !run.state.active || run.state == Goal(rules))
            && (run.ok ==> run.state == Goal(rules))
  {
    hide AllowAll, Chain;
    var tail := AllowAll(rules) + [Enable];
    var u1 := Exec(Reset, u);
    assert Script(rules) == [AptUpdate] + ([AptInstallUfw] + ([Reset] + ([DenyIncoming] + ([AllowOutgoing] + tail))));
    ChainStep(AptUpdate, [AptInstallUfw] + ([Reset] + ([DenyIncoming] + ([AllowOutgoing] + tail))), u, net, t);
    ChainStep(AptInstallUfw, [Reset] + ([DenyIncoming] + ([AllowOutgoing] + tail)), u, net, t + 1);
    ChainStep(Reset, [DenyIncoming] + ([AllowOutgoing] + tail), u, net, t + 2);
    ChainStep(DenyIncoming, [AllowOutgoing] + tail, u1, net, t + 3);
    ChainStep(AllowOutgoing, tail, u1, net, t + 4);
    assert AllowAll(rules)[0..] == AllowAll(rules);
    ChainTail(rules, 0, u1, net, t + 5);
  }

  /** "Marker equals script and UFW active" implies that the installed rules are the script's. */
  predicate InSync(f: FirewallState, rules: seq<Rule>) {
    f.marker == Some(ScriptText(Script(rules))) && f.ufw.active ==> f.ufw == Goal(rules)
  }

  predicate Converged(f: FirewallState, rules: seq<Rule>) {
    f.ufw == Goal(rules) && f.marker == Some(ScriptText(Script(rules)))
  }

  /**
   Every run for a fixed target, cut at any command, keeps the invariant; a run that reports
   success leaves UFW active with exactly the target rules.
   */
  lemma ConfigureKeepsSync(f: FirewallState, rules: seq<Rule>, net: Net, t: nat)
    requires InSync(f, rules)
    ensures InSync(Configure(f, rules, net, t).state, rules)
    ensures Configure(f, rules, net, t).ok ==> Converged(Configure(f, rules, net, t).state, rules)
    ensures var u := Configure(f, rules, net, t).state.ufw; u == f.ufw || !u.active || u == Goal(rules)
  {
    hide ScriptText, Script, Chain, Goal;
    var text := ScriptText(Script(rules));
    ChainCut(rules, f.ufw, net, if net.answers(t) && f.marker == Some(text) then t + 2 else t + 1);
  }

  /** UFW is active, refuses everything else that comes in, and admits exactly the wanted traffic. */
  ghost predicate Admits(u: Ufw, cfg: ClusterConfig, node: NodeConfig) {
    u.active && u.denyIncoming && u.allowOutgoing && forall r :: r in u.rules <==> Wanted(cfg, node, r)
  }

  lemma GoalAdmits(cfg: ClusterConfig, node: NodeConfig)
    ensures Admits(Goal(Rules(cfg, node)), cfg, node)
  {
    hide Rules, Wanted;
    forall r ensures r in Goal(Rules(cfg, node)).rules <==> Wanted(cfg, node, r) { RulesIff(cfg, node, r); }
  }

  /** A successful run for a configuration leaves exactly the wanted traffic admitted. */
  lemma ConfigureAdmits(f: FirewallState, cfg: ClusterConfig, node: NodeConfig, net: Net, t: nat)
    requires InSync(f, Rules(cfg, node))
    ensures var run := Configure(f, Rules(cfg, node), net, t); run.ok ==> Admits(run.state.ufw, cfg, node)
  {
    hide Rules, Configure, InSync, Admits;
    ConfigureKeepsSync(f, Rules(cfg, node), net, t);
    GoalAdmits(cfg, node);
  }

  /** The state after a series of runs, each with its own network behaviour. */
  function Runs(f: FirewallState, rules: seq<Rule>, nets: seq<Net>): FirewallState {
    if nets == [] then f else Configure(Runs(f, rules, nets[..|nets| - 1]), rules, nets[|nets| - 1], 0).state
  }

  /**
   Convergence under failure: after any series of failed runs for the same target, a run that
   succeeds ends at the goal, and a further undisturbed run changes nothing.
   */
  lemma {:induction false} RunsConverge(f: FirewallState, rules: seq<Rule>, nets: seq<Net>, last: Net, calm: Net)
    requires InSync(f, rules) && Calm(calm)
    ensures InSync(Runs(f, rules, nets), rules)
    ensures var end := Configure(Runs(f, rules, nets), rules, last, 0);
            end.ok ==> Converged(end.state, rules) && Configure(end.state, rules, calm, 0) == Step(end.state, 2, true)
    decreases |nets|
  {
    hide ScriptText, Script, Chain;
    if nets != [] {
      var front := nets[..|nets| - 1];
      RunsConverge(f, rules, front, nets[|nets| - 1], calm);
      ConfigureKeepsSync(Runs(f, rules, front), rules, nets[|nets| - 1], 0);
    }
    ConfigureKeepsSync(Runs(f, rules, nets), rules, last, 0);
  }

  // --------------------------------------------------- changing the target

  /** The marker tells the truth about every rule list whose script it may hold. */
  ghost predicate Truthful(f: FirewallState) {
    forall rules :: CleanRules(rules) ==> InSync(f, rules)
  }

  /** The marker records rules other than these. */
  ghost predicate MarksOther(f: FirewallState, rules: seq<Rule>) {
    exists other :: CleanRules(other) && f.marker == Some(ScriptText(Script(other))) && Goal(other) != Goal(rules)
  }

  /** The remote step that enables UFW when the chain starts at step `t`. */
  function EnableStep(rules: seq<Rule>, t: nat): nat { t + 5 + |rules| }

  /** The fates of the chain's steps let its last command take effect. */
  ghost predicate Enables(rules: seq<Rule>, net: Net, t: nat) {
    && (forall i :: t <= i < EnableStep(rules, t) ==> net.step(i) == Done)
    && (net.step(EnableStep(rules, t)) == Done || net.step(EnableStep(rules, t)) == Unseen)
  }

  /** From the reset on UFW becomes active exactly when every step up to `enable` takes effect. */
  lemma {:induction false} TailEnables(rules: seq<Rule>, k: nat, u: Ufw, net: Net, t: nat)
    requires k <= |rules| && !u.active
    ensures var run, last := Chain(AllowAll(rules)[k..] + [Enable], u, net, t), t + (|rules| - k);
            && (run.state.active <==> (forall i :: t <= i < last ==> net.step(i) == Done) && (net.step(last) == Done || net.step(last) == Unseen))
            && (run.ok <==> forall i :: t <= i <= last ==> net.step(i) == Done)
            && (run.ok ==> run.clock == last + 1)
    decreases |rules| - k
  {
    var cs := AllowAll(rules)[k..] + [Enable];
    if k < |rules| {
      AllowAllAt(rules, k);
      assert cs == [Allow(rules[k])] + (AllowAll(rules)[k + 1..] + [Enable]);
      ChainStep(Allow(rules[k]), AllowAll(rules)[k + 1..] + [Enable], u, net, t);
      TailEnables(rules, k + 1, Exec(Allow(rules[k]), u), net, t + 1);
    } else {
      assert cs == [Enable] + [];
      ChainStep(Enable, [], u, net, t);
    }
  }

  /** When the whole chain brings UFW to the goal, and when it is reported as done. */
  lemma ChainEnables(rules: seq<Rule>, u: Ufw, net: Net, t: nat)
    ensures var run := Chain(Script(rules), u, net, t);
            && (Enables(rules, net, t) ==> run.state == Goal(rules))
            && (!Enables(rules, net, t) ==> run.state == u || !run.state.active)
            && (run.ok <==> Enables(rules, net, t) && net.step(EnableStep(rules, t)) == Done)
            && (run.ok ==> run.clock == EnableStep(rules, t) + 1)
  {
    hide AllowAll, Chain;
    ChainCut(rules, u, net, t);
    var tail := AllowAll(rules) + [Enable];
    assert Script(rules) == [AptUpdate] + ([AptInstallUfw] + ([Reset] + ([DenyIncoming] + ([AllowOutgoing] + tail))));
    ChainStep(AptUpdate, [AptInstallUfw] + ([Reset] + ([DenyIncoming] + ([AllowOutgoing] + tail))), u, net, t);
    ChainStep(AptInstallUfw, [Reset] + ([DenyIncoming] + ([AllowOutgoing] + tail)), u, net, t + 1);
    ChainStep(Reset, [DenyIncoming] + ([AllowOutgoing] + tail), u, net, t + 2);
    ChainStep(DenyIncoming, [AllowOutgoing] + tail, Exec(Reset, u), net, t + 3);
    ChainStep(AllowOutgoing, tail, Exec(Reset, u), net, t + 4);
    assert AllowAll(rules)[0..] == AllowAll(rules);
    assert rules[..0] == [];
    ChainTail(rules, 0, Exec(Reset, u), net, t + 5);
    TailEnables(rules, 0, Exec(Reset, u), net, t + 5);
  }

  /**
   The window of a run that starts at step `t`: every command up to `enable` took effect, and then
   either `enable` was not seen to succeed or the marker upload did not take effect.
   */
  ghost predicate CutBeforeMarker(rules: seq<Rule>, net: Net, t: nat) {
    var last := EnableStep(rules, t + 1);
    && (forall i :: t < i < last ==> net.step(i) == Done)
    && (net.step(last) == Unseen || (net.step(last) == Done && (net.step(last + 1) == Lost || net.step(last + 1) == Failed)))
  }

  /**
   Across changing targets the marker stays truthful exactly when the run is not cut in the
   window after the chain and before the marker upload while the marker records other rules.
   */
  lemma TruthfulIff(f: FirewallState, rules: seq<Rule>, net: Net, t: nat)
    requires Truthful(f) && CleanRules(rules)
    ensures Truthful(Configure(f, rules, net, t).state)
            <==> !(CutBeforeMarker(rules, net, t) && MarksOther(f, rules))
  {
    hide ScriptText, Script, Chain, Goal, CleanRules, Enables, CutBeforeMarker, Truthful, MarksOther;
    GoalActive(rules);
    if MarksOther(f, rules) { OtherMarker(f, rules, net, t); } else { OwnMarker(f, rules, net, t); }
  }

  /** With a marker of other rules the run goes through the chain, and only the upload repairs the marker. */
  lemma OtherMarker(f: FirewallState, rules: seq<Rule>, net: Net, t: nat)
    requires Truthful(f) && CleanRules(rules) && MarksOther(f, rules)
    ensures Truthful(Configure(f, rules, net, t).state) <==> !CutBeforeMarker(rules, net, t)
  {
    hide ScriptText, Script, Chain, Goal, CleanRules;
    var other :| CleanRules(other) && f.marker == Some(ScriptText(Script(other))) && Goal(other) != Goal(rules);
    var after, text := Configure(f, rules, net, t).state, ScriptText(Script(rules));
    if ScriptText(Script(other)) == text { MarkerInjective(other, rules); }
    ChainEnables(rules, f.ufw, net, t + 1);
    GoalActive(rules);
    assert InSync(f, other);
    if CutBeforeMarker(rules, net, t) {
      assert Enables(rules, net, t + 1);
      assert !InSync(after, other);
    } else {
      SyncUnlessOther(f, after, rules);
    }
  }

  lemma OwnMarker(f: FirewallState, rules: seq<Rule>, net: Net, t: nat)
    requires Truthful(f) && CleanRules(rules) && !MarksOther(f, rules)
    ensures Truthful(Configure(f, rules, net, t).state)
  {
    hide ScriptText, Script, Chain, Goal, CleanRules;
    var text := ScriptText(Script(rules));
    ChainCut(rules, f.ufw, net, if net.answers(t) && f.marker == Some(text) then t + 2 else t + 1);
    assert InSync(f, rules);
    SyncUnlessOther(f, Configure(f, rules, net, t).state, rules);
  }

  /** UFW as before, or inactive, or at a goal that the marker does not contradict: the marker is truthful. */
  lemma SyncUnlessOther(f: FirewallState, after: FirewallState, rules: seq<Rule>)
    requires Truthful(f) && CleanRules(rules)
    requires after.ufw == f.ufw || !after.ufw.active || after.ufw == Goal(rules)
    requires after.marker == f.marker || (after.marker == Some(ScriptText(Script(rules))) && after.ufw == Goal(rules))
    requires after.marker == f.marker && after.ufw == Goal(rules) ==> !MarksOther(f, rules)
    ensures Truthful(after)
  {
    hide ScriptText, Script, Goal, CleanRules;
    forall other | CleanRules(other) ensures InSync(after, other) {
      assert InSync(f, other);
      if after.marker == Some(ScriptText(Script(other))) && after.marker == Some(ScriptText(Script(rules))) { MarkerInjective(other, rules); }
    }
  }

  lemma GoalActive(rules: seq<Rule>)
    ensures Goal(rules).active
  {
  }

  lemma {:induction false} ChainCompletes(cs: seq<Command>, u: Ufw, net: Net, t: nat)
    requires forall i :: t <= i < t + |cs| ==> net.step(i) == Done
    ensures Chain(cs, u, net, t).ok && Chain(cs, u, net, t).clock == t + |cs|
    decreases |cs|
  {
    if cs != [] { ChainCompletes(cs[1..], Exec(cs[0], u), net, t + 1); }
  }

  /**
   The window is real, for any two rule lists: the new rules are applied, the marker upload is
   lost, the operator returns to the old rules, and the provider reports success while the new
   rules stay installed.
   */
  lemma RevertWindow(before: seq<Rule>, after: seq<Rule>, f: FirewallState, calm: Net)
    requires CleanRules(before) && CleanRules(after) && Goal(before) != Goal(after)
    requires Converged(f, before) && Calm(calm)
    ensures var cut := Configure(f, after, LosingStep(7 + |after|), 0);
            var back := Configure(cut.state, before, calm, 0);
            !cut.ok && back.ok && back.state.ufw == Goal(after)
  {
    hide ScriptText, Chain, Goal, CleanRules;
    if ScriptText(Script(before)) == ScriptText(Script(after)) { MarkerInjective(before, after); }
    assert |Script(after)| == 6 + |after|;
    ChainCompletes(Script(after), f.ufw, LosingStep(7 + |after|), 1);
    ChainCut(after, f.ufw, LosingStep(7 + |after|), 1);
    GoalActive(after);
  }
}

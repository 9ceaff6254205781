/**
 K3s on one node: the rendered config.yaml, which node bootstraps the cluster, and the
 install step with its restart-only-when-changed shortcut.
 */
module K3s {
  import opened Wrappers
  import opened Text
  import opened Config
  import opened Remote

  const RESOLV_CONF_PATH := "/etc/vpsk3s/resolv.conf"

  // ------------------------------------------------------- the bootstrap server

  /** The key of the first server in node order. */
  function FirstServerOf(nodes: map<string, NodeConfig>, names: seq<string>): (r: Option<string>)
    ensures r.Some? ==> r.value in names && NodeOf(nodes, r.value).role == "server"
    ensures r.None? <==> forall k :: k in names ==> NodeOf(nodes, k).role != "server"
  {
    if names == [] then None
    else if NodeOf(nodes, names[0]).role == "server" then Some(names[0])
    else FirstServerOf(nodes, names[1..])
  }

  /** `firstServer`: a read-only search. */
  method FirstServer(cfg: ClusterConfig) returns (r: Option<NodeConfig>)
    ensures r == match FirstServerOf(cfg.nodes, cfg.nodeNames) case Some(k) => Some(NodeOf(cfg.nodes, k)) case None => None
  {
    for i := 0 to |cfg.nodeNames|
      invariant FirstServerOf(cfg.nodes, cfg.nodeNames) == FirstServerOf(cfg.nodes, cfg.nodeNames[i..])
    {
      var n := NodeOf(cfg.nodes, cfg.nodeNames[i]);
      assert cfg.nodeNames[i..][1..] == cfg.nodeNames[i + 1..];
      if n.role == "server" { return Some(n); }
    }
    r := None;
  }

  function First(cfg: ClusterConfig): NodeConfig {
    match FirstServerOf(cfg.nodes, cfg.nodeNames)
    case Some(k) => NodeOf(cfg.nodes, k)
    case None => NO_NODE
  }

  function Address(cfg: ClusterConfig, n: NodeConfig): string {
    if cfg.wireGuard.enabled then n.privateIP else n.publicIP
  }

  /** `serverURLFor`; an error leaves the empty URL, which is what the renderer then uses. */
  function ServerURL(cfg: ClusterConfig): string {
    if FirstServerOf(cfg.nodes, cfg.nodeNames).None? then "" else "https://" + Address(cfg, First(cfg)) + ":6443"
  }

  // ---------------------------------------------------------------- config.yaml

  /** One top-level entry of config.yaml. */
  datatype Entry = Scalar(key: string, value: string) | Flag(key: string) | Items(key: string, items: seq<string>)

  function Optional(cond: bool, e: Entry): seq<Entry> { if cond then [e] else [] }

  /** `appendK3sArg`: an extra argument as a config entry. */
  function ArgEntry(arg: string): seq<Entry> {
    var bare := TrimSpace(if "--" <= arg then arg[2..] else arg);
    if bare == "" then [] else
      var eq := Find(bare, "=");
      if eq >= 0 then [Scalar(bare[..eq], bare[eq + 1..])] else [Flag(bare)]
  }

  function ArgEntries(args: seq<string>): seq<Entry> {
    if args == [] then [] else ArgEntries(args[..|args| - 1]) + ArgEntry(args[|args| - 1])
  }

  function ExtraArgs(cfg: ClusterConfig, node: NodeConfig): seq<string> {
    if node.role == "server" then cfg.k3s.extraServerArgs else cfg.k3s.extraAgentArgs
  }

  predicate Bootstraps(cfg: ClusterConfig, node: NodeConfig) { node.role == "server" && node.key == First(cfg).key }

  function JoinEntry(cfg: ClusterConfig, node: NodeConfig): Entry {
    if Bootstraps(cfg, node) then Flag("cluster-init") else Scalar("server", ServerURL(cfg))
  }

  function NetworkEntries(cfg: ClusterConfig, node: NodeConfig): seq<Entry> {
    [Scalar("node-ip", Address(cfg, node))]
    + Optional(node.role == "server", Scalar("advertise-address", Address(cfg, node)))
    + Optional(cfg.wireGuard.enabled, Scalar("flannel-iface", cfg.wireGuard.iface))
    + Optional(cfg.dns.enabled, Scalar("resolv-conf", RESOLV_CONF_PATH))
  }

  function ServerEntries(cfg: ClusterConfig, node: NodeConfig): seq<Entry> {
    if node.role != "server" then [] else
      [Scalar("cluster-cidr", cfg.k3s.clusterCIDR), Scalar("service-cidr", cfg.k3s.serviceCIDR),
       Scalar("write-kubeconfig-mode", cfg.k3s.writeKubeconfigMode)]
      + Optional(cfg.k3s.disableComponents != [], Items("disable", cfg.k3s.disableComponents))
      + [Items("tls-san", [Address(cfg, node)] + (if node.hostname != "" then [node.hostname] else []))]
  }

  /** The config.yaml of one node. */
  function Rendered(cfg: ClusterConfig, node: NodeConfig): seq<Entry> {
    [JoinEntry(cfg, node), Scalar("token", cfg.k3sToken), Scalar("node-name", node.name)]
    + NetworkEntries(cfg, node) + ServerEntries(cfg, node) + ArgEntries(ExtraArgs(cfg, node))
  }

  method WriteNetwork(b0: seq<Entry>, cfg: ClusterConfig, node: NodeConfig) returns (b: seq<Entry>)
    ensures b == b0 + NetworkEntries(cfg, node)
  {
    var address := if cfg.wireGuard.enabled then node.privateIP else node.publicIP;
    b := b0 + [Scalar("node-ip", address)];
    if node.role == "server" { b := b + [Scalar("advertise-address", address)]; }
    if cfg.wireGuard.enabled { b := b + [Scalar("flannel-iface", cfg.wireGuard.iface)]; }
    if cfg.dns.enabled { b := b + [Scalar("resolv-conf", RESOLV_CONF_PATH)]; }
  }

  method WriteServer(b0: seq<Entry>, cfg: ClusterConfig, node: NodeConfig) returns (b: seq<Entry>)
    ensures b == b0 + ServerEntries(cfg, node)
  {
    b := b0;
    if node.role == "server" {
      b := b + [Scalar("cluster-cidr", cfg.k3s.clusterCIDR), Scalar("service-cidr", cfg.k3s.serviceCIDR),
                Scalar("write-kubeconfig-mode", cfg.k3s.writeKubeconfigMode)];
      if |cfg.k3s.disableComponents| > 0 { b := b + [Items("disable", cfg.k3s.disableComponents)]; }
      var san := if cfg.wireGuard.enabled then [node.privateIP] else [node.publicIP];
      if node.hostname != "" { san := san + [node.hostname]; }
      assert san == [Address(cfg, node)] + (if node.hostname != "" then [node.hostname] else []);
      b := b + [Items("tls-san", san)];
    }
  }

  method WriteArgs(b0: seq<Entry>, args: seq<string>) returns (b: seq<Entry>)
    ensures b == b0 + ArgEntries(args)
  {
    hide ArgEntry;
    b := b0;
    for i := 0 to |args|
      invariant b == b0 + ArgEntries(args[..i])
    {
      assert args[..i + 1][..i] == args[..i];
      b := b + ArgEntry(args[i]);
    }
    assert args[..|args|] == args;
  }

  /** `renderK3sConfig`. */
  method RenderK3sConfig(cfg: ClusterConfig, node: NodeConfig) returns (b: seq<Entry>)
    ensures b == Rendered(cfg, node)
  {
    hide NetworkEntries, ServerEntries, ArgEntries;
    var first := FirstServer(cfg);
    var firstKey := if first.Some? then first.value.key else NO_NODE.key;
    if node.role == "server" && node.key == firstKey {
      b := [Flag("cluster-init")];
    } else {
      b := [Scalar("server", ServerURL(cfg))];
    }
    b := b + [Scalar("token", cfg.k3sToken), Scalar("node-name", node.name)];
    b := WriteNetwork(b, cfg, node);
    b := WriteServer(b, cfg, node);
    b := WriteArgs(b, ExtraArgs(cfg, node));
  }

  // ------------------------------------------------------- one bootstrap server

  /** Every name is the key of its own node, once. */
  ghost predicate KeyedNodes(cfg: ClusterConfig) {
    Distinct(cfg.nodeNames) && forall k :: k in cfg.nodeNames ==> NodeOf(cfg.nodes, k).key == k
  }

  // ------------------------------------------------------------ keys as they are read

  predicate KeyChar(c: char) { 'a' <= c <= 'z' || 'A' <= c <= 'Z' || IsDigit(c) || c == '-' || c == '_' }

  predicate PlainKey(k: string) { k != "" && forall i :: 0 <= i < |k| ==> KeyChar(k[i]) }

  predicate Blank(c: char) { c == ' ' || c == '\t' }

  function StripBlanks(s: string): (r: string)
    ensures r <= s
  {
    if s != "" && Blank(s[|s| - 1]) then StripBlanks(s[..|s| - 1]) else s
  }

  /**
   The key that a YAML reader finds in front of the colon: blanks before the colon do not belong to
   it.  `None` stands for a text that is not a plain word and may be read in some other way.
   */
  function ReadKey(raw: string): Option<string> { if PlainKey(StripBlanks(raw)) then Some(StripBlanks(raw)) else None }

  lemma ReadPlain(k: string)
    requires PlainKey(k)
    ensures ReadKey(k) == Some(k)
  {
    assert KeyChar(k[|k| - 1]);
  }

  /** The keys that the renderer itself writes are read as they are. */
  lemma JoinWords()
    ensures ReadKey("cluster-init") == Some("cluster-init") && ReadKey("server") == Some("server") && ReadKey("token") == Some("token")
    ensures ReadKey("node-name") == Some("node-name")
  {
    hide ReadKey;
    ReadPlain("cluster-init");
    ReadPlain("server");
    ReadPlain("token");
    ReadPlain("node-name");
  }

  lemma NetworkWords()
    ensures ReadKey("node-ip") == Some("node-ip") && ReadKey("advertise-address") == Some("advertise-address")
    ensures ReadKey("flannel-iface") == Some("flannel-iface") && ReadKey("resolv-conf") == Some("resolv-conf")
  {
    hide ReadKey;
    ReadPlain("node-ip");
    ReadPlain("advertise-address");
    ReadPlain("flannel-iface");
    ReadPlain("resolv-conf");
  }

  lemma ServerWords()
    ensures ReadKey("cluster-cidr") == Some("cluster-cidr") && ReadKey("service-cidr") == Some("service-cidr")
    ensures ReadKey("write-kubeconfig-mode") == Some("write-kubeconfig-mode") && ReadKey("disable") == Some("disable")
    ensures ReadKey("tls-san") == Some("tls-san")
  {
    hide ReadKey;
    ReadPlain("cluster-cidr");
    ReadPlain("service-cidr");
    ReadPlain("write-kubeconfig-mode");
    ReadPlain("disable");
    ReadPlain("tls-san");
  }

  predicate Reads(e: Entry, key: string) { ReadKey(e.key) == Some(key) }

  predicate HasKey(es: seq<Entry>, key: string) { exists i :: 0 <= i < |es| && Reads(es[i], key) }

  /** Every key is a plain word. */
  predicate Legible(es: seq<Entry>) { forall i :: 0 <= i < |es| ==> ReadKey(es[i].key).Some? }

  lemma HasKeyAppend(a: seq<Entry>, b: seq<Entry>, key: string)
    ensures HasKey(a + b, key) <==> HasKey(a, key) || HasKey(b, key)
  {
    hide Reads;
    if HasKey(a, key) {
      var i :| 0 <= i < |a| && Reads(a[i], key);
      assert (a + b)[i] == a[i];
    }
    if HasKey(b, key) {
      var i :| 0 <= i < |b| && Reads(b[i], key);
      assert (a + b)[|a| + i] == b[i];
    }
  }

  lemma LegibleAppend(a: seq<Entry>, b: seq<Entry>)
    ensures Legible(a + b) <==> Legible(a) && Legible(b)
  {
    hide ReadKey;
    if Legible(a + b) {
      forall i | 0 <= i < |a| ensures ReadKey(a[i].key).Some? { assert (a + b)[i] == a[i]; }
      forall i | 0 <= i < |b| ensures ReadKey(b[i].key).Some? { assert (a + b)[|a| + i] == b[i]; }
    }
  }

  /** The entries that do not come from extra arguments. */
  function OwnEntries(cfg: ClusterConfig, node: NodeConfig): seq<Entry> {
    [JoinEntry(cfg, node), Scalar("token", cfg.k3sToken), Scalar("node-name", node.name)] + NetworkEntries(cfg, node) + ServerEntries(cfg, node)
  }

  lemma RenderedParts(cfg: ClusterConfig, node: NodeConfig)
    ensures Rendered(cfg, node) == OwnEntries(cfg, node) + ArgEntries(ExtraArgs(cfg, node))
  {
    hide NetworkEntries, ServerEntries, JoinEntry, ArgEntries;
  }

  /**
   A node's config asks for a new cluster exactly when it is the first server, or an extra
   argument for its role spells `cluster-init` itself.
   */
  lemma InitIff(cfg: ClusterConfig, node: NodeConfig)
    ensures HasKey(Rendered(cfg, node), "cluster-init")
            <==> Bootstraps(cfg, node) || HasKey(ArgEntries(ExtraArgs(cfg, node)), "cluster-init")
  {
    hide ArgEntries, HasKey, OwnEntries, KeyCount, Rendered, Bootstraps;
    RenderedParts(cfg, node);
    HasKeyAppend(OwnEntries(cfg, node), ArgEntries(ExtraArgs(cfg, node)), "cluster-init");
    OwnCount(cfg, node, "cluster-init");
    KeyCountZero(OwnEntries(cfg, node), "cluster-init");
  }

  /** How often an entry with this key is written. */
  function KeyCount(es: seq<Entry>, key: string): nat {
    if es == [] then 0 else KeyCount(es[..|es| - 1], key) + (if Reads(es[|es| - 1], key) then 1 else 0)
  }

  lemma {:induction false} KeyCountAppend(a: seq<Entry>, b: seq<Entry>, key: string)
    ensures KeyCount(a + b, key) == KeyCount(a, key) + KeyCount(b, key)
  {
    hide Reads;
    if b == [] {
      assert a + b == a;
    } else {
      assert (a + b)[..|a + b| - 1] == a + b[..|b| - 1];
      KeyCountAppend(a, b[..|b| - 1], key);
    }
  }

  lemma KeyCountOne(e: Entry, key: string)
    ensures KeyCount([e], key) == if Reads(e, key) then 1 else 0
  {
    hide Reads;
    assert [e][..0] == [];
  }

  lemma {:induction false} KeyCountZero(es: seq<Entry>, key: string)
    ensures KeyCount(es, key) == 0 <==> !HasKey(es, key)
  {
    hide Reads;
    if es != [] {
      var n := |es| - 1;
      KeyCountZero(es[..n], key);
      assert es == es[..n] + [es[n]];
      HasKeyAppend(es[..n], [es[n]], key);
      assert [es[n]][0] == es[n];
    }
  }

  /** The keys that decide how a node joins. */
  predicate JoinKey(key: string) { key == "cluster-init" || key == "server" || key == "token" }

  /** An extra argument that spells this key. */
  predicate Spells(arg: string, key: string) { ArgEntry(arg) != [] && Reads(ArgEntry(arg)[0], key) }

  /** An extra argument whose key is a plain word other than the join keys, or that writes nothing. */
  predicate PlainArg(arg: string) {
    ArgEntry(arg) == [] || (ReadKey(ArgEntry(arg)[0].key).Some? && !JoinKey(ReadKey(ArgEntry(arg)[0].key).value))
  }

  predicate AllPlain(args: seq<string>) { forall i :: 0 <= i < |args| ==> PlainArg(args[i]) }

  predicate PlainArgs(cfg: ClusterConfig, node: NodeConfig) { AllPlain(ExtraArgs(cfg, node)) }

  /** A dashed word is written as an entry of its own, the join keys not excepted; blanks before the `=` change nothing. */
  lemma FlagArg(w: string, value: string)
    requires PlainKey(w) && NoSpace(value) && value != ""
    ensures ArgEntry("--" + w) == [Flag(w)] && ArgEntry("--" + w + " =" + value) == [Scalar(w + " ", value)]
    ensures Spells("--" + w, w) && Spells("--" + w + " =" + value, w)
  {
    hide Find, IsSpace, TrimLeft, TrimRight, ReadKey, TrimSpace;
    KeyWord(w);
    ReadPlain(w);
    ReadBlank(w);
    assert ("--" + w)[2..] == w;
    TrimWord(w);
    NoEquals(w);
    BlankFlag(w, value);
  }

  lemma BlankFlag(w: string, value: string)
    requires PlainKey(w) && NoSpace(value) && value != ""
    ensures ArgEntry("--" + w + " =" + value) == [Scalar(w + " ", value)]
  {
    hide IsSpace, ArgEntry, TrimSpace;
    KeyWord(w);
    var bare := w + " =" + value;
    assert "--" + w + " =" + value == "--" + bare && ("--" + bare)[2..] == bare;
    assert bare == (w + " ") + "=" + value;
    TrimEnds(bare);
    EntryOf("--" + bare, w + " ", value);
  }

  /** An argument with an equals sign is split at the first one. */
  lemma EntryOf(arg: string, w: string, value: string)
    requires TrimSpace(TrimDashes(arg)) == w + "=" + value && '=' !in w
    ensures ArgEntry(arg) == [Scalar(w, value)]
  {
    hide Find, TrimSpace;
    var bare := w + "=" + value;
    FirstEquals(w, value);
    assert bare[..|w|] == w && bare[|w| + 1..] == value;
  }

  lemma KeyWord(w: string)
    requires PlainKey(w)
    ensures NoSpace(w) && '=' !in w
  {
    forall i | 0 <= i < |w| ensures !IsSpace(w[i]) && w[i] != '=' { assert KeyChar(w[i]); }
  }

  lemma ReadBlank(w: string)
    requires PlainKey(w)
    ensures ReadKey(w + " ") == Some(w)
  {
    assert KeyChar(w[|w| - 1]);
    assert StripBlanks(w) == w;
    assert (w + " ")[..|w|] == w && (w + " ")[|w|] == ' ';
  }

  lemma TrimWord(w: string)
    requires NoSpace(w)
    ensures TrimSpace(w) == w
  {
    hide IsSpace;
  }

  lemma TrimEnds(s: string)
    requires s != "" && !IsSpace(s[0]) && !IsSpace(s[|s| - 1])
    ensures TrimSpace(s) == s
  {
    hide IsSpace;
  }

  lemma NoEquals(w: string)
    requires '=' !in w
    ensures Find(w, "=") < 0
  {
    forall j: nat ensures !At(w, "=", j) {
      if j < |w| { assert w[j..j + 1] == [w[j]]; }
    }
  }

  lemma FirstEquals(w: string, value: string)
    requires '=' !in w
    ensures Find(w + "=" + value, "=") == |w|
  {
    hide Find;
    var s := w + "=" + value;
    assert s[|w|..|w| + 1] == "=";
    assert At(s, "=", |w|);
    forall j: nat | j < |w| ensures !At(s, "=", j) { assert s[j..j + 1] == [w[j]]; }
    FindFirst(s, "=", |w|);
  }

  lemma FindFirst(s: string, pat: string, i: nat)
    requires At(s, pat, i) && forall j: nat :: j < i ==> !At(s, pat, j)
    ensures Find(s, pat) == i
  {
    hide At;
    assert Contains(s, pat);
  }

  lemma ArgEntryOne(arg: string, key: string)
    ensures |ArgEntry(arg)| <= 1
    ensures KeyCount(ArgEntry(arg), key) == if Spells(arg, key) then 1 else 0
  {
    hide TrimSpace, Find, Reads, KeyCount;
    var es := ArgEntry(arg);
    if es != [] {
      assert es == [es[0]];
      KeyCountOne(es[0], key);
    } else {
      NothingCounted(key);
    }
  }

  lemma NothingCounted(key: string)
    ensures KeyCount([], key) == 0
  {
  }

  /** A key is written by extra arguments exactly when one of them spells it. */
  lemma {:induction false} SpelledIff(args: seq<string>, key: string)
    ensures KeyCount(ArgEntries(args), key) == 0 <==> forall i :: 0 <= i < |args| ==> !Spells(args[i], key)
  {
    hide ArgEntry, Spells, KeyCount;
    NothingCounted(key);
    if args != [] {
      var n := |args| - 1;
      SpelledIff(args[..n], key);
      ArgEntryOne(args[n], key);
      KeyCountAppend(ArgEntries(args[..n]), ArgEntry(args[n]), key);
      assert forall i :: 0 <= i < n ==> args[..n][i] == args[i];
      if forall i :: 0 <= i < n ==> !Spells(args[..n][i], key) {
        forall i | 0 <= i < n ensures !Spells(args[i], key) { assert !Spells(args[..n][i], key); }
      }
    }
  }

  lemma {:induction false} LegibleArgs(args: seq<string>)
    ensures Legible(ArgEntries(args)) <==> forall i :: 0 <= i < |args| ==> Legible(ArgEntry(args[i]))
  {
    hide ArgEntry, Legible;
    if args == [] {
      NothingIllegible();
    } else {
      var n := |args| - 1;
      LegibleArgs(args[..n]);
      LegibleAppend(ArgEntries(args[..n]), ArgEntry(args[n]));
      assert forall i :: 0 <= i < n ==> args[..n][i] == args[i];
      if forall i :: 0 <= i < n ==> Legible(ArgEntry(args[..n][i])) {
        forall i | 0 <= i < n ensures Legible(ArgEntry(args[i])) { assert Legible(ArgEntry(args[..n][i])); }
      }
    }
  }

  lemma NothingIllegible()
    ensures Legible([])
  {
  }

  lemma PlainArgsIff(args: seq<string>)
    ensures AllPlain(args) <==> Legible(ArgEntries(args)) && forall key :: JoinKey(key) ==> KeyCount(ArgEntries(args), key) == 0
  {
    hide ArgEntry, JoinKey, KeyCount, ArgEntries;
    LegibleArgs(args);
    forall key ensures KeyCount(ArgEntries(args), key) == 0 <==> forall i :: 0 <= i < |args| ==> !Spells(args[i], key) { SpelledIff(args, key); }
    hide ReadKey;
    forall i | 0 <= i < |args|
      ensures PlainArg(args[i]) <==> Legible(ArgEntry(args[i])) && forall key :: JoinKey(key) ==> !Spells(args[i], key)
    {
      ArgEntryOne(args[i], "");
    }
  }

  /** How often the renderer writes these keys on its own account. */
  function OwnKeys(cfg: ClusterConfig, node: NodeConfig, key: string): nat {
    if key == "token" || (key == "cluster-init" && Bootstraps(cfg, node)) || (key == "server" && !Bootstraps(cfg, node))
       || (key == "resolv-conf" && cfg.dns.enabled) then 1 else 0
  }

  lemma OwnCount(cfg: ClusterConfig, node: NodeConfig, key: string)
    requires JoinKey(key) || key == "resolv-conf"
    ensures KeyCount(OwnEntries(cfg, node), key) == OwnKeys(cfg, node, key)
    ensures Legible(OwnEntries(cfg, node))
  {
    hide ServerURL, Address, NetworkEntries, ServerEntries, JoinEntry, KeyCount, ReadKey, Legible, Reads, Bootstraps;
    var top := [JoinEntry(cfg, node), Scalar("token", cfg.k3sToken), Scalar("node-name", node.name)];
    KeyCountAppend(top + NetworkEntries(cfg, node), ServerEntries(cfg, node), key);
    KeyCountAppend(top, NetworkEntries(cfg, node), key);
    LegibleAppend(top + NetworkEntries(cfg, node), ServerEntries(cfg, node));
    LegibleAppend(top, NetworkEntries(cfg, node));
    TopCount(cfg, node, key);
    NetworkCount(cfg, node, key);
    ServerCount(cfg, node, key);
  }

  lemma TopCount(cfg: ClusterConfig, node: NodeConfig, key: string)
    ensures var top := [JoinEntry(cfg, node), Scalar("token", cfg.k3sToken), Scalar("node-name", node.name)];
            && Legible(top)
            && (JoinKey(key) || key == "resolv-conf" ==> KeyCount(top, key) == if key == "resolv-conf" then 0 else OwnKeys(cfg, node, key))
  {
    hide ServerURL, KeyCount, ReadKey, Bootstraps;
    var join, token, name := JoinEntry(cfg, node), Scalar("token", cfg.k3sToken), Scalar("node-name", node.name);
    JoinWords();
    KeyCountAppend([join, token], [name], key);
    KeyCountAppend([join], [token], key);
    KeyCountOne(join, key);
    KeyCountOne(token, key);
    KeyCountOne(name, key);
    assert [join, token, name] == [join, token] + [name] && [join, token] == [join] + [token];
  }

  lemma OptionalCount(cond: bool, e: Entry, key: string)
    ensures KeyCount(Optional(cond, e), key) == if cond && Reads(e, key) then 1 else 0
    ensures ReadKey(e.key).Some? ==> Legible(Optional(cond, e))
  {
    hide Reads, KeyCount, ReadKey;
    KeyCountOne(e, key);
    NothingCounted(key);
  }

  lemma NetworkCount(cfg: ClusterConfig, node: NodeConfig, key: string)
    ensures Legible(NetworkEntries(cfg, node))
    ensures JoinKey(key) || key == "resolv-conf" ==> KeyCount(NetworkEntries(cfg, node), key) == if key == "resolv-conf" && cfg.dns.enabled then 1 else 0
  {
    hide KeyCount, ReadKey, Legible, Address, Optional;
    var a, b := [Scalar("node-ip", Address(cfg, node))], Optional(node.role == "server", Scalar("advertise-address", Address(cfg, node)));
    var c, d := Optional(cfg.wireGuard.enabled, Scalar("flannel-iface", cfg.wireGuard.iface)), Optional(cfg.dns.enabled, Scalar("resolv-conf", RESOLV_CONF_PATH));
    NetworkWords();
    KeyCountAppend(a + b + c, d, key);
    KeyCountAppend(a + b, c, key);
    KeyCountAppend(a, b, key);
    LegibleAppend(a + b + c, d);
    LegibleAppend(a + b, c);
    LegibleAppend(a, b);
    KeyCountOne(a[0], key);
    LegibleOne(a[0]);
    OptionalCount(node.role == "server", Scalar("advertise-address", Address(cfg, node)), key);
    OptionalCount(cfg.wireGuard.enabled, Scalar("flannel-iface", cfg.wireGuard.iface), key);
    OptionalCount(cfg.dns.enabled, Scalar("resolv-conf", RESOLV_CONF_PATH), key);
  }

  lemma LegibleOne(e: Entry)
    ensures Legible([e]) <==> ReadKey(e.key).Some?
  {
    hide ReadKey;
    assert [e][0] == e;
  }

  lemma ServerCount(cfg: ClusterConfig, node: NodeConfig, key: string)
    ensures Legible(ServerEntries(cfg, node))
    ensures JoinKey(key) || key == "resolv-conf" ==> KeyCount(ServerEntries(cfg, node), key) == 0
  {
    hide KeyCount, ReadKey, Address;
    ServerWords();
    KeyCountZero(ServerEntries(cfg, node), key);
  }

  /** The renderer's own keys, and again every extra argument that spells one of them. */
  lemma CountRendered(cfg: ClusterConfig, node: NodeConfig, key: string)
    requires JoinKey(key) || key == "resolv-conf"
    ensures KeyCount(Rendered(cfg, node), key) == OwnKeys(cfg, node, key) + KeyCount(ArgEntries(ExtraArgs(cfg, node)), key)
    ensures Legible(Rendered(cfg, node)) <==> Legible(ArgEntries(ExtraArgs(cfg, node)))
  {
    hide ArgEntries, OwnEntries, KeyCount, OwnKeys, Legible, Rendered;
    RenderedParts(cfg, node);
    KeyCountAppend(OwnEntries(cfg, node), ArgEntries(ExtraArgs(cfg, node)), key);
    LegibleAppend(OwnEntries(cfg, node), ArgEntries(ExtraArgs(cfg, node)));
    OwnCount(cfg, node, key);
  }

  /**
   Node `k`'s config is legible and tells it exactly one way to join: to start the cluster if it is
   `b`, else one server; and one token.
   */
  predicate OneWayIn(cfg: ClusterConfig, b: string, k: string) {
    var es := Rendered(cfg, NodeOf(cfg.nodes, k));
    && Legible(es)
    && KeyCount(es, "cluster-init") == (if k == b then 1 else 0)
    && KeyCount(es, "server") == (if k == b then 0 else 1)
    && KeyCount(es, "token") == 1
  }

  lemma OneWayInIff(cfg: ClusterConfig, b: string, k: string)
    requires Bootstraps(cfg, NodeOf(cfg.nodes, k)) <==> k == b
    ensures OneWayIn(cfg, b, k) <==> PlainArgs(cfg, NodeOf(cfg.nodes, k))
  {
    hide Rendered, ArgEntries, KeyCount, PlainArg, Bootstraps, Legible;
    var node := NodeOf(cfg.nodes, k);
    CountRendered(cfg, node, "cluster-init");
    CountRendered(cfg, node, "server");
    CountRendered(cfg, node, "token");
    PlainArgsIff(ExtraArgs(cfg, node));
  }

  /** All configs are legible, and exactly node `b` asks for a new cluster. */
  predicate OnlyInit(cfg: ClusterConfig, b: string) {
    forall k :: k in cfg.nodeNames ==>
      Legible(Rendered(cfg, NodeOf(cfg.nodes, k))) && (HasKey(Rendered(cfg, NodeOf(cfg.nodes, k)), "cluster-init") <==> k == b)
  }

  /** All extra arguments have plain words for keys, and none but those of `b` spells `cluster-init`. */
  predicate NoOtherInit(cfg: ClusterConfig, b: string) {
    forall k :: k in cfg.nodeNames ==> InitArgsOk(ExtraArgs(cfg, NodeOf(cfg.nodes, k)), k == b)
  }

  predicate InitArgsOk(args: seq<string>, first: bool) {
    forall i :: 0 <= i < |args| ==> Legible(ArgEntry(args[i])) && (!first ==> !Spells(args[i], "cluster-init"))
  }

  lemma OnlyInitIff(cfg: ClusterConfig, b: string)
    requires forall k :: k in cfg.nodeNames ==> (Bootstraps(cfg, NodeOf(cfg.nodes, k)) <==> k == b)
    ensures OnlyInit(cfg, b) <==> NoOtherInit(cfg, b)
  {
    hide Rendered, ArgEntries, HasKey, Bootstraps, Legible, ArgEntry, Spells, KeyCount, InitArgsOk;
    forall k | k in cfg.nodeNames
      ensures InitArgsOk(ExtraArgs(cfg, NodeOf(cfg.nodes, k)), k == b)
              <==> Legible(Rendered(cfg, NodeOf(cfg.nodes, k))) && (HasKey(Rendered(cfg, NodeOf(cfg.nodes, k)), "cluster-init") <==> k == b)
    {
      var node := NodeOf(cfg.nodes, k);
      InitIff(cfg, node);
      CountRendered(cfg, node, "token");
      InitArgsIff(ExtraArgs(cfg, node), k == b);
    }
  }

  lemma InitArgsIff(args: seq<string>, first: bool)
    ensures InitArgsOk(args, first) <==> Legible(ArgEntries(args)) && (!first ==> !HasKey(ArgEntries(args), "cluster-init"))
  {
    hide ArgEntries, HasKey, Legible, ArgEntry, Spells, KeyCount;
    LegibleArgs(args);
    SpelledIff(args, "cluster-init");
    KeyCountZero(ArgEntries(args), "cluster-init");
  }

  // ------------------------------------------------- the resolv-conf argument

  function TrimDashes(s: string): string { if "--" <= s then s[2..] else s }

  /** The plan-time guard's view of one argument: trim, then strip the dashes. */
  predicate Guarded(arg: string) { "resolv-conf" <= TrimDashes(TrimSpace(arg)) }

  /** The argument loop of `validateDNS`. */
  method ResolvConfConflict(serverArgs: seq<string>, agentArgs: seq<string>) returns (found: bool)
    ensures found <==> exists i :: 0 <= i < |serverArgs + agentArgs| && Guarded((serverArgs + agentArgs)[i])
  {
    hide TrimSpace;
    var args := serverArgs + agentArgs;
    for i := 0 to |args|
      invariant forall j :: 0 <= j < i ==> !Guarded(args[j])
    {
      if "resolv-conf" <= TrimDashes(TrimSpace(args[i])) { return true; }
    }
    found := false;
  }

  lemma {:induction false} TrimRightPrefix(p: string, r: string)
    requires p != "" && !IsSpace(p[|p| - 1])
    ensures TrimRight(p + r) == p + TrimRight(r)
    decreases |r|
  {
    hide IsSpace;
    if r == "" {
      assert p + r == p;
    } else {
      assert (p + r)[..|p + r| - 1] == p + r[..|r| - 1];
      TrimRightPrefix(p, r[..|r| - 1]);
    }
  }

  lemma {:induction false} TrimRightIsPrefix(s: string)
    ensures TrimRight(s) <= s
  {
    if s != "" && IsSpace(s[|s| - 1]) { TrimRightIsPrefix(s[..|s| - 1]); }
  }

  lemma SpelledPrefix(arg: string, key: string)
    requires Spells(arg, key)
    ensures key <= TrimSpace(TrimDashes(arg))
  {
    hide TrimSpace, Find, PlainKey;
  }

  /**
   The renderer strips the dashes first and trims afterwards, so an argument that spells `resolv-conf`
   escapes the guard exactly when white space stands behind its dashes.
   */
  lemma GuardGapIff(arg: string)
    requires Spells(arg, "resolv-conf")
    ensures Guarded(arg) <==> !(|arg| > 2 && "--" <= arg && IsSpace(arg[2]))
  {
    hide Spells, IsSpace;
    SpelledPrefix(arg, "resolv-conf");
    DashNoSpace();
    if "--" <= arg {
      var r := arg[2..];
      assert arg == "--" + r;
      TrimRightPrefix("--", r);
      assert ("--" + TrimRight(r))[2..] == TrimRight(r);
      TrimRightIsPrefix(r);
      assert TrimSpace(arg) == "--" + TrimRight(r);
      if r != "" && IsSpace(r[0]) { StartsLikeWhole(r); }
    } else {
      assert TrimSpace(arg)[0] == "resolv-conf"[0] == 'r';
      assert TrimDashes(TrimSpace(arg)) == TrimSpace(arg);
    }
  }

  lemma DashNoSpace()
    ensures !IsSpace('-') && !IsSpace('r')
  {
  }

  /** Trimming on the right keeps a text that is not white space throughout from its first character on. */
  lemma StartsLikeWhole(r: string)
    requires r != "" && TrimRight(TrimLeft(r)) != ""
    ensures TrimRight(r) != "" && TrimRight(r)[0] == r[0]
  {
    hide IsSpace;
    SomethingStays(r);
    TrimRightIsPrefix(r);
  }

  lemma {:induction false} SomethingStays(r: string)
    requires TrimRight(TrimLeft(r)) != ""
    ensures TrimRight(r) != ""
    decreases |r|
  {
    hide IsSpace;
    if r != "" && IsSpace(r[0]) {
      SomethingStays(r[1..]);
      TrimRightTail(r);
    }
  }

  lemma {:induction false} TrimRightTail(r: string)
    requires r != "" && TrimRight(r[1..]) != ""
    ensures TrimRight(r) != ""
    decreases |r|
  {
    hide IsSpace;
    if IsSpace(r[|r| - 1]) && |r| > 1 {
      assert r[..|r| - 1][1..] == r[1..][..|r| - 2];
      TrimRightTail(r[..|r| - 1]);
    }
  }

  /**
   With a dns block and arguments that pass the guard, the config names one resolv.conf exactly when
   no extra argument spells the key behind dashes and white space.
   */
  lemma OneResolvConfIff(cfg: ClusterConfig, node: NodeConfig)
    requires cfg.dns.enabled && forall i :: 0 <= i < |ExtraArgs(cfg, node)| ==> !Guarded(ExtraArgs(cfg, node)[i])
    ensures KeyCount(Rendered(cfg, node), "resolv-conf") == 1 <==>
            forall i :: 0 <= i < |ExtraArgs(cfg, node)| ==> !HiddenResolvConf(ExtraArgs(cfg, node)[i])
  {
    hide Rendered, ArgEntries, KeyCount, Spells, Guarded, Legible;
    var args := ExtraArgs(cfg, node);
    CountRendered(cfg, node, "resolv-conf");
    SpelledIff(args, "resolv-conf");
    forall i | 0 <= i < |args| && Spells(args[i], "resolv-conf") ensures HiddenResolvConf(args[i]) { GuardGapIff(args[i]); }
  }

  predicate HiddenResolvConf(arg: string) { |arg| > 2 && "--" <= arg && IsSpace(arg[2]) && Spells(arg, "resolv-conf") }

  /** The gap is reached by any path. */
  lemma HiddenArg(path: string)
    requires NoSpace(path) && path != ""
    ensures var arg := "-- " + ("resolv-conf" + "=" + path); HiddenResolvConf(arg) && !Guarded(arg)
  {
    hide Find, IsSpace, ReadKey, TrimSpace, Guarded, ArgEntry;
    var bare := "resolv-conf" + "=" + path;
    DashedText(bare);
    DashNoSpace();
    TrimBlank(bare);
    NetworkWords();
    assert '=' !in "resolv-conf";
    EntryOf("-- " + bare, "resolv-conf", path);
    BlankIsSpace();
    GuardGapIff("-- " + bare);
  }

  lemma DashedText(s: string)
    requires s != ""
    ensures var arg := "-- " + s; |arg| > 2 && "--" <= arg && TrimDashes(arg) == " " + s && arg[2] == ' '
  {
    assert "-- " + s == "--" + (" " + s);
  }

  lemma BlankIsSpace()
    ensures IsSpace(' ')
  {
  }

  lemma TrimBlank(s: string)
    requires s != "" && !IsSpace(s[0]) && !IsSpace(s[|s| - 1])
    ensures TrimSpace(" " + s) == s
  {
    hide IsSpace;
    BlankIsSpace();
    assert TrimLeft(s) == s && TrimRight(s) == s;
    assert (" " + s)[1..] == s && (" " + s)[0] == ' ';
  }

  lemma {:induction false} FirstServerEarliest(nodes: map<string, NodeConfig>, names: seq<string>, j: nat) returns (i: nat)
    requires j < |names| && NodeOf(nodes, names[j]).role == "server"
    ensures i <= j && FirstServerOf(nodes, names) == Some(names[i])
    decreases |names|
  {
    if NodeOf(nodes, names[0]).role == "server" {
      i := 0;
    } else {
      var i' := FirstServerEarliest(nodes, names[1..], j - 1);
      i := i' + 1;
    }
  }

  /** What every node's config says about joining, given the bootstrap server `b`: over WireGuard where it is on. */
  ghost predicate JoinsThrough(cfg: ClusterConfig, b: string, k: string) {
    var es, server := Rendered(cfg, NodeOf(cfg.nodes, k)), NodeOf(cfg.nodes, b);
    && (k == b ==> es[0] == Flag("cluster-init"))
    && (k != b && cfg.wireGuard.enabled ==> es[0] == Scalar("server", "https://" + server.privateIP + ":6443"))
    && (k != b && !cfg.wireGuard.enabled ==> es[0] == Scalar("server", "https://" + server.publicIP + ":6443"))
    && es[1] == Scalar("token", cfg.k3sToken)
  }

  /** In install order every other server comes after `b`. */
  ghost predicate ServersFollow(cfg: ClusterConfig, b: string) {
    forall i, s | 0 <= i < |cfg.nodeNames| && 0 <= s < |cfg.nodeNames| ::
      cfg.nodeNames[i] == b && s != i && NodeOf(cfg.nodes, cfg.nodeNames[s]).role == "server" ==> i < s
  }

  lemma FirstServerJoins(cfg: ClusterConfig, b: string, k: string)
    requires KeyedNodes(cfg) && FirstServerOf(cfg.nodes, cfg.nodeNames) == Some(b) && k in cfg.nodeNames
    ensures JoinsThrough(cfg, b, k)
  {
    hide NetworkEntries, ServerEntries, ArgEntries;
  }

  lemma FirstServerLeads(cfg: ClusterConfig, b: string)
    requires Distinct(cfg.nodeNames) && FirstServerOf(cfg.nodes, cfg.nodeNames) == Some(b)
    ensures ServersFollow(cfg, b)
  {
    forall i, s | 0 <= i < |cfg.nodeNames| && 0 <= s < |cfg.nodeNames| && cfg.nodeNames[i] == b && s != i
                  && NodeOf(cfg.nodes, cfg.nodeNames[s]).role == "server"
      ensures i < s
    {
      var i' := FirstServerEarliest(cfg.nodes, cfg.nodeNames, s);
    }
  }

  /**
   With at least one server the first one, `b`, starts the cluster.  All others are told to join
   through it with the one token, and every other server stands behind it in install order.  Over
   the whole of every config.yaml, `b` is the only node to start a cluster exactly when no other
   node's extra arguments ask for it, and a node has one way in exactly when its extra arguments
   leave the join keys alone.
   */
  lemma SingleBootstrap(cfg: ClusterConfig, j: nat) returns (b: string)
    requires KeyedNodes(cfg) && j < |cfg.nodeNames| && NodeOf(cfg.nodes, cfg.nodeNames[j]).role == "server"
    ensures b in cfg.nodeNames && NodeOf(cfg.nodes, b).role == "server" && FirstServerOf(cfg.nodes, cfg.nodeNames) == Some(b)
    ensures forall k :: k in cfg.nodeNames ==> JoinsThrough(cfg, b, k)
    ensures OnlyInit(cfg, b) <==> NoOtherInit(cfg, b)
    ensures forall k :: k in cfg.nodeNames ==> (OneWayIn(cfg, b, k) <==> PlainArgs(cfg, NodeOf(cfg.nodes, k)))
    ensures ServersFollow(cfg, b)
  {
    hide JoinsThrough, ServersFollow, OneWayIn, PlainArgs, OnlyInit, NoOtherInit;
    b := FirstServerOf(cfg.nodes, cfg.nodeNames).value;
    FirstServerLeads(cfg, b);
    forall k | k in cfg.nodeNames ensures JoinsThrough(cfg, b, k) && (OneWayIn(cfg, b, k) <==> PlainArgs(cfg, NodeOf(cfg.nodes, k))) {
      FirstServerJoins(cfg, b, k);
      OneWayInIff(cfg, b, k);
    }
    OnlyInitIff(cfg, b);
  }

  /** A node's config shows its address, so nodes with different addresses have different configs. */
  lemma RenderedAddress(cfg: ClusterConfig, a: NodeConfig, b: NodeConfig)
    requires Rendered(cfg, a) == Rendered(cfg, b)
    ensures if cfg.wireGuard.enabled then a.privateIP == b.privateIP else a.publicIP == b.publicIP
  {
    hide ServerEntries, ArgEntries, ServerURL;
    assert Rendered(cfg, a)[3] == Scalar("node-ip", Address(cfg, a));
    assert Rendered(cfg, b)[3] == Scalar("node-ip", Address(cfg, b));
  }

  // ------------------------------------------------------ what a config settles

  /** How the node finds the cluster, given the bootstrap server `b`. */
  predicate JoinSetting(cfg: ClusterConfig, b: NodeConfig, node: NodeConfig, e: Entry) {
    || e == Scalar("token", cfg.k3sToken) || e == Scalar("node-name", node.name)
    || (node == b && e == Flag("cluster-init"))
    || (node != b && cfg.wireGuard.enabled && e == Scalar("server", "https://" + b.privateIP + ":6443"))
    || (node != b && !cfg.wireGuard.enabled && e == Scalar("server", "https://" + b.publicIP + ":6443"))
  }

  /** Under which address the node is known: inside the tunnel where there is one. */
  predicate NetworkSetting(cfg: ClusterConfig, node: NodeConfig, e: Entry) {
    || (cfg.wireGuard.enabled && e == Scalar("node-ip", node.privateIP))
    || (cfg.wireGuard.enabled && e == Scalar("flannel-iface", cfg.wireGuard.iface))
    || (cfg.wireGuard.enabled && node.role == "server" && e == Scalar("advertise-address", node.privateIP))
    || (!cfg.wireGuard.enabled && e == Scalar("node-ip", node.publicIP))
    || (!cfg.wireGuard.enabled && node.role == "server" && e == Scalar("advertise-address", node.publicIP))
    || (cfg.dns.enabled && e == Scalar("resolv-conf", "/etc/vpsk3s/resolv.conf"))
  }

  /** The names that a server's certificate covers: the address it is known under, and its hostname. */
  predicate CertificateSetting(cfg: ClusterConfig, node: NodeConfig, e: Entry) {
    && e.Items? && e.key == "tls-san" && e.items != []
    && (cfg.wireGuard.enabled ==> e.items[0] == node.privateIP) && (!cfg.wireGuard.enabled ==> e.items[0] == node.publicIP)
    && (node.hostname != "" ==> e.items[1..] == [node.hostname]) && (node.hostname == "" ==> |e.items| == 1)
  }

  /** What only servers are told. */
  predicate ServerSetting(cfg: ClusterConfig, node: NodeConfig, e: Entry) {
    node.role == "server" &&
      (|| e == Scalar("cluster-cidr", cfg.k3s.clusterCIDR) || e == Scalar("service-cidr", cfg.k3s.serviceCIDR)
       || e == Scalar("write-kubeconfig-mode", cfg.k3s.writeKubeconfigMode)
       || (cfg.k3s.disableComponents != [] && e == Items("disable", cfg.k3s.disableComponents))
       || CertificateSetting(cfg, node, e))
  }

  lemma InAppend(a: seq<Entry>, b: seq<Entry>, e: Entry)
    ensures e in a + b <==> e in a || e in b
  {
  }

  lemma NetworkSettingIff(cfg: ClusterConfig, node: NodeConfig, e: Entry)
    ensures e in NetworkEntries(cfg, node) <==> NetworkSetting(cfg, node, e)
  {
  }

  lemma CertificateIff(cfg: ClusterConfig, node: NodeConfig, e: Entry)
    ensures e == Items("tls-san", [Address(cfg, node)] + (if node.hostname != "" then [node.hostname] else [])) <==> CertificateSetting(cfg, node, e)
  {
    if CertificateSetting(cfg, node, e) { assert e.items == [e.items[0]] + e.items[1..]; }
  }

  lemma ServerSettingIff(cfg: ClusterConfig, node: NodeConfig, e: Entry)
    ensures e in ServerEntries(cfg, node) <==> ServerSetting(cfg, node, e)
  {
    hide CertificateSetting, Address;
    CertificateIff(cfg, node, e);
  }

  /**
   The whole config.yaml of a node: exactly the settings it is meant to have, and its extra arguments.
   */
  lemma RenderedIff(cfg: ClusterConfig, b: string, k: string, e: Entry)
    requires KeyedNodes(cfg) && k in cfg.nodeNames && FirstServerOf(cfg.nodes, cfg.nodeNames) == Some(b)
    ensures var node := NodeOf(cfg.nodes, k);
            e in Rendered(cfg, node) <==>
              || JoinSetting(cfg, NodeOf(cfg.nodes, b), node, e) || NetworkSetting(cfg, node, e) || ServerSetting(cfg, node, e)
              || e in ArgEntries(ExtraArgs(cfg, node))
  {
    hide NetworkEntries, ServerEntries, ArgEntries, NetworkSetting, ServerSetting, FirstServerOf;
    var node := NodeOf(cfg.nodes, k);
    var top := [JoinEntry(cfg, node), Scalar("token", cfg.k3sToken), Scalar("node-name", node.name)];
    NetworkSettingIff(cfg, node, e);
    ServerSettingIff(cfg, node, e);
    InAppend(top + NetworkEntries(cfg, node) + ServerEntries(cfg, node), ArgEntries(ExtraArgs(cfg, node)), e);
    InAppend(top + NetworkEntries(cfg, node), ServerEntries(cfg, node), e);
    InAppend(top, NetworkEntries(cfg, node), e);
  }

  // ------------------------------------------------------------ the install step

  type YAML = seq<Entry>

  /** A systemd service: stopped, or running with the config it read when it started. */
  datatype Service = Stopped | Running(config: YAML)

  /** The K3s part of a node: config.yaml, the two services, and how often one was started. */
  datatype K3sState = K3sState(file: Option<YAML>, server: Service, agent: Service, starts: nat)

  predicate IsAgent(role: string) { role == "agent" }

  function ServiceOf(s: K3sState, role: string): Service { if IsAgent(role) then s.agent else s.server }

  function WithService(s: K3sState, role: string, v: Service): K3sState {
    if IsAgent(role) then s.(agent := v) else s.(server := v)
  }

  /** Starting the role's service: it reads config.yaml. */
  function Started(s: K3sState, role: string): K3sState {
    WithService(s, role, Running(if s.file.Some? then s.file.value else [])).(starts := s.starts + 1)
  }

  /** `systemctl restart`: a restart that fails on the node leaves the service stopped. */
  function Restart(s: K3sState, role: string, net: Net, t: nat): Step<K3sState> {
    match net.step(t)
    case Done => Step(Started(s, role), t + 1, true)
    case Lost => Step(s, t + 1, false)
    case Failed => Step(WithService(s, role, Stopped), t + 1, false)
    case Unseen => Step(Started(s, role), t + 1, false)
  }

  /** The install script starts a stopped service; a running one is left alone. */
  function RunInstaller(s: K3sState, role: string, net: Net, t: nat): Step<K3sState> {
    Do(s, if ServiceOf(s, role).Running? then s else Started(s, role), net, t)
  }

  /** One call of `installK3s` with the rendered config `target`, from remote step `t` on. */
  function Install(s: K3sState, role: string, target: YAML, net: Net, t: nat): Step<K3sState> {
    var packages := Do(s, s, net, t);
    if !packages.ok then packages else
      var same := net.answers(t + 1) && s.file == Some(target);
      // a changed file is uploaded; an unchanged one only has its mode reset
      var written := Do(s, if same then s else s.(file := Some(target)), net, t + 2);
      if !written.ok then written
      else if net.answers(t + 3) && ServiceOf(written.state, role).Running? then
        if same then Step(written.state, t + 4, true) else Restart(written.state, role, net, t + 4)
      else
        var installed := RunInstaller(written.state, role, net, t + 4);
        if !installed.ok then installed else
          var wait := Do(installed.state, installed.state, net, t + 5);
          wait.(ok := wait.ok && ServiceOf(wait.state, role).Running?)
  }

  /** A running service runs what config.yaml says. */
  predicate Coherent(s: K3sState, role: string) {
    ServiceOf(s, role).Running? ==> s.file == Some(ServiceOf(s, role).config)
  }

  predicate Settled(s: K3sState, role: string, target: YAML) {
    s.file == Some(target) && ServiceOf(s, role) == Running(target)
  }

  /**
   The window: a running service's file was replaced, but no restart took hold, because the
   upload was reported as failed, or the status query was not answered, or the restart was lost.
   */
  predicate Window(s: K3sState, role: string, target: YAML, net: Net, t: nat) {
    && net.step(t) == Done
    && ServiceOf(s, role).Running? && s.file != Some(target)
    && (net.step(t + 2) == Unseen || (net.step(t + 2) == Done && (!net.answers(t + 3) || net.step(t + 4) == Lost)))
  }

  /**
   "Service active implies the running config equals config.yaml" is kept by a run exactly
   when it is not cut in the window; and a successful run outside the window ends active with
   exactly the rendered config.
   */
  lemma InstallCoherentIff(s: K3sState, role: string, target: YAML, net: Net, t: nat)
    requires Coherent(s, role)
    ensures Coherent(Install(s, role, target, net, t).state, role) <==> !Window(s, role, target, net, t)
    ensures Install(s, role, target, net, t).ok ==>
              (Settled(Install(s, role, target, net, t).state, role, target) <==> !Window(s, role, target, net, t))
  {
  }

  /** Repeating an undisturbed run after success changes nothing: in particular nothing restarts. */
  lemma InstallIdle(s: K3sState, role: string, target: YAML, net: Net, t: nat)
    requires Settled(s, role, target) && Calm(net)
    ensures Install(s, role, target, net, t) == Step(s, t + 4, true)
  {
  }

  /** The file is in place and the service is up, with whatever config it was started on. */
  predicate Written(s: K3sState, role: string, target: YAML) { s.file == Some(target) && ServiceOf(s, role).Running? }

  /** What success means in any case, and that an undisturbed run takes it for done. */
  lemma InstallWrites(s: K3sState, role: string, target: YAML, net: Net, t: nat)
    ensures Install(s, role, target, net, t).ok ==> Written(Install(s, role, target, net, t).state, role, target)
    ensures Written(s, role, target) && Calm(net) ==> Install(s, role, target, net, t) == Step(s, t + 4, true)
  {
  }

  /**
   An unanswered status query alone makes the step succeed without converging: the running service
   is taken for stopped, the install script leaves it alone, and the old config stays in force.
   */
  lemma StaleOnSuccess(s: K3sState, role: string, target: YAML, net: Net, t: nat)
    requires Coherent(s, role) && ServiceOf(s, role).Running? && s.file != Some(target)
    requires !net.answers(t + 3) && forall i: nat :: net.step(i) == Done
    ensures var run := Install(s, role, target, net, t); run.ok && ServiceOf(run.state, role) == ServiceOf(s, role) != Running(target)
  {
  }

  /** A series of runs for one role and one config, each with its own network behaviour. */
  function Runs(s: K3sState, role: string, target: YAML, nets: seq<Net>): K3sState {
    if nets == [] then s else Install(Runs(s, role, target, nets[..|nets| - 1]), role, target, nets[|nets| - 1], 0).state
  }

  /** No run of the series is cut in the window. */
  predicate AvoidsWindow(s: K3sState, role: string, target: YAML, nets: seq<Net>) {
    forall i :: 0 <= i < |nets| ==> !Window(Runs(s, role, target, nets[..i]), role, target, nets[i], 0)
  }

  /**
   After any series of failed runs that avoids the window, a successful run settles the node,
   and an undisturbed repetition restarts nothing.
   */
  lemma {:induction false} RunsSettle(s: K3sState, role: string, target: YAML, nets: seq<Net>, calm: Net)
    requires Coherent(s, role) && AvoidsWindow(s, role, target, nets) && Calm(calm)
    ensures Coherent(Runs(s, role, target, nets), role)
    ensures nets != [] && Install(Runs(s, role, target, nets[..|nets| - 1]), role, target, nets[|nets| - 1], 0).ok ==>
              Settled(Runs(s, role, target, nets), role, target)
              && Install(Runs(s, role, target, nets), role, target, calm, 0) == Step(Runs(s, role, target, nets), 4, true)
    decreases |nets|
  {
    hide Install, Window, Coherent, Settled;
    if nets != [] {
      var n := |nets| - 1;
      var front := nets[..n];
      assert forall i :: 0 <= i <= n ==> front[..i] == nets[..i];
      assert AvoidsWindow(s, role, target, front);
      RunsSettle(s, role, target, front, calm);
      InstallCoherentIff(Runs(s, role, target, front), role, target, nets[n], 0);
      if Settled(Runs(s, role, target, nets), role, target) { InstallIdle(Runs(s, role, target, nets), role, target, calm, 0); }
    }
  }

  /**
   The window is real, for every changed config: the restart is lost, the run fails, and the
   retry reports success while the service still runs the old config.
   */
  lemma StaleAfterRetry(s: K3sState, role: string, target: YAML, calm: Net)
    requires Coherent(s, role) && ServiceOf(s, role).Running? && s.file != Some(target) && Calm(calm)
    ensures var cut := Install(s, role, target, LosingStep(4), 0);
            var retry := Install(cut.state, role, target, calm, 0);
            !cut.ok && retry.ok && ServiceOf(retry.state, role) == ServiceOf(s, role) != Running(target)
  {
  }

  /** The service of the other role. */
  function OtherService(s: K3sState, role: string): Service { if IsAgent(role) then s.server else s.agent }

  /** No run of the step, whatever its fate, touches the service of the other role. */
  lemma InstallKeepsOther(s: K3sState, role: string, target: YAML, net: Net, t: nat)
    ensures OtherService(Install(s, role, target, net, t).state, role) == OtherService(s, role)
  {
  }

  /**
   A role change leaves the old role's service running with its old config, in either direction:
   the step reports success with the new role's service up and the old one as it was.
   */
  lemma RoleChangeLeavesOldService(s: K3sState, from: string, to: string, target: YAML, calm: Net)
    requires IsAgent(from) != IsAgent(to) && ServiceOf(s, from).Running? && ServiceOf(s, to).Stopped? && Calm(calm)
    ensures var run := Install(s, to, target, calm, 0);
            run.ok && ServiceOf(run.state, to) == Running(target) && ServiceOf(run.state, from) == ServiceOf(s, from)
  {
  }
}

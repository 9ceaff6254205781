/**
 The Create / Update / Delete cycle: what survives when plans, states and configurations are
 turned into one another over any number of steps.
 */
module Lifecycle {
  import opened Wrappers
  import opened Text
  import opened Addresses
  import opened Ordering
  import opened Ipam
  import opened Config
  import opened Models

  /** Fresh pairs match, and nothing drawn is empty. */
  ghost predicate Honest(supply: Supply, derive: Derive) {
    && (supply.token.Some? ==> supply.token.value != "")
    && (forall i: nat :: supply.pair(i).Some? ==>
          supply.pair(i).value.priv != "" && derive(supply.pair(i).value.priv) == Some(supply.pair(i).value.pub))
  }

  // ------------------------------------------------------------------ key runs

  /** The pair is real: a stored or fresh one derives its public half; a given key has no private half. */
  predicate GoodPair(p: KeyPair, given: string, stored: string, derive: Derive) {
    if given != "" then p == KeyPair("", given)
    else p.priv != "" && derive(p.priv) == Some(p.pub) && (stored != "" ==> p.priv == stored)
  }

  predicate GoodPairs(owners: seq<string>, given: map<string, string>, stored: map<string, string>, derive: Derive, pairs: seq<KeyPair>)
    requires |pairs| == |owners|
  {
    forall i :: 0 <= i < |owners| ==> GoodPair(pairs[i], Lookup(given, owners[i]), Lookup(stored, owners[i]), derive)
  }

  lemma {:induction false} KeysGood(owners: seq<string>, given: map<string, string>, stored: map<string, string>, supply: Supply, derive: Derive, at: nat)
    requires Honest(supply, derive) && Keys(owners, given, stored, supply, derive, at).Ok?
    ensures GoodPairs(owners, given, stored, derive, Keys(owners, given, stored, supply, derive, at).value.pairs)
    decreases |owners|
  {
    if owners != [] { KeysGood(owners[..|owners| - 1], given, stored, supply, derive, at); }
  }

  /** `stored` holds the private halves of all pairs that have one. */
  predicate StoresAll(owners: seq<string>, given: map<string, string>, stored: map<string, string>, pairs: seq<KeyPair>)
    requires |pairs| == |owners|
  {
    forall i :: 0 <= i < |owners| && Lookup(given, owners[i]) == "" ==> Lookup(stored, owners[i]) == pairs[i].priv
  }

  /** With all private keys stored, a key run draws nothing and repeats the pairs. */
  lemma {:induction false} KeysAgain(owners: seq<string>, given: map<string, string>, before: map<string, string>, after: map<string, string>,
                                     pairs: seq<KeyPair>, supply: Supply, derive: Derive, at: nat)
    requires |pairs| == |owners| && GoodPairs(owners, given, before, derive, pairs) && StoresAll(owners, given, after, pairs)
    ensures Keys(owners, given, after, supply, derive, at) == Ok(KeyRun(pairs, at))
    decreases |owners|
  {
    if owners != [] {
      var n := |owners| - 1;
      KeysAgain(owners[..n], given, before, after, pairs[..n], supply, derive, at);
      assert GoodPair(pairs[n], Lookup(given, owners[n]), Lookup(before, owners[n]), derive);
      assert pairs == pairs[..n] + [pairs[n]];
    } else {
      assert pairs == [];
    }
  }

  /** A plentiful supply and derivable stored keys never fail a key run. */
  lemma {:induction false} KeysSucceed(owners: seq<string>, given: map<string, string>, stored: map<string, string>, supply: Supply, derive: Derive, at: nat)
    requires forall i: nat :: supply.pair(i).Some?
    requires forall k :: k in stored ==> derive(stored[k]).Some?
    ensures Keys(owners, given, stored, supply, derive, at).Ok?
    decreases |owners|
  {
    if owners != [] { KeysSucceed(owners[..|owners| - 1], given, stored, supply, derive, at); }
  }

  lemma {:induction false} GeneratedAt(owners: seq<string>, given: map<string, string>, pairs: seq<KeyPair>, i: nat)
    requires |pairs| == |owners| && Distinct(owners) && i < |owners| && Lookup(given, owners[i]) == ""
    ensures owners[i] in GeneratedKeys(owners, given, pairs) && GeneratedKeys(owners, given, pairs)[owners[i]] == pairs[i].priv
    decreases |owners|
  {
    var n := |owners| - 1;
    if i < n { GeneratedAt(owners[..n], given, pairs[..n], i); }
  }

  lemma {:induction false} GeneratedOnly(owners: seq<string>, given: map<string, string>, pairs: seq<KeyPair>, k: string)
    requires |pairs| == |owners| && k in GeneratedKeys(owners, given, pairs)
    ensures exists i :: 0 <= i < |owners| && owners[i] == k && Lookup(given, k) == "" && GeneratedKeys(owners, given, pairs)[k] == pairs[i].priv
    decreases |owners|
  {
    var n := |owners| - 1;
    if owners[n] == k && Lookup(given, k) == "" {
    } else {
      GeneratedOnly(owners[..n], given, pairs[..n], k);
      var i :| 0 <= i < n && owners[..n][i] == k && GeneratedKeys(owners[..n], given, pairs[..n])[k] == pairs[..n][i].priv;
      assert owners[i] == k && GeneratedKeys(owners, given, pairs)[k] == pairs[i].priv;
    }
  }

  lemma ZipStores(owners: seq<string>, pairs: seq<KeyPair>)
    requires |pairs| == |owners| && Distinct(owners)
    ensures StoresAll(owners, map[], ZipMap(owners, Privs(pairs)), pairs)
  {
    forall i | 0 <= i < |owners| ensures Lookup(ZipMap(owners, Privs(pairs)), owners[i]) == pairs[i].priv {
      ZipMapAt(owners, Privs(pairs), i);
    }
  }

  lemma GeneratedStores(owners: seq<string>, given: map<string, string>, pairs: seq<KeyPair>)
    requires |pairs| == |owners| && Distinct(owners)
    ensures StoresAll(owners, given, GeneratedKeys(owners, given, pairs), pairs)
  {
    forall i | 0 <= i < |owners| && Lookup(given, owners[i]) == ""
      ensures Lookup(GeneratedKeys(owners, given, pairs), owners[i]) == pairs[i].priv
    {
      GeneratedAt(owners, given, pairs, i);
    }
  }

  // ---------------------------------------------------------------- key draws

  /** An owner without a given or stored key gets a fresh pair. */
  predicate IsNew(owner: string, given: map<string, string>, stored: map<string, string>) { Lookup(given, owner) == "" && Lookup(stored, owner) == "" }

  /** How many of the owners are new. */
  function Draws(owners: seq<string>, given: map<string, string>, stored: map<string, string>): nat {
    if owners == [] then 0 else
      Draws(owners[..|owners| - 1], given, stored) + (if IsNew(owners[|owners| - 1], given, stored) then 1 else 0)
  }

  /** The pair of a new owner is the draw of its own number. */
  predicate DrawnPair(owners: seq<string>, given: map<string, string>, stored: map<string, string>, supply: Supply, at: nat, i: nat, p: KeyPair)
    requires i < |owners|
  {
    IsNew(owners[i], given, stored) ==> supply.pair(at + Draws(owners[..i], given, stored)) == Some(p)
  }

  predicate DrawnPairs(owners: seq<string>, given: map<string, string>, stored: map<string, string>, supply: Supply, at: nat, pairs: seq<KeyPair>)
    requires |pairs| == |owners|
  {
    forall i :: 0 <= i < |owners| ==> DrawnPair(owners, given, stored, supply, at, i, pairs[i])
  }

  lemma DrawnPairsSnoc(owners: seq<string>, given: map<string, string>, stored: map<string, string>, supply: Supply, at: nat, pairs: seq<KeyPair>)
    requires owners != [] && |pairs| == |owners|
    requires DrawnPairs(owners[..|owners| - 1], given, stored, supply, at, pairs[..|owners| - 1])
    requires DrawnPair(owners, given, stored, supply, at, |owners| - 1, pairs[|owners| - 1])
    ensures DrawnPairs(owners, given, stored, supply, at, pairs)
  {
    hide IsNew, Draws;
    var n := |owners| - 1;
    forall i | 0 <= i < n ensures DrawnPair(owners, given, stored, supply, at, i, pairs[i]) {
      assert DrawnPair(owners[..n], given, stored, supply, at, i, pairs[..n][i]);
      assert owners[..n][..i] == owners[..i];
    }
  }

  /** Every new owner, and nobody else, uses up a draw of its own. */
  lemma {:induction false} KeysDraw(owners: seq<string>, given: map<string, string>, stored: map<string, string>, supply: Supply, derive: Derive, at: nat)
    requires Keys(owners, given, stored, supply, derive, at).Ok?
    ensures var run := Keys(owners, given, stored, supply, derive, at).value;
            run.next == at + Draws(owners, given, stored) && DrawnPairs(owners, given, stored, supply, at, run.pairs)
    decreases |owners|
  {
    hide DrawnPairs, Keys, KeyFor, IsNew;
    if owners != [] {
      var n := |owners| - 1;
      var front, k := KeysSplit(owners, given, stored, supply, derive, at);
      KeysDraw(owners[..n], given, stored, supply, derive, at);
      var run := Keys(owners, given, stored, supply, derive, at).value;
      assert run.pairs[..n] == front.pairs;
      FreshKey(owners[n], given, stored, supply, derive, front.next);
      DrawnPairsSnoc(owners, given, stored, supply, at, run.pairs);
    } else {
      NoneDrawn(given, stored, supply, at);
      KeysNone(given, stored, supply, derive, at);
    }
  }

  lemma KeysNone(given: map<string, string>, stored: map<string, string>, supply: Supply, derive: Derive, at: nat)
    ensures Keys([], given, stored, supply, derive, at) == Ok(KeyRun([], at))
  {
  }

  /** The last owner's part of a key run. */
  lemma KeysSplit(owners: seq<string>, given: map<string, string>, stored: map<string, string>, supply: Supply, derive: Derive, at: nat)
    returns (front: KeyRun, k: (KeyPair, nat))
    requires owners != [] && Keys(owners, given, stored, supply, derive, at).Ok?
    ensures var n := |owners| - 1;
            && Keys(owners[..n], given, stored, supply, derive, at) == Ok(front)
            && KeyFor(owners[n], Lookup(given, owners[n]), Lookup(stored, owners[n]), supply, derive, front.next) == Ok(k)
            && Keys(owners, given, stored, supply, derive, at) == Ok(KeyRun(front.pairs + [k.0], k.1))
  {
    hide KeyFor;
    var n := |owners| - 1;
    front := Keys(owners[..n], given, stored, supply, derive, at).value;
    k := KeyFor(owners[n], Lookup(given, owners[n]), Lookup(stored, owners[n]), supply, derive, front.next).value;
  }

  /** One owner uses up one draw if it is new, and none otherwise. */
  lemma FreshKey(owner: string, given: map<string, string>, stored: map<string, string>, supply: Supply, derive: Derive, at: nat)
    ensures var k := KeyFor(owner, Lookup(given, owner), Lookup(stored, owner), supply, derive, at);
            k.Ok? ==> k.value.1 == (if IsNew(owner, given, stored) then at + 1 else at) && (IsNew(owner, given, stored) ==> supply.pair(at) == Some(k.value.0))
  {
  }

  lemma NoneDrawn(given: map<string, string>, stored: map<string, string>, supply: Supply, at: nat)
    ensures DrawnPairs([], given, stored, supply, at, [])
  {
  }

  lemma {:induction false} DrawsGrow(owners: seq<string>, given: map<string, string>, stored: map<string, string>, i: nat, j: nat)
    requires i < j <= |owners|
    ensures Draws(owners[..i], given, stored) + (if IsNew(owners[i], given, stored) then 1 else 0) <= Draws(owners[..j], given, stored)
    decreases j
  {
    assert owners[..j][..j - 1] == owners[..j - 1];
    if i < j - 1 { DrawsGrow(owners, given, stored, i, j - 1); }
  }

  predicate LegacyIsNew(base: ClusterConfig) { base.adminPeer.enabled && base.adminWGPriv == "" }

  /** The draws of a whole expansion: nodes first, then the legacy peer, then the admin peers. */
  ghost predicate Drawn(s: Secrets, base: ClusterConfig, stored: map<string, string>, storedAdmin: map<string, string>, supply: Supply) {
    var given := GivenKeys(base.adminPeers);
    var forNodes := Draws(base.nodeNames, map[], stored);
    var forLegacy := if LegacyIsNew(base) then 1 else 0;
    && |s.nodePairs| == |base.nodeNames| && |s.adminPairs| == |base.adminPeerNames|
    && DrawnPairs(base.nodeNames, map[], stored, supply, 0, s.nodePairs)
    && (LegacyIsNew(base) ==> supply.pair(forNodes) == Some(s.legacy))
    && DrawnPairs(base.adminPeerNames, given, storedAdmin, supply, forNodes + forLegacy, s.adminPairs)
  }

  // --------------------------------------------------------- the shape of a result

  /** The key pairs behind a configuration. */
  datatype Secrets = Secrets(nodePairs: seq<KeyPair>, legacy: KeyPair, adminPairs: seq<KeyPair>, ips: Assignments)

  ghost predicate Explains(s: Secrets, base: ClusterConfig, stored: map<string, string>, storedAdmin: map<string, string>, derive: Derive, lib: NetLib) {
    && AssignFor(base, lib) == Ok(s.ips)
    && |s.nodePairs| == |base.nodeNames| && |s.adminPairs| == |base.adminPeerNames|
    && GoodPairs(base.nodeNames, map[], stored, derive, s.nodePairs)
    && GoodPairs(base.adminPeerNames, GivenKeys(base.adminPeers), storedAdmin, derive, s.adminPairs)
    && (base.adminPeer.enabled && base.adminWGPriv == "" ==> s.legacy.priv != "" && derive(s.legacy.priv) == Some(s.legacy.pub))
    && (!(base.adminPeer.enabled && base.adminWGPriv == "") ==> s.legacy == KeyPair(base.adminWGPriv, base.adminWGPub))
  }

  /** A successful filling comes from good pairs and a successful allocation. */
  lemma FillInShape(base: ClusterConfig, stored: map<string, string>, storedAdmin: map<string, string>, supply: Supply, derive: Derive, lib: NetLib)
    returns (s: Secrets)
    requires Honest(supply, derive) && FillIn(base, stored, storedAdmin, supply, derive, lib).Ok?
    ensures Explains(s, base, stored, storedAdmin, derive, lib) && Drawn(s, base, stored, storedAdmin, supply)
    ensures FillIn(base, stored, storedAdmin, supply, derive, lib) == Ok(Filled(base, s.ips, s.nodePairs, s.legacy, s.adminPairs))
  {
    hide Keys, Filled, AssignFor, GoodPairs, Draws, DrawnPairs;
    var ips := AssignFor(base, lib).value;
    var nodeRun := Keys(base.nodeNames, map[], stored, supply, derive, 0).value;
    var legacy := LegacyPair(base, supply, nodeRun.next).value;
    var adminRun := Keys(base.adminPeerNames, GivenKeys(base.adminPeers), storedAdmin, supply, derive, legacy.1).value;
    KeysGood(base.nodeNames, map[], stored, supply, derive, 0);
    KeysGood(base.adminPeerNames, GivenKeys(base.adminPeers), storedAdmin, supply, derive, legacy.1);
    KeysDraw(base.nodeNames, map[], stored, supply, derive, 0);
    KeysDraw(base.adminPeerNames, GivenKeys(base.adminPeers), storedAdmin, supply, derive, legacy.1);
    s := Secrets(nodeRun.pairs, legacy.0, adminRun.pairs, ips);
  }

  /** With the results of an earlier filling stored, filling again gives the same pairs, whatever the supply. */
  lemma FillInAgain(base: ClusterConfig, again: ClusterConfig, s: Secrets, stored: map<string, string>, storedAdmin: map<string, string>,
                    supply: Supply, derive: Derive, lib: NetLib)
    requires Explains(s, base, stored, storedAdmin, derive, lib) && AssignFor(again, lib) == Ok(s.ips)
    requires again.nodeNames == base.nodeNames && again.adminPeerNames == base.adminPeerNames && again.adminPeers == base.adminPeers
    requires again.adminPeer == base.adminPeer && again.adminWGPriv == s.legacy.priv && again.adminWGPub == s.legacy.pub
    requires Distinct(base.nodeNames) && Distinct(base.adminPeerNames)
    ensures FillIn(again, ZipMap(base.nodeNames, Privs(s.nodePairs)),
                   GeneratedKeys(base.adminPeerNames, GivenKeys(base.adminPeers), s.adminPairs), supply, derive, lib)
            == Ok(Filled(again, s.ips, s.nodePairs, s.legacy, s.adminPairs))
  {
    hide Keys, Filled, AssignFor, GoodPairs, StoresAll, ZipMap, GeneratedKeys;
    var given := GivenKeys(base.adminPeers);
    ZipStores(base.nodeNames, s.nodePairs);
    GeneratedStores(base.adminPeerNames, given, s.adminPairs);
    KeysAgain(base.nodeNames, map[], stored, ZipMap(base.nodeNames, Privs(s.nodePairs)), s.nodePairs, supply, derive, 0);
    KeysAgain(base.adminPeerNames, given, storedAdmin, GeneratedKeys(base.adminPeerNames, given, s.adminPairs), s.adminPairs, supply, derive, 0);
  }

  ghost predicate DistinctNodes(plan: ClusterModel) { Distinct(Identities(plan.nodes)) }

  // ------------------------------------------------------------- applying twice

  lemma TokenKept(plan: ClusterModel, prior: ClusterModel, supply: Supply, derive: Derive)
    requires Honest(supply, derive) && TokenOf(plan, prior, supply).Some?
    ensures TokenOf(plan, prior, supply).value != ""
    ensures plan.k3s.token != "" ==> TokenOf(plan, prior, supply).value == plan.k3s.token
  {
  }

  /**
   Expanding the same plan against the state of its own application gives the same
   configuration, whatever the random source yields the second time.
   */
  lemma ApplyTwice(plan: ClusterModel, prior: ClusterModel, provider: SSHConfig, first: Supply, second: Supply, derive: Derive, lib: NetLib, out: Outputs)
    requires DistinctNodes(plan) && Honest(first, derive)
    requires Expand(plan, prior, provider, first, derive, lib).Ok?
    ensures var cfg := Expand(plan, prior, provider, first, derive, lib).value;
            Expand(plan, ToState(cfg, plan, out), provider, second, derive, lib) == Ok(cfg)
  {
    hide Identities, NodeConfigs, ZipMap, SortStrings, AdminPeerMap, FillIn, AssignFor, GeneratedKeys, FilledNodes, FilledPeers, NodeStates, Explains, PlanNodes;
    var cfg := Expand(plan, prior, provider, first, derive, lib).value;
    var state := ToState(cfg, plan, out);
    TokenKept(plan, prior, first, derive);
    var token := TokenOf(plan, prior, first).value;
    var base := BaseConfig(plan, prior, provider, token);
    var again := BaseConfig(plan, state, provider, token);
    SortDistinct(Identities(plan.nodes));
    if base.wireGuard.enabled {
      var stored, storedAdmin := OrDefault(prior.wireGuardPrivateKeys, map[]), OrDefault(prior.adminPrivateKeys, map[]);
      var s := FillInShape(base, stored, storedAdmin, first, derive, lib);
      assert again == base.(adminWGPriv := s.legacy.priv, adminWGPub := s.legacy.pub);
      SameAssignment(base, again, lib);
      assert AssignFor(base, lib) == Ok(s.ips) by { ExplainsAssignment(s, base, stored, storedAdmin, derive, lib); }
      FillInAgain(base, again, s, stored, storedAdmin, second, derive, lib);
    }
  }

  lemma ExplainsAssignment(s: Secrets, base: ClusterConfig, stored: map<string, string>, storedAdmin: map<string, string>, derive: Derive, lib: NetLib)
    requires Explains(s, base, stored, storedAdmin, derive, lib)
    ensures AssignFor(base, lib) == Ok(s.ips)
  {
  }

  lemma SameAssignment(a: ClusterConfig, b: ClusterConfig, lib: NetLib)
    requires a.wireGuard == b.wireGuard && a.nodeNames == b.nodeNames && a.adminPeer == b.adminPeer
    requires a.adminPeers == b.adminPeers && a.adminPeerNames == b.adminPeerNames
    ensures AssignFor(a, lib) == AssignFor(b, lib)
  {
  }

  // ------------------------------------------------------------------ filled nodes

  lemma {:induction false} FilledNodesOther(nodes: map<string, NodeConfig>, names: seq<string>, ips: map<string, string>, pairs: seq<KeyPair>, k: string)
    requires |pairs| == |names| && k !in names
    ensures NodeOf(FilledNodes(nodes, names, ips, pairs), k) == NodeOf(nodes, k)
    decreases |names|
  {
    hide NodeAt;
    if names != [] {
      var n := |names| - 1;
      assert names[n] in names;
      FilledNodesOther(nodes, names[..n], ips, pairs[..n], k);
    }
  }

  lemma {:induction false} FilledNodesAt(nodes: map<string, NodeConfig>, names: seq<string>, ips: map<string, string>, pairs: seq<KeyPair>, i: nat)
    requires |pairs| == |names| && Distinct(names) && i < |names|
    ensures NodeOf(FilledNodes(nodes, names, ips, pairs), names[i]) == NodeAt(NodeOf(nodes, names[i]), Lookup(ips, names[i]), pairs[i])
    decreases |names|
  {
    hide NodeAt;
    var n := |names| - 1;
    if i < n {
      FilledNodesAt(nodes, names[..n], ips, pairs[..n], i);
    } else {
      FilledNodesOther(nodes, names[..n], ips, pairs[..n], names[n]);
    }
  }

  lemma {:induction false} FilledPeersOther(peers: map<string, AdminPeerConfig>, names: seq<string>, ips: map<string, string>, pairs: seq<KeyPair>, k: string)
    requires |pairs| == |names| && k !in names
    ensures PeerOf(FilledPeers(peers, names, ips, pairs), k) == PeerOf(peers, k)
    decreases |names|
  {
    hide PeerAt;
    if names != [] {
      var n := |names| - 1;
      assert names[n] in names;
      FilledPeersOther(peers, names[..n], ips, pairs[..n], k);
    }
  }

  lemma {:induction false} FilledPeersAt(peers: map<string, AdminPeerConfig>, names: seq<string>, ips: map<string, string>, pairs: seq<KeyPair>, i: nat)
    requires |pairs| == |names| && Distinct(names) && i < |names|
    ensures PeerOf(FilledPeers(peers, names, ips, pairs), names[i]) == PeerAt(PeerOf(peers, names[i]), Lookup(ips, names[i]), pairs[i])
    decreases |names|
  {
    hide PeerAt;
    var n := |names| - 1;
    if i < n {
      FilledPeersAt(peers, names[..n], ips, pairs[..n], i);
    } else {
      FilledPeersOther(peers, names[..n], ips, pairs[..n], names[n]);
    }
  }

  /** A plan node's entry in the table, under its identity. */
  lemma BaseNodeAt(plan: ClusterModel, provider: SSHConfig, i: nat)
    requires DistinctNodes(plan) && i < |plan.nodes|
    ensures NodeOf(ZipMap(Identities(plan.nodes), NodeConfigs(plan.nodes, provider)), NodeIdentity(plan.nodes[i], i))
            == NodeConfigOf(plan.nodes[i], i, provider)
    ensures ModelOf(PlanNodes(plan), NodeIdentity(plan.nodes[i], i)) == plan.nodes[i]
  {
    hide NodeIdentity, NodeConfigOf;
    ZipMapAt(Identities(plan.nodes), NodeConfigs(plan.nodes, provider), i);
    ZipMapAt(Identities(plan.nodes), plan.nodes, i);
    assert Identities(plan.nodes)[i] in Identities(plan.nodes);
  }

  // -------------------------------------------------------------------- delete

  /** Every node can be told apart without its position: it has a hostname or a public IP. */
  predicate Addressed(plan: ClusterModel) {
    forall i :: 0 <= i < |plan.nodes| ==>
      OrDefault(plan.nodes[i].hostname, "") != "" || OrDefault(plan.nodes[i].publicIP, "") != ""
  }

  /** The same node apart from its display name, which depends on the position in the plan. */
  predicate SameNode(a: NodeConfig, b: NodeConfig) { a == b.(name := a.name) }

  predicate SameNodes(a: map<string, NodeConfig>, b: map<string, NodeConfig>, names: seq<string>) {
    forall k :: k in names ==> SameNode(NodeOf(a, k), NodeOf(b, k))
  }

  /** The table of an unfilled config: every name's entry is that of some plan node. */
  lemma NameOrigin(plan: ClusterModel, k: string) returns (i: nat)
    requires k in SortStrings(Identities(plan.nodes))
    ensures i < |plan.nodes| && NodeIdentity(plan.nodes[i], i) == k
  {
    SameElements(Identities(plan.nodes), k);
    var j :| 0 <= j < |Identities(plan.nodes)| && Identities(plan.nodes)[j] == k;
    i := j;
  }

  /** The state's nodes keep their identity, in sorted order. */
  lemma StateIdentity(cfg: ClusterConfig, plan: ClusterModel, provider: SSHConfig, statuses: map<string, string>, j: nat)
    requires DistinctNodes(plan) && Addressed(plan) && cfg.nodeNames == SortStrings(Identities(plan.nodes)) && j < |cfg.nodeNames|
    requires NodeOf(cfg.nodes, cfg.nodeNames[j]).publicIP == NodeOf(ZipMap(Identities(plan.nodes), NodeConfigs(plan.nodes, provider)), cfg.nodeNames[j]).publicIP
    requires NodeOf(cfg.nodes, cfg.nodeNames[j]).role == NodeOf(ZipMap(Identities(plan.nodes), NodeConfigs(plan.nodes, provider)), cfg.nodeNames[j]).role
    ensures var n := NodeStates(cfg, PlanNodes(plan), cfg.nodeNames, statuses)[j];
            && NodeIdentity(n, j) == cfg.nodeNames[j]
            && SameNode(NodeConfigOf(n, j, provider), NodeOf(ZipMap(Identities(plan.nodes), NodeConfigs(plan.nodes, provider)), cfg.nodeNames[j]))
  {
    hide Decimal, ZipMap, Identities, NodeConfigs, PlanNodes, SortStrings;
    var i := NameOrigin(plan, cfg.nodeNames[j]);
    BaseNodeAt(plan, provider, i);
  }

  lemma SortedStays(names: seq<string>, ids: seq<string>)
    requires names == SortStrings(ids)
    ensures SortStrings(names) == names
  {
    SortedUnique(SortStrings(names), names);
  }

  /** A configuration that keeps the plan's addresses and roles. */
  predicate KeepsTable(cfg: ClusterConfig, base: ClusterConfig) {
    && cfg.nodeNames == base.nodeNames
    && forall k :: k in base.nodeNames ==>
         NodeOf(cfg.nodes, k).publicIP == NodeOf(base.nodes, k).publicIP && NodeOf(cfg.nodes, k).role == NodeOf(base.nodes, k).role
  }

  /** Reading the stored nodes back gives the same names and, up to display names, the same table. */
  lemma StateTable(cfg: ClusterConfig, plan: ClusterModel, prior: ClusterModel, provider: SSHConfig, token: string, out: Outputs)
    requires DistinctNodes(plan) && Addressed(plan) && KeepsTable(cfg, BaseConfig(plan, prior, provider, token))
    ensures var base, state := BaseConfig(plan, prior, provider, token), ToState(cfg, plan, out);
            var again := BaseConfig(state, state, provider, token);
            && Identities(state.nodes) == base.nodeNames && again.nodeNames == base.nodeNames
            && SameNodes(again.nodes, base.nodes, base.nodeNames)
  {
    hide ZipMap, NodeConfigs, SortStrings, PlanNodes, SameNode, NodeConfigOf, NodeIdentity, AdminPeerMap;
    var base, state := BaseConfig(plan, prior, provider, token), ToState(cfg, plan, out);
    var names := base.nodeNames;
    SortDistinct(Identities(plan.nodes));
    forall j | 0 <= j < |names|
      ensures NodeIdentity(state.nodes[j], j) == names[j]
              && SameNode(NodeConfigOf(state.nodes[j], j, provider), NodeOf(base.nodes, names[j]))
    {
      assert names[j] in base.nodeNames;
      StateIdentity(cfg, plan, provider, out.statuses, j);
    }
    assert Identities(state.nodes) == names;
    SortedStays(names, Identities(plan.nodes));
    forall k | k in names ensures SameNode(NodeOf(ZipMap(Identities(state.nodes), NodeConfigs(state.nodes, provider)), k), NodeOf(base.nodes, k)) {
      var j :| 0 <= j < |names| && names[j] == k;
      BaseNodeAt(state, provider, j);
    }
  }

  lemma FilledKeeps(base: ClusterConfig, s: Secrets)
    requires |s.nodePairs| == |base.nodeNames| && |s.adminPairs| == |base.adminPeerNames| && Distinct(base.nodeNames)
    ensures KeepsTable(Filled(base, s.ips, s.nodePairs, s.legacy, s.adminPairs), base)
  {
    hide FilledPeers, GeneratedKeys, ZipMap;
    forall k | k in base.nodeNames
      ensures var n := NodeOf(FilledNodes(base.nodes, base.nodeNames, s.ips.nodeIPs, s.nodePairs), k);
              n.publicIP == NodeOf(base.nodes, k).publicIP && n.role == NodeOf(base.nodes, k).role
    {
      var i :| 0 <= i < |base.nodeNames| && base.nodeNames[i] == k;
      FilledNodesAt(base.nodes, base.nodeNames, s.ips.nodeIPs, s.nodePairs, i);
    }
  }

  /** Filling two tables that agree up to display names with the same pairs keeps the agreement. */
  lemma FilledSame(a: map<string, NodeConfig>, b: map<string, NodeConfig>, names: seq<string>, ips: map<string, string>, pairs: seq<KeyPair>)
    requires |pairs| == |names| && Distinct(names) && SameNodes(a, b, names)
    ensures SameNodes(FilledNodes(a, names, ips, pairs), FilledNodes(b, names, ips, pairs), names)
  {
    forall k | k in names ensures SameNode(NodeOf(FilledNodes(a, names, ips, pairs), k), NodeOf(FilledNodes(b, names, ips, pairs), k)) {
      var i :| 0 <= i < |names| && names[i] == k;
      FilledNodesAt(a, names, ips, pairs, i);
      FilledNodesAt(b, names, ips, pairs, i);
    }
  }

  /**
   Delete expands the state against itself.  It reaches the very nodes that were applied: the
   same identities in the same order, with the same addresses, roles, keys and SSH settings, and
   every other part of the configuration is the same; only position-dependent display names may differ.
   */
  lemma DeleteReachesTheSameNodes(plan: ClusterModel, prior: ClusterModel, provider: SSHConfig, first: Supply, second: Supply, derive: Derive, lib: NetLib, out: Outputs)
    requires DistinctNodes(plan) && Addressed(plan) && Honest(first, derive)
    requires Expand(plan, prior, provider, first, derive, lib).Ok?
    ensures var cfg := Expand(plan, prior, provider, first, derive, lib).value;
            var state := ToState(cfg, plan, out);
            var del := Expand(state, state, provider, second, derive, lib);
            del.Ok? && del.value == cfg.(nodes := del.value.nodes) && SameNodes(del.value.nodes, cfg.nodes, cfg.nodeNames)
  {
    hide Identities, NodeConfigs, ZipMap, SortStrings, AdminPeerMap, FillIn, AssignFor, GeneratedKeys, FilledNodes, FilledPeers,
      NodeStates, Explains, PlanNodes, KeepsTable, SameNodes, Addressed;
    var cfg := Expand(plan, prior, provider, first, derive, lib).value;
    var state := ToState(cfg, plan, out);
    TokenKept(plan, prior, first, derive);
    var token := TokenOf(plan, prior, first).value;
    var base, again := BaseConfig(plan, prior, provider, token), BaseConfig(state, state, provider, token);
    SortDistinct(Identities(plan.nodes));
    if base.wireGuard.enabled {
      var stored, storedAdmin := OrDefault(prior.wireGuardPrivateKeys, map[]), OrDefault(prior.adminPrivateKeys, map[]);
      var s := FillInShape(base, stored, storedAdmin, first, derive, lib);
      assert |s.nodePairs| == |base.nodeNames| && |s.adminPairs| == |base.adminPeerNames| by { ExplainsLengths(s, base, stored, storedAdmin, derive, lib); }
      FilledKeeps(base, s);
      StateTable(cfg, plan, prior, provider, token, out);
      assert again == base.(nodes := again.nodes, adminWGPriv := s.legacy.priv, adminWGPub := s.legacy.pub,
                            name := again.name);
      SameAssignment(base, again, lib);
      ExplainsAssignment(s, base, stored, storedAdmin, derive, lib);
      FillInAgain(base, again, s, stored, storedAdmin, second, derive, lib);
      FilledSame(again.nodes, base.nodes, base.nodeNames, s.ips.nodeIPs, s.nodePairs);
    } else {
      KeepsItself(base);
      StateTable(cfg, plan, prior, provider, token, out);
    }
  }

  lemma KeepsItself(base: ClusterConfig)
    ensures KeepsTable(base, base)
  {
  }

  lemma ExplainsLengths(s: Secrets, base: ClusterConfig, stored: map<string, string>, storedAdmin: map<string, string>, derive: Derive, lib: NetLib)
    requires Explains(s, base, stored, storedAdmin, derive, lib)
    ensures |s.nodePairs| == |base.nodeNames| && |s.adminPairs| == |base.adminPeerNames|
  {
  }
}

/**
 Whole runs of the resource: any sequence of create, update and destroy steps, with plans,
 random draws and apply outcomes chosen freely.
 */
module StateRuns {
  import opened Wrappers
  import opened Text
  import opened Addresses
  import opened Ordering
  import opened Config
  import opened Models
  import opened Lifecycle
  import opened Validators

  const NO_STATE := ClusterModel(
    Null, Null, [], Null, K3sConfig("", "", "", [], "", [], [], ""), FirewallConfig(false, "", [], [], false, false, false, [], []),
    DNSConfig(false, [], []), Null, Null, Null, Null, Null, Null, Null, Null, Null, Null, Null, Null)

  /** One step: applying a plan, whose remote run succeeds or not, or destroying the resource. */
  datatype Action =
    | Apply(plan: ClusterModel, provider: SSHConfig, supply: Supply, out: Outputs, applied: bool)
    | Destroy

  function PriorOf(st: Option<ClusterModel>): ClusterModel { if st.Some? then st.value else NO_STATE }

  /** What the step would work from. */
  ghost function Expanded(st: Option<ClusterModel>, a: Action, derive: Derive, lib: NetLib): Result<ClusterConfig, ExpandError>
    requires a.Apply?
  {
    Expand(a.plan, PriorOf(st), a.provider, a.supply, derive, lib)
  }

  /** The step replaces the state. */
  ghost predicate Succeeds(st: Option<ClusterModel>, a: Action, derive: Derive, lib: NetLib) {
    a.Apply? && Expanded(st, a, derive, lib).Ok? && ConfigOk(Expanded(st, a, derive, lib).value) && a.applied
  }

  /**
   Create without a state, Update with one, Delete on destroy.  A step that fails in expansion,
   validation or apply leaves the state alone; in particular a failed create stores nothing.
   */
  ghost function Next(st: Option<ClusterModel>, a: Action, derive: Derive, lib: NetLib): Option<ClusterModel> {
    if a.Destroy? then None
    else if Succeeds(st, a, derive, lib) then Some(ToState(Expanded(st, a, derive, lib).value, a.plan, a.out))
    else st
  }

  ghost function Run(st: Option<ClusterModel>, actions: seq<Action>, derive: Derive, lib: NetLib): Option<ClusterModel> {
    if actions == [] then st else
      Next(Run(st, actions[..|actions| - 1], derive, lib), actions[|actions| - 1], derive, lib)
  }

  /** Steps have honest draws and plans whose nodes have distinct identities of their own. */
  ghost predicate Fair(a: Action, derive: Derive) {
    a.Apply? ==> Honest(a.supply, derive) && DistinctNodes(a.plan) && Addressed(a.plan)
  }

  ghost predicate AllFair(actions: seq<Action>, derive: Derive) { forall i :: 0 <= i < |actions| ==> Fair(actions[i], derive) }

  // ------------------------------------------------------------ stored secrets

  /** Every stored private key is one. */
  predicate GoodKeys(keys: map<string, string>, derive: Derive) {
    forall k :: k in keys ==> keys[k] != "" && derive(keys[k]).Some?
  }

  /** The public keys that the state shows for its nodes belong to the stored private keys. */
  predicate NodesMatch(s: ClusterModel, derive: Derive) {
    forall i :: 0 <= i < |s.nodes| && s.nodes[i].wireGuardPublicKey.Known? ==>
      derive(Lookup(OrDefault(s.wireGuardPrivateKeys, map[]), NodeIdentity(s.nodes[i], i))) == Some(s.nodes[i].wireGuardPublicKey.value)
  }

  /** Every stored admin private key derives the public key stored under the same name. */
  predicate AdminsMatch(s: ClusterModel, derive: Derive) {
    var privs, pubs := OrDefault(s.adminPrivateKeys, map[]), OrDefault(s.adminPublicKeys, map[]);
    forall k :: k in privs ==> k in pubs && derive(privs[k]) == Some(pubs[k])
  }

  /** The legacy admin pair, stored as two separate values, is a pair. */
  predicate LegacyMatches(s: ClusterModel, derive: Derive) {
    OrDefault(s.adminPrivate, "") != "" ==> derive(OrDefault(s.adminPrivate, "")) == Some(OrDefault(s.adminPublic, ""))
  }

  ghost predicate Coherent(s: ClusterModel, derive: Derive) {
    && OrDefault(s.k3sToken, "") != ""
    && GoodKeys(OrDefault(s.wireGuardPrivateKeys, map[]), derive)
    && GoodKeys(OrDefault(s.adminPrivateKeys, map[]), derive)
    && NodesMatch(s, derive)
    && AdminsMatch(s, derive) && LegacyMatches(s, derive)
  }

  lemma ZipGood(owners: seq<string>, stored: map<string, string>, derive: Derive, pairs: seq<KeyPair>)
    requires |pairs| == |owners| && Distinct(owners) && GoodPairs(owners, map[], stored, derive, pairs)
    ensures GoodKeys(ZipMap(owners, Privs(pairs)), derive)
  {
    var m := ZipMap(owners, Privs(pairs));
    forall k | k in m ensures m[k] != "" && derive(m[k]).Some? {
      var i :| 0 <= i < |owners| && owners[i] == k;
      ZipMapAt(owners, Privs(pairs), i);
      assert GoodPair(pairs[i], Lookup(map[], owners[i]), Lookup(stored, owners[i]), derive);
    }
  }

  lemma GeneratedGood(owners: seq<string>, given: map<string, string>, stored: map<string, string>, derive: Derive, pairs: seq<KeyPair>)
    requires |pairs| == |owners| && Distinct(owners) && GoodPairs(owners, given, stored, derive, pairs)
    ensures GoodKeys(GeneratedKeys(owners, given, pairs), derive)
    ensures var privs, pubs := GeneratedKeys(owners, given, pairs), ZipMap(owners, Pubs(pairs));
            forall k :: k in privs ==> k in pubs && derive(privs[k]) == Some(pubs[k])
  {
    hide GeneratedKeys;
    var privs, pubs := GeneratedKeys(owners, given, pairs), ZipMap(owners, Pubs(pairs));
    forall k | k in privs ensures privs[k] != "" && k in pubs && derive(privs[k]) == Some(pubs[k]) {
      GeneratedOnly(owners, given, pairs, k);
      var i :| 0 <= i < |owners| && owners[i] == k && Lookup(given, k) == "" && privs[k] == pairs[i].priv;
      assert GoodPair(pairs[i], Lookup(given, owners[i]), Lookup(stored, owners[i]), derive);
      ZipMapAt(owners, Pubs(pairs), i);
    }
  }

  /** What a filled configuration writes to the state. */
  lemma FilledStateGood(base: ClusterConfig, s: Secrets, stored: map<string, string>, storedAdmin: map<string, string>, plan: ClusterModel, out: Outputs, derive: Derive, lib: NetLib)
    requires Explains(s, base, stored, storedAdmin, derive, lib) && Distinct(base.nodeNames) && Distinct(base.adminPeerNames)
    requires Identities(ToState(Filled(base, s.ips, s.nodePairs, s.legacy, s.adminPairs), plan, out).nodes) == base.nodeNames
    ensures var state := ToState(Filled(base, s.ips, s.nodePairs, s.legacy, s.adminPairs), plan, out);
            && GoodKeys(OrDefault(state.wireGuardPrivateKeys, map[]), derive)
            && GoodKeys(OrDefault(state.adminPrivateKeys, map[]), derive)
            && AdminsMatch(state, derive) && NodesMatch(state, derive)
  {
    hide GeneratedKeys, FilledNodes, FilledPeers, ZipMap, PlanNodes, GoodKeys, GoodPairs, NodeIdentity;
    ZipGood(base.nodeNames, stored, derive, s.nodePairs);
    GeneratedGood(base.adminPeerNames, GivenKeys(base.adminPeers), storedAdmin, derive, s.adminPairs);
    var cfg := Filled(base, s.ips, s.nodePairs, s.legacy, s.adminPairs);
    var state := ToState(cfg, plan, out);
    forall i | 0 <= i < |state.nodes| && state.nodes[i].wireGuardPublicKey.Known?
      ensures derive(Lookup(cfg.wgPrivateKeys, NodeIdentity(state.nodes[i], i))) == Some(state.nodes[i].wireGuardPublicKey.value)
    {
      assert Identities(state.nodes)[i] == NodeIdentity(state.nodes[i], i);
      FilledNodesAt(base.nodes, base.nodeNames, s.ips.nodeIPs, s.nodePairs, i);
      ZipStores(base.nodeNames, s.nodePairs);
      PairOf(base.nodeNames, map[], stored, derive, s.nodePairs, i);
    }
  }

  lemma PairOf(owners: seq<string>, given: map<string, string>, stored: map<string, string>, derive: Derive, pairs: seq<KeyPair>, i: nat)
    requires |pairs| == |owners| && GoodPairs(owners, given, stored, derive, pairs) && i < |owners|
    ensures GoodPair(pairs[i], Lookup(given, owners[i]), Lookup(stored, owners[i]), derive)
  {
  }

  /** A base configuration has distinct names and, before filling, no addresses or keys. */
  lemma BaseFacts(plan: ClusterModel, prior: ClusterModel, provider: SSHConfig, token: string)
    requires DistinctNodes(plan)
    ensures var base := BaseConfig(plan, prior, provider, token);
            && Distinct(base.nodeNames) && Distinct(base.adminPeerNames)
            && forall k :: NodeOf(base.nodes, k).wireGuardPublicKey == ""
  {
    var base := BaseConfig(plan, prior, provider, token);
    SortDistinct(Identities(plan.nodes));
    forall k ensures NodeOf(base.nodes, k).wireGuardPublicKey == "" {
      if k in base.nodes {
        var ids := Identities(plan.nodes);
        var i :| 0 <= i < |ids| && ids[i] == k;
        ZipMapAt(ids, NodeConfigs(plan.nodes, provider), i);
      }
    }
  }

  /** The state of a filled configuration lists its nodes under the same identities. */
  lemma FilledNames(plan: ClusterModel, prior: ClusterModel, provider: SSHConfig, token: string, s: Secrets, stored: map<string, string>,
                    storedAdmin: map<string, string>, out: Outputs, derive: Derive, lib: NetLib)
    requires DistinctNodes(plan) && Addressed(plan)
    requires Explains(s, BaseConfig(plan, prior, provider, token), stored, storedAdmin, derive, lib)
    ensures var base := BaseConfig(plan, prior, provider, token);
            Identities(ToState(Filled(base, s.ips, s.nodePairs, s.legacy, s.adminPairs), plan, out).nodes) == base.nodeNames
  {
    hide Explains, ToState, Filled, Identities, Addressed, KeepsTable;
    var base := BaseConfig(plan, prior, provider, token);
    BaseFacts(plan, prior, provider, token);
    ExplainsLengths(s, base, stored, storedAdmin, derive, lib);
    FilledKeeps(base, s);
    StateTable(Filled(base, s.ips, s.nodePairs, s.legacy, s.adminPairs), plan, prior, provider, token, out);
  }

  lemma LegacyGood(s: Secrets, base: ClusterConfig, stored: map<string, string>, storedAdmin: map<string, string>, derive: Derive, lib: NetLib)
    requires Explains(s, base, stored, storedAdmin, derive, lib)
    requires base.adminWGPriv != "" ==> derive(base.adminWGPriv) == Some(base.adminWGPub)
    ensures s.legacy.priv != "" ==> derive(s.legacy.priv) == Some(s.legacy.pub)
  {
  }

  lemma PlainStateGood(base: ClusterConfig, plan: ClusterModel, out: Outputs, derive: Derive)
    requires base.wgPrivateKeys == map[] && base.adminWGPrivateKeys == map[] && base.adminWGPublicKeys == map[]
    requires forall k :: NodeOf(base.nodes, k).wireGuardPublicKey == ""
    ensures var state := ToState(base, plan, out);
            && GoodKeys(OrDefault(state.wireGuardPrivateKeys, map[]), derive)
            && GoodKeys(OrDefault(state.adminPrivateKeys, map[]), derive)
            && AdminsMatch(state, derive) && NodesMatch(state, derive)
  {
    hide NodeIdentity;
  }

  lemma FilledCoherent(plan: ClusterModel, prior: ClusterModel, provider: SSHConfig, token: string, s: Secrets, stored: map<string, string>,
                       storedAdmin: map<string, string>, out: Outputs, derive: Derive, lib: NetLib)
    requires DistinctNodes(plan) && Addressed(plan) && token != "" && LegacyMatches(prior, derive)
    requires Explains(s, BaseConfig(plan, prior, provider, token), stored, storedAdmin, derive, lib)
    ensures |s.nodePairs| == |BaseConfig(plan, prior, provider, token).nodeNames|
            && |s.adminPairs| == |BaseConfig(plan, prior, provider, token).adminPeerNames|
    ensures Coherent(ToState(Filled(BaseConfig(plan, prior, provider, token), s.ips, s.nodePairs, s.legacy, s.adminPairs), plan, out), derive)
  {
    hide Identities, NodeConfigs, ZipMap, SortStrings, AdminPeerMap, GeneratedKeys, FilledNodes, FilledPeers,
      Explains, PlanNodes, GoodKeys, NodesMatch, AdminsMatch, DistinctNodes, Addressed, NodeStates;
    var base := BaseConfig(plan, prior, provider, token);
    BaseFacts(plan, prior, provider, token);
    ExplainsLengths(s, base, stored, storedAdmin, derive, lib);
    FilledNames(plan, prior, provider, token, s, stored, storedAdmin, out, derive, lib);
    FilledStateGood(base, s, stored, storedAdmin, plan, out, derive, lib);
    LegacyGood(s, base, stored, storedAdmin, derive, lib);
  }

  /** One successful step leaves coherent secrets behind, if it found coherent ones or none. */
  lemma StepCoherent(st: Option<ClusterModel>, a: Action, derive: Derive, lib: NetLib)
    requires Fair(a, derive) && (st.Some? ==> Coherent(st.value, derive))
    ensures Next(st, a, derive, lib).Some? ==> Coherent(Next(st, a, derive, lib).value, derive)
  {
    if Succeeds(st, a, derive, lib) {
      hide Identities, NodeConfigs, ZipMap, SortStrings, AdminPeerMap, FillIn, Filled, Explains, PlanNodes, GoodKeys, NodesMatch,
        AdminsMatch, DistinctNodes, Addressed, NodeStates;
      var prior := PriorOf(st);
      var token := TokenOf(a.plan, prior, a.supply).value;
      TokenKept(a.plan, prior, a.supply, derive);
      var base := BaseConfig(a.plan, prior, a.provider, token);
      if base.wireGuard.enabled {
        var stored, storedAdmin := OrDefault(prior.wireGuardPrivateKeys, map[]), OrDefault(prior.adminPrivateKeys, map[]);
        var s := FillInShape(base, stored, storedAdmin, a.supply, derive, lib);
        FilledCoherent(a.plan, prior, a.provider, token, s, stored, storedAdmin, a.out, derive, lib);
      } else {
        BaseFacts(a.plan, prior, a.provider, token);
        PlainStateGood(base, a.plan, a.out, derive);
      }
    }
  }

  /** In every state that any sequence of steps can reach, all secrets match. */
  lemma {:induction false} RunCoherent(st: Option<ClusterModel>, actions: seq<Action>, derive: Derive, lib: NetLib)
    requires AllFair(actions, derive) && (st.Some? ==> Coherent(st.value, derive))
    ensures Run(st, actions, derive, lib).Some? ==> Coherent(Run(st, actions, derive, lib).value, derive)
    decreases |actions|
  {
    hide Coherent, Next, Fair;
    if actions != [] {
      var n := |actions| - 1;
      RunCoherent(st, actions[..n], derive, lib);
      StepCoherent(Run(st, actions[..n], derive, lib), actions[n], derive, lib);
    }
  }

  // ------------------------------------------------------------------ stability

  /** The step keeps node `id` in the plan with WireGuard on. */
  ghost predicate Keeps(a: Action, id: string) {
    a.Apply? && ExpandWireGuard(a.plan.wireGuard).enabled && id in Identities(a.plan.nodes)
  }

  /** The stored private key of a node. */
  function StoredKey(st: Option<ClusterModel>, id: string): string {
    if st.Some? then Lookup(OrDefault(st.value.wireGuardPrivateKeys, map[]), id) else ""
  }

  /** A successful expansion with WireGuard on is a filled base configuration. */
  lemma ExpandShape(plan: ClusterModel, prior: ClusterModel, provider: SSHConfig, supply: Supply, derive: Derive, lib: NetLib)
    returns (base: ClusterConfig, s: Secrets)
    requires Honest(supply, derive) && DistinctNodes(plan) && ExpandWireGuard(plan.wireGuard).enabled
    requires Expand(plan, prior, provider, supply, derive, lib).Ok?
    ensures base.nodeNames == SortStrings(Identities(plan.nodes)) && Distinct(base.nodeNames)
    ensures base.adminPeers == AdminPeerMap(plan.adminPeers) && base.adminPeerNames == SortedKeys(base.adminPeers.Keys) && Distinct(base.adminPeerNames)
    ensures base.wireGuard == ExpandWireGuard(plan.wireGuard) && base.adminPeer == ExpandAdminPeer(plan.adminPeer) && base.adminWGPriv == OrDefault(prior.adminPrivate, "") && base.adminWGPub == OrDefault(prior.adminPublic, "")
    ensures var stored, storedAdmin := OrDefault(prior.wireGuardPrivateKeys, map[]), OrDefault(prior.adminPrivateKeys, map[]);
            Explains(s, base, stored, storedAdmin, derive, lib) && Drawn(s, base, stored, storedAdmin, supply)
    ensures |s.nodePairs| == |base.nodeNames| && |s.adminPairs| == |base.adminPeerNames|
    ensures Expand(plan, prior, provider, supply, derive, lib) == Ok(Filled(base, s.ips, s.nodePairs, s.legacy, s.adminPairs))
  {
    hide Identities, NodeConfigs, ZipMap, SortStrings, AdminPeerMap, FillIn, Filled, Explains, Drawn, DistinctNodes, Honest;
    var stored, storedAdmin := OrDefault(prior.wireGuardPrivateKeys, map[]), OrDefault(prior.adminPrivateKeys, map[]);
    base := BaseConfig(plan, prior, provider, TokenOf(plan, prior, supply).value);
    BaseFacts(plan, prior, provider, base.k3sToken);
    s := FillInShape(base, stored, storedAdmin, supply, derive, lib);
    ExplainsLengths(s, base, stored, storedAdmin, derive, lib);
  }

  lemma StepKeepsKey(st: Option<ClusterModel>, a: Action, derive: Derive, lib: NetLib, id: string)
    requires Fair(a, derive) && Keeps(a, id) && StoredKey(st, id) != ""
    ensures StoredKey(Next(st, a, derive, lib), id) == StoredKey(st, id)
  {
    hide Expand, SortStrings, Filled, Explains, NodeStates, PlanNodes, Identities, DistinctNodes, Addressed, Honest, ExpandWireGuard;
    if Succeeds(st, a, derive, lib) {
      var prior := PriorOf(st);
      var stored, storedAdmin := OrDefault(prior.wireGuardPrivateKeys, map[]), OrDefault(prior.adminPrivateKeys, map[]);
      var base, s := ExpandShape(a.plan, prior, a.provider, a.supply, derive, lib);
      SameElements(Identities(a.plan.nodes), id);
      FilledKey(base, s, stored, storedAdmin, derive, lib, id);
    }
  }

  /** A filled configuration stores the key that was stored before. */
  lemma FilledKey(base: ClusterConfig, s: Secrets, stored: map<string, string>, storedAdmin: map<string, string>, derive: Derive, lib: NetLib, id: string)
    requires Explains(s, base, stored, storedAdmin, derive, lib) && Distinct(base.nodeNames) && id in base.nodeNames && Lookup(stored, id) != ""
    ensures Lookup(Filled(base, s.ips, s.nodePairs, s.legacy, s.adminPairs).wgPrivateKeys, id) == Lookup(stored, id)
  {
    hide AssignFor, GeneratedKeys, FilledNodes, FilledPeers, GoodPairs, ZipMap;
    var i :| 0 <= i < |base.nodeNames| && base.nodeNames[i] == id;
    PairOf(base.nodeNames, map[], stored, derive, s.nodePairs, i);
    ZipStores(base.nodeNames, s.nodePairs);
  }

  /**
   A node identity that stays in the plan with WireGuard on keeps its private key over any
   number of updates, successful or not, whatever else changes.
   */
  lemma {:induction false} KeyIsStable(st: Option<ClusterModel>, actions: seq<Action>, derive: Derive, lib: NetLib, id: string)
    requires AllFair(actions, derive) && StoredKey(st, id) != ""
    requires forall i :: 0 <= i < |actions| ==> Keeps(actions[i], id)
    ensures StoredKey(Run(st, actions, derive, lib), id) == StoredKey(st, id)
    decreases |actions|
  {
    hide StoredKey, Next, Fair, Keeps;
    if actions != [] {
      var n := |actions| - 1;
      KeyIsStable(st, actions[..n], derive, lib, id);
      StepKeepsKey(Run(st, actions[..n], derive, lib), actions[n], derive, lib, id);
    }
  }

  /** The step keeps admin peer `name` in the plan, with WireGuard on and no public key of its own. */
  predicate KeepsPeer(a: Action, name: string) {
    && a.Apply? && ExpandWireGuard(a.plan.wireGuard).enabled
    && name in AdminPeerMap(a.plan.adminPeers) && AdminPeerMap(a.plan.adminPeers)[name].publicKey == ""
  }

  function StoredAdminKey(st: Option<ClusterModel>, name: string): string {
    if st.Some? then Lookup(OrDefault(st.value.adminPrivateKeys, map[]), name) else ""
  }

  lemma StepKeepsAdminKey(st: Option<ClusterModel>, a: Action, derive: Derive, lib: NetLib, name: string)
    requires Fair(a, derive) && KeepsPeer(a, name) && StoredAdminKey(st, name) != ""
    ensures StoredAdminKey(Next(st, a, derive, lib), name) == StoredAdminKey(st, name)
  {
    hide Expand, SortStrings, Filled, Explains, NodeStates, PlanNodes, Identities, DistinctNodes, Addressed, Honest, ExpandWireGuard, AdminPeerMap;
    if Succeeds(st, a, derive, lib) {
      var prior := PriorOf(st);
      var stored, storedAdmin := OrDefault(prior.wireGuardPrivateKeys, map[]), OrDefault(prior.adminPrivateKeys, map[]);
      var base, s := ExpandShape(a.plan, prior, a.provider, a.supply, derive, lib);
      FilledAdminKey(base, s, stored, storedAdmin, derive, lib, name);
    }
  }

  lemma FilledAdminKey(base: ClusterConfig, s: Secrets, stored: map<string, string>, storedAdmin: map<string, string>, derive: Derive, lib: NetLib, name: string)
    requires Explains(s, base, stored, storedAdmin, derive, lib) && base.adminPeerNames == SortedKeys(base.adminPeers.Keys)
    requires name in base.adminPeers && base.adminPeers[name].publicKey == "" && Lookup(storedAdmin, name) != ""
    ensures Lookup(Filled(base, s.ips, s.nodePairs, s.legacy, s.adminPairs).adminWGPrivateKeys, name) == Lookup(storedAdmin, name)
  {
    hide AssignFor, GeneratedKeys, FilledNodes, FilledPeers, GoodPairs, ZipMap;
    var given, names := GivenKeys(base.adminPeers), base.adminPeerNames;
    assert name in names;
    var i :| 0 <= i < |names| && names[i] == name;
    PairOf(names, given, storedAdmin, derive, s.adminPairs, i);
    GeneratedStores(names, given, s.adminPairs);
  }

  /** A generated admin key is kept over any updates that keep the peer without a public key of its own. */
  lemma {:induction false} AdminKeyIsStable(st: Option<ClusterModel>, actions: seq<Action>, derive: Derive, lib: NetLib, name: string)
    requires AllFair(actions, derive) && StoredAdminKey(st, name) != ""
    requires forall i :: 0 <= i < |actions| ==> KeepsPeer(actions[i], name)
    ensures StoredAdminKey(Run(st, actions, derive, lib), name) == StoredAdminKey(st, name)
    decreases |actions|
  {
    hide StoredAdminKey, Next, Fair, KeepsPeer;
    if actions != [] {
      var n := |actions| - 1;
      AdminKeyIsStable(st, actions[..n], derive, lib, name);
      StepKeepsAdminKey(Run(st, actions[..n], derive, lib), actions[n], derive, lib, name);
    }
  }

  function StoredLegacy(st: Option<ClusterModel>): string { if st.Some? then OrDefault(st.value.adminPrivate, "") else "" }

  lemma StepKeepsLegacy(st: Option<ClusterModel>, a: Action, derive: Derive, lib: NetLib)
    requires a.Apply? && StoredLegacy(st) != ""
    ensures StoredLegacy(Next(st, a, derive, lib)) == StoredLegacy(st)
  {
    hide Identities, NodeConfigs, ZipMap, SortStrings, AdminPeerMap, AssignFor, FilledNodes, FilledPeers, GeneratedKeys, Keys, NodeStates, PlanNodes;
  }

  /** The legacy admin key, once generated, is kept over any updates, whether or not they use it. */
  lemma {:induction false} LegacyKeyIsStable(st: Option<ClusterModel>, actions: seq<Action>, derive: Derive, lib: NetLib)
    requires StoredLegacy(st) != "" && forall i :: 0 <= i < |actions| ==> actions[i].Apply?
    ensures StoredLegacy(Run(st, actions, derive, lib)) == StoredLegacy(st)
    decreases |actions|
  {
    hide StoredLegacy, Next;
    if actions != [] {
      var n := |actions| - 1;
      LegacyKeyIsStable(st, actions[..n], derive, lib);
      StepKeepsLegacy(Run(st, actions[..n], derive, lib), actions[n], derive, lib);
    }
  }

  function StoredToken(st: Option<ClusterModel>): string { if st.Some? then OrDefault(st.value.k3sToken, "") else "" }

  /** The token the plan configures, or the empty text. */
  function Configured(a: Action): string
    requires a.Apply?
  {
    a.plan.k3s.token
  }

  lemma StepToken(st: Option<ClusterModel>, a: Action, derive: Derive, lib: NetLib)
    requires a.Apply? && Fair(a, derive) && StoredToken(st) != ""
    ensures StoredToken(Next(st, a, derive, lib)) ==
            if Succeeds(st, a, derive, lib) && Configured(a) != "" then Configured(a) else StoredToken(st)
  {
    if Succeeds(st, a, derive, lib) {
      hide Identities, NodeConfigs, ZipMap, SortStrings, AdminPeerMap, AssignFor, Filled, NodeStates, PlanNodes, Keys;
      TokenOfFilled(a.plan, PriorOf(st), a.provider, a.supply, derive, lib);
    }
  }

  /** Filling in addresses and keys does not touch the token. */
  lemma TokenOfFilled(plan: ClusterModel, prior: ClusterModel, provider: SSHConfig, supply: Supply, derive: Derive, lib: NetLib)
    requires Expand(plan, prior, provider, supply, derive, lib).Ok?
    ensures TokenOf(plan, prior, supply) == Some(Expand(plan, prior, provider, supply, derive, lib).value.k3sToken)
  {
    hide Identities, NodeConfigs, ZipMap, SortStrings, AdminPeerMap, AssignFor, FilledNodes, FilledPeers, GeneratedKeys, Keys;
  }

  /** `k3sTokenRotates`: the condition of the plan-time warning. */
  predicate TokenRotates(configured: string, prior: string) { configured != "" && prior != "" && configured != prior }

  /** The warning is given exactly when applying would hand running nodes a token other than the stored one. */
  lemma RotationWarningIff(plan: ClusterModel, prior: ClusterModel, provider: SSHConfig, supply: Supply, derive: Derive, lib: NetLib)
    requires Expand(plan, prior, provider, supply, derive, lib).Ok?
    ensures var stored := OrDefault(prior.k3sToken, "");
            TokenRotates(plan.k3s.token, stored)
            <==> stored != "" && Expand(plan, prior, provider, supply, derive, lib).value.k3sToken != stored
  {
    hide Expand;
    TokenOfFilled(plan, prior, provider, supply, derive, lib);
  }

  /** The token that the last successful step with a configured token asked for, or the old one. */
  ghost function LastToken(st: Option<ClusterModel>, actions: seq<Action>, derive: Derive, lib: NetLib): string
    requires forall i :: 0 <= i < |actions| ==> actions[i].Apply?
  {
    if actions == [] then StoredToken(st) else
      var n := |actions| - 1;
      if Succeeds(Run(st, actions[..n], derive, lib), actions[n], derive, lib) && Configured(actions[n]) != ""
      then Configured(actions[n]) else LastToken(st, actions[..n], derive, lib)
  }

  /** The token changes only when a different one is configured and applied. */
  lemma {:induction false} TokenIsStable(st: Option<ClusterModel>, actions: seq<Action>, derive: Derive, lib: NetLib)
    requires AllFair(actions, derive) && StoredToken(st) != "" && forall i :: 0 <= i < |actions| ==> actions[i].Apply?
    ensures StoredToken(Run(st, actions, derive, lib)) == LastToken(st, actions, derive, lib) != ""
    decreases |actions|
  {
    hide StoredToken, Next, Fair, Succeeds;
    if actions != [] {
      var n := |actions| - 1;
      TokenIsStable(st, actions[..n], derive, lib);
      StepToken(Run(st, actions[..n], derive, lib), actions[n], derive, lib);
    }
  }

  // --------------------------------------------------- acceptance is enough

  /**
   From a coherent state (or none), an accepted plan always expands when randomness is available:
   neither addressing nor a stored key can fail during apply.
   */
  lemma AcceptedPlanExpands(st: Option<ClusterModel>, a: Action, derive: Derive, lib: NetLib)
    requires a.Apply? && Accepts(a.plan, lib) && (st.Some? ==> Coherent(st.value, derive))
    requires a.supply.token.Some? && forall i: nat :: a.supply.pair(i).Some?
    ensures Expanded(st, a, derive, lib).Ok?
  {
    hide Identities, NodeConfigs, ZipMap, SortStrings, AdminPeerMap, AssignFor, Filled, Keys, Accepts, NodesMatch, AdminsMatch, LegacyMatches;
    var prior := PriorOf(st);
    var token := TokenOf(a.plan, prior, a.supply).value;
    var base := BaseConfig(a.plan, prior, a.provider, token);
    AcceptedPlanAllocates(a.plan, prior, a.provider, token, lib);
    var stored, storedAdmin := OrDefault(prior.wireGuardPrivateKeys, map[]), OrDefault(prior.adminPrivateKeys, map[]);
    KeysSucceed(base.nodeNames, map[], stored, a.supply, derive, 0);
    if base.wireGuard.enabled {
      var nodeRun := Keys(base.nodeNames, map[], stored, a.supply, derive, 0).value;
      var legacy := LegacyPair(base, a.supply, nodeRun.next).value;
      KeysSucceed(base.adminPeerNames, GivenKeys(base.adminPeers), storedAdmin, a.supply, derive, legacy.1);
    }
  }
}

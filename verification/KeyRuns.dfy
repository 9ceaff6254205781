/**
 Where private keys come from, over one expansion and over whole runs: every new owner uses up a
 random draw of its own, so no two owners ever share a key.
 */
module KeyRuns {
  import opened Wrappers
  import opened Text
  import opened Ordering
  import opened Addresses
  import opened Config
  import opened Models
  import opened Lifecycle
  import opened StateRuns

  /** Whoever can hold a private key that the provider generates. */
  datatype Owner = OfNode(name: string) | LegacyPeer | OfPeer(name: string)

  const NO_PAIR := KeyPair("", "")

  /** The private key that the state holds for an owner, or the empty text. */
  function StoredFor(prior: ClusterModel, o: Owner): string {
    match o
    case OfNode(k) => Lookup(OrDefault(prior.wireGuardPrivateKeys, map[]), k)
    case LegacyPeer => OrDefault(prior.adminPrivate, "")
    case OfPeer(p) => Lookup(OrDefault(prior.adminPrivateKeys, map[]), p)
  }

  /** The pair that a configuration holds for an owner. */
  function KeyIn(cfg: ClusterConfig, o: Owner): KeyPair {
    match o
    case OfNode(k) => if k in cfg.nodeNames then KeyPair(NodeOf(cfg.nodes, k).wireGuardPrivateKey, NodeOf(cfg.nodes, k).wireGuardPublicKey) else NO_PAIR
    case LegacyPeer => KeyPair(cfg.adminWGPriv, cfg.adminWGPub)
    case OfPeer(p) => if p in cfg.adminPeerNames then KeyPair(PeerOf(cfg.adminPeers, p).privateKey, PeerOf(cfg.adminPeers, p).publicKey) else NO_PAIR
  }

  /** All private keys of the configuration have public keys of their own, and so differ themselves. */
  ghost predicate AllApart(cfg: ClusterConfig) {
    forall o, o' :: o != o' && KeyIn(cfg, o).priv != "" && KeyIn(cfg, o').priv != "" ==>
      KeyIn(cfg, o).priv != KeyIn(cfg, o').priv && KeyIn(cfg, o).pub != KeyIn(cfg, o').pub
  }

  /** The stored private keys belong to different public keys. */
  ghost predicate StoredApart(prior: ClusterModel, derive: Derive) {
    forall o, o' :: o != o' && StoredFor(prior, o) != "" && StoredFor(prior, o') != "" ==> derive(StoredFor(prior, o)) != derive(StoredFor(prior, o'))
  }

  /** No draw repeats another. */
  ghost predicate Varied(supply: Supply) {
    forall i: nat, j: nat :: i < j && supply.pair(i).Some? && supply.pair(j).Some? ==> supply.pair(i).value.pub != supply.pair(j).value.pub
  }

  /** No draw repeats a stored key. */
  ghost predicate NewTo(supply: Supply, prior: ClusterModel, derive: Derive) {
    forall i: nat, o :: supply.pair(i).Some? && StoredFor(prior, o) != "" ==> derive(StoredFor(prior, o)) != Some(supply.pair(i).value.pub)
  }

  // ----------------------------------------------------------- one expansion

  ghost function Position(names: seq<string>, k: string): (i: nat)
    requires k in names
    ensures i < |names| && names[i] == k
  {
    var i :| 0 <= i < |names| && names[i] == k; i
  }

  ghost function SecretOf(base: ClusterConfig, s: Secrets, o: Owner): KeyPair
    requires |s.nodePairs| == |base.nodeNames| && |s.adminPairs| == |base.adminPeerNames|
  {
    match o
    case OfNode(k) => if k in base.nodeNames then s.nodePairs[Position(base.nodeNames, k)] else NO_PAIR
    case LegacyPeer => s.legacy
    case OfPeer(p) => if p in base.adminPeerNames then s.adminPairs[Position(base.adminPeerNames, p)] else NO_PAIR
  }

  lemma FilledKeys(base: ClusterConfig, s: Secrets, o: Owner)
    requires |s.nodePairs| == |base.nodeNames| && |s.adminPairs| == |base.adminPeerNames|
    requires Distinct(base.nodeNames) && Distinct(base.adminPeerNames)
    ensures KeyIn(Filled(base, s.ips, s.nodePairs, s.legacy, s.adminPairs), o) == SecretOf(base, s, o)
  {
    hide FilledNodes, FilledPeers, GeneratedKeys, ZipMap;
    match o
    case OfNode(k) =>
      if k in base.nodeNames { FilledNodesAt(base.nodes, base.nodeNames, s.ips.nodeIPs, s.nodePairs, Position(base.nodeNames, k)); }
    case LegacyPeer =>
    case OfPeer(p) =>
      if p in base.adminPeerNames { FilledPeersAt(base.adminPeers, base.adminPeerNames, s.ips.adminIPs, s.adminPairs, Position(base.adminPeerNames, p)); }
  }

  /** The number of the draw that a new owner uses up. */
  ghost function DrawFor(base: ClusterConfig, stored: map<string, string>, storedAdmin: map<string, string>, o: Owner): nat {
    var forNodes := Draws(base.nodeNames, map[], stored);
    match o
    case OfNode(k) => if k in base.nodeNames then Draws(base.nodeNames[..Position(base.nodeNames, k)], map[], stored) else 0
    case LegacyPeer => forNodes
    case OfPeer(p) =>
      if p in base.adminPeerNames then
        forNodes + (if LegacyIsNew(base) then 1 else 0) + Draws(base.adminPeerNames[..Position(base.adminPeerNames, p)], GivenKeys(base.adminPeers), storedAdmin)
      else 0
  }

  /** The owner is given a fresh pair. */
  ghost predicate NewOwner(base: ClusterConfig, stored: map<string, string>, storedAdmin: map<string, string>, o: Owner) {
    match o
    case OfNode(k) => k in base.nodeNames && IsNew(k, map[], stored)
    case LegacyPeer => LegacyIsNew(base)
    case OfPeer(p) => p in base.adminPeerNames && IsNew(p, GivenKeys(base.adminPeers), storedAdmin)
  }

  /** Different positions of a list of owners use different draws, all below the list's total. */
  lemma PositionsApart(owners: seq<string>, given: map<string, string>, stored: map<string, string>, i: nat, j: nat)
    requires i < |owners| && j < |owners| && IsNew(owners[i], given, stored) && IsNew(owners[j], given, stored)
    ensures Draws(owners[..i], given, stored) < Draws(owners, given, stored)
    ensures i != j ==> Draws(owners[..i], given, stored) != Draws(owners[..j], given, stored)
  {
    hide Draws;
    assert owners[..|owners|] == owners;
    DrawsGrow(owners, given, stored, i, |owners|);
    if i < j { DrawsGrow(owners, given, stored, i, j); }
    if j < i { DrawsGrow(owners, given, stored, j, i); }
  }

  /** No draw is used twice. */
  lemma DrawsApart(base: ClusterConfig, stored: map<string, string>, storedAdmin: map<string, string>, o: Owner, o': Owner)
    requires o != o' && NewOwner(base, stored, storedAdmin, o) && NewOwner(base, stored, storedAdmin, o')
    ensures DrawFor(base, stored, storedAdmin, o) != DrawFor(base, stored, storedAdmin, o')
  {
    hide Draws, IsNew;
    var given := GivenKeys(base.adminPeers);
    if o.OfNode? {
      var i := Position(base.nodeNames, o.name);
      PositionsApart(base.nodeNames, map[], stored, i, if o'.OfNode? then Position(base.nodeNames, o'.name) else i);
    }
    if o'.OfNode? {
      var i := Position(base.nodeNames, o'.name);
      PositionsApart(base.nodeNames, map[], stored, i, i);
    }
    if o.OfPeer? && o'.OfPeer? {
      PositionsApart(base.adminPeerNames, given, storedAdmin, Position(base.adminPeerNames, o.name), Position(base.adminPeerNames, o'.name));
    }
  }

  /** Every private key of a configuration is a draw of its own or the stored one. */
  lemma SecretOrigin(base: ClusterConfig, s: Secrets, stored: map<string, string>, storedAdmin: map<string, string>, prior: ClusterModel, supply: Supply, derive: Derive, lib: NetLib, o: Owner)
    requires Explains(s, base, stored, storedAdmin, derive, lib) && Drawn(s, base, stored, storedAdmin, supply)
    requires stored == OrDefault(prior.wireGuardPrivateKeys, map[]) && storedAdmin == OrDefault(prior.adminPrivateKeys, map[])
    requires base.adminWGPriv == OrDefault(prior.adminPrivate, "") && (base.adminWGPriv != "" ==> derive(base.adminWGPriv) == Some(base.adminWGPub))
    requires SecretOf(base, s, o).priv != ""
    ensures derive(SecretOf(base, s, o).priv) == Some(SecretOf(base, s, o).pub)
    ensures if StoredFor(prior, o) == "" then NewOwner(base, stored, storedAdmin, o) && supply.pair(DrawFor(base, stored, storedAdmin, o)) == Some(SecretOf(base, s, o))
            else SecretOf(base, s, o).priv == StoredFor(prior, o)
  {
    hide AssignFor, Draws, GoodPairs, DrawnPairs;
    match o
    case OfNode(k) =>
      var i := Position(base.nodeNames, k);
      PairOf(base.nodeNames, map[], stored, derive, s.nodePairs, i);
      DrawnAt(base.nodeNames, map[], stored, supply, 0, s.nodePairs, i);
    case LegacyPeer =>
    case OfPeer(p) =>
      var i, given := Position(base.adminPeerNames, p), GivenKeys(base.adminPeers);
      PairOf(base.adminPeerNames, given, storedAdmin, derive, s.adminPairs, i);
      DrawnAt(base.adminPeerNames, given, storedAdmin, supply,
              Draws(base.nodeNames, map[], stored) + (if LegacyIsNew(base) then 1 else 0), s.adminPairs, i);
  }

  lemma DrawnAt(owners: seq<string>, given: map<string, string>, stored: map<string, string>, supply: Supply, at: nat, pairs: seq<KeyPair>, i: nat)
    requires |pairs| == |owners| && DrawnPairs(owners, given, stored, supply, at, pairs) && i < |owners|
    ensures IsNew(owners[i], given, stored) ==> supply.pair(at + Draws(owners[..i], given, stored)) == Some(pairs[i])
  {
    assert DrawnPair(owners, given, stored, supply, at, i, pairs[i]);
  }

  /** Two private keys of one expansion differ, and so do their public keys. */
  lemma SecretsApart(base: ClusterConfig, s: Secrets, stored: map<string, string>, storedAdmin: map<string, string>, prior: ClusterModel, supply: Supply, derive: Derive, lib: NetLib, o: Owner, o': Owner)
    requires Explains(s, base, stored, storedAdmin, derive, lib) && Drawn(s, base, stored, storedAdmin, supply)
    requires stored == OrDefault(prior.wireGuardPrivateKeys, map[]) && storedAdmin == OrDefault(prior.adminPrivateKeys, map[])
    requires base.adminWGPriv == OrDefault(prior.adminPrivate, "") && (base.adminWGPriv != "" ==> derive(base.adminWGPriv) == Some(base.adminWGPub))
    requires Varied(supply) && NewTo(supply, prior, derive) && StoredApart(prior, derive)
    requires o != o' && SecretOf(base, s, o).priv != "" && SecretOf(base, s, o').priv != ""
    ensures SecretOf(base, s, o).pub != SecretOf(base, s, o').pub && SecretOf(base, s, o).priv != SecretOf(base, s, o').priv
  {
    hide Drawn, SecretOf, DrawFor, NewOwner, StoredFor, AssignFor, GoodPairs;
    SecretOrigin(base, s, stored, storedAdmin, prior, supply, derive, lib, o);
    SecretOrigin(base, s, stored, storedAdmin, prior, supply, derive, lib, o');
    if StoredFor(prior, o) == "" && StoredFor(prior, o') == "" {
      DrawsApart(base, stored, storedAdmin, o, o');
      var i, j := DrawFor(base, stored, storedAdmin, o), DrawFor(base, stored, storedAdmin, o');
      assert supply.pair(i).Some? && supply.pair(j).Some? && (i < j || j < i);
    }
  }

  /**
   With a varied random source that repeats no stored key, all private keys that an expansion uses for
   nodes, the legacy peer and admin peers differ, and so do their public keys.
   */
  lemma ExpandedApart(plan: ClusterModel, prior: ClusterModel, provider: SSHConfig, supply: Supply, derive: Derive, lib: NetLib)
    requires Honest(supply, derive) && DistinctNodes(plan) && ExpandWireGuard(plan.wireGuard).enabled && LegacyMatches(prior, derive)
    requires Varied(supply) && NewTo(supply, prior, derive) && StoredApart(prior, derive)
    requires Expand(plan, prior, provider, supply, derive, lib).Ok?
    ensures AllApart(Expand(plan, prior, provider, supply, derive, lib).value)
  {
    hide Expand, Explains, Drawn, DistinctNodes, Honest, Varied, NewTo, StoredApart, KeyIn, SecretOf, Filled, ExpandWireGuard;
    var base, s := ExpandShape(plan, prior, provider, supply, derive, lib);
    var stored, storedAdmin := OrDefault(prior.wireGuardPrivateKeys, map[]), OrDefault(prior.adminPrivateKeys, map[]);
    var cfg := Expand(plan, prior, provider, supply, derive, lib).value;
    forall o, o' | o != o' && KeyIn(cfg, o).priv != "" && KeyIn(cfg, o').priv != ""
      ensures KeyIn(cfg, o).priv != KeyIn(cfg, o').priv && KeyIn(cfg, o).pub != KeyIn(cfg, o').pub
    {
      FilledKeys(base, s, o);
      FilledKeys(base, s, o');
      SecretsApart(base, s, stored, storedAdmin, prior, supply, derive, lib, o, o');
    }
  }

  /** Every node has a private key, and an enabled legacy peer uses the legacy pair. */
  lemma UsedKeys(plan: ClusterModel, prior: ClusterModel, provider: SSHConfig, supply: Supply, derive: Derive, lib: NetLib)
    requires Honest(supply, derive) && DistinctNodes(plan) && ExpandWireGuard(plan.wireGuard).enabled
    requires Expand(plan, prior, provider, supply, derive, lib).Ok?
    ensures var cfg := Expand(plan, prior, provider, supply, derive, lib).value;
            && (forall k :: k in cfg.nodeNames ==> KeyIn(cfg, OfNode(k)).priv != "")
            && (cfg.adminPeer.enabled ==> KeyIn(cfg, LegacyPeer).priv != "" && cfg.adminPeer.publicKey == KeyIn(cfg, LegacyPeer).pub)
  {
    hide Expand, AssignFor, GoodPairs, Drawn, DistinctNodes, Honest, FilledNodes, FilledPeers, GeneratedKeys, ZipMap, ExpandWireGuard;
    var base, s := ExpandShape(plan, prior, provider, supply, derive, lib);
    var cfg := Expand(plan, prior, provider, supply, derive, lib).value;
    forall k | k in cfg.nodeNames ensures KeyIn(cfg, OfNode(k)).priv != "" {
      FilledKeys(base, s, OfNode(k));
      PairOf(base.nodeNames, map[], OrDefault(prior.wireGuardPrivateKeys, map[]), derive, s.nodePairs, Position(base.nodeNames, k));
    }
  }

  // ------------------------------------------------------------- whole runs

  /** The state stores exactly the private keys of the configuration. */
  lemma FilledStored(base: ClusterConfig, s: Secrets, stored: map<string, string>, storedAdmin: map<string, string>, plan: ClusterModel, out: Outputs, derive: Derive, lib: NetLib, o: Owner)
    requires Explains(s, base, stored, storedAdmin, derive, lib) && Distinct(base.nodeNames) && Distinct(base.adminPeerNames)
    ensures StoredFor(ToState(Filled(base, s.ips, s.nodePairs, s.legacy, s.adminPairs), plan, out), o) == SecretOf(base, s, o).priv
  {
    hide AssignFor, GoodPairs, FilledNodes, FilledPeers, GeneratedKeys, ZipMap, NodeStates;
    match o
    case OfNode(k) => if k in base.nodeNames { ZipStores(base.nodeNames, s.nodePairs); }
    case LegacyPeer =>
    case OfPeer(p) =>
      var given := GivenKeys(base.adminPeers);
      if p in base.adminPeerNames {
        PairOf(base.adminPeerNames, given, storedAdmin, derive, s.adminPairs, Position(base.adminPeerNames, p));
        GeneratedStores(base.adminPeerNames, given, s.adminPairs);
      }
      if p in GeneratedKeys(base.adminPeerNames, given, s.adminPairs) { GeneratedOnly(base.adminPeerNames, given, s.adminPairs, p); }
  }

  /** Without WireGuard the state keeps the legacy key and no other. */
  lemma PlainStored(base: ClusterConfig, plan: ClusterModel, out: Outputs, o: Owner)
    requires base.wgPrivateKeys == map[] && base.adminWGPrivateKeys == map[]
    ensures StoredFor(ToState(base, plan, out), o) == if o.LegacyPeer? then base.adminWGPriv else ""
  {
    hide NodeStates;
  }

  /** `x` is one of the supply's private keys. */
  ghost predicate IsDraw(supply: Supply, x: string) { exists i: nat :: supply.pair(i).Some? && supply.pair(i).value.priv == x }

  /** A step stores no key but those it found and its own draws, each for another owner. */
  lemma StepKeys(st: Option<ClusterModel>, a: Action, derive: Derive, lib: NetLib)
    requires Fair(a, derive) && (st.Some? ==> StateRuns.Coherent(st.value, derive)) && StoredApart(PriorOf(st), derive)
    requires a.Apply? ==> Varied(a.supply) && NewTo(a.supply, PriorOf(st), derive)
    ensures StoredApart(PriorOf(Next(st, a, derive, lib)), derive)
    ensures forall o :: var x := StoredFor(PriorOf(Next(st, a, derive, lib)), o);
                        x != "" ==> x == StoredFor(PriorOf(st), o) || (a.Apply? && IsDraw(a.supply, x))
  {
    hide StateRuns.Coherent, Expand, Varied, NewTo, StoredFor, ToState, IsDraw;
    if Succeeds(st, a, derive, lib) {
      var prior := PriorOf(st);
      assert LegacyMatches(prior, derive) by { CoherentLegacy(st, derive); }
      if ExpandWireGuard(a.plan.wireGuard).enabled {
        WireGuardStepKeys(prior, a, derive, lib);
      } else {
        PlainStepKeys(prior, a, derive, lib);
      }
    } else {
      assert forall o :: StoredFor(NO_STATE, o) == "" by { NoneStored(); }
    }
  }

  lemma NoneStored()
    ensures forall o :: StoredFor(NO_STATE, o) == ""
  {
  }

  lemma CoherentLegacy(st: Option<ClusterModel>, derive: Derive)
    requires st.Some? ==> StateRuns.Coherent(st.value, derive)
    ensures LegacyMatches(PriorOf(st), derive)
  {
  }

  lemma WireGuardStepKeys(prior: ClusterModel, a: Action, derive: Derive, lib: NetLib)
    requires a.Apply? && Fair(a, derive) && LegacyMatches(prior, derive) && StoredApart(prior, derive)
    requires Varied(a.supply) && NewTo(a.supply, prior, derive) && ExpandWireGuard(a.plan.wireGuard).enabled
    requires Expand(a.plan, prior, a.provider, a.supply, derive, lib).Ok?
    ensures var next := ToState(Expand(a.plan, prior, a.provider, a.supply, derive, lib).value, a.plan, a.out);
            && StoredApart(next, derive)
            && forall o :: StoredFor(next, o) != "" ==> StoredFor(next, o) == StoredFor(prior, o) || IsDraw(a.supply, StoredFor(next, o))
  {
    hide Expand, Explains, Drawn, DistinctNodes, Honest, Addressed, SecretOf, Filled, ExpandWireGuard, ToState, StoredFor, Varied, NewTo, DrawFor, NewOwner;
    var base, s := ExpandShape(a.plan, prior, a.provider, a.supply, derive, lib);
    var stored, storedAdmin := OrDefault(prior.wireGuardPrivateKeys, map[]), OrDefault(prior.adminPrivateKeys, map[]);
    var next := ToState(Expand(a.plan, prior, a.provider, a.supply, derive, lib).value, a.plan, a.out);
    forall o ensures StoredFor(next, o) == SecretOf(base, s, o).priv { FilledStored(base, s, stored, storedAdmin, a.plan, a.out, derive, lib, o); }
    forall o | StoredFor(next, o) != ""
      ensures derive(StoredFor(next, o)) == Some(SecretOf(base, s, o).pub)
      ensures StoredFor(next, o) == StoredFor(prior, o) || IsDraw(a.supply, StoredFor(next, o))
    {
      SecretOrigin(base, s, stored, storedAdmin, prior, a.supply, derive, lib, o);
    }
    forall o, o' | o != o' && StoredFor(next, o) != "" && StoredFor(next, o') != "" ensures derive(StoredFor(next, o)) != derive(StoredFor(next, o')) {
      SecretsApart(base, s, stored, storedAdmin, prior, a.supply, derive, lib, o, o');
    }
  }

  lemma PlainStepKeys(prior: ClusterModel, a: Action, derive: Derive, lib: NetLib)
    requires a.Apply? && !ExpandWireGuard(a.plan.wireGuard).enabled
    requires Expand(a.plan, prior, a.provider, a.supply, derive, lib).Ok?
    ensures var next := ToState(Expand(a.plan, prior, a.provider, a.supply, derive, lib).value, a.plan, a.out);
            && StoredApart(next, derive)
            && forall o :: StoredFor(next, o) != "" ==> StoredFor(next, o) == StoredFor(prior, o)
  {
    hide Identities, NodeConfigs, ZipMap, SortStrings, AdminPeerMap, FillIn, ToState;
    var base := Expand(a.plan, prior, a.provider, a.supply, derive, lib).value;
    forall o ensures StoredFor(ToState(base, a.plan, a.out), o) == if o.LegacyPeer? then base.adminWGPriv else "" { PlainStored(base, a.plan, a.out, o); }
  }

  /** The public key of draw `i` of step `n`, if there is one. */
  function PubDrawn(actions: seq<Action>, n: nat, i: nat): Option<string>
    requires n < |actions|
  {
    if actions[n].Apply? && actions[n].supply.pair(i).Some? then Some(actions[n].supply.pair(i).value.pub) else None
  }

  /** No draw of the whole run repeats another. */
  ghost predicate AllVaried(actions: seq<Action>) {
    forall m: nat, n: nat, i: nat, j: nat :: m < |actions| && n < |actions| && (m != n || i != j) && PubDrawn(actions, m, i).Some? ==>
      PubDrawn(actions, m, i) != PubDrawn(actions, n, j)
  }

  /** No draw of the run repeats a key that was stored before it. */
  ghost predicate AllNew(actions: seq<Action>, prior: ClusterModel, derive: Derive) {
    forall m: nat, i: nat, o :: m < |actions| && PubDrawn(actions, m, i).Some? && StoredFor(prior, o) != "" ==>
      derive(StoredFor(prior, o)) != PubDrawn(actions, m, i)
  }

  /** A stored key was there at the beginning or was drawn by one of the steps. */
  ghost predicate Traced(x: string, st: Option<ClusterModel>, actions: seq<Action>) {
    (exists o :: StoredFor(PriorOf(st), o) == x) || (exists m: nat :: m < |actions| && actions[m].Apply? && IsDraw(actions[m].supply, x))
  }

  lemma TracedOn(x: string, st: Option<ClusterModel>, actions: seq<Action>)
    requires actions != [] && Traced(x, st, actions[..|actions| - 1])
    ensures Traced(x, st, actions)
  {
    hide IsDraw, StoredFor;
    var front := actions[..|actions| - 1];
    if m: nat :| m < |front| && front[m].Apply? && IsDraw(front[m].supply, x) { assert actions[m] == front[m]; }
  }

  /** The draws of a later step are new to any key that can be traced. */
  lemma TracedIsOld(x: string, st: Option<ClusterModel>, actions: seq<Action>, n: nat, i: nat, derive: Derive)
    requires n < |actions| && Traced(x, st, actions[..n]) && x != "" && AllVaried(actions) && AllNew(actions, PriorOf(st), derive)
    requires AllFair(actions, derive) && PubDrawn(actions, n, i).Some?
    ensures derive(x) != PubDrawn(actions, n, i)
  {
    hide StoredFor;
    if m: nat :| m < n && actions[..n][m].Apply? && IsDraw(actions[..n][m].supply, x) {
      var j: nat :| actions[m].supply.pair(j).Some? && actions[m].supply.pair(j).value.priv == x;
      assert Fair(actions[m], derive);
      assert PubDrawn(actions, m, j) == derive(x);
    }
  }

  lemma LaterSupply(st: Option<ClusterModel>, actions: seq<Action>, n: nat, prior: ClusterModel, derive: Derive)
    requires n < |actions| && actions[n].Apply? && AllFair(actions, derive) && AllVaried(actions) && AllNew(actions, PriorOf(st), derive)
    requires forall o :: StoredFor(prior, o) != "" ==> Traced(StoredFor(prior, o), st, actions[..n])
    ensures Varied(actions[n].supply) && NewTo(actions[n].supply, prior, derive)
  {
    hide StoredFor, AllNew, Traced, AllFair;
    var supply := actions[n].supply;
    forall i: nat, o | supply.pair(i).Some? && StoredFor(prior, o) != "" ensures derive(StoredFor(prior, o)) != Some(supply.pair(i).value.pub) {
      TracedIsOld(StoredFor(prior, o), st, actions, n, i, derive);
    }
    forall i: nat, j: nat | i < j && supply.pair(i).Some? && supply.pair(j).Some? ensures supply.pair(i).value.pub != supply.pair(j).value.pub {
      assert PubDrawn(actions, n, i) != PubDrawn(actions, n, j);
    }
  }

  /** Before every step of a run, the stored keys differ and can be traced. */
  lemma {:induction false} RunKeys(st: Option<ClusterModel>, actions: seq<Action>, n: nat, derive: Derive, lib: NetLib)
    requires n <= |actions| && AllFair(actions, derive) && (st.Some? ==> StateRuns.Coherent(st.value, derive))
    requires StoredApart(PriorOf(st), derive) && AllVaried(actions) && AllNew(actions, PriorOf(st), derive)
    ensures var prior := PriorOf(Run(st, actions[..n], derive, lib));
            StoredApart(prior, derive) && forall o :: StoredFor(prior, o) != "" ==> Traced(StoredFor(prior, o), st, actions[..n])
    decreases n
  {
    hide StateRuns.Coherent, StoredApart, AllVaried, AllNew, StoredFor, Next, IsDraw;
    if n > 0 {
      var before := actions[..n - 1];
      assert actions[..n][..n - 1] == before;
      RunKeys(st, actions, n - 1, derive, lib);
      RunCoherent(st, before, derive, lib);
      var mid := Run(st, before, derive, lib);
      if actions[n - 1].Apply? { LaterSupply(st, actions, n - 1, PriorOf(mid), derive); }
      StepKeys(mid, actions[n - 1], derive, lib);
      var after := PriorOf(Next(mid, actions[n - 1], derive, lib));
      forall o | StoredFor(after, o) != "" ensures Traced(StoredFor(after, o), st, actions[..n]) {
        if StoredFor(after, o) == StoredFor(PriorOf(mid), o) { TracedOn(StoredFor(after, o), st, actions[..n]); }
        else { assert actions[..n][n - 1] == actions[n - 1]; }
      }
    }
  }

  /**
   Over any run of creates, updates and destroys, every configuration that a step works from holds a
   different key pair for every node and admin peer that the provider generates one for.
   */
  lemma RunKeysApart(st: Option<ClusterModel>, actions: seq<Action>, n: nat, derive: Derive, lib: NetLib)
    requires AllFair(actions, derive) && (st.Some? ==> StateRuns.Coherent(st.value, derive))
    requires StoredApart(PriorOf(st), derive) && AllVaried(actions) && AllNew(actions, PriorOf(st), derive)
    requires n < |actions| && actions[n].Apply? && ExpandWireGuard(actions[n].plan.wireGuard).enabled
    ensures var cfg := Expanded(Run(st, actions[..n], derive, lib), actions[n], derive, lib); cfg.Ok? ==> AllApart(cfg.value)
  {
    hide StateRuns.Coherent, StoredApart, AllVaried, AllNew, StoredFor, Expand, AllApart, ExpandWireGuard, Varied, NewTo, Traced;
    var mid := Run(st, actions[..n], derive, lib);
    RunKeys(st, actions, n, derive, lib);
    RunCoherent(st, actions[..n], derive, lib);
    CoherentLegacy(mid, derive);
    LaterSupply(st, actions, n, PriorOf(mid), derive);
    assert Fair(actions[n], derive);
    if Expanded(mid, actions[n], derive, lib).Ok? {
      ExpandedApart(actions[n].plan, PriorOf(mid), actions[n].provider, actions[n].supply, derive, lib);
    }
  }

  /** A cluster that starts from nothing needs no condition on stored keys. */
  lemma NothingStored(actions: seq<Action>, derive: Derive)
    ensures StoredApart(PriorOf(None), derive) && AllNew(actions, PriorOf(None), derive)
  {
    NoneStored();
  }
}

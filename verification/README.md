# A verified model of the VPS K3s/WireGuard provider

The provider turns a Terraform plan into a running cluster: it gives every node and admin peer a
WireGuard address and a key pair, writes `/etc/hosts`, WireGuard, UFW and K3s configuration to each
machine over SSH, and stores secrets and addresses in state for the next apply. This project models
that behaviour in Dafny and proves what it promises: which addresses are handed out, which secrets
survive, what a run that is cut at any remote command leaves behind, and when a successful run has
really brought every machine to its target.

`dafny verify dfyconfig.toml` checks the whole project.

## How the model is built

| file | what it models |
|---|---|
| `Wrappers`, `Text`, `Addresses`, `Ordering` | options and results; Go and Python string functions; IPv4 addresses as numbers, bytes and text; `sort.Strings` and ranks |
| `Ipam`, `AllocatorLaws` | the address allocator and its laws |
| `Config`, `Models`, `Lifecycle`, `StateRuns`, `KeyRuns` | plans, state, expansion, runs of create, update and destroy, and where every private key comes from |
| `Validators`, `PlanLaws` | plan-time checks and what an accepted plan guarantees |
| `HostsFile`, `ResolvConf`, `Shell` | the managed `/etc/hosts` block, the resolv.conf printer and parser, shell quoting read back by a lexer |
| `Remote`, `Firewall`, `FirewallRuns`, `K3s`, `WireGuard` | remote steps that may fail, and the three configuration steps with their skip-if-unchanged shortcuts |
| `Mesh` | agreement of all rendered WireGuard configurations with one another |
| `Apply`, `Fleet` | the phases of an apply run, as a state machine and as the program that performs it |
| `Convergence`, `Retries`, `Changes` | what a successful run, a series of failed runs and a series of different configurations lead to |
| `Targets`, `Deployment` | what a machine at its target does, in the words of the tools that read its files, and what an accepted plan leads to |
| `Instances` | plans that meet the conditions of the theorems, and accepted plans that fall into the gaps |

A method with loops or updated fields follows the source's own loop and is proved equal to a
specification function; the laws are then proved about that function. A remote command has one of
four fates (`Remote.Effect`): done and reported, lost before it reached the node, failed on the node,
or carried out although the provider saw an error. A query (file comparison, service status) may go
unanswered, which the provider reads as "no". A `Net` fixes the fates of all steps of one run, so a
theorem for every `Net` covers every way of cutting the run. A `Site` says to which machine an address
text leads and what `ip` prints on each node; machines are told apart by where their addresses lead, not
by the texts.

Conditions that appear in the theorems:

- Public and private keys are abstract. A generated pair matches its own derivation and is not empty
  (`Lifecycle.Honest`); where keys are shown to differ, the random source repeats neither itself nor a
  stored key (`KeyRuns.Varied`, `KeyRuns.NewTo`), which `Instances.CountingSource` shows can be had.
- CIDR parsing and the text of IPv6 addresses are parameters (`Addresses.NetLib`). Round trips use
  one law about printing them (`ResolvConf.Lawful`); the hosts block uses that they consist of letters,
  digits, colons and dots (`Deployment.PlainIPv6`).
- Two address texts lead to one machine exactly when they parse to the same address
  (`Deployment.Routed`).
- Node identities are distinct (`Lifecycle.DistinctNodes`). Validation does not ensure this; the
  exact gap is `PlanLaws.DistinctIff`.

## Where the code falls short of its purpose

Each of these is proved: the exact condition under which the code does what it is meant to do, and
an instance that shows the gap can be reached.

- A `/32` subnet wraps the host count around, and node addresses leave the subnet:
  `AllocatorLaws.NodesInSubnetIff`, reached by `AllocatorLaws.Slash32Allocates`.
- `docs/resources/cluster.md:78` calls node addresses stable. They are ranks in the sorted list of
  identities, so a node that sorts earlier moves all larger ones: `AllocatorLaws.AddingOneNode`,
  reached by `AllocatorLaws.AddingMoves`.
- A server that sorts before the present bootstrap server takes over its role, so the new machine
  starts a cluster of its own: `PlanLaws.AppendedServersTakeOver`, reached from an accepted plan by
  `Instances.TakeoverInstance`.
- Extra K3s arguments can spell `cluster-init`, `server` or `token` again, also with blanks in front of
  the `=`, and are not refused: `K3s.OnlyInitIff`, `K3s.OneWayInIff`, reached by `K3s.FlagArg`.
- The guard against a second `resolv-conf` trims before it strips the dashes, and the renderer does it the
  other way around, so white space behind the dashes escapes the guard: `K3s.GuardGapIff`,
  `K3s.OneResolvConfIff`, reached by `K3s.HiddenArg`.
- A hostname that equals another node's public IP passes validation and makes the two nodes one:
  `PlanLaws.DistinctIff`, reached by `PlanLaws.CrossedPlanAccepted`.
- Two spellings of one address, such as `1.2.3.4` and `::ffff:1.2.3.4`, pass the duplicate check; both nodes
  are then configured on one machine, and the run reports success with a node not at its target:
  `PlanLaws.SeparateIff`, `Deployment.AcceptedPlanDeploys`, reached by `Instances.RespelledFails`.
- A hostname can be the default name of a node without one, which gives two nodes one K3s name:
  `PlanLaws.DistinctNamesIff`, reached by `Instances.NamesakeAccepted`.
- Admin peers may bring equal public keys, which WireGuard takes for one peer: `Mesh.KeysApartIff`,
  `Mesh.ExpandedKeysApartIff`, reached by `Instances.SharedKeyExpands`.
- A run cut between the upload of config.yaml and the restart leaves K3s on its old config, and a
  retry reports success: `K3s.InstallCoherentIff`, `Retries.RunKeepsTrustIff`, reached by
  `K3s.StaleAfterRetry`.
- One unanswered status query makes a run report success with K3s on its old config, and no
  repetition repairs it: `Convergence.SuccessConvergesIff`, `Convergence.QuietRepeatIff`, reached by
  `K3s.StaleOnSuccess`.
- A run cut between the UFW script and its marker lets a return to the old rules be skipped:
  `FirewallRuns.TruthfulIff`, `Changes.RunKeepsWorldSoundIff`, reached by `FirewallRuns.RevertWindow`.
- No run ever stops a service, so a role change, in either direction, leaves the service of the old
  role running, and a renamed WireGuard interface leaves the old one up: `Convergence.OnlyOwnIff`, reached by
  `K3s.RoleChangeLeavesOldService`.
- A stray marker in `/etc/hosts` is never cleaned up and breaks last-write-wins:
  `HostsFile.LastWriteWinsIff`, reached by `HostsFile.StaleStart` and `HostsFile.StaleEnd`.
- `pythonString` changes or breaks text that holds a triple quote, a carriage return, a NUL or a line `PY`, or
  that ends in a quote: `HostsFile.PythonStringFaithfulIff`; the hosts block of an accepted plan is safe by
  `Deployment.AcceptedHostsWritten`.

## Model

| member | source | states |
|---|---|---|
| Addresses.AddIPv4 | internal/provider/ipam.go:69-76 | the byte-wise sum is the integer sum, and it exists exactly when it stays below 2^32; otherwise the slice expression panics |
| Addresses.DottedRoundTrip | internal/provider/ipam.go:35-37 | printing an address and parsing it gives the address back |
| Addresses.ParseDottedCanonical | internal/provider/ipam.go:41-41 | every text that parses as a dotted quad is the printed form of its address |
| Addresses.DottedInjective | internal/provider/ipam.go:33-37 | distinct addresses have distinct texts, so the used-set of texts is a used-set of addresses |
| Addresses.OneSpelling | internal/provider/validators.go:194-200 | texts without a colon that parse to the same address are the same text |
| Ipam.SubnetBounds | internal/provider/ipam.go:23-27 | a subnet ends at or below 2^32 and contains exactly network plus 0 to size minus one |
| Ipam.InSubnetIff | internal/provider/ipam.go:23-43 | two addresses lie in one subnet exactly when they are equal once both have lost their last 32 - ones bits |
| Ipam.NetworkBits | internal/provider/ipam.go:15-23 | the network address keeps the first bits of an address, as many as the prefix has, and all its other bits are zero |
| Ipam.SizeDoubles | internal/provider/ipam.go:27-27 | a /32 holds one address, and each bit less in the prefix doubles the subnet |
| Ipam.SizeRange | internal/provider/ipam.go:27-27 | usable is size minus two up to /31 and wraps to 2^64 - 1 for a /32 |
| Ipam.FindFree | internal/provider/ipam.go:51-58 | the downward search over used texts finds the greatest offset that no node and no earlier peer holds |
| Ipam.ChooseAdmin | internal/provider/ipam.go:39-64 | one peer's round on the used texts is the choice on offsets: fixed request checked for subnet, reserved and taken addresses, else the greatest free offset |
| Ipam.AssignNodes | internal/provider/ipam.go:34-38 | node i gets network plus i plus one, and the used texts are exactly the node offsets |
| Ipam.AssignAdmins | internal/provider/ipam.go:39-65 | the peer loop yields the texts of the specified offsets, or the first peer's error |
| Ipam.AssignWireGuardIPs | internal/provider/ipam.go:14-67 | the program on texts computes the allocation specified on offsets, with the same errors in the same order |
| AllocatorLaws.AllocatorSound | internal/provider/ipam.go:23-67 | on success exactly the given names are assigned, all to host addresses of the subnet other than network and broadcast, all distinct, and every fixed request is honoured |
| AllocatorLaws.NodesInSubnetIff | internal/provider/ipam.go:27-38 | after success, all node addresses are host addresses of the subnet exactly when the prefix is at most 31 or there are no nodes |
| AllocatorLaws.NodesAllocateIff | internal/provider/ipam.go:27-38 | without admin peers, allocation succeeds exactly when the capacity check passes and the last address stays below 2^32 |
| AllocatorLaws.Slash32Allocates | internal/provider/ipam.go:27-38 | a /32 allocates for any nodes that stay below 2^32, and then some node gets no host address of the subnet |
| AllocatorLaws.FreeExists | internal/provider/ipam.go:29-58 | pigeonhole: with fewer peers than offsets above the node block, the greatest free offset lies above the node block |
| AllocatorLaws.ChooseOkIff | internal/provider/ipam.go:40-61 | a peer is served exactly when its request is absent or names a free host address |
| AllocatorLaws.AutoNeverRefused | internal/provider/ipam.go:59-61 | past the capacity check a peer without a request is always served: the branch for no free address is dead |
| AllocatorLaws.AllocatesIff | internal/provider/ipam.go:27-66 | past the capacity check allocation succeeds exactly when every fixed request fits, and any error names a peer with a fixed request |
| AllocatorLaws.CapacityIff | internal/provider/ipam.go:27-31 | up to /31 the allocation is refused as too small exactly when nodes and peers together exceed two to the power of the host bits, less two |
| AllocatorLaws.AdminAddressesIgnoreNodes | internal/provider/ipam.go:39-64 | two node lists that both allocate give every admin peer the same address |
| AllocatorLaws.AutoOffsets | internal/provider/ipam.go:51-63 | without fixed requests admin peer k gets offset usable minus k |
| AllocatorLaws.AutoAddress | internal/provider/ipam.go:51-63 | as long as no peer asks for an address, peer k gets the network plus two to the power of the host bits, less two, less k |
| AllocatorLaws.NodeOffsetIsRank | internal/provider/models.go:340-378 | a node's offset is one more than the number of identities that sort before it, whatever the plan order |
| AllocatorLaws.AddingOneNode | internal/provider/models.go:340-378 | one more identity keeps every smaller node's address and moves every larger one up by exactly one |
| AllocatorLaws.AddingMoves | internal/provider/models.go:340-378 | in any /24, node "b" moves from the first to the second address when node "a" is added |
| AllocatorLaws.AssignedValues | internal/provider/ipam.go:34-65 | the offsets behind a successful allocation: node i has i plus one, admin offsets are sound, and the maps hold their texts |
| Models.ExpandAdminPeers | internal/provider/models.go:629-648 | whatever order the map is visited in, the peers are those of the plan and the names are its sorted keys |
| Models.AdminPeerIPRequests | internal/provider/models.go:650-662 | the names and requests handed to the allocator, legacy peer first |
| Models.ReadNodes | internal/provider/models.go:334-367 | the node table by identity, later duplicates winning, and the sorted identities |
| Models.FillNodes | internal/provider/models.go:376-400 | each node gets its assigned address and its stored key, or a fresh pair when none is stored; the first failure stops the expansion; that a fresh pair is a draw of its own is `Lifecycle.KeysDraw` |
| Models.FillPeers | internal/provider/models.go:414-443 | each admin peer gets its address and keeps a given public key; otherwise a stored or fresh pair whose private half is recorded |
| Models.FillAll | internal/provider/models.go:369-444 | addresses, node keys, the legacy pair and peer keys are filled in, in that order of random draws |
| Models.ExpandClusterConfig | internal/provider/models.go:294-448 | the loops compute the specified configuration or the first error |
| Models.ClusterToState | internal/provider/models.go:450-513 | the state written from a configuration: secrets, key maps, and the nodes in sorted order with the plan's SSH inputs |
| Models.ReadPlanNodes | internal/provider/models.go:483-490 | the plan's nodes by identity |
| Lifecycle.KeysGood | internal/provider/models.go:379-398 | every key used is the stored one or fresh, and its public half is derived from its private half |
| Lifecycle.KeysAgain | internal/provider/models.go:379-398 | with all private keys stored, expansion draws nothing and repeats every pair |
| Lifecycle.KeysDraw | internal/provider/models.go:379-398 | every owner without a given or stored key gets the draw whose number is the count of such owners before it, and nobody else uses up a draw |
| Lifecycle.FillInShape | internal/provider/models.go:369-444 | every successful filling comes from one successful allocation and matching key pairs, drawn for the nodes first, then for the legacy peer, then for the admin peers |
| Lifecycle.ApplyTwice | internal/provider/cluster_resource.go:106-128 | expanding the same plan against the state of its own application gives the same configuration, whatever the random source yields |
| Lifecycle.StateTable | internal/provider/models.go:491-511 | reading the stored nodes back gives the same identities and, up to display names, the same node table |
| Lifecycle.DeleteReachesTheSameNodes | internal/provider/cluster_resource.go:130-142 | expanding the state against itself reaches the applied nodes: same identities, addresses, roles, keys and SSH settings; only display names may differ |
| StateRuns.StepCoherent | internal/provider/cluster_resource.go:73-128 | one step keeps every stored private key real and every stored public key equal to its derivation |
| StateRuns.RunCoherent | internal/provider/cluster_resource.go:73-142 | in every state reachable by any sequence of creates, updates and destroys all stored key pairs match, the separately stored legacy pair included |
| StateRuns.KeyIsStable | internal/provider/models.go:379-398 | a node identity that stays in the plan with WireGuard on keeps its private key over any number of updates, successful or not |
| StateRuns.AdminKeyIsStable | internal/provider/models.go:414-438 | a generated admin key is kept over any number of updates that keep the peer without a public key of its own |
| StateRuns.LegacyKeyIsStable | internal/provider/models.go:327-328 | the legacy admin key, once generated, is kept over any number of updates, whether or not they use it |
| StateRuns.TokenIsStable | internal/provider/k3s.go:18-24 | over any number of updates the stored token is the one last configured and applied, or the original one |
| StateRuns.RotationWarningIff | internal/provider/k3s.go:26-29 | the plan-time warning is given exactly when applying would use a token other than the stored one |
| StateRuns.AcceptedPlanExpands | internal/provider/validators.go:219-239 | from any coherent state an accepted plan expands whenever randomness is available |
| KeyRuns.ExpandedApart | internal/provider/models.go:376-443 | with a random source that repeats neither itself nor a stored key, the private and the public keys of all nodes, the legacy peer and all generated admin peers differ |
| KeyRuns.StepKeys | internal/provider/cluster_resource.go:73-142 | a step stores no private key but those it found for the same owners and its own draws, and keeps all stored keys apart |
| KeyRuns.RunKeysApart | internal/provider/cluster_resource.go:73-142 | over any sequence of creates, updates and destroys whose draws differ, every configuration worked from holds a different key pair for every owner |
| Validators.HostnameChars | internal/provider/validators.go:332-336 | a valid hostname holds only letters, digits, hyphens and dots, and is not empty |
| Validators.AdminIPRequests | internal/provider/validators.go:321-330 | the requests as the validator builds them, in any map order |
| Validators.SameRequests | internal/provider/models.go:650-662 | the validator and the expansion build the same requests |
| Validators.CheckNode | internal/provider/validators.go:184-212 | a node passes exactly when role, address and hostname are good and neither address nor hostname was seen before |
| Validators.CheckNodes | internal/provider/validators.go:184-212 | the node loop reports nothing exactly when all nodes are good and pairwise apart; it counts servers and collects identities |
| Validators.CheckAddressing | internal/provider/validators.go:233-239 | addressing passes exactly when WireGuard is off or the allocation succeeds |
| Validators.ValidatePlan | internal/provider/validators.go:169-239 | no error is reported exactly for the plans whose nodes, server count, admin peers and addressing are acceptable |
| Validators.AcceptedPlanAllocates | internal/provider/validators.go:233-238 | an accepted plan cannot fail address assignment during apply, which computes the very same assignment |
| PlanLaws.AcceptedIffNoTie | internal/provider/validators.go:213-217 | an otherwise sound plan is accepted exactly when its servers cannot split into two halves of one size |
| PlanLaws.AcceptedRoles | internal/provider/validators.go:187-190 | an accepted plan has no node that is neither a server nor an agent |
| PlanLaws.DistinctIff | internal/provider/validators.go:194-211 | an accepted plan has distinct identities exactly when no hostname is another node's bare public IP |
| PlanLaws.SeparateIff | internal/provider/validators.go:194-200 | an accepted plan names different addresses exactly when no public IP with a colon respells another node's |
| PlanLaws.DistinctNamesIff | internal/provider/models.go:344-348 | an accepted plan gives its nodes distinct K3s names exactly when no hostname is the default name of a node without one |
| PlanLaws.TableSizeIff | internal/provider/models.go:341-366 | the node table has an entry for every plan node exactly when identities are distinct |
| PlanLaws.CrossedPlanAccepted | internal/provider/validators.go:194-211 | for any two addresses there is an accepted plan in which one of two nodes is lost |
| PlanLaws.ExpandedNode | internal/provider/models.go:341-366 | every plan node is in the configuration under its identity, with its role, address and name |
| PlanLaws.ExpandedSettings | internal/provider/models.go:349-366 | every node is dialed with its own SSH settings and the provider's where it has none; the tunnel and the legacy peer have the plan's settings and the documented defaults otherwise |
| PlanLaws.AcceptedPlanBootstraps | internal/provider/k3s.go:115-182 | in every accepted plan the first server bootstraps, all others join through it with the one token, by its private IP where WireGuard is on and by its public IP otherwise, and every other server is installed after it; it is the only one to start a cluster exactly when no other node's extra arguments ask for it, and a node has one way in, one token and only plain keys exactly when its own arguments have plain keys and leave these alone |
| PlanLaws.AppendedServersTakeOver | internal/provider/models.go:696-703 | appending nodes to a plan leaves the bootstrap role in place exactly when no appended server sorts before its holder; otherwise the least appended server takes it over |
| HostsFile.RenderHostsBlock | internal/provider/k3s.go:57-70 | the block has one line for every node, in order, between the two markers |
| HostsFile.RenderedIsBlock | internal/provider/k3s.go:57-70 | if no address, name or key holds a `#`, the rendered text is a block whose markers occur only at its ends |
| HostsFile.LastWriteWinsIff | internal/provider/k3s.go:45-50 | editing twice equals making the last edit alone exactly when the text has no marker or its first start marker precedes its first end marker |
| HostsFile.EditView | internal/provider/k3s.go:45-50 | after an edit of such a text the block is where it was put, and the text around it is unchanged up to trimming at the seams |
| HostsFile.OneBlock | internal/provider/k3s.go:45-50 | from no marker or one of each, the result has exactly one start and one end marker, those of the written block |
| HostsFile.StaleStart | internal/provider/k3s.go:45-50 | with a start marker and no end marker a second edit drops the text behind it |
| HostsFile.StaleEnd | internal/provider/k3s.go:45-50 | with an end marker in front a second edit keeps the first block as ordinary text |
| HostsFile.PythonStringFaithfulIff | internal/provider/k3s.go:37-54 | text without backslashes reaches the Python program as it is exactly when it holds no triple quote, NUL, carriage return or line `PY`, and does not end in a quote |
| HostsFile.HostsRuns | internal/provider/k3s.go:37-54 | the rendered block reaches the node unchanged exactly unless it holds a triple quote, NUL, carriage return or line `PY`, and a later run's block replaces it as if it had never been written |
| HostsFile.BlockTravels | internal/provider/k3s.go:37-70 | a block whose node texts hold no line end, carriage return or NUL holds none of the latter two and no line `PY` |
| Shell.LexQuoted | internal/provider/ssh.go:182-184 | by sections 2.2.1, 2.2.2 and 2.3 of the POSIX.1-2017 Shell Command Language a quoted string contributes exactly its characters, also in the middle of a word; only NUL is refused |
| Shell.LexLine | internal/provider/firewall.go:12-53 | a command line written from plain words, quoted arguments and `&&` is read back as exactly these |
| Shell.ShellArgs | internal/provider/helm.go:127-133 | the shell reads the line as the command and exactly the given arguments, for all arguments without NUL |
| ResolvConf.UpstreamNameservers | internal/provider/system.go:77-94 | the loop with its early stop yields the first three reachable nameservers of the text |
| ResolvConf.RenderResolvConf | internal/provider/system.go:96-106 | the rendered lines for the given servers and search domains |
| ResolvConf.RenderThenParse | internal/provider/system.go:77-106 | canonical reachable servers are read back from the rendered text, cut to the first three |
| ResolvConf.ParseRenderParse | internal/provider/system.go:77-106 | for any text, parsing, rendering and parsing again equals parsing, and all results are canonical and reachable |
| ResolvConf.SearchRead | internal/provider/system.go:96-106 | a resolver that takes the last search line reads exactly the given domains from the rendered text |
| ResolvConf.UpstreamReachable | internal/provider/system.go:77-94 | no server is taken from the host whose IPv4 address begins with 127 or is 0.0.0.0, or whose IPv6 address is :: or ::1 |
| ResolvConf.Resolver.ConfigureK3sResolvConf | internal/provider/system.go:56-75 | the step on the node's file, with its read of the host's servers and the skip of an unchanged file |
| ResolvConf.ConfigureWrites | internal/provider/system.go:56-75 | cut anywhere the step leaves the old or the complete new file; after success the chosen servers, at least one, and the search domains are read back from it |
| ResolvConf.ConfigureCalm | internal/provider/system.go:56-75 | undisturbed, the step fails only for want of a server, and repeating a success writes nothing |
| Firewall.ScriptIsRead | internal/provider/firewall.go:12-53 | the shell reads the script as exactly its commands joined by `&&` |
| Firewall.ScriptRoundTrip | internal/provider/firewall.go:12-53 | a reader of shell words and then of ufw's own syntax gets back exactly the commands, whatever the texts and ports in them |
| Firewall.ScriptTextInjective | internal/provider/firewall.go:53-54 | equal script texts are equal command chains, so comparing the marker's bytes compares the commands |
| Firewall.MarkerInjective | internal/provider/firewall.go:53-54 | equal marker contents mean equal rule lists |
| FirewallRuns.BuildCommands | internal/provider/firewall.go:12-52 | the loops build the chain for the rules of the configuration, in order; which traffic these admit is `FirewallRuns.RulesIff` |
| FirewallRuns.RulesIff | internal/provider/firewall.go:18-51 | a rule is there exactly when it admits TCP to the node's SSH port from an allowed source, WireGuard packets from another node or anything inside the tunnel, HTTP or HTTPS by their switches, the Kubernetes API from anywhere or only from the admin sources, or an extra port with its own protocol |
| FirewallRuns.ChainCut | internal/provider/firewall.go:53-62 | cut at any command, UFW is as it was, or inactive, or exactly at the goal; a partly built rule set is never enforced |
| FirewallRuns.ChainEnables | internal/provider/firewall.go:53-62 | from the fates of the single commands: when the chain reaches the goal, when it leaves UFW as it was or inactive, and when it reports success |
| FirewallRuns.ConfigureKeepsSync | internal/provider/firewall.go:54-63 | for a fixed target every run keeps "marker equals script and UFW active implies installed rules are the script's", and success means active with exactly the target rules |
| FirewallRuns.ConfigureAdmits | internal/provider/firewall.go:53-63 | a successful run leaves UFW active, refusing by default, and admitting exactly that traffic |
| FirewallRuns.RunsConverge | internal/provider/firewall.go:54-63 | after any series of failed runs for a target a successful run ends at the goal, and an undisturbed repetition changes nothing |
| FirewallRuns.TruthfulIff | internal/provider/firewall.go:60-63 | across changing targets the marker stays truthful exactly when the run was not cut in the window, given by the fates of its steps, after `enable` took effect and before the marker upload did, while the marker records other rules |
| FirewallRuns.RevertWindow | internal/provider/firewall.go:54-63 | for any two rule lists: cut in that window, a return to the old rules reports success while the new rules stay installed |
| K3s.FirstServer | internal/provider/models.go:696-703 | the search finds the first server in node order, or none |
| K3s.RenderK3sConfig | internal/provider/k3s.go:115-169 | the config entries of a node, in order; which settings these are is `K3s.RenderedIff` |
| K3s.RenderedIff | internal/provider/k3s.go:115-182 | an entry is there exactly when it is one of the node's settings or comes from an extra argument: token, name and the way to join; node IP and advertised address, the private ones and the tunnel's interface where WireGuard is on; the resolv.conf path; for servers the ranges, the kubeconfig mode, the disabled components and a certificate for the address and the hostname |
| K3s.InitIff | internal/provider/k3s.go:119-182 | a node's config asks for a new cluster exactly when it is the first server or an extra argument of its role says so, with the key as a YAML reader finds it, without the blanks in front of the colon |
| K3s.OnlyInitIff | internal/provider/k3s.go:115-182 | the first server is the only node whose config asks for a new cluster, and all keys are plain words, exactly when all extra arguments have plain keys and none of another node's is `cluster-init` |
| K3s.OneWayInIff | internal/provider/k3s.go:115-182 | a node's whole config holds one way to join, one token and only plain keys exactly when its extra arguments have plain keys and none of them is one of these |
| K3s.FlagArg | internal/provider/k3s.go:171-182 | two dashes and a plain word, alone or followed by a blank, `=` and a non-empty value without white space, are written as that word's entry, so the join keys can be spelled again |
| K3s.ResolvConfConflict | internal/provider/validators.go:288-293 | the guard reports a conflict exactly when some extra argument begins with `resolv-conf` after trimming and stripping the dashes |
| K3s.GuardGapIff | internal/provider/validators.go:288-293 | an argument that is written as `resolv-conf` escapes the guard exactly when white space stands behind its dashes |
| K3s.OneResolvConfIff | internal/provider/k3s.go:138-182 | with a dns block and arguments that pass the guard, the config holds one `resolv-conf` exactly when none of them hides it behind dashes and white space |
| K3s.HiddenArg | internal/provider/k3s.go:171-178 | for any path there is such an argument |
| K3s.SingleBootstrap | internal/provider/k3s.go:115-168 | with at least one server the first one starts the cluster, all others join through it with the same token, by its private IP where WireGuard is on and by its public IP otherwise, and other servers follow it in install order; over whole configs with the two exact conditions on extra arguments |
| K3s.InstallCoherentIff | internal/provider/k3s.go:83-112 | "a running service runs what config.yaml says" is kept exactly by runs not cut between upload and restart; a successful run outside that window ends with exactly the rendered config running |
| K3s.InstallIdle | internal/provider/k3s.go:85-103 | repeating an undisturbed run after success changes and restarts nothing |
| K3s.RunsSettle | internal/provider/k3s.go:83-112 | after any series of failed runs outside the window a successful run settles the node |
| K3s.StaleAfterRetry | internal/provider/k3s.go:88-104 | for every changed config: a lost restart fails the run, and the retry succeeds with the old config still running |
| K3s.StaleOnSuccess | internal/provider/k3s.go:100-112 | for every changed config: an unanswered status query alone makes the step succeed with the old config still running |
| K3s.InstallWrites | internal/provider/k3s.go:83-112 | success always means the new file in place and the service up, and an undisturbed run takes that for done |
| K3s.InstallKeepsOther | internal/provider/k3s.go:94-112 | whatever the fate of the step, the service of the other role stays as it was |
| K3s.RoleChangeLeavesOldService | internal/provider/k3s.go:94-112 | a role change, in either direction, succeeds with the new service up and the old one running as before |
| WireGuard.RenderNodeConf | internal/provider/wireguard.go:71-105 | the conf of a node: its own key, address and port, and a section for every other node and every admin peer |
| WireGuard.RenderAdminConf | internal/provider/wireguard.go:121-143 | the client configuration of a peer with a key and an address, and an error otherwise |
| WireGuard.RenderAdminConfs | internal/provider/wireguard.go:145-159 | exactly the peers with generated keys get a configuration, or the whole rendering fails for a missing address |
| WireGuard.CidrTextInjective | internal/provider/wireguard.go:68-68 | no other address and no other prefix prints the searched text |
| WireGuard.NeedsRestartIff | internal/provider/wireguard.go:64-69 | given output printed from a live interface, a restart is needed exactly when the service is inactive or address, /32 prefix or MTU differ |
| WireGuard.ConfigureInPlace | internal/provider/wireguard.go:42-62 | the in-place branch refines the restart: both end with the same file, keys, port, peers, address and MTU, and the interface goes down exactly when it cannot be kept or a query goes unanswered |
| WireGuard.ConfigureIdle | internal/provider/wireguard.go:42-62 | repeating an undisturbed step changes nothing and restarts nothing |
| Mesh.NodeConfAgrees | internal/provider/wireguard.go:71-105 | a node's configuration lists every other node once with its derived key, address and endpoint, never itself, all allowed addresses are disjoint, and port and MTU are the cluster's |
| Mesh.AdminConfAgrees | internal/provider/wireguard.go:121-180 | a generated admin configuration has the peer's address and the cluster's MTU, mirrors the section all nodes hold for the peer and lists exactly the nodes |
| Mesh.RulesAdmitPeers | internal/provider/firewall.go:21-30 | every node's rules admit every other node's public IP on the WireGuard port, in both directions |
| Mesh.NodeJoinsInTunnel | internal/provider/models.go:705-715 | where WireGuard is on, a node's join URL names an address that its own conf routes to the bootstrap server's key and public IP, and its node IP is the address of its own interface |
| Mesh.MeshAgreement | internal/provider/wireguard.go:71-180 | for every configuration expanded from any coherent state all node and admin configurations and the firewall rules agree with one another, and the address by which a node joins the cluster is one that its own conf routes to the bootstrap server |
| Mesh.ExpandedAddresses | internal/provider/models.go:369-413 | every node of an expanded plan has the address of its rank among the identities, and every fixed address request, the legacy peer's included, is met |
| Mesh.KeysApartIff | internal/provider/wireguard.go:71-105 | at any node, all public keys in use, its own included, differ exactly when every node and admin peer of the cluster has its own |
| Mesh.ExpandedKeysApartIff | internal/provider/models.go:414-443 | with a random source that repeats neither itself nor a stored key, they differ at any node of an expanded plan exactly when no key the plan brings belongs to another member |
| Apply.RunKeepsBarriers | internal/provider/cluster_resource.go:144-257 | in every prefix of every run no ping is sent before all nodes are prepared, no node counts as connected before it has pinged every other one, no install starts before all nodes are prepared, connected and protected, no addon before all are installed; success means the addons were reached and every status is "ready" |
| Apply.CheckIff | internal/provider/wireguard.go:107-119 | the check on one of n nodes passes exactly when n - 1 pings in a row are answered |
| Apply.InstallAfterPings | internal/provider/cluster_resource.go:167-180 | in every run, no install starts before each node has pinged each other node's private IP and had an answer |
| Fleets.Fleet.RunChain | internal/provider/firewall.go:60-62 | the remote shell runs the chain up to the first failure |
| Fleets.Fleet.ConfigureFirewall | internal/provider/firewall.go:8-64 | the step on the node's rules and marker, with its skip, equals the specified step and touches that machine only; success leaves exactly the wanted traffic admitted unless the marker was false before |
| Fleets.Fleet.InstallK3s | internal/provider/k3s.go:72-113 | the step on config file and services equals the specified step and touches that machine only |
| Fleets.Fleet.ConfigureHosts | internal/provider/k3s.go:31-55 | the step on hostname and hosts file equals the specified step and touches that machine only |
| Fleets.Fleet.ConfigureWireGuard | internal/provider/wireguard.go:42-62 | the step on conf file and live interface of the configured name, restart or in place, equals the specified step and touches that interface of that machine only |
| Fleets.Fleet.CheckConnectivity | internal/provider/wireguard.go:107-119 | one ping to every other node's private IP, logged when it is answered, stopping at the first failure; it passes exactly when all are answered and changes no machine |
| Fleets.Fleet.Loop | internal/provider/cluster_resource.go:147-223 | a phase's loop over the nodes equals the specified phase, stopping at the first error |
| Fleets.Fleet.RunPhases | internal/provider/cluster_resource.go:145-223 | the phases in order, each only if the ones before succeeded and it is configured |
| Fleets.Fleet.FinishRun | internal/provider/cluster_resource.go:225-256 | addons, kubeconfig and admin configurations after the install |
| Fleets.Fleet.ApplyCluster | internal/provider/cluster_resource.go:144-257 | the program's run over the fleet equals the specified run, keeps the phase barriers, starts no install before every node has reached every other one, leaves every node "ready" on success, converges exactly outside the K3s window, and touches no service of another role |
| Convergence.SuccessConvergesIff | internal/provider/cluster_resource.go:144-257 | from trusted machines, a run that reports success leaves every machine at its target, whichever shortcuts were taken and queries went unanswered, exactly when no install was caught between upload and restart |
| Convergence.RunLeaves | internal/provider/cluster_resource.go:144-257 | on any machines: success means every phase has left its mark, and no run touches a service of another role or an interface of another name |
| Convergence.OnlyOwnIff | internal/provider/cluster_resource.go:144-257 | after any run a machine runs no service of another role and no interface of another name than its node's exactly when it ran none before |
| Convergence.RunQuiet | internal/provider/cluster_resource.go:144-257 | where every phase has left its mark, an undisturbed run succeeds and does no more than edit the hosts files again |
| Convergence.RunIdle | internal/provider/cluster_resource.go:144-257 | at the target an undisturbed run succeeds and changes no machine |
| Convergence.QuietRepeatIff | internal/provider/cluster_resource.go:144-257 | applying the same configuration again after any success restarts and resets nothing; it changes no machine exactly when the hosts files were orderly before the first run |
| Convergence.SecondApplyIsQuiet | internal/provider/cluster_resource.go:106-128 | the same for the whole cycle through state, whatever the random source yields the second time |
| Retries.StepKeepsReady | internal/provider/cluster_resource.go:153-219 | cut anywhere, a step leaves what the next run relies on, exactly unless an install is cut in its window |
| Retries.RunKeepsTrustIff | internal/provider/cluster_resource.go:144-257 | wherever a cluster run is cut, all machines can still be trusted exactly when no install was cut between upload and restart |
| Retries.RetriesConverge | internal/provider/cluster_resource.go:144-257 | after any series of failed runs of one configuration outside the window, a successful run brings every machine to its target exactly outside the window, and a repetition changes nothing |
| Changes.StepKeepsSoundIff | internal/provider/cluster_resource.go:153-219 | cut anywhere, a step keeps its machine fit for whatever is applied next, exactly outside the K3s and the UFW window |
| Changes.RunKeepsWorldSoundIff | internal/provider/cluster_resource.go:144-257 | whatever is applied and wherever it is cut, all machines stay fit for whatever is applied next exactly when no step was cut in one of the two windows |
| Changes.ChangesConverge | internal/provider/cluster_resource.go:106-128 | after any series of different configurations with fixed roles, each succeeding or cut outside the two windows, an apply that reports success converges exactly outside the K3s window |
| Changes.UntouchedWorld | internal/provider/cluster_resource.go:73-94 | machines the provider has never touched are a world such a series can start from |
| Targets.TargetConfigured | internal/provider/cluster_resource.go:144-257 | a machine at its target carries its hostname, resolves both names of every node to its address, has an interface up with the node's own key, address, port and MTU and exactly the sections of the others and the admin peers, admits exactly the wanted traffic, and runs the service of its role with exactly the settings that were asked for |
| Targets.SuccessConfigures | internal/provider/cluster_resource.go:144-257 | a successful run from trusted machines, outside the K3s window, leaves every machine so configured |
| Targets.StateIsTrue | internal/provider/models.go:450-513 | the state written after such a run is true of the machines: names, roles, statuses, the addresses and public keys of the live interfaces, and the URL that the services were told to join through |
| Deployment.OwnMachinesIff | internal/provider/ssh.go:35-36 | the nodes of an accepted plan have machines of their own exactly when its public IPs parse to different addresses |
| Deployment.AcceptedFitsIff | internal/provider/validators.go:184-239 | an accepted plan expands to a configuration that meets everything the apply run relies on (machines of their own, parsable addresses, hosts lines without marker characters) exactly when its public IPs parse to different addresses |
| Deployment.TargetNeedsOwn | internal/provider/k3s.go:83-112 | nodes with different cluster addresses that share a machine are never all at their targets |
| Deployment.AcceptedHostsWritten | internal/provider/k3s.go:37-54 | the hosts block of an accepted plan is a block and reaches the Python program unchanged |
| Deployment.CalmRunIff | internal/provider/cluster_resource.go:144-257 | an undisturbed run succeeds, from machines in any state, exactly when there is a server and the admin configurations render |
| Deployment.NewMachinesTrusted | internal/provider/cluster_resource.go:73-94 | machines without markers and without a K3s service can be trusted, whatever hosts entries or UFW rules they have |
| Deployment.UpdateTrusted | internal/provider/cluster_resource.go:106-128 | machines at the target of one configuration can be trusted for the next, for any change that keeps roles and does not turn the firewall on |
| Deployment.AcceptedConfigOk | internal/provider/validators.go:249-267 | an accepted plan passes the apply-time checks exactly when an enabled firewall uses ufw |
| Deployment.AcceptedPlanDeploys | internal/provider/cluster_resource.go:73-128 | for any accepted plan and coherent state: expansion succeeds, one node bootstraps, and an undisturbed apply on trusted machines reports success; it converges exactly when the public IPs parse to different addresses, and then a second apply through the stored state changes nothing |
| Deployment.AcceptedPlanConfigures | internal/provider/cluster_resource.go:73-94 | for any accepted plan with different addresses: an undisturbed apply on trusted machines leaves every machine so configured |
| Instances.OneServerDeploys | internal/provider/cluster_resource.go:73-94 | the conditions of that theorem can be met: the smallest plan, with all defaults, deploys on a new machine at any address |
| Instances.CountingSource | internal/provider/models.go:379-398 | the conditions on random sources can be met |
| Instances.TakeoverInstance | internal/provider/models.go:696-703 | a cluster with the server "c" grows by "a" and "b": both plans are accepted and expand, and the bootstrap role moves to "a" |
| Instances.RespelledFails | internal/provider/validators.go:194-200 | for any second spelling of an address: a plan that names one host twice is accepted, an undisturbed apply on new machines reports success, and not all nodes are at their targets |
| Instances.NamesakeAccepted | internal/provider/models.go:344-348 | for any two addresses: an agent named `node-1` beside a server without a hostname is accepted, and both get that K3s name |
| Instances.SharedKeyExpands | internal/provider/validators.go:219-239 | for any key: a plan whose two admin peers bring it is accepted and expands, and the server holds two sections with that key |

## Left out

- SSH dialing, SFTP, host keys and authentication: a remote command succeeds, fails, is lost or goes unseen, and an upload replaces a file whole or not at all.
- Terraform schemas and diagnostics: option types and lists of errors stand for them.
- Curve25519, base64 and randomness: key generation is a supply with the one key-pair fact, and a failed draw is an error.
- `net.ParseCIDR` and IPv6 text: parameters, as described above.
- K3s.RenderK3sConfig: config.yaml is a list of keys and values. A YAML reader is taken to drop blanks in front of a colon (`K3s.ReadKey`); keys that are not plain words are not read further but counted as unfit, `%q` quoting is not modelled, and K3s's short names for options are not known.
- WireGuard.RenderNodeConf: a conf is a record; its text, the keepalive and the comment with the peer's name are not modelled.
- K3s.InstallIdle: the install script is taken to leave a running service alone and to start a stopped one; package lists and the channel are not modelled.
- WireGuard.NeedsRestartIff: the parts of `ip` output that the interface does not determine are a parameter (`WireGuard.LinkEnv`), and one IPv4 address is live on the interface.
- WireGuard.ConfigureInPlace: kernel routes after `wg syncconf` are not claimed.
- Mesh.RulesAdmitPeers: admin peers have no UFW rule of their own, and their reachability is not claimed.
- FirewallRuns.ChainCut: `ufw reset` is taken to clear the rules and to deactivate UFW, and `enable` to enforce the rules collected.
- HostsFile.PythonStringFaithfulIff: Python's escapes are not modelled, so text with a backslash is outside its precondition; node texts of accepted plans hold none.
- Apply.RunKeepsBarriers: `configureNodeSystem`, addons and the kubeconfig download are one step each in a run; the resolv.conf step is modelled on its own in `ResolvConf`, the sysctl file and the addon commands are not.
- Deployment.OwnMachinesIff: one address leads to one machine and different addresses to different ones; a host that has an IPv4 and an IPv6 address of its own is not covered.
- Changes.ChangesConverge: roles are fixed to machines over the series, because of `Convergence.OnlyOwnIff`.
- Deployment.UpdateTrusted: an update that turns the firewall on is covered by `Changes.ChangesConverge`, which also knows what the marker recorded before.
- Models.ExpandClusterConfig: the firewall, dns and k3s blocks are taken with their defaults applied; addons, sysctl and the merge of disabled components are not modelled.
- Validators.ValidatePlan: the dns, sysctl and Traefik checks behind the addressing check (`validators.go:240-245`) are not modelled.
- WireGuard.RenderAdminConf: as for `WireGuard.RenderNodeConf`, a conf is a record without keepalive and comments.
- Fleets.Fleet.FinishRun: addons and the kubeconfig download are one step each that may fail; that the downloaded file is pointed at the server URL (`k3s.go:184-196`) is not modelled.
- Models.ClusterToState: the admin configuration texts and the addon status in state are not modelled.
- Lifecycle.DeleteReachesTheSameNodes: the best-effort stop commands of Delete ignore all failures and are not modelled beyond the nodes they reach.

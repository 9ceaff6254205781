/** What the allocator promises, proved about its specification `Ipam.Assign`. */
module AllocatorLaws {
  import opened Wrappers
  import opened Text
  import opened Addresses
  import opened Ordering
  import opened Ipam

  function SubnetOf(cidr: Cidr): (sub: Subnet)
    requires cidr.V4Cidr?
    ensures IsSubnet(sub)
  {
    NetworkIsSubnet(cidr.addr, cidr.ones);
    Subnet(Network(cidr.addr, cidr.ones), cidr.ones)
  }

  // -------------------------------------------------------------- soundness

  /** `text` prints a host address of the subnet: neither the network nor the broadcast address. */
  ghost predicate IsHost(sub: Subnet, text: string) {
    exists a: Addr :: text == Dotted(a) && InSubnet(sub.net, sub.ones, a)
                      && a != sub.net && a != sub.net + Size(sub.ones) - 1
  }

  /** Exactly the given names are assigned, all to host addresses of the subnet. */
  ghost predicate AllHosts(sub: Subnet, m: map<string, string>, names: seq<string>) {
    m.Keys == (set n | n in names) && forall n :: n in m ==> IsHost(sub, m[n])
  }

  predicate Injective(m: map<string, string>) { forall p, q :: p in m && q in m && p != q ==> m[p] != m[q] }

  predicate Kept(m: map<string, string>, req: map<string, string>, lib: NetLib) {
    forall p :: p in m && Lookup(req, p) != "" ==>
      ParseIP(Lookup(req, p), lib).Some? && ParseIP(Lookup(req, p), lib).value.V4? && m[p] == Dotted(ParseIP(Lookup(req, p), lib).value.addr)
  }

  ghost predicate SoundAssignment(out: Assignments, sub: Subnet, nodes: seq<string>, admins: seq<string>, req: map<string, string>, lib: NetLib) {
    && AllHosts(sub, out.nodeIPs, nodes) && AllHosts(sub, out.adminIPs, admins)
    // no address is used twice
    && Injective(out.nodeIPs) && Injective(out.adminIPs)
    && (forall n, p :: n in out.nodeIPs && p in out.adminIPs ==> out.nodeIPs[n] != out.adminIPs[p])
    // fixed requests are honoured
    && Kept(out.adminIPs, req, lib)
  }

  /** `m` gives each name the text of its offset. */
  ghost predicate Placed(m: map<string, string>, names: seq<string>, net: Addr, offs: seq<nat>) {
    && |offs| == |names| && Below(net, offs)
    && m.Keys == (set n | n in names)
    && (forall i :: 0 <= i < |names| ==> m[names[i]] == Dotted(net + offs[i]))
  }

  function NodeOffsets(n: nat): (offs: seq<nat>)
    ensures |offs| == n && forall i :: 0 <= i < n ==> offs[i] == i + 1
  {
    seq(n, i => i + 1)
  }

  lemma ZipPlaced(names: seq<string>, net: Addr, offs: seq<nat>, texts: seq<string>)
    requires Distinct(names) && |offs| == |names| && Below(net, offs) && |texts| == |names|
    requires forall i :: 0 <= i < |names| ==> texts[i] == Dotted(net + offs[i])
    ensures Placed(ZipMap(names, texts), names, net, offs)
  {
    hide Dotted, ZipMap;
    forall i | 0 <= i < |names| ensures ZipMap(names, texts)[names[i]] == Dotted(net + offs[i]) {
      ZipMapAt(names, texts, i);
    }
  }

  lemma PlacedDistinct(m: map<string, string>, names: seq<string>, net: Addr, offs: seq<nat>, p: string, q: string)
    requires Placed(m, names, net, offs) && p in names && q in names && p != q
    requires forall i, j :: 0 <= i < j < |offs| ==> offs[i] != offs[j]
    ensures m[p] != m[q]
  {
    hide Dotted;
    var i :| 0 <= i < |names| && names[i] == p;
    var j :| 0 <= j < |names| && names[j] == q;
    if m[p] == m[q] { DottedInjective(net + offs[i], net + offs[j]); }
  }

  lemma PlacedApart(m: map<string, string>, names: seq<string>, offs: seq<nat>, m': map<string, string>, names': seq<string>, offs': seq<nat>, net: Addr, p: string, q: string)
    requires Placed(m, names, net, offs) && Placed(m', names', net, offs') && p in names && q in names'
    requires forall i, j :: 0 <= i < |offs| && 0 <= j < |offs'| ==> offs[i] != offs'[j]
    ensures m[p] != m'[q]
  {
    hide Dotted;
    var i :| 0 <= i < |names| && names[i] == p;
    var j :| 0 <= j < |names'| && names'[j] == q;
    if m[p] == m'[q] { DottedInjective(net + offs[i], net + offs'[j]); }
  }

  lemma PlacedHosts(m: map<string, string>, names: seq<string>, sub: Subnet, offs: seq<nat>, p: string)
    requires IsSubnet(sub) && sub.ones <= 31 && Placed(m, names, sub.net, offs) && p in names
    requires forall i :: 0 <= i < |offs| ==> 1 <= offs[i] <= Usable(sub.ones)
    ensures IsHost(sub, m[p])
  {
    hide Dotted, IsHost;
    var i :| 0 <= i < |names| && names[i] == p;
    HostOffset(sub, offs[i]);
  }

  /** The offsets behind a successful allocation. */
  lemma AssignedValues(cidr: Cidr, nodes: seq<string>, admins: seq<string>, req: map<string, string>, lib: NetLib)
    returns (offs: seq<nat>)
    requires cidr.V4Cidr? && Distinct(nodes) && Distinct(admins)
    requires Assign(cidr, nodes, admins, req, lib).Ok?
    ensures var sub, out := SubnetOf(cidr), Assign(cidr, nodes, admins, req, lib).value;
            && AdminOffsets(sub, |nodes|, admins, req, lib) == Ok(offs)
            && OffsetsSound(sub, |nodes|, offs)
            && |nodes| + |admins| <= Usable(cidr.ones)
            && Placed(out.nodeIPs, nodes, sub.net, NodeOffsets(|nodes|))
            && Placed(out.adminIPs, admins, sub.net, offs)
  {
    hide Dotted, AdminOffsets, ZipMap, Placed;
    var sub := SubnetOf(cidr);
    offs := AdminOffsets(sub, |nodes|, admins, req, lib).value;
    AdminOffsetsSound(sub, |nodes|, admins, req, lib);
    var n := |nodes|;
    assert Below(sub.net, NodeOffsets(n));
    forall i | 0 <= i < n ensures NodeTexts(sub.net, n)[i] == Dotted(sub.net + NodeOffsets(n)[i]) {
      assert sub.net + (i + 1) == sub.net + i + 1;
    }
    ZipPlaced(nodes, sub.net, NodeOffsets(n), NodeTexts(sub.net, n));
    ZipPlaced(admins, sub.net, offs, OffsetTexts(sub.net, offs));
  }

  lemma HostOffset(sub: Subnet, off: nat)
    requires IsSubnet(sub) && sub.ones <= 31 && 1 <= off <= Usable(sub.ones)
    ensures sub.net + off < TWO_32 && IsHost(sub, Dotted(sub.net + off))
  {
    hide Dotted, BlockStart, Pow2;
    SizeRange(sub.ones);
    SubnetBounds(sub.net, sub.ones);
    assert InSubnet(sub.net, sub.ones, sub.net + off);
  }

  /** Each request that was fixed is met by the offset it stands for. */
  lemma {:induction false} RequestsHonoured(sub: Subnet, n: nat, names: seq<string>, req: map<string, string>, lib: NetLib, k: nat)
    requires IsSubnet(sub) && AdminOffsets(sub, n, names, req, lib).Ok? && k < |names|
    requires Lookup(req, names[k]) != ""
    ensures var off := AdminOffsets(sub, n, names, req, lib).value[k];
            sub.net + off < TWO_32 && ParseIP(Lookup(req, names[k]), lib) == Some(V4(sub.net + off))
    decreases |names|
  {
    var m := |names| - 1;
    if k < m {
      RequestsHonoured(sub, n, names[..m], req, lib, k);
    } else {
      ChooseSound(sub, n, AdminOffsets(sub, n, names[..m], req, lib).value, names[m], Lookup(req, names[m]), lib);
    }
  }

  /** Fixed requests are met as they were asked for. */
  lemma RequestsMet(cidr: Cidr, nodes: seq<string>, admins: seq<string>, req: map<string, string>, lib: NetLib, p: string)
    requires cidr.V4Cidr? && Distinct(nodes) && Distinct(admins) && p in admins && Lookup(req, p) != ""
    requires Assign(cidr, nodes, admins, req, lib).Ok?
    ensures var out := Assign(cidr, nodes, admins, req, lib).value;
            p in out.adminIPs && exists a: Addr :: ParseIP(Lookup(req, p), lib) == Some(V4(a)) && out.adminIPs[p] == Dotted(a)
  {
    hide Dotted, ParseIP, AdminOffsets, Assign;
    var offs := AssignedValues(cidr, nodes, admins, req, lib);
    var k :| 0 <= k < |admins| && admins[k] == p;
    RequestsHonoured(SubnetOf(cidr), |nodes|, admins, req, lib, k);
  }

  lemma AllocatorSound(cidr: Cidr, nodes: seq<string>, admins: seq<string>, req: map<string, string>, lib: NetLib)
    requires cidr.V4Cidr? && cidr.ones <= 31 && Distinct(nodes) && Distinct(admins)
    requires Assign(cidr, nodes, admins, req, lib).Ok?
    ensures SoundAssignment(Assign(cidr, nodes, admins, req, lib).value, SubnetOf(cidr), nodes, admins, req, lib)
  {
    hide Dotted, ParseIP, AdminOffsets, Assign, IsHost;
    var sub, out := SubnetOf(cidr), Assign(cidr, nodes, admins, req, lib).value;
    var offs := AssignedValues(cidr, nodes, admins, req, lib);
    var nodeOffs := NodeOffsets(|nodes|);
    forall n | n in nodes ensures IsHost(sub, out.nodeIPs[n]) { PlacedHosts(out.nodeIPs, nodes, sub, nodeOffs, n); }
    forall p | p in admins ensures IsHost(sub, out.adminIPs[p]) { PlacedHosts(out.adminIPs, admins, sub, offs, p); }
    forall m, n | m in nodes && n in nodes && m != n ensures out.nodeIPs[m] != out.nodeIPs[n] {
      PlacedDistinct(out.nodeIPs, nodes, sub.net, nodeOffs, m, n);
    }
    forall p, q | p in admins && q in admins && p != q ensures out.adminIPs[p] != out.adminIPs[q] {
      PlacedDistinct(out.adminIPs, admins, sub.net, offs, p, q);
    }
    forall n, p | n in nodes && p in admins ensures out.nodeIPs[n] != out.adminIPs[p] {
      PlacedApart(out.nodeIPs, nodes, nodeOffs, out.adminIPs, admins, offs, sub.net, n, p);
    }
    forall p | p in admins && Lookup(req, p) != ""
      ensures exists a: Addr :: ParseIP(Lookup(req, p), lib) == Some(V4(a)) && out.adminIPs[p] == Dotted(a)
    {
      RequestsMet(cidr, nodes, admins, req, lib, p);
    }
  }

  /**
   The host-address guarantee holds exactly for prefixes up to /31, or when no node is placed:
   for a /32 the host count wraps around, the capacity check passes, and node addresses
   leave the subnet.
   */
  lemma NodesInSubnetIff(cidr: Cidr, nodes: seq<string>, admins: seq<string>, req: map<string, string>, lib: NetLib)
    requires cidr.V4Cidr? && Distinct(nodes) && Distinct(admins)
    requires Assign(cidr, nodes, admins, req, lib).Ok?
    ensures (forall n :: n in nodes ==> IsHost(SubnetOf(cidr), Assign(cidr, nodes, admins, req, lib).value.nodeIPs[n]))
            <==> cidr.ones <= 31 || nodes == []
  {
    hide Dotted, AdminOffsets, Assign, BlockStart, Pow2;
    var sub := SubnetOf(cidr);
    if cidr.ones <= 31 {
      AllocatorSound(cidr, nodes, admins, req, lib);
    } else if nodes != [] {
      SizeRange(sub.ones);
      SubnetBounds(sub.net, sub.ones);
      assert nodes[0] in nodes;
      assert forall a: Addr :: InSubnet(sub.net, sub.ones, a) <==> a == sub.net;
    }
  }

  /** Without admin peers allocation succeeds exactly when the capacity check passes and the addresses stay below 2^32. */
  lemma NodesAllocateIff(addr: Addr, ones: Ones, nodes: seq<string>, req: map<string, string>, lib: NetLib)
    ensures Assign(V4Cidr(addr, ones), nodes, [], req, lib).Ok?
            <==> |nodes| <= Usable(ones) && Network(addr, ones) + |nodes| < TWO_32
  {
    hide Dotted, BlockStart, Pow2, Usable;
    AdminNone(Subnet(Network(addr, ones), ones), |nodes|, req, lib);
  }

  /**
   The /32 gap is reachable: such a subnet allocates for any nodes that stay below 2^32, and then
   not all of them get host addresses of the subnet.
   */
  lemma Slash32Allocates(addr: Addr, nodes: seq<string>, req: map<string, string>, lib: NetLib)
    requires nodes != [] && Distinct(nodes) && addr + |nodes| < TWO_32
    ensures Assign(V4Cidr(addr, 32), nodes, [], req, lib).Ok?
    ensures var out := Assign(V4Cidr(addr, 32), nodes, [], req, lib).value;
            exists n :: n in nodes && !IsHost(SubnetOf(V4Cidr(addr, 32)), out.nodeIPs[n])
  {
    hide Assign, IsHost, BlockStart, Pow2;
    SizeRange(32);
    SubnetBounds(addr, 32);
    NodesAllocateIff(addr, 32, nodes, req, lib);
    NodesInSubnetIff(V4Cidr(addr, 32), nodes, [], req, lib);
  }

  // ------------------------------------------------------------- pigeonhole

  /** The offsets lo+1 .. hi. */
  ghost function Span(lo: nat, hi: nat): (s: set<nat>)
    requires lo <= hi
    ensures |s| == hi - lo && forall x :: x in s <==> lo < x <= hi
  {
    if lo == hi then {} else Span(lo, hi - 1) + {hi}
  }

  ghost function Elements(s: seq<nat>): set<nat> { set x | x in s }

  lemma {:induction false} ElementCount(s: seq<nat>)
    ensures |Elements(s)| <= |s|
  {
    if s != [] {
      ElementCount(s[1..]);
      assert Elements(s) == {s[0]} + Elements(s[1..]);
    }
  }

  lemma {:induction false} CardinalityMonotone(a: set<nat>, b: set<nat>)
    requires a <= b
    ensures |a| <= |b|
    decreases a
  {
    if a != {} {
      var x :| x in a;
      CardinalityMonotone(a - {x}, b - {x});
    }
  }

  /** Fewer earlier peers than offsets above the node block leave one of those offsets free. */
  lemma FreeExists(usable: nat, n: nat, prev: seq<nat>)
    requires n + |prev| < usable
    ensures TopFree(usable, n, prev) > n
  {
    ElementCount(prev);
    if TopFree(usable, n, prev) <= n {
      forall x | x in Span(n, usable) ensures x in Elements(prev) {
        assert !Free(n, prev, x);
      }
      CardinalityMonotone(Span(n, usable), Elements(prev));
    }
  }

  /** A request fits when it is absent, or names a host address that is not taken yet. */
  predicate RequestFits(sub: Subnet, n: nat, prev: seq<nat>, text: string, lib: NetLib) {
    text != "" ==>
      && RequestedOffset(sub, text, lib).Some?
      && Free(n, prev, RequestedOffset(sub, text, lib).value)
      && RequestedOffset(sub, text, lib).value != Size(sub.ones) - 1
  }

  lemma ChooseOkIff(sub: Subnet, n: nat, prev: seq<nat>, name: string, text: string, lib: NetLib)
    requires IsSubnet(sub) && sub.ones <= 31 && n + |prev| < Usable(sub.ones)
    ensures Choose(sub, n, prev, name, text, lib).Ok? <==> RequestFits(sub, n, prev, text, lib)
    ensures Choose(sub, n, prev, name, text, lib).Err? ==>
              Choose(sub, n, prev, name, text, lib).error in {Outside(name), Taken(name)}
  {
    hide BlockStart, Pow2, ParseIP;
    SizeRange(sub.ones);
    SubnetBounds(sub.net, sub.ones);
    FreeExists(Usable(sub.ones), n, prev);
  }

  /** Every peer met before the first failure has a fitting request. */
  ghost predicate AllFit(sub: Subnet, n: nat, names: seq<string>, req: map<string, string>, lib: NetLib) {
    forall k :: 0 <= k < |names| && AdminOffsets(sub, n, names[..k], req, lib).Ok? ==>
      RequestFits(sub, n, AdminOffsets(sub, n, names[..k], req, lib).value, Lookup(req, names[k]), lib)
  }

  lemma AllFitStep(sub: Subnet, n: nat, names: seq<string>, req: map<string, string>, lib: NetLib)
    ensures names == [] ==> AllFit(sub, n, names, req, lib)
    ensures names != [] ==>
              var m := |names| - 1;
              var before := AdminOffsets(sub, n, names[..m], req, lib);
              AllFit(sub, n, names, req, lib)
              <==> AllFit(sub, n, names[..m], req, lib) && (before.Ok? ==> RequestFits(sub, n, before.value, Lookup(req, names[m]), lib))
  {
    hide RequestFits, AdminOffsets;
    if names != [] {
      var m := |names| - 1;
      assert forall k :: 0 <= k <= m ==> names[..m][..k] == names[..k];
    }
  }

  ghost predicate RequestError(e: AllocError, names: seq<string>, req: map<string, string>) {
    && (e.Outside? || e.Taken?)
    && e.peer in names && Lookup(req, e.peer) != ""
  }

  lemma {:induction false} AdminOffsetsOkIff(sub: Subnet, n: nat, names: seq<string>, req: map<string, string>, lib: NetLib)
    requires IsSubnet(sub) && sub.ones <= 31 && n + |names| <= Usable(sub.ones)
    ensures AdminOffsets(sub, n, names, req, lib).Ok? <==> AllFit(sub, n, names, req, lib)
    ensures AdminOffsets(sub, n, names, req, lib).Err? ==>
              RequestError(AdminOffsets(sub, n, names, req, lib).error, names, req)
    decreases |names|
  {
    hide RequestFits, Choose, AllFit, IsSubnet, Size, Usable;
    AllFitStep(sub, n, names, req, lib);
    if names != [] {
      var m := |names| - 1;
      var front := names[..m];
      AdminOffsetsOkIff(sub, n, front, req, lib);
      if AdminOffsets(sub, n, front, req, lib).Ok? {
        var prev := AdminOffsets(sub, n, front, req, lib).value;
        ChooseOkIff(sub, n, prev, names[m], Lookup(req, names[m]), lib);
        AutoNeverRefused(sub, n, prev, names[m], lib);
      }
    }
  }

  /** A peer without a request is always served: the branch "no free IP available" is dead. */
  lemma AutoNeverRefused(sub: Subnet, n: nat, prev: seq<nat>, name: string, lib: NetLib)
    requires IsSubnet(sub) && sub.ones <= 31 && n + |prev| < Usable(sub.ones)
    ensures Choose(sub, n, prev, name, "", lib).Ok?
  {
    ChooseOkIff(sub, n, prev, name, "", lib);
  }

  /**
   Past the capacity check the allocator fails exactly when some fixed request does not fit,
   and the error names a peer with a fixed request.  In particular it never reports that no
   address is free and never panics.
   */
  lemma AllocatesIff(cidr: Cidr, nodes: seq<string>, admins: seq<string>, req: map<string, string>, lib: NetLib)
    requires cidr.V4Cidr? && cidr.ones <= 31 && |nodes| + |admins| <= Usable(cidr.ones)
    ensures Assign(cidr, nodes, admins, req, lib).Ok? <==> AllFit(SubnetOf(cidr), |nodes|, admins, req, lib)
    ensures Assign(cidr, nodes, admins, req, lib).Err? ==>
              RequestError(Assign(cidr, nodes, admins, req, lib).error, admins, req)
  {
    hide AllFit, RequestError, AdminOffsets, BlockStart, Pow2;
    SizeRange(cidr.ones);
    SubnetBounds(SubnetOf(cidr).net, cidr.ones);
    AdminOffsetsOkIff(SubnetOf(cidr), |nodes|, admins, req, lib);
  }

  // ------------------------------------------- admin peers ignore the nodes

  lemma TopFreeIgnoresNodes(usable: nat, n1: nat, n2: nat, prev: seq<nat>)
    requires n1 + |prev| < usable && n2 + |prev| < usable
    ensures TopFree(usable, n1, prev) == TopFree(usable, n2, prev)
  {
    FreeExists(usable, n1, prev);
    FreeExists(usable, n2, prev);
    var t1, t2 := TopFree(usable, n1, prev), TopFree(usable, n2, prev);
    if t1 < t2 { assert Free(n1, prev, t2); }
    if t2 < t1 { assert Free(n2, prev, t1); }
  }

  lemma {:induction false} OffsetsIgnoreNodes(sub: Subnet, n1: nat, n2: nat, names: seq<string>, req: map<string, string>, lib: NetLib)
    requires n1 + |names| <= Usable(sub.ones) && n2 + |names| <= Usable(sub.ones)
    requires AdminOffsets(sub, n1, names, req, lib).Ok? && AdminOffsets(sub, n2, names, req, lib).Ok?
    ensures AdminOffsets(sub, n1, names, req, lib) == AdminOffsets(sub, n2, names, req, lib)
    decreases |names|
  {
    if names != [] {
      var m := |names| - 1;
      OffsetsIgnoreNodes(sub, n1, n2, names[..m], req, lib);
      TopFreeIgnoresNodes(Usable(sub.ones), n1, n2, AdminOffsets(sub, n1, names[..m], req, lib).value);
    }
  }

  /** Two node lists that both allocate give every admin peer the same address. */
  lemma AdminAddressesIgnoreNodes(cidr: Cidr, nodes1: seq<string>, nodes2: seq<string>, admins: seq<string>, req: map<string, string>, lib: NetLib)
    requires cidr.V4Cidr?
    requires Assign(cidr, nodes1, admins, req, lib).Ok? && Assign(cidr, nodes2, admins, req, lib).Ok?
    ensures Assign(cidr, nodes1, admins, req, lib).value.adminIPs == Assign(cidr, nodes2, admins, req, lib).value.adminIPs
  {
    hide Dotted, AdminOffsets, ZipMap, NodeTexts;
    OffsetsIgnoreNodes(SubnetOf(cidr), |nodes1|, |nodes2|, admins, req, lib);
  }

  // --------------------------------------------------------------- rank laws

  /** The offsets usable, usable-1, ... */
  function TopDown(usable: nat, count: nat): (offs: seq<nat>)
    requires count <= usable
    ensures |offs| == count && forall k :: 0 <= k < count ==> offs[k] == usable - k
  {
    seq(count, k requires 0 <= k < count => usable - k)
  }

  /** Without fixed requests the admin peers take usable, usable-1, ... in order. */
  lemma {:induction false} AutoOffsets(sub: Subnet, n: nat, names: seq<string>, req: map<string, string>, lib: NetLib)
    requires IsSubnet(sub) && sub.ones <= 31 && n + |names| <= Usable(sub.ones)
    requires forall k :: 0 <= k < |names| ==> Lookup(req, names[k]) == ""
    ensures AdminOffsets(sub, n, names, req, lib) == Ok(TopDown(Usable(sub.ones), |names|))
    decreases |names|
  {
    hide BlockStart, Pow2;
    if names != [] {
      var m := |names| - 1;
      var prev := TopDown(Usable(sub.ones), m);
      AutoOffsets(sub, n, names[..m], req, lib);
      SizeRange(sub.ones);
      SubnetBounds(sub.net, sub.ones);
      TopAfter(Usable(sub.ones), n, prev, Usable(sub.ones));
      assert prev + [Usable(sub.ones) - m] == TopDown(Usable(sub.ones), m + 1);
    } else {
      assert TopDown(Usable(sub.ones), 0) == [];
    }
  }

  lemma {:induction false} OffsetsPrefix(sub: Subnet, n: nat, names: seq<string>, req: map<string, string>, lib: NetLib, k: nat)
    requires k <= |names| && AdminOffsets(sub, n, names, req, lib).Ok?
    ensures AdminOffsets(sub, n, names[..k], req, lib) == Ok(AdminOffsets(sub, n, names, req, lib).value[..k])
    decreases |names|
  {
    hide Choose;
    if k < |names| {
      var front := names[..|names| - 1];
      assert front[..k] == names[..k];
      OffsetsPrefix(sub, n, front, req, lib, k);
      var prev := AdminOffsets(sub, n, front, req, lib).value;
      assert (prev + [AdminOffsets(sub, n, names, req, lib).value[|prev|]])[..k] == prev[..k];
    } else {
      assert names[..k] == names;
      var offs := AdminOffsets(sub, n, names, req, lib).value;
      assert offs[..k] == offs;
    }
  }

  lemma {:induction false} NeverTooSmall(sub: Subnet, n: nat, names: seq<string>, req: map<string, string>, lib: NetLib)
    ensures AdminOffsets(sub, n, names, req, lib).Err? ==> !AdminOffsets(sub, n, names, req, lib).error.TooSmall?
    decreases |names|
  {
    hide BlockStart, Pow2, ParseIP, TopFree;
    if names != [] { NeverTooSmall(sub, n, names[..|names| - 1], req, lib); }
  }

  /** A prefix of up to 31 bits leaves room for two to the power of the other bits, less two; more is refused. */
  lemma CapacityIff(addr: Addr, ones: Ones, nodes: seq<string>, admins: seq<string>, req: map<string, string>, lib: NetLib)
    requires ones <= 31
    ensures var need, room := |nodes| + |admins|, Pow2(32 - ones) - 2;
            need > room <==> Assign(V4Cidr(addr, ones), nodes, admins, req, lib) == Err(TooSmall(room, need))
  {
    hide Pow2, AdminOffsets, BlockStart;
    SizeRange(ones);
    NeverTooSmall(Subnet(Network(addr, ones), ones), |nodes|, admins, req, lib);
  }

  /** As long as no peer asks for an address, peer k gets the k-th host address from the top of the subnet. */
  lemma AutoAddress(cidr: Cidr, nodes: seq<string>, admins: seq<string>, req: map<string, string>, lib: NetLib, k: nat)
    requires cidr.V4Cidr? && cidr.ones <= 31 && Distinct(nodes) && Distinct(admins)
    requires k < |admins| && forall j :: 0 <= j <= k ==> Lookup(req, admins[j]) == ""
    requires Assign(cidr, nodes, admins, req, lib).Ok?
    ensures var off := Pow2(32 - cidr.ones) - 2 - k;
            off > 0 && HasOffset(Assign(cidr, nodes, admins, req, lib).value.adminIPs, admins[k], SubnetOf(cidr), off)
  {
    hide Assign, AdminOffsets, Pow2, BlockStart, Dotted;
    var sub := SubnetOf(cidr);
    var offs := AssignedValues(cidr, nodes, admins, req, lib);
    SizeRange(cidr.ones);
    NetworkIsSubnet(cidr.addr, cidr.ones);
    OffsetsPrefix(sub, |nodes|, admins, req, lib, k + 1);
    AutoOffsets(sub, |nodes|, admins[..k + 1], req, lib);
    assert offs[..k + 1][k] == Usable(sub.ones) - k;
    PlacedOffset(Assign(cidr, nodes, admins, req, lib).value.adminIPs, admins, sub, offs, k);
  }

  /** With the top |prev| offsets taken in order, the next one down is the greatest free one. */
  lemma {:induction false} TopAfter(usable: nat, n: nat, prev: seq<nat>, from: nat)
    requires n + |prev| < usable && usable - |prev| <= from <= usable
    requires forall k :: 0 <= k < |prev| ==> prev[k] == usable - k
    ensures TopFree(from, n, prev) == usable - |prev|
    decreases from
  {
    if from > usable - |prev| {
      assert prev[usable - from] == from;
      TopAfter(usable, n, prev, from - 1);
    }
  }

  /** `m` gives `x` the address at the given offset. */
  predicate HasOffset(m: map<string, string>, x: string, sub: Subnet, off: nat) {
    x in m && sub.net + off < TWO_32 && m[x] == Dotted(sub.net + off)
  }

  lemma PlacedOffset(m: map<string, string>, names: seq<string>, sub: Subnet, offs: seq<nat>, i: nat)
    requires Placed(m, names, sub.net, offs) && i < |names|
    ensures HasOffset(m, names[i], sub, offs[i])
  {
  }

  /** A node's offset is one more than the number of identities that sort before it. */
  lemma NodeOffsetIsRank(cidr: Cidr, ids: seq<string>, admins: seq<string>, req: map<string, string>, lib: NetLib, x: string)
    requires cidr.V4Cidr? && Distinct(ids) && Distinct(admins) && x in ids
    requires Assign(cidr, SortStrings(ids), admins, req, lib).Ok?
    ensures HasOffset(Assign(cidr, SortStrings(ids), admins, req, lib).value.nodeIPs, x, SubnetOf(cidr), Rank(x, ids) + 1)
  {
    hide Dotted, Assign, AdminOffsets, Placed, HasOffset, SortStrings;
    var s := SortStrings(ids);
    SortDistinct(ids);
    SameElements(ids, x);
    var i :| 0 <= i < |s| && s[i] == x;
    IndexIsRank(s, i);
    RankSort(x, ids);
    var _ := AssignedValues(cidr, s, admins, req, lib);
    PlacedOffset(Assign(cidr, s, admins, req, lib).value.nodeIPs, s, SubnetOf(cidr), NodeOffsets(|s|), i);
  }

  lemma RankOfSame(x: string, a: seq<string>, b: seq<string>)
    requires multiset(a) == multiset(b)
    ensures Rank(x, a) == Rank(x, b)
  {
    RankSort(x, a);
    RankSort(x, b);
    SortedUnique(SortStrings(a), SortStrings(b));
  }

  /**
   Adding one identity, wherever it appears in the plan, keeps the address of every
   smaller identity and moves every larger one up by exactly one.
   */
  lemma AddingOneNode(cidr: Cidr, ids: seq<string>, more: seq<string>, y: string, admins: seq<string>, req: map<string, string>, lib: NetLib, x: string)
    requires cidr.V4Cidr? && Distinct(ids) && Distinct(more) && Distinct(admins) && x in ids
    requires multiset(more) == multiset(ids) + multiset{y}
    requires Assign(cidr, SortStrings(ids), admins, req, lib).Ok? && Assign(cidr, SortStrings(more), admins, req, lib).Ok?
    ensures HasOffset(Assign(cidr, SortStrings(ids), admins, req, lib).value.nodeIPs, x, SubnetOf(cidr), Rank(x, ids) + 1)
    ensures HasOffset(Assign(cidr, SortStrings(more), admins, req, lib).value.nodeIPs, x, SubnetOf(cidr),
                      Rank(x, ids) + (if Less(y, x) then 2 else 1))
  {
    hide Dotted, Assign, HasOffset, SortStrings, Rank, Less, SubnetOf;
    RankOfMore(x, y, ids, more);
    NodeOffsetIsRank(cidr, ids, admins, req, lib, x);
    NodeOffsetIsRank(cidr, more, admins, req, lib, x);
  }

  /** One more element changes the rank of the elements above it only. */
  lemma RankOfMore(x: string, y: string, ids: seq<string>, more: seq<string>)
    requires multiset(more) == multiset(ids) + multiset{y} && x in ids
    ensures x in more && Rank(x, more) == Rank(x, ids) + (if Less(y, x) then 1 else 0)
  {
    hide Rank, Less;
    assert x in multiset(more);
    RankOfSame(x, more, [y] + ids);
    RankCons(x, y, ids);
  }

  lemma RankCons(x: string, y: string, s: seq<string>)
    ensures Rank(x, [y] + s) == Rank(x, s) + (if Less(y, x) then 1 else 0)
  {
    assert ([y] + s)[1..] == s;
  }

  /** An instance, in any /24: node "b" alone has the first address, and the second once "a" is added. */
  lemma AddingMoves(addr: Addr, req: map<string, string>, lib: NetLib)
    ensures var before, after := Assign(V4Cidr(addr, 24), SortStrings(["b"]), [], req, lib), Assign(V4Cidr(addr, 24), SortStrings(["b", "a"]), [], req, lib);
            && before.Ok? && HasOffset(before.value.nodeIPs, "b", SubnetOf(V4Cidr(addr, 24)), 1)
            && after.Ok? && HasOffset(after.value.nodeIPs, "b", SubnetOf(V4Cidr(addr, 24)), 2)
  {
    hide Dotted, Assign, HasOffset, SortStrings, BlockStart, Pow2, SubnetOf;
    SizeRange(24);
    SubnetBounds(addr, 24);
    UsableOf24();
    NodesAllocateIff(addr, 24, SortStrings(["b"]), req, lib);
    NodesAllocateIff(addr, 24, SortStrings(["b", "a"]), req, lib);
    assert ["b", "a"] == ["b"] + ["a"];
    assert Less("a", "b") && Rank("b", []) == 0 && !Less("b", "b");
    assert Rank("b", ["b"]) == 0;
    AddingOneNode(V4Cidr(addr, 24), ["b"], ["b", "a"], "a", [], req, lib, "b");
  }

  lemma UsableOf24()
    ensures Usable(24) == 254
  {
    assert Pow2(8) == 256;
  }
}

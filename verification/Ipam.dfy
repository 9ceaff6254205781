/**
 The WireGuard address allocator.  Nodes take the offsets 1, 2, ... from the bottom of the
 subnet; admin peers take a fixed requested address or the greatest free offset.
 The program keeps the used addresses as dotted-decimal text; the specification below
 works on offsets.
 */
module Ipam {
  import opened Wrappers
  import opened Text
  import opened Addresses

  const TWO_64: nat := 0x1_0000_0000_0000_0000

  datatype AllocError =
    | InvalidCidr
    | NotAnIPv4Cidr
    | TooSmall(usable: nat, need: nat)
    | Outside(peer: string)
    | Taken(peer: string)
    | NoFreeIP(peer: string)
    | Panic

  datatype Assignments = Assignments(nodeIPs: map<string, string>, adminIPs: map<string, string>)

  // ----------------------------------------------------------- subnet arithmetic

  function Pow2(k: nat): (p: nat)
    ensures p > 0
  {
    if k == 0 then 1 else 2 * Pow2(k - 1)
  }

  /** The number of addresses in a subnet with the given prefix length. */
  function Size(ones: Ones): (size: nat)
    ensures size > 0
  {
    Pow2(32 - ones)
  }

  /** The greatest multiple of `size` not above `a`. */
  function BlockStart(a: nat, size: nat): (start: nat)
    requires size > 0
    ensures start <= a
  {
    DivMod(a, size);
    a / size * size
  }

  lemma DivMod(a: nat, size: nat)
    requires size > 0
    ensures a == a / size * size + a % size && 0 <= a / size * size && 0 <= a % size < size
  {
    assert a / size >= 0;
    MulMonotone(0, a / size, size);
  }

  /** The masked address: the low bits outside the prefix cleared. */
  function Network(addr: Addr, ones: Ones): Addr { BlockStart(addr, Size(ones)) }

  /** `(uint64(1) << (32-ones)) - 2`, which wraps around for a /32. */
  function Usable(ones: Ones): nat { (Size(ones) - 2) % TWO_64 }

  /** `network.Contains(ip)`. */
  predicate InSubnet(net: Addr, ones: Ones, a: Addr) { Network(a, ones) == net }

  lemma MoveFactor(a: int, b: int)
    ensures (2 * a) * b == a * (2 * b)
  {
  }

  lemma {:induction false} Pow2Split(k: nat)
    requires k <= 32
    ensures Pow2(32 - k) * Pow2(k) == TWO_32
  {
    if k == 0 {
      assert Pow2(8) == 256;
      assert Pow2(16) == 65536;
      assert Pow2(24) == 0x100_0000;
    } else {
      Pow2Split(k - 1);
      assert Pow2(32 - (k - 1)) == 2 * Pow2(32 - k);
      MoveFactor(Pow2(32 - k), Pow2(k - 1));
    }
  }

  lemma MulMonotone(a: int, b: int, size: nat)
    requires a <= b
    ensures a * size <= b * size
  {
    assert (b - a) * size >= 0;
  }

  lemma MultipleBelow(q: int, size: nat, count: nat)
    requires size > 0 && q * size < count * size
    ensures q * size + size <= count * size
  {
    if q >= count {
      MulMonotone(count, q, size);
    } else {
      MulMonotone(q + 1, count, size);
    }
  }

  /** `a` lies in the block that starts at the multiple `q * size` exactly when it is in range. */
  lemma SameBlock(q: nat, size: nat, a: nat)
    requires size > 0
    ensures BlockStart(a, size) == q * size <==> q * size <= a < q * size + size
  {
    DivMod(a, size);
    var p := a / size;
    if p < q { MulMonotone(p + 1, q, size); }
    if p > q { MulMonotone(q + 1, p, size); }
  }

  /** Two numbers share a block exactly when one lies in the range of the other's block. */
  lemma BlockRange(a: nat, size: nat, b: nat)
    requires size > 0
    ensures BlockStart(b, size) == BlockStart(a, size) <==> BlockStart(a, size) <= b < BlockStart(a, size) + size
  {
    SameBlock(a / size, size, b);
  }

  /** Blocks tile any multiple of their size. */
  lemma BlockEnd(a: nat, size: nat, count: nat)
    requires size > 0 && a < count * size
    ensures BlockStart(a, size) + size <= count * size
  {
    DivMod(a, size);
    MultipleBelow(a / size, size, count);
  }

  /** A subnet fits below 2^32, and its members are the network plus 0 .. size-1. */
  lemma SubnetBounds(addr: Addr, ones: Ones)
    ensures Network(addr, ones) + Size(ones) <= TWO_32
    ensures forall a: Addr :: InSubnet(Network(addr, ones), ones, a) <==>
                              Network(addr, ones) <= a < Network(addr, ones) + Size(ones)
  {
    hide BlockStart, Pow2;
    Pow2Split(ones);
    ProductComm(Pow2(32 - ones), Pow2(ones));
    BlockEnd(addr, Size(ones), Pow2(ones));
    forall a: Addr ensures InSubnet(Network(addr, ones), ones, a) <==> Network(addr, ones) <= a < Network(addr, ones) + Size(ones) {
      BlockRange(addr, Size(ones), a);
    }
  }

  lemma ProductComm(a: int, b: int)
    ensures a * b == b * a
  {
  }

  lemma Pow2Step(k: nat)
    ensures Pow2(0) == 1 && Pow2(k + 1) == 2 * Pow2(k)
  {
  }

  lemma SizeRange(ones: Ones)
    ensures ones <= 31 ==> 2 <= Size(ones) <= TWO_32 && Usable(ones) == Size(ones) - 2
    ensures ones == 32 ==> Size(ones) == 1 && Usable(ones) == TWO_64 - 1
  {
    hide Pow2;
    Pow2Step(if ones <= 31 then 31 - ones else 0);
    SizeBound(ones);
  }

  lemma SizeBound(ones: Ones)
    ensures Size(ones) <= TWO_32
  {
    hide Pow2;
    Pow2Split(ones);
    ProductComm(Pow2(32 - ones), Pow2(ones));
    MulMonotone(1, Pow2(ones), Size(ones));
  }

  // ------------------------------------------------------- subnets as prefixes

  /** `a` without its last `k` bits. */
  function Halved(a: nat, k: nat): nat { if k == 0 then a else Halved(a / 2, k - 1) }

  lemma QuotientIs(a: nat, size: nat, q: nat)
    requires size > 0 && q * size <= a < q * size + size
    ensures a / size == q
  {
    SameBlock(q, size, a);
    DivMod(a, size);
    if a / size < q { MulMonotone(a / size + 1, q, size); }
    if a / size > q { MulMonotone(q + 1, a / size, size); }
  }

  lemma DoubleProduct(q: int, p: int)
    ensures 2 * (q * p) == q * (2 * p)
  {
  }

  lemma HalfQuotient(a: nat, p: nat)
    requires p > 0
    ensures a / (2 * p) == a / 2 / p
  {
    var q := a / 2 / p;
    DivMod(a / 2, p);
    DoubleProduct(q, p);
    QuotientIs(a, 2 * p, q);
  }

  lemma {:induction false} HalvedQuotient(a: nat, k: nat)
    ensures Halved(a, k) == a / Pow2(k)
    decreases k
  {
    if k > 0 {
      HalvedQuotient(a / 2, k - 1);
      HalfQuotient(a, Pow2(k - 1));
    }
  }

  /** Two addresses lie in one subnet exactly when their first `ones` bits agree. */
  lemma InSubnetIff(a: Addr, ones: Ones, b: Addr)
    ensures InSubnet(Network(a, ones), ones, b) <==> Halved(a, 32 - ones) == Halved(b, 32 - ones)
  {
    hide Pow2, Halved;
    var size := Size(ones);
    HalvedQuotient(a, 32 - ones);
    HalvedQuotient(b, 32 - ones);
    if a / size < b / size { MulMonotone(a / size + 1, b / size, size); }
    if a / size > b / size { MulMonotone(b / size + 1, a / size, size); }
  }

  lemma {:induction false} MultipleBits(q: nat, k: nat, j: nat)
    requires j < k
    ensures Halved(q * Pow2(k), j) % 2 == 0
    decreases j
  {
    MoveFactor(q, Pow2(k - 1));
    assert q * Pow2(k) == 2 * (q * Pow2(k - 1));
    DivMod(q, 1);
    MulMonotone(0, q, Pow2(k - 1));
    if j > 0 { MultipleBits(q, k - 1, j - 1); }
  }

  /** The network address keeps the first `ones` bits of an address and clears all others. */
  lemma NetworkBits(a: Addr, ones: Ones)
    ensures Halved(Network(a, ones), 32 - ones) == Halved(a, 32 - ones)
    ensures forall j :: 0 <= j < 32 - ones ==> Halved(Network(a, ones), j) % 2 == 0
  {
    hide Pow2, Halved;
    NetworkIsSubnet(a, ones);
    InSubnetIff(a, ones, Network(a, ones));
    forall j | 0 <= j < 32 - ones ensures Halved(Network(a, ones), j) % 2 == 0 { MultipleBits(a / Size(ones), 32 - ones, j); }
  }

  /** A /32 holds one address, and each bit less in the prefix doubles the subnet. */
  lemma SizeDoubles(ones: Ones)
    ensures Size(32) == 1
    ensures ones < 32 ==> Size(ones) == 2 * Size(ones + 1)
  {
  }

  // -------------------------------------------------------------- specification

  /** Offset `off` is held neither by the node block 1..n nor by an earlier admin peer. */
  predicate Free(n: nat, prev: seq<nat>, off: nat) { off > n && off !in prev }

  /** The greatest free offset in 1..k, or 0. */
  function TopFree(k: nat, n: nat, prev: seq<nat>): (off: nat)
    ensures off <= k
    ensures off > 0 ==> Free(n, prev, off)
    ensures forall j :: off < j <= k ==> !Free(n, prev, j)
  {
    if k == 0 then 0 else if Free(n, prev, k) then k else TopFree(k - 1, n, prev)
  }

  datatype Subnet = Subnet(net: Addr, ones: Ones)

  /** The offset a non-empty request text stands for, if it names an address of the subnet. */
  function RequestedOffset(sub: Subnet, text: string, lib: NetLib): Option<nat> {
    match ParseIP(text, lib)
    case Some(V4(a)) => if InSubnet(sub.net, sub.ones, a) && a >= sub.net then Some(a - sub.net) else None
    case _ => None
  }

  /** The offset given to one admin peer when `prev` lists those given before. */
  function Choose(sub: Subnet, n: nat, prev: seq<nat>, name: string, text: string, lib: NetLib): Result<nat, AllocError> {
    var usable := Usable(sub.ones);
    if text != "" then
      match RequestedOffset(sub, text, lib)
      case None => Err(Outside(name))
      case Some(off) =>
        if !Free(n, prev, off) || off == (usable + 1) % TWO_64 then Err(Taken(name)) else Ok(off)
    else if sub.net + usable >= TWO_32 then Err(Panic)
    else if TopFree(usable, n, prev) == 0 then Err(NoFreeIP(name))
    else Ok(TopFree(usable, n, prev))
  }

  /** The offsets of all admin peers, in order. */
  function AdminOffsets(sub: Subnet, n: nat, names: seq<string>, req: map<string, string>, lib: NetLib): (r: Result<seq<nat>, AllocError>)
    ensures r.Ok? ==> |r.value| == |names|
  {
    if names == [] then Ok([]) else
      var last := names[|names| - 1];
      match AdminOffsets(sub, n, names[..|names| - 1], req, lib)
      case Err(e) => Err(e)
      case Ok(prev) =>
        match Choose(sub, n, prev, last, Lookup(req, last), lib)
        case Err(e) => Err(e)
        case Ok(off) => Ok(prev + [off])
  }

  function NodeTexts(net: Addr, n: nat): (t: seq<string>)
    requires net + n < TWO_32
    ensures |t| == n
  {
    seq(n, i requires 0 <= i < n => Dotted(net + i + 1))
  }

  predicate Below(net: Addr, offsets: seq<nat>) {
    forall k :: 0 <= k < |offsets| ==> net + offsets[k] < TWO_32
  }

  function OffsetTexts(net: Addr, offsets: seq<nat>): (t: seq<string>)
    requires Below(net, offsets)
    ensures |t| == |offsets|
  {
    seq(|offsets|, k requires 0 <= k < |offsets| => Dotted(net + offsets[k]))
  }

  /** What every admin offset satisfies: a usable host number above the node block, used once. */
  predicate OffsetsSound(sub: Subnet, n: nat, offsets: seq<nat>) {
    && (forall k :: 0 <= k < |offsets| ==> n < offsets[k] <= Usable(sub.ones) && sub.net + offsets[k] < TWO_32)
    && (forall j, k :: 0 <= j < k < |offsets| ==> offsets[j] != offsets[k])
  }

  predicate IsSubnet(sub: Subnet) { Network(sub.net, sub.ones) == sub.net }

  lemma NetworkIsSubnet(addr: Addr, ones: Ones)
    ensures IsSubnet(Subnet(Network(addr, ones), ones))
  {
    hide BlockStart, Pow2;
    BlockRange(addr, Size(ones), Network(addr, ones));
  }

  lemma ChooseSound(sub: Subnet, n: nat, prev: seq<nat>, name: string, text: string, lib: NetLib)
    requires IsSubnet(sub) && Choose(sub, n, prev, name, text, lib).Ok?
    ensures var off := Choose(sub, n, prev, name, text, lib).value;
            && n < off <= Usable(sub.ones) && sub.net + off < TWO_32 && off !in prev
            && (text != "" ==> ParseIP(text, lib) == Some(V4(sub.net + off)))
  {
    hide BlockStart, Pow2, ParseIP;
    SizeRange(sub.ones);
    SubnetBounds(sub.net, sub.ones);
  }

  lemma {:induction false} AdminOffsetsSound(sub: Subnet, n: nat, names: seq<string>, req: map<string, string>, lib: NetLib)
    requires IsSubnet(sub) && AdminOffsets(sub, n, names, req, lib).Ok?
    ensures OffsetsSound(sub, n, AdminOffsets(sub, n, names, req, lib).value)
  {
    if names != [] {
      var m := |names| - 1;
      AdminOffsetsSound(sub, n, names[..m], req, lib);
      ChooseSound(sub, n, AdminOffsets(sub, n, names[..m], req, lib).value, names[m], Lookup(req, names[m]), lib);
    }
  }

  /** The whole allocation, on offsets. */
  function Assign(cidr: Cidr, nodes: seq<string>, admins: seq<string>, req: map<string, string>, lib: NetLib): Result<Assignments, AllocError> {
    match cidr
    case BadCidr => Err(InvalidCidr)
    case NotIPv4 => Err(NotAnIPv4Cidr)
    case V4Cidr(addr, ones) =>
      var sub := Subnet(Network(addr, ones), ones);
      if Usable(ones) < |nodes| + |admins| then Err(TooSmall(Usable(ones), |nodes| + |admins|))
      else if sub.net + |nodes| >= TWO_32 then Err(Panic)
      else
        match AdminOffsets(sub, |nodes|, admins, req, lib)
        case Err(e) => Err(e)
        case Ok(offsets) =>
          NetworkIsSubnet(addr, ones);
          AdminOffsetsSound(sub, |nodes|, admins, req, lib);
          Ok(Assignments(ZipMap(nodes, NodeTexts(sub.net, |nodes|)), ZipMap(admins, OffsetTexts(sub.net, offsets))))
  }

  // --------------------------------------------------------------- the program

  /** The used-set of texts stands for exactly the offsets that are not free. */
  ghost predicate Mirrors(used: set<string>, net: Addr, n: nat, prev: seq<nat>) {
    forall a: Addr :: a > net ==> (Dotted(a) in used <==> !Free(n, prev, a - net))
  }

  lemma MirrorsNode(used: set<string>, net: Addr, n: nat)
    requires Mirrors(used, net, n, []) && net + n + 1 < TWO_32
    ensures Mirrors(used + {Dotted(net + n + 1)}, net, n + 1, [])
  {
    hide Dotted;
    var added: Addr := net + n + 1;
    forall a: Addr | a > net
      ensures Dotted(a) in used + {Dotted(added)} <==> !Free(n + 1, [], a - net)
    {
      if Dotted(a) == Dotted(added) { DottedInjective(a, added); }
    }
  }

  lemma MirrorsAdmin(used: set<string>, net: Addr, n: nat, prev: seq<nat>, off: nat)
    requires Mirrors(used, net, n, prev) && net + off < TWO_32 && off > 0
    ensures Mirrors(used + {Dotted(net + off)}, net, n, prev + [off])
  {
    hide Dotted;
    var added: Addr := net + off;
    forall a: Addr | a > net
      ensures Dotted(a) in used + {Dotted(added)} <==> !Free(n, prev + [off], a - net)
    {
      if Dotted(a) == Dotted(added) { DottedInjective(a, added); }
    }
  }

  /** `addIPv4(network.IP.To4(), offset).String()`, or `None` when the byte copy panics. */
  method AddressText(net: Addr, offset: nat) returns (r: Option<string>)
    ensures r == if net + offset < TWO_32 then Some(Dotted(net + offset)) else None
  {
    var b := AddIPv4(Octets(net), offset);
    FourByteValue(Octets(net));
    OctetsRoundTrip(net);
    if b.None? { return None; }
    FourByteValue(b.value);
    FromOctetsRoundTrip(b.value);
    r := Some(DottedBytes(b.value));
  }

  /** The downward search for a free address. */
  method FindFree(sub: Subnet, used: set<string>, ghost n: nat, ghost prev: seq<nat>) returns (found: Option<nat>)
    requires Mirrors(used, sub.net, n, prev)
    ensures found == if sub.net + Usable(sub.ones) >= TWO_32 then None
                        else Some(TopFree(Usable(sub.ones), n, prev))
  {
    hide Dotted;
    var offset: nat := Usable(sub.ones);
    while offset > 0
      invariant 0 <= offset <= Usable(sub.ones)
      invariant sub.net + Usable(sub.ones) >= TWO_32 ==> offset == Usable(sub.ones)
      invariant TopFree(Usable(sub.ones), n, prev) == TopFree(offset, n, prev)
    {
      var ip := AddressText(sub.net, offset);
      if ip.None? { return None; }
      if ip.value !in used { return Some(offset); }
      offset := offset - 1;
    }
    SizeRange(sub.ones);
    found := Some(0);
  }

  /** The members of a subnet, and its broadcast offset. */
  lemma InSubnetRange(sub: Subnet)
    requires IsSubnet(sub)
    ensures forall a: Addr :: InSubnet(sub.net, sub.ones, a) ==> sub.net <= a
    ensures sub.ones <= 31 ==> sub.net + Usable(sub.ones) + 1 < TWO_32 && Usable(sub.ones) + 1 < TWO_64
    ensures sub.ones == 32 ==> Usable(sub.ones) + 1 == TWO_64
  {
    hide BlockStart, Pow2;
    SizeRange(sub.ones);
    SubnetBounds(sub.net, sub.ones);
  }

  /** One round of the admin-peer loop: the offset, checked against the used texts. */
  method ChooseAdmin(sub: Subnet, used: set<string>, name: string, text: string, lib: NetLib, ghost n: nat, ghost prev: seq<nat>)
    returns (r: Result<nat, AllocError>)
    requires IsSubnet(sub) && Mirrors(used, sub.net, n, prev)
    ensures r == Choose(sub, n, prev, name, text, lib)
  {
    hide Dotted, Size, ParseIP, BlockStart, Pow2, InSubnet, Network, TopFree, Usable;
    InSubnetRange(sub);
    if text != "" {
      var ip := ParseIP(text, lib);
      if ip.None? || ip.value.V6? || !InSubnet(sub.net, sub.ones, ip.value.addr) { return Err(Outside(name)); }
      var a := ip.value.addr;
      var broadcast := AddressText(sub.net, (Usable(sub.ones) + 1) % TWO_64);
      if broadcast.None? { return Err(Panic); }
      if Dotted(a) == broadcast.value { DottedInjective(a, sub.net + (Usable(sub.ones) + 1) % TWO_64); }
      if Dotted(a) in used || a == sub.net || Dotted(a) == broadcast.value { return Err(Taken(name)); }
      assert Dotted(sub.net + (a - sub.net)) == Dotted(a);
      r := Ok(a - sub.net);
    } else {
      var off := FindFree(sub, used, n, prev);
      if off.None? { return Err(Panic); }
      if off.value == 0 { return Err(NoFreeIP(name)); }
      r := Ok(off.value);
    }
  }

  /** The node loop: node i gets network + i + 1. */
  method AssignNodes(net: Addr, nodeNames: seq<string>) returns (ok: bool, nodeIPs: map<string, string>, used: set<string>)
    ensures ok <==> net + |nodeNames| < TWO_32
    ensures ok ==> nodeIPs == ZipMap(nodeNames, NodeTexts(net, |nodeNames|)) && Mirrors(used, net, |nodeNames|, [])
  {
    hide Dotted;
    ok, nodeIPs, used := true, map[], {};
    for i := 0 to |nodeNames|
      invariant net + i < TWO_32
      invariant nodeIPs == ZipMap(nodeNames[..i], NodeTexts(net, i))
      invariant Mirrors(used, net, i, [])
    {
      var ip := AddressText(net, i + 1);
      if ip.None? { return false, map[], {}; }
      MirrorsNode(used, net, i);
      nodeIPs, used := nodeIPs[nodeNames[i] := ip.value], used + {ip.value};
      assert nodeNames[..i + 1][..i] == nodeNames[..i];
      assert NodeTexts(net, i + 1)[..i] == NodeTexts(net, i);
    }
    assert nodeNames[..|nodeNames|] == nodeNames;
  }

  /** One more peer in the specification: the offset and the map entry it adds. */
  lemma AdminStep(sub: Subnet, n: nat, names: seq<string>, k: nat, req: map<string, string>, lib: NetLib, prev: seq<nat>)
    requires IsSubnet(sub) && k < |names| && Below(sub.net, prev)
    requires AdminOffsets(sub, n, names[..k], req, lib) == Ok(prev)
    ensures var choice := Choose(sub, n, prev, names[k], Lookup(req, names[k]), lib);
            && (choice.Err? ==> AdminOffsets(sub, n, names[..k + 1], req, lib) == Err(choice.error))
            && (choice.Ok? ==>
                  && 0 < choice.value && sub.net + choice.value < TWO_32
                  && AdminOffsets(sub, n, names[..k + 1], req, lib) == Ok(prev + [choice.value])
                  && ZipMap(names[..k + 1], OffsetTexts(sub.net, prev + [choice.value]))
                     == ZipMap(names[..k], OffsetTexts(sub.net, prev))[names[k] := Dotted(sub.net + choice.value)])
  {
    hide Dotted, Choose, ZipMap, OffsetTexts, IsSubnet, Usable;
    var choice := Choose(sub, n, prev, names[k], Lookup(req, names[k]), lib);
    assert names[..k + 1][..k] == names[..k];
    if choice.Ok? {
      ChooseSound(sub, n, prev, names[k], Lookup(req, names[k]), lib);
      AdminEntry(sub.net, names, k, prev, choice.value);
    }
  }

  lemma AdminEntry(net: Addr, names: seq<string>, k: nat, prev: seq<nat>, off: nat)
    requires k < |names| && |prev| == k && Below(net, prev) && net + off < TWO_32
    ensures ZipMap(names[..k + 1], OffsetTexts(net, prev + [off])) == ZipMap(names[..k], OffsetTexts(net, prev))[names[k] := Dotted(net + off)]
  {
    hide Dotted;
    assert names[..k + 1][..k] == names[..k];
    assert OffsetTexts(net, prev + [off])[..k] == OffsetTexts(net, prev);
  }

  /** The admin-peer loop, starting from the texts the node loop has used. */
  method AssignAdmins(sub: Subnet, adminNames: seq<string>, requested: map<string, string>, lib: NetLib, used0: set<string>, ghost n: nat)
    returns (r: Result<map<string, string>, AllocError>)
    requires IsSubnet(sub) && Mirrors(used0, sub.net, n, [])
    ensures var spec := AdminOffsets(sub, n, adminNames, requested, lib);
            && (spec.Err? ==> r == Err(spec.error))
            && (spec.Ok? ==> Below(sub.net, spec.value)
                             && r == Ok(ZipMap(adminNames, OffsetTexts(sub.net, spec.value))))
  {
    hide Dotted, Choose, AdminOffsets, ZipMap, OffsetTexts, Mirrors;
    var adminIPs, used := map[], used0;
    ghost var prev: seq<nat> := [];
    assert AdminOffsets(sub, n, [], requested, lib) == Ok(prev) && ZipMap([], OffsetTexts(sub.net, prev)) == map[] by {
      AdminNone(sub, n, requested, lib);
    }
    for k := 0 to |adminNames|
      invariant AdminOffsets(sub, n, adminNames[..k], requested, lib) == Ok(prev)
      invariant Below(sub.net, prev)
      invariant adminIPs == ZipMap(adminNames[..k], OffsetTexts(sub.net, prev))
      invariant Mirrors(used, sub.net, n, prev)
    {
      var name := adminNames[k];
      AdminStep(sub, n, adminNames, k, requested, lib, prev);
      var off := ChooseAdmin(sub, used, name, Lookup(requested, name), lib, n, prev);
      if off.Err? {
        FailurePersists(sub, n, adminNames, k + 1, requested, lib);
        return Err(off.error);
      }
      var ip := AddressText(sub.net, off.value);
      MirrorsAdmin(used, sub.net, n, prev, off.value);
      adminIPs, used, prev := adminIPs[name := ip.value], used + {ip.value}, prev + [off.value];
    }
    assert adminNames[..|adminNames|] == adminNames;
    r := Ok(adminIPs);
  }

  lemma AdminNone(sub: Subnet, n: nat, req: map<string, string>, lib: NetLib)
    ensures AdminOffsets(sub, n, [], req, lib) == Ok([])
    ensures ZipMap([], OffsetTexts(sub.net, [])) == map[]
  {
  }

  /** `assignWireGuardIPs`: the program meets the specification on offsets. */
  method AssignWireGuardIPs(cidr: Cidr, nodeNames: seq<string>, adminNames: seq<string>, requested: map<string, string>, lib: NetLib)
    returns (r: Result<Assignments, AllocError>)
    ensures r == Assign(cidr, nodeNames, adminNames, requested, lib)
  {
    if cidr.BadCidr? { return Err(InvalidCidr); }
    if cidr.NotIPv4? { return Err(NotAnIPv4Cidr); }
    var sub := Subnet(Network(cidr.addr, cidr.ones), cidr.ones);
    NetworkIsSubnet(cidr.addr, cidr.ones);
    var usable, required := Usable(sub.ones), |nodeNames| + |adminNames|;
    if usable < required { return Err(TooSmall(usable, required)); }
    var ok, nodeIPs, used := AssignNodes(sub.net, nodeNames);
    if !ok { return Err(Panic); }
    var adminIPs := AssignAdmins(sub, adminNames, requested, lib, used, |nodeNames|);
    if adminIPs.Err? { return Err(adminIPs.error); }
    r := Ok(Assignments(nodeIPs, adminIPs.value));
  }

  /** An error met at one peer is the error of the whole allocation. */
  lemma {:induction false} FailurePersists(sub: Subnet, n: nat, names: seq<string>, k: nat, req: map<string, string>, lib: NetLib)
    requires k <= |names| && AdminOffsets(sub, n, names[..k], req, lib).Err?
    ensures AdminOffsets(sub, n, names, req, lib) == AdminOffsets(sub, n, names[..k], req, lib)
    decreases |names|
  {
    if k < |names| {
      var front := names[..|names| - 1];
      assert front[..k] == names[..k];
      FailurePersists(sub, n, front, k, req, lib);
    } else {
      assert names[..k] == names;
    }
  }
}

/**
 IPv4 addresses in the three shapes the provider moves between: naturals below 2^32,
 four big-endian bytes, and dotted-decimal text.
 */
module Addresses {
  import opened Wrappers
  import opened Text

  type byte = x: nat | x < 256

  const TWO_32: nat := 0x1_0000_0000

  type Addr = a: nat | a < TWO_32

  // ------------------------------------------------------- big-endian bytes

  /** The number a big-endian byte string denotes (`big.Int.SetBytes`). */
  function BigValue(b: seq<byte>): nat {
    if b == [] then 0 else 256 * BigValue(b[..|b| - 1]) + b[|b| - 1]
  }

  /** The shortest big-endian byte string for a number (`big.Int.Bytes`). */
  function BigBytes(x: nat): (b: seq<byte>)
    ensures BigValue(b) == x
  {
    if x == 0 then [] else
      var front := BigBytes(x / 256);
      var b := front + [(x % 256) as byte];
      assert b[..|b| - 1] == front;
      b
  }

  function Pow256(k: nat): (p: nat)
    ensures p > 0
  {
    if k == 0 then 1 else 256 * Pow256(k - 1)
  }

  /** `k` bytes are enough for `x` exactly when `x` is below 256^k. */
  lemma {:induction false} BigBytesLength(x: nat, k: nat)
    ensures |BigBytes(x)| <= k <==> x < Pow256(k)
  {
    if x != 0 && k != 0 { BigBytesLength(x / 256, k - 1); }
  }

  function Zeros(n: nat): (z: seq<byte>)
    ensures |z| == n && forall i :: 0 <= i < n ==> z[i] == 0
  {
    seq(n, _ => 0)
  }

  lemma {:induction false} LeadingZeros(n: nat, b: seq<byte>)
    ensures BigValue(Zeros(n) + b) == BigValue(b)
  {
    var s := Zeros(n) + b;
    if b != [] {
      assert s[..|s| - 1] == Zeros(n) + b[..|b| - 1];
      LeadingZeros(n, b[..|b| - 1]);
    } else if n != 0 {
      assert s[..n - 1] == Zeros(n - 1) + [];
      LeadingZeros(n - 1, []);
    }
  }

  /**
   `addIPv4`: the sum is formed as a big integer and copied right-aligned into four fresh
   bytes.  `None` is the slice-bounds panic of `out[4-len(b):]` on a sum of five or more bytes.
   */
  method AddIPv4(ip: seq<byte>, offset: nat) returns (r: Option<seq<byte>>)
    requires |ip| == 4
    ensures r.Some? <==> BigValue(ip) + offset < TWO_32
    ensures r.Some? ==> |r.value| == 4 && BigValue(r.value) == BigValue(ip) + offset
  {
    var x := BigValue(ip) + offset;
    var b := BigBytes(x);
    BigBytesLength(x, 4);
    assert Pow256(4) == TWO_32 by { assert Pow256(2) == 65536; }
    if |b| > 4 { return None; }
    var out := new byte[4](_ => 0);
    var start := 4 - |b|;
    for i := 0 to |b|
      invariant forall k :: 0 <= k < start ==> out[k] == 0
      invariant forall k :: 0 <= k < i ==> out[start + k] == b[k]
    {
      out[start + i] := b[i];
    }
    assert out[..] == Zeros(start) + b;
    LeadingZeros(start, b);
    r := Some(out[..]);
  }

  function Octets(a: Addr): (b: seq<byte>)
    ensures |b| == 4
  {
    [(a / 0x100_0000) as byte, (a / 0x1_0000 % 256) as byte, (a / 256 % 256) as byte, (a % 256) as byte]
  }

  function FromOctets(b: seq<byte>): (a: Addr)
    requires |b| == 4
  {
    var b0: nat, b1: nat, b2: nat, b3: nat := b[0], b[1], b[2], b[3];
    0x100_0000 * b0 + 0x1_0000 * b1 + 256 * b2 + b3
  }

  lemma OctetsRoundTrip(a: Addr)
    ensures FromOctets(Octets(a)) == a
  {
    assert a / 256 == 256 * (a / 0x1_0000) + a / 256 % 256 by { assert a / 256 / 256 == a / 0x1_0000; }
    assert a / 0x1_0000 == 256 * (a / 0x100_0000) + a / 0x1_0000 % 256 by {
      assert a / 0x1_0000 / 256 == a / 0x100_0000;
    }
  }

  lemma FromOctetsRoundTrip(b: seq<byte>)
    requires |b| == 4
    ensures Octets(FromOctets(b)) == b
  {
    var v := FromOctets(b);
    var b0: nat, b1: nat, b2: nat := b[0], b[1], b[2];
    assert v / 256 == 0x1_0000 * b0 + 256 * b1 + b2;
    assert v / 0x1_0000 == 256 * b0 + b1;
  }

  lemma FourByteValue(b: seq<byte>)
    requires |b| == 4
    ensures BigValue(b) == FromOctets(b)
  {
    var b0: nat, b1: nat, b2: nat := b[0], b[1], b[2];
    assert b[..3][..2] == b[..2] && b[..2][..1] == b[..1] && b[..1][..0] == [];
    assert BigValue(b[..1]) == b0;
    assert BigValue(b[..2]) == 256 * b0 + b1;
    assert BigValue(b[..3]) == 0x1_0000 * b0 + 256 * b1 + b2;
  }

  // ----------------------------------------------------------- dotted quads

  function QuadParts(b: seq<byte>): (p: seq<string>)
    requires |b| == 4
    ensures |p| == 4 && forall i :: 0 <= i < 4 ==> p[i] == Decimal(b[i])
  {
    [Decimal(b[0]), Decimal(b[1]), Decimal(b[2]), Decimal(b[3])]
  }

  /** `net.IP.String` on a four-byte address. */
  function DottedBytes(b: seq<byte>): string
    requires |b| == 4
  {
    Join(QuadParts(b), ".")
  }

  function Dotted(a: Addr): string { DottedBytes(Octets(a)) }

  /** One field of a dotted quad: at most 255, without a leading zero. */
  predicate IsOctetText(s: string) { Canonical(s) && DecimalValue(s) < 256 }

  /** The dotted-quad branch of `net.ParseIP`. */
  function ParseDotted(s: string): Option<Addr> {
    var p := Split(s, '.');
    if |p| == 4 && IsOctetText(p[0]) && IsOctetText(p[1]) && IsOctetText(p[2]) && IsOctetText(p[3]) then
      Some(FromOctets([DecimalValue(p[0]), DecimalValue(p[1]), DecimalValue(p[2]), DecimalValue(p[3])]))
    else
      None
  }

  lemma DigitsExclude(s: string, c: char)
    requires AllDigits(s) && !IsDigit(c)
    ensures c !in s
  {
  }

  /** Printing and parsing are inverse, in both directions. */
  lemma DottedRoundTrip(a: Addr)
    ensures ParseDotted(Dotted(a)) == Some(a)
  {
    var b := Octets(a);
    forall i | 0 <= i < 4 ensures '.' !in QuadParts(b)[i] { DigitsExclude(Decimal(b[i]), '.'); }
    SplitJoin(QuadParts(b), '.');
    OctetsRoundTrip(a);
  }

  lemma ParseDottedCanonical(s: string)
    requires ParseDotted(s).Some?
    ensures Dotted(ParseDotted(s).value) == s
  {
    var p := Split(s, '.');
    var b: seq<byte> := [DecimalValue(p[0]), DecimalValue(p[1]), DecimalValue(p[2]), DecimalValue(p[3])];
    FromOctetsRoundTrip(b);
    forall i | 0 <= i < 4 ensures Decimal(b[i]) == p[i] { DecimalOfValue(p[i]); }
    assert QuadParts(b) == p;
    JoinSplit(s, '.');
  }

  /** Distinct addresses have distinct texts. */
  lemma DottedInjective(a: Addr, b: Addr)
    requires Dotted(a) == Dotted(b)
    ensures a == b
  {
    DottedRoundTrip(a);
    DottedRoundTrip(b);
  }

  predicate QuadChar(c: char) { IsDigit(c) || c == '.' }

  /** A dotted quad consists of digits and dots only and starts with a digit. */
  lemma DottedChars(a: Addr)
    ensures Dotted(a) != [] && IsDigit(Dotted(a)[0])
    ensures forall c :: c in Dotted(a) ==> QuadChar(c)
  {
    var p := QuadParts(Octets(a));
    var t3 := p[2] + "." + p[3];
    var t2 := p[1] + "." + t3;
    assert Join(p[2..], ".") == t3 by { assert p[2..][1..] == [p[3]]; }
    assert Join(p[1..], ".") == t2 by { assert p[1..][1..] == p[2..]; }
    assert Dotted(a) == p[0] + "." + t2;
  }

  // ------------------------------------------------------------ the net package

  /** A parsed address: four bytes, or sixteen bytes that do not hold an IPv4 address. */
  datatype IP = V4(addr: Addr) | V6(bits: nat)

  type Ones = n: nat | n <= 32

  /** What `net.ParseCIDR`, `To4` and `Mask.Size` tell the allocator about a subnet text. */
  datatype Cidr = BadCidr | NotIPv4 | V4Cidr(addr: Addr, ones: Ones)

  /**
   The parts of Go's `net` package that stay abstract: the text form of IPv6 addresses,
   and CIDR parsing.
   */
  datatype NetLib = NetLib(parse6: string -> Option<IP>, print6: nat -> string, parseCidr: string -> Cidr)

  /** The first of `.`, `:` and `%` in an address text decides how it is parsed. */
  function Marker(s: string): char {
    if s == [] then ' '
    else if s[0] == '.' || s[0] == ':' || s[0] == '%' then s[0]
    else Marker(s[1..])
  }

  /** `net.ParseIP`. */
  function ParseIP(s: string, lib: NetLib): Option<IP> {
    if Marker(s) == '.' then
      match ParseDotted(s)
      case None => None
      case Some(a) => Some(V4(a))
    else if Marker(s) == ':' then lib.parse6(s)
    else None
  }

  /** `net.IP.String`. */
  function PrintIP(ip: IP, lib: NetLib): string {
    match ip
    case V4(a) => Dotted(a)
    case V6(bits) => lib.print6(bits)
  }

  lemma {:induction false} MarkerSkips(p: string, s: string)
    requires forall i :: 0 <= i < |p| ==> p[i] != '.' && p[i] != ':' && p[i] != '%'
    ensures Marker(p + s) == Marker(s)
  {
    if p == [] {
      assert p + s == s;
    } else {
      assert (p + s)[1..] == p[1..] + s;
      MarkerSkips(p[1..], s);
    }
  }

  /** An IPv4 address survives printing and parsing. */
  lemma ParsePrintV4(a: Addr, lib: NetLib)
    ensures ParseIP(Dotted(a), lib) == Some(V4(a))
  {
    var p := QuadParts(Octets(a));
    var rest := "." + Join(p[1..], ".");
    assert Dotted(a) == p[0] + rest;
    MarkerSkips(p[0], rest);
    DottedRoundTrip(a);
  }

  lemma {:induction false} MarkerOccurs(s: string)
    ensures Marker(s) != ' ' ==> Marker(s) in s
  {
    if s != [] { MarkerOccurs(s[1..]); }
  }

  /** Texts without a colon that parse to the same address are the same text. */
  lemma OneSpelling(s: string, t: string, lib: NetLib)
    requires ':' !in s && ':' !in t && ParseIP(s, lib).Some? && ParseIP(s, lib) == ParseIP(t, lib)
    ensures s == t
  {
    hide ParseDotted;
    MarkerOccurs(s);
    MarkerOccurs(t);
    ParseDottedCanonical(s);
    ParseDottedCanonical(t);
  }
}

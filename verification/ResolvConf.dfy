/**
 The resolv.conf that the provider writes for K3s, and the parser it applies to the
 host's own resolv.conf.
 */
module ResolvConf {
  import opened Wrappers
  import opened Text
  import opened Addresses
  import opened Config
  import opened Remote

  const MAX_NAMESERVERS := 3
  const NOTICE1 := "Managed by terraform-"
  const NOTICE2 := "provider-k3s-vps-wg; "
  const NOTICE3 := "K3s uses this instead "
  const NOTICE4 := "of the host resolv.conf."
  const NOTICE := NOTICE1 + NOTICE2 + NOTICE3 + NOTICE4
  const HEADER := "#" + " " + NOTICE

  // ------------------------------------------------------------------ parsing

  predicate IsLoopback(ip: IP) {
    match ip
    case V4(a) => a / 0x100_0000 == 127
    case V6(bits) => bits == 1
  }

  predicate IsUnspecified(ip: IP) {
    match ip
    case V4(a) => a == 0
    case V6(bits) => bits == 0
  }

  predicate Reachable(ip: IP) { !IsLoopback(ip) && !IsUnspecified(ip) }

  /** The nameserver a line contributes, as zero or one texts. */
  function ServerOf(line: string, lib: NetLib): seq<string> {
    var fields := Fields(line);
    if |fields| < 2 || fields[0] != "nameserver" then [] else
      match ParseIP(fields[1], lib)
      case None => []
      case Some(ip) => if Reachable(ip) then [PrintIP(ip, lib)] else []
  }

  function Servers(lines: seq<string>, lib: NetLib): seq<string> {
    if lines == [] then [] else Servers(lines[..|lines| - 1], lib) + ServerOf(lines[|lines| - 1], lib)
  }

  function FirstThree(s: seq<string>): (r: seq<string>)
    ensures |r| <= 3
  {
    if |s| <= MAX_NAMESERVERS then s else s[..MAX_NAMESERVERS]
  }

  /** The nameservers of a resolv.conf text. */
  function Upstream(text: string, lib: NetLib): (r: seq<string>)
    ensures |r| <= MAX_NAMESERVERS
  {
    FirstThree(Servers(Split(text, '\n'), lib))
  }

  lemma {:induction false} ServersAppend(a: seq<string>, b: seq<string>, lib: NetLib)
    ensures Servers(a + b, lib) == Servers(a, lib) + Servers(b, lib)
  {
    if b == [] {
      assert a + b == a;
    } else {
      var m := |b| - 1;
      assert (a + b)[..|a + b| - 1] == a + b[..m];
      ServersAppend(a, b[..m], lib);
    }
  }

  lemma ServersSnoc(lines: seq<string>, i: nat, lib: NetLib)
    requires i < |lines|
    ensures Servers(lines[..i + 1], lib) == Servers(lines[..i], lib) + ServerOf(lines[i], lib)
  {
    assert lines[..i + 1][..i] == lines[..i];
  }

  lemma ServersPrefix(lines: seq<string>, i: nat, lib: NetLib)
    requires i <= |lines|
    ensures Servers(lines[..i], lib) <= Servers(lines, lib)
  {
    assert lines == lines[..i] + lines[i..];
    ServersAppend(lines[..i], lines[i..], lib);
  }

  /** `upstreamNameservers`: stops reading once three servers are found. */
  method UpstreamNameservers(text: string, lib: NetLib) returns (out: seq<string>)
    ensures out == Upstream(text, lib)
  {
    hide Split, Fields, ParseIP, PrintIP, Servers;
    var lines := Split(text, '\n');
    out := [];
    assert Servers([], lib) == [] by { NoServers(lib); }
    for i := 0 to |lines|
      invariant out == Servers(lines[..i], lib) && |out| < MAX_NAMESERVERS
    {
      ServersSnoc(lines, i, lib);
      var fields := Fields(lines[i]);
      if |fields| < 2 || fields[0] != "nameserver" { continue; }
      var ip := ParseIP(fields[1], lib);
      if ip.None? || IsLoopback(ip.value) || IsUnspecified(ip.value) { continue; }
      out := out + [PrintIP(ip.value, lib)];
      if |out| == MAX_NAMESERVERS {
        ServersPrefix(lines, i + 1, lib);
        return;
      }
    }
    assert lines[..|lines|] == lines;
  }

  lemma NoServers(lib: NetLib)
    ensures Servers([], lib) == []
  {
  }

  /** The IPv4 addresses that pods cannot reach: 127.0.0.0/8 and 0.0.0.0. */
  lemma UnreachableIff(a: Addr)
    ensures !Reachable(V4(a)) <==> Octets(a)[0] == 127 || Octets(a) == [0, 0, 0, 0]
  {
  }

  /** The address of a server that could be a pod's: of IPv4, neither a loopback address nor 0.0.0.0. */
  predicate PodAddress(ip: IP) { match ip case V4(a) => Octets(a)[0] != 127 && Octets(a) != [0, 0, 0, 0] case V6(bits) => bits > 1 }

  // ---------------------------------------------------------------- rendering

  function ServerLines(ns: seq<string>): string {
    if ns == [] then "" else ServerLines(ns[..|ns| - 1]) + ("nameserver " + ns[|ns| - 1] + "\n")
  }

  function SearchLine(search: seq<string>): string {
    if search == [] then "" else "search " + Join(search, " ") + "\n"
  }

  function Rendered(ns: seq<string>, search: seq<string>): string {
    HEADER + "\n" + ServerLines(ns) + SearchLine(search)
  }

  /** `renderResolvConf`. */
  method RenderResolvConf(nameservers: seq<string>, searchDomains: seq<string>) returns (b: string)
    ensures b == Rendered(nameservers, searchDomains)
  {
    b := HEADER + "\n";
    for i := 0 to |nameservers|
      invariant b == HEADER + "\n" + ServerLines(nameservers[..i])
    {
      assert nameservers[..i + 1][..i] == nameservers[..i];
      b := b + ("nameserver " + nameservers[i] + "\n");
    }
    assert nameservers[..|nameservers|] == nameservers;
    if |searchDomains| > 0 { b := b + ("search " + Join(searchDomains, " ") + "\n"); }
  }

  // --------------------------------------------------------------- round trips

  /**
   The one fact used about IPv6 text: printing a parsed address gives a word that is
   recognised as IPv6 text and parses back to the same address.
   */
  ghost predicate Lawful(lib: NetLib) {
    forall s: string :: lib.parse6(s).Some? && lib.parse6(s).value.V6? ==>
      var t := lib.print6(lib.parse6(s).value.bits);
      t != [] && NoSpace(t) && Marker(t) == ':' && lib.parse6(t) == lib.parse6(s)
  }

  /** `s` is the canonical text of an address that pods can reach. */
  predicate IsServer(s: string, lib: NetLib) {
    var ip := ParseIP(s, lib);
    ip.Some? && Reachable(ip.value) && PrintIP(ip.value, lib) == s
  }

  lemma PrintedIsServer(s: string, lib: NetLib)
    requires Lawful(lib) && ParseIP(s, lib).Some? && Reachable(ParseIP(s, lib).value)
    ensures var t := PrintIP(ParseIP(s, lib).value, lib);
            IsServer(t, lib) && t != [] && NoSpace(t)
  {
    match ParseIP(s, lib).value
    case V4(a) =>
      ParsePrintV4(a, lib);
      DottedChars(a);
      WordChars(Dotted(a));
    case V6(bits) =>
  }

  lemma WordChars(s: string)
    requires forall c :: c in s ==> QuadChar(c)
    ensures NoSpace(s)
  {
    forall i | 0 <= i < |s| ensures !IsSpace(s[i]) { assert s[i] in s && QuadChar(s[i]); }
  }

  lemma NoLineBreak(s: string)
    requires NoSpace(s)
    ensures '\n' !in s && '\n' !in "nameserver "
  {
  }

  lemma ServerLine(s: string, lib: NetLib)
    requires Lawful(lib) && IsServer(s, lib)
    ensures ServerOf("nameserver " + s, lib) == [s] && '\n' !in ("nameserver " + s)
  {
    hide Fields, WordLength, ParseIP, PrintIP, Lawful;
    PrintedIsServer(s, lib);
    assert "nameserver " + s == "nameserver" + " " + s;
    FieldsCons("nameserver", s);
    FieldsOne(s);
    NoLineBreak(s);
  }

  /** A line that starts with another word contributes nothing. */
  lemma OtherLine(word: string, rest: string, lib: NetLib)
    requires word != [] && NoSpace(word) && word != "nameserver"
    ensures ServerOf(word + " " + rest, lib) == []
  {
    FieldsCons(word, rest);
  }

  /** Reading a complete line, then the rest of the text. */
  lemma ReadLine(line: string, rest: string, lib: NetLib)
    requires '\n' !in line
    ensures Servers(Split(line + "\n" + rest, '\n'), lib) == ServerOf(line, lib) + Servers(Split(rest, '\n'), lib)
  {
    SplitAppend(line, '\n', rest);
    SplitPlain(line, '\n');
    ServersAppend([line], Split(rest, '\n'), lib);
    assert Servers([line], lib) == ServerOf(line, lib) by { assert [line][..0] == []; }
  }

  lemma {:induction false} ReadServers(ns: seq<string>, rest: string, lib: NetLib)
    requires Lawful(lib) && forall n :: n in ns ==> IsServer(n, lib)
    ensures Servers(Split(ServerLines(ns) + rest, '\n'), lib) == ns + Servers(Split(rest, '\n'), lib)
    decreases |ns|
  {
    hide IsServer, Lawful, Split, Servers, ServerOf;
    if ns == [] {
      assert ServerLines(ns) + rest == rest;
    } else {
      var m := |ns| - 1;
      var line := "nameserver " + ns[m];
      ServerLine(ns[m], lib);
      ReadLine(line, rest, lib);
      ReadServers(ns[..m], line + "\n" + rest, lib);
      assert ServerLines(ns) + rest == ServerLines(ns[..m]) + (line + "\n" + rest);
      assert ns == ns[..m] + [ns[m]];
    }
  }

  predicate OneLine(search: seq<string>) { Without(search, '\n') }

  lemma {:induction false} JoinWithout(parts: seq<string>, c: char)
    requires Without(parts, c) && c != ' '
    ensures c !in Join(parts, " ")
  {
    if |parts| > 1 { JoinWithout(parts[1..], c); }
  }

  lemma ReadSearch(search: seq<string>, lib: NetLib)
    requires OneLine(search)
    ensures Servers(Split(SearchLine(search), '\n'), lib) == []
  {
    hide ServerOf;
    assert Fields("") == [];
    assert ServerOf("", lib) == [] by { EmptyLine(lib); }
    assert Servers([""], lib) == [] by { assert [""][..0] == []; }
    if search != [] {
      JoinWithout(search, '\n');
      var line := "search " + Join(search, " ");
      assert line == "search" + " " + Join(search, " ");
      OtherLine("search", Join(search, " "), lib);
      assert SearchLine(search) == line + "\n" + "";
      ReadLine(line, "", lib);
    }
  }

  lemma EmptyLine(lib: NetLib)
    ensures ServerOf("", lib) == []
  {
  }

  lemma ReadBody(header: string, ns: seq<string>, search: seq<string>, lib: NetLib)
    requires Lawful(lib) && OneLine(search) && forall n :: n in ns ==> IsServer(n, lib)
    requires '\n' !in header && ServerOf(header, lib) == []
    ensures Servers(Split(header + "\n" + ServerLines(ns) + SearchLine(search), '\n'), lib) == ns
  {
    hide IsServer, Lawful, Split, Servers, ServerOf, ServerLines, SearchLine;
    var rest := ServerLines(ns) + SearchLine(search);
    assert (header + "\n" + ServerLines(ns)) + SearchLine(search) == (header + "\n") + rest;
    ReadLine(header, rest, lib);
    ReadServers(ns, SearchLine(search), lib);
    ReadSearch(search, lib);
  }

  /** Every rendered server is read back, whatever the search domains. */
  lemma ReadRendered(ns: seq<string>, search: seq<string>, lib: NetLib)
    requires Lawful(lib) && OneLine(search) && forall n :: n in ns ==> IsServer(n, lib)
    ensures Servers(Split(Rendered(ns, search), '\n'), lib) == ns
  {
    hide IsServer, Lawful, Split, Servers, ServerOf, ServerLines, SearchLine;
    HeaderLine(lib);
    ReadBody(HEADER, ns, search, lib);
  }

  lemma HeaderLine(lib: NetLib)
    ensures ServerOf(HEADER, lib) == [] && '\n' !in HEADER
  {
    OtherLine("#", NOTICE, lib);
    HeaderPlain();
  }

  // ------------------------------------------------------ the search domains

  /** The domains of a `search` line, as resolvers read it. */
  function SearchOf(line: string): Option<seq<string>> {
    var f := Fields(line);
    if f != [] && f[0] == "search" then Some(f[1..]) else None
  }

  /** The search list of a resolv.conf: the last `search` line counts. */
  function SearchList(lines: seq<string>): seq<string> {
    if lines == [] then [] else
      match SearchOf(lines[|lines| - 1])
      case Some(domains) => domains
      case None => SearchList(lines[..|lines| - 1])
  }

  predicate Words(ws: seq<string>) { forall i :: 0 <= i < |ws| ==> ws[i] != "" && NoSpace(ws[i]) }

  predicate NoSearch(lines: seq<string>) { forall i :: 0 <= i < |lines| ==> SearchOf(lines[i]).None? }

  lemma {:induction false} NoSearchList(lines: seq<string>)
    requires NoSearch(lines)
    ensures SearchList(lines) == []
    decreases |lines|
  {
    hide SearchOf;
    if lines != [] { NoSearchList(lines[..|lines| - 1]); }
  }

  lemma {:induction false} JoinedWords(ws: seq<string>)
    requires ws != [] && Words(ws)
    ensures Fields(Join(ws, " ")) == ws && '\n' !in Join(ws, " ")
    decreases |ws|
  {
    hide Fields;
    NoLineBreak(ws[0]);
    if |ws| == 1 {
      FieldsOne(ws[0]);
    } else {
      JoinedWords(ws[1..]);
      FieldsCons(ws[0], Join(ws[1..], " "));
      assert Join(ws, " ") == ws[0] + " " + Join(ws[1..], " ");
    }
  }

  lemma SearchWord()
    ensures NoSpace("search") && NoSpace("nameserver") && "nameserver" != "search" && SearchOf("").None? && '\n' !in "search "
  {
    assert "nameserver"[0] == 'n';
  }

  lemma SearchLineRead(search: seq<string>)
    requires search != [] && Words(search)
    ensures var line := "search " + Join(search, " "); SearchOf(line) == Some(search) && '\n' !in line
  {
    hide Fields, Join, NoSpace;
    JoinedWords(search);
    SearchWord();
    FieldsCons("search", Join(search, " "));
    assert "search " + Join(search, " ") == "search" + " " + Join(search, " ");
  }

  lemma ServerLineNoSearch(n: string)
    requires n != "" && NoSpace(n)
    ensures SearchOf("nameserver " + n).None? && '\n' !in "nameserver " + n
  {
    hide Fields, NoSpace;
    SearchWord();
    FieldsCons("nameserver", n);
    NoLineBreak(n);
    assert "nameserver " + n == "nameserver" + " " + n;
  }

  /** A text of complete lines, and one more. */
  lemma OneMoreLine(q: string, line: string)
    requires '\n' !in line
    ensures Split(q + "\n" + line + "\n", '\n') == Split(q, '\n') + [line, ""]
  {
    SplitPlain(line, '\n');
    SplitAppend(line, '\n', "");
    SplitAppend(q, '\n', line + "\n");
    assert q + "\n" + line + "\n" == q + ['\n'] + (line + "\n");
    assert line + ['\n'] + "" == line + "\n";
  }

  /** Header and server lines are complete lines without a `search` line among them. */
  lemma {:induction false} ServersNoSearch(header: string, ns: seq<string>) returns (q: string)
    requires Words(ns) && SearchOf(header).None? && '\n' !in header
    ensures header + "\n" + ServerLines(ns) == q + "\n" && NoSearch(Split(q, '\n'))
    decreases |ns|
  {
    hide SearchOf, Split, NoSpace;
    if ns == [] {
      q := header;
      SplitPlain(header, '\n');
    } else {
      var m := |ns| - 1;
      var line := "nameserver " + ns[m];
      var p := ServersNoSearch(header, ns[..m]);
      q := p + "\n" + line;
      ServerLineNoSearch(ns[m]);
      AddLine(header + "\n", ServerLines(ns[..m]), line, p);
      NoSearchMore(p, line);
    }
  }

  lemma AddLine(start: string, lines: string, line: string, p: string)
    requires start + lines == p + "\n"
    ensures start + (lines + (line + "\n")) == p + "\n" + line + "\n"
  {
    assert start + (lines + (line + "\n")) == (start + lines) + (line + "\n");
  }

  lemma NoSearchMore(p: string, line: string)
    requires NoSearch(Split(p, '\n')) && SearchOf(line).None? && '\n' !in line
    ensures NoSearch(Split(p + "\n" + line, '\n'))
  {
    hide SearchOf, Split;
    SplitAppend(p, '\n', line);
    SplitPlain(line, '\n');
  }

  lemma HeaderPlain()
    ensures '\n' !in HEADER
  {
    assert '\n' !in NOTICE1;
    assert '\n' !in NOTICE2;
    assert '\n' !in NOTICE3;
    assert '\n' !in NOTICE4;
  }

  lemma HeaderNoSearch()
    ensures SearchOf(HEADER).None?
  {
    hide Fields;
    FieldsCons("#", NOTICE);
  }

  /** The search domains are read back from the rendered text, whatever the servers. */
  lemma SearchRead(ns: seq<string>, search: seq<string>)
    requires Words(ns) && Words(search)
    ensures SearchList(Split(Rendered(ns, search), '\n')) == search
  {
    hide SearchOf, Split, ServerLines, Words;
    SearchWord();
    HeaderPlain();
    HeaderNoSearch();
    var q := ServersNoSearch(HEADER, ns);
    if search == [] {
      SplitAppend(q, '\n', "");
      SplitPlain("", '\n');
      assert Rendered(ns, search) == q + ['\n'] + "";
      NoSearchList(Split(q, '\n') + [""]);
    } else {
      var line := "search " + Join(search, " ");
      SearchLineRead(search);
      OneMoreLine(q, line);
      assert Rendered(ns, search) == q + "\n" + line + "\n";
      LastSearch(Split(q, '\n'), line);
    }
  }

  lemma LastSearch(front: seq<string>, line: string)
    requires SearchOf(line).Some? && SearchOf("").None?
    ensures SearchList(front + [line, ""]) == SearchOf(line).value
  {
    hide SearchOf;
    var lines := front + [line, ""];
    assert lines[..|lines| - 1] == front + [line];
  }

  /** Printing and parsing: up to three canonical, reachable servers survive. */
  lemma RenderThenParse(ns: seq<string>, search: seq<string>, lib: NetLib)
    requires Lawful(lib) && OneLine(search) && forall n :: n in ns ==> IsServer(n, lib)
    ensures Upstream(Rendered(ns, search), lib) == if |ns| <= 3 then ns else ns[..3]
  {
    ReadRendered(ns, search, lib);
  }

  lemma {:induction false} ParsedAreServers(lines: seq<string>, lib: NetLib)
    requires Lawful(lib)
    ensures forall n :: n in Servers(lines, lib) ==> IsServer(n, lib)
  {
    hide IsServer, Lawful;
    if lines != [] {
      ParsedAreServers(lines[..|lines| - 1], lib);
      var fields := Fields(lines[|lines| - 1]);
      if |fields| >= 2 && ParseIP(fields[1], lib).Some? && Reachable(ParseIP(fields[1], lib).value) {
        PrintedIsServer(fields[1], lib);
      }
    }
  }

  /** Whatever the host's resolv.conf says, no server is taken from it that pods cannot reach. */
  lemma UpstreamReachable(text: string, lib: NetLib, n: string)
    requires Lawful(lib) && n in Upstream(text, lib)
    ensures ParseIP(n, lib).Some? && PodAddress(ParseIP(n, lib).value)
  {
    hide Split, Servers, PrintIP, ParseIP, Octets, Lawful;
    ParsedAreServers(Split(text, '\n'), lib);
    assert n in Servers(Split(text, '\n'), lib);
    assert IsServer(n, lib);
    var ip := ParseIP(n, lib).value;
    if ip.V4? { UnreachableIff(ip.addr); }
  }

  /** Whatever text is parsed, writing the result out and parsing again changes nothing. */
  lemma ParseRenderParse(text: string, search: seq<string>, lib: NetLib)
    requires Lawful(lib) && OneLine(search)
    ensures Upstream(Rendered(Upstream(text, lib), search), lib) == Upstream(text, lib)
    ensures forall n :: n in Upstream(text, lib) ==> IsServer(n, lib)
  {
    ParsedAreServers(Split(text, '\n'), lib);
    RenderThenParse(Upstream(text, lib), search, lib);
  }

  // --------------------------------------------------------- the step on a node

  /** The servers a node gets: the configured ones, or those of its own resolv.conf text. */
  function Chosen(dns: DNSConfig, host: string, lib: NetLib): seq<string> {
    if dns.nameservers != [] then dns.nameservers else Upstream(host, lib)
  }

  /** Writes a file unless it already has the content. */
  function Write(file: Option<string>, content: string, net: Net, t: nat): Step<Option<string>> {
    if net.answers(t) && file == Some(content) then Step(file, t + 1, true) else Do(file, Some(content), net, t + 1)
  }

  /** What `configureK3sResolvConf` does to the file; `host` is the text the node prints for its own resolv.conf. */
  function Configure(file: Option<string>, host: string, dns: DNSConfig, lib: NetLib, net: Net, t: nat): Step<Option<string>> {
    var content := Rendered(Chosen(dns, host, lib), dns.searchDomains);
    if dns.nameservers != [] then Write(file, content, net, t)
    else if net.step(t) != Done || Upstream(host, lib) == [] then Step(file, t + 1, false)
    else Write(file, content, net, t + 1)
  }

  /** The resolv.conf file on a node, and the steps taken so far. */
  class Resolver {
    var file: Option<string>
    var clock: nat
    const net: Net

    constructor (file: Option<string>, net: Net)
      ensures this.file == file && this.net == net && clock == 0
    {
      this.file, this.net, clock := file, net, 0;
    }

    /** `FileEquals`, and `Upload` when the content differs. */
    method WriteFile(content: string) returns (ok: bool)
      modifies this
      ensures var run := Write(old(file), content, net, old(clock)); file == run.state && clock == run.clock && ok == run.ok
    {
      var read := net.answers(clock);
      clock := clock + 1;
      if read && file == Some(content) { return true; }
      var e := net.step(clock);
      clock := clock + 1;
      if e.Done? || e.Unseen? { file := Some(content); }
      ok := e.Done?;
    }

    /** `configureK3sResolvConf`. */
    method ConfigureK3sResolvConf(dns: DNSConfig, host: string, lib: NetLib) returns (ok: bool)
      modifies this
      ensures var run := Configure(old(file), host, dns, lib, net, old(clock)); file == run.state && clock == run.clock && ok == run.ok
    {
      hide Rendered, Upstream, Write;
      var nameservers := dns.nameservers;
      if |nameservers| == 0 {
        var e := net.step(clock);
        clock := clock + 1;
        if !e.Done? { return false; }
        nameservers := UpstreamNameservers(host, lib);
        if |nameservers| == 0 { return false; }
      }
      var content := RenderResolvConf(nameservers, dns.searchDomains);
      ok := WriteFile(content);
    }
  }

  /**
   Cut anywhere, the step leaves the old file or the complete new one.  After success the file holds
   the chosen servers, at least one, and the provider's own parser reads them back.
   */
  lemma ConfigureWrites(file: Option<string>, host: string, dns: DNSConfig, lib: NetLib, net: Net, t: nat)
    requires Lawful(lib) && OneLine(dns.searchDomains)
    ensures var run, servers := Configure(file, host, dns, lib, net, t), Chosen(dns, host, lib);
            && (run.state == file || run.state == Some(Rendered(servers, dns.searchDomains)))
            && (run.ok ==> servers != [] && run.state == Some(Rendered(servers, dns.searchDomains)))
            && (run.ok && (forall n :: n in servers ==> IsServer(n, lib)) ==> Upstream(run.state.value, lib) == FirstThree(servers))
            && (run.ok && dns.nameservers == [] ==> Upstream(run.state.value, lib) == Upstream(host, lib))
            && (run.ok && Words(servers) && Words(dns.searchDomains) ==> SearchList(Split(run.state.value, '\n')) == dns.searchDomains)
  {
    hide Rendered, Upstream, IsServer, Lawful, Words, Split, SearchList;
    if Words(Chosen(dns, host, lib)) && Words(dns.searchDomains) { SearchRead(Chosen(dns, host, lib), dns.searchDomains); }
    var servers := Chosen(dns, host, lib);
    if forall n :: n in servers ==> IsServer(n, lib) { RenderThenParse(servers, dns.searchDomains, lib); }
    if dns.nameservers == [] { ParseRenderParse(host, dns.searchDomains, lib); }
  }

  /** An undisturbed step fails only for want of a server, and repeating a successful one writes nothing. */
  lemma ConfigureCalm(file: Option<string>, host: string, dns: DNSConfig, lib: NetLib, net: Net, t: nat, calm: Net)
    requires Calm(calm)
    ensures Configure(file, host, dns, lib, calm, t).ok <==> Chosen(dns, host, lib) != []
    ensures var run := Configure(file, host, dns, lib, net, t);
            run.ok ==> Configure(run.state, host, dns, lib, calm, 0) == Step(run.state, if dns.nameservers != [] then 1 else 2, true)
  {
    hide Rendered, Upstream;
  }
}

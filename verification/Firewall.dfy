/**
 The UFW firewall of one node: the command chain, the marker file that records the last
 applied chain, and the shortcut that skips an unchanged chain.
 */
module Firewall {
  import opened Wrappers
  import opened Text
  import opened Shell

  // ------------------------------------------------------------ the commands

  datatype Proto = Tcp | Udp

  datatype Rule =
    | FromTo(source: string, port: int, proto: Proto)
    | OnInterface(iface: string)
    | ToPort(port: int, proto: Proto)

  /** The single commands of the `&&` chain. */
  datatype Command = AptUpdate | AptInstallUfw | Reset | DenyIncoming | AllowOutgoing | Allow(rule: Rule) | Enable

  function ProtoText(p: Proto): string { if p.Tcp? then "tcp" else "udp" }

  function PortText(port: int, proto: Proto): string { IntText(port) + "/" + ProtoText(proto) }

  function Pieces(c: Command): (ps: seq<Piece>)
    ensures ps != [] && forall i :: 0 <= i < |ps| ==> !ps[i].And?
  {
    match c
    case AptUpdate => [Lit("apt-get"), Lit("update"), Lit("-y")]
    case AptInstallUfw =>
      [Lit("DEBIAN_FRONTEND=noninteractive"), Lit("apt-get"), Lit("install"), Lit("-y"), Lit("ufw")]
    case Reset => [Lit("ufw"), Lit("--force"), Lit("reset")]
    case DenyIncoming => [Lit("ufw"), Lit("default"), Lit("deny"), Lit("incoming")]
    case AllowOutgoing => [Lit("ufw"), Lit("default"), Lit("allow"), Lit("outgoing")]
    case Allow(FromTo(source, port, proto)) =>
      [Lit("ufw"), Lit("allow"), Lit("from"), Quoted(source), Lit("to"), Lit("any"), Lit("port"), Lit(IntText(port)),
       Lit("proto"), Lit(ProtoText(proto))]
    case Allow(OnInterface(iface)) => [Lit("ufw"), Lit("allow"), Lit("in"), Lit("on"), Quoted(iface)]
    case Allow(ToPort(port, proto)) => [Lit("ufw"), Lit("allow"), Lit(PortText(port, proto))]
    case Enable => [Lit("ufw"), Lit("--force"), Lit("enable")]
  }

  function CommandText(c: Command): string { Line(Pieces(c)) }

  function CommandTexts(cs: seq<Command>): (t: seq<string>)
    ensures |t| == |cs|
  {
    if cs == [] then [] else [CommandText(cs[0])] + CommandTexts(cs[1..])
  }

  /** The script handed to the remote shell, and stored in the marker file. */
  function ScriptText(cs: seq<Command>): string { Join(CommandTexts(cs), " && ") + "\n" }

  function AllowAll(rules: seq<Rule>): (cs: seq<Command>)
    ensures |cs| == |rules|
  {
    if rules == [] then [] else AllowAll(rules[..|rules| - 1]) + [Allow(rules[|rules| - 1])]
  }

  const PREAMBLE: seq<Command> := [AptUpdate, AptInstallUfw, Reset, DenyIncoming, AllowOutgoing]

  /** The whole chain for a list of allowed traffic. */
  function Script(rules: seq<Rule>): seq<Command> { PREAMBLE + AllowAll(rules) + [Enable] }

  // --------------------------------------------- the script as the shell reads it

  lemma IntTextPlain(n: int)
    ensures AllPlain(IntText(n)) && IntText(n) != []
  {
  }

  lemma LongWordsPlain()
    ensures AllPlain("DEBIAN_FRONTEND=noninteractive") && AllPlain("incoming") && AllPlain("outgoing")
  {
  }

  lemma AptWordsPlain()
    ensures AllPlain("apt-get") && AllPlain("update") && AllPlain("install") && AllPlain("-y") && AllPlain("ufw")
  {
  }

  lemma UfwWordsPlain()
    ensures AllPlain("--force") && AllPlain("reset") && AllPlain("enable") && AllPlain("default")
    ensures AllPlain("deny") && AllPlain("allow") && AllPlain("from") && AllPlain("to") && AllPlain("any")
  {
  }

  lemma RuleWordsPlain()
    ensures AllPlain("port") && AllPlain("proto") && AllPlain("in") && AllPlain("on")
    ensures AllPlain("tcp") && AllPlain("udp") && AllPlain("/tcp") && AllPlain("/udp")
  {
  }

  lemma PortTextPlain(port: int, proto: Proto)
    ensures AllPlain(PortText(port, proto)) && PortText(port, proto) != [] && AllPlain(ProtoText(proto))
  {
    hide IntText;
    IntTextPlain(port);
    RuleWordsPlain();
    var suffix := "/" + ProtoText(proto);
    assert suffix == if proto.Tcp? then "/tcp" else "/udp";
    assert PortText(port, proto) == IntText(port) + suffix;
  }

  lemma PiecesWritable(c: Command)
    ensures AllWritable(Pieces(c))
  {
    hide IntText, AllPlain, PortText, ProtoText;
    LongWordsPlain();
    AptWordsPlain();
    UfwWordsPlain();
    RuleWordsPlain();
    if c.Allow? {
      match c.rule
      case FromTo(_, port, proto) => IntTextPlain(port); PortTextPlain(port, proto); assert ProtoText(proto) != [] by { ProtoNonEmpty(proto); }
      case OnInterface(_) =>
      case ToPort(port, proto) => PortTextPlain(port, proto);
    }
  }

  lemma ProtoNonEmpty(proto: Proto)
    ensures ProtoText(proto) != []
  {
  }

  /** The pieces of a chain, with `&&` between the commands. */
  function ChainPieces(cs: seq<Command>): seq<Piece> {
    if cs == [] then [] else if |cs| == 1 then Pieces(cs[0]) else Pieces(cs[0]) + [And] + ChainPieces(cs[1..])
  }

  lemma {:induction false} TextsAppend(a: seq<Piece>, b: seq<Piece>)
    ensures PieceTexts(a + b) == PieceTexts(a) + PieceTexts(b)
    ensures PieceTokens(a + b) == PieceTokens(a) + PieceTokens(b)
  {
    hide PieceText, PieceToken;
    if a == [] {
      assert a + b == b;
    } else {
      assert (a + b)[1..] == a[1..] + b;
      TextsAppend(a[1..], b);
    }
  }

  lemma LineAppend(a: seq<Piece>, b: seq<Piece>)
    requires a != [] && b != []
    ensures Line(a + [And] + b) == Line(a) + " && " + Line(b)
  {
    hide PieceTexts, PieceTokens, Join;
    TextsAppend(a, [And] + b);
    TextsAppend([And], b);
    assert a + [And] + b == a + ([And] + b);
    AndText();
    JoinAppend(PieceTexts(a), ["&&"] + PieceTexts(b), " ");
    JoinHead("&&", PieceTexts(b), " ");
    assert Line(a) + " " + ("&&" + (" " + Line(b))) == Line(a) + " && " + Line(b);
  }

  lemma AndText()
    ensures PieceTexts([And]) == ["&&"]
  {
  }

  /** Joining the command texts with ` && ` writes the pieces of the chain. */
  lemma {:induction false} ChainLine(cs: seq<Command>)
    requires cs != []
    ensures Join(CommandTexts(cs), " && ") == Line(ChainPieces(cs))
    ensures ChainPieces(cs) != [] && AllWritable(ChainPieces(cs))
    decreases |cs|
  {
    hide Pieces, Writable, Line;
    PiecesWritable(cs[0]);
    JoinHead(CommandText(cs[0]), CommandTexts(cs[1..]), " && ");
    if |cs| > 1 {
      ChainLine(cs[1..]);
      LineAppend(Pieces(cs[0]), ChainPieces(cs[1..]));
      AndWritable();
    }
  }

  lemma AndWritable()
    ensures Writable(And)
  {
  }

  /** No rule text carries a NUL. */
  predicate CleanRule(r: Rule) {
    match r
    case FromTo(source, _, _) => NUL !in source
    case OnInterface(iface) => NUL !in iface
    case ToPort(_, _) => true
  }

  predicate CleanCommand(c: Command) { c.Allow? ==> CleanRule(c.rule) }

  predicate CleanRules(rules: seq<Rule>) { forall i :: 0 <= i < |rules| ==> CleanRule(rules[i]) }

  lemma {:induction false} ChainClean(cs: seq<Command>)
    requires forall i :: 0 <= i < |cs| ==> CleanCommand(cs[i])
    ensures AllClean(ChainPieces(cs))
    decreases |cs|
  {
    if cs != [] {
      assert AllClean(Pieces(cs[0]));
      ChainClean(cs[1..]);
    }
  }

  lemma ScriptIsRead(cs: seq<Command>)
    requires cs != [] && forall i :: 0 <= i < |cs| ==> CleanCommand(cs[i])
    ensures Lex(ScriptText(cs)) == Some(PieceTokens(ChainPieces(cs)) + [NewLine])
  {
    hide ChainPieces, CommandTexts, LexFrom;
    ChainLine(cs);
    ChainClean(cs);
    LexLine(ChainPieces(cs), true);
  }

  lemma {:induction false} NoAndInside(ps: seq<Piece>)
    requires forall i :: 0 <= i < |ps| ==> !ps[i].And?
    ensures forall i :: 0 <= i < |ps| ==> PieceTokens(ps)[i].Word?
  {
    if ps != [] { NoAndInside(ps[1..]); }
  }

  // ------------------------------------------------- the script as ufw reads it

  function ReadInt(s: string): Option<int> {
    if Canonical(s) then Some(DecimalValue(s))
    else if s != "" && s[0] == '-' && Canonical(s[1..]) then
      var n: int := DecimalValue(s[1..]);
      Some(-n)
    else None
  }

  function ReadProto(s: string): Option<Proto> { if s == "tcp" then Some(Tcp) else if s == "udp" then Some(Udp) else None }

  /** `PORT/tcp` or `PORT/udp`. */
  function ReadPort(s: string): Option<Rule> {
    if |s| < 4 || s[|s| - 4] != '/' then None else
      match (ReadInt(s[..|s| - 4]), ReadProto(s[|s| - 3..]))
      case (Some(port), Some(proto)) => Some(ToPort(port, proto))
      case _ => None
  }

  /** What stands behind `ufw allow`: a port, `in on IFACE`, or `from SOURCE to any port PORT proto PROTO`. */
  function ReadRule(ts: seq<Token>): Option<Rule> {
    if exists i :: 0 <= i < |ts| && !ts[i].Word? then None
    else if |ts| == 1 then ReadPort(ts[0].text)
    else if |ts| == 3 && ts[0].text == "in" && ts[1].text == "on" then Some(OnInterface(ts[2].text))
    else if |ts| == 8 && ts[0].text == "from" && ts[2].text == "to" && ts[3].text == "any" && ts[4].text == "port" && ts[6].text == "proto" then
      match (ReadInt(ts[5].text), ReadProto(ts[7].text))
      case (Some(port), Some(proto)) => Some(FromTo(ts[1].text, port, proto))
      case _ => None
    else None
  }

  function ReadUfw(ts: seq<Token>): Option<Command> {
    if |ts| < 2 then None
    else if ts[0] == Word("--force") then
      if ts[1..] == [Word("reset")] then Some(Reset) else if ts[1..] == [Word("enable")] then Some(Enable) else None
    else if ts[0] == Word("default") then
      if ts[1..] == [Word("deny"), Word("incoming")] then Some(DenyIncoming)
      else if ts[1..] == [Word("allow"), Word("outgoing")] then Some(AllowOutgoing) else None
    else if ts[0] == Word("allow") then
      match ReadRule(ts[1..]) case Some(r) => Some(Allow(r)) case None => None
    else None
  }

  const APT_UPDATE: seq<Token> := [Word("apt-get"), Word("update"), Word("-y")]
  const APT_INSTALL: seq<Token> :=
    [Word("DEBIAN_FRONTEND=noninteractive"), Word("apt-get"), Word("install"), Word("-y"), Word("ufw")]

  /** One command line of the chain. */
  function ReadCommand(ts: seq<Token>): Option<Command> {
    if ts == [] then None
    else if ts[0] == Word("ufw") then ReadUfw(ts[1..])
    else if ts == APT_UPDATE then Some(AptUpdate) else if ts == APT_INSTALL then Some(AptInstallUfw) else None
  }

  lemma IntRead(n: int)
    ensures ReadInt(IntText(n)) == Some(n)
  {
    if n < 0 { assert IntText(n)[1..] == Decimal(-n); }
  }

  lemma PortRead(port: int, proto: Proto)
    ensures ReadPort(PortText(port, proto)) == Some(ToPort(port, proto)) && ReadProto(ProtoText(proto)) == Some(proto)
  {
    hide IntText, ReadInt;
    IntRead(port);
    var s := PortText(port, proto);
    assert s[..|s| - 4] == IntText(port) && s[|s| - 3..] == ProtoText(proto) && s[|s| - 4] == '/';
  }

  /** The tokens of a command, written out. */
  lemma TokensOf(c: Command)
    ensures var ps, ts := Pieces(c), PieceTokens(Pieces(c)); |ts| == |ps| && forall i :: 0 <= i < |ps| ==> ts[i] == PieceToken(ps[i])
  {
    forall i | 0 <= i < |Pieces(c)| ensures PieceTokens(Pieces(c))[i] == PieceToken(Pieces(c)[i]) {
      PiecesAt(Pieces(c), i);
    }
  }

  lemma RuleRead(r: Rule)
    ensures var ts := PieceTokens(Pieces(Allow(r))); |ts| > 2 && ts[0] == Word("ufw") && ts[1] == Word("allow") && ReadRule(ts[2..]) == Some(r)
  {
    hide IntText, ReadInt, ReadPort, ReadProto, PortText, ProtoText, PieceTokens;
    TokensOf(Allow(r));
    match r
    case FromTo(source, port, proto) => IntRead(port); PortRead(port, proto);
    case OnInterface(iface) =>
    case ToPort(port, proto) => PortRead(port, proto);
  }

  /** Every command is read as itself. */
  lemma CommandRead(c: Command)
    ensures ReadCommand(PieceTokens(Pieces(c))) == Some(c)
  {
    hide ReadRule, PieceTokens;
    TokensOf(c);
    var ts := PieceTokens(Pieces(c));
    match c
    case Allow(r) => RuleRead(r); assert ts[1..][1..] == ts[2..];
    case AptUpdate => assert ts == APT_UPDATE && "apt-get"[0] == 'a';
    case AptInstallUfw => assert ts == APT_INSTALL;
    case Reset => assert ts[1..][1..] == [Word("reset")];
    case Enable => assert ts[1..][1..] == [Word("enable")];
    case DenyIncoming => assert ts[1..][1..] == [Word("deny"), Word("incoming")];
    case AllowOutgoing => assert ts[1..][1..] == [Word("allow"), Word("outgoing")];
  }

  /** The place of the first `&&`, or the end. */
  function FirstAnd(ts: seq<Token>): (k: nat)
    ensures k <= |ts|
  {
    if ts == [] || ts[0].AndIf? then 0 else 1 + FirstAnd(ts[1..])
  }

  lemma {:induction false} FirstAndAfter(u: seq<Token>, rest: seq<Token>)
    requires (forall i :: 0 <= i < |u| ==> u[i].Word?) && (rest == [] || rest[0].AndIf?)
    ensures FirstAnd(u + rest) == |u|
    decreases |u|
  {
    if u == [] {
      assert u + rest == rest;
    } else {
      assert (u + rest)[1..] == u[1..] + rest;
      FirstAndAfter(u[1..], rest);
    }
  }

  /** The commands of a chain, up to the end of the line. */
  function ReadChain(ts: seq<Token>): Option<seq<Command>>
    decreases |ts|
  {
    var k := FirstAnd(ts);
    match ReadCommand(ts[..k])
    case None => None
    case Some(c) =>
      if k == |ts| then Some([c]) else
        match ReadChain(ts[k + 1..])
        case None => None
        case Some(cs) => Some([c] + cs)
  }

  /** The remote side's view of a script: shell words first, then the commands. */
  function ReadScript(text: string): Option<seq<Command>> {
    match Lex(text)
    case None => None
    case Some(ts) => if ts != [] && ts[|ts| - 1].NewLine? then ReadChain(ts[..|ts| - 1]) else None
  }

  function ChainTokens(cs: seq<Command>): seq<Token> { PieceTokens(ChainPieces(cs)) }

  lemma ChainTokensStep(cs: seq<Command>)
    requires cs != []
    ensures |cs| == 1 ==> ChainTokens(cs) == PieceTokens(Pieces(cs[0]))
    ensures |cs| > 1 ==> ChainTokens(cs) == PieceTokens(Pieces(cs[0])) + ([AndIf] + ChainTokens(cs[1..]))
  {
    hide Pieces, PieceTokens;
    if |cs| > 1 {
      TextsAppend(Pieces(cs[0]) + [And], ChainPieces(cs[1..]));
      TextsAppend(Pieces(cs[0]), [And]);
      AndToken();
    }
  }

  lemma AndToken()
    ensures PieceTokens([And]) == [AndIf]
  {
  }

  lemma {:induction false} ChainRead(cs: seq<Command>)
    requires cs != []
    ensures ReadChain(ChainTokens(cs)) == Some(cs)
    decreases |cs|
  {
    hide Pieces, ChainTokens, PieceTokens, ReadCommand, FirstAnd;
    ChainTokensStep(cs);
    NoAndInside(Pieces(cs[0]));
    CommandRead(cs[0]);
    var u := PieceTokens(Pieces(cs[0]));
    var rest := if |cs| == 1 then [] else [AndIf] + ChainTokens(cs[1..]);
    assert ChainTokens(cs) == u + rest;
    FirstAndAfter(u, rest);
    assert (u + rest)[..|u|] == u;
    if |cs| > 1 {
      ChainRead(cs[1..]);
      assert (u + rest)[|u| + 1..] == ChainTokens(cs[1..]);
    } else {
      assert u + rest == u && cs == [cs[0]];
    }
    assert cs == [cs[0]] + cs[1..];
  }

  /** The script is read as exactly its commands: nothing is lost, split or reinterpreted on the way. */
  lemma ScriptRoundTrip(cs: seq<Command>)
    requires cs != [] && forall i :: 0 <= i < |cs| ==> CleanCommand(cs[i])
    ensures ReadScript(ScriptText(cs)) == Some(cs)
  {
    hide ScriptText, Lex, ChainPieces, ReadChain;
    ScriptIsRead(cs);
    ChainRead(cs);
    assert (ChainTokens(cs) + [NewLine])[..|ChainTokens(cs)|] == ChainTokens(cs);
  }

  /** Equal script texts are equal chains: comparing the marker's bytes compares the commands. */
  lemma ScriptTextInjective(a: seq<Command>, b: seq<Command>)
    requires a != [] && b != [] && ScriptText(a) == ScriptText(b)
    requires forall i :: 0 <= i < |a| ==> CleanCommand(a[i])
    requires forall i :: 0 <= i < |b| ==> CleanCommand(b[i])
    ensures a == b
  {
    hide ScriptText, ReadScript;
    ScriptRoundTrip(a);
    ScriptRoundTrip(b);
  }

  lemma {:induction false} AllowAllInjective(a: seq<Rule>, b: seq<Rule>)
    requires AllowAll(a) == AllowAll(b)
    ensures a == b
  {
    if a != [] {
      var n := |a| - 1;
      assert AllowAll(a)[..n] == AllowAll(a[..n]) && AllowAll(b)[..n] == AllowAll(b[..n]);
      assert AllowAll(a)[n] == Allow(a[n]) && AllowAll(b)[n] == Allow(b[n]);
      AllowAllInjective(a[..n], b[..n]);
    }
  }

  lemma {:induction false} AllowAllAt(rules: seq<Rule>, i: nat)
    requires i < |rules|
    ensures AllowAll(rules)[i] == Allow(rules[i])
  {
    if i < |rules| - 1 { AllowAllAt(rules[..|rules| - 1], i); }
  }

  lemma ScriptClean(rules: seq<Rule>)
    requires CleanRules(rules)
    ensures forall i :: 0 <= i < |Script(rules)| ==> CleanCommand(Script(rules)[i])
  {
    var s := Script(rules);
    forall i | 0 <= i < |s| ensures CleanCommand(s[i]) {
      if 5 <= i < 5 + |rules| { AllowAllAt(rules, i - 5); }
    }
  }

  lemma MarkerInjective(a: seq<Rule>, b: seq<Rule>)
    requires CleanRules(a) && CleanRules(b) && ScriptText(Script(a)) == ScriptText(Script(b))
    ensures a == b
  {
    hide ScriptText, AllowAll;
    ScriptClean(a);
    ScriptClean(b);
    ScriptTextInjective(Script(a), Script(b));
    assert |Script(a)| == 6 + |a| && |Script(b)| == 6 + |b|;
    assert Script(a)[5..5 + |a|] == AllowAll(a) && Script(b)[5..5 + |b|] == AllowAll(b);
    AllowAllInjective(a, b);
  }
}

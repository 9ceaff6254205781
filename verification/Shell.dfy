/**
 Quoting for remote commands, read back by a shell lexer.  The lexer follows sections 2.2.1
 (escape character), 2.2.2 (single-quotes) and 2.3 (token recognition) of the POSIX.1-2017
 Shell Command Language; input that uses any other special character is refused with `None`.
 */
module Shell {
  import opened Wrappers
  import opened Text

  // --------------------------------------------------------------- the lexer

  datatype Token = Word(text: string) | AndIf | NewLine

  const NUL: char := '\0'

  /** Characters that stand for themselves wherever they appear unquoted. */
  predicate Plain(c: char) {
    'a' <= c <= 'z' || 'A' <= c <= 'Z' || IsDigit(c)
    || c == '-' || c == '_' || c == '.' || c == '/' || c == ':' || c == '=' || c == ',' || c == '+' || c == '@'
  }

  predicate AllPlain(s: string) { forall i :: 0 <= i < |s| ==> Plain(s[i]) }

  /** Index of the first `c` in `s`, or |s|. */
  function CharIndex(s: string, c: char): (i: nat)
    ensures i <= |s| && c !in s[..i] && (i < |s| ==> s[i] == c)
    ensures i == |s| <==> c !in s
  {
    if s == [] then 0 else if s[0] == c then 0 else
      var i := CharIndex(s[1..], c);
      assert s == [s[0]] + s[1..];
      assert s[..i + 1] == [s[0]] + s[1..][..i];
      i + 1
  }

  lemma {:induction false} IndexAfter(p: string, c: char, rest: string)
    requires c !in p
    ensures CharIndex(p + ([c] + rest), c) == |p|
  {
    var s := p + ([c] + rest);
    if p == [] {
      assert s[0] == c;
    } else {
      assert s[0] == p[0] && s[1..] == p[1..] + ([c] + rest);
      IndexAfter(p[1..], c, rest);
    }
  }

  /** The characters of the token being built. */
  function Built(cur: Option<string>): string { if cur.Some? then cur.value else "" }

  function Cons(t: Token, rest: Option<seq<Token>>): Option<seq<Token>> {
    if rest.Some? then Some([t] + rest.value) else None
  }

  /** Delimits the token being built, if any. */
  function Flush(cur: Option<string>, rest: Option<seq<Token>>): Option<seq<Token>> {
    if cur.Some? then Cons(Word(cur.value), rest) else rest
  }

  /** Reads the input from `s`; `cur` is the token being built, `None` between tokens. */
  function LexFrom(s: string, cur: Option<string>): Option<seq<Token>>
    decreases |s|
  {
    if s == [] then Flush(cur, Some([]))
    else
      var c := s[0];
      if c == ' ' || c == '\t' then Flush(cur, LexFrom(s[1..], None))
      else if c == '\n' then Flush(cur, Cons(NewLine, LexFrom(s[1..], None)))
      else if c == '&' then
        if |s| >= 2 && s[1] == '&' then Flush(cur, Cons(AndIf, LexFrom(s[2..], None))) else None
      else if c == '\'' then
        var k := CharIndex(s[1..], '\'');
        if k == |s| - 1 || NUL in s[1..k + 1] then None
        else LexFrom(s[k + 2..], Some(Built(cur) + s[1..k + 1]))
      else if c == '\\' then
        if |s| < 2 || s[1] == NUL then None
        else if s[1] == '\n' then LexFrom(s[2..], cur)
        else LexFrom(s[2..], Some(Built(cur) + [s[1]]))
      else if Plain(c) then LexFrom(s[1..], Some(Built(cur) + [c]))
      else None
  }

  function Lex(s: string): Option<seq<Token>> { LexFrom(s, None) }

  // ----------------------------------------------------------------- quoting

  /** `shellQuote`. */
  function ShellQuote(s: string): string { "'" + ReplaceAll(s, "'", "'\\''") + "'" }

  lemma QuoteSimple(s: string)
    requires '\'' !in s
    ensures ShellQuote(s) == "'" + s + "'"
  {
    ReplaceAllSkips(s, "", "'", "'\\''");
    assert s + "" == s;
  }

  /** Quoting around the first single quote: close, escape it, and quote the rest. */
  lemma QuoteSplits(p: string, tail: string)
    requires '\'' !in p
    ensures ShellQuote(p + ("'" + tail)) == "'" + p + "'" + ("\\'" + ShellQuote(tail))
  {
    hide ReplaceAll;
    ReplaceAtQuote(p, tail);
    Reassociate(p, ReplaceAll(tail, "'", "'\\''"));
  }

  lemma ReplaceAtQuote(p: string, tail: string)
    requires '\'' !in p
    ensures ReplaceAll(p + ("'" + tail), "'", "'\\''") == p + ("'\\''" + ReplaceAll(tail, "'", "'\\''"))
  {
    ReplaceAllSkips(p, "'" + tail, "'", "'\\''");
    assert ("'" + tail)[..1] == "'";
    assert ("'" + tail)[1..] == tail;
  }

  lemma Reassociate(p: string, r: string)
    ensures "'" + (p + ("'\\''" + r)) + "'" == "'" + p + "'" + ("\\'" + ("'" + r + "'"))
  {
  }

  lemma LexQuoteStep(s: string, cur: Option<string>)
    requires s != [] && s[0] == '\''
    ensures var k := CharIndex(s[1..], '\'');
            LexFrom(s, cur) == if k == |s| - 1 || NUL in s[1..k + 1] then None
                               else LexFrom(s[k + 2..], Some(Built(cur) + s[1..k + 1]))
  {
  }

  /** A single-quoted run is read as its characters. */
  lemma LexQuotedRun(p: string, rest: string, cur: Option<string>)
    requires '\'' !in p
    ensures LexFrom("'" + p + "'" + rest, cur) == if NUL in p then None else LexFrom(rest, Some(Built(cur) + p))
  {
    hide LexFrom;
    var s := "'" + p + "'" + rest;
    assert s[1..] == p + (['\''] + rest);
    IndexAfter(p, '\'', rest);
    LexQuoteStep(s, cur);
    assert s[1..|p| + 1] == p;
    assert s[|p| + 2..] == rest;
  }

  lemma LexEscaped(c: char, rest: string, cur: Option<string>)
    requires c != NUL && c != '\n'
    ensures LexFrom("\\" + [c] + rest, cur) == LexFrom(rest, Some(Built(cur) + [c]))
  {
    var s := "\\" + [c] + rest;
    assert s[2..] == rest;
  }

  /** Reading a quoted string up to and including its first single quote. */
  lemma LexToQuote(p: string, tail: string, rest: string, cur: Option<string>)
    requires '\'' !in p
    ensures LexFrom(ShellQuote(p + ("'" + tail)) + rest, cur) ==
            if NUL in p then None else LexFrom(ShellQuote(tail) + rest, Some(Built(cur) + p + ['\'']))
  {
    hide ShellQuote, LexFrom;
    var after := ShellQuote(tail) + rest;
    QuoteSplits(p, tail);
    assert "'" + p + "'" + ("\\'" + ShellQuote(tail)) + rest == "'" + p + "'" + ("\\" + ['\''] + after);
    LexQuotedRun(p, "\\" + ['\''] + after, cur);
    LexEscaped('\'', after, Some(Built(cur) + p));
  }

  /**
   A quoted string contributes exactly its characters to the token being built, also in the
   middle of a word.  A NUL, which no argument of a process can hold, is refused.
   */
  lemma {:induction false} LexQuoted(s: string, rest: string, cur: Option<string>)
    ensures LexFrom(ShellQuote(s) + rest, cur) == if NUL in s then None else LexFrom(rest, Some(Built(cur) + s))
    decreases |s|
  {
    hide ShellQuote, LexFrom;
    if '\'' !in s {
      QuoteSimple(s);
      LexQuotedRun(s, rest, cur);
    } else {
      var p, tail := FirstQuote(s);
      LexToQuote(p, tail, rest, cur);
      if NUL !in p {
        LexQuoted(tail, rest, Some(Built(cur) + p + ['\'']));
        Extend(Built(cur), p, tail);
      }
    }
  }

  lemma FirstQuote(s: string) returns (p: string, tail: string)
    requires '\'' in s
    ensures s == p + ("'" + tail) && '\'' !in p && |tail| < |s|
    ensures NUL in s <==> NUL in p || NUL in tail
  {
    var k := CharIndex(s, '\'');
    p, tail := s[..k], s[k + 1..];
    assert s == p + ("'" + tail);
  }

  lemma Extend(a: string, p: string, tail: string)
    ensures a + p + ['\''] + tail == a + (p + ("'" + tail))
  {
  }

  lemma {:induction false} LexPlain(w: string, rest: string, cur: Option<string>)
    requires AllPlain(w) && w != []
    ensures LexFrom(w + rest, cur) == LexFrom(rest, Some(Built(cur) + w))
    decreases |w|
  {
    var s := w + rest;
    assert s[1..] == w[1..] + rest;
    if |w| == 1 {
      assert w[1..] + rest == rest;
      assert w == [w[0]];
    } else {
      LexPlain(w[1..], rest, Some(Built(cur) + [w[0]]));
      assert Built(cur) + [w[0]] + w[1..] == Built(cur) + w;
    }
  }

  // ------------------------------------------------------------ command lines

  /** A piece of a command line as the program writes it. */
  datatype Piece = Lit(word: string) | Quoted(arg: string) | And

  predicate Writable(p: Piece) { p.Lit? ==> p.word != [] && AllPlain(p.word) }

  function PieceText(p: Piece): string {
    match p
    case Lit(w) => w
    case Quoted(a) => ShellQuote(a)
    case And => "&&"
  }

  function PieceToken(p: Piece): Token {
    match p
    case Lit(w) => Word(w)
    case Quoted(a) => Word(a)
    case And => AndIf
  }

  function PieceTexts(ps: seq<Piece>): (t: seq<string>)
    ensures |t| == |ps|
  {
    if ps == [] then [] else [PieceText(ps[0])] + PieceTexts(ps[1..])
  }

  function PieceTokens(ps: seq<Piece>): (t: seq<Token>)
    ensures |t| == |ps|
  {
    if ps == [] then [] else [PieceToken(ps[0])] + PieceTokens(ps[1..])
  }

  function Line(ps: seq<Piece>): string { Join(PieceTexts(ps), " ") }

  /** The argument carries no NUL. */
  predicate Clean(p: Piece) { p.Quoted? ==> NUL !in p.arg }

  predicate AllClean(ps: seq<Piece>) { forall i :: 0 <= i < |ps| ==> Clean(ps[i]) }

  predicate AllWritable(ps: seq<Piece>) { forall i :: 0 <= i < |ps| ==> Writable(ps[i]) }

  /** Reading up to a delimiter gives the piece's token. */
  lemma LexPiece(p: Piece, end: string)
    requires Writable(p) && (end == [] || end[0] == ' ' || end[0] == '\n')
    ensures LexFrom(PieceText(p) + end, None) ==
            if !Clean(p) then None
            else if p.And? then Cons(AndIf, LexFrom(end, None))
            else LexFrom(end, Some(PieceToken(p).text))
  {
    match p
    case Lit(w) => LexPlain(w, end, None); assert "" + w == w;
    case Quoted(a) => LexQuoted(a, end, None); assert "" + a == a;
    case And => assert ("&&" + end)[2..] == end;
  }

  lemma LexDelimiter(w: string, rest: string)
    ensures LexFrom(" " + rest, Some(w)) == Cons(Word(w), LexFrom(rest, None))
    ensures LexFrom(" " + rest, None) == LexFrom(rest, None)
    ensures LexFrom("\n", Some(w)) == Some([Word(w), NewLine])
    ensures LexFrom("\n", None) == Some([NewLine])
    ensures LexFrom("", Some(w)) == Some([Word(w)])
    ensures LexFrom("", None) == Some([])
  {
    assert (" " + rest)[1..] == rest;
    assert "\n"[1..] == "";
    assert LexFrom("", None) == Some([]);
    assert [NewLine] + [] == [NewLine] && [Word(w)] + [] == [Word(w)];
    assert [Word(w)] + [NewLine] == [Word(w), NewLine];
  }

  function LineEnd(newLine: bool): string { if newLine then "\n" else "" }

  function EndTokens(newLine: bool): seq<Token> { if newLine then [NewLine] else [] }

  /** A last piece and the line end. */
  lemma LexLast(p: Piece, newLine: bool)
    requires Writable(p)
    ensures LexFrom(PieceText(p) + LineEnd(newLine), None) ==
            if Clean(p) then Some([PieceToken(p)] + EndTokens(newLine)) else None
  {
    hide LexFrom, PieceText, Writable;
    LexPiece(p, LineEnd(newLine));
    LexDelimiter(if p.And? then "" else PieceToken(p).text, "");
    var t := PieceToken(p);
    assert [t] + [NewLine] == [t, NewLine] && [t] + [] == [t];
  }

  /** A piece with another one behind it. */
  lemma LexNext(p: Piece, rest: string)
    requires Writable(p)
    ensures LexFrom(PieceText(p) + (" " + rest), None) ==
            if Clean(p) then Cons(PieceToken(p), LexFrom(rest, None)) else None
  {
    hide LexFrom, PieceText, Writable, Clean;
    LexPiece(p, " " + rest);
    LexDelimiter(if p.And? then "" else PieceToken(p).text, rest);
  }

  /** A command line is read as exactly its pieces, unless an argument holds a NUL. */
  lemma {:induction false} LexLine(ps: seq<Piece>, newLine: bool)
    requires AllWritable(ps) && ps != []
    ensures LexFrom(Line(ps) + LineEnd(newLine), None) ==
            if AllClean(ps) then Some(PieceTokens(ps) + EndTokens(newLine)) else None
    decreases |ps|
  {
    hide LexFrom, PieceText, PieceToken, Writable, Clean, LineEnd, EndTokens, AllClean, Line;
    var p, end := ps[0], LineEnd(newLine);
    LineSplits(ps);
    CleanSplits(ps);
    if |ps| == 1 {
      LexLast(p, newLine);
    } else {
      assert PieceText(p) + (" " + Line(ps[1..])) + end == PieceText(p) + (" " + (Line(ps[1..]) + end));
      LexNext(p, Line(ps[1..]) + end);
      LexLine(ps[1..], newLine);
      assert [PieceToken(p)] + PieceTokens(ps[1..]) + EndTokens(newLine) == [PieceToken(p)] + (PieceTokens(ps[1..]) + EndTokens(newLine));
    }
  }

  lemma LineSplits(ps: seq<Piece>)
    requires ps != []
    ensures |ps| == 1 ==> Line(ps) == PieceText(ps[0]) && PieceTokens(ps) == [PieceToken(ps[0])]
    ensures |ps| > 1 ==> Line(ps) == PieceText(ps[0]) + (" " + Line(ps[1..]))
  {
    hide PieceText, PieceToken, Join;
    JoinHead(PieceText(ps[0]), PieceTexts(ps[1..]), " ");
  }

  lemma CleanSplits(ps: seq<Piece>)
    requires ps != []
    ensures AllClean(ps) <==> Clean(ps[0]) && (|ps| > 1 ==> AllClean(ps[1..]))
  {
    hide Clean;
    if Clean(ps[0]) && (|ps| > 1 ==> AllClean(ps[1..])) {
      forall i | 0 <= i < |ps| ensures Clean(ps[i]) {
        if i > 0 { assert Clean(ps[1..][i - 1]); }
      }
    }
    if AllClean(ps) {
      forall i | 0 <= i < |ps| - 1 ensures Clean(ps[1..][i]) { assert Clean(ps[i + 1]); }
    }
  }

  // ---------------------------------------------------------------- shellArgs

  function Quotes(args: seq<string>): (q: seq<string>)
    ensures |q| == |args|
  {
    if args == [] then [] else Quotes(args[..|args| - 1]) + [ShellQuote(args[|args| - 1])]
  }

  function QuotedPieces(args: seq<string>): (ps: seq<Piece>)
    ensures |ps| == |args| && forall i :: 0 <= i < |args| ==> ps[i] == Quoted(args[i])
  {
    seq(|args|, i requires 0 <= i < |args| => Quoted(args[i]))
  }

  function Words(args: seq<string>): (ts: seq<Token>)
    ensures |ts| == |args| && forall i :: 0 <= i < |args| ==> ts[i] == Word(args[i])
  {
    seq(|args|, i requires 0 <= i < |args| => Word(args[i]))
  }

  lemma {:induction false} PiecesAt(ps: seq<Piece>, i: nat)
    requires i < |ps|
    ensures PieceTexts(ps)[i] == PieceText(ps[i]) && PieceTokens(ps)[i] == PieceToken(ps[i])
  {
    if i > 0 { PiecesAt(ps[1..], i - 1); }
  }

  lemma {:induction false} QuotesAt(args: seq<string>, i: nat)
    requires i < |args|
    ensures Quotes(args)[i] == ShellQuote(args[i])
  {
    if i < |args| - 1 { QuotesAt(args[..|args| - 1], i); }
  }

  predicate NulFree(args: seq<string>) { forall i :: 0 <= i < |args| ==> NUL !in args[i] }

  /**
   `shellArgs`: the quoted arguments joined to the command.  The shell reads the line back as
   the command and exactly the given arguments, for every argument list without NUL.
   */
  method ShellArgs(command: string, args: seq<string>) returns (line: string)
    requires command != [] && AllPlain(command)
    ensures line == Join([command] + Quotes(args), " ")
    ensures NulFree(args) ==> Lex(line) == Some([Word(command)] + Words(args))
    ensures !NulFree(args) ==> Lex(line) == None
  {
    var parts := [command];
    for i := 0 to |args|
      invariant parts == [command] + Quotes(args[..i])
    {
      assert args[..i + 1][..i] == args[..i];
      parts := parts + [ShellQuote(args[i])];
    }
    assert args[..|args|] == args;
    line := Join(parts, " ");
    ArgsAreRead(command, args);
  }

  lemma ArgsAreRead(command: string, args: seq<string>)
    requires command != [] && AllPlain(command)
    ensures Lex(Join([command] + Quotes(args), " ")) ==
            if NulFree(args) then Some([Word(command)] + Words(args)) else None
  {
    hide LexFrom, ShellQuote, PieceTexts, PieceTokens, Join, AllWritable, AllClean, NulFree, Words, Quotes, QuotedPieces;
    var ps := [Lit(command)] + QuotedPieces(args);
    SamePieces(command, args);
    CleanArgs(command, args);
    LexLine(ps, false);
    assert Line(ps) == Join([command] + Quotes(args), " ");
    assert Line(ps) + LineEnd(false) == Line(ps);
    assert PieceTokens(ps) + EndTokens(false) == PieceTokens(ps);
  }

  lemma SamePieces(command: string, args: seq<string>)
    ensures PieceTexts([Lit(command)] + QuotedPieces(args)) == [command] + Quotes(args)
    ensures PieceTokens([Lit(command)] + QuotedPieces(args)) == [Word(command)] + Words(args)
  {
    hide ShellQuote;
    var ps := [Lit(command)] + QuotedPieces(args);
    forall i | 0 <= i < |ps|
      ensures PieceTexts(ps)[i] == ([command] + Quotes(args))[i] && PieceTokens(ps)[i] == ([Word(command)] + Words(args))[i]
    {
      PiecesAt(ps, i);
      if i > 0 { QuotesAt(args, i - 1); }
    }
  }

  lemma CleanArgs(command: string, args: seq<string>)
    ensures command != [] && AllPlain(command) ==> AllWritable([Lit(command)] + QuotedPieces(args))
    ensures AllClean([Lit(command)] + QuotedPieces(args)) <==> NulFree(args)
  {
    var ps := [Lit(command)] + QuotedPieces(args);
    forall i | 0 <= i < |args| ensures Clean(ps[i + 1]) <==> NUL !in args[i] { }
    if AllClean(ps) {
      forall i | 0 <= i < |args| ensures NUL !in args[i] { assert Clean(ps[i + 1]); }
    }
  }
}

/**
 Strings as the provider handles them: decimal numbers, splitting and joining,
 first-occurrence search, trimming and replacement.  The functions follow the Go
 `strings` package and the Python `str` methods of the same purpose.
 */
module Text {

  // ---------------------------------------------------------------- decimal

  predicate IsDigit(c: char) { '0' <= c <= '9' }

  predicate AllDigits(s: string) { forall i :: 0 <= i < |s| ==> IsDigit(s[i]) }

  function Digit(d: nat): (c: char)
    requires d < 10
    ensures IsDigit(c)
  {
    ('0' as int + d) as char
  }

  function DecimalValue(s: string): nat
    requires AllDigits(s)
  {
    if s == [] then 0 else 10 * DecimalValue(s[..|s| - 1]) + (s[|s| - 1] as int - '0' as int)
  }

  /** The text of `%d` for a natural number: no sign and no leading zero. */
  function Decimal(n: nat): (s: string)
    ensures s != [] && AllDigits(s)
    ensures |s| > 1 ==> s[0] != '0'
    ensures DecimalValue(s) == n
  {
    if n < 10 then [Digit(n)] else
      var front := Decimal(n / 10);
      var s := front + [Digit(n % 10)];
      assert s[..|s| - 1] == front;
      assert n / 10 == 0 ==> n < 10;
      s
  }

  /** The text of `%d` for any integer. */
  function IntText(n: int): string { if n < 0 then "-" + Decimal(-n) else Decimal(n) }

  predicate Canonical(s: string) { s != [] && AllDigits(s) && (|s| > 1 ==> s[0] != '0') }

  lemma {:induction false} DecimalOfValue(s: string)
    requires Canonical(s)
    ensures Decimal(DecimalValue(s)) == s
  {
    var front, last := s[..|s| - 1], s[|s| - 1];
    if front == [] {
      assert s == [last];
    } else {
      DecimalOfValue(front);
      assert Decimal(0) == "0";
      assert front[0] == s[0];
      var d := last as int - '0' as int;
      assert Digit(d) == last;
      assert s == front + [last];
      assert (10 * DecimalValue(front) + d) / 10 == DecimalValue(front);
    }
  }

  lemma DecimalInjective(a: nat, b: nat)
    requires Decimal(a) == Decimal(b)
    ensures a == b
  {
    assert DecimalValue(Decimal(a)) == DecimalValue(Decimal(b));
  }

  lemma IntTextInjective(a: int, b: int)
    requires IntText(a) == IntText(b)
    ensures a == b
  {
    assert IntText(a)[0] == IntText(b)[0];
    if a < 0 && b < 0 {
      assert IntText(a)[1..] == Decimal(-a) && IntText(b)[1..] == Decimal(-b);
      DecimalInjective(-a, -b);
    } else if a >= 0 && b >= 0 {
      DecimalInjective(a, b);
    }
  }

  // ------------------------------------------------------- split and join

  /** `strings.Split(s, sep)` for a one-character separator. */
  function Split(s: string, sep: char): (parts: seq<string>)
    ensures |parts| >= 1
  {
    if s == [] then [""]
    else if s[0] == sep then [""] + Split(s[1..], sep)
    else
      var rest := Split(s[1..], sep);
      [[s[0]] + rest[0]] + rest[1..]
  }

  /** `strings.Join(parts, sep)`. */
  function Join(parts: seq<string>, sep: string): string {
    if parts == [] then ""
    else if |parts| == 1 then parts[0]
    else parts[0] + sep + Join(parts[1..], sep)
  }

  predicate Without(parts: seq<string>, c: char) { forall i :: 0 <= i < |parts| ==> c !in parts[i] }

  lemma {:induction false} SplitPlain(s: string, sep: char)
    requires sep !in s
    ensures Split(s, sep) == [s]
  {
    if s != [] {
      SplitPlain(s[1..], sep);
      assert s == [s[0]] + s[1..];
    }
  }

  lemma {:induction false} SplitAppend(a: string, sep: char, b: string)
    ensures Split(a + [sep] + b, sep) == Split(a, sep) + Split(b, sep)
  {
    if a == [] {
      assert a + [sep] + b == [sep] + b;
      assert ([sep] + b)[1..] == b;
    } else {
      var whole := a + [sep] + b;
      assert whole[1..] == a[1..] + [sep] + b;
      SplitAppend(a[1..], sep, b);
    }
  }

  lemma {:induction false} JoinSplit(s: string, sep: char)
    ensures Join(Split(s, sep), [sep]) == s
  {
    if s != [] {
      JoinSplit(s[1..], sep);
      var rest := Split(s[1..], sep);
      assert s == [s[0]] + s[1..];
      if s[0] == sep {
        assert ([""] + rest)[1..] == rest;
        assert "" + [sep] + s[1..] == s;
      } else {
        var parts := Split(s, sep);
        assert parts[1..] == rest[1..];
        if |rest| == 1 {
          assert Join(parts, [sep]) == [s[0]] + rest[0];
        } else {
          assert Join(parts, [sep]) == [s[0]] + rest[0] + [sep] + Join(rest[1..], [sep]);
          assert s[1..] == rest[0] + [sep] + Join(rest[1..], [sep]);
        }
      }
    }
  }

  lemma {:induction false} SplitJoin(parts: seq<string>, sep: char)
    requires parts != [] && Without(parts, sep)
    ensures Split(Join(parts, [sep]), sep) == parts
  {
    SplitPlain(parts[0], sep);
    if |parts| > 1 {
      SplitJoin(parts[1..], sep);
      SplitAppend(parts[0], sep, Join(parts[1..], [sep]));
    }
  }

  lemma {:induction false} JoinAppend(a: seq<string>, b: seq<string>, sep: string)
    requires a != [] && b != []
    ensures Join(a + b, sep) == Join(a, sep) + sep + Join(b, sep)
  {
    assert (a + b)[1..] == a[1..] + b;
    if |a| == 1 {
      assert (a + b)[1..] == b;
    } else {
      JoinAppend(a[1..], b, sep);
      assert Join(a + b, sep) == a[0] + sep + (Join(a[1..], sep) + sep + Join(b, sep));
    }
  }

  lemma JoinHead(head: string, tail: seq<string>, sep: string)
    ensures Join([head] + tail, sep) == if tail == [] then head else head + (sep + Join(tail, sep))
  {
    assert ([head] + tail)[1..] == tail;
  }

  // --------------------------------------------------------------- search

  /** `pat` occurs in `s` at position `i`. */
  predicate At(s: string, pat: string, i: nat) { i + |pat| <= |s| && s[i..i + |pat|] == pat }

  ghost predicate Contains(s: string, pat: string) { exists i: nat :: At(s, pat, i) }

  /** Position of the first occurrence of `pat` at or after `from`, or -1. */
  function FindFrom(s: string, pat: string, from: nat): (r: int)
    requires from <= |s|
    ensures r >= 0 ==> from <= r && At(s, pat, r) && forall j: nat :: from <= j < r ==> !At(s, pat, j)
    ensures r < 0 ==> r == -1 && forall j: nat :: from <= j ==> !At(s, pat, j)
    decreases |s| - from
  {
    if At(s, pat, from) then from
    else if from == |s| then -1
    else FindFrom(s, pat, from + 1)
  }

  function Find(s: string, pat: string): (r: int)
    ensures r >= 0 ==> At(s, pat, r) && forall j: nat :: j < r ==> !At(s, pat, j)
    ensures r < 0 <==> !Contains(s, pat)
    ensures r >= -1
  {
    FindFrom(s, pat, 0)
  }

  /** The words `u` and `v` are adjacent inner fields of `parts`. */
  ghost predicate AdjacentInner(parts: seq<string>, u: string, v: string) {
    exists k :: 0 < k < |parts| - 2 && parts[k] == u && parts[k + 1] == v
  }

  /**
   A pattern of two space-free words between single spaces occurs in `s` exactly when
   the words are adjacent inner fields of `s`.
   */
  lemma ContainsWords(s: string, u: string, v: string)
    requires ' ' !in u && ' ' !in v
    ensures Contains(s, " " + u + " " + v + " ") <==> AdjacentInner(Split(s, ' '), u, v)
  {
    if Contains(s, " " + u + " " + v + " ") {
      var i: nat :| At(s, " " + u + " " + v + " ", i);
      OccurrenceGivesFields(s, u, v, i);
    }
    if AdjacentInner(Split(s, ' '), u, v) {
      var parts := Split(s, ' ');
      var k :| 0 < k < |parts| - 2 && parts[k] == u && parts[k + 1] == v;
      FieldsGiveOccurrence(s, u, v, k);
    }
  }

  lemma OccurrenceGivesFields(s: string, u: string, v: string, i: nat)
    requires ' ' !in u && ' ' !in v && At(s, " " + u + " " + v + " ", i)
    ensures AdjacentInner(Split(s, ' '), u, v)
  {
    var pat := " " + u + " " + v + " ";
    var a, b := s[..i], s[i + |pat|..];
    var rest := v + [' '] + b;
    assert s == a + pat + b;
    assert a + pat + b == a + [' '] + (u + [' '] + rest);
    SplitAppend(a, ' ', u + [' '] + rest);
    SplitAppend(u, ' ', rest);
    SplitAppend(v, ' ', b);
    SplitPlain(u, ' ');
    SplitPlain(v, ' ');
    var parts, k := Split(s, ' '), |Split(a, ' ')|;
    assert parts == Split(a, ' ') + ([u] + ([v] + Split(b, ' ')));
    assert parts[k] == u && parts[k + 1] == v;
  }

  lemma FieldsGiveOccurrence(s: string, u: string, v: string, k: nat)
    requires 0 < k < |Split(s, ' ')| - 2 && Split(s, ' ')[k] == u && Split(s, ' ')[k + 1] == v
    ensures Contains(s, " " + u + " " + v + " ")
  {
    var parts := Split(s, ' ');
    var front, back := parts[..k], parts[k + 2..];
    JoinSplit(s, ' ');
    assert parts == front + ([u, v] + back);
    JoinAppend(front, [u, v] + back, " ");
    JoinAppend([u, v], back, " ");
    assert [u, v][1..] == [v];
    Middle(Join(front, " "), u, v, Join(back, " "));
  }

  lemma Middle(a: string, u: string, v: string, b: string)
    ensures Contains(a + " " + (u + " " + v + " " + b), " " + u + " " + v + " ")
  {
    var pat := " " + u + " " + v + " ";
    var s := a + " " + (u + " " + v + " " + b);
    assert |s| == |a| + |pat| + |b|;
    assert s[|a|..|a| + |pat|] == pat;
    assert At(s, pat, |a|);
  }

  // ------------------------------------------------------------- trimming

  /** White space of Go's `unicode.IsSpace`. */
  predicate IsSpace(c: char) {
    || '\t' <= c <= '\r' || c == ' ' || c == '\U{85}' || c == '\U{A0}' || c == '\U{1680}'
    || '\U{2000}' <= c <= '\U{200a}' || c == '\U{2028}' || c == '\U{2029}' || c == '\U{202f}'
    || c == '\U{205f}' || c == '\U{3000}'
  }

  /** White space of Python's `str.strip`: the same set and the four information separators. */
  predicate IsPySpace(c: char) { IsSpace(c) || '\U{1c}' <= c <= '\U{1f}' }

  /** Python's `s.rstrip()`. */
  function RStrip(s: string): (r: string)
    ensures r <= s && (r != [] ==> !IsPySpace(r[|r| - 1]))
    ensures forall i :: |r| <= i < |s| ==> IsPySpace(s[i])
  {
    if s == [] || !IsPySpace(s[|s| - 1]) then s else RStrip(s[..|s| - 1])
  }

  /** Python's `s.lstrip()`. */
  function LStrip(s: string): (r: string)
    ensures |r| <= |s| && r == s[|s| - |r|..] && (r != [] ==> !IsPySpace(r[0]))
    ensures forall i :: 0 <= i < |s| - |r| ==> IsPySpace(s[i])
  {
    if s == [] || !IsPySpace(s[0]) then s else LStrip(s[1..])
  }

  function TrimLeft(s: string): string { if s == [] || !IsSpace(s[0]) then s else TrimLeft(s[1..]) }

  function TrimRight(s: string): string { if s == [] || !IsSpace(s[|s| - 1]) then s else TrimRight(s[..|s| - 1]) }

  /** `strings.TrimSpace`. */
  function TrimSpace(s: string): string { TrimRight(TrimLeft(s)) }

  predicate NoSpace(s: string) { forall i :: 0 <= i < |s| ==> !IsSpace(s[i]) }

  function WordLength(s: string): (k: nat)
    ensures k <= |s| && NoSpace(s[..k]) && (k < |s| ==> IsSpace(s[k]))
  {
    if s == [] || IsSpace(s[0]) then 0 else
      var k := WordLength(s[1..]);
      assert s[..k + 1] == [s[0]] + s[1..][..k];
      k + 1
  }

  /** `strings.Fields(s)`: the maximal runs of non-space characters. */
  function Fields(s: string): (fs: seq<string>)
    ensures forall f :: f in fs ==> f != [] && NoSpace(f)
    decreases |s|
  {
    if s == [] then []
    else if IsSpace(s[0]) then Fields(s[1..])
    else
      var k := WordLength(s);
      [s[..k]] + Fields(s[k..])
  }

  lemma FieldsOne(w: string)
    requires w != [] && NoSpace(w)
    ensures Fields(w) == [w]
  {
    assert WordLength(w) == |w|;
    assert w[..|w|] == w;
  }

  lemma FieldsCons(w: string, rest: string)
    requires w != [] && NoSpace(w)
    ensures Fields(w + " " + rest) == [w] + Fields(rest)
  {
    var s := w + " " + rest;
    var k := WordLength(s);
    assert s[|w|] == ' ' && forall i :: 0 <= i < |w| ==> s[i] == w[i];
    assert k > |w| ==> IsSpace(s[..k][|w|]);
    assert s[..k] == w;
    assert s[k..] == " " + rest;
    assert s[k..][1..] == rest;
  }

  // ---------------------------------------------------------- replacement

  /** `strings.ReplaceAll(s, pat, rep)` for a non-empty pattern. */
  function ReplaceAll(s: string, pat: string, rep: string): string
    requires pat != []
    decreases |s|
  {
    if |s| < |pat| then s
    else if s[..|pat|] == pat then rep + ReplaceAll(s[|pat|..], pat, rep)
    else [s[0]] + ReplaceAll(s[1..], pat, rep)
  }

  /** Text free of the pattern's first character passes through unchanged. */
  lemma {:induction false} ReplaceAllSkips(p: string, s: string, pat: string, rep: string)
    requires pat != [] && pat[0] !in p
    ensures ReplaceAll(p + s, pat, rep) == p + ReplaceAll(s, pat, rep)
  {
    if p == [] {
      assert p + s == s;
    } else {
      assert (p + s)[1..] == p[1..] + s;
      ReplaceAllSkips(p[1..], s, pat, rep);
      if |p + s| >= |pat| {
        assert (p + s)[..|pat|][0] == p[0];
      } else {
        assert |s| < |pat|;
      }
    }
  }

  // ----------------------------------------------------------------- maps

  /** Go's `m[k]` on a `map[string]string`: the zero value for a missing key. */
  function Lookup(m: map<string, string>, k: string): string { if k in m then m[k] else "" }

  ghost predicate Distinct<T>(s: seq<T>) { forall i, j :: 0 <= i < j < |s| ==> s[i] != s[j] }

  /** The map a loop `for i { m[keys[i]] = values[i] }` builds: later entries win. */
  function ZipMap<V>(keys: seq<string>, values: seq<V>): (m: map<string, V>)
    requires |keys| == |values|
    ensures m.Keys == set k | k in keys
  {
    if keys == [] then map[] else
      var n := |keys| - 1;
      assert keys == keys[..n] + [keys[n]];
      ZipMap(keys[..n], values[..n])[keys[n] := values[n]]
  }

  lemma {:induction false} ZipMapAt<V>(keys: seq<string>, values: seq<V>, i: nat)
    requires |keys| == |values| && i < |keys| && Distinct(keys)
    ensures ZipMap(keys, values)[keys[i]] == values[i]
  {
    var n := |keys| - 1;
    if i < n { ZipMapAt(keys[..n], values[..n], i); }
  }

  /** One more round of the loop. */
  lemma ZipMapSnoc<V>(keys: seq<string>, values: seq<V>, i: nat)
    requires |keys| == |values| && i < |keys|
    ensures ZipMap(keys[..i + 1], values[..i + 1]) == ZipMap(keys[..i], values[..i])[keys[i] := values[i]]
  {
    assert keys[..i + 1][..i] == keys[..i] && values[..i + 1][..i] == values[..i];
  }
}

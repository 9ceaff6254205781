/**
 The managed block in /etc/hosts: `renderHostsBlock` and the text edit that
 `configureHostnameAndHosts` performs on the node.
 */
module HostsFile {
  import opened Wrappers
  import opened Text
  import opened Config

  const START := "# BEGIN vpsk3s hosts"
  const END := "# END vpsk3s hosts"

  // ---------------------------------------------------------------- the edit

  predicate HasBoth(t: string) { Find(t, START) >= 0 && Find(t, END) >= 0 }

  /** The text before the first start marker, trimmed on the right. */
  function Before(t: string): string
    requires Find(t, START) >= 0
  {
    RStrip(t[..Find(t, START)])
  }

  /** The text after the first end marker, trimmed on the left. */
  function After(t: string): string
    requires Find(t, END) >= 0
  {
    LStrip(t[Find(t, END) + |END|..])
  }

  /** The Python edit: replace the managed block, or append one. */
  function Edit(t: string, block: string): string {
    if HasBoth(t) then Before(t) + "\n" + block + "\n" + After(t)
    else RStrip(t) + "\n" + block + "\n"
  }

  /** A rendered block: the markers around a body that holds no `#`. */
  predicate IsBlock(b: string) {
    && |b| >= |START| + |END| && b[..|START|] == START && b[|b| - |END|..] == END
    && '#' !in b[|START|..|b| - |END|]
  }

  // ------------------------------------------------------------- occurrences

  /** Only position `i` can be the first occurrence when nothing earlier matches. */
  lemma FirstIs(s: string, pat: string, i: nat)
    requires At(s, pat, i) && forall j: nat :: j < i ==> !At(s, pat, j)
    ensures Find(s, pat) == i
  {
    assert Contains(s, pat);
  }

  predicate IsMarker(pat: string) { pat == START || pat == END }

  lemma MarkerShape(pat: string)
    requires IsMarker(pat)
    ensures pat[0] == '#' && '\n' !in pat && forall k :: 1 <= k < |pat| ==> pat[k] != '#'
  {
  }

  /** An occurrence fixes every character it covers. */
  lemma AtChar(s: string, pat: string, j: nat, k: nat)
    requires k < |pat|
    ensures At(s, pat, j) ==> s[j + k] == pat[k]
  {
    if At(s, pat, j) { assert s[j..j + |pat|][k] == s[j + k]; }
  }

  /** An occurrence in `p + q` that fits in `p` is an occurrence in `p`. */
  lemma AtPrefix(p: string, s: string, pat: string, j: nat)
    requires p <= s && j + |pat| <= |p|
    ensures At(s, pat, j) <==> At(p, pat, j)
  {
    assert s[j..j + |pat|] == p[j..j + |pat|];
  }

  /** A marker does not begin inside `x` when `x` is free of it and a line break follows. */
  lemma NotInFront(x: string, y: string, pat: string, j: nat)
    requires IsMarker(pat) && !Contains(x, pat) && j <= |x|
    ensures !At(x + "\n" + y, pat, j)
  {
    MarkerShape(pat);
    var s := x + "\n" + y;
    assert s[|x|] == '\n';
    if j + |pat| <= |x| { AtPrefix(x, s, pat, j); } else { AtChar(s, pat, j, |x| - j); }
  }

  /** No end marker begins inside a block before its last line. */
  lemma NotInBlock(x: string, b: string, y: string, j: nat)
    requires IsBlock(b) && |x| + 1 <= j < |x| + 1 + |b| - |END|
    ensures !At(x + "\n" + b + y, END, j)
  {
    hide IsBlock, At;
    var s := x + "\n" + b + y;
    var k := j - (|x| + 1);
    assert s[j] == b[k];
    BlockHashes(b, k);
    AtChar(s, END, j, 0);
    if k == 0 {
      BlockThirds(b);
      assert s[j + 2] == b[2];
      AtChar(s, END, j, 2);
    }
  }

  // ------------------------------------------------------ last write wins

  /** No marker at all, or the first start marker stands before the first end marker. */
  predicate Orderly(t: string) {
    || (Find(t, START) < 0 && Find(t, END) < 0)
    || 0 <= Find(t, START) < Find(t, END)
  }

  lemma PrefixFree(t: string, p: string, pat: string)
    requires p <= t && (Find(t, pat) < 0 || |p| <= Find(t, pat)) && pat != []
    ensures !Contains(p, pat)
  {
    forall i: nat ensures !At(p, pat, i) {
      if i + |pat| <= |p| { AtPrefix(p, t, pat, i); }
      assert At(t, pat, i) ==> Contains(t, pat);
    }
  }

  /** The text in front of the managed block, as the edit leaves it. */
  function Front(t: string): string { if HasBoth(t) then Before(t) else RStrip(t) }

  /** The text behind the managed block, as the edit leaves it. */
  function Behind(t: string): string { if HasBoth(t) then After(t) else "" }

  lemma EditShape(t: string, b: string)
    ensures Edit(t, b) == Front(t) + "\n" + b + ("\n" + Behind(t))
  {
    assert Edit(t, b) == Front(t) + "\n" + b + "\n" + Behind(t);
  }

  lemma FrontFree(t: string)
    requires Orderly(t)
    ensures !Contains(Front(t), START) && !Contains(Front(t), END)
  {
    PrefixFree(t, Front(t), START);
    PrefixFree(t, Front(t), END);
  }

  lemma {:induction false} RStripStable(s: string)
    ensures RStrip(RStrip(s)) == RStrip(s)
  {
  }

  lemma LStripSpace(c: char, r: string)
    requires IsPySpace(c) && (r == [] || !IsPySpace(r[0]))
    ensures LStrip([c] + r) == r
  {
    hide IsPySpace;
    assert ([c] + r)[1..] == r;
  }

  lemma LineBreakIsSpace()
    ensures IsPySpace('\n')
  {
  }

  lemma LStripLine(s: string)
    ensures LStrip("\n" + LStrip(s)) == LStrip(s)
  {
    hide IsPySpace, LStrip;
    LineBreakIsSpace();
    LStripSpace('\n', LStrip(s));
  }

  /** After an edit of an orderly text the block is where it was put and the rest is unchanged. */
  lemma EditView(t: string, b: string)
    requires Orderly(t) && IsBlock(b)
    ensures var e := Edit(t, b);
            && Orderly(e) && HasBoth(e)
            && Front(e) == Front(t) && Behind(e) == Behind(t)
            && e[Find(e, START)..Find(e, END) + |END|] == b
  {
    hide Find, LStrip, RStrip, IsPySpace, IsBlock, Edit, Front, Behind;
    var e, x, y := Edit(t, b), Front(t), "\n" + Behind(t);
    EditShape(t, b);
    FrontFree(t);
    StartAfterFront(x, b, y);
    EndAfterFront(x, b, y);
    BlockThirds(b);
    Slices(x, b, y);
    SeenFront(e, |x| + 1);
    SeenBehind(e, |x| + 1 + |b|);
    StripLine(x, t);
    LStripStable(t);
  }

  /** Taking a written text apart again. */
  lemma Slices(x: string, b: string, y: string)
    ensures var e := x + "\n" + b + y;
            && e[..|x| + 1] == x + "\n" && e[|x| + 1..|x| + 1 + |b|] == b && e[|x| + 1 + |b|..] == y
  {
  }

  lemma SeenFront(e: string, i: nat)
    requires HasBoth(e) && Find(e, START) == i
    ensures i <= |e| && Front(e) == RStrip(e[..i])
  {
  }

  lemma SeenBehind(e: string, j: nat)
    requires HasBoth(e) && Find(e, END) + |END| == j
    ensures j <= |e| && Behind(e) == LStrip(e[j..])
  {
  }

  lemma StripLine(x: string, t: string)
    requires x == Front(t)
    ensures RStrip(x + "\n") == x
  {
    assert (x + "\n")[..|x|] == x;
    RStripStable(if HasBoth(t) then t[..Find(t, START)] else t);
  }

  lemma LStripStable(t: string)
    ensures LStrip("\n" + Behind(t)) == Behind(t)
  {
    hide Find, LStrip;
    if HasBoth(t) {
      LStripLine(t[Find(t, END) + |END|..]);
    } else {
      LineBreakOnly();
      assert "\n" + "" == "\n";
    }
  }

  /** A disorderly text keeps a stale marker in front of the fresh block. */
  lemma StaleMarker(t: string, b1: string, b2: string)
    requires !Orderly(t) && IsBlock(b1) && IsBlock(b2)
    ensures |Edit(Edit(t, b1), b2)| != |Edit(t, b2)|
  {
    if Find(t, START) >= 0 && Find(t, END) < 0 {
      StaleStart(t, b1, b2);
    } else {
      StaleEnd(t, b1, b2);
    }
  }

  lemma InStripped(t: string, i: nat)
    requires i < |t| && !IsPySpace(t[i])
    ensures i < |RStrip(t)|
  {
  }

  /** The first occurrence in `t` stays the first one when only text behind it changes. */
  lemma SameFirst(t: string, e: string, p: string, pat: string)
    requires p <= t && p <= e && 0 <= Find(t, pat) && Find(t, pat) + |pat| <= |p|
    ensures Find(e, pat) == Find(t, pat)
  {
    var i := Find(t, pat);
    forall j: nat | j <= i ensures At(e, pat, j) == At(t, pat, j) {
      AtPrefix(p, e, pat, j);
      AtPrefix(p, t, pat, j);
    }
    FirstIs(e, pat, i);
  }

  /** The marker found in `t` ends before the white space trimmed from the right. */
  lemma MarkerSurvives(t: string, pat: string)
    requires IsMarker(pat) && 0 <= Find(t, pat)
    ensures Find(t, pat) + |pat| <= |RStrip(t)|
  {
    var i := Find(t, pat);
    AtChar(t, pat, i, |pat| - 1);
    assert !IsPySpace(pat[|pat| - 1]);
    InStripped(t, i + |pat| - 1);
  }

  /** Where the first end marker is found when the front part may hold start markers. */
  lemma EndAfterFront(x: string, b: string, y: string)
    requires IsBlock(b) && !Contains(x, END)
    ensures Find(x + "\n" + b + y, END) == |x| + 1 + |b| - |END|
  {
    var s := x + "\n" + b + y;
    var stop := |x| + 1 + |b| - |END|;
    assert s == x + "\n" + (b + y);
    assert s[stop..stop + |END|] == b[|b| - |END|..];
    forall j: nat | j < stop ensures !At(s, END, j) {
      if j <= |x| { NotInFront(x, b + y, END, j); } else { NotInBlock(x, b, y, j); }
    }
    FirstIs(s, END, stop);
  }

  /** Where the first start marker is found when the front part may hold end markers. */
  lemma StartAfterFront(x: string, b: string, y: string)
    requires IsBlock(b) && !Contains(x, START)
    ensures Find(x + "\n" + b + y, START) == |x| + 1
  {
    var s := x + "\n" + b + y;
    var at := |x| + 1;
    assert s == x + "\n" + (b + y);
    assert s[at..at + |START|] == b[..|START|];
    forall j: nat | j < at ensures !At(s, START, j) { NotInFront(x, b + y, START, j); }
    FirstIs(s, START, at);
  }

  /** A start marker without an end marker: the second edit drops the text behind it. */
  lemma StaleStart(t: string, b1: string, b2: string)
    requires Find(t, START) >= 0 && Find(t, END) < 0 && IsBlock(b1) && IsBlock(b2)
    ensures |Edit(Edit(t, b1), b2)| < |Edit(t, b2)|
  {
    hide Find, RStrip, LStrip, IsBlock;
    var x, e := RStrip(t), Edit(t, b1);
    assert e == x + "\n" + b1 + "\n";
    MarkerSurvives(t, START);
    SameFirst(t, e, x, START);
    PrefixFree(t, x, END);
    EndAfterFront(x, b1, "\n");
    var stop := Find(e, END) + |END|;
    assert |e[stop..]| == 1;
    assert e[stop..] == "\n";
    LineBreakOnly();
    assert |Before(e)| <= Find(e, START);
  }

  lemma LineBreakOnly()
    ensures LStrip("\n") == ""
  {
    hide IsPySpace, LStrip;
    LineBreakIsSpace();
    LStripSpace('\n', "");
    assert "\n" + "" == "\n";
  }

  /** An end marker in front of the block is found again in the edited text, in the same place. */
  lemma StaleEndMarkers(t: string, b: string)
    requires Find(t, END) >= 0 && (Find(t, START) < 0 || Find(t, END) <= Find(t, START)) && IsBlock(b)
    ensures Find(Edit(t, b), END) == Find(t, END) && Find(t, END) + |END| <= |Front(t)|
    ensures Find(Edit(t, b), START) == |Front(t)| + 1
  {
    hide Find, RStrip, LStrip, IsBlock, Edit, Front, Behind, Contains;
    EditShape(t, b);
    EndInFront(t);
    SameFirst(t, Edit(t, b), Front(t), END);
    StartFreeFront(t);
    StartAfterFront(Front(t), b, "\n" + Behind(t));
  }

  /** So a second edit keeps the front ... */
  lemma StaleEndFront(t: string, b: string)
    requires Find(t, END) >= 0 && (Find(t, START) < 0 || Find(t, END) <= Find(t, START)) && IsBlock(b)
    ensures Front(Edit(t, b)) == Front(t)
  {
    hide Find, RStrip, LStrip, IsBlock, Edit, Front, Behind;
    EditShape(t, b);
    StaleEndMarkers(t, b);
    Slices(Front(t), b, "\n" + Behind(t));
    SeenFront(Edit(t, b), |Front(t)| + 1);
    StripLine(Front(t), t);
  }

  /** ... and takes the first block for text behind its own. */
  lemma StaleEndBehind(t: string, b: string)
    requires Find(t, END) >= 0 && (Find(t, START) < 0 || Find(t, END) <= Find(t, START)) && IsBlock(b)
    ensures |Behind(Edit(t, b))| > |b| + |Behind(t)|
  {
    hide Find, RStrip, LStrip, IsBlock, Edit, Front, Behind;
    EditShape(t, b);
    StaleEndMarkers(t, b);
    SeenBehind(Edit(t, b), Find(t, END) + |END|);
    BlockStartsWithHash(b);
    BlockKept(Front(t), b, "\n" + Behind(t), Find(t, END) + |END|);
  }

  /** An end marker in front: the second edit keeps the first block as ordinary text. */
  lemma StaleEnd(t: string, b1: string, b2: string)
    requires Find(t, END) >= 0 && (Find(t, START) < 0 || Find(t, END) <= Find(t, START)) && IsBlock(b1) && IsBlock(b2)
    ensures |Edit(Edit(t, b1), b2)| > |Edit(t, b2)|
  {
    hide Find, RStrip, LStrip, IsBlock, Edit, Front, Behind;
    StaleEndFront(t, b1);
    StaleEndBehind(t, b1);
    EditShape(t, b2);
    EditShape(Edit(t, b1), b2);
  }

  lemma StartFreeFront(t: string)
    requires Find(t, END) >= 0
    ensures !Contains(Front(t), START)
  {
    hide Find, LStrip;
    PrefixFree(t, Front(t), START);
  }

  /** Trimming on the left stops at a block's first character. */
  lemma BlockKept(x: string, b: string, y: string, from: nat)
    requires from <= |x| && b != [] && b[0] == '#'
    ensures |LStrip((x + "\n" + b + y)[from..])| >= |b| + |y|
  {
    var s := x + "\n" + b + y;
    assert s[|x| + 1] == '#';
    assert s[from..][|x| + 1 - from] == '#';
    KeptByLStrip(s[from..], |x| + 1 - from);
  }

  lemma BlockStartsWithHash(b: string)
    requires IsBlock(b)
    ensures |b| > 0 && b[0] == '#'
  {
    assert b[..|START|][0] == '#';
  }

  /** A stale end marker ends within the text kept in front of the block. */
  lemma EndInFront(t: string)
    requires Find(t, END) >= 0 && (Find(t, START) < 0 || Find(t, END) <= Find(t, START))
    ensures Front(t) <= t && Find(t, END) + |END| <= |Front(t)|
  {
    var j := Find(t, END);
    MarkersApart(t, j);
    var before := if HasBoth(t) then t[..Find(t, START)] else t;
    assert before <= t;
    AtPrefix(before, t, END, j);
    AtChar(before, END, j, |END| - 1);
    InStripped(before, j + |END| - 1);
  }

  lemma MarkersApart(t: string, j: nat)
    requires At(t, END, j) && j == Find(t, END)
    requires Find(t, START) < 0 || j <= Find(t, START)
    ensures Find(t, START) >= 0 ==> j + |END| <= Find(t, START)
  {
    var i := Find(t, START);
    if i >= j {
      MarkerShape(END);
      AtChar(t, START, i, 0);
      AtChar(t, START, i, 2);
      AtChar(t, END, j, 2);
      if i < j + |END| { AtChar(t, END, j, i - j); }
    }
  }

  lemma KeptByLStrip(s: string, i: nat)
    requires i < |s| && !IsPySpace(s[i])
    ensures |LStrip(s)| >= |s| - i
  {
  }

  /**
   Last write wins, exactly on orderly texts: editing twice is the same as making the last
   edit alone when the text has no marker or its first start marker precedes its first end
   marker, and never otherwise.
   */
  lemma LastWriteWinsIff(t: string, b1: string, b2: string)
    requires IsBlock(b1) && IsBlock(b2)
    ensures Edit(Edit(t, b1), b2) == Edit(t, b2) <==> Orderly(t)
  {
    if Orderly(t) {
      EditView(t, b1);
      EditShape(t, b2);
      EditShape(Edit(t, b1), b2);
    } else {
      StaleMarker(t, b1, b2);
    }
  }

  // ------------------------------------------------------- exactly one block

  predicate AtMostOnce(t: string, pat: string) {
    forall i: nat, j: nat :: i <= |t| && j <= |t| && At(t, pat, i) && At(t, pat, j) ==> i == j
  }

  /** `pat` occurs in `s` at `i` and nowhere else. */
  ghost predicate OnlyAt(s: string, pat: string, i: nat) { forall j: nat :: At(s, pat, j) <==> j == i }

  /** Only the two markers of a block hold a `#`. */
  lemma BlockHashes(b: string, k: nat)
    requires IsBlock(b) && k < |b|
    ensures b[k] == '#' ==> k == 0 || k == |b| - |END|
  {
    if k < |START| {
      assert b[k] == b[..|START|][k];
    } else if k < |b| - |END| {
      assert b[k] == b[|START|..|b| - |END|][k - |START|];
    } else {
      assert b[k] == b[|b| - |END|..][k - (|b| - |END|)];
    }
  }

  /** The two markers of a block differ in their third character. */
  lemma BlockThirds(b: string)
    requires IsBlock(b)
    ensures |b| >= 2 * |END| && b[2] == 'B' && b[|b| - |END| + 2] == 'E'
  {
    assert b[..|START|][2] == b[2];
    assert b[|b| - |END|..][2] == b[|b| - |END| + 2];
  }

  /** Inside a block, whatever follows it, a marker occurs only at its own place. */
  lemma InsideBlock(x: string, b: string, y: string, pat: string, k: nat)
    requires IsBlock(b) && IsMarker(pat) && k < |b|
    requires At(x + "\n" + b + y, pat, |x| + 1 + k)
    ensures k == if pat == START then 0 else |b| - |END|
  {
    hide IsBlock, At;
    var s, j := x + "\n" + b + y, |x| + 1 + k;
    BlockHashes(b, k);
    BlockThirds(b);
    assert s[j] == b[k];
    AtChar(s, pat, j, 0);
    AtChar(s, pat, j, 2);
    assert k == 0 ==> s[j + 2] == b[2];
    assert k == |b| - |END| ==> s[j + 2] == b[|b| - |END| + 2];
  }

  /** An occurrence behind the first character of `c + r`, where `r` ends `t`, is an occurrence in `t`. */
  lemma InSuffix(t: string, r: string, c: char, pat: string, k: nat)
    requires |r| <= |t| && t[|t| - |r|..] == r && k > 0 && At([c] + r, pat, k)
    ensures At(t, pat, |t| - |r| + k - 1)
  {
    var i := |t| - |r| + k - 1;
    assert t[i..i + |pat|] == ([c] + r)[k..k + |pat|];
  }

  /** A marker behind the block is a marker of the original text, behind its end marker. */
  lemma BehindBlock(t: string, pat: string, k: nat)
    requires IsMarker(pat) && At("\n" + Behind(t), pat, k)
    ensures HasBoth(t) && exists i: nat :: i >= Find(t, END) + |END| && At(t, pat, i)
  {
    hide Find, LStrip, At;
    MarkerShape(pat);
    AtChar("\n" + Behind(t), pat, k, 0);
    WithinText("\n" + Behind(t), pat, k);
    assert k > 0 && HasBoth(t);
    BehindSuffix(t);
    InSuffix(t, Behind(t), '\n', pat, k);
  }

  /** The text behind the block is the end of the original text, from its end marker on. */
  lemma BehindSuffix(t: string)
    requires HasBoth(t)
    ensures Find(t, END) + |END| + |Behind(t)| <= |t| && t[|t| - |Behind(t)|..] == Behind(t)
  {
    hide Find, LStrip;
  }

  lemma WithinText(s: string, pat: string, k: nat)
    requires pat != []
    ensures At(s, pat, k) ==> k < |s|
  {
  }

  /**
   Editing a text that has no marker, or one start marker followed by one end marker,
   leaves exactly one start marker and one end marker: those of the written block.
   */
  lemma OneBlock(t: string, b: string)
    requires Orderly(t) && IsBlock(b) && AtMostOnce(t, START) && AtMostOnce(t, END)
    ensures OnlyAt(Edit(t, b), START, |Front(t)| + 1)
    ensures OnlyAt(Edit(t, b), END, |Front(t)| + 1 + |b| - |END|)
  {
    hide Find, Edit, Front, AtMostOnce, IsBlock;
    var e := Edit(t, b);
    FreshMarkers(t, b);
    forall j: nat | At(e, START, j) ensures j == |Front(t)| + 1 { OccurrenceIsOurs(t, b, START, j); }
    forall j: nat | At(e, END, j) ensures j == |Front(t)| + 1 + |b| - |END| { OccurrenceIsOurs(t, b, END, j); }
  }

  lemma FreshMarkers(t: string, b: string)
    requires Orderly(t) && IsBlock(b)
    ensures Find(Edit(t, b), START) == |Front(t)| + 1
    ensures Find(Edit(t, b), END) == |Front(t)| + 1 + |b| - |END|
  {
    hide Find;
    EditShape(t, b);
    FrontFree(t);
    StartAfterFront(Front(t), b, "\n" + Behind(t));
    EndAfterFront(Front(t), b, "\n" + Behind(t));
  }

  lemma OccurrenceIsOurs(t: string, b: string, pat: string, j: nat)
    requires Orderly(t) && IsBlock(b) && AtMostOnce(t, START) && AtMostOnce(t, END) && IsMarker(pat)
    requires At(Edit(t, b), pat, j)
    ensures j == |Front(t)| + 1 + if pat == START then 0 else |b| - |END|
  {
    hide Find, LStrip, RStrip, IsBlock, Edit, Front, Behind, HasBoth;
    var e, x, y := Edit(t, b), Front(t), "\n" + Behind(t);
    EditShape(t, b);
    FrontFree(t);
    assert e == x + "\n" + (b + y);
    if j <= |x| {
      NotInFront(x, b + y, pat, j);
    } else if j < |x| + 1 + |b| {
      InsideBlock(x, b, y, pat, j - |x| - 1);
    } else {
      NothingBehind(t, pat, j - (|x| + 1 + |b|));
      assert e[|x| + 1 + |b|..] == y;
      AtSuffix(e, pat, |x| + 1 + |b|, j);
    }
  }

  lemma AtSuffix(s: string, pat: string, from: nat, j: nat)
    requires from <= j && from <= |s|
    ensures At(s, pat, j) <==> At(s[from..], pat, j - from)
  {
    if j + |pat| <= |s| { assert s[j..j + |pat|] == s[from..][j - from..j - from + |pat|]; }
  }

  lemma NothingBehind(t: string, pat: string, k: nat)
    requires Orderly(t) && AtMostOnce(t, START) && AtMostOnce(t, END) && IsMarker(pat)
    ensures !At("\n" + Behind(t), pat, k)
  {
    hide LStrip, Behind;
    if HasBoth(t) {
      forall i: nat | At(t, pat, i) ensures i < Find(t, END) + |END| {
        assert At(t, pat, Find(t, pat));
      }
    }
    if At("\n" + Behind(t), pat, k) { BehindBlock(t, pat, k); }
  }

  // ---------------------------------------------------------- the rendered block

  /** The address a host name stands for: the WireGuard one when WireGuard is on. */
  function HostAddress(cfg: ClusterConfig, n: NodeConfig): string {
    if cfg.wireGuard.enabled then n.privateIP else n.publicIP
  }

  function HostLine(cfg: ClusterConfig, key: string): string {
    var n := NodeOf(cfg.nodes, key);
    HostAddress(cfg, n) + " " + n.name + " " + n.key + "\n"
  }

  function HostLines(cfg: ClusterConfig, names: seq<string>): string {
    if names == [] then "" else HostLines(cfg, names[..|names| - 1]) + HostLine(cfg, names[|names| - 1])
  }

  function HostsBlock(cfg: ClusterConfig): string { START + "\n" + HostLines(cfg, cfg.nodeNames) + END }

  /** `renderHostsBlock`. */
  method RenderHostsBlock(cfg: ClusterConfig) returns (b: string)
    ensures b == HostsBlock(cfg)
  {
    hide HostLine;
    b := START + "\n";
    for i := 0 to |cfg.nodeNames|
      invariant b == START + "\n" + HostLines(cfg, cfg.nodeNames[..i])
    {
      assert cfg.nodeNames[..i + 1][..i] == cfg.nodeNames[..i];
      b := b + HostLine(cfg, cfg.nodeNames[i]);
    }
    assert cfg.nodeNames[..|cfg.nodeNames|] == cfg.nodeNames;
    b := b + END;
  }

  /** No node's address, name or key holds the character. */
  predicate NodesFreeOf(cfg: ClusterConfig, c: char) {
    forall k :: k in cfg.nodeNames ==>
      var n := NodeOf(cfg.nodes, k); c !in HostAddress(cfg, n) && c !in n.name && c !in n.key
  }

  lemma {:induction false} LinesFreeOf(cfg: ClusterConfig, names: seq<string>, c: char)
    requires NodesFreeOf(cfg, c) && c != ' ' && c != '\n' && forall k :: k in names ==> k in cfg.nodeNames
    ensures c !in HostLines(cfg, names)
  {
    if names != [] { LinesFreeOf(cfg, names[..|names| - 1], c); }
  }

  /** A rendered block is a block whenever the node fields hold no `#`. */
  lemma RenderedIsBlock(cfg: ClusterConfig)
    requires NodesFreeOf(cfg, '#')
    ensures IsBlock(HostsBlock(cfg))
  {
    var b, lines := HostsBlock(cfg), "\n" + HostLines(cfg, cfg.nodeNames);
    LinesFreeOf(cfg, cfg.nodeNames, '#');
    assert b == START + lines + END;
    assert b[|START|..|b| - |END|] == lines;
  }

  // ------------------------------------------------------- the Python literal

  /** `pythonString`: the text between triple quotes, inner triple quotes replaced. */
  function PythonString(s: string): string { "'''" + ReplaceAll(s, "'''", "'''\"'\"'''") + "'''" }

  /** The literal reaches the interpreter as written: no NUL, no carriage return, and no line that ends the here-document. */
  predicate Sendable(lit: string) { '\0' !in lit && '\r' !in lit && "PY" !in Split(lit, '\n') }

  /** The value of a triple-quoted literal without escapes, or `None` if it is not one or does not arrive as written. */
  function PythonValue(lit: string): Option<string> {
    if |lit| >= 6 && lit[..3] == "'''" && '\\' !in lit && Sendable(lit) && FindFrom(lit, "'''", 3) == |lit| - 3
    then Some(lit[3..|lit| - 3]) else None
  }

  const QUOTES := "'''"

  /** Text that does not hold the pattern passes through a replacement unchanged. */
  lemma {:induction false} ReplaceNothing(s: string, pat: string, rep: string)
    requires pat != [] && forall j: nat :: !At(s, pat, j)
    ensures ReplaceAll(s, pat, rep) == s
    decreases |s|
  {
    if |s| >= |pat| {
      assert !At(s, pat, 0);
      forall j: nat ensures !At(s[1..], pat, j) {
        assert !At(s, pat, j + 1);
        AtSuffix(s, pat, 1, j + 1);
      }
      ReplaceNothing(s[1..], pat, rep);
    }
  }

  /** An occurrence in the text makes the replacement longer. */
  lemma {:induction false} ReplaceLonger(s: string, pat: string, rep: string)
    requires pat != [] && |rep| > |pat|
    ensures |ReplaceAll(s, pat, rep)| >= |s|
    ensures (exists j: nat :: At(s, pat, j)) ==> |ReplaceAll(s, pat, rep)| > |s|
    decreases |s|
  {
    if |s| < |pat| {
    } else if s[..|pat|] == pat {
      ReplaceLonger(s[|pat|..], pat, rep);
    } else {
      ReplaceLonger(s[1..], pat, rep);
      if j: nat :| At(s, pat, j) {
        assert j != 0;
        AtSuffix(s, pat, 1, j);
      }
    }
  }

  predicate EndsInQuote(s: string) { s != [] && s[|s| - 1] == '\'' }

  /** `PY` stands on a line of its own between the first and the last. */
  predicate EndsHeredoc(s: string) { exists i :: 0 < i < |Split(s, '\n')| - 1 && Split(s, '\n')[i] == "PY" }

  /** The text travels as it is, apart from quotes. */
  predicate Travels(s: string) { '\0' !in s && '\r' !in s && !EndsHeredoc(s) }

  lemma {:induction false} SplitPrefix(p: string, s: string, sep: char)
    requires sep !in p
    ensures Split(p + s, sep) == [p + Split(s, sep)[0]] + Split(s, sep)[1..]
  {
    if p == "" {
      assert p + s == s && p + Split(s, sep)[0] == Split(s, sep)[0];
    } else {
      assert (p + s)[1..] == p[1..] + s;
      SplitPrefix(p[1..], s, sep);
      assert [p[0]] + (p[1..] + Split(s, sep)[0]) == p + Split(s, sep)[0];
    }
  }

  /** Text appended to the last part. */
  function Glued(parts: seq<string>, q: string): seq<string>
    requires parts != []
  {
    parts[..|parts| - 1] + [parts[|parts| - 1] + q]
  }

  lemma GluedCons(x: string, rest: seq<string>, q: string)
    requires rest != []
    ensures Glued([x] + rest, q) == [x] + Glued(rest, q)
  {
  }

  lemma GluedHead(x: string, rest: seq<string>, q: string)
    requires rest != []
    ensures Glued([x + rest[0]] + rest[1..], q) == [x + Glued(rest, q)[0]] + Glued(rest, q)[1..]
  {
    if |rest| == 1 { assert (x + rest[0]) + q == x + (rest[0] + q); }
  }

  lemma {:induction false} SplitSuffix(s: string, q: string, sep: char)
    requires sep !in q
    ensures Split(s + q, sep) == Glued(Split(s, sep), q)
  {
    if s == "" {
      assert s + q == q && "" + q == q;
      SplitPlain(q, sep);
    } else {
      hide Glued;
      assert (s + q)[1..] == s[1..] + q;
      SplitSuffix(s[1..], q, sep);
      var rest := Split(s[1..], sep);
      if s[0] == sep { GluedCons("", rest, q); } else { GluedHead([s[0]], rest, q); }
    }
  }

  lemma QuotedLines(s: string)
    ensures "PY" in Split(QUOTES + s + QUOTES, '\n') <==> EndsHeredoc(s)
  {
    hide Split;
    SplitPrefix(QUOTES, s, '\n');
    SplitSuffix(QUOTES + s, QUOTES, '\n');
    var parts, lines := Split(s, '\n'), Split(QUOTES + s + QUOTES, '\n');
    var n := |parts|;
    assert |lines| == n;
    assert forall i :: 0 < i < n - 1 ==> lines[i] == parts[i];
    assert lines[0][0] == '\'' && lines[n - 1][|lines[n - 1]| - 1] == '\'';
    assert "PY"[0] == 'P' && "PY"[1] == 'Y';
  }

  /**
   Text without backslashes reaches the Python program unchanged exactly when it holds no triple
   quote, does not end in a quote, and holds no NUL, no carriage return and no line that ends the
   here-document.
   */
  lemma PythonStringFaithfulIff(s: string)
    requires '\\' !in s
    ensures PythonValue(PythonString(s)) == Some(s) <==> !Contains(s, QUOTES) && !EndsInQuote(s) && Travels(s)
  {
    hide FindFrom, ReplaceAll, EndsHeredoc, Split;
    var lit := PythonString(s);
    if Contains(s, QUOTES) {
      ReplaceLonger(s, QUOTES, "'''\"'\"'''");
      assert |lit| > |s| + 6;
    } else {
      ReplaceNothing(s, QUOTES, "'''\"'\"'''");
      assert lit == QUOTES + s + QUOTES;
      assert lit[..3] == QUOTES && lit[3..|lit| - 3] == s && '\\' !in lit;
      assert forall c :: c != '\'' ==> (c in lit <==> c in s);
      QuotedLines(s);
      ClosesAt(s);
    }
  }

  /** The first triple quote behind the opening one is the closing one, unless the text ends in a quote. */
  lemma ClosesAt(s: string)
    requires !Contains(s, QUOTES)
    ensures var lit := QUOTES + s + QUOTES; FindFrom(lit, QUOTES, 3) == 3 + |s| <==> !EndsInQuote(s)
  {
    hide FindFrom;
    var lit, n := QUOTES + s + QUOTES, |s|;
    assert lit[3 + n..3 + n + 3] == QUOTES;
    assert At(lit, QUOTES, 3 + n);
    if EndsInQuote(s) {
      assert lit[2 + n..2 + n + 3] == QUOTES;
      assert At(lit, QUOTES, 2 + n);
    } else {
      forall j: nat | 3 <= j < 3 + n ensures !At(lit, QUOTES, j) {
        if j + 3 <= 3 + n {
          AtPrefix(QUOTES + s, lit, QUOTES, j);
          assert (QUOTES + s)[3..] == s;
          AtSuffix(QUOTES + s, QUOTES, 3, j);
          assert !At(s, QUOTES, j - 3);
        } else {
          assert lit[2 + n] == s[n - 1];
          AtChar(lit, QUOTES, j, 2 + n - j);
        }
      }
    }
  }

  /**
   The whole step on the node: the block that the Python program writes is the rendered one, exactly
   when it holds no triple quote and travels as it is, and a later run's block replaces it as if it had never been.
   */
  lemma HostsRuns(cfg1: ClusterConfig, cfg2: ClusterConfig, t: string)
    requires Orderly(t)
    requires NodesFreeOf(cfg1, '#') && NodesFreeOf(cfg1, '\\') && NodesFreeOf(cfg2, '#')
    ensures PythonValue(PythonString(HostsBlock(cfg1))) == Some(HostsBlock(cfg1)) <==> !Contains(HostsBlock(cfg1), QUOTES) && Travels(HostsBlock(cfg1))
    ensures Edit(Edit(t, HostsBlock(cfg1)), HostsBlock(cfg2)) == Edit(t, HostsBlock(cfg2))
    ensures Orderly(Edit(t, HostsBlock(cfg1)))
  {
    hide Orderly, Edit, HostsBlock, NodesFreeOf, IsBlock;
    RenderedIsBlock(cfg1);
    RenderedIsBlock(cfg2);
    RenderedIsLiteralIff(cfg1);
    LastWriteWinsIff(t, HostsBlock(cfg1), HostsBlock(cfg2));
    EditView(t, HostsBlock(cfg1));
  }

  lemma RenderedIsLiteralIff(cfg: ClusterConfig)
    requires NodesFreeOf(cfg, '\\')
    ensures PythonValue(PythonString(HostsBlock(cfg))) == Some(HostsBlock(cfg)) <==> !Contains(HostsBlock(cfg), QUOTES) && Travels(HostsBlock(cfg))
  {
    hide PythonValue, PythonString, HostLines, Contains, NodesFreeOf, Travels;
    var b, lines := HostsBlock(cfg), HostLines(cfg, cfg.nodeNames);
    LinesFreeOf(cfg, cfg.nodeNames, '\\');
    MarkersPlain();
    assert b[|b| - 1] == END[|END| - 1];
    PythonStringFaithfulIff(b);
  }

  lemma MarkersPlain()
    ensures '\\' !in START && '\\' !in END && END[|END| - 1] != '\''
    ensures '\'' !in START && '\'' !in END
  {
  }

  /** Node texts without quotes make a block without triple quotes. */
  lemma QuoteFree(cfg: ClusterConfig)
    requires NodesFreeOf(cfg, '\'')
    ensures !Contains(HostsBlock(cfg), QUOTES)
  {
    hide HostLines, NodesFreeOf;
    var b := HostsBlock(cfg);
    LinesFreeOf(cfg, cfg.nodeNames, '\'');
    MarkersPlain();
    assert '\'' !in b;
    forall j: nat ensures !At(b, QUOTES, j) { AtChar(b, QUOTES, j, 0); }
  }

  /** A line that cannot end the here-document. */
  predicate HarmlessLine(l: string) { l == START || l == END || ' ' in l }

  predicate HarmlessLines(ls: seq<string>) { forall i :: 0 <= i < |ls| ==> HarmlessLine(ls[i]) }

  lemma HostLineLine(cfg: ClusterConfig, key: string, rest: string)
    requires NodesFreeOf(cfg, '\n') && key in cfg.nodeNames && HarmlessLines(Split(rest, '\n'))
    ensures HarmlessLines(Split(HostLine(cfg, key) + rest, '\n'))
  {
    hide HostAddress;
    var n := NodeOf(cfg.nodes, key);
    var body := HostAddress(cfg, n) + " " + n.name + " " + n.key;
    assert HostLine(cfg, key) + rest == body + ['\n'] + rest;
    SplitAppend(body, '\n', rest);
    SplitPlain(body, '\n');
    assert body[|HostAddress(cfg, n)|] == ' ';
  }

  lemma {:induction false} LinesHarmless(cfg: ClusterConfig, names: seq<string>, rest: string)
    requires NodesFreeOf(cfg, '\n') && (forall k :: k in names ==> k in cfg.nodeNames) && HarmlessLines(Split(rest, '\n'))
    ensures HarmlessLines(Split(HostLines(cfg, names) + rest, '\n'))
    decreases |names|
  {
    hide NodesFreeOf, HarmlessLines, Split, HostLine;
    if names == [] {
      assert HostLines(cfg, names) + rest == rest;
    } else {
      var n := |names| - 1;
      HostLineLine(cfg, names[n], rest);
      LinesHarmless(cfg, names[..n], HostLine(cfg, names[n]) + rest);
      assert HostLines(cfg, names) + rest == HostLines(cfg, names[..n]) + (HostLine(cfg, names[n]) + rest);
    }
  }

  /** The block of nodes whose texts hold no line break, carriage return or NUL travels as it is. */
  lemma BlockTravels(cfg: ClusterConfig)
    requires NodesFreeOf(cfg, '\n') && NodesFreeOf(cfg, '\r') && NodesFreeOf(cfg, '\0')
    ensures Travels(HostsBlock(cfg))
  {
    hide NodesFreeOf, HostLines, Split, HarmlessLine;
    var b, lines := HostsBlock(cfg), HostLines(cfg, cfg.nodeNames);
    LinesFreeOf(cfg, cfg.nodeNames, '\r');
    LinesFreeOf(cfg, cfg.nodeNames, '\0');
    EndLine();
    LinesHarmless(cfg, cfg.nodeNames, END);
    assert b == START + ['\n'] + (lines + END);
    SplitAppend(START, '\n', lines + END);
    HarmlessStart();
    MarkersClean();
    assert HarmlessLines(Split(b, '\n'));
    PYHarmful();
  }

  lemma EndLine()
    ensures HarmlessLines(Split(END, '\n'))
  {
    MarkerShape(END);
    SplitPlain(END, '\n');
  }

  lemma HarmlessStart()
    ensures HarmlessLines(Split(START, '\n'))
  {
    MarkerShape(START);
    SplitPlain(START, '\n');
  }

  lemma MarkersClean()
    ensures '\r' !in START && '\0' !in START && '\r' !in END && '\0' !in END
  {
  }

  lemma PYHarmful()
    ensures !HarmlessLine("PY")
  {
    assert |START| != 2 && |END| != 2;
  }
}

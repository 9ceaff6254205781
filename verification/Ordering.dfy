/**
 The byte-wise string order, `sort.Strings`, and ranks: the number of elements
 of a list that sort before a given string.
 */
module Ordering {
  import opened Text

  /** `a < b` on Go strings. */
  predicate Less(a: string, b: string) {
    b != [] && (a == [] || a[0] < b[0] || (a[0] == b[0] && Less(a[1..], b[1..])))
  }

  lemma {:induction false} LessTotal(a: string, b: string)
    ensures Less(a, b) || a == b || Less(b, a)
  {
    if a != [] && b != [] && a[0] == b[0] {
      LessTotal(a[1..], b[1..]);
      assert a == [a[0]] + a[1..] && b == [b[0]] + b[1..];
    }
  }

  lemma {:induction false} LessIrreflexive(a: string)
    ensures !Less(a, a)
  {
    if a != [] { LessIrreflexive(a[1..]); }
  }

  lemma {:induction false} LessTransitive(a: string, b: string, c: string)
    requires Less(a, b) && Less(b, c)
    ensures Less(a, c)
  {
    if a != [] && a[0] == b[0] && b[0] == c[0] { LessTransitive(a[1..], b[1..], c[1..]); }
  }

  predicate AtMost(a: string, b: string) { a == b || Less(a, b) }

  ghost predicate Sorted(s: seq<string>) { forall i, j :: 0 <= i < j < |s| ==> AtMost(s[i], s[j]) }

  /** Puts `x` before the first element that is not below it. */
  function Insert(x: string, s: seq<string>): (r: seq<string>)
    ensures |r| == |s| + 1 && multiset(r) == multiset(s) + multiset{x}
    ensures Sorted(s) ==> Sorted(r)
  {
    if s == [] then [x]
    else if Less(s[0], x) then
      assert s == [s[0]] + s[1..];
      var rest := Insert(x, s[1..]);
      InsertKeepsSorted(s, x, rest);
      [s[0]] + rest
    else
      InsertInFront(s, x);
      [x] + s
  }

  lemma InsertInFront(s: seq<string>, x: string)
    requires s != [] && !Less(s[0], x)
    ensures Sorted(s) ==> Sorted([x] + s)
  {
    if Sorted(s) {
      LessTotal(x, s[0]);
      forall j | 0 < j < |s| ensures AtMost(x, s[j]) {
        if x != s[0] && s[0] != s[j] { LessTransitive(x, s[0], s[j]); }
      }
    }
  }

  lemma InsertKeepsSorted(s: seq<string>, x: string, rest: seq<string>)
    requires s != [] && Less(s[0], x)
    requires multiset(rest) == multiset(s[1..]) + multiset{x}
    requires Sorted(s[1..]) ==> Sorted(rest)
    ensures Sorted(s) ==> Sorted([s[0]] + rest)
  {
    if Sorted(s) {
      forall j | 0 <= j < |rest| ensures AtMost(s[0], rest[j]) {
        assert rest[j] in multiset(rest);
        if rest[j] != x { assert rest[j] in s[1..]; }
      }
    }
  }

  /** `sort.Strings`, as a value. */
  function SortStrings(s: seq<string>): (r: seq<string>)
    ensures |r| == |s| && multiset(r) == multiset(s) && Sorted(r)
  {
    if s == [] then [] else
      assert s == [s[0]] + s[1..];
      Insert(s[0], SortStrings(s[1..]))
  }

  lemma SameElements(s: seq<string>, x: string)
    ensures x in SortStrings(s) <==> x in s
  {
    assert x in SortStrings(s) <==> x in multiset(SortStrings(s));
  }

  /** Sorting keeps the elements distinct. */
  lemma SortDistinct(s: seq<string>)
    requires Distinct(s)
    ensures Distinct(SortStrings(s))
  {
    var r := SortStrings(s);
    forall i, j | 0 <= i < j < |r| ensures r[i] != r[j] {
      DistinctCount(s, r[i]);
      if r[i] == r[j] { RepeatedCount(r, i, j); }
    }
  }

  lemma RepeatedCount(s: seq<string>, i: nat, j: nat)
    requires i < j < |s| && s[i] == s[j]
    ensures multiset(s)[s[i]] >= 2
  {
    var front, back := s[..j], s[j..];
    assert s == front + back;
    assert front[i] in multiset(front) && back[0] in multiset(back);
  }

  lemma {:induction false} DistinctCount(s: seq<string>, x: string)
    requires Distinct(s)
    ensures multiset(s)[x] <= 1
  {
    if s != [] {
      DistinctCount(s[1..], x);
      assert s == [s[0]] + s[1..];
      if x in multiset(s[1..]) { assert x in s[1..]; }
    }
  }

  /** How many elements of `s` sort before `x`. */
  function Rank(x: string, s: seq<string>): (n: nat)
    ensures n <= |s|
  {
    if s == [] then 0 else Rank(x, s[1..]) + (if Less(s[0], x) then 1 else 0)
  }

  lemma {:induction false} RankInsert(x: string, y: string, s: seq<string>)
    ensures Rank(x, Insert(y, s)) == Rank(x, s) + (if Less(y, x) then 1 else 0)
  {
    if s == [] {
    } else if Less(s[0], y) {
      RankInsert(x, y, s[1..]);
      assert Insert(y, s)[1..] == Insert(y, s[1..]);
    } else {
      assert Insert(y, s)[1..] == s;
    }
  }

  /** The rank does not depend on the order of the list. */
  lemma {:induction false} RankSort(x: string, s: seq<string>)
    ensures Rank(x, SortStrings(s)) == Rank(x, s)
  {
    if s != [] {
      RankSort(x, s[1..]);
      RankInsert(x, s[0], SortStrings(s[1..]));
    }
  }

  lemma {:induction false} RankAppend(x: string, a: seq<string>, b: seq<string>)
    ensures Rank(x, a + b) == Rank(x, a) + Rank(x, b)
  {
    if a == [] {
      assert a + b == b;
    } else {
      assert (a + b)[1..] == a[1..] + b;
      RankAppend(x, a[1..], b);
    }
  }

  lemma {:induction false} RankAll(x: string, s: seq<string>)
    requires forall i :: 0 <= i < |s| ==> Less(s[i], x)
    ensures Rank(x, s) == |s|
  {
    if s != [] { RankAll(x, s[1..]); }
  }

  lemma {:induction false} RankNone(x: string, s: seq<string>)
    requires forall i :: 0 <= i < |s| ==> !Less(s[i], x)
    ensures Rank(x, s) == 0
  {
    if s != [] { RankNone(x, s[1..]); }
  }

  /** In a sorted list without repetitions an element's index is its rank. */
  lemma IndexIsRank(s: seq<string>, i: nat)
    requires Sorted(s) && Distinct(s) && i < |s|
    ensures Rank(s[i], s) == i
  {
    var x := s[i];
    forall j | 0 <= j < i ensures Less(s[j], x) { assert AtMost(s[j], s[i]); }
    forall j | i <= j < |s| ensures !Less(s[j], x) { NotBelow(s, i, j); }
    assert s == s[..i] + s[i..];
    RankAppend(x, s[..i], s[i..]);
    RankAll(x, s[..i]);
    RankNone(x, s[i..]);
  }

  lemma NotBelow(s: seq<string>, i: nat, j: nat)
    requires Sorted(s) && i <= j < |s|
    ensures !Less(s[j], s[i])
  {
    LessIrreflexive(s[i]);
    if i < j && Less(s[j], s[i]) {
      assert AtMost(s[i], s[j]);
      if s[i] != s[j] { LessTransitive(s[i], s[j], s[i]); }
    }
  }

  lemma SameHead(a: seq<string>, b: seq<string>)
    requires Sorted(a) && Sorted(b) && multiset(a) == multiset(b) && a != [] && b != []
    ensures a[0] == b[0]
  {
    assert a[0] in multiset(b) && b[0] in multiset(a);
    var i :| 0 <= i < |b| && b[i] == a[0];
    var j :| 0 <= j < |a| && a[j] == b[0];
    assert AtMost(b[0], a[0]) && AtMost(a[0], b[0]);
    if a[0] != b[0] {
      LessTransitive(a[0], b[0], a[0]);
      LessIrreflexive(a[0]);
    }
  }

  lemma TailMultiset(a: seq<string>)
    requires a != []
    ensures multiset(a[1..]) == multiset(a) - multiset{a[0]}
  {
    assert a == [a[0]] + a[1..];
  }

  /** Two sorted lists with the same elements are the same list. */
  lemma {:induction false} SortedUnique(a: seq<string>, b: seq<string>)
    requires Sorted(a) && Sorted(b) && multiset(a) == multiset(b)
    ensures a == b
    decreases |a|
  {
    assert |multiset(a)| == |a| && |multiset(b)| == |b|;
    if a != [] {
      SameHead(a, b);
      TailMultiset(a);
      TailMultiset(b);
      SortedUnique(a[1..], b[1..]);
      assert a == [a[0]] + a[1..] && b == [b[0]] + b[1..];
    }
  }

  // ------------------------------------------------------------ sorted keys

  /** The elements of a set in ascending order: map keys collected in any order and sorted. */
  ghost function SortedKeys(keys: set<string>): (s: seq<string>)
    ensures forall k :: k in s <==> k in keys
    ensures Sorted(s) && Distinct(s)
  {
    var l := ListOf(keys);
    SortDistinct(l);
    assert forall k :: k in SortStrings(l) <==> k in l by {
      forall k { SameElements(l, k); }
    }
    SortStrings(l)
  }

  ghost function ListOf(keys: set<string>): (s: seq<string>)
    ensures forall k :: k in s <==> k in keys
    ensures Distinct(s)
  {
    if keys == {} then [] else
      var k :| k in keys;
      ListOf(keys - {k}) + [k]
  }

  /** Whatever order the keys were collected in, sorting gives the same list. */
  lemma CollectedKeys(l: seq<string>, keys: set<string>)
    requires Distinct(l) && forall k :: k in l <==> k in keys
    ensures SortStrings(l) == SortedKeys(keys)
  {
    var m := ListOf(keys);
    forall k ensures multiset(l)[k] == multiset(m)[k] {
      DistinctCount(l, k);
      DistinctCount(m, k);
      assert k in multiset(l) <==> k in l;
      assert k in multiset(m) <==> k in m;
    }
    assert multiset(l) == multiset(m);
    SortedUnique(SortStrings(l), SortStrings(m));
  }
}

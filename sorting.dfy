/** `Array.prototype.sort` with a comparator, as the dashboard uses it on freshly built
    arrays (the leaderboard, the chat list, the upcoming deadlines), and JavaScript's `<` on
    strings. The comparator is given as `le(a, b)`: "a may stay in front of b", i.e. the
    comparator's result for (a, b) is not positive. */
module Sorting {

  /** Every adjacent-or-not pair is in `le` order. */
  ghost predicate SortedBy<T>(s: seq<T>, le: (T, T) -> bool) {
    forall i, j :: 0 <= i < j < |s| ==> le(s[i], s[j])
  }

  /** `le` is total and transitive on the values of `s` (a comparator that is consistent on
      the array being sorted). */
  ghost predicate TotalPreorderOn<T(!new)>(le: (T, T) -> bool, s: seq<T>) {
    && (forall a, b :: a in s && b in s ==> le(a, b) || le(b, a))
    && (forall a, b, c :: a in s && b in s && c in s && le(a, b) && le(b, c) ==> le(a, c))
  }

  /** Inserts `x` after every element that may stay in front of it. */
  function Insert<T>(sorted: seq<T>, x: T, le: (T, T) -> bool): (r: seq<T>)
    ensures multiset(r) == multiset(sorted) + multiset{x}
    ensures |r| == |sorted| + 1
  {
    if sorted == [] then [x]
    else if le(sorted[0], x) then
      assert sorted == [sorted[0]] + sorted[1..];
      [sorted[0]] + Insert(sorted[1..], x, le)
    else [x] + sorted
  }

  /** A stable sort: elements are inserted in their original order, each after the equal
      ones already placed. */
  function SortBy<T>(s: seq<T>, le: (T, T) -> bool): (r: seq<T>)
    ensures multiset(r) == multiset(s)
    ensures |r| == |s|
    decreases |s|
  {
    if s == [] then []
    else
      assert s == s[..|s| - 1] + [s[|s| - 1]];
      Insert(SortBy(s[..|s| - 1], le), s[|s| - 1], le)
  }

  lemma {:induction false} InsertSorted<T(!new)>(sorted: seq<T>, x: T, le: (T, T) -> bool, all: seq<T>)
    requires SortedBy(sorted, le)
    requires TotalPreorderOn(le, all)
    requires x in all && forall y :: y in sorted ==> y in all
    ensures SortedBy(Insert(sorted, x, le), le)
    decreases |sorted|
  {
    var r := Insert(sorted, x, le);
    if sorted == [] {
    } else if le(sorted[0], x) {
      var rest := sorted[1..];
      InsertSorted(rest, x, le, all);
      var tail := Insert(rest, x, le);
      forall j | 1 <= j < |r|
        ensures le(r[0], r[j])
      {
        assert r[j] == tail[j - 1];
        assert r[j] in multiset(tail);
        if r[j] != x {
          assert r[j] in multiset(rest);
          var k :| 0 <= k < |rest| && rest[k] == r[j];
          assert r[j] == sorted[k + 1];
        }
      }
    } else {
      assert le(x, sorted[0]) by {
        assert sorted[0] in sorted;
      }
      forall j | 1 <= j < |r|
        ensures le(r[0], r[j])
      {
        if j > 1 {
          assert le(sorted[0], sorted[j - 1]);
          assert sorted[j - 1] in sorted;
        }
      }
    }
  }

  /** With a comparator that is consistent on the input, the result is sorted. */
  lemma {:induction false} SortBySorted<T(!new)>(s: seq<T>, le: (T, T) -> bool)
    requires TotalPreorderOn(le, s)
    ensures SortedBy(SortBy(s, le), le)
    decreases |s|
  {
    if s != [] {
      var init := s[..|s| - 1];
      assert forall y :: y in init ==> y in s;
      assert TotalPreorderOn(le, init);
      SortBySorted(init, le);
      var sortedInit := SortBy(init, le);
      forall y | y in sortedInit
        ensures y in s
      {
        assert y in multiset(sortedInit);
      }
      InsertSorted(sortedInit, s[|s| - 1], le, s);
    }
  }

  /** `a` and `b` are tied under `le`: each may stay in front of the other. */
  predicate Tied<T>(le: (T, T) -> bool, a: T, b: T) {
    le(a, b) && le(b, a)
  }

  /** The elements of `s` tied with `y`, in their order in `s`. */
  function TiedSubseq<T>(s: seq<T>, le: (T, T) -> bool, y: T): (r: seq<T>)
    ensures |r| <= |s|
    ensures forall i :: 0 <= i < |r| ==> Tied(le, r[i], y)
  {
    if s == [] then []
    else (if Tied(le, s[0], y) then [s[0]] else []) + TiedSubseq(s[1..], le, y)
  }

  lemma {:induction false} TiedSubseqConcat<T>(a: seq<T>, b: seq<T>, le: (T, T) -> bool, y: T)
    ensures TiedSubseq(a + b, le, y) == TiedSubseq(a, le, y) + TiedSubseq(b, le, y)
    decreases |a|
  {
    if a == [] {
      assert a + b == b;
    } else {
      assert (a + b)[0] == a[0] && (a + b)[1..] == a[1..] + b;
      TiedSubseqConcat(a[1..], b, le, y);
    }
  }

  /** A sorted list stays sorted without its first element. */
  lemma SortedTail<T>(s: seq<T>, le: (T, T) -> bool)
    requires s != [] && SortedBy(s, le)
    ensures SortedBy(s[1..], le)
  {
    forall i, j | 0 <= i < j < |s| - 1
      ensures le(s[1..][i], s[1..][j])
    {
      assert s[1..][i] == s[i + 1] && s[1..][j] == s[j + 1];
    }
  }

  /** Inserting `x` puts it after every element tied with it that is already placed. */
  lemma {:induction false} InsertStable<T(!new)>(sorted: seq<T>, x: T, le: (T, T) -> bool, all: seq<T>, y: T)
    requires SortedBy(sorted, le)
    requires TotalPreorderOn(le, all)
    requires x in all && y in all && forall z :: z in sorted ==> z in all
    ensures TiedSubseq(Insert(sorted, x, le), le, y) == TiedSubseq(sorted, le, y) + TiedSubseq([x], le, y)
    decreases |sorted|
  {
    if sorted == [] {
      assert Insert(sorted, x, le) == [x];
    } else if le(sorted[0], x) {
      var rest := sorted[1..];
      var inserted := Insert(rest, x, le);
      assert Insert(sorted, x, le) == [sorted[0]] + inserted;
      assert ([sorted[0]] + inserted)[1..] == inserted;
      SortedTail(sorted, le);
      TailWithin(sorted, all);
      InsertStable(rest, x, le, all, y);
    } else {
      assert Insert(sorted, x, le) == [x] + sorted;
      assert ([x] + sorted)[1..] == sorted;
      if Tied(le, x, y) {
        NoneTiedBehind(sorted, x, le, all, y);
      }
    }
  }

  lemma TailWithin<T>(s: seq<T>, all: seq<T>)
    requires s != [] && forall z :: z in s ==> z in all
    ensures forall z :: z in s[1..] ==> z in all
  {
    assert forall k :: 0 <= k < |s| - 1 ==> s[1..][k] == s[k + 1];
  }

  /** When `x` is tied with `y` but may not stay behind the first element of a sorted
      list, no element of that list is tied with `y`. */
  lemma {:induction false} NoneTiedBehind<T(!new)>(sorted: seq<T>, x: T, le: (T, T) -> bool, all: seq<T>, y: T)
    requires SortedBy(sorted, le)
    requires TotalPreorderOn(le, all)
    requires x in all && y in all && forall z :: z in sorted ==> z in all
    requires sorted != [] && !le(sorted[0], x) && Tied(le, x, y)
    ensures TiedSubseq(sorted, le, y) == []
  {
    forall k | 0 <= k < |sorted|
      ensures !Tied(le, sorted[k], y)
    {
      assert sorted[0] in sorted && sorted[k] in sorted;
      assert le(sorted[0], sorted[k]);
    }
    NoneTiedSuffix(sorted, 0, le, y);
  }

  lemma {:induction false} NoneTiedSuffix<T>(s: seq<T>, from: nat, le: (T, T) -> bool, y: T)
    requires from <= |s|
    requires forall k :: from <= k < |s| ==> !Tied(le, s[k], y)
    ensures TiedSubseq(s[from..], le, y) == []
    decreases |s| - from
  {
    if from < |s| {
      NoneTiedSuffix(s, from + 1, le, y);
      assert s[from..][1..] == s[from + 1..];
    }
  }

  /** Stability over a pool `all` the comparator is consistent on. */
  lemma {:induction false} SortByStableIn<T(!new)>(s: seq<T>, le: (T, T) -> bool, all: seq<T>, y: T)
    requires TotalPreorderOn(le, all)
    requires y in all && forall z :: z in s ==> z in all
    ensures TiedSubseq(SortBy(s, le), le, y) == TiedSubseq(s, le, y)
    decreases |s|
  {
    if s != [] {
      var init, last := s[..|s| - 1], s[|s| - 1];
      assert s == init + [last];
      assert forall z :: z in init ==> z in s;
      SortByStableIn(init, le, all, y);
      assert TotalPreorderOn(le, init);
      SortBySorted(init, le);
      var sortedInit := SortBy(init, le);
      forall z | z in sortedInit
        ensures z in all
      {
        assert z in multiset(sortedInit);
      }
      InsertStable(sortedInit, last, le, all, y);
      TiedSubseqConcat(init, [last], le, y);
    }
  }

  /** The sort is stable: for a comparator consistent on the input, the elements tied with
      any one of them come out in the order they went in. */
  lemma SortByStable<T(!new)>(s: seq<T>, le: (T, T) -> bool, y: T)
    requires TotalPreorderOn(le, s) && y in s
    ensures TiedSubseq(SortBy(s, le), le, y) == TiedSubseq(s, le, y)
  {
    SortByStableIn(s, le, s, y);
  }

  /** With a comparator that finds every pair tied, inserting appends. */
  lemma {:induction false} InsertAllTied<T>(sorted: seq<T>, x: T, le: (T, T) -> bool)
    requires forall a, b :: le(a, b)
    ensures Insert(sorted, x, le) == sorted + [x]
    decreases |sorted|
  {
    if sorted != [] {
      InsertAllTied(sorted[1..], x, le);
      assert sorted == [sorted[0]] + sorted[1..];
    }
  }

  /** A comparator that finds every pair tied leaves the array as it was. */
  lemma {:induction false} SortByAllTied<T>(s: seq<T>, le: (T, T) -> bool)
    requires forall a, b :: le(a, b)
    ensures SortBy(s, le) == s
    decreases |s|
  {
    if s != [] {
      var init := s[..|s| - 1];
      SortByAllTied(init, le);
      InsertAllTied(init, s[|s| - 1], le);
      assert s == init + [s[|s| - 1]];
    }
  }

  // ---------------------------------------------------------------------------
  // JavaScript `<` on strings
  // ---------------------------------------------------------------------------

  /** `a < b` on strings: lexicographic by character, a proper prefix being smaller. */
  predicate LexLess(a: string, b: string)
    decreases |a|
  {
    if b == [] then false
    else if a == [] then true
    else if a[0] != b[0] then a[0] < b[0]
    else LexLess(a[1..], b[1..])
  }

  lemma {:induction false} LexLessIrreflexive(a: string)
    ensures !LexLess(a, a)
    decreases |a|
  {
    if a != [] {
      LexLessIrreflexive(a[1..]);
    }
  }

  lemma {:induction false} LexLessTransitive(a: string, b: string, c: string)
    requires LexLess(a, b) && LexLess(b, c)
    ensures LexLess(a, c)
    decreases |a|
  {
    if a != [] && a[0] == b[0] && b[0] == c[0] {
      LexLessTransitive(a[1..], b[1..], c[1..]);
    }
  }

  /** Of two different strings, exactly one is smaller. */
  lemma {:induction false} LexLessTrichotomy(a: string, b: string)
    ensures a == b || LexLess(a, b) || LexLess(b, a)
    ensures !(LexLess(a, b) && LexLess(b, a))
    decreases |a|
  {
    if a != [] && b != [] && a[0] == b[0] {
      LexLessTrichotomy(a[1..], b[1..]);
      if a[1..] == b[1..] {
        assert a == [a[0]] + a[1..] && b == [b[0]] + b[1..];
      }
    }
  }

  /** `!(b < a)` ("a <= b") is a total preorder on strings. */
  lemma LexLeqTotalPreorder()
    ensures forall a: string, b: string :: !LexLess(b, a) || !LexLess(a, b)
    ensures forall a: string, b: string, c: string :: !LexLess(b, a) && !LexLess(c, b) ==> !LexLess(c, a)
  {
    forall a: string, b: string
      ensures !LexLess(b, a) || !LexLess(a, b)
    {
      LexLessTrichotomy(a, b);
    }
    forall a: string, b: string, c: string | !LexLess(b, a) && !LexLess(c, b)
      ensures !LexLess(c, a)
    {
      LexLessTrichotomy(a, b);
      LexLessTrichotomy(b, c);
      if a != b && b != c {
        LexLessTransitive(a, b, c);
        LexLessTrichotomy(a, c);
      }
    }
  }
}

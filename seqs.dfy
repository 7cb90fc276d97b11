/** Array operations of JavaScript used throughout the widget: `filter` and `slice`. */
module Seqs {

  function Min(a: int, b: int): int { if a <= b then a else b }

  function Max(a: int, b: int): int { if a >= b then a else b }

  /** `s.filter(keep)`: the elements `keep` accepts, in their original order. */
  function Filter<T(!new)>(s: seq<T>, keep: T -> bool): (r: seq<T>)
    ensures |r| <= |s|
    ensures forall x :: x in r <==> x in s && keep(x)
  {
    if s == [] then [] else (if keep(s[0]) then [s[0]] else []) + Filter(s[1..], keep)
  }

  /** `r` is `s` with zero or more elements deleted (relative order kept). */
  predicate IsSubsequence<T(==,!new)>(r: seq<T>, s: seq<T>)
    decreases |s|
  {
    r == [] || (s != [] && ((r[0] == s[0] && IsSubsequence(r[1..], s[1..])) || IsSubsequence(r, s[1..])))
  }

  /** Number of elements `keep` accepts: `s.filter(keep).length`. */
  function Count<T(!new)>(s: seq<T>, keep: T -> bool): nat {
    |Filter(s, keep)|
  }

  lemma {:induction false} FilterIsSubsequence<T(!new)>(s: seq<T>, keep: T -> bool)
    ensures IsSubsequence(Filter(s, keep), s)
  {
    if s != [] {
      FilterIsSubsequence(s[1..], keep);
      var r := Filter(s, keep);
      if keep(s[0]) {
        assert r == [s[0]] + Filter(s[1..], keep);
        assert r[0] == s[0] && r[1..] == Filter(s[1..], keep);
      } else {
        assert r == Filter(s[1..], keep);
      }
    }
  }

  lemma {:induction false} FilterAppend<T(!new)>(a: seq<T>, b: seq<T>, keep: T -> bool)
    ensures Filter(a + b, keep) == Filter(a, keep) + Filter(b, keep)
  {
    if a == [] {
      assert a + b == b;
    } else {
      assert (a + b)[1..] == a[1..] + b;
      FilterAppend(a[1..], b, keep);
    }
  }

  /** Appending one element adds one to the count exactly when `keep` accepts it. */
  lemma CountAppendOne<T(!new)>(s: seq<T>, x: T, keep: T -> bool)
    ensures Count(s + [x], keep) == Count(s, keep) + (if keep(x) then 1 else 0)
  {
    FilterAppend(s, [x], keep);
    assert Filter([x], keep) == (if keep(x) then [x] else []) + Filter([], keep);
  }

  /** What `filter` keeps of one element. */
  function Kept<T>(x: T, keep: T -> bool): seq<T> {
    if keep(x) then [x] else []
  }

  lemma FilterCons<T(!new)>(x: T, s: seq<T>, keep: T -> bool)
    ensures Filter([x] + s, keep) == Kept(x, keep) + Filter(s, keep)
  {
    assert ([x] + s)[1..] == s;
  }

  /** Filtering eight elements is deciding each in turn. */
  lemma FilterEight<T(!new)>(a: T, b: T, c: T, d: T, e: T, f: T, g: T, h: T, keep: T -> bool)
    ensures Filter([a, b, c, d, e, f, g, h], keep) ==
      Kept(a, keep) + (Kept(b, keep) + (Kept(c, keep) + (Kept(d, keep) +
      (Kept(e, keep) + (Kept(f, keep) + (Kept(g, keep) + Kept(h, keep)))))))
  {
    var s7 := [h];
    var s6 := [g] + s7;
    var s5 := [f] + s6;
    var s4 := [e] + s5;
    var s3 := [d] + s4;
    var s2 := [c] + s3;
    var s1 := [b] + s2;
    var s0 := [a] + s1;
    assert s0 == [a, b, c, d, e, f, g, h];
    FilterCons(h, [], keep);
    assert s7 == [h] + [];
    assert Filter(s7, keep) == Kept(h, keep);
    FilterCons(g, s7, keep);
    FilterCons(f, s6, keep);
    FilterCons(e, s5, keep);
    FilterCons(d, s4, keep);
    FilterCons(c, s3, keep);
    FilterCons(b, s2, keep);
    FilterCons(a, s1, keep);
  }

  /** Eight elements of which a test accepts exactly the first three. */
  lemma FilterFirstThree<T(!new)>(a: T, b: T, c: T, d: T, e: T, f: T, g: T, h: T, keep: T -> bool)
    requires keep(a) && keep(b) && keep(c)
    requires !keep(d) && !keep(e) && !keep(f) && !keep(g) && !keep(h)
    ensures Filter([a, b, c, d, e, f, g, h], keep) == [a, b, c]
  {
    var first, rest := [a, b, c], [d, e, f, g, h];
    assert [a, b, c, d, e, f, g, h] == first + rest;
    FilterAppend(first, rest, keep);
    FilterKeepsAll(first, keep);
    FilterDropsAll(rest, keep);
  }

  lemma {:induction false} FilterKeepsAll<T(!new)>(s: seq<T>, keep: T -> bool)
    requires forall x :: x in s ==> keep(x)
    ensures Filter(s, keep) == s
  {
    if s != [] {
      FilterKeepsAll(s[1..], keep);
      assert [s[0]] + s[1..] == s;
    }
  }

  lemma {:induction false} FilterDropsAll<T(!new)>(s: seq<T>, keep: T -> bool)
    requires forall x :: x in s ==> !keep(x)
    ensures Filter(s, keep) == []
  {
    if s != [] {
      FilterDropsAll(s[1..], keep);
    }
  }

  /** Filtering out one rejected element between two kept runs leaves the two runs joined. */
  lemma FilterDropsOne<T(!new)>(a: seq<T>, x: T, b: seq<T>, keep: T -> bool)
    requires forall y :: y in a ==> keep(y)
    requires forall y :: y in b ==> keep(y)
    requires !keep(x)
    ensures Filter(a + [x] + b, keep) == a + b
  {
    FilterAppend(a + [x], b, keep);
    FilterAppend(a, [x], keep);
    FilterKeepsAll(a, keep);
    FilterKeepsAll(b, keep);
    assert Filter([x], keep) == [] + Filter([x][1..], keep);
    assert a + [] == a;
  }

  /** Filtering keeps exactly the one accepted element between two runs it rejects. */
  lemma FilterKeepsOne<T(!new)>(a: seq<T>, x: T, b: seq<T>, keep: T -> bool)
    requires Filter(a, keep) == [] && Filter(b, keep) == [] && keep(x)
    ensures Filter(a + [x] + b, keep) == [x]
  {
    FilterAppend(a + [x], b, keep);
    FilterAppend(a, [x], keep);
    assert Filter([x], keep) == [x] + Filter([x][1..], keep);
  }

  /** Updating behind a new head is updating one place further on. */
  lemma ConsUpdate<T>(a: T, s: seq<T>, k: int, x: T)
    requires 0 <= k < |s|
    ensures [a] + s[k := x] == ([a] + s)[k + 1 := x]
  {
  }

  lemma ConsAppend<T>(a: T, s: seq<T>, x: T)
    ensures [a] + (s + [x]) == ([a] + s) + [x]
  {
  }

  /** `s.slice(0, end)`: a negative `end` counts back from the length. */
  function SliceTo<T>(s: seq<T>, end: int): (r: seq<T>)
    ensures |r| <= |s| && r == s[..|r|]
    ensures end >= 0 ==> |r| == Min(end, |s|)
    ensures end < 0 ==> |r| == Max(|s| + end, 0)
  {
    if end >= 0 then s[..Min(end, |s|)] else s[..Max(|s| + end, 0)]
  }

  /** `s.slice(-count)`: the start index is `-count`, counted back from the length when negative.
      So a positive `count` keeps the last `count` elements, and `count == 0` (`-0 == 0`) keeps all. */
  function SliceLast<T>(s: seq<T>, count: int): (r: seq<T>)
    ensures |r| <= |s| && r == s[|s| - |r|..]
    ensures count > 0 ==> |r| == Min(count, |s|)
    ensures count == 0 ==> r == s
    ensures count < 0 ==> |r| == |s| - Min(-count, |s|)
  {
    var start := -count;
    if start < 0 then s[Max(|s| + start, 0)..] else s[Min(start, |s|)..]
  }
}

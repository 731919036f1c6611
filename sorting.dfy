/**
 * Array.prototype.sort with a comparator, as the search route and the
 * client filters use it. The sort is stable (ECMAScript 2019), so for a
 * comparator that is a total preorder on the elements being sorted its
 * result is the one stable insertion sort gives; `le(a, b)` says that the
 * comparator lets a stay before b (`compare(a, b) <= 0`).
 */
module Sorting {

  /** The comparator orders every pair of elements of xs and is transitive on them. */
  ghost predicate TotalPreorderOn<T>(le: (T, T) -> bool, xs: seq<T>) {
    && (forall a, b | a in xs && b in xs :: le(a, b) || le(b, a))
    && (forall a, b, c | a in xs && b in xs && c in xs && le(a, b) && le(b, c) :: le(a, c))
  }

  /** Every element may stay before every later one. */
  ghost predicate Sorted<T>(s: seq<T>, le: (T, T) -> bool) {
    forall i, j :: 0 <= i < j < |s| ==> le(s[i], s[j])
  }

  /** x placed after the last element of s that may stay before it, so that
      elements equal to x keep their place in front of it. */
  function Insert<T>(x: T, s: seq<T>, le: (T, T) -> bool): (r: seq<T>)
    ensures multiset(r) == multiset(s) + multiset{x}
  {
    if s == [] || le(s[|s| - 1], x) then s + [x]
    else
      var n := |s| - 1;
      assert s == s[..n] + [s[n]];
      Insert(x, s[..n], le) + [s[n]]
  }

  /** The stable sort of xs: each element in turn inserted into the sorted
      prefix. */
  function SortBy<T>(xs: seq<T>, le: (T, T) -> bool): (r: seq<T>)
    ensures multiset(r) == multiset(xs)
  {
    if xs == [] then []
    else
      var n := |xs| - 1;
      assert xs == xs[..n] + [xs[n]];
      Insert(xs[n], SortBy(xs[..n], le), le)
  }

  /** A preorder on a list is one on every list whose elements are among its own. */
  lemma PreorderOnFewer<T>(le: (T, T) -> bool, xs: seq<T>, ys: seq<T>)
    requires TotalPreorderOn(le, xs)
    requires multiset(ys) <= multiset(xs)
    ensures TotalPreorderOn(le, ys)
  {
    forall a | a in ys ensures a in xs {
      assert a in multiset(ys);
    }
  }

  /** Inserting after the last element that may stay before x. */
  lemma AppendSorted<T>(x: T, s: seq<T>, le: (T, T) -> bool)
    requires TotalPreorderOn(le, s + [x]) && Sorted(s, le)
    requires s != [] ==> le(s[|s| - 1], x)
    ensures Sorted(s + [x], le)
  {
    if s != [] {
      var n := |s| - 1;
      forall i | 0 <= i < n ensures le(s[i], x) {
        assert s[i] in s + [x] && s[n] in s + [x] && x in s + [x];
      }
    }
  }

  /** Every element of s and x itself may stay before the last element of s. */
  lemma BelowLast<T>(x: T, s: seq<T>, t: seq<T>, le: (T, T) -> bool)
    requires s != [] && TotalPreorderOn(le, s + [x]) && Sorted(s, le)
    requires !le(s[|s| - 1], x)
    requires multiset(t) == multiset(s[..|s| - 1]) + multiset{x}
    ensures forall y :: y in t ==> le(y, s[|s| - 1])
  {
    var n := |s| - 1;
    assert s[n] in s + [x] && x in s + [x];
    assert le(x, s[n]);
    forall y | y in t ensures le(y, s[n]) {
      assert y in multiset(t);
      if y != x {
        assert y in multiset(s[..n]);
        var k :| 0 <= k < n && s[..n][k] == y;
        assert s[k] == y;
      }
    }
  }

  lemma {:induction false} InsertSorted<T>(x: T, s: seq<T>, le: (T, T) -> bool)
    requires TotalPreorderOn(le, s + [x]) && Sorted(s, le)
    ensures Sorted(Insert(x, s, le), le)
  {
    if s == [] || le(s[|s| - 1], x) {
      AppendSorted(x, s, le);
    } else {
      var n := |s| - 1;
      var last := s[n];
      assert s == s[..n] + [last];
      PreorderOnFewer(le, s + [x], s[..n] + [x]);
      InsertSorted(x, s[..n], le);
      var t := Insert(x, s[..n], le);
      BelowLast(x, s, t, le);
      forall i, j | 0 <= i < j < |t| + 1
        ensures le((t + [last])[i], (t + [last])[j])
      {
        if j == |t| {
          assert t[i] in t;
        }
      }
    }
  }

  /** The result of the sort is ordered by the comparator. */
  lemma {:induction false} SortBySorted<T>(xs: seq<T>, le: (T, T) -> bool)
    requires TotalPreorderOn(le, xs)
    ensures Sorted(SortBy(xs, le), le)
  {
    if xs != [] {
      var n := |xs| - 1;
      assert xs == xs[..n] + [xs[n]];
      PreorderOnFewer(le, xs, xs[..n]);
      SortBySorted(xs[..n], le);
      PreorderOnFewer(le, xs, SortBy(xs[..n], le) + [xs[n]]);
      InsertSorted(xs[n], SortBy(xs[..n], le), le);
    }
  }

  /** A list that is already in order is left as it is: the sort moves no
      element past one it may stay behind. */
  lemma {:induction false} SortByKeepsSorted<T>(xs: seq<T>, le: (T, T) -> bool)
    requires Sorted(xs, le)
    ensures SortBy(xs, le) == xs
  {
    if xs != [] {
      var n := |xs| - 1;
      assert Sorted(xs[..n], le);
      SortByKeepsSorted(xs[..n], le);
      assert xs[..n] + [xs[n]] == xs;
    }
  }

  /** The elements of xs the comparator ties with c (each may stay before
      the other), in their order in xs. */
  function Ties<T>(xs: seq<T>, c: T, le: (T, T) -> bool): seq<T> {
    if xs == [] then []
    else
      var n := |xs| - 1;
      Ties(xs[..n], c, le) + (if le(xs[n], c) && le(c, xs[n]) then [xs[n]] else [])
  }

  /** Inserting x adds it at the end of its own tie class and leaves every
      other tie class as it was: the elements Insert moves x in front of are
      ones that may not stay before x, so none of them is tied with x. */
  lemma {:induction false} InsertTies<T>(x: T, s: seq<T>, le: (T, T) -> bool, c: T)
    requires forall y :: y in s && le(y, c) && le(c, x) ==> le(y, x)
    ensures Ties(Insert(x, s, le), c, le) ==
            Ties(s, c, le) + (if le(x, c) && le(c, x) then [x] else [])
  {
    if s == [] || le(s[|s| - 1], x) {
      assert (s + [x])[..|s|] == s;
    } else {
      var n := |s| - 1;
      var last := s[n];
      var t := Insert(x, s[..n], le);
      var mine: seq<T> := if le(x, c) && le(c, x) then [x] else [];
      var its: seq<T> := if le(last, c) && le(c, last) then [last] else [];
      assert forall y :: y in s[..n] ==> y in s;
      InsertTies(x, s[..n], le, c);
      assert Insert(x, s, le) == t + [last];
      TiesSnoc(t, last, c, le);
      TiesLast(s, c, le);
      var before := Ties(s[..n], c, le);
      if its == [] {
        assert Ties(t + [last], c, le) == Ties(t, c, le) == before + mine;
        assert Ties(s, c, le) == before;
      } else {
        assert mine == [] by {
          assert last in s;
        }
        assert Ties(t, c, le) == before;
      }
    }
  }

  lemma TiesLast<T>(s: seq<T>, c: T, le: (T, T) -> bool)
    requires s != []
    ensures var n := |s| - 1;
            Ties(s, c, le) == Ties(s[..n], c, le) + (if le(s[n], c) && le(c, s[n]) then [s[n]] else [])
  {
  }

  lemma TiesSnoc<T>(a: seq<T>, y: T, c: T, le: (T, T) -> bool)
    ensures Ties(a + [y], c, le) == Ties(a, c, le) + (if le(y, c) && le(c, y) then [y] else [])
  {
    assert (a + [y])[..|a|] == a;
  }

  lemma {:induction false} SortByTies<T>(xs: seq<T>, le: (T, T) -> bool, c: T)
    requires TotalPreorderOn(le, xs + [c])
    ensures Ties(SortBy(xs, le), c, le) == Ties(xs, c, le)
  {
    if xs != [] {
      var n := |xs| - 1;
      assert xs == xs[..n] + [xs[n]];
      PreorderOnFewer(le, xs + [c], xs[..n] + [c]);
      SortByTies(xs[..n], le, c);
      var s := SortBy(xs[..n], le);
      forall y | y in s ensures y in xs + [c] {
        assert y in multiset(s);
        assert y in xs[..n];
      }
      assert xs[n] in xs + [c] && c in xs + [c];
      InsertTies(xs[n], s, le, c);
    }
  }

  /** The sort is stable: under a total preorder, the elements tied with any
      one element keep, in the result, the order they had in the input. */
  lemma SortByStable<T>(xs: seq<T>, le: (T, T) -> bool, c: T)
    requires TotalPreorderOn(le, xs) && c in xs
    ensures Ties(SortBy(xs, le), c, le) == Ties(xs, c, le)
  {
    assert forall a :: a in xs + [c] ==> a in xs;
    SortByTies(xs, le, c);
  }
}

/** Python's stable `sorted(..., key=...)`, as insertion sort under a total preorder. */
module Sorting {

  /** `le` compares sort keys: total and transitive (ties allowed). */
  ghost predicate TotalPreorder<T(!new)>(le: (T, T) -> bool) {
    (forall a, b :: le(a, b) || le(b, a)) &&
    (forall a, b, c :: le(a, b) && le(b, c) ==> le(a, c))
  }

  predicate SortedBy<T>(s: seq<T>, le: (T, T) -> bool) {
    forall i, j :: 0 <= i < j < |s| ==> le(s[i], s[j])
  }

  /** Inserts `x` after every element whose key is not greater, so equal keys keep their order. */
  function InsertBy<T>(x: T, t: seq<T>, le: (T, T) -> bool): (r: seq<T>)
    ensures multiset(r) == multiset(t) + multiset{x}
    ensures |r| == |t| + 1
  {
    if t == [] then [x]
    else if le(t[|t| - 1], x) then t + [x]
    else
      var init := t[..|t| - 1];
      assert t == init + [t[|t| - 1]];
      InsertBy(x, init, le) + [t[|t| - 1]]
  }

  /** `sorted(s, key=...)` */
  function SortBy<T>(s: seq<T>, le: (T, T) -> bool): (r: seq<T>)
    ensures multiset(r) == multiset(s)
    ensures |r| == |s|
  {
    if s == [] then []
    else
      var init := s[..|s| - 1];
      assert s == init + [s[|s| - 1]];
      InsertBy(s[|s| - 1], SortBy(init, le), le)
  }

  lemma {:induction false} InsertBySorted<T(!new)>(x: T, t: seq<T>, le: (T, T) -> bool)
    requires TotalPreorder(le)
    requires SortedBy(t, le)
    ensures SortedBy(InsertBy(x, t, le), le)
    decreases |t|
  {
    if t != [] && !le(t[|t| - 1], x) {
      var init := t[..|t| - 1];
      var last := t[|t| - 1];
      InsertBySorted(x, init, le);
      var r0 := InsertBy(x, init, le);
      assert le(x, last);
      forall y | y in multiset(r0) ensures le(y, last) {
        assert y in multiset(init) + multiset{x};
        if y in multiset(init) {
          var k :| 0 <= k < |init| && init[k] == y;
          assert t[k] == y;
        }
      }
      var r := r0 + [last];
      forall i, j | 0 <= i < j < |r| ensures le(r[i], r[j]) {
        if j == |r| - 1 {
          assert r[i] in multiset(r0);
        }
      }
    }
  }

  /** The result of `SortBy` is sorted. */
  lemma {:induction false} SortBySorted<T(!new)>(s: seq<T>, le: (T, T) -> bool)
    requires TotalPreorder(le)
    ensures SortedBy(SortBy(s, le), le)
    decreases |s|
  {
    if s != [] {
      SortBySorted(s[..|s| - 1], le);
      InsertBySorted(s[|s| - 1], SortBy(s[..|s| - 1], le), le);
    }
  }

  /** A sorted sequence is left unchanged by sorting. */
  lemma {:induction false} SortBySortedIdentity<T(!new)>(s: seq<T>, le: (T, T) -> bool)
    requires SortedBy(s, le)
    ensures SortBy(s, le) == s
    decreases |s|
  {
    if s != [] {
      var init, last := s[..|s| - 1], s[|s| - 1];
      assert SortedBy(init, le);
      SortBySortedIdentity(init, le);
      assert SortBy(s, le) == InsertBy(last, init, le);
      if init != [] {
        assert le(s[|init| - 1], last);
      }
      assert InsertBy(last, init, le) == init + [last];
      assert init + [last] == s;
    }
  }

  /** No two different elements of `s` are ordered both ways. */
  ghost predicate Antisymmetric<T(!new)>(s: seq<T>, le: (T, T) -> bool) {
    forall x, y :: x in s && y in s && le(x, y) && le(y, x) ==> x == y
  }

  /**
   * Two sorted arrangements of the same elements are equal when no two
   * different elements are ordered both ways.
   */
  lemma {:induction false} SortedUnique<T(!new)>(a: seq<T>, b: seq<T>, le: (T, T) -> bool)
    requires SortedBy(a, le) && SortedBy(b, le)
    requires multiset(a) == multiset(b)
    requires Antisymmetric(a, le)
    ensures a == b
    decreases |a|
  {
    assert |b| == |a| by { assert |multiset(b)| == |multiset(a)|; }
    if a != [] {
      SortedHeads(a, b, le);
      var a', b' := a[1..], b[1..];
      assert a == [a[0]] + a' && b == [b[0]] + b';
      MultisetTail(a, b);
      assert SortedBy(a', le) && SortedBy(b', le);
      assert Antisymmetric(a', le) by {
        assert forall x :: x in a' ==> x in a;
      }
      SortedUnique(a', b', le);
    }
  }

  lemma SortedHeads<T(!new)>(a: seq<T>, b: seq<T>, le: (T, T) -> bool)
    requires SortedBy(a, le) && SortedBy(b, le)
    requires multiset(a) == multiset(b) && a != []
    requires Antisymmetric(a, le)
    ensures b != [] && a[0] == b[0]
  {
    assert a[0] in multiset(b);
    var j :| 0 <= j < |b| && b[j] == a[0];
    assert b[0] in multiset(a);
    var i :| 0 <= i < |a| && a[i] == b[0];
  }

  lemma MultisetTail<T>(a: seq<T>, b: seq<T>)
    requires a != [] && b != [] && a[0] == b[0] && multiset(a) == multiset(b)
    ensures multiset(a[1..]) == multiset(b[1..])
  {
    assert a == [a[0]] + a[1..] && b == [b[0]] + b[1..];
    var m := multiset{a[0]};
    assert multiset(a) == m + multiset(a[1..]);
    assert multiset(b) == m + multiset(b[1..]);
    forall x ensures multiset(a[1..])[x] == multiset(b[1..])[x] {
      assert multiset(a)[x] == m[x] + multiset(a[1..])[x];
      assert multiset(b)[x] == m[x] + multiset(b[1..])[x];
    }
  }

  /** A prefix holds each element at most as often as the whole sequence. */
  lemma PrefixMultiset<T>(t: seq<T>, n: nat)
    requires n <= |t|
    ensures multiset(t[..n]) <= multiset(t)
    ensures n == |t| ==> multiset(t[..n]) == multiset(t)
  {
    assert t == t[..n] + t[n..];
  }

  /**
   * The first `n` of a sorted rearrangement `t` of `s` are drawn from `s`,
   * each element at most as often as it occurs there, are sorted, and sort no
   * later than any element of `s` outside them.
   */
  lemma SortedPrefix<T>(s: seq<T>, t: seq<T>, le: (T, T) -> bool, n: nat)
    requires SortedBy(t, le) && multiset(t) == multiset(s) && n <= |t|
    ensures var r := t[..n];
      multiset(r) <= multiset(s) && (n == |s| ==> multiset(r) == multiset(s)) &&
      (forall x :: x in r ==> x in s) && SortedBy(r, le) &&
      (forall x, y :: x in s && x !in r && y in r ==> le(y, x))
  {
    PrefixMultiset(t, n);
    forall x | x in t[..n] ensures x in s {
      assert x in multiset(t[..n]);
    }
    forall x, y | x in s && x !in t[..n] && y in t[..n] ensures le(y, x) {
      assert x in multiset(s);
      var j :| 0 <= j < |t| && t[j] == x;
      var i :| 0 <= i < n && t[..n][i] == y;
      assert j >= n;
    }
  }

  /**
   * The first `n` of a sort are drawn from the input, each element at most as
   * often as it occurs there (all of it when `n` is the length), are sorted,
   * and come before every input element left out of them.
   */
  lemma SortedTop<T(!new)>(s: seq<T>, le: (T, T) -> bool, n: nat)
    requires TotalPreorder(le) && n <= |s|
    ensures var r := SortBy(s, le)[..n];
      multiset(r) <= multiset(s) && (n == |s| ==> multiset(r) == multiset(s)) &&
      (forall x :: x in r ==> x in s) && SortedBy(r, le) &&
      (forall x, y :: x in s && x !in r && y in r ==> le(y, x))
  {
    SortBySorted(s, le);
    SortedPrefix(s, SortBy(s, le), le, n);
  }
}

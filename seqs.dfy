/**
 * Sequence helpers: order-preserving filters, first-match search and
 * counting, as the handlers' queries and the pages' list filters use them.
 */
module Seqs {
  import opened Wrappers

  /** The elements of `s` that satisfy `p`, in their original order. */
  function Filter<T(==)>(s: seq<T>, p: T -> bool): (r: seq<T>)
    ensures |r| <= |s|
    ensures forall k :: 0 <= k < |r| ==> r[k] in s && p(r[k])
    ensures forall k :: 0 <= k < |s| && p(s[k]) ==> s[k] in r
  {
    if s == [] then []
    else
      var rest := Filter(s[1..], p);
      assert forall k :: 1 <= k < |s| ==> s[k] == s[1..][k - 1];
      if p(s[0]) then [s[0]] + rest else rest
  }

  /** `r` can be obtained from `s` by deleting elements. */
  predicate IsSubsequence<T(==)>(r: seq<T>, s: seq<T>)
    decreases |s|
  {
    if r == [] then true
    else if s == [] then false
    else if r[0] == s[0] then IsSubsequence(r[1..], s[1..])
    else IsSubsequence(r, s[1..])
  }

  /** A filter keeps the order of what it keeps. */
  lemma {:induction false} FilterIsSubsequence<T>(s: seq<T>, p: T -> bool)
    ensures IsSubsequence(Filter(s, p), s)
    decreases |s|
  {
    if s != [] {
      FilterIsSubsequence(s[1..], p);
      if p(s[0]) {
        assert Filter(s, p)[1..] == Filter(s[1..], p);
      } else if Filter(s, p) != [] {
        assert p(Filter(s, p)[0]);
      }
    }
  }

  /** The conjunction of two predicates. */
  function Both<T>(p: T -> bool, q: T -> bool): T -> bool
  {
    x => p(x) && q(x)
  }

  /** Filtering by `p` and then by `q` is filtering by both. */
  lemma {:induction false} FilterFilter<T>(s: seq<T>, p: T -> bool, q: T -> bool)
    ensures Filter(Filter(s, p), q) == Filter(s, Both(p, q))
    decreases |s|
  {
    if s != [] {
      FilterFilter(s[1..], p, q);
      if p(s[0]) {
        assert Filter(s, p) == [s[0]] + Filter(s[1..], p);
        assert ([s[0]] + Filter(s[1..], p))[1..] == Filter(s[1..], p);
      }
    }
  }

  /** Filtering distributes over concatenation. */
  lemma {:induction false} FilterAppend<T>(a: seq<T>, b: seq<T>, p: T -> bool)
    ensures Filter(a + b, p) == Filter(a, p) + Filter(b, p)
    decreases |a|
  {
    if a == [] {
      assert a + b == b;
    } else {
      assert (a + b)[1..] == a[1..] + b;
      FilterAppend(a[1..], b, p);
    }
  }

  /** Filtering with a predicate every element satisfies changes nothing. */
  lemma {:induction false} FilterAll<T>(s: seq<T>, p: T -> bool)
    requires forall k :: 0 <= k < |s| ==> p(s[k])
    ensures Filter(s, p) == s
    decreases |s|
  {
    if s != [] {
      FilterAll(s[1..], p);
    }
  }

  /** Two predicates that agree on every element of `s` filter it alike. */
  lemma {:induction false} FilterAgrees<T>(s: seq<T>, p: T -> bool, q: T -> bool)
    requires forall k :: 0 <= k < |s| ==> p(s[k]) == q(s[k])
    ensures Filter(s, p) == Filter(s, q)
    decreases |s|
  {
    if s != [] {
      FilterAgrees(s[1..], p, q);
    }
  }

  /** The number of elements of `s` that satisfy `p`. */
  function Count<T>(s: seq<T>, p: T -> bool): (n: nat)
    ensures n <= |s|
    ensures n == 0 <==> forall k :: 0 <= k < |s| ==> !p(s[k])
  {
    if s == [] then 0
    else
      var rest := Count(s[1..], p);
      assert forall k :: 1 <= k < |s| ==> s[k] == s[1..][k - 1];
      (if p(s[0]) then 1 else 0) + rest
  }

  /** Count is the length of the filter. */
  lemma {:induction false} CountIsFilterLength<T>(s: seq<T>, p: T -> bool)
    ensures Count(s, p) == |Filter(s, p)|
    decreases |s|
  {
    if s != [] {
      CountIsFilterLength(s[1..], p);
    }
  }

  /** Counting over a sequence with one more element at the end. */
  lemma {:induction false} CountSnoc<T>(s: seq<T>, x: T, p: T -> bool)
    ensures Count(s + [x], p) == Count(s, p) + (if p(x) then 1 else 0)
    decreases |s|
  {
    if s == [] {
      assert s + [x] == [x];
    } else {
      assert (s + [x])[1..] == s[1..] + [x];
      CountSnoc(s[1..], x, p);
    }
  }

  /** The position of the first element of `s` that satisfies `p`. */
  function FirstIndex<T>(s: seq<T>, p: T -> bool): (r: Option<nat>)
    ensures r.Some? ==> r.value < |s| && p(s[r.value])
    ensures r.Some? ==> forall k :: 0 <= k < r.value ==> !p(s[k])
    ensures r.None? <==> forall k :: 0 <= k < |s| ==> !p(s[k])
  {
    if s == [] then None
    else if p(s[0]) then Some(0)
    else
      match FirstIndex(s[1..], p)
      case None =>
        assert forall k :: 1 <= k < |s| ==> s[k] == s[1..][k - 1];
        None
      case Some(i) => Some(i + 1)
  }

  /**
   * Searching a sequence whose elements agree with the old ones on `p`
   * finds the same position.
   */
  lemma {:induction false} FirstIndexAgrees<T>(s: seq<T>, t: seq<T>, p: T -> bool)
    requires |s| == |t|
    requires forall k :: 0 <= k < |s| ==> p(s[k]) == p(t[k])
    ensures FirstIndex(s, p) == FirstIndex(t, p)
    decreases |s|
  {
    if s != [] && !p(s[0]) {
      FirstIndexAgrees(s[1..], t[1..], p);
    }
  }

  /**
   * Searching two sequences of one length whose elements agree position by
   * position on the two predicates finds the same position.
   */
  lemma {:induction false} FirstIndexAgreesAcross<T, U>(s: seq<T>, t: seq<U>, p: T -> bool, q: U -> bool)
    requires |s| == |t|
    requires forall k :: 0 <= k < |s| ==> p(s[k]) == q(t[k])
    ensures FirstIndex(s, p) == FirstIndex(t, q)
    decreases |s|
  {
    if s != [] && !p(s[0]) {
      FirstIndexAgreesAcross(s[1..], t[1..], p, q);
    }
  }

  /** The first position that satisfies `p` is the one FirstIndex finds. */
  lemma {:induction false} FirstIndexAt<T>(s: seq<T>, p: T -> bool, i: nat)
    requires i < |s| && p(s[i])
    requires forall k :: 0 <= k < i ==> !p(s[k])
    ensures FirstIndex(s, p) == Some(i)
    decreases i
  {
    if i > 0 {
      FirstIndexAt(s[1..], p, i - 1);
    }
  }

  /** The positions of `s` whose elements satisfy `p`, in increasing order. */
  function Positions<T>(s: seq<T>, p: T -> bool): (r: seq<nat>)
    ensures forall k :: 0 <= k < |r| ==> r[k] < |s| && p(s[r[k]])
    ensures forall i :: 0 <= i < |s| && p(s[i]) ==> i in r
    ensures forall k, l :: 0 <= k < l < |r| ==> r[k] < r[l]
    decreases |s|
  {
    if s == [] then []
    else
      var init := Positions(s[..|s| - 1], p);
      if p(s[|s| - 1]) then init + [|s| - 1] else init
  }

  /** `key` never increases along `s`. */
  predicate Descending<T>(s: seq<T>, key: T -> int)
  {
    forall i, j :: 0 <= i < j < |s| ==> key(s[i]) >= key(s[j])
  }

  /** Puts `x` into `sorted` ahead of the first element whose key is no larger. */
  function InsertDescending<T(==)>(x: T, sorted: seq<T>, key: T -> int): (r: seq<T>)
    ensures |r| == |sorted| + 1
    ensures multiset(r) == multiset(sorted) + multiset{x}
    decreases |sorted|
  {
    if sorted == [] || key(sorted[0]) <= key(x) then [x] + sorted
    else
      assert sorted == [sorted[0]] + sorted[1..];
      [sorted[0]] + InsertDescending(x, sorted[1..], key)
  }

  /** Inserting into a descending sequence keeps it descending. */
  lemma {:induction false} InsertKeepsDescending<T>(x: T, sorted: seq<T>, key: T -> int)
    requires Descending(sorted, key)
    ensures Descending(InsertDescending(x, sorted, key), key)
    ensures var r := InsertDescending(x, sorted, key); r[0] == x || (sorted != [] && r[0] == sorted[0])
    decreases |sorted|
  {
    if sorted != [] && key(x) < key(sorted[0]) {
      InsertKeepsDescending(x, sorted[1..], key);
      var rest := InsertDescending(x, sorted[1..], key);
      assert key(rest[0]) <= key(sorted[0]);
      assert InsertDescending(x, sorted, key) == [sorted[0]] + rest;
    }
  }

  /**
   * `s` ordered by `key`, largest first (`ORDER BY key DESC`): a
   * permutation of `s`. Elements with equal keys end up later-first.
   */
  function SortDescending<T(==)>(s: seq<T>, key: T -> int): (r: seq<T>)
    ensures multiset(r) == multiset(s)
    ensures |r| == |s|
    decreases |s|
  {
    if s == [] then []
    else
      var init := s[..|s| - 1];
      assert s == init + [s[|s| - 1]];
      InsertDescending(s[|s| - 1], SortDescending(init, key), key)
  }

  /** The sorted sequence is descending by `key`. */
  lemma {:induction false} SortIsDescending<T>(s: seq<T>, key: T -> int)
    ensures Descending(SortDescending(s, key), key)
    decreases |s|
  {
    if s != [] {
      SortIsDescending(s[..|s| - 1], key);
      InsertKeepsDescending(s[|s| - 1], SortDescending(s[..|s| - 1], key), key);
    }
  }

  /** Two sequences with the same multiset have the same elements. */
  lemma SameMembers<T>(a: seq<T>, b: seq<T>)
    requires multiset(a) == multiset(b)
    ensures forall k :: 0 <= k < |a| ==> a[k] in b
  {
    forall k | 0 <= k < |a|
      ensures a[k] in b
    {
      assert a[k] in multiset(a);
    }
  }

  /** The first `n` elements by `key`, largest first (`ORDER BY key DESC LIMIT n`). */
  function Top<T(==)>(s: seq<T>, key: T -> int, n: nat): (r: seq<T>)
    ensures |r| <= n
  {
    var all := SortDescending(s, key);
    if |all| <= n then all else all[..n]
  }

  /**
   * The top elements come from `s`, largest first, as many as `s` has up
   * to `n`, and no element left out has a larger key than a listed one.
   */
  lemma TopAreLargest<T>(s: seq<T>, key: T -> int, n: nat)
    ensures var top := Top(s, key, n);
      && (forall k :: 0 <= k < |top| ==> top[k] in s)
      && Descending(top, key)
      && |top| == (if |s| <= n then |s| else n)
      && (forall x :: x in s && x !in top ==> forall k :: 0 <= k < |top| ==> key(x) <= key(top[k]))
  {
    var all := SortDescending(s, key);
    SortIsDescending(s, key);
    SameMembers(all, s);
    var top := Top(s, key, n);
    assert top == all[..|top|];
    forall k | 0 <= k < |top|
      ensures top[k] in s
    {
      assert top[k] == all[k];
    }
    forall x | x in s && x !in top
      ensures forall k :: 0 <= k < |top| ==> key(x) <= key(top[k])
    {
      var i :| 0 <= i < |s| && s[i] == x;
      SameMembers(s, all);
      var j :| 0 <= j < |all| && all[j] == x;
      assert j >= |top|;
    }
  }

}
